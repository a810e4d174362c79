/** The Earnings table: one row per beneficiary, created on the first credit,
    holding a direct (tier 1) and an indirect (tier 2) running total. */
module Ledger {
  import opened Types
  import opened Transactions

  /** A user's direct total, 0 when the user has no row (the report's `|| 0`). */
  function DirectOf(e: map<Id, Earn>, u: Id): real {
    if u in e then e[u].totalDirectEarnings else 0.0
  }

  /** A user's indirect total, 0 when the user has no row. */
  function IndirectOf(e: map<Id, Earn>, u: Id): real {
    if u in e then e[u].totalIndirectEarnings else 0.0
  }

  /** The Transactions percentage written for a tier. */
  function Percentage(tier: int): int {
    if tier == 1 then 5 else 1
  }

  /** The table after `profit` is credited to `u` at `tier`: `u` now has a row,
      only the total of that tier moved, and every other row is as it was. */
  function Credit(e: map<Id, Earn>, u: Id, profit: real, tier: int): (r: map<Id, Earn>)
    ensures r.Keys == e.Keys + {u}
    ensures forall v :: v in e && v != u ==> r[v] == e[v]
    ensures DirectOf(r, u) == DirectOf(e, u) + (if tier == 1 then profit else 0.0)
    ensures IndirectOf(r, u) == IndirectOf(e, u) + (if tier == 2 then profit else 0.0)
  {
    e[u := Earn(DirectOf(e, u) + (if tier == 1 then profit else 0.0),
                IndirectOf(e, u) + (if tier == 2 then profit else 0.0))]
  }

  /** A credit of a non-negative profit never lowers any total. */
  lemma CreditMonotone(e: map<Id, Earn>, u: Id, profit: real, tier: int)
    requires profit >= 0.0
    ensures forall v :: DirectOf(e, v) <= DirectOf(Credit(e, u, profit, tier), v)
    ensures forall v :: IndirectOf(e, v) <= IndirectOf(Credit(e, u, profit, tier), v)
  {
  }

  /** The `earnings_update` payload sent for that credit. When the row is
      created the handler still holds no row object, so both totals are
      absent; otherwise they are the totals after the credit. */
  function Notice(e: map<Id, Earn>, u: Id, profit: real, tier: int): (ev: Event)
    ensures ev.userId == u
    ensures ev.totalDirectEarnings.None? <==> u !in e
    ensures ev.totalIndirectEarnings.None? <==> u !in e
    ensures u in e ==>
              ev.totalDirectEarnings == Some(Credit(e, u, profit, tier)[u].totalDirectEarnings)
              && ev.totalIndirectEarnings == Some(Credit(e, u, profit, tier)[u].totalIndirectEarnings)
  {
    if u !in e then EarningsUpdate(u, None, None)
    else
      var row := e[u];
      EarningsUpdate(u,
        Some(row.totalDirectEarnings + (if tier == 1 then profit else 0.0)),
        Some(row.totalIndirectEarnings + (if tier == 2 then profit else 0.0)))
  }

  /** The ledger agrees with the Transactions table: every user's direct total
      is what the 5 percent rows pay them, and the indirect total what the
      1 percent rows pay them. */
  ghost predicate Reconciled(rows: seq<TxRow>, e: map<Id, Earn>) {
    forall u: Id :: DirectOf(e, u) == Earned(rows, u, 5) && IndirectOf(e, u) == Earned(rows, u, 1)
  }

  lemma EmptyReconciled()
    ensures Reconciled([], map[])
  {
  }

  /** Writing a row and crediting its beneficiary at the row's tier keeps the
      ledger in agreement with the table. */
  lemma CreditKeepsReconciled(rows: seq<TxRow>, e: map<Id, Earn>, row: TxRow, tier: int)
    requires Reconciled(rows, e)
    requires tier == 1 || tier == 2
    requires row.profitPercentage == Percentage(tier)
    ensures Reconciled(rows + [row], Credit(e, row.parentId, row.profitEarned, tier))
  {
    var rows', e' := rows + [row], Credit(e, row.parentId, row.profitEarned, tier);
    assert rows'[..|rows'| - 1] == rows;
    forall u: Id
      ensures DirectOf(e', u) == Earned(rows', u, 5) && IndirectOf(e', u) == Earned(rows', u, 1)
    {
      assert DirectOf(e, u) == Earned(rows, u, 5) && IndirectOf(e, u) == Earned(rows, u, 1);
    }
  }

  /** When the ledger is reconciled, what the distribution report totals for a
      beneficiary is the sum of that user's two earnings totals. */
  lemma DistributionMatchesEarnings(rows: seq<TxRow>, e: map<Id, Earn>, u: Id)
    requires Reconciled(rows, e)
    requires forall x :: x in rows ==> x.profitPercentage == 5 || x.profitPercentage == 1
    ensures SumProfit(Credits(rows, u)) == DirectOf(e, u) + IndirectOf(e, u)
  {
    SumSplitsByTier(rows, u);
    assert DirectOf(e, u) == Earned(rows, u, 5) && IndirectOf(e, u) == Earned(rows, u, 1);
  }

  /** Deleting a user who bought anything breaks that agreement: the
      buyer's rows leave the Transactions table while the totals they paid
      stay in the Earnings table of the beneficiary, who registered before
      the buyer and so is not the deleted user. */
  lemma DeleteLeavesStaleTotals(rows: seq<TxRow>, e: map<Id, Earn>, b: Id, k: nat)
    requires Reconciled(rows, e) && WellFormedRows(rows)
    requires k < |rows| && rows[k].userId == b
    ensures !Reconciled(Purge(rows, b), e - {b})
  {
    var x := rows[k];
    var p, pct := x.parentId, x.profitPercentage;
    assert x in rows && WellFormedRow(x);
    assert p != b;
    forall y | y in rows ensures y.profitEarned >= 0.0 {
      assert WellFormedRow(y);
    }
    PurgeLess(rows, b, p, pct, k);
    assert DirectOf(e, p) == Earned(rows, p, 5) && IndirectOf(e, p) == Earned(rows, p, 1);
    assert DirectOf(e - {b}, p) == DirectOf(e, p) && IndirectOf(e - {b}, p) == IndirectOf(e, p);
  }
}
