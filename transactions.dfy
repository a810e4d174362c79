/** Queries over the Transactions table, which the handlers read in row order. */
module Transactions {
  import opened Types
  import opened Commission

  /** The elements of `s` that `keep` accepts, in their order in `s`
      (a `where` clause over a table). */
  function Filter<T(!new)>(s: seq<T>, keep: T -> bool): (r: seq<T>)
    ensures |r| <= |s|
    ensures forall x :: x in r <==> x in s && keep(x)
  {
    if s == [] then []
    else
      var init, last := s[..|s| - 1], s[|s| - 1];
      assert s == init + [last];
      Filter(init, keep) + (if keep(last) then [last] else [])
  }

  /** Filtering distributes over concatenation: the kept rows of `a` come
      before the kept rows of `b`, so the filter keeps the table order. */
  lemma {:induction false} FilterAppend<T(!new)>(a: seq<T>, b: seq<T>, keep: T -> bool)
    ensures Filter(a + b, keep) == Filter(a, keep) + Filter(b, keep)
  {
    if b == [] {
      assert a + b == a;
    } else {
      var init, last := b[..|b| - 1], b[|b| - 1];
      var tail := if keep(last) then [last] else [];
      assert (a + b)[..|a + b| - 1] == a + init;
      assert (a + b)[|a + b| - 1] == last;
      assert Filter(a + b, keep) == Filter(a + init, keep) + tail;
      assert Filter(b, keep) == Filter(init, keep) + tail;
      FilterAppend(a, init, keep);
    }
  }

  /** The rows that pay `u` (`where: { parentId: u }`). */
  function Credits(rows: seq<TxRow>, u: Id): seq<TxRow> {
    Filter(rows, (x: TxRow) => x.parentId == u)
  }

  lemma CreditsSnoc(rows: seq<TxRow>, x: TxRow, u: Id)
    ensures Credits(rows + [x], u) == Credits(rows, u) + (if x.parentId == u then [x] else [])
  {
    assert (rows + [x])[..|rows|] == rows;
  }

  /** The rows whose buyer is not `u`: what `destroy({ where: { userId: u } })` leaves. */
  function Purge(rows: seq<TxRow>, u: Id): (r: seq<TxRow>)
    ensures |r| <= |rows|
    ensures forall x :: x in r <==> x in rows && x.userId != u
  {
    Filter(rows, (x: TxRow) => x.userId != u)
  }

  /** The sum of `profitEarned` over `rows`, accumulated left to right. */
  function SumProfit(rows: seq<TxRow>): real {
    if rows == [] then 0.0
    else SumProfit(rows[..|rows| - 1]) + rows[|rows| - 1].profitEarned
  }

  /** The sum of `profitEarned` over the rows that pay `u` at percentage `pct`. */
  function Earned(rows: seq<TxRow>, u: Id, pct: int): real {
    if rows == [] then 0.0
    else
      var last := rows[|rows| - 1];
      Earned(rows[..|rows| - 1], u, pct)
        + (if last.parentId == u && last.profitPercentage == pct then last.profitEarned else 0.0)
  }

  /** The `sources` projection of the distribution report. */
  function Sources(rows: seq<TxRow>): (r: seq<Source>)
    ensures |r| == |rows|
    ensures forall k :: 0 <= k < |rows| ==>
              r[k] == Source(rows[k].userId, rows[k].amount, rows[k].profitEarned)
  {
    seq(|rows|, k requires 0 <= k < |rows| =>
      Source(rows[k].userId, rows[k].amount, rows[k].profitEarned))
  }

  lemma SourcesSnoc(rows: seq<TxRow>, x: TxRow)
    ensures Sources(rows + [x]) == Sources(rows) + [Source(x.userId, x.amount, x.profitEarned)]
  {
  }

  /** A row as the transaction handler writes it: tier 1 at 5 percent or
      tier 2 at 1 percent of an amount above the threshold, paying someone
      who registered before the buyer. */
  ghost predicate WellFormedRow(x: TxRow) {
    && x.amount > Threshold
    && x.parentId < x.userId
    && ((x.profitPercentage == 5 && x.profitEarned == CalculateProfit(x.amount, 1))
        || (x.profitPercentage == 1 && x.profitEarned == CalculateProfit(x.amount, 2)))
  }

  ghost predicate WellFormedRows(rows: seq<TxRow>) {
    forall x :: x in rows ==> WellFormedRow(x)
  }

  lemma SumProfitAppend(rows: seq<TxRow>, x: TxRow)
    ensures SumProfit(rows + [x]) == SumProfit(rows) + x.profitEarned
  {
    assert (rows + [x])[..|rows|] == rows;
  }

  /** Every row pays 5 or 1 percent, so what a beneficiary is paid splits
      into its direct and its indirect part. */
  lemma {:induction false} SumSplitsByTier(rows: seq<TxRow>, u: Id)
    requires forall x :: x in rows ==> x.profitPercentage == 5 || x.profitPercentage == 1
    ensures SumProfit(Credits(rows, u)) == Earned(rows, u, 5) + Earned(rows, u, 1)
  {
    if rows != [] {
      var init, last := rows[..|rows| - 1], rows[|rows| - 1];
      assert rows == init + [last];
      SumSplitsByTier(init, u);
      if last.parentId == u {
        assert Credits(rows, u) == Credits(init, u) + [last];
        SumProfitAppend(Credits(init, u), last);
      } else {
        assert Credits(rows, u) == Credits(init, u);
      }
    }
  }

  /** One step of the distribution fold: the next row adds its profit and its
      source exactly when it pays `u`. */
  lemma FoldStep(rows: seq<TxRow>, i: nat, u: Id)
    requires i < |rows|
    ensures var x := rows[i];
            && SumProfit(Credits(rows[..i + 1], u))
               == SumProfit(Credits(rows[..i], u)) + (if x.parentId == u then x.profitEarned else 0.0)
            && Sources(Credits(rows[..i + 1], u))
               == Sources(Credits(rows[..i], u))
                  + (if x.parentId == u then [Source(x.userId, x.amount, x.profitEarned)] else [])
  {
    var x := rows[i];
    var before := Credits(rows[..i], u);
    assert rows[..i + 1] == rows[..i] + [x];
    CreditsSnoc(rows[..i], x, u);
    if x.parentId == u {
      SumProfitAppend(before, x);
      SourcesSnoc(before, x);
    } else {
      assert Credits(rows[..i + 1], u) == before;
      assert Sources(before) + [] == Sources(before);
    }
  }

  lemma EarnedSnoc(rows: seq<TxRow>, x: TxRow, u: Id, pct: int)
    ensures Earned(rows + [x], u, pct)
            == Earned(rows, u, pct) + (if x.parentId == u && x.profitPercentage == pct then x.profitEarned else 0.0)
  {
    assert (rows + [x])[..|rows|] == rows;
  }

  /** Removing a buyer's rows never raises what anyone has earned from the table. */
  lemma {:induction false} PurgeNoMore(rows: seq<TxRow>, b: Id, u: Id, pct: int)
    requires forall x :: x in rows ==> x.profitEarned >= 0.0
    ensures Earned(Purge(rows, b), u, pct) <= Earned(rows, u, pct)
  {
    if rows != [] {
      var init, last := rows[..|rows| - 1], rows[|rows| - 1];
      assert rows == init + [last];
      assert forall x :: x in init ==> x in rows;
      PurgeNoMore(init, b, u, pct);
      if last.userId != b {
        assert Purge(rows, b) == Purge(init, b) + [last];
        EarnedSnoc(Purge(init, b), last, u, pct);
      } else {
        assert Purge(rows, b) == Purge(init, b);
      }
    }
  }

  /** When the buyer `b` has a row paying `u` a positive profit at `pct`,
      removing `b`'s rows strictly lowers what `u` has earned at `pct`. */
  lemma {:induction false} PurgeLess(rows: seq<TxRow>, b: Id, u: Id, pct: int, k: nat)
    requires forall x :: x in rows ==> x.profitEarned >= 0.0
    requires k < |rows| && rows[k].userId == b && rows[k].parentId == u
    requires rows[k].profitPercentage == pct && rows[k].profitEarned > 0.0
    ensures Earned(Purge(rows, b), u, pct) < Earned(rows, u, pct)
  {
    var init, last := rows[..|rows| - 1], rows[|rows| - 1];
    assert rows == init + [last];
    assert forall x :: x in init ==> x in rows;
    if k == |rows| - 1 {
      assert Purge(rows, b) == Purge(init, b);
      PurgeNoMore(init, b, u, pct);
    } else {
      assert init[k] == rows[k];
      PurgeLess(init, b, u, pct, k);
      if last.userId != b {
        assert Purge(rows, b) == Purge(init, b) + [last];
        EarnedSnoc(Purge(init, b), last, u, pct);
      } else {
        assert Purge(rows, b) == Purge(init, b);
      }
    }
  }
}
