/** The commission engine of the transaction handler: which rows one purchase
    writes, and what writing them does to the Earnings table and the broadcast. */
module Engine {
  import opened Types
  import opened Commission
  import opened Transactions
  import opened Ledger
  import opened Referrals

  /** A Transactions row to write and the tier whose total it credits. */
  datatype Payout = Payout(row: TxRow, tier: int)

  /** The payouts of a purchase of `amount` by `buyer`. Tier 1 pays the
      buyer's `parentId` whether or not that user still exists; tier 2 is
      looked up through the parent's own row, so it is skipped when the
      parent is gone, and pays the parent's `parentId` unchecked. */
  function Payouts(users: map<Id, User>, buyer: Id, amount: real): (ps: seq<Payout>)
    ensures |ps| <= 2
    ensures ps == [] <==> buyer !in users || users[buyer].parentId.None? || amount <= Threshold
    ensures |ps| >= 1 ==>
              ps[0] == Payout(TxRow(buyer, amount, users[buyer].parentId.value, 5, amount * 0.05), 1)
    ensures |ps| == 2 <==>
              && ps != []
              && users[buyer].parentId.value in users
              && users[users[buyer].parentId.value].parentId.Some?
    ensures |ps| == 2 ==>
              ps[1] == Payout(TxRow(buyer, amount, users[users[buyer].parentId.value].parentId.value,
                                    1, amount * 0.01), 2)
  {
    if buyer !in users || users[buyer].parentId.None? then []
    else
      var p := users[buyer].parentId.value;
      var directProfit := CalculateProfit(amount, 1);
      var direct := if directProfit > 0.0 then [Payout(TxRow(buyer, amount, p, 5, directProfit), 1)] else [];
      var indirect :=
        if p in users && users[p].parentId.Some? then
          var indirectProfit := CalculateProfit(amount, 2);
          if indirectProfit > 0.0
          then [Payout(TxRow(buyer, amount, users[p].parentId.value, 1, indirectProfit), 2)]
          else []
        else [];
      direct + indirect
  }

  /** The rows the payouts write, in order. */
  function Rows(ps: seq<Payout>): (r: seq<TxRow>)
    ensures |r| == |ps|
    ensures forall k :: 0 <= k < |ps| ==> r[k] == ps[k].row
  {
    if ps == [] then [] else [ps[0].row] + Rows(ps[1..])
  }

  /** The Earnings table after crediting every payout in order. */
  function ApplyAll(e: map<Id, Earn>, ps: seq<Payout>): map<Id, Earn>
    decreases |ps|
  {
    if ps == [] then e
    else ApplyAll(Credit(e, ps[0].row.parentId, ps[0].row.profitEarned, ps[0].tier), ps[1..])
  }

  /** Crediting a purchase's payouts gives a row to every beneficiary and
      leaves the row of every user it does not pay as it was. */
  lemma {:induction false} ApplyAllFrame(e: map<Id, Earn>, ps: seq<Payout>)
    ensures ApplyAll(e, ps).Keys == e.Keys + Beneficiaries(ps)
    ensures forall v :: v in e && v !in Beneficiaries(ps) ==> ApplyAll(e, ps)[v] == e[v]
    decreases |ps|
  {
    if ps != [] {
      var x := ps[0];
      ApplyAllFrame(Credit(e, x.row.parentId, x.row.profitEarned, x.tier), ps[1..]);
    }
  }

  /** The users a sequence of payouts credits. */
  function Beneficiaries(ps: seq<Payout>): set<Id> {
    if ps == [] then {} else {ps[0].row.parentId} + Beneficiaries(ps[1..])
  }

  /** The `earnings_update` events of crediting every payout in order. */
  function NoticesFor(e: map<Id, Earn>, ps: seq<Payout>): (evs: seq<Event>)
    ensures |evs| == |ps|
    ensures forall k :: 0 <= k < |ps| ==> evs[k].userId == ps[k].row.parentId
    decreases |ps|
  {
    if ps == [] then []
    else
      var x := ps[0];
      [Notice(e, x.row.parentId, x.row.profitEarned, x.tier)]
        + NoticesFor(Credit(e, x.row.parentId, x.row.profitEarned, x.tier), ps[1..])
  }

  /** A payout the handler writes is a well-formed row at its tier's percentage. */
  ghost predicate ProperPayout(x: Payout) {
    && (x.tier == 1 || x.tier == 2)
    && x.row.profitPercentage == Percentage(x.tier)
    && WellFormedRow(x.row)
  }

  /** In a consistent Users table every payout is proper: the parent and the
      grandparent registered before the buyer. */
  lemma PayoutsProper(users: map<Id, User>, nextId: Id, buyer: Id, amount: real)
    requires Forest(users, nextId)
    ensures forall x :: x in Payouts(users, buyer, amount) ==> ProperPayout(x)
  {
    var ps := Payouts(users, buyer, amount);
    if ps != [] {
      assert ProperPayout(ps[0]);
      if |ps| == 2 {
        var p := users[buyer].parentId.value;
        assert users[p].parentId.value < p < buyer;
        assert ProperPayout(ps[1]);
      }
    }
  }

  /** Crediting proper payouts keeps the ledger in agreement with the table. */
  lemma {:induction false} ApplyAllKeepsReconciled(rows: seq<TxRow>, e: map<Id, Earn>, ps: seq<Payout>)
    requires Reconciled(rows, e)
    requires forall x :: x in ps ==> ProperPayout(x)
    ensures Reconciled(rows + Rows(ps), ApplyAll(e, ps))
    decreases |ps|
  {
    if ps == [] {
      assert rows + Rows(ps) == rows;
    } else {
      var x, rest := ps[0], ps[1..];
      var rows1, e1 := rows + [x.row], Credit(e, x.row.parentId, x.row.profitEarned, x.tier);
      assert x in ps;
      CreditKeepsReconciled(rows, e, x.row, x.tier);
      assert forall y :: y in rest ==> y in ps;
      ApplyAllKeepsReconciled(rows1, e1, rest);
      RowsCons(rows, ps);
    }
  }

  lemma RowsCons(rows: seq<TxRow>, ps: seq<Payout>)
    requires |ps| > 0
    ensures rows + [ps[0].row] + Rows(ps[1..]) == rows + Rows(ps)
  {
    assert Rows(ps) == [ps[0].row] + Rows(ps[1..]);
  }

  /** Crediting one more payout extends the rows, the table and the events
      of the ones before it. */
  lemma {:induction false} ApplySnoc(e: map<Id, Earn>, done: seq<Payout>, x: Payout)
    ensures Rows(done + [x]) == Rows(done) + [x.row]
    ensures ApplyAll(e, done + [x])
            == Credit(ApplyAll(e, done), x.row.parentId, x.row.profitEarned, x.tier)
    ensures NoticesFor(e, done + [x])
            == NoticesFor(e, done) + [Notice(ApplyAll(e, done), x.row.parentId, x.row.profitEarned, x.tier)]
    decreases |done|
  {
    if done == [] {
      assert done + [x] == [x];
      ApplyOne(e, x);
    } else {
      var y := done[0];
      assert (done + [x])[0] == y && (done + [x])[1..] == done[1..] + [x];
      ApplySnoc(Credit(e, y.row.parentId, y.row.profitEarned, y.tier), done[1..], x);
    }
  }

  lemma Extend(rows: seq<TxRow>, events: seq<Event>, e: map<Id, Earn>, done: seq<Payout>, x: Payout)
    ensures rows + Rows(done + [x]) == (rows + Rows(done)) + [x.row]
    ensures ApplyAll(e, done + [x])
            == Credit(ApplyAll(e, done), x.row.parentId, x.row.profitEarned, x.tier)
    ensures events + NoticesFor(e, done + [x])
            == (events + NoticesFor(e, done))
               + [Notice(ApplyAll(e, done), x.row.parentId, x.row.profitEarned, x.tier)]
  {
    ApplySnoc(e, done, x);
  }

  lemma ShortSeq<T>(s: seq<T>)
    ensures |s| == 1 ==> s == [s[0]]
    ensures |s| == 2 ==> s == [s[0], s[1]]
  {
  }

  lemma ApplyOne(e: map<Id, Earn>, x: Payout)
    ensures Rows([x]) == [x.row]
    ensures ApplyAll(e, [x]) == Credit(e, x.row.parentId, x.row.profitEarned, x.tier)
    ensures NoticesFor(e, [x]) == [Notice(e, x.row.parentId, x.row.profitEarned, x.tier)]
  {
    assert [x][1..] == [];
  }

  /** With parent P and grandparent G, P's direct total rises by 5 percent,
      G's indirect total by 1 percent, and neither credit touches the other
      total or any other user's row. */
  lemma TwoTierTotals(users: map<Id, User>, nextId: Id, e: map<Id, Earn>, buyer: Id, amount: real)
    requires Forest(users, nextId)
    requires buyer in users && users[buyer].parentId.Some? && amount > Threshold
    requires users[buyer].parentId.value in users && users[users[buyer].parentId.value].parentId.Some?
    ensures var p := users[buyer].parentId.value;
            var g := users[p].parentId.value;
            var e' := ApplyAll(e, Payouts(users, buyer, amount));
            && p != g
            && DirectOf(e', p) == DirectOf(e, p) + amount * 0.05
            && IndirectOf(e', p) == IndirectOf(e, p)
            && IndirectOf(e', g) == IndirectOf(e, g) + amount * 0.01
            && DirectOf(e', g) == DirectOf(e, g)
            && e'.Keys == e.Keys + {p, g}
            && (forall v :: v in e && v != p && v != g ==> e'[v] == e[v])
  {
    var p := users[buyer].parentId.value;
    var g := users[p].parentId.value;
    var ps := Payouts(users, buyer, amount);
    assert ps[1..][1..] == [];
    var e1 := Credit(e, p, amount * 0.05, 1);
    var e2 := Credit(e1, g, amount * 0.01, 2);
    assert ApplyAll(e, ps) == ApplyAll(e1, ps[1..]);
    assert ApplyAll(e1, ps[1..]) == ApplyAll(e2, ps[1..][1..]);
  }

  /** With a parent P but no grandparent to pay, only P's direct total moves. */
  lemma OneTierTotals(users: map<Id, User>, e: map<Id, Earn>, buyer: Id, amount: real)
    requires buyer in users && users[buyer].parentId.Some? && amount > Threshold
    requires users[buyer].parentId.value !in users || users[users[buyer].parentId.value].parentId.None?
    ensures var p := users[buyer].parentId.value;
            var e' := ApplyAll(e, Payouts(users, buyer, amount));
            && DirectOf(e', p) == DirectOf(e, p) + amount * 0.05
            && IndirectOf(e', p) == IndirectOf(e, p)
            && e'.Keys == e.Keys + {p}
            && (forall v :: v in e && v != p ==> e'[v] == e[v])
  {
    var ps := Payouts(users, buyer, amount);
    assert ps[1..] == [];
  }

  /** Payouts never pay a negative profit, so crediting them never lowers
      any user's direct or indirect total. */
  lemma {:induction false} ApplyAllMonotone(e: map<Id, Earn>, ps: seq<Payout>)
    requires forall x :: x in ps ==> x.row.profitEarned >= 0.0
    ensures forall v :: DirectOf(e, v) <= DirectOf(ApplyAll(e, ps), v)
    ensures forall v :: IndirectOf(e, v) <= IndirectOf(ApplyAll(e, ps), v)
    decreases |ps|
  {
    if ps != [] {
      var x := ps[0];
      assert x in ps;
      var e1 := Credit(e, x.row.parentId, x.row.profitEarned, x.tier);
      CreditMonotone(e, x.row.parentId, x.row.profitEarned, x.tier);
      assert forall y :: y in ps[1..] ==> y in ps;
      ApplyAllMonotone(e1, ps[1..]);
    }
  }

  /** A buyer B under P under G buying for 2000: P is paid 100 at 5 percent
      and G 20 at 1 percent, in that order, and each gets one event. */
  lemma TwoTierExample()
    ensures var users := map[1 := User("G", None, 1), 2 := User("P", Some(1), 2),
                             3 := User("B", Some(2), 3)];
            var ps := Payouts(users, 3, 2000.0);
            && Rows(ps) == [TxRow(3, 2000.0, 2, 5, 100.0), TxRow(3, 2000.0, 1, 1, 20.0)]
            && DirectOf(ApplyAll(map[], ps), 2) == 100.0
            && IndirectOf(ApplyAll(map[], ps), 1) == 20.0
            && NoticesFor(map[], ps) == [EarningsUpdate(2, None, None), EarningsUpdate(1, None, None)]
  {
    var users := map[1 := User("G", None, 1), 2 := User("P", Some(1), 2), 3 := User("B", Some(2), 3)];
    var ps := Payouts(users, 3, 2000.0);
    var e1 := Credit(map[], 2, 100.0, 1);
    assert ps[1..][1..] == [];
    assert ApplyAll(map[], ps) == ApplyAll(e1, ps[1..]);
    assert NoticesFor(map[], ps) == [Notice(map[], 2, 100.0, 1)] + NoticesFor(e1, ps[1..]);
  }
}
