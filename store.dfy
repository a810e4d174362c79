/** The backend's handlers over an in-memory copy of its three tables.
    Each handler runs as one atomic step; the broadcast of `earnings_update`
    is an append to `events`. */
module ReferralStore {
  import opened Types
  import opened Commission
  import opened Transactions
  import opened Ledger
  import opened Referrals
  import opened Engine

  class Store {
    var users: map<Id, User>
    var txs: seq<TxRow>
    var earnings: map<Id, Earn>
    var events: seq<Event>
    /** The id the Users table's autoincrement hands out next; never reused. */
    var nextId: Id

    ghost predicate Valid()
      reads this`users, this`txs, this`nextId
    {
      Forest(users, nextId) && WellFormedRows(txs)
    }

    constructor ()
      ensures Valid()
      ensures users == map[] && txs == [] && earnings == map[] && events == [] && nextId == 1
      ensures Reconciled(txs, earnings)
    {
      users, txs, earnings, events, nextId := map[], [], map[], [], 1;
      EmptyReconciled();
    }

    /** POST /register: a named parent must exist and have fewer than eight
        referrals; the new user sits one level below it, or at level 1. */
    method Register(name: string, parentId: Option<Id>) returns (r: Result<Id>)
      requires Valid()
      modifies this`users, this`nextId
      ensures Valid()
      ensures txs == old(txs) && earnings == old(earnings) && events == old(events)
      ensures parentId.Some? && parentId.value !in old(users) ==>
                r == Err(NotFound) && unchanged(this)
      ensures parentId.Some? && parentId.value in old(users)
              && |Children(old(users), parentId.value)| >= MaxReferrals ==>
                r == Err(LimitExceeded) && unchanged(this)
      ensures parentId.None?
              || (parentId.value in old(users) && |Children(old(users), parentId.value)| < MaxReferrals) ==>
                && r == Ok(old(nextId))
                && old(nextId) !in old(users)
                && nextId == old(nextId) + 1
                && users == old(users)[old(nextId) := User(name, parentId, LevelUnder(old(users), parentId))]
    {
      var level := 1;
      if parentId.Some? {
        if parentId.value !in users {
          return Err(NotFound);
        }
        var parent := users[parentId.value];
        var referrals := |Children(users, parentId.value)|;
        if referrals >= MaxReferrals {
          return Err(LimitExceeded);
        }
        level := parent.level + 1;
      }
      var user := User(name, parentId, level);
      InsertKeepsForest(users, nextId, user);
      r := Ok(nextId);
      users := users[nextId := user];
      nextId := nextId + 1;
    }

    /** DELETE /user/:userId: removes the user, the rows the user bought and
        the user's Earnings row; children and rows paying the user stay. */
    method DeleteUser(userId: Id) returns (r: Outcome)
      requires Valid()
      modifies this`users, this`txs, this`earnings
      ensures Valid()
      ensures userId !in old(users) ==> r == Fail(NotFound) && unchanged(this)
      ensures userId in old(users) ==>
                && r == Pass
                && users == old(users) - {userId}
                && txs == Purge(old(txs), userId)
                && earnings == old(earnings) - {userId}
                && events == old(events) && nextId == old(nextId)
      ensures forall c :: c in old(users) && c != userId ==> c in users && users[c] == old(users)[c]
      ensures forall x :: x in old(txs) && x.userId != userId ==> x in txs
    {
      if userId !in users {
        return Fail(NotFound);
      }
      txs := Purge(txs, userId);
      earnings := earnings - {userId};
      RemoveKeepsForest(users, nextId, userId);
      users := users - {userId};
      r := Pass;
    }

    /** updateEarnings: read or create the beneficiary's row, add `profit` to
        the total of `tier`, and broadcast the row as the handler holds it. */
    method UpdateEarnings(userId: Id, profit: real, tier: int)
      requires Valid()
      modifies this`earnings, this`events
      ensures Valid()
      ensures earnings == Credit(old(earnings), userId, profit, tier)
      ensures events == old(events) + [Notice(old(earnings), userId, profit, tier)]
      ensures users == old(users) && txs == old(txs) && nextId == old(nextId)
    {
      var held: Option<Earn> := None;
      ghost var credited := Earn(DirectOf(earnings, userId) + (if tier == 1 then profit else 0.0),
                                 IndirectOf(earnings, userId) + (if tier == 2 then profit else 0.0));
      assert Credit(earnings, userId, profit, tier) == earnings[userId := credited];
      if userId !in earnings {
        var row := Earn(if tier == 1 then profit else 0.0, if tier == 2 then profit else 0.0);
        assert row == credited;
        earnings := earnings[userId := row];
      } else {
        var row := earnings[userId];
        if tier == 1 {
          row := row.(totalDirectEarnings := row.totalDirectEarnings + profit);
        } else if tier == 2 {
          row := row.(totalIndirectEarnings := row.totalIndirectEarnings + profit);
        }
        assert row == credited;
        earnings := earnings[userId := row];
        held := Some(row);
      }
      var direct := if held.Some? then Some(held.value.totalDirectEarnings) else None;
      var indirect := if held.Some? then Some(held.value.totalIndirectEarnings) else None;
      events := events + [EarningsUpdate(userId, direct, indirect)];
    }

    /** POST /transaction: pays 5 percent to the buyer's `parentId` and, when
        that parent is still registered and has a parent, 1 percent to it.
        Neither beneficiary is checked to exist. */
    method RecordTransaction(userId: Id, amount: real) returns (r: Outcome)
      requires Valid()
      modifies this`txs, this`earnings, this`events
      ensures Valid()
      ensures users == old(users) && nextId == old(nextId)
      ensures r == (if userId in old(users) then Pass else Fail(NotFound))
      ensures var ps := Payouts(old(users), userId, amount);
              && txs == old(txs) + Rows(ps)
              && earnings == ApplyAll(old(earnings), ps)
              && events == old(events) + NoticesFor(old(earnings), ps)
      ensures old(Reconciled(txs, earnings)) ==> Reconciled(txs, earnings)
      ensures forall v :: DirectOf(old(earnings), v) <= DirectOf(earnings, v)
                          && IndirectOf(old(earnings), v) <= IndirectOf(earnings, v)
    {
      ghost var ps := Payouts(users, userId, amount);
      PayoutsProper(users, nextId, userId, amount);
      ApplyAllMonotone(earnings, ps);
      if userId !in users {
        return Fail(NotFound);
      }
      ghost var t0, e0, ev0 := txs, earnings, events;
      ghost var done: seq<Payout> := [];
      assert txs == t0 + Rows(done) && earnings == ApplyAll(e0, done) && events == ev0 + NoticesFor(e0, done);
      var user := users[userId];
      if user.parentId.Some? {
        var parentId := user.parentId.value;
        var directProfit := CalculateProfit(amount, 1);
        if directProfit > 0.0 {
          var x := Payout(TxRow(userId, amount, parentId, 5, directProfit), 1);
          assert ps[0] == x && x in ps;
          Pay(x);
          Extend(t0, ev0, e0, done, x);
          done := done + [x];
          assert txs == t0 + Rows(done) && earnings == ApplyAll(e0, done) && events == ev0 + NoticesFor(e0, done);
        }
        if parentId in users && users[parentId].parentId.Some? {
          var grandParentId := users[parentId].parentId.value;
          var indirectProfit := CalculateProfit(amount, 2);
          if indirectProfit > 0.0 {
            var x := Payout(TxRow(userId, amount, grandParentId, 1, indirectProfit), 2);
            assert ps[1] == x && x in ps;
            Pay(x);
            Extend(t0, ev0, e0, done, x);
            done := done + [x];
            assert txs == t0 + Rows(done) && earnings == ApplyAll(e0, done) && events == ev0 + NoticesFor(e0, done);
            assert |done| == 2 && done[0] == ps[0] && done[1] == ps[1];
            ShortSeq(ps);
            ShortSeq(done);
          } else {
            assert done == [] == ps;
          }
        } else if directProfit > 0.0 {
          assert |done| == 1 && done[0] == ps[0];
          ShortSeq(ps);
          ShortSeq(done);
        } else {
          assert done == [] == ps;
        }
      } else {
        assert done == [] == ps;
      }
      r := Pass;
    }

    /** One tier of the transaction handler: `Transaction.create` of the row,
        then `updateEarnings` for the beneficiary it pays. */
    method Pay(x: Payout)
      requires Valid()
      requires ProperPayout(x)
      modifies this`txs, this`earnings, this`events
      ensures Valid()
      ensures users == old(users) && nextId == old(nextId)
      ensures txs == old(txs) + [x.row]
      ensures earnings == Credit(old(earnings), x.row.parentId, x.row.profitEarned, x.tier)
      ensures events == old(events) + [Notice(old(earnings), x.row.parentId, x.row.profitEarned, x.tier)]
      ensures old(Reconciled(txs, earnings)) ==> Reconciled(txs, earnings)
    {
      if Reconciled(txs, earnings) {
        CreditKeepsReconciled(txs, earnings, x.row, x.tier);
      }
      txs := txs + [x.row];
      UpdateEarnings(x.row.parentId, x.row.profitEarned, x.tier);
    }

    /** GET /earnings/:userId: the user's Earnings row, or NotFound. */
    function GetEarnings(userId: Id): (r: Result<Earn>)
      reads this
      ensures r.Ok? <==> userId in earnings
      ensures r.Ok? ==> r.value == earnings[userId]
      ensures r.Err? ==> r.error == NotFound
    {
      if userId in earnings then Ok(earnings[userId]) else Err(NotFound)
    }

    /** GET /report/earnings/:userId: the user's name, both totals (0 when the
        user has no row) and the user's direct referrals in id order. */
    function EarningsReport(userId: Id): (r: Result<Report>)
      reads this
      requires Valid()
      ensures r.Err? <==> userId !in users
      ensures r.Err? ==> r.error == NotFound
      ensures r.Ok? ==>
                && r.value.userId == userId
                && r.value.name == users[userId].name
                && r.value.totalDirectEarnings == DirectOf(earnings, userId)
                && r.value.totalIndirectEarnings == IndirectOf(earnings, userId)
      ensures r.Ok? ==>
                var refs := r.value.directReferrals;
                && (forall k :: 0 <= k < |refs| ==>
                      refs[k].id in users && users[refs[k].id].parentId == Some(userId)
                      && refs[k].name == users[refs[k].id].name)
                && (forall i, j :: 0 <= i < j < |refs| ==> refs[i].id < refs[j].id)
                && (forall c :: c in users && users[c].parentId == Some(userId) ==>
                      Referral(c, users[c].name) in refs)
    {
      if userId !in users then Err(NotFound)
      else
        Ok(Report(userId, users[userId].name, DirectOf(earnings, userId),
                  IndirectOf(earnings, userId), ReferralsBelow(users, userId, nextId)))
    }

    /** GET /report/distribution/:userId: folds the rows paying the user into
        a total and a list of sources, in row order. */
    method DistributionReport(userId: Id) returns (d: Distribution)
      ensures d.totalEarnings == SumProfit(Credits(txs, userId))
      ensures d.sources == Sources(Credits(txs, userId))
    {
      var rows := txs;
      var total := 0.0;
      var sources: seq<Source> := [];
      var i := 0;
      while i < |rows|
        invariant 0 <= i <= |rows|
        invariant total == SumProfit(Credits(rows[..i], userId))
        invariant sources == Sources(Credits(rows[..i], userId))
      {
        var x := rows[i];
        FoldStep(rows, i, userId);
        if x.parentId == userId {
          total := total + x.profitEarned;
          sources := sources + [Source(x.userId, x.amount, x.profitEarned)];
        }
        i := i + 1;
      }
      assert rows[..i] == rows;
      d := Types.Distribution(total, sources);
    }
  }
}
