/** The Users table as a referral forest: each user names at most one parent,
    has a level fixed at registration, and refers at most eight users. */
module Referrals {
  import opened Types

  /** The referral limit checked by registration. */
  const MaxReferrals: nat := 8

  /** The users whose `parentId` is `p` (`where: { parentId: p }`). */
  function Children(users: map<Id, User>, p: Id): set<Id> {
    set c | c in users && users[c].parentId == Some(p)
  }

  /** The level a new user gets under `parentId`. */
  function LevelUnder(users: map<Id, User>, parentId: Option<Id>): int
    requires parentId.Some? ==> parentId.value in users
  {
    if parentId.None? then 1 else users[parentId.value].level + 1
  }

  /** The ids below `n` of the users whose parent is `p`, in ascending id
      order (the order in which the table returns them). */
  function ChildIdsBelow(users: map<Id, User>, p: Id, n: nat): (r: seq<Id>)
    ensures forall i, j :: 0 <= i < j < |r| ==> r[i] < r[j]
    ensures forall c :: c in r <==> c in users && users[c].parentId == Some(p) && c < n
    decreases n
  {
    if n <= 1 then []
    else
      var c: Id := n - 1;
      var below := ChildIdsBelow(users, p, n - 1);
      assert forall i :: 0 <= i < |below| ==> below[i] in below;
      assert forall x :: x in below ==> x < c;
      below + (if c in users && users[c].parentId == Some(p) then [c] else [])
  }

  /** The `directReferrals` of the earnings report: id and name of every
      user below id `n` whose parent is `p`, in ascending id order. */
  function ReferralsBelow(users: map<Id, User>, p: Id, n: nat): (refs: seq<Referral>)
    ensures forall k :: 0 <= k < |refs| ==>
              && refs[k].id in users && users[refs[k].id].parentId == Some(p)
              && refs[k].name == users[refs[k].id].name
    ensures forall i, j :: 0 <= i < j < |refs| ==> refs[i].id < refs[j].id
    ensures forall c :: c in users && users[c].parentId == Some(p) && c < n ==>
              Referral(c, users[c].name) in refs
  {
    var ids := ChildIdsBelow(users, p, n);
    var refs := seq(|ids|, k requires 0 <= k < |ids| => Referral(ids[k], users[ids[k]].name));
    forall c | c in users && users[c].parentId == Some(p) && c < n
      ensures Referral(c, users[c].name) in refs
    {
      assert c in ids;
      var k :| 0 <= k < |ids| && ids[k] == c;
      assert refs[k] == Referral(c, users[c].name);
    }
    refs
  }

  /** The consistency of the Users table that registration and deletion keep. */
  ghost predicate Forest(users: map<Id, User>, nextId: Id) {
    // every id was handed out by the counter
    && (forall c :: c in users ==> c < nextId)
    && (forall c :: c in users ==> users[c].level >= 1)
    // a parent registered before its child, so there are no cycles
    && (forall c :: c in users && users[c].parentId.Some? ==> users[c].parentId.value < c)
    // a child whose parent is still there sits one level below it
    && (forall c :: c in users && users[c].parentId.Some? && users[c].parentId.value in users ==>
          users[c].level == users[users[c].parentId.value].level + 1)
    && (forall p: Id :: |Children(users, p)| <= MaxReferrals)
  }

  lemma ChildrenAfterInsert(users: map<Id, User>, n: Id, nu: User, q: Id)
    requires n !in users
    ensures Children(users[n := nu], q) == Children(users, q) + (if nu.parentId == Some(q) then {n} else {})
  {
  }

  lemma ChildrenAfterRemove(users: map<Id, User>, u: Id, q: Id)
    ensures Children(users - {u}, q) == Children(users, q) - {u}
  {
  }

  /** Registration keeps the forest: the new id is fresh, its parent (if any)
      is present and below the limit, and its level is the parent's plus one. */
  lemma InsertKeepsForest(users: map<Id, User>, nextId: Id, nu: User)
    requires Forest(users, nextId)
    requires nu.parentId.Some? ==>
               nu.parentId.value in users && |Children(users, nu.parentId.value)| < MaxReferrals
    requires nu.level == LevelUnder(users, nu.parentId)
    ensures Forest(users[nextId := nu], nextId + 1)
  {
    var users' := users[nextId := nu];
    forall q: Id ensures |Children(users', q)| <= MaxReferrals {
      ChildrenAfterInsert(users, nextId, nu, q);
      if nu.parentId == Some(q) {
        assert nextId !in Children(users, q);
      }
    }
    forall c | c in users' && users'[c].parentId.Some? && users'[c].parentId.value in users'
      ensures users'[c].level == users'[users'[c].parentId.value].level + 1
    {
      if c != nextId {
        assert users'[c].parentId.value != nextId;
      }
    }
  }

  /** Deletion keeps the forest: children that lose their parent keep their
      `parentId` and level, and no count of referrals grows. */
  lemma RemoveKeepsForest(users: map<Id, User>, nextId: Id, u: Id)
    requires Forest(users, nextId)
    ensures Forest(users - {u}, nextId)
  {
    forall q: Id ensures |Children(users - {u}, q)| <= MaxReferrals {
      ChildrenAfterRemove(users, u, q);
      assert Children(users - {u}, q) <= Children(users, q);
      SubsetCard(Children(users - {u}, q), Children(users, q));
    }
  }

  lemma {:induction false} SubsetCard(a: set<Id>, b: set<Id>)
    requires a <= b
    ensures |a| <= |b|
    decreases |b|
  {
    if a != {} {
      var x :| x in a;
      SubsetCard(a - {x}, b - {x});
    }
  }
}
