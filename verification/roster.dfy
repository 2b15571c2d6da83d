/**
 * The per-stage member lists: the profile a user submits and the
 * replace-then-append update that keeps at most one profile per user in a
 * stage.
 */
module Roster {

  /** Telegram's numeric user id. */
  type UserId = int

  /** One submitted profile: the dictionary built in `enter_details`. */
  datatype Profile = Profile(name: string, gender: string, details: string, userId: UserId)

  /** Number of entries of `list` that belong to user `v`. */
  function OwnedCount(list: seq<Profile>, v: UserId): nat {
    if list == [] then 0
    else (if list[0].userId == v then 1 else 0) + OwnedCount(list[1..], v)
  }

  /** No user has two entries in `list`. */
  ghost predicate UniqueOwners(list: seq<Profile>) {
    forall v :: OwnedCount(list, v) <= 1
  }

  /** Every entry of `list` owned by `v` is counted. */
  lemma {:induction false} OwnedCountPositive(list: seq<Profile>, q: Profile)
    requires q in list
    ensures OwnedCount(list, q.userId) >= 1
  {
    if list[0] != q {
      OwnedCountPositive(list[1..], q);
    }
  }

  lemma {:induction false} OwnedCountAppend(a: seq<Profile>, b: seq<Profile>, v: UserId)
    ensures OwnedCount(a + b, v) == OwnedCount(a, v) + OwnedCount(b, v)
  {
    if a != [] {
      assert (a + b)[1..] == a[1..] + b;
      OwnedCountAppend(a[1..], b, v);
    } else {
      assert a + b == b;
    }
  }

  /**
   * The list comprehension of `enter_details` that drops the entries of user
   * `uid`: the other users' entries stay, with their counts, and the result
   * contains nothing of `uid`.
   */
  function WithoutOwner(list: seq<Profile>, uid: UserId): (r: seq<Profile>)
    ensures |r| <= |list|
    ensures forall q :: q in r <==> q in list && q.userId != uid
    ensures forall v :: OwnedCount(r, v) == if v == uid then 0 else OwnedCount(list, v)
  {
    if list == [] then []
    else
      var rest := WithoutOwner(list[1..], uid);
      if list[0].userId == uid then rest
      else
        assert ([list[0]] + rest)[1..] == rest;
        [list[0]] + rest
  }

  lemma {:induction false} WithoutOwnerAppend(a: seq<Profile>, b: seq<Profile>, uid: UserId)
    ensures WithoutOwner(a + b, uid) == WithoutOwner(a, uid) + WithoutOwner(b, uid)
  {
    if a != [] {
      assert (a + b)[1..] == a[1..] + b;
      WithoutOwnerAppend(a[1..], b, uid);
    } else {
      assert a + b == b;
    }
  }

  /** Dropping a user's entries a second time changes nothing. */
  lemma {:induction false} WithoutOwnerIdempotent(list: seq<Profile>, uid: UserId)
    ensures WithoutOwner(WithoutOwner(list, uid), uid) == WithoutOwner(list, uid)
  {
    if list != [] {
      WithoutOwnerIdempotent(list[1..], uid);
      if list[0].userId != uid {
        assert ([list[0]] + WithoutOwner(list[1..], uid))[1..] == WithoutOwner(list[1..], uid);
      }
    }
  }

  /**
   * Lines 177-178 of `enter_details`: the stage list without the caller's
   * earlier entry, followed by the new profile. The new profile is the last
   * entry and the only one of its user; the other users' entries are those
   * of the old list, in the same order.
   */
  function Upsert(list: seq<Profile>, p: Profile): (r: seq<Profile>)
    ensures |r| > 0 && r[|r| - 1] == p
    ensures OwnedCount(r, p.userId) == 1
    ensures forall v :: v != p.userId ==> OwnedCount(r, v) == OwnedCount(list, v)
    ensures WithoutOwner(r, p.userId) == WithoutOwner(list, p.userId)
    ensures forall q :: q in r <==> q == p || (q in list && q.userId != p.userId)
  {
    var kept := WithoutOwner(list, p.userId);
    OwnedCountAppend(kept, [p], p.userId);
    forall v | v != p.userId ensures OwnedCount(kept + [p], v) == OwnedCount(list, v) {
      OwnedCountAppend(kept, [p], v);
    }
    WithoutOwnerAppend(kept, [p], p.userId);
    WithoutOwnerIdempotent(list, p.userId);
    assert WithoutOwner([p], p.userId) == [];
    kept + [p]
  }

  /** A stage list with one entry per user keeps that property under `Upsert`. */
  lemma UpsertKeepsUnique(list: seq<Profile>, p: Profile)
    requires UniqueOwners(list)
    ensures UniqueOwners(Upsert(list, p))
  {
  }
}
