/** The like ledger and its toggle: a like action inserts a record for the
    (member, target) pair or, when one is already there, deletes it, and
    reports the signed change (+1 or -1) the caller feeds into the target's
    like counter. */
module Likes {
  import opened Common

  /** What kind of document a like refers to. */
  datatype LikeGroup = PropertyGroup | ArticleGroup | MemberGroup

  /** One ledger record. */
  datatype Like = Like(memberId: Id, likeRefId: Id, likeGroup: LikeGroup)

  /** The toggle's lookup `{ memberId, likeRefId }`: the group is not part
      of it. */
  predicate SameKey(a: Like, b: Like)
  {
    a.memberId == b.memberId && a.likeRefId == b.likeRefId
  }

  /** Position of the record the lookup finds: the first one, in the
      ledger's natural order, with the input's key. */
  function FirstMatch(ledger: seq<Like>, input: Like): (r: Option<nat>)
    ensures r.Some? ==> r.value < |ledger| && SameKey(ledger[r.value], input)
    ensures r.Some? ==> forall i :: 0 <= i < r.value ==> !SameKey(ledger[i], input)
    ensures r.None? <==> forall i :: 0 <= i < |ledger| ==> !SameKey(ledger[i], input)
  {
    if ledger == [] then None
    else if SameKey(ledger[0], input) then Some(0)
    else match FirstMatch(ledger[1..], input)
      case None => None
      case Some(k) => Some(k + 1)
  }

  /** The ledger after removing position `i`. */
  function RemoveAt(ledger: seq<Like>, i: nat): seq<Like>
    requires i < |ledger|
  {
    ledger[..i] + ledger[i + 1..]
  }

  /** The outcome of one toggle: the modifier (or the failure) and the
      ledger afterwards. `insertFails` is the store rejecting the insert. */
  function Toggle(ledger: seq<Like>, input: Like, insertFails: bool): (r: (Result<int>, seq<Like>))
    ensures r.0.Ok? ==> r.0.value == 1 || r.0.value == -1
    ensures r.0 == Ok(-1) <==> exists i :: 0 <= i < |ledger| && SameKey(ledger[i], input)
    ensures r.0 == Ok(1) <==> !insertFails && forall i :: 0 <= i < |ledger| ==> !SameKey(ledger[i], input)
    ensures r.0.Err? ==> r.0.message == CreateFailed && r.1 == ledger
    ensures r.0 == Ok(1) ==> r.1 == ledger + [input]
    ensures r.0 == Ok(-1) ==> |r.1| == |ledger| - 1
    ensures r.0 == Ok(-1) ==>
              exists i :: && 0 <= i < |ledger| && SameKey(ledger[i], input)
                          && (forall j :: 0 <= j < i ==> !SameKey(ledger[j], input))
                          && r.1 == ledger[..i] + ledger[i + 1..]
  {
    match FirstMatch(ledger, input)
    case Some(i) => (Ok(-1), RemoveAt(ledger, i))
    case None => if insertFails then (Err(CreateFailed), ledger) else (Ok(1), ledger + [input])
  }

  /** The records whose key differs from the input's, in ledger order. */
  function Others(ledger: seq<Like>, input: Like): (r: seq<Like>)
    ensures forall x :: x in r <==> x in ledger && !SameKey(x, input)
  {
    if ledger == [] then []
    else if SameKey(ledger[0], input) then Others(ledger[1..], input)
    else [ledger[0]] + Others(ledger[1..], input)
  }

  /** The number of records that refer to one target. */
  function CountRef(ledger: seq<Like>, ref: Id): nat
  {
    if ledger == [] then 0
    else (if ledger[0].likeRefId == ref then 1 else 0) + CountRef(ledger[1..], ref)
  }

  /** At most one record per (member, target) pair. */
  ghost predicate KeyUnique(ledger: seq<Like>)
  {
    forall i, j :: 0 <= i < j < |ledger| ==> !SameKey(ledger[i], ledger[j])
  }

  lemma {:induction false} OthersAppend(a: seq<Like>, b: seq<Like>, input: Like)
    ensures Others(a + b, input) == Others(a, input) + Others(b, input)
  {
    if a != [] {
      assert (a + b)[1..] == a[1..] + b;
      OthersAppend(a[1..], b, input);
    } else {
      assert a + b == b;
    }
  }

  lemma {:induction false} CountRefAppend(a: seq<Like>, b: seq<Like>, ref: Id)
    ensures CountRef(a + b, ref) == CountRef(a, ref) + CountRef(b, ref)
  {
    if a != [] {
      assert (a + b)[1..] == a[1..] + b;
      CountRefAppend(a[1..], b, ref);
    } else {
      assert a + b == b;
    }
  }

  /** Splitting the ledger around position `i`. */
  lemma Split(ledger: seq<Like>, i: nat)
    requires i < |ledger|
    ensures ledger == ledger[..i] + [ledger[i]] + ledger[i + 1..]
  {
  }

  /** A toggle never touches a record whose key differs from the input's:
      those records stay, in the same order. */
  lemma ToggleKeepsOthers(ledger: seq<Like>, input: Like, insertFails: bool)
    ensures Others(Toggle(ledger, input, insertFails).1, input) == Others(ledger, input)
  {
    match FirstMatch(ledger, input)
    case Some(i) =>
      var a, b := ledger[..i], ledger[i + 1..];
      assert ledger == a + ([ledger[i]] + b);
      OthersAppend(a, [ledger[i]] + b, input);
      OthersAppend([ledger[i]], b, input);
      assert Others([ledger[i]], input) == [] by {
        assert [ledger[i]][1..] == [];
      }
      OthersAppend(a, b, input);
    case None =>
      if !insertFails {
        OthersAppend(ledger, [input], input);
      }
  }

  /** A successful toggle moves the number of records referring to the
      input's target by exactly the returned modifier, and leaves the count
      of every other target alone. */
  lemma ToggleCounts(ledger: seq<Like>, input: Like, insertFails: bool, ref: Id)
    requires Toggle(ledger, input, insertFails).0.Ok?
    ensures CountRef(Toggle(ledger, input, insertFails).1, ref)
         == CountRef(ledger, ref) + (if ref == input.likeRefId then Toggle(ledger, input, insertFails).0.value else 0)
  {
    match FirstMatch(ledger, input)
    case Some(i) =>
      Split(ledger, i);
      CountRefAppend(ledger[..i] + [ledger[i]], ledger[i + 1..], ref);
      CountRefAppend(ledger[..i], [ledger[i]], ref);
      CountRefAppend(ledger[..i], ledger[i + 1..], ref);
    case None =>
      CountRefAppend(ledger, [input], ref);
  }

  /** Toggling twice on a pair with no record returns +1 and then -1 and
      restores the ledger. */
  lemma ToggleTwice(ledger: seq<Like>, input: Like)
    requires forall i :: 0 <= i < |ledger| ==> !SameKey(ledger[i], input)
    ensures Toggle(ledger, input, false) == (Ok(1), ledger + [input])
    ensures Toggle(ledger + [input], input, false) == (Ok(-1), ledger)
  {
    var l := ledger + [input];
    assert FirstMatch(l, input) == Some(|ledger|) by {
      assert SameKey(l[|ledger|], input);
      assert forall k :: 0 <= k < |ledger| ==> l[k] == ledger[k];
    }
    assert l[..|ledger|] == ledger && l[|ledger| + 1..] == [];
    assert RemoveAt(l, |ledger|) == ledger;
    assert Toggle(l, input, false) == (Ok(-1), RemoveAt(l, |ledger|));
  }

  /** The lookup ignores the group: two inputs with the same member and
      target have the same outcome, and the same ledger when a record is
      removed. */
  lemma ToggleIgnoresGroup(ledger: seq<Like>, a: Like, b: Like, insertFails: bool)
    requires SameKey(a, b)
    ensures Toggle(ledger, a, insertFails).0 == Toggle(ledger, b, insertFails).0
    ensures Toggle(ledger, a, insertFails).0 == Ok(-1) ==> Toggle(ledger, a, insertFails).1 == Toggle(ledger, b, insertFails).1
  {
    assert forall x :: SameKey(x, a) <==> SameKey(x, b);
    assert FirstMatch(ledger, a) == FirstMatch(ledger, b);
  }

  /** A ledger with at most one record per pair keeps that property, and
      after an unlike no record for the pair is left. */
  lemma ToggleKeepsKeyUnique(ledger: seq<Like>, input: Like, insertFails: bool)
    requires KeyUnique(ledger)
    ensures KeyUnique(Toggle(ledger, input, insertFails).1)
    ensures Toggle(ledger, input, insertFails).0 == Ok(-1) ==>
              forall x :: x in Toggle(ledger, input, insertFails).1 ==> !SameKey(x, input)
  {
    match FirstMatch(ledger, input)
    case Some(i) =>
      var r := RemoveAt(ledger, i);
      assert forall k :: 0 <= k < |r| ==> r[k] == ledger[if k < i then k else k + 1];
      forall x | x in r ensures !SameKey(x, input) {
        var k :| 0 <= k < |r| && r[k] == x;
        if k < i {
        } else {
          assert !SameKey(ledger[i], ledger[k + 1]);
        }
      }
    case None =>
  }

  /** The like collection. */
  class LikeService {
    var likes: seq<Like>

    constructor ()
      ensures likes == []
    {
      likes := [];
    }

    /** Looks the pair up; removes the record found and returns -1, or
        inserts the input and returns +1. An insert the store rejects
        raises CREATE_FAILED and leaves the ledger as it was. */
    method ToggleLike(input: Like, insertFails: bool) returns (r: Result<int>)
      modifies this
      ensures (r, likes) == Toggle(old(likes), input, insertFails)
    {
      var i := 0;
      while i < |likes| && !SameKey(likes[i], input)
        invariant 0 <= i <= |likes|
        invariant forall j :: 0 <= j < i ==> !SameKey(likes[j], input)
      {
        i := i + 1;
      }
      var modifier := 1;
      if i < |likes| {
        likes := likes[..i] + likes[i + 1..];
        modifier := -1;
      } else {
        if insertFails {
          return Err(CreateFailed);
        }
        likes := likes + [input];
      }
      r := Ok(modifier);
    }
  }
}
