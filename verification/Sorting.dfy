/** The stable library sort, for any order, and first elements. */
module Sorting {

  /** A strict order in which "neither comes first" is transitive. */
  ghost predicate WeakOrder<T(!new)>(before: (T, T) -> bool) {
    && (forall x, y :: before(x, y) ==> !before(y, x))
    && (forall x, y, z :: !before(y, x) && !before(z, y) ==> !before(z, x))
  }

  ghost predicate Ranked<T>(s: seq<T>, before: (T, T) -> bool) {
    forall i, j :: 0 <= i < j < |s| ==> !before(s[j], s[i])
  }

  /** Of any two of these one comes first, and coming first chains. */
  ghost predicate StrictOn<T>(ids: set<T>, before: (T, T) -> bool) {
    && (forall x, y :: x in ids && y in ids && x != y ==> before(x, y) || before(y, x))
    && (forall x, y, z :: x in ids && y in ids && z in ids && before(x, y) && before(y, z) ==> before(x, z))
  }

  /** So there is a first one. */
  lemma {:induction false} FirstOf<T>(ids: set<T>, before: (T, T) -> bool) returns (first: T)
    requires ids != {} && StrictOn(ids, before)
    ensures first in ids && forall x :: x in ids && x != first ==> before(first, x)
    decreases |ids|
  {
    first :| first in ids;
    if ids == {first} {
    } else {
      assert ids == {first} + (ids - {first});
      var other := FirstOf(ids - {first}, before);
      if !before(first, other) {
        first := other;
      }
    }
  }

  /** The elements of `s` that tie with `x`, in order. */
  function Tied<T>(s: seq<T>, before: (T, T) -> bool, x: T): seq<T> {
    if s == [] then []
    else
      var last := s[|s| - 1];
      Tied(s[..|s| - 1], before, x) + if before(last, x) || before(x, last) then [] else [last]
  }

  /** Elements that tie keep their order. */
  ghost predicate SameTies<T(!new)>(s: seq<T>, t: seq<T>, before: (T, T) -> bool) {
    forall x :: Tied(s, before, x) == Tied(t, before, x)
  }

  lemma {:induction false} TiedJoins<T>(s: seq<T>, t: seq<T>, before: (T, T) -> bool, x: T)
    ensures Tied(s + t, before, x) == Tied(s, before, x) + Tied(t, before, x)
  {
    if t == [] {
      assert s + t == s;
    } else {
      assert (s + t)[..|s + t| - 1] == s + t[..|t| - 1];
      TiedJoins(s, t[..|t| - 1], before, x);
    }
  }

  lemma {:induction false} NoneTied<T>(s: seq<T>, before: (T, T) -> bool, x: T)
    requires forall k :: 0 <= k < |s| ==> before(x, s[k])
    ensures Tied(s, before, x) == []
  {
    if s == [] {
    } else {
      NoneTied(s[..|s| - 1], before, x);
    }
  }

  /** What ties with one of two tied elements ties with the other. */
  lemma {:induction false} StillAhead<T(!new)>(before: (T, T) -> bool, x: T, y: T, z: T)
    requires WeakOrder(before) && before(x, y) && !before(x, z) && !before(z, x)
    ensures before(z, y)
  {
    assert !before(z, y) && !before(x, z) ==> !before(x, y);
  }

  /** An element that goes in front of what it comes before, and of nothing
      else, goes behind all that it ties with. */
  lemma {:induction false} PlacedKeepsTies<T(!new)>(s: seq<T>, before: (T, T) -> bool, i: nat, x: T, z: T)
    requires WeakOrder(before) && i <= |s| && forall k :: i <= k < |s| ==> before(x, s[k])
    ensures Tied(s[..i] + [x] + s[i..], before, z) == Tied(s + [x], before, z)
  {
    TiedJoins(s[..i] + [x], s[i..], before, z);
    TiedJoins(s[..i], [x], before, z);
    TiedJoins(s[..i], s[i..], before, z);
    assert s == s[..i] + s[i..];
    TiedJoins(s, [x], before, z);
    if before(x, z) || before(z, x) {
      assert Tied([x], before, z) == [];
    } else {
      forall k | 0 <= k < |s[i..]| ensures before(z, s[i..][k]) {
        StillAhead(before, x, s[i + k], z);
      }
      NoneTied(s[i..], before, z);
    }
  }

  method Place<T(!new)>(s: seq<T>, before: (T, T) -> bool, x: T) returns (t: seq<T>)
    requires WeakOrder(before) && Ranked(s, before)
    ensures Ranked(t, before) && multiset(t) == multiset(s) + multiset{x} && SameTies(s + [x], t, before)
  {
    var i := |s|;
    while i > 0 && before(x, s[i - 1])
      invariant 0 <= i <= |s| && forall k :: i <= k < |s| ==> before(x, s[k])
    {
      i := i - 1;
    }
    t := s[..i] + [x] + s[i..];
    assert s == s[..i] + s[i..];
    StillRanked(s, before, i, x);
    forall z ensures Tied(s + [x], before, z) == Tied(t, before, z) {
      PlacedKeepsTies(s, before, i, x, z);
    }
  }

  lemma {:induction false} StillRanked<T(!new)>(s: seq<T>, before: (T, T) -> bool, i: nat, x: T)
    requires WeakOrder(before) && Ranked(s, before) && i <= |s| && (i > 0 ==> !before(x, s[i - 1]))
    requires forall k :: i <= k < |s| ==> before(x, s[k])
    ensures Ranked(s[..i] + [x] + s[i..], before)
  {
    var t := s[..i] + [x] + s[i..];
    forall k | 0 <= k < i ensures !before(x, s[k]) {
      assert k < i - 1 ==> !before(s[i - 1], s[k]);
    }
    forall k, l | 0 <= k < l < |t| ensures !before(t[l], t[k]) {
      assert t[k] == if k < i then s[k] else if k == i then x else s[k - 1];
      assert t[l] == if l < i then s[l] else if l == i then x else s[l - 1];
    }
  }

  lemma {:induction false} OneMoreTie<T(!new)>(s: seq<T>, t: seq<T>, before: (T, T) -> bool, x: T)
    requires SameTies(s, t, before)
    ensures SameTies(s + [x], t + [x], before)
  {
    forall z ensures Tied(s + [x], before, z) == Tied(t + [x], before, z) {
      TiedJoins(s, [x], before, z);
      TiedJoins(t, [x], before, z);
    }
  }

  /** The stable library sort. */
  method Sort<T(!new)>(s: seq<T>, before: (T, T) -> bool) returns (t: seq<T>)
    requires WeakOrder(before)
    ensures Ranked(t, before) && multiset(t) == multiset(s) && SameTies(s, t, before)
  {
    t := [];
    for i := 0 to |s|
      invariant Ranked(t, before) && multiset(t) == multiset(s[..i]) && SameTies(s[..i], t, before)
    {
      assert s[..i + 1] == s[..i] + [s[i]];
      ghost var sorted := t;
      t := Place(t, before, s[i]);
      OneMoreTie(s[..i], sorted, before, s[i]);
    }
    assert s[..|s|] == s;
  }

  /** No element counts twice, so no two places hold the same. */
  lemma {:induction false} CountedOnce<T>(s: seq<T>, i: nat, j: nat)
    requires i < j < |s| && multiset(s)[s[i]] <= 1
    ensures s[i] != s[j]
  {
    assert s == s[..j] + s[j..];
    assert s[..j][i] in multiset(s[..j]) && s[j..][0] in multiset(s[j..]);
    assert multiset(s) == multiset(s[..j]) + multiset(s[j..]);
  }
}
