/** Recent songs in (ordering time, ID) order, and how many come before each. */
module SongOrder {
  import opened Options
  import opened Text
  import Sorting

  /** `created` is None for a record without a usable timestamp; `released` for
      one whose release date does not parse. */
  datatype Song = Song(recent: bool, created: Option<int>, released: Option<int>, batchSeq: int, batchPos: int)

  type Songs = map<string, Song>

  const ZERO_TIME := 0

  function OrderingTime(song: Song): int {
    if song.created.Some? then song.created.value
    else if song.released.Some? then song.released.value
    else ZERO_TIME
  }

  function TimeOf(songs: Songs, id: string): int {
    if id in songs then OrderingTime(songs[id]) else ZERO_TIME
  }

  predicate Before(songs: Songs, a: string, b: string) {
    var x, y := TimeOf(songs, a), TimeOf(songs, b);
    if x != y then x < y else StringLess(a, b)
  }

  lemma {:induction false} BeforeIsTotal(songs: Songs, a: string, b: string)
    ensures Before(songs, a, b) || Before(songs, b, a) || a == b
    ensures !(Before(songs, a, b) && Before(songs, b, a)) && !Before(songs, a, a)
  {
    StringLessIsTotal(a, b);
  }

  lemma {:induction false} BeforeChains(songs: Songs, a: string, b: string, c: string)
    requires Before(songs, a, b) && Before(songs, b, c)
    ensures Before(songs, a, c)
  {
    if StringLess(a, b) && StringLess(b, c) {
      StringLessChains(a, b, c);
    }
  }

  /** Those of `ids` that come before `id`. */
  function Earlier(songs: Songs, ids: set<string>, id: string): set<string>
    requires id in songs && ids <= songs.Keys
  {
    set x | x in ids && Before(songs, x, id)
  }

  /** `s` lists `ids`, earliest first. */
  ghost predicate Lists(songs: Songs, s: seq<string>, ids: set<string>) {
    && ids <= songs.Keys
    && (forall i :: 0 <= i < |s| ==> s[i] in ids)
    && (forall id :: id in ids ==> id in s)
    && (forall i, j :: 0 <= i < j < |s| ==> Before(songs, s[i], s[j]))
  }

  function Elements(s: seq<string>): set<string> {
    set i | 0 <= i < |s| :: s[i]
  }

  lemma {:induction false} DistinctElements(s: seq<string>)
    requires forall i, j :: 0 <= i < j < |s| ==> s[i] != s[j]
    ensures |Elements(s)| == |s|
  {
    if s == [] {
    } else {
      var init := s[..|s| - 1];
      DistinctElements(init);
      assert Elements(s) == Elements(init) + {s[|s| - 1]} by {
        forall x | x in Elements(s) ensures x in Elements(init) + {s[|s| - 1]} {
          var i :| 0 <= i < |s| && s[i] == x;
          assert i < |init| ==> init[i] == x;
        }
        forall x | x in Elements(init) ensures x in Elements(s) {
          var i :| 0 <= i < |init| && init[i] == x;
          assert s[i] == x;
        }
      }
      assert s[|s| - 1] !in Elements(init);
    }
  }

  lemma {:induction false} ListedOnce(songs: Songs, s: seq<string>, ids: set<string>)
    requires Lists(songs, s, ids)
    ensures forall i, j :: 0 <= i < j < |s| ==> s[i] != s[j]
    ensures |s| == |ids| && Elements(s) == ids
  {
    forall i, j | 0 <= i < j < |s| ensures s[i] != s[j] {
      BeforeIsTotal(songs, s[i], s[j]);
    }
    DistinctElements(s);
    assert Elements(s) == ids;
  }

  lemma {:induction false} BeforeByPlace(songs: Songs, s: seq<string>, ids: set<string>, i: nat, k: nat)
    requires Lists(songs, s, ids) && i < |s| && k < |s|
    ensures Before(songs, s[i], s[k]) <==> i < k
  {
    BeforeIsTotal(songs, s[i], s[k]);
  }

  /** Exactly the entries between two places lie between their songs. */
  lemma {:induction false} Between(songs: Songs, s: seq<string>, ids: set<string>, low: nat, k: nat)
    requires Lists(songs, s, ids) && low <= k < |s|
    ensures |set x | x in ids && Before(songs, x, s[k]) && !Before(songs, x, s[low])| == k - low
  {
    var middle := s[low..k];
    SliceElements(songs, s, ids, low, k);
    var found := set x | x in ids && Before(songs, x, s[k]) && !Before(songs, x, s[low]);
    forall x | x in found ensures x in Elements(middle) {
      var i :| 0 <= i < |s| && s[i] == x;
      BeforeByPlace(songs, s, ids, i, k);
      BeforeByPlace(songs, s, ids, i, low);
    }
    forall x | x in Elements(middle) ensures x in found {
      var i :| low <= i < k && s[i] == x;
      BeforeByPlace(songs, s, ids, i, k);
      BeforeByPlace(songs, s, ids, i, low);
    }
    assert found == Elements(middle);
  }

  lemma {:induction false} SliceElements(songs: Songs, s: seq<string>, ids: set<string>, low: nat, k: nat)
    requires Lists(songs, s, ids) && low <= k <= |s|
    ensures |Elements(s[low..k])| == k - low
    ensures forall x :: x in Elements(s[low..k]) <==> exists i :: low <= i < k && s[i] == x
  {
    ListedOnce(songs, s, ids);
    var middle := s[low..k];
    assert forall i :: 0 <= i < |middle| ==> middle[i] == s[low + i];
    DistinctElements(middle);
    forall x | x in Elements(middle) ensures exists i :: low <= i < k && s[i] == x {
      var j :| 0 <= j < |middle| && middle[j] == x;
      assert s[low + j] == x;
    }
    forall x | exists i :: low <= i < k && s[i] == x ensures x in Elements(middle) {
      var i :| low <= i < k && s[i] == x;
      assert middle[i - low] == x;
    }
  }

  /** The k-th entry has `k` before it. */
  lemma {:induction false} RankOfEntry(songs: Songs, s: seq<string>, ids: set<string>, k: nat)
    requires Lists(songs, s, ids) && k < |s|
    ensures |Earlier(songs, ids, s[k])| == k
  {
    Between(songs, s, ids, 0, k);
    forall x | x in ids && Before(songs, x, s[k]) ensures !Before(songs, x, s[0]) {
      var i :| 0 <= i < |s| && s[i] == x;
      BeforeIsTotal(songs, s[0], x);
    }
    assert Earlier(songs, ids, s[k]) == set x | x in ids && Before(songs, x, s[k]) && !Before(songs, x, s[0]);
  }

  // --------------------------------------------------------------- sorting

  lemma {:induction false} OrderIsWeak(songs: Songs)
    ensures Sorting.WeakOrder((a, b) => Before(songs, a, b))
  {
    var before := (a, b) => Before(songs, a, b);
    forall a, b | before(a, b) ensures !before(b, a) {
      BeforeIsTotal(songs, a, b);
    }
    forall a, b, c | !before(b, a) && !before(c, b) ensures !before(c, a) {
      BeforeIsTotal(songs, a, b);
      BeforeIsTotal(songs, b, c);
      BeforeIsTotal(songs, a, c);
      if a != b && b != c {
        BeforeChains(songs, a, b, c);
      }
    }
  }

  lemma {:induction false} RankedIsListed(songs: Songs, s: seq<string>, ids: set<string>)
    requires ids <= songs.Keys && multiset(s) == multiset(ids)
    requires Sorting.Ranked(s, (a, b) => Before(songs, a, b))
    ensures Lists(songs, s, ids)
  {
    forall i | 0 <= i < |s| ensures s[i] in ids {
      assert s[i] in multiset(s);
    }
    forall id | id in ids ensures id in s {
      assert id in multiset(ids);
    }
    forall i, j | 0 <= i < j < |s| ensures Before(songs, s[i], s[j]) {
      Sorting.CountedOnce(s, i, j);
      BeforeIsTotal(songs, s[i], s[j]);
    }
  }

  /** The songs in order. */
  method Sort(songs: Songs, ids: set<string>) returns (s: seq<string>)
    requires ids <= songs.Keys
    ensures Lists(songs, s, ids)
  {
    var all: seq<string> := [];
    var left := ids;
    while left != {}
      invariant left <= ids && multiset(all) == multiset(ids - left)
    {
      var x :| x in left;
      assert ids - (left - {x}) == ids - left + {x};
      all, left := all + [x], left - {x};
    }
    assert ids - left == ids;
    OrderIsWeak(songs);
    s := Sorting.Sort(all, (a, b) => Before(songs, a, b));
    RankedIsListed(songs, s, ids);
  }
}
