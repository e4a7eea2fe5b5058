/** The two backfills that number the recent songs in batches of thirteen. */
module SongBatches {
  import opened Options
  import opened SongOrder
  import opened Text
  import Sorting

  const BATCH_SIZE := 13

  function Recent(songs: Songs): set<string> {
    set id | id in songs && songs[id].recent
  }

  /** How many recent songs come first. */
  function Rank(songs: Songs, id: string): nat
    requires id in songs
  {
    |Earlier(songs, Recent(songs), id)|
  }

  // ------------------------------------------------------- the two stages

  function SeqTarget(songs: Songs, id: string): int
    requires id in songs
  {
    if songs[id].recent then Rank(songs, id) / BATCH_SIZE + 1 else 0
  }

  function WithSeq(songs: Songs): Songs {
    map id | id in songs :: songs[id].(batchSeq := SeqTarget(songs, id))
  }

  function SeqOf(song: Song): int {
    if song.batchSeq <= 0 then 1 else song.batchSeq
  }

  function Group(songs: Songs, batchSeq: int): set<string> {
    set id | id in songs && songs[id].recent && SeqOf(songs[id]) == batchSeq
  }

  function PosTarget(songs: Songs, id: string): int
    requires id in songs
  {
    if songs[id].recent then
      var place := |Earlier(songs, Group(songs, SeqOf(songs[id])), id)| + 1;
      if place <= BATCH_SIZE then place else BATCH_SIZE
    else 0
  }

  function Placed(songs: Songs, id: string): Song
    requires id in songs
  {
    var song := songs[id].(batchPos := PosTarget(songs, id));
    if song.recent then song.(batchSeq := SeqOf(song)) else song
  }

  function WithPos(songs: Songs): Songs {
    map id | id in songs :: Placed(songs, id)
  }

  // ---------------------------------------------- what they come to together

  lemma {:induction false} Earliest(songs: Songs, ids: set<string>) returns (x: string)
    requires ids != {}
    ensures x in ids && forall y :: y in ids && y != x ==> Before(songs, x, y)
  {
    var before := (a, b) => Before(songs, a, b);
    forall a, b | a in ids && b in ids && a != b ensures before(a, b) || before(b, a) {
      BeforeIsTotal(songs, a, b);
    }
    forall a, b, c | a in ids && b in ids && c in ids && before(a, b) && before(b, c) ensures before(a, c) {
      BeforeChains(songs, a, b, c);
    }
    x := Sorting.FirstOf(ids, before);
  }

  lemma {:induction false} AnyListing(songs: Songs, ids: set<string>) returns (s: seq<string>)
    requires ids <= songs.Keys
    ensures Lists(songs, s, ids)
    decreases |ids|
  {
    if ids == {} {
      s := [];
    } else {
      var x := Earliest(songs, ids);
      var rest := AnyListing(songs, ids - {x});
      s := [x] + rest;
      forall id | id in ids ensures id in s {
        assert id == x || id in rest;
      }
    }
  }

  /** The ordering ignores what the backfills write. */
  ghost predicate SameTimes(a: Songs, b: Songs) {
    a.Keys == b.Keys && forall id :: id in a ==>
      a[id].recent == b[id].recent && a[id].created == b[id].created && a[id].released == b[id].released
  }

  lemma {:induction false} SameRank(a: Songs, b: Songs, id: string)
    requires SameTimes(a, b) && id in a
    ensures Recent(a) == Recent(b) && Rank(a, id) == Rank(b, id)
    ensures forall x, y :: x in a && y in a ==> (Before(a, x, y) <==> Before(b, x, y))
  {
    assert Recent(a) == Recent(b);
    assert Earlier(a, Recent(a), id) == Earlier(b, Recent(b), id);
  }

  lemma {:induction false} SameBatchIsSameQuotient(songs: Songs, id: string, x: string)
    requires id in songs && songs[id].recent
    ensures x in Group(WithSeq(songs), SeqTarget(songs, id)) <==>
              x in Recent(songs) && Rank(songs, x) / BATCH_SIZE == Rank(songs, id) / BATCH_SIZE
  {
  }

  lemma {:induction false} PlaceInBatch(songs: Songs, s: seq<string>, k: nat)
    requires Lists(songs, s, Recent(songs)) && k < |s|
    ensures Rank(songs, s[k]) == k
    ensures |Earlier(WithSeq(songs), Group(WithSeq(songs), k / BATCH_SIZE + 1), s[k])| == k % BATCH_SIZE
  {
    var w, low := WithSeq(songs), k / BATCH_SIZE * BATCH_SIZE;
    RankOfEntry(songs, s, Recent(songs), k);
    var group := Group(w, k / BATCH_SIZE + 1);
    var between := set x | x in Recent(songs) && Before(songs, x, s[k]) && !Before(songs, x, s[low]);
    Between(songs, s, Recent(songs), low, k);
    forall x ensures x in Earlier(w, group, s[k]) <==> x in between {
      SameBatchIsSameQuotient(songs, s[k], x);
      if x in Recent(songs) {
        var i :| 0 <= i < |s| && s[i] == x;
        RankOfEntry(songs, s, Recent(songs), i);
        BeforeByPlace(songs, s, Recent(songs), i, k);
        BeforeByPlace(songs, s, Recent(songs), i, low);
        SameQuotient(i, k);
      }
    }
    assert Earlier(w, group, s[k]) == between;
  }

  lemma {:induction false} SameQuotient(i: nat, k: nat)
    ensures i < k ==> (i / BATCH_SIZE == k / BATCH_SIZE <==> i >= k / BATCH_SIZE * BATCH_SIZE)
  {
  }

  /** The k-th recent song gets batch k / 13 + 1 and place k % 13 + 1 (so the
      clamp never bites); other songs get 0 and 0. */
  lemma {:induction false} TwoStages(songs: Songs, id: string)
    requires id in songs
    ensures var song := WithPos(WithSeq(songs))[id];
            song == if songs[id].recent
                    then songs[id].(batchSeq := Rank(songs, id) / 13 + 1, batchPos := Rank(songs, id) % 13 + 1)
                    else songs[id].(batchSeq := 0, batchPos := 0)
  {
    if songs[id].recent {
      var s := AnyListing(songs, Recent(songs));
      assert id in Recent(songs);
      var k :| 0 <= k < |s| && s[k] == id;
      PlaceInBatch(songs, s, k);
    }
  }

  lemma {:induction false} RankOrders(songs: Songs, a: string, b: string)
    requires a in Recent(songs) && b in Recent(songs)
    ensures Before(songs, a, b) <==> Rank(songs, a) < Rank(songs, b)
    ensures Rank(songs, a) == Rank(songs, b) ==> a == b
    ensures Rank(songs, a) < |Recent(songs)|
  {
    var s := AnyListing(songs, Recent(songs));
    ListedOnce(songs, s, Recent(songs));
    var i :| 0 <= i < |s| && s[i] == a;
    var j :| 0 <= j < |s| && s[j] == b;
    RankOfEntry(songs, s, Recent(songs), i);
    RankOfEntry(songs, s, Recent(songs), j);
    BeforeByPlace(songs, s, Recent(songs), i, j);
  }

  /** Batch and place follow the (ordering time, ID) order, and no two recent
      songs share them. */
  lemma {:induction false} PlacesFollowTheOrder(songs: Songs, a: string, b: string)
    requires a in Recent(songs) && b in Recent(songs)
    ensures var x, y := WithPos(WithSeq(songs))[a], WithPos(WithSeq(songs))[b];
            && (Before(songs, a, b)
                <==> x.batchSeq < y.batchSeq || (x.batchSeq == y.batchSeq && x.batchPos < y.batchPos))
            && (x.batchSeq == y.batchSeq && x.batchPos == y.batchPos ==> a == b)
  {
    TwoStages(songs, a);
    TwoStages(songs, b);
    RankOrders(songs, a, b);
    ByThirteen(Rank(songs, a), Rank(songs, b));
  }

  lemma {:induction false} ByThirteen(i: nat, j: nat)
    ensures i < j
        <==> i / BATCH_SIZE < j / BATCH_SIZE || (i / BATCH_SIZE == j / BATCH_SIZE && i % BATCH_SIZE < j % BATCH_SIZE)
    ensures i / BATCH_SIZE == j / BATCH_SIZE && i % BATCH_SIZE == j % BATCH_SIZE ==> i == j
  {
  }

  /** When a song is from: a created time wins over a release date, and a song
      with neither is from the zero time. */
  ghost predicate IsFrom(song: Song, t: int) {
    match (song.created, song.released)
    case (Some(created), _) => t == created
    case (None, Some(released)) => t == released
    case (None, None) => t == 0
  }

  /** Of two recent songs the older one gets the lower batch and place, and of
      two from the same time the one with the lower ID. */
  lemma {:induction false} OlderSongsComeFirst(songs: Songs, a: string, b: string, s: int, t: int)
    requires a in songs && b in songs && songs[a].recent && songs[b].recent && a != b
    requires IsFrom(songs[a], s) && IsFrom(songs[b], t)
    ensures var x, y := WithPos(WithSeq(songs))[a], WithPos(WithSeq(songs))[b];
            (s < t || (s == t && StringLess(a, b))) <==>
              x.batchSeq < y.batchSeq || (x.batchSeq == y.batchSeq && x.batchPos < y.batchPos)
  {
    PlacesFollowTheOrder(songs, a, b);
  }

  /** Place 1 of batch 1 is that of the recent song before which no other is. */
  lemma {:induction false} EarliestComesFirst(songs: Songs, id: string, s: int)
    requires id in songs && songs[id].recent && IsFrom(songs[id], s)
    ensures WithPos(WithSeq(songs))[id].batchSeq == 1 && WithPos(WithSeq(songs))[id].batchPos == 1 <==>
              forall x, t :: x in songs && songs[x].recent && x != id && IsFrom(songs[x], t) ==>
                s < t || (s == t && StringLess(id, x))
  {
    TwoStages(songs, id);
    var earlier := Earlier(songs, Recent(songs), id);
    if earlier == {} {
      forall x, t | x in songs && songs[x].recent && x != id && IsFrom(songs[x], t)
        ensures s < t || (s == t && StringLess(id, x))
      {
        assert x !in earlier;
        BeforeIsTotal(songs, x, id);
      }
    } else {
      var x :| x in earlier;
      BeforeIsTotal(songs, x, id);
      assert IsFrom(songs[x], OrderingTime(songs[x]));
    }
  }

  /** Place `p` of batch `q` is taken exactly when the recent songs reach that
      far: every batch but the last is full, and the last has no holes. */
  lemma {:induction false} BatchesAreFull(songs: Songs, q: int, p: int)
    requires 1 <= q && 1 <= p <= 13
    ensures (q - 1) * 13 + p - 1 < |Recent(songs)| <==>
              exists id ::
                id in Recent(songs) && WithPos(WithSeq(songs))[id].batchSeq == q
                && WithPos(WithSeq(songs))[id].batchPos == p
  {
    var k := (q - 1) * BATCH_SIZE + p - 1;
    assert k / BATCH_SIZE == q - 1 && k % BATCH_SIZE == p - 1;
    var s := AnyListing(songs, Recent(songs));
    ListedOnce(songs, s, Recent(songs));
    if k < |s| {
      RankOfEntry(songs, s, Recent(songs), k);
      TwoStages(songs, s[k]);
      assert s[k] in Recent(songs);
    } else {
      forall id | id in Recent(songs) && WithPos(WithSeq(songs))[id].batchSeq == q
        ensures WithPos(WithSeq(songs))[id].batchPos != p
      {
        TwoStages(songs, id);
        RankOrders(songs, id, id);
      }
    }
  }

  /** Running both again changes nothing. */
  lemma {:induction false} SecondRunChangesNothing(songs: Songs)
    ensures var done := WithPos(WithSeq(songs)); WithSeq(done) == done && WithPos(done) == done
  {
    var done := WithPos(WithSeq(songs));
    forall id | id in songs ensures WithSeq(done)[id] == done[id] {
      TwoStages(songs, id);
      assert SameTimes(songs, done) by {
        forall x | x in songs
          ensures done[x].recent == songs[x].recent && done[x].created == songs[x].created
                  && done[x].released == songs[x].released
        {
        }
      }
      SameRank(songs, done, id);
    }
    assert WithSeq(done) == done;
    forall id | id in songs ensures WithPos(done)[id] == done[id] {
      TwoStages(songs, id);
      TwoStages(done, id);
      assert SameTimes(songs, done);
      SameRank(songs, done, id);
    }
    assert WithPos(done) == done;
  }
}
