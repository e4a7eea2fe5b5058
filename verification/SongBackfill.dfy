/** The backfill loops over the song records. */
module SongBackfill {
  import opened SongOrder
  import opened SongBatches

  /** `before` with the songs in `done` changed as in `after`. */
  function Mixed(before: Songs, after: Songs, done: set<string>): Songs
    requires before.Keys == after.Keys
  {
    map id | id in before :: if id in done then after[id] else before[id]
  }

  lemma {:induction false} OneMoreMixed(before: Songs, after: Songs, done: set<string>, id: string)
    requires before.Keys == after.Keys && id in before && id !in done
    ensures Mixed(before, after, done + {id}) == Mixed(before, after, done)[id := after[id]]
    ensures Mixed(before, after, done)[id] == before[id]
    ensures Mixed(before, after, done + {id}) == before
        <==> Mixed(before, after, done) == before && after[id] == before[id]
  {
    var was, now := Mixed(before, after, done), Mixed(before, after, done + {id});
    assert now == was[id := after[id]];
    if now == before {
      forall x | x in before ensures was[x] == before[x] {
        assert now[x] == before[x];
      }
      assert was == before;
    }
    if was == before && after[id] == before[id] {
      assert now == before;
    }
  }

  lemma {:induction false} MixedEnds(before: Songs, after: Songs)
    requires before.Keys == after.Keys
    ensures Mixed(before, after, {}) == before && Mixed(before, after, before.Keys) == after
  {
  }

  /** What the position backfill does before it looks at places. */
  function Normalized(songs: Songs): Songs {
    map id | id in songs ::
      if songs[id].recent then songs[id].(batchSeq := SeqOf(songs[id])) else songs[id].(batchPos := 0)
  }

  lemma {:induction false} NormalizedPlaces(songs: Songs, id: string)
    requires id in songs
    ensures WithPos(songs)[id] == WithPos(Normalized(songs))[id]
    ensures Normalized(songs)[id] == songs[id] || WithPos(songs)[id] != songs[id]
  {
    var n := Normalized(songs);
    assert Group(n, SeqOf(songs[id])) == Group(songs, SeqOf(songs[id]));
    assert Earlier(n, Group(n, SeqOf(songs[id])), id) == Earlier(songs, Group(songs, SeqOf(songs[id])), id);
  }

  class SongTable {
    var songs: Songs
    var saves: nat

    constructor (songs: Songs)
      ensures this.songs == songs && saves == 0
    {
      this.songs, saves := songs, 0;
    }

    /** Records were saved exactly if something changed. */
    ghost predicate Tally(origin: Songs, first: nat)
      reads this
    {
      saves >= first && (saves == first <==> songs == origin)
    }

    /** Save a record only when it changes; the songs in `done` were dealt with. */
    method Save(id: string, song: Song, ghost start: Songs, ghost after: Songs, ghost done: set<string>,
        ghost origin: Songs, ghost first: nat)
      requires start.Keys == after.Keys && id in start && id !in done && song == after[id]
      requires songs == Mixed(start, after, done) && Tally(origin, first)
      requires song == start[id] || (id in origin && song != origin[id])
      modifies this
      ensures songs == Mixed(start, after, done + {id}) && Tally(origin, first)
    {
      OneMoreMixed(start, after, done, id);
      if songs[id] != song {
        songs, saves := songs[id := song], saves + 1;
      } else {
        assert songs == songs[id := song];
      }
    }

    method SetSeq(id: string, targetSeq: int, ghost start: Songs, ghost after: Songs, ghost done: set<string>,
        ghost first: nat)
      requires start.Keys == after.Keys && id in start && id !in done && after[id] == start[id].(batchSeq := targetSeq)
      requires songs == Mixed(start, after, done) && Tally(start, first)
      modifies this
      ensures songs == Mixed(start, after, done + {id}) && Tally(start, first)
    {
      OneMoreMixed(start, after, done, id);
      Save(id, songs[id].(batchSeq := targetSeq), start, after, done, start, first);
    }

    method SetPlace(id: string, q: int, place: int, ghost start: Songs, ghost after: Songs, ghost done: set<string>,
        ghost origin: Songs, ghost first: nat)
      requires start.Keys == after.Keys && id in start && id !in done
      requires after[id] == start[id].(batchSeq := q, batchPos := place)
      requires after[id] == start[id] || (id in origin && after[id] != origin[id])
      requires songs == Mixed(start, after, done) && Tally(origin, first)
      modifies this
      ensures songs == Mixed(start, after, done + {id}) && Tally(origin, first)
    {
      OneMoreMixed(start, after, done, id);
      Save(id, songs[id].(batchSeq := q, batchPos := place), start, after, done, origin, first);
    }

    /** The first loop: other songs go to batch 0, recent ones are collected. */
    method ZeroOthers(ghost after: Songs) returns (recent: set<string>)
      requires after.Keys == songs.Keys
      requires forall id :: id in songs && !songs[id].recent ==> after[id] == songs[id].(batchSeq := 0)
      modifies this
      ensures recent == Recent(old(songs)) && Tally(old(songs), old(saves))
      ensures songs == Mixed(old(songs), after, old(songs).Keys - recent)
    {
      var start := songs;
      ghost var done := {};
      var left := songs.Keys;
      recent := {};
      MixedEnds(start, after);
      while left != {}
        invariant left <= start.Keys && recent == Recent(start) - left && done == start.Keys - left - recent
        invariant songs == Mixed(start, after, done) && Tally(start, old(saves))
      {
        var id :| id in left;
        if start[id].recent {
          recent := recent + {id};
        } else {
          SetSeq(id, 0, start, after, done, old(saves));
          done := done + {id};
        }
        left := left - {id};
      }
    }

    /** The second loop, over the sorted recent songs. */
    method NumberAll(s: seq<string>, ghost start: Songs, ghost after: Songs, ghost recent: set<string>,
        ghost first: nat)
      requires start.Keys == after.Keys && forall k, l :: 0 <= k < l < |s| ==> s[k] != s[l]
      requires forall k :: 0 <= k < |s| ==> SeqOk(s[k], k, start, after, recent)
      requires songs == Mixed(start, after, start.Keys - recent) && Tally(start, first)
      modifies this
      ensures songs == Mixed(start, after, start.Keys - recent + Elements(s)) && Tally(start, first)
    {
      ghost var others := start.Keys - recent;
      for k := 0 to |s|
        invariant songs == Mixed(start, after, DoneAt(others, s, k)) && Tally(start, first)
      {
        assert SeqOk(s[k], k, start, after, recent);
        NotYet(others, s, k, k);
        SetSeq(s[k], k / BATCH_SIZE + 1, start, after, DoneAt(others, s, k), first);
      }
      AllAt(others, s, |s|);
    }

    method BackfillSongRecentBatchSeq()
      modifies this
      ensures songs == WithSeq(old(songs)) && Tally(old(songs), old(saves))
    {
      var start := songs;
      ghost var after := WithSeq(start);
      var recent := ZeroOthers(after);
      var s := Sort(start, recent);
      ListedOnce(start, s, recent);
      forall k | 0 <= k < |s| ensures SeqOk(s[k], k, start, after, recent) {
        SeqOfEntry(start, s, recent, k);
      }
      NumberAll(s, start, after, recent, old(saves));
      assert start.Keys - recent + Elements(s) == start.Keys;
      MixedEnds(start, after);
    }

    /** The normalizing loop, which also collects the batches. */
    method Normalize() returns (perSeq: map<int, set<string>>)
      modifies this
      ensures songs == Normalized(old(songs)) && Tally(old(songs), old(saves))
      ensures forall q :: q in perSeq <==> Group(old(songs), q) != {}
      ensures forall q :: q in perSeq ==> perSeq[q] == Group(old(songs), q)
    {
      var start := songs;
      ghost var after, done := Normalized(start), {};
      var left := songs.Keys;
      perSeq := map[];
      MixedEnds(start, after);
      while left != {}
        invariant left <= start.Keys && done == start.Keys - left
        invariant songs == Mixed(start, after, done) && Tally(start, old(saves))
        invariant forall q :: q in perSeq <==> Group(start, q) - left != {}
        invariant forall q :: q in perSeq ==> perSeq[q] == Group(start, q) - left
      {
        var id :| id in left;
        OneMoreMixed(start, after, done, id);
        MoreInGroup(start, left, id);
        if start[id].recent {
          var q := SeqOf(start[id]);
          Save(id, songs[id].(batchSeq := q), start, after, done, start, old(saves));
          perSeq := perSeq[q := (if q in perSeq then perSeq[q] else {}) + {id}];
        } else {
          Save(id, songs[id].(batchPos := 0), start, after, done, start, old(saves));
        }
        left, done := left - {id}, done + {id};
      }
      MixedEnds(start, after);
    }

    /** Number the songs of one sorted batch. */
    method NumberSorted(s: seq<string>, q: int, ghost start: Songs, ghost after: Songs, ghost done: set<string>,
        ghost origin: Songs, ghost first: nat)
      requires start.Keys == after.Keys && forall k, l :: 0 <= k < l < |s| ==> s[k] != s[l]
      requires forall k :: 0 <= k < |s| ==> s[k] !in done && PlaceOk(s[k], q, k, start, after, origin)
      requires songs == Mixed(start, after, done) && Tally(origin, first)
      modifies this
      ensures songs == Mixed(start, after, done + Elements(s)) && Tally(origin, first)
    {
      for k := 0 to |s|
        invariant songs == Mixed(start, after, DoneAt(done, s, k)) && Tally(origin, first)
      {
        NotYet(done, s, k, k);
        assert PlaceOk(s[k], q, k, start, after, origin);
        SetPlace(s[k], q, ClampedPlace(k), start, after, DoneAt(done, s, k), origin, first);
      }
      AllAt(done, s, |s|);
    }

    /** One batch: sort it, then number it. */
    method NumberBatch(start: Songs, q: int, ids: set<string>, ghost done: set<string>, ghost origin: Songs,
        ghost first: nat)
      requires start == Normalized(origin) && ids == Group(start, q) && ids !! done
      requires songs == Mixed(start, WithPos(start), done) && Tally(origin, first)
      modifies this
      ensures songs == Mixed(start, WithPos(start), done + ids) && Tally(origin, first)
    {
      var s := Sort(start, ids);
      ListedOnce(start, s, ids);
      forall k | 0 <= k < |s| ensures s[k] in ids && PlaceOk(s[k], q, k, start, WithPos(start), origin) {
        PosOfEntry(origin, s, q, ids, k);
      }
      NumberSorted(s, q, start, WithPos(start), done, origin, first);
    }

    /** The loop over the batches. */
    method NumberBatches(start: Songs, perSeq: map<int, set<string>>, ghost origin: Songs, ghost first: nat)
      requires start == Normalized(origin) && forall q :: q in perSeq ==> perSeq[q] == Group(start, q)
      requires forall id :: id in start && start[id].recent ==> SeqOf(start[id]) in perSeq
      requires songs == Mixed(start, WithPos(start), start.Keys - Recent(start)) && Tally(origin, first)
      modifies this
      ensures songs == WithPos(start) && Tally(origin, first)
    {
      ghost var done := start.Keys - Recent(start);
      var left := perSeq.Items;
      forall id | id in start && start[id].recent ensures (SeqOf(start[id]), Group(start, SeqOf(start[id]))) in left {
        assert perSeq[SeqOf(start[id])] == Group(start, SeqOf(start[id]));
      }
      while left != {}
        invariant left <= perSeq.Items && done <= start.Keys
        invariant forall id :: id in start ==>
                    (id in done <==> !start[id].recent || (SeqOf(start[id]), Group(start, SeqOf(start[id]))) !in left)
        invariant songs == Mixed(start, WithPos(start), done) && Tally(origin, first)
      {
        var entry :| entry in left;
        assert entry.0 in perSeq && entry.1 == perSeq[entry.0];
        NumberBatch(start, entry.0, entry.1, done, origin, first);
        done := done + entry.1;
        left := left - {entry};
      }
      assert done == start.Keys;
      MixedEnds(start, WithPos(start));
    }

    method BackfillSongRecentBatchPos()
      modifies this
      ensures songs == WithPos(old(songs)) && Tally(old(songs), old(saves))
    {
      ghost var origin := songs;
      var perSeq := Normalize();
      var start := songs;
      SameGroups(origin);
      OthersArePlaced(origin);
      forall id | id in start && start[id].recent ensures SeqOf(start[id]) in perSeq {
        assert id in Group(start, SeqOf(start[id]));
      }
      NumberBatches(start, perSeq, origin, old(saves));
      NormalizedSame(origin);
    }
  }

  lemma {:induction false} NormalizedSame(songs: Songs)
    ensures WithPos(Normalized(songs)) == WithPos(songs)
  {
    forall id | id in songs ensures WithPos(songs)[id] == WithPos(Normalized(songs))[id] {
      NormalizedPlaces(songs, id);
    }
  }

  ghost predicate SeqOk(id: string, k: nat, start: Songs, after: Songs, recent: set<string>) {
    && id in start && id in after && id in recent
    && after[id] == start[id].(batchSeq := k / BATCH_SIZE + 1)
  }

  lemma {:induction false} SeqOfEntry(songs: Songs, s: seq<string>, ids: set<string>, k: nat)
    requires Lists(songs, s, ids) && ids == Recent(songs) && k < |s|
    ensures SeqOk(s[k], k, songs, WithSeq(songs), ids)
  {
    RankOfEntry(songs, s, ids, k);
    assert s[k] in Recent(songs);
  }

  function ClampedPlace(k: nat): nat {
    if k + 1 <= BATCH_SIZE then k + 1 else BATCH_SIZE
  }

  ghost predicate PlaceOk(id: string, q: int, k: nat, start: Songs, after: Songs, origin: Songs) {
    && id in start && id in after && id in origin
    && after[id] == start[id].(batchSeq := q, batchPos := ClampedPlace(k))
    && (after[id] == start[id] || after[id] != origin[id])
  }

  lemma {:induction false} PosOfEntry(origin: Songs, s: seq<string>, q: int, ids: set<string>, k: nat)
    requires var start := Normalized(origin); Lists(start, s, ids) && ids == Group(start, q) && k < |s|
    ensures s[k] in ids && PlaceOk(s[k], q, k, Normalized(origin), WithPos(Normalized(origin)), origin)
  {
    var start := Normalized(origin);
    RankOfEntry(start, s, ids, k);
    assert s[k] in Group(start, q);
    NormalizedPlaces(origin, s[k]);
  }

  lemma {:induction false} SameGroups(songs: Songs)
    ensures forall q :: Group(Normalized(songs), q) == Group(songs, q)
  {
  }

  /** Normalizing already places the songs that are not recent. */
  lemma {:induction false} OthersArePlaced(songs: Songs)
    ensures var n := Normalized(songs); Mixed(n, WithPos(n), n.Keys - Recent(n)) == n
  {
  }

  /** The songs dealt with before entry `k` of the list. */
  ghost function DoneAt(others: set<string>, s: seq<string>, k: nat): set<string>
    requires k <= |s|
  {
    if k == 0 then others else DoneAt(others, s, k - 1) + {s[k - 1]}
  }

  lemma {:induction false} NotYet(others: set<string>, s: seq<string>, k: nat, n: nat)
    requires k < |s| && n <= k && s[k] !in others && forall i, j :: 0 <= i < j < |s| ==> s[i] != s[j]
    ensures s[k] !in DoneAt(others, s, n)
  {
    if n == 0 {
    } else {
      NotYet(others, s, k, n - 1);
    }
  }

  lemma {:induction false} AllAt(others: set<string>, s: seq<string>, k: nat)
    requires k <= |s|
    ensures DoneAt(others, s, k) <= others + Elements(s)
    ensures k == |s| ==> DoneAt(others, s, k) == others + Elements(s)
    ensures forall i :: 0 <= i < k ==> s[i] in DoneAt(others, s, k)
    ensures others <= DoneAt(others, s, k)
  {
    if k == 0 {
    } else {
      AllAt(others, s, k - 1);
    }
  }

  lemma {:induction false} MoreInGroup(songs: Songs, left: set<string>, id: string)
    requires id in left && id in songs
    ensures forall q :: Group(songs, q) - (left - {id}) ==
              if songs[id].recent && SeqOf(songs[id]) == q
              then Group(songs, q) - left + {id} else Group(songs, q) - left
  {
  }
}
