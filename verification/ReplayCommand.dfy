/** The replay command: full and incremental replay, the tail counts and the
    checkpoints, over a log that other processes append to between replays. */
module ReplayCommand {
  import opened EventStore
  import opened SnapshotLog
  import opened ReplayLog

  const PAGE_SIZE := 500

  function Count(msgs: seq<Msg>, streamType: string): nat {
    if msgs == [] then 0
    else Count(msgs[..|msgs| - 1], streamType) + if msgs[|msgs| - 1].e.streamType == streamType then 1 else 0
  }

  lemma {:induction false} CountJoins(x: seq<Msg>, y: seq<Msg>, streamType: string)
    ensures Count(x + y, streamType) == Count(x, streamType) + Count(y, streamType)
  {
    if y == [] {
      assert x + y == x;
    } else {
      CountJoins(x, y[..|y| - 1], streamType);
      assert (x + y)[..|x + y| - 1] == x + y[..|y| - 1];
    }
  }

  /** The events of a type behind the floor, by their places in the log. */
  function Tail(log: seq<Msg>, streamType: string, floor: int): set<nat> {
    set i: nat | i < |log| && log[i].seqNo > floor && log[i].e.streamType == streamType
  }

  lemma {:induction false} CountIsTail(log: seq<Msg>, streamType: string, floor: int)
    requires Ordered(log)
    ensures Count(After(log, floor), streamType) == |Tail(log, streamType, floor)|
  {
    var k := AfterIsSuffix(log, floor);
    CountFrom(log, k, streamType);
    assert Tail(log, streamType, floor) == Places(log, k, streamType);
  }

  lemma {:induction false} CountLast(msgs: seq<Msg>, last: Msg, streamType: string)
    ensures Count(msgs + [last], streamType) ==
              Count(msgs, streamType) + if last.e.streamType == streamType then 1 else 0
  {
    assert (msgs + [last])[..|msgs|] == msgs;
  }

  /** The events of a type from a place on, by their places. */
  function Places(log: seq<Msg>, k: nat, streamType: string): set<nat> {
    set i: nat | k <= i < |log| && log[i].e.streamType == streamType
  }

  lemma {:induction false} CountFrom(log: seq<Msg>, k: nat, streamType: string)
    requires k <= |log|
    ensures Count(log[k..], streamType) == |Places(log, k, streamType)|
  {
    if k == |log| {
      assert Places(log, k, streamType) == {};
    } else {
      var init, last := log[..|log| - 1], log[|log| - 1];
      CountFrom(init, k, streamType);
      CountLast(init[k..], last, streamType);
      PlacesLast(init, last, k, streamType);
      assert log == init + [last] && log[k..] == init[k..] + [last];
    }
  }

  lemma {:induction false} PlacesLast(init: seq<Msg>, last: Msg, k: nat, streamType: string)
    requires k <= |init|
    ensures |Places(init + [last], k, streamType)| ==
              |Places(init, k, streamType)| + if last.e.streamType == streamType then 1 else 0
  {
    assert Places(init + [last], k, streamType) ==
           Places(init, k, streamType) + if last.e.streamType == streamType then {|init|} else {};
  }

  class Replayer<V(==)> {
    const fold: seq<Event> -> V
    /** Checkpoint lookups never fail. */
    const reliable: bool
    var log: seq<Msg>
    var read: map<string, V>
    /** Saved positions by stream type, each the name of its projection. */
    var checkpoints: map<string, int>

    constructor (fold: seq<Event> -> V, reliable: bool)
      ensures Valid()
    {
      this.fold, this.reliable := fold, reliable;
      log, read, checkpoints := [], map[], map[];
      new;
      forall sid ensures Kept(fold, read, checkpoints, log, sid) {
        assert Shows(fold, read, log, sid, 0);
      }
    }

    function End(): int
      reads `log
    {
      if log == [] then 0 else log[|log| - 1].seqNo
    }

    /** Every event at or below its type's checkpoint is in the read model, and
        no row is made of anything else; checkpoints are positions of events. */
    ghost predicate Valid()
      reads this
    {
      PromisesKept(read)
    }

    ghost predicate PromisesKept(rows: map<string, V>)
      reads `log, `checkpoints
    {
      && Ordered(log)
      && (forall t :: t in checkpoints ==> 0 <= checkpoints[t] <= End())
      && Earned(log, checkpoints)
      && (forall sid :: Kept(fold, rows, checkpoints, log, sid))
    }

    /** Facts are appended between two runs. */
    method Append(more: seq<Msg>)
      requires Valid() && Ordered(log + more)
      modifies `log
      ensures Valid() && log == old(log) + more
    {
      ghost var before, end := log, End();
      log := log + more;
      forall k | 0 <= k < |more| ensures more[k].seqNo > end {
        assert more[k] == log[|before| + k];
        assert before != [] ==> before[|before| - 1] == log[|before| - 1];
      }
      assert end <= End();
      StaysEarned(before, more, checkpoints);
      forall sid ensures Kept(fold, read, checkpoints, log, sid) {
        assert Kept(fold, read, checkpoints, before, sid);
        StreamJoins(before, more, sid);
        AppendsKeepRows(fold, read, before, more, sid, Saved(checkpoints, TypeOf(Stream(before, sid))),
                        Saved(checkpoints, TypeOf(Stream(log, sid))));
      }
    }

    method LoadFromGlobalPosition(position: int, limit: nat) returns (page: seq<Msg>)
      requires limit > 0
      ensures page <= After(log, position) && |page| <= limit
      ensures page == [] ==> After(log, position) == []
    {
      var rest := After(log, position);
      page := if |rest| <= limit then rest else rest[..limit];
    }

    method GetCheckpoint(streamType: string) returns (position: int, ok: bool)
      ensures ok ==> position == Saved(checkpoints, streamType)
      ensures reliable ==> ok
    {
      position, ok := Saved(checkpoints, streamType), true;
      var fails: bool := *;
      if !reliable && fails {
        position, ok := 0, false;
      }
    }

    method CountPage(page: seq<Msg>, streamType: string) returns (count: nat)
      ensures count == Count(page, streamType)
    {
      count := 0;
      for i := 0 to |page|
        invariant count == Count(page[..i], streamType)
      {
        assert page[..i + 1][..i] == page[..i];
        if page[i].e.streamType == streamType {
          count := count + 1;
        }
      }
      assert page[..|page|] == page;
    }

    method TouchPage(page: seq<Msg>, infos: map<string, string>) returns (touched: set<string>)
      ensures touched == Touches(page) * infos.Keys
    {
      touched := {};
      for i := 0 to |page|
        invariant touched == Touches(page[..i]) * infos.Keys
      {
        assert page[..i + 1] == page[..i] + [page[i]];
        TouchesJoin(page[..i], [page[i]]);
        OneTouch(page[i]);
        if page[i].e.streamID in infos {
          touched := touched + {page[i].e.streamID};
        }
      }
      assert page[..|page|] == page;
    }

    /** The paging loop, for one type: every event behind the floor, once. */
    method CountTail(streamType: string, floor: int) returns (count: nat)
      requires Ordered(log)
      ensures count == |Tail(log, streamType, floor)|
    {
      count := 0;
      var position, more := floor, true;
      ghost var seen: seq<Msg> := [];
      while more
        invariant After(log, floor) == seen + After(log, position)
        invariant count == Count(seen, streamType)
        invariant !more ==> After(log, position) == []
        decreases if more then 1 + |After(log, position)| else 0
      {
        var page := LoadFromGlobalPosition(position, PAGE_SIZE);
        var n := CountPage(page, streamType);
        count := count + n;
        CountJoins(seen, page, streamType);
        SeenGrows(log, floor, seen, position, page);
        if |page| == 0 {
          more := false;
        } else {
          position := page[|page| - 1].seqNo;
        }
        seen := seen + page;
      }
      assert seen + After(log, position) == seen;
      CountIsTail(log, streamType, floor);
    }

    /** What an incremental replay would have to look at, by type. */
    method TailCounts(selected: set<string>) returns (tails: map<string, nat>)
      requires Ordered(log)
      ensures tails.Keys == selected
      ensures reliable ==> forall t :: t in selected ==> tails[t] == |Tail(log, t, Saved(checkpoints, t))|
    {
      tails := map[];
      var left := selected;
      while left != {}
        invariant left <= selected && tails.Keys == selected - left
        invariant reliable ==> forall t :: t in tails ==> tails[t] == |Tail(log, t, Saved(checkpoints, t))|
      {
        var t :| t in left;
        var position, ok := GetCheckpoint(t);
        var count := CountTail(t, if ok then position else 0);
        tails, left := tails[t := count], left - {t};
      }
    }

    /** The streams of the selected types, each with its type. */
    method Streams(selected: set<string>) returns (infos: map<string, string>)
      ensures forall sid :: sid in infos <==> sid in Touches(log) && TypeOf(Stream(log, sid)) in selected
      ensures forall sid :: sid in infos ==> infos[sid] == TypeOf(Stream(log, sid))
    {
      infos := map sid | sid in Touches(log) && TypeOf(Stream(log, sid)) in selected :: TypeOf(Stream(log, sid));
    }

    /** The lowest checkpoint of the selected types; zero when one is unknown. */
    method ResumeFloor(selected: set<string>) returns (floor: int)
      requires forall t :: t in checkpoints ==> 0 <= checkpoints[t]
      ensures forall t :: t in selected ==> 0 <= floor <= Saved(checkpoints, t)
      ensures reliable && selected != {} ==> exists t :: t in selected && floor == Saved(checkpoints, t)
    {
      floor := 0;
      var floorSet, left := false, selected;
      assert forall t :: 0 <= Saved(checkpoints, t);
      while left != {}
        invariant left <= selected
        invariant floorSet <==> left != selected
        invariant forall t :: t in selected && t !in left ==> 0 <= floor <= Saved(checkpoints, t)
        invariant reliable && floorSet ==> exists t :: t in selected && floor == Saved(checkpoints, t)
      {
        var t :| t in left;
        var position, ok := GetCheckpoint(t);
        if !ok {
          return 0;
        }
        if !floorSet || position < floor {
          floor, floorSet := position, true;
        }
        left := left - {t};
      }
    }

    /** The same paging loop: which of the listed streams were touched. */
    method Touched(infos: map<string, string>, floor: int) returns (touched: set<string>)
      requires Ordered(log)
      ensures touched == Touches(After(log, floor)) * infos.Keys
    {
      touched := {};
      var position, more := floor, true;
      ghost var seen: seq<Msg> := [];
      while more
        invariant After(log, floor) == seen + After(log, position)
        invariant touched == Touches(seen) * infos.Keys
        invariant !more ==> After(log, position) == []
        decreases if more then 1 + |After(log, position)| else 0
      {
        var page := LoadFromGlobalPosition(position, PAGE_SIZE);
        var here := TouchPage(page, infos);
        touched := touched + here;
        TouchesJoin(seen, page);
        SeenGrows(log, floor, seen, position, page);
        if |page| == 0 {
          more := false;
        } else {
          position := page[|page| - 1].seqNo;
        }
        seen := seen + page;
      }
      assert seen + After(log, position) == seen;
    }

    // ---------------------------------------------------------- projecting

    /** The stream has an event at the position. */
    ghost predicate IsPosition(sid: string, position: int)
      reads `log
    {
      exists i :: 0 <= i < |log| && log[i].e.streamID == sid && log[i].seqNo == position
    }

    /** The highest position of the stream's events raises its type's frontier. */
    method RaiseFrontier(sid: string, streamType: string, frontiers: map<string, int>)
      returns (raised: map<string, int>)
      requires Ordered(log)
      ensures forall t :: t in raised ==> t in frontiers || t == streamType
      ensures forall t :: t in frontiers ==>
                t in raised && raised[t] >= frontiers[t] && (t != streamType ==> raised[t] == frontiers[t])
      ensures forall i :: 0 <= i < |log| && log[i].e.streamID == sid ==>
                streamType in raised && log[i].seqNo <= raised[streamType]
      ensures streamType in raised ==>
                (streamType in frontiers && raised[streamType] == frontiers[streamType])
                || IsPosition(sid, raised[streamType])
    {
      raised := frontiers;
      for i := 0 to |log|
        invariant forall t :: t in raised ==> t in frontiers || t == streamType
        invariant forall t :: t in frontiers ==>
                    t in raised && raised[t] >= frontiers[t] && (t != streamType ==> raised[t] == frontiers[t])
        invariant forall k :: 0 <= k < i && log[k].e.streamID == sid ==>
                    streamType in raised && log[k].seqNo <= raised[streamType]
        invariant streamType in raised ==>
                    (streamType in frontiers && raised[streamType] == frontiers[streamType])
                    || IsPosition(sid, raised[streamType])
      {
        if log[i].e.streamID == sid && log[i].seqNo > (if streamType in raised then raised[streamType] else 0) {
          raised := raised[streamType := log[i].seqNo];
        }
      }
    }

    /** Fold one stream through its idempotent projector. */
    method ProjectStream(sid: string, streamType: string, frontiers: map<string, int>)
      returns (raised: map<string, int>, n: nat, ok: bool)
      requires Ordered(log)
      modifies `read
      ensures ok ==> n == |Stream(log, sid)|
      ensures ok && n > 0 ==> TypeOf(Stream(log, sid)) == streamType && read == old(read)[sid := fold(Stream(log, sid))]
      ensures !ok || n == 0 ==> read == old(read) && raised == frontiers
      ensures ok && n > 0 ==> forall i :: 0 <= i < |log| && log[i].e.streamID == sid ==>
                streamType in raised && log[i].seqNo <= raised[streamType]
      ensures forall t :: t in raised ==> t in frontiers || (ok && n > 0 && t == streamType)
      ensures forall t :: t in frontiers ==> t in raised && raised[t] >= frontiers[t]
      ensures forall t :: t in raised ==>
                (t in frontiers && raised[t] == frontiers[t]) || (t == streamType && IsPosition(sid, raised[t]))
      ensures reliable && streamType == TypeOf(Stream(log, sid)) ==> ok
    {
      raised, n, ok := frontiers, 0, false;
      var fails: bool := *;
      if !reliable && fails {
        return;
      }
      var events := Stream(log, sid);
      if |events| == 0 {
        ok := true;
        return;
      }
      if events[0].streamType != streamType {
        return;
      }
      read := read[sid := fold(events)];
      raised := RaiseFrontier(sid, streamType, frontiers);
      n, ok := |events|, true;
    }

    /** A type's frontier is the highest position of its projected streams. */
    ghost predicate Covers(frontiers: map<string, int>, done: set<string>)
      reads `log
    {
      && (forall t :: t in frontiers ==> Attained(t, frontiers[t], done))
      && (forall i :: 0 <= i < |log| && log[i].e.streamID in done ==>
            var t := TypeOf(Stream(log, log[i].e.streamID)); t in frontiers && log[i].seqNo <= frontiers[t])
    }

    ghost predicate Attained(streamType: string, position: int, done: set<string>)
      reads `log
    {
      exists sid :: sid in done && TypeOf(Stream(log, sid)) == streamType && IsPosition(sid, position)
    }

    lemma AttainedIsInside(streamType: string, position: int, done: set<string>)
      requires Ordered(log) && Attained(streamType, position, done)
      ensures 0 < position <= End()
    {
      var sid :| sid in done && TypeOf(Stream(log, sid)) == streamType && IsPosition(sid, position);
      var i :| 0 <= i < |log| && log[i].e.streamID == sid && log[i].seqNo == position;
    }

    method ProjectNext(sid: string, streamType: string, frontiers: map<string, int>, ghost done: set<string>,
        ghost before: map<string, V>)
      returns (raised: map<string, int>, ok: bool)
      requires Ordered(log) && Covers(frontiers, done) && read == Projected(fold, before, log, done)
      requires Stream(log, sid) != [] && streamType == TypeOf(Stream(log, sid))
      modifies `read
      ensures var now := if ok then done + {sid} else done;
              read == Projected(fold, before, log, now) && Covers(raised, now)
      ensures reliable ==> ok
    {
      var n;
      OneMoreProjected(fold, before, log, done, sid);
      raised, n, ok := ProjectStream(sid, streamType, frontiers);
      if ok {
        StillCovers(frontiers, raised, done, sid);
      }
    }

    predicate Listed(infos: map<string, string>, sid: string)
      reads `log
    {
      sid in infos && Stream(log, sid) != [] && infos[sid] == TypeOf(Stream(log, sid))
    }

    lemma NothingProjected()
      ensures Covers(map[], {}) && read == Projected(fold, read, log, {})
    {
      OneMoreProjected(fold, read, log, {}, "");
    }

    method ProjectAll(todo: set<string>, infos: map<string, string>)
      returns (frontiers: map<string, int>, ok: bool, ghost done: set<string>)
      requires Ordered(log) && forall sid :: sid in todo ==> Listed(infos, sid)
      modifies `read
      ensures done <= todo && (ok ==> done == todo) && (reliable ==> ok)
      ensures read == Projected(fold, old(read), log, done)
      ensures Covers(frontiers, done)
    {
      frontiers, ok, done := map[], true, {};
      var left := todo;
      NothingProjected();
      while left != {}
        invariant left <= todo && done == todo - left
        invariant read == Projected(fold, old(read), log, done)
        invariant Covers(frontiers, done)
      {
        var sid :| sid in left;
        frontiers, ok := ProjectNext(sid, infos[sid], frontiers, done, old(read));
        if !ok {
          return;
        }
        left, done := left - {sid}, done + {sid};
      }
    }

    lemma StillCovers(before: map<string, int>, frontiers: map<string, int>, done: set<string>, sid: string)
      requires Covers(before, done)
      requires forall i :: 0 <= i < |log| && log[i].e.streamID == sid ==>
                 TypeOf(Stream(log, sid)) in frontiers && log[i].seqNo <= frontiers[TypeOf(Stream(log, sid))]
      requires forall t :: t in before ==> t in frontiers && frontiers[t] >= before[t]
      requires forall t :: t in frontiers ==>
                 (t in before && frontiers[t] == before[t])
                 || (t == TypeOf(Stream(log, sid)) && IsPosition(sid, frontiers[t]))
      ensures Covers(frontiers, done + {sid})
    {
      forall t | t in frontiers ensures Attained(t, frontiers[t], done + {sid}) {
        if t in before && frontiers[t] == before[t] {
          assert Attained(t, before[t], done);
          var x :| x in done && TypeOf(Stream(log, x)) == t && IsPosition(x, before[t]);
          assert x in done + {sid};
        } else {
          assert sid in done + {sid};
        }
      }
    }

    // -------------------------------------------------------------- replays

    /** Every row of the selected types is the fold of its whole stream. */
    ghost predicate AllCurrent(selected: set<string>)
      reads this
    {
      forall sid :: TypeOf(Stream(log, sid)) in selected ==> Current(fold, read, log, sid)
    }

    /** Folding some streams again breaks no promise. */
    lemma ProjectedIsValid(before: map<string, V>, done: set<string>)
      requires PromisesKept(before)
      requires read == Projected(fold, before, log, done) && forall sid :: sid in done ==> Stream(log, sid) != []
      ensures Valid()
    {
      forall sid ensures Kept(fold, read, checkpoints, log, sid) {
        assert Kept(fold, before, checkpoints, log, sid);
        if sid in done {
          CurrentShows(fold, read, log, sid, Saved(checkpoints, TypeOf(Stream(log, sid))));
        } else {
          SameRowShows(fold, before, read, log, sid, Saved(checkpoints, TypeOf(Stream(log, sid))));
        }
      }
    }

    /** The streams of the selected types with events behind the lowest checkpoint. */
    method Scan(selected: set<string>) returns (infos: map<string, string>, touched: set<string>, ghost floor: int)
      requires Valid()
      ensures forall sid :: sid in infos <==> sid in Touches(log) && TypeOf(Stream(log, sid)) in selected
      ensures forall sid :: sid in infos ==> Listed(infos, sid)
      ensures forall t :: t in selected ==> 0 <= floor <= Saved(checkpoints, t)
      ensures reliable && selected != {} ==> exists t :: t in selected && floor == Saved(checkpoints, t)
      ensures touched == Touches(After(log, floor)) * infos.Keys
    {
      infos := Streams(selected);
      var resumeFloor := ResumeFloor(selected);
      touched := Touched(infos, resumeFloor);
      floor := resumeFloor;
      forall sid | sid in infos ensures Listed(infos, sid) {
        TouchedHasStream(log, sid);
      }
    }

    /** Re-project only the streams with events behind the lowest checkpoint. */
    method ReplayIncremental(selected: set<string>)
      returns (frontiers: map<string, int>, ok: bool, ghost done: set<string>)
      requires Valid()
      modifies `read
      ensures Valid() && Covers(frontiers, done)
      ensures forall sid :: sid in done ==> TypeOf(Stream(log, sid)) in selected
      ensures forall sid :: TypeOf(Stream(log, sid)) !in selected ==>
                (sid in read <==> sid in old(read)) && (sid in read ==> read[sid] == old(read)[sid])
      ensures ok ==>
                AllCurrent(selected) && BehindUnless(checkpoints, selected, done) && NotBehind(frontiers, checkpoints)
      ensures reliable ==> ok
    {
      ghost var before := read;
      var infos, touched;
      ghost var floor;
      infos, touched, floor := Scan(selected);
      frontiers, ok, done := ProjectAll(touched, infos);
      ProjectedIsValid(before, done);
      if ok {
        forall sid | TypeOf(Stream(log, sid)) in selected ensures Current(fold, read, log, sid) {
          assert Kept(fold, before, checkpoints, log, sid);
          SkippedIsCurrent(before, infos, selected, floor, sid);
        }
        forall i | 0 <= i < |log| && TypeOf(Stream(log, log[i].e.streamID)) in selected && log[i].e.streamID !in done
          ensures log[i].seqNo <= Saved(checkpoints, TypeOf(Stream(log, log[i].e.streamID)))
        {
          SkippedIsOld(selected, infos, floor, i);
        }
        assert log + [] == log;
        TailReachesCheckpoints(log, [], checkpoints, infos, selected, floor, frontiers, done);
      }
    }

    lemma SkippedIsCurrent(before: map<string, V>, infos: map<string, string>, selected: set<string>, floor: int,
        sid: string)
      requires Ordered(log) && Kept(fold, before, checkpoints, log, sid) && TypeOf(Stream(log, sid)) in selected
      requires floor <= Saved(checkpoints, TypeOf(Stream(log, sid)))
      requires sid in infos <==> sid in Touches(log) && TypeOf(Stream(log, sid)) in selected
      requires read == Projected(fold, before, log, Touches(After(log, floor)) * infos.Keys)
      ensures Current(fold, read, log, sid)
    {
      TouchedHasStream(log, sid);
      if sid !in Touches(After(log, floor)) * infos.Keys {
        UntouchedIsCurrent(before, log, checkpoints, infos, selected, floor, sid);
      }
    }

    lemma SkippedIsOld(selected: set<string>, infos: map<string, string>, floor: int, i: nat)
      requires Ordered(log) && i < |log| && TypeOf(Stream(log, log[i].e.streamID)) in selected
      requires forall sid :: sid in infos <==> sid in Touches(log) && TypeOf(Stream(log, sid)) in selected
      requires log[i].e.streamID !in Touches(After(log, floor)) * infos.Keys
      requires floor <= Saved(checkpoints, TypeOf(Stream(log, log[i].e.streamID)))
      ensures log[i].seqNo <= Saved(checkpoints, TypeOf(Stream(log, log[i].e.streamID)))
    {
      assert log[i].e.streamID in Touches(log);
      if log[i].seqNo > floor {
        LaterIsTouched(log, floor, i);
      }
    }

    /** Save the frontiers that lie above the saved positions, and those whose
        saved position cannot be looked up; a failure leaves the rest. */
    method SaveFrontiers(frontiers: map<string, int>) returns (ok: bool, ghost unread: set<string>)
      requires forall t :: t in frontiers ==> frontiers[t] > 0
      modifies `checkpoints
      ensures SavedOver(old(checkpoints), frontiers, unread, checkpoints, ok)
      ensures reliable ==> ok && unread == {}
    {
      var left := frontiers.Keys;
      unread := {};
      while left != {}
        invariant left <= frontiers.Keys && unread <= frontiers.Keys - left
        invariant SavedOver(old(checkpoints), frontiers, unread, checkpoints, false)
        invariant forall t :: t in left ==> Saved(checkpoints, t) == Saved(old(checkpoints), t)
        invariant forall t :: t in frontiers && t !in left ==> Saved(checkpoints, t) >= frontiers[t]
        invariant reliable ==> unread == {}
      {
        var t :| t in left;
        left := left - {t};
        var position := frontiers[t];
        if position > 0 {
          var previous, found := GetCheckpoint(t);
          if !found || previous < position {
            var fails: bool := *;
            if !reliable && fails {
              return false, unread;
            }
            checkpoints := checkpoints[t := position];
            unread := if found then unread else unread + {t};
          }
        }
      }
      ok := true;
    }

    /** The positions may move to the frontiers of types whose rows are all current. */
    lemma SavedIsValid(before: map<string, int>, frontiers: map<string, int>)
      requires Ordered(log) && AllCurrent(frontiers.Keys)
      requires forall t :: t in before ==> 0 <= before[t] <= End()
      requires Earned(log, before) && Earned(log, frontiers)
      requires forall sid :: Kept(fold, read, before, log, sid)
      requires forall t :: t in frontiers ==> 0 <= frontiers[t] <= End()
      requires forall t :: t in checkpoints ==>
                 (t in before && checkpoints[t] == before[t]) || (t in frontiers && checkpoints[t] == frontiers[t])
      requires forall t :: t in before ==> t in checkpoints
      ensures Valid()
    {
      forall sid ensures Kept(fold, read, checkpoints, log, sid) {
        assert Kept(fold, read, before, log, sid);
        if TypeOf(Stream(log, sid)) in frontiers {
          CurrentShows(fold, read, log, sid, Saved(checkpoints, TypeOf(Stream(log, sid))));
        }
      }
      assert Earned(log, checkpoints);
    }

    /** Delete the rows of the selected types. */
    method ResetForReplay(selected: set<string>)
      modifies `read
      ensures read == Reset(old(read), log, selected)
    {
      read := map sid | sid in read && TypeOf(Stream(log, sid)) !in selected :: read[sid];
    }

    /** Delete, then fold every stream of the selected types. This makes their
        rows current whatever the read model was like before. */
    method ReplayFully(selected: set<string>) returns (frontiers: map<string, int>, ok: bool, ghost done: set<string>)
      requires Ordered(log)
      modifies `read
      ensures Covers(frontiers, done)
      ensures forall sid :: sid in done ==> TypeOf(Stream(log, sid)) in selected
      ensures forall sid :: TypeOf(Stream(log, sid)) !in selected ==>
                (sid in read <==> sid in old(read)) && (sid in read ==> read[sid] == old(read)[sid])
      ensures ok ==> AllCurrent(selected) && AllDone(selected, done)
      ensures ok && Earned(log, checkpoints) ==> NotBehind(frontiers, checkpoints)
      ensures ok && old(Valid()) ==> Valid()
      ensures reliable ==> ok
    {
      ghost var before := read;
      ResetForReplay(selected);
      var infos := Streams(selected);
      forall sid | sid in infos ensures Listed(infos, sid) {
        TouchedHasStream(log, sid);
      }
      frontiers, ok, done := ProjectAll(infos.Keys, infos);
      if ok {
        RefoldedIsCurrent(before, infos, selected);
        if Earned(log, checkpoints) {
          AllReachCheckpoints(selected, frontiers, done);
        }
        if old(Valid()) {
          RefoldedIsValid(before, infos, selected);
        }
      }
    }

    lemma RefoldedIsCurrent(before: map<string, V>, infos: map<string, string>, selected: set<string>)
      requires forall sid :: sid in infos <==> sid in Touches(log) && TypeOf(Stream(log, sid)) in selected
      requires read == Projected(fold, Reset(before, log, selected), log, infos.Keys)
      ensures AllCurrent(selected) && AllDone(selected, infos.Keys)
    {
      forall sid | TypeOf(Stream(log, sid)) in selected ensures Current(fold, read, log, sid) {
        TouchedHasStream(log, sid);
      }
      forall i | 0 <= i < |log| && TypeOf(Stream(log, log[i].e.streamID)) in selected
        ensures log[i].e.streamID in infos
      {
        assert log[i].e.streamID in Touches(log);
      }
    }

    /** Promises that were kept before a full replay are kept after it. */
    lemma RefoldedIsValid(before: map<string, V>, infos: map<string, string>, selected: set<string>)
      requires PromisesKept(before)
      requires forall sid :: sid in infos <==> sid in Touches(log) && TypeOf(Stream(log, sid)) in selected
      requires AllCurrent(selected) && read == Projected(fold, Reset(before, log, selected), log, infos.Keys)
      ensures Valid()
    {
      forall sid ensures Kept(fold, read, checkpoints, log, sid) {
        assert Kept(fold, before, checkpoints, log, sid);
        RefoldedRow(before, infos, selected, sid);
      }
    }

    /** No checkpoint lies above the frontier of its type. */
    predicate NotBehind(frontiers: map<string, int>, saved: map<string, int>) {
      forall t :: t in frontiers ==> Saved(saved, t) <= frontiers[t]
    }

    lemma AllReachCheckpoints(selected: set<string>, frontiers: map<string, int>, done: set<string>)
      requires Ordered(log) && Earned(log, checkpoints) && Covers(frontiers, done)
      requires forall sid :: sid in done ==> TypeOf(Stream(log, sid)) in selected
      requires forall i :: 0 <= i < |log| && TypeOf(Stream(log, log[i].e.streamID)) in selected ==>
                 log[i].e.streamID in done
      ensures NotBehind(frontiers, checkpoints)
    {
      forall t | t in frontiers ensures Saved(checkpoints, t) <= frontiers[t] {
        AttainedIsInside(t, frontiers[t], done);
        if t in checkpoints {
          assert Reached(log, t, checkpoints[t]);
          var i :| 0 <= i < |log| && log[i].seqNo == checkpoints[t] && TypeOf(Stream(log, log[i].e.streamID)) == t;
          assert log[i].e.streamID in done;
        }
      }
    }

    /** The streams with events behind the floor, of `start`, reach every
        checkpoint of their types, which lies at the floor or above. */
    lemma TailReachesCheckpoints(start: seq<Msg>, more: seq<Msg>, saved: map<string, int>, infos: map<string, string>,
        selected: set<string>, floor: int, frontiers: map<string, int>, done: set<string>)
      requires log == start + more && Ordered(log) && Ordered(start) && Earned(start, saved) && Covers(frontiers, done)
      requires forall sid :: sid in infos <==> sid in Touches(start) && TypeOf(Stream(start, sid)) in selected
      requires done == Touches(After(start, floor)) * infos.Keys
      requires forall t :: t in selected ==> floor <= Saved(saved, t)
      ensures NotBehind(frontiers, saved)
    {
      forall t | t in frontiers ensures Saved(saved, t) <= frontiers[t] {
        TypeReachesCheckpoint(start, more, saved, infos, selected, floor, frontiers, done, t);
      }
    }

    lemma TypeReachesCheckpoint(start: seq<Msg>, more: seq<Msg>, saved: map<string, int>, infos: map<string, string>,
        selected: set<string>, floor: int, frontiers: map<string, int>, done: set<string>, t: string)
      requires log == start + more && Ordered(log) && Ordered(start) && Earned(start, saved) && Covers(frontiers, done)
      requires forall sid :: sid in infos <==> sid in Touches(start) && TypeOf(Stream(start, sid)) in selected
      requires done == Touches(After(start, floor)) * infos.Keys && t in frontiers
               && (t in selected ==> floor <= Saved(saved, t))
      ensures Saved(saved, t) <= frontiers[t]
    {
      AttainedIsInside(t, frontiers[t], done);
      var sid :| sid in done && TypeOf(Stream(log, sid)) == t && IsPosition(sid, frontiers[t]);
      var j := TouchedIsLater(start, floor, sid);
      TypeStays(start, more, j);
      CoversAt(frontiers, done, j);
      if t in saved && saved[t] > floor {
        assert Reached(start, t, saved[t]);
        var i :| 0 <= i < |start| && start[i].seqNo == saved[t] && TypeOf(Stream(start, start[i].e.streamID)) == t;
        TypeStays(start, more, i);
        LaterIsTouched(start, floor, i);
        assert start[i].e.streamID in Touches(start);
        CoversAt(frontiers, done, i);
      }
    }

    lemma CoversAt(frontiers: map<string, int>, done: set<string>, i: nat)
      requires Covers(frontiers, done) && i < |log| && log[i].e.streamID in done
      ensures var t := TypeOf(Stream(log, log[i].e.streamID)); t in frontiers && log[i].seqNo <= frontiers[t]
    {
    }

    lemma RefoldedRow(before: map<string, V>, infos: map<string, string>, selected: set<string>, sid: string)
      requires Ordered(log) && Kept(fold, before, checkpoints, log, sid)
      requires sid in infos <==> sid in Touches(log) && TypeOf(Stream(log, sid)) in selected
      requires read == Projected(fold, Reset(before, log, selected), log, infos.Keys)
      requires TypeOf(Stream(log, sid)) in selected ==> Current(fold, read, log, sid)
      ensures Kept(fold, read, checkpoints, log, sid)
    {
      var position := Saved(checkpoints, TypeOf(Stream(log, sid)));
      if TypeOf(Stream(log, sid)) in selected {
        CurrentShows(fold, read, log, sid, position);
      } else {
        SameRowShows(fold, before, read, log, sid, position);
      }
    }

    /** Either way the rows of the selected types are current in the end, and the
        streams that were skipped lie behind their checkpoints. */
    method ReplayRows(selected: set<string>, sinceCheckpoint: bool)
      returns (frontiers: map<string, int>, ok: bool, ghost done: set<string>)
      requires Ordered(log) && (sinceCheckpoint ==> Valid())
      modifies `read
      ensures old(Valid()) && (ok || sinceCheckpoint) ==> Valid()
      ensures Covers(frontiers, done) && forall sid :: sid in done ==> TypeOf(Stream(log, sid)) in selected
      ensures forall sid :: TypeOf(Stream(log, sid)) !in selected ==>
                (sid in read <==> sid in old(read)) && (sid in read ==> read[sid] == old(read)[sid])
      ensures ok ==> AllCurrent(selected)
      ensures ok && sinceCheckpoint ==> BehindUnless(checkpoints, selected, done)
      ensures ok && Earned(log, checkpoints) ==> NotBehind(frontiers, checkpoints)
      ensures ok && !sinceCheckpoint ==> AllDone(selected, done)
      ensures reliable ==> ok
    {
      if sinceCheckpoint {
        frontiers, ok, done := ReplayIncremental(selected);
      } else {
        frontiers, ok, done := ReplayFully(selected);
      }
    }

    /** The events of the selected types, those of `done` streams aside, lie
        behind the saved positions. */
    ghost predicate BehindUnless(saved: map<string, int>, selected: set<string>, done: set<string>)
      reads `log
    {
      forall i :: 0 <= i < |log| && TypeOf(Stream(log, log[i].e.streamID)) in selected && log[i].e.streamID !in done ==>
        log[i].seqNo <= Saved(saved, TypeOf(Stream(log, log[i].e.streamID)))
    }

    /** The events of these streams lie at or below the saved positions. */
    ghost predicate Covered(done: set<string>)
      reads `log, `checkpoints
    {
      forall i :: 0 <= i < |log| && log[i].e.streamID in done ==>
        log[i].seqNo <= Saved(checkpoints, TypeOf(Stream(log, log[i].e.streamID)))
    }

    ghost predicate NoneFell(saved: map<string, int>)
      reads `checkpoints
    {
      forall t :: Saved(checkpoints, t) >= Saved(saved, t)
    }

    lemma AllBehind(saved: map<string, int>, selected: set<string>, done: set<string>)
      requires BehindUnless(saved, selected, done)
      requires NoneFell(saved)
      requires Covered(done)
      ensures BehindUnless(checkpoints, selected, {})
    {
      forall i | 0 <= i < |log| && TypeOf(Stream(log, log[i].e.streamID)) in selected
        ensures log[i].seqNo <= Saved(checkpoints, TypeOf(Stream(log, log[i].e.streamID)))
      {
        assert log[i].e.streamID !in done ==> log[i].seqNo <= Saved(saved, TypeOf(Stream(log, log[i].e.streamID)));
      }
    }

    /** Every stream of the selected types was projected. */
    ghost predicate AllDone(selected: set<string>, done: set<string>)
      reads `log
    {
      forall i :: 0 <= i < |log| && TypeOf(Stream(log, log[i].e.streamID)) in selected ==> log[i].e.streamID in done
    }

    lemma AllCovered(selected: set<string>, done: set<string>)
      requires AllDone(selected, done)
      requires Covered(done)
      ensures BehindUnless(checkpoints, selected, {})
    {
    }

    /** The command. Incrementally or in full, success leaves the rows of the
        selected types as a refold of all their streams would, and the
        checkpoints behind every one of their events. A full replay does so from
        any read model: it repairs one that had lost facts. Where every position
        is that of an event no position ever falls, not even when checkpoints
        cannot be looked up. */
    method Replay(selected: set<string>, sinceCheckpoint: bool) returns (ok: bool)
      requires Ordered(log) && (sinceCheckpoint ==> Valid())
      modifies `read, `checkpoints
      ensures old(Valid()) && (ok || sinceCheckpoint) ==> Valid()
      ensures ok ==> RowsOf(read, log, selected) == Refold(fold, log, selected)
      ensures ok ==> forall sid :: TypeOf(Stream(log, sid)) in selected ==> Kept(fold, read, checkpoints, log, sid)
      ensures forall sid :: TypeOf(Stream(log, sid)) !in selected ==>
                (sid in read <==> sid in old(read)) && (sid in read ==> read[sid] == old(read)[sid])
      ensures old(Earned(log, checkpoints)) || reliable ==> NoneFell(old(checkpoints))
      ensures ok ==> BehindUnless(checkpoints, selected, {})
      ensures reliable ==> ok
    {
      var frontiers;
      ghost var done;
      frontiers, ok, done := ReplayRows(selected, sinceCheckpoint);
      if ok {
        CurrentIsRefold(fold, read, log, selected);
        ok := Finish(selected, frontiers, done);
        if ok {
          if sinceCheckpoint {
            AllBehind(old(checkpoints), selected, done);
          } else {
            AllCovered(selected, done);
          }
          SelectedIsKept(selected);
        }
      }
    }

    lemma SelectedIsKept(selected: set<string>)
      requires AllCurrent(selected)
      ensures forall sid :: TypeOf(Stream(log, sid)) in selected ==> Kept(fold, read, checkpoints, log, sid)
    {
      forall sid | TypeOf(Stream(log, sid)) in selected ensures Kept(fold, read, checkpoints, log, sid) {
        CurrentShows(fold, read, log, sid, Saved(checkpoints, TypeOf(Stream(log, sid))));
      }
    }

    /** The positions at the end of a replay without appends. */
    method Finish(selected: set<string>, frontiers: map<string, int>, ghost done: set<string>) returns (ok: bool)
      requires Ordered(log) && AllCurrent(selected) && Covers(frontiers, done)
      requires Earned(log, checkpoints) ==> NotBehind(frontiers, checkpoints)
      requires forall sid :: sid in done ==> TypeOf(Stream(log, sid)) in selected
      modifies `checkpoints
      ensures old(Valid()) ==> Valid()
      ensures reliable ==> ok
      ensures old(Earned(log, checkpoints)) || reliable ==> NoneFell(old(checkpoints))
      ensures forall t :: t !in frontiers ==> Saved(checkpoints, t) == Saved(old(checkpoints), t)
      ensures ok ==> Covered(done)
    {
      FrontiersAreInside(selected, frontiers, done);
      ghost var before, valid, earned := checkpoints, Valid(), Earned(log, checkpoints);
      ghost var unread;
      ok, unread := SaveFrontiers(frontiers);
      if valid {
        SavedIsValid(before, frontiers);
      }
      if earned {
        NonePositionFalls(before, frontiers, unread, ok);
      }
    }

    lemma NonePositionFalls(before: map<string, int>, frontiers: map<string, int>, unread: set<string>, all: bool)
      requires SavedOver(before, frontiers, unread, checkpoints, all) && NotBehind(frontiers, before)
      ensures forall t :: Saved(checkpoints, t) >= Saved(before, t)
    {
      forall t ensures Saved(checkpoints, t) >= Saved(before, t) {
        WhenPositionsFall(before, frontiers, unread, checkpoints, all, t);
      }
    }

    lemma FrontiersAreInside(selected: set<string>, frontiers: map<string, int>, done: set<string>)
      requires Ordered(log) && AllCurrent(selected) && Covers(frontiers, done)
      requires forall sid :: sid in done ==> TypeOf(Stream(log, sid)) in selected
      ensures forall t :: t in frontiers ==> 0 < frontiers[t] <= End()
      ensures AllCurrent(frontiers.Keys) && Earned(log, frontiers)
    {
      forall t | t in frontiers ensures t in selected && 0 < frontiers[t] <= End() && Reached(log, t, frontiers[t]) {
        assert Attained(t, frontiers[t], done);
        AttainedIsInside(t, frontiers[t], done);
        AttainedIsReached(t, frontiers[t], done);
      }
    }

    lemma AttainedIsReached(streamType: string, position: int, done: set<string>)
      requires Attained(streamType, position, done)
      ensures Reached(log, streamType, position)
    {
      var sid :| sid in done && TypeOf(Stream(log, sid)) == streamType && IsPosition(sid, position);
      var i :| 0 <= i < |log| && log[i].e.streamID == sid && log[i].seqNo == position;
      assert TypeOf(Stream(log, log[i].e.streamID)) == streamType;
    }

    /** The incremental command while facts arrive: `more` comes in between its
        scan and its loads. */
    method ReplayWhileAppending(selected: set<string>, more: seq<Msg>)
      returns (ok: bool, ghost floor: int, ghost touched: set<string>)
      requires Valid() && Ordered(log + more)
      modifies `log, `read, `checkpoints
      ensures log == old(log) + more
      ensures forall t :: t in selected ==> 0 <= floor <= Saved(old(checkpoints), t)
      ensures reliable && selected != {} ==> exists t :: t in selected && floor == Saved(old(checkpoints), t)
      ensures touched == set sid | sid in Touches(After(old(log), floor)) && TypeOf(Stream(old(log), sid)) in selected
      ensures reliable ==> ok
      ensures forall t :: Saved(checkpoints, t) >= Saved(old(checkpoints), t)
      ensures forall t ::
                Saved(checkpoints, t) == Saved(old(checkpoints), t) || Attained(t, Saved(checkpoints, t), touched)
      ensures ok && KeepsHistory(fold) ==>
                ((forall sid :: Kept(fold, read, checkpoints, log, sid))
                 <==> NoneSkipped(old(log), more, checkpoints, touched))
    {
      ghost var start, before := log, read;
      var infos, todo;
      infos, todo, floor := Scan(selected);
      touched := todo;
      ScannedStreams(selected, infos, floor);
      log := log + more;
      forall sid | sid in todo ensures Listed(infos, sid) {
        StreamJoins(start, more, sid);
      }
      var frontiers;
      ghost var done;
      frontiers, ok, done := ProjectAll(todo, infos);
      if !ok {
        return;
      }
      ghost var saved := checkpoints;
      TailReachesCheckpoints(start, more, saved, infos, selected, floor, frontiers, done);
      ok := SaveLate(start, more, infos, selected, frontiers, done);
      if KeepsHistory(fold) {
        LateReplay(start, more, before, saved, infos, selected, floor, touched);
      }
    }

    /** The positions at the end of a replay with appends. */
    method SaveLate(ghost start: seq<Msg>, ghost more: seq<Msg>, ghost infos: map<string, string>,
        ghost selected: set<string>, frontiers: map<string, int>, ghost done: set<string>)
      returns (ok: bool)
      requires log == start + more && Ordered(log) && done <= infos.Keys && Covers(frontiers, done)
      requires forall sid :: sid in infos ==> Stream(start, sid) != [] && TypeOf(Stream(start, sid)) in selected
      requires NotBehind(frontiers, checkpoints) && forall t :: t in checkpoints ==> checkpoints[t] >= 0
      modifies `checkpoints
      ensures forall t :: Saved(checkpoints, t) >= Saved(old(checkpoints), t)
      ensures forall t ::
                Saved(checkpoints, t) == Saved(old(checkpoints), t) || Attained(t, Saved(checkpoints, t), done)
      ensures forall t :: t !in selected ==> Saved(checkpoints, t) == Saved(old(checkpoints), t)
      ensures reliable ==> ok
    {
      forall t | t in frontiers ensures frontiers[t] > 0 && t in selected {
        AttainedIsInside(t, frontiers[t], done);
        TypesStay(start, more, infos, selected, t, frontiers[t], done);
      }
      ghost var before := checkpoints;
      ghost var unread;
      ok, unread := SaveFrontiers(frontiers);
      NonePositionFalls(before, frontiers, unread, ok);
    }

    lemma ScannedStreams(selected: set<string>, infos: map<string, string>, floor: int)
      requires Ordered(log)
      requires forall sid :: sid in infos <==> sid in Touches(log) && TypeOf(Stream(log, sid)) in selected
      ensures Touches(After(log, floor)) * infos.Keys ==
                set sid | sid in Touches(After(log, floor)) && TypeOf(Stream(log, sid)) in selected
    {
      var k := AfterIsSuffix(log, floor);
      assert log == log[..k] + log[k..];
      TouchesJoin(log[..k], log[k..]);
    }

    lemma TypesStay(start: seq<Msg>, more: seq<Msg>, infos: map<string, string>, selected: set<string>, t: string,
        position: int, done: set<string>)
      requires log == start + more && done <= infos.Keys && Attained(t, position, done)
      requires forall sid :: sid in infos ==> Stream(start, sid) != [] && TypeOf(Stream(start, sid)) in selected
      ensures t in selected
    {
      var sid :| sid in done && TypeOf(Stream(log, sid)) == t && IsPosition(sid, position);
      StreamJoins(start, more, sid);
    }

    lemma LateReplay(start: seq<Msg>, more: seq<Msg>, before: map<string, V>, saved: map<string, int>,
        infos: map<string, string>, selected: set<string>, floor: int, touched: set<string>)
      requires log == start + more && Ordered(log) && KeepsHistory(fold)
      requires forall t :: t in saved ==> 0 <= saved[t] <= if start == [] then 0 else start[|start| - 1].seqNo
      requires forall sid :: Kept(fold, before, saved, start, sid)
      requires forall sid :: sid in infos <==> sid in Touches(start) && TypeOf(Stream(start, sid)) in selected
      requires forall t :: t in selected ==> floor <= Saved(saved, t)
      requires touched == Touches(After(start, floor)) * infos.Keys
      requires read == Projected(fold, before, log, touched)
      requires forall t :: t !in selected ==> Saved(checkpoints, t) == Saved(saved, t)
      ensures (forall sid :: Kept(fold, read, checkpoints, log, sid))
          <==> NoneSkipped(start, more, checkpoints, touched)
    {
      assert forall i :: 0 <= i < |start| ==> start[i] == log[i];
      forall t, i | 0 <= i < |more| ensures more[i].seqNo > Saved(saved, t) {
        assert more[i] == log[|start| + i];
      }
      forall sid | sid in touched ensures Stream(start, sid) != [] {
        TouchedHasStream(start, sid);
      }
      forall sid | sid !in touched && TypeOf(Stream(start, sid)) in selected ensures Current(fold, before, start, sid) {
        assert Kept(fold, before, saved, start, sid);
        UntouchedIsCurrent(before, start, saved, infos, selected, floor, sid);
      }
      LateFactsAreSkipped(fold, before, start, more, saved, checkpoints, touched, selected);
    }

    lemma UntouchedIsCurrent(before: map<string, V>, start: seq<Msg>, saved: map<string, int>,
        infos: map<string, string>, selected: set<string>, floor: int, sid: string)
      requires Ordered(start) && Kept(fold, before, saved, start, sid) && TypeOf(Stream(start, sid)) in selected
      requires floor <= Saved(saved, TypeOf(Stream(start, sid)))
      requires sid in infos <==> sid in Touches(start) && TypeOf(Stream(start, sid)) in selected
      requires sid !in Touches(After(start, floor)) * infos.Keys
      ensures Current(fold, before, start, sid)
    {
      TouchedHasStream(start, sid);
      var position := Saved(saved, TypeOf(Stream(start, sid)));
      if Stream(start, sid) == [] {
        NoStreamNoRow(fold, before, start, sid, position);
      } else {
        UntouchedRowIsCurrent(fold, before, start, sid, floor, position);
      }
    }
  }

  lemma {:induction false} SeenGrows(log: seq<Msg>, floor: int, seen: seq<Msg>, position: int, page: seq<Msg>)
    requires Ordered(log) && After(log, floor) == seen + After(log, position)
    requires page <= After(log, position)
    ensures page == [] ==> seen + page == seen
    ensures page != [] ==>
              var next := page[|page| - 1].seqNo;
              After(log, floor) == (seen + page) + After(log, next) && |After(log, next)| < |After(log, position)|
  {
    if page != [] {
      var rest := After(log, position);
      NextPage(log, position, |page|);
      assert page == rest[..|page|] && rest == page + rest[|page|..];
    } else {
      assert seen + page == seen;
    }
  }

  lemma {:induction false} OneTouch(m: Msg)
    ensures Touches([m]) == {m.e.streamID}
  {
    assert [m][0] == m;
  }
}
