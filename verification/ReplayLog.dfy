/** What a checkpoint promises about the read model, and why re-projecting only
    the streams with newer events is enough. */
module ReplayLog {
  import opened EventStore
  import opened SnapshotLog

  /** The aggregate type of a stream. */
  function TypeOf(events: seq<Event>): string {
    if events == [] then "" else events[0].streamType
  }

  /** Everything behind a global position. */
  function After(log: seq<Msg>, position: int): seq<Msg> {
    if log == [] || log[0].seqNo > position then log else After(log[1..], position)
  }

  lemma {:induction false} AfterIsSuffix(log: seq<Msg>, position: int) returns (k: nat)
    requires Ordered(log)
    ensures k <= |log| && After(log, position) == log[k..]
    ensures forall i :: 0 <= i < |log| ==> (log[i].seqNo > position <==> i >= k)
  {
    if log == [] || log[0].seqNo > position {
      k := 0;
    } else {
      k := AfterIsSuffix(log[1..], position);
      k := k + 1;
      forall i | 0 <= i < |log| ensures log[i].seqNo > position <==> i >= k {
        assert i > 0 ==> log[1..][i - 1] == log[i];
      }
    }
  }

  /** Going on behind the last event of a page skips nothing. */
  lemma {:induction false} NextPage(log: seq<Msg>, position: int, n: nat)
    requires Ordered(log) && 0 < n <= |After(log, position)|
    ensures var page := After(log, position)[..n];
            && page[n - 1].seqNo > position
            && After(log, page[n - 1].seqNo) == After(log, position)[n..]
  {
    var k := AfterIsSuffix(log, position);
    assert After(log, position)[n - 1] == log[k + n - 1];
    var l := AfterIsSuffix(log, log[k + n - 1].seqNo);
    assert !(k + n - 1 >= l);
    assert k + n < |log| ==> log[k + n - 1].seqNo < log[k + n].seqNo && k + n >= l;
    assert l == k + n;
  }

  /** The streams with an event in the page. */
  function Touches(msgs: seq<Msg>): set<string> {
    set i | 0 <= i < |msgs| :: msgs[i].e.streamID
  }

  lemma {:induction false} TouchesJoin(x: seq<Msg>, y: seq<Msg>)
    ensures Touches(x + y) == Touches(x) + Touches(y)
  {
    forall id | id in Touches(x) ensures id in Touches(x + y) {
      var i :| 0 <= i < |x| && x[i].e.streamID == id;
      assert (x + y)[i].e.streamID == id;
    }
    forall id | id in Touches(y) ensures id in Touches(x + y) {
      var i :| 0 <= i < |y| && y[i].e.streamID == id;
      assert (x + y)[|x| + i].e.streamID == id;
    }
    forall id | id in Touches(x + y) ensures id in Touches(x) + Touches(y) {
      var i :| 0 <= i < |x + y| && (x + y)[i].e.streamID == id;
      assert if i < |x| then x[i].e.streamID == id else y[i - |x|].e.streamID == id;
    }
  }

  /** How many of the stream's events are at or below a position. */
  function Upto(log: seq<Msg>, sid: string, position: int): nat {
    if log == [] then 0
    else
      var last := log[|log| - 1];
      Upto(log[..|log| - 1], sid, position) + if last.e.streamID == sid && last.seqNo <= position then 1 else 0
  }

  lemma {:induction false} UptoBound(log: seq<Msg>, sid: string, position: int)
    ensures Upto(log, sid, position) <= |Stream(log, sid)|
  {
    if log == [] {
    } else {
      UptoBound(log[..|log| - 1], sid, position);
    }
  }

  /** A stream with nothing behind the position is all at or below it. */
  lemma {:induction false} UntouchedIsComplete(log: seq<Msg>, sid: string, position: int)
    requires forall i :: 0 <= i < |log| && log[i].e.streamID == sid ==> log[i].seqNo <= position
    ensures Upto(log, sid, position) == |Stream(log, sid)|
  {
    if log == [] {
    } else {
      UntouchedIsComplete(log[..|log| - 1], sid, position);
    }
  }

  /** New events lie behind everything that was there. */
  lemma {:induction false} UptoGrows(log: seq<Msg>, more: seq<Msg>, sid: string, position: int)
    ensures Upto(log + more, sid, position) == Upto(log, sid, position) + Upto(more, sid, position)
  {
    if more == [] {
      assert log + more == log;
    } else {
      UptoGrows(log, more[..|more| - 1], sid, position);
      assert (log + more)[..|log + more| - 1] == log + more[..|more| - 1];
    }
  }

  /** The row of a stream shows its events at or below `position`, and maybe
      newer ones: it is the fold of a prefix that contains them. */
  ghost predicate RowShows<V>(fold: seq<Event> -> V, read: map<string, V>, log: seq<Msg>, sid: string, position: int) {
    exists n {:trigger Shows(fold, read, log, sid, n)} ::
      Upto(log, sid, position) <= n && Shows(fold, read, log, sid, n)
  }

  /** The row is the fold of exactly the first `n` events; no row, no events. */
  ghost predicate Shows<V>(fold: seq<Event> -> V, read: map<string, V>, log: seq<Msg>, sid: string, n: int) {
    && 0 <= n <= |Stream(log, sid)|
    && (sid in read <==> n > 0)
    && (n > 0 ==> read[sid] == fold(Stream(log, sid)[..n]))
  }

  function Saved(checkpoints: map<string, int>, streamType: string): int {
    if streamType in checkpoints then checkpoints[streamType] else 0
  }

  /** What a checkpoint promises about one stream. */
  ghost predicate Kept<V>(fold: seq<Event> -> V, read: map<string, V>, checkpoints: map<string, int>, log: seq<Msg>,
      sid: string)
  {
    RowShows(fold, read, log, sid, Saved(checkpoints, TypeOf(Stream(log, sid))))
  }

  /** What full replay writes for the selected types. */
  function Refold<V>(fold: seq<Event> -> V, log: seq<Msg>, selected: set<string>): map<string, V> {
    map sid | sid in Touches(log) && TypeOf(Stream(log, sid)) in selected :: fold(Stream(log, sid))
  }

  /** The read model's rows of the selected types. */
  function RowsOf<V>(read: map<string, V>, log: seq<Msg>, selected: set<string>): map<string, V> {
    map sid | sid in read && TypeOf(Stream(log, sid)) in selected :: read[sid]
  }

  lemma {:induction false} TouchedHasStream(log: seq<Msg>, sid: string)
    ensures sid in Touches(log) <==> Stream(log, sid) != []
  {
    if log == [] {
    } else {
      var init, last := log[..|log| - 1], log[|log| - 1];
      TouchedHasStream(init, sid);
      TouchesJoin(init, [last]);
      assert log == init + [last] && [last][0] == last;
      assert sid in Touches([last]) <==> last.e.streamID == sid;
    }
  }

  lemma {:induction false} LaterIsTouched(log: seq<Msg>, floor: int, i: nat)
    requires Ordered(log) && i < |log| && log[i].seqNo > floor
    ensures log[i].e.streamID in Touches(After(log, floor))
  {
    var k := AfterIsSuffix(log, floor);
    assert After(log, floor)[i - k].e.streamID == log[i].e.streamID;
  }

  /** A stream without an event behind the floor needs no re-projection: its
      row already is the fold of the whole stream. */
  lemma {:induction false} UntouchedRowIsCurrent<V>(fold: seq<Event> -> V, read: map<string, V>, log: seq<Msg>,
      sid: string, floor: int, checkpoint: int)
    requires Ordered(log) && floor <= checkpoint && RowShows(fold, read, log, sid, checkpoint)
    requires sid !in Touches(After(log, floor)) && Stream(log, sid) != []
    ensures sid in read && read[sid] == fold(Stream(log, sid))
  {
    forall i | 0 <= i < |log| && log[i].e.streamID == sid ensures log[i].seqNo <= checkpoint {
      if log[i].seqNo > floor {
        LaterIsTouched(log, floor, i);
      }
    }
    UntouchedIsComplete(log, sid, checkpoint);
    var n :| Upto(log, sid, checkpoint) <= n && Shows(fold, read, log, sid, n);
    assert Stream(log, sid)[..n] == Stream(log, sid);
  }

  /** Appends leave what checkpoints promise true. */
  lemma {:induction false} AppendsKeepRows<V>(fold: seq<Event> -> V, read: map<string, V>, log: seq<Msg>,
      more: seq<Msg>, sid: string, low: int, checkpoint: int)
    requires RowShows(fold, read, log, sid, low)
    requires Stream(log, sid) == [] || low == checkpoint
    requires forall i :: 0 <= i < |more| ==> more[i].seqNo > checkpoint
    ensures RowShows(fold, read, log + more, sid, checkpoint)
  {
    var n :| Upto(log, sid, low) <= n && Shows(fold, read, log, sid, n);
    StreamJoins(log, more, sid);
    UptoGrows(log, more, sid, checkpoint);
    UptoBound(log, sid, checkpoint);
    NoneUpto(more, sid, checkpoint);
    assert Stream(log + more, sid)[..n] == Stream(log, sid)[..n];
    assert Shows(fold, read, log + more, sid, n);
  }

  lemma {:induction false} NoneUpto(log: seq<Msg>, sid: string, position: int)
    requires forall i :: 0 <= i < |log| ==> log[i].seqNo > position
    ensures Upto(log, sid, position) == 0
  {
    if log == [] {
    } else {
      NoneUpto(log[..|log| - 1], sid, position);
    }
  }

  /** A stream that was just folded shows everything. */
  lemma {:induction false} FreshRowShows<V>(fold: seq<Event> -> V, read: map<string, V>, log: seq<Msg>, sid: string,
      position: int)
    requires Stream(log, sid) != [] && sid in read && read[sid] == fold(Stream(log, sid))
    ensures RowShows(fold, read, log, sid, position)
  {
    UptoBound(log, sid, position);
    assert Stream(log, sid)[..|Stream(log, sid)|] == Stream(log, sid);
    assert Shows(fold, read, log, sid, |Stream(log, sid)|);
  }

  /** The read model after the streams in `done` were folded again. */
  function Projected<V>(fold: seq<Event> -> V, read: map<string, V>, log: seq<Msg>, done: set<string>): map<string, V> {
    map sid | sid in read.Keys + done :: if sid in done then fold(Stream(log, sid)) else read[sid]
  }

  lemma {:induction false} OneMoreProjected<V>(fold: seq<Event> -> V, read: map<string, V>, log: seq<Msg>,
      done: set<string>, sid: string)
    ensures Projected(fold, read, log, done + {sid}) == Projected(fold, read, log, done)[sid := fold(Stream(log, sid))]
    ensures Projected(fold, read, log, {}) == read
  {
  }

  /** The row is the fold of the whole stream. */
  ghost predicate Current<V>(fold: seq<Event> -> V, read: map<string, V>, log: seq<Msg>, sid: string) {
    if Stream(log, sid) == [] then sid !in read else sid in read && read[sid] == fold(Stream(log, sid))
  }

  lemma {:induction false} CurrentShows<V>(fold: seq<Event> -> V, read: map<string, V>, log: seq<Msg>, sid: string,
      position: int)
    requires Current(fold, read, log, sid)
    ensures RowShows(fold, read, log, sid, position)
  {
    if Stream(log, sid) == [] {
      UptoBound(log, sid, position);
      assert Shows(fold, read, log, sid, 0);
    } else {
      FreshRowShows(fold, read, log, sid, position);
    }
  }

  lemma {:induction false} SameRowShows<V>(fold: seq<Event> -> V, read: map<string, V>, read': map<string, V>,
      log: seq<Msg>, sid: string, position: int)
    requires RowShows(fold, read, log, sid, position)
    requires (sid in read <==> sid in read') && (sid in read ==> read'[sid] == read[sid])
    ensures RowShows(fold, read', log, sid, position)
  {
    var n :| Upto(log, sid, position) <= n && Shows(fold, read, log, sid, n);
    assert Shows(fold, read', log, sid, n);
  }

  lemma {:induction false} NoStreamNoRow<V>(fold: seq<Event> -> V, read: map<string, V>, log: seq<Msg>, sid: string,
      position: int)
    requires RowShows(fold, read, log, sid, position) && Stream(log, sid) == []
    ensures sid !in read
  {
  }

  /** With every row of the selected types current, the read model is what a
      refold of everything would write. */
  lemma {:induction false} CurrentIsRefold<V>(fold: seq<Event> -> V, read: map<string, V>, log: seq<Msg>,
      selected: set<string>)
    requires forall sid :: TypeOf(Stream(log, sid)) in selected ==> Current(fold, read, log, sid)
    ensures RowsOf(read, log, selected) == Refold(fold, log, selected)
  {
    forall sid ensures sid in RowsOf(read, log, selected) <==> sid in Refold(fold, log, selected) {
      TouchedHasStream(log, sid);
    }
  }

  // --------------------------------------------------- positions advance

  ghost predicate Reached(log: seq<Msg>, streamType: string, position: int) {
    exists i :: 0 <= i < |log| && log[i].seqNo == position && TypeOf(Stream(log, log[i].e.streamID)) == streamType
  }

  /** Every checkpoint is the position of an event of its type. */
  ghost predicate Earned(log: seq<Msg>, checkpoints: map<string, int>) {
    forall t :: t in checkpoints ==> Reached(log, t, checkpoints[t])
  }

  lemma {:induction false} TypeStays(log: seq<Msg>, more: seq<Msg>, i: nat)
    requires i < |log|
    ensures (log + more)[i] == log[i]
    ensures TypeOf(Stream(log + more, log[i].e.streamID)) == TypeOf(Stream(log, log[i].e.streamID))
  {
    var sid := log[i].e.streamID;
    StreamJoins(log, more, sid);
    TouchedHasStream(log, sid);
    assert sid in Touches(log);
  }

  lemma {:induction false} StaysEarned(log: seq<Msg>, more: seq<Msg>, checkpoints: map<string, int>)
    requires Earned(log, checkpoints)
    ensures Earned(log + more, checkpoints)
  {
    forall t | t in checkpoints ensures Reached(log + more, t, checkpoints[t]) {
      assert Reached(log, t, checkpoints[t]);
      var i :| 0 <= i < |log| && log[i].seqNo == checkpoints[t] && TypeOf(Stream(log, log[i].e.streamID)) == t;
      TypeStays(log, more, i);
    }
  }

  /** A stream touched behind the floor has an event there. */
  lemma {:induction false} TouchedIsLater(log: seq<Msg>, floor: int, sid: string) returns (i: nat)
    requires Ordered(log) && sid in Touches(After(log, floor))
    ensures i < |log| && log[i].e.streamID == sid && log[i].seqNo > floor
  {
    var k := AfterIsSuffix(log, floor);
    var j :| 0 <= j < |After(log, floor)| && After(log, floor)[j].e.streamID == sid;
    i := k + j;
  }

  /** What the save loop makes of the checkpoints: `unread` are the types whose
      own checkpoint could not be looked up and whose frontier was saved. */
  ghost predicate SavedOver(before: map<string, int>, frontiers: map<string, int>, unread: set<string>,
      after: map<string, int>, all: bool)
  {
    && unread <= frontiers.Keys && before.Keys <= after.Keys
    && (forall t :: t in after ==>
          (t in before && after[t] == before[t]) || (t in frontiers && after[t] == frontiers[t]))
    && (forall t :: t in unread ==> Saved(after, t) == frontiers[t])
    && (forall t :: t !in unread ==> Saved(after, t) >= Saved(before, t))
    && (all ==> forall t :: t in frontiers ==> Saved(after, t) >= frontiers[t])
  }

  /** A position falls exactly when its lookup failed and the frontier is below it. */
  lemma {:induction false} WhenPositionsFall(before: map<string, int>, frontiers: map<string, int>, unread: set<string>,
      after: map<string, int>, all: bool, t: string)
    requires SavedOver(before, frontiers, unread, after, all)
    ensures Saved(after, t) < Saved(before, t) <==> t in unread && frontiers[t] < Saved(before, t)
  {
    if t in unread {
      assert Saved(after, t) == frontiers[t];
    } else {
      assert Saved(after, t) >= Saved(before, t);
    }
  }

  /** A checkpoint above every event of its type, which no replay saves, falls
      when its lookup fails. */
  lemma {:induction false} FallingPosition()
    ensures var saved, frontiers, after := map["artist" := 5], map["artist" := 3], map["artist" := 3];
            SavedOver(saved, frontiers, {"artist"}, after, true) && Saved(after, "artist") < Saved(saved, "artist")
  {
    var saved, frontiers, after := map["artist" := 5], map["artist" := 3], map["artist" := 3];
    assert SavedOver(saved, frontiers, {"artist"}, after, true);
    WhenPositionsFall(saved, frontiers, {"artist"}, after, true, "artist");
  }

  // ------------------------------------------------------ two ways to lose

  /** A full replay first deletes the rows of the selected types. Should it stop
      there, what the checkpoints promise still holds exactly when they promise
      nothing about those types. */
  lemma {:induction false} ResetBreaksPromises<V>(fold: seq<Event> -> V, read: map<string, V>,
      checkpoints: map<string, int>, log: seq<Msg>, selected: set<string>)
    requires forall sid :: Kept(fold, read, checkpoints, log, sid)
    ensures (forall sid :: Kept(fold, Reset(read, log, selected), checkpoints, log, sid))
        <==> (forall sid :: PromisesNothing(checkpoints, log, selected, sid))
  {
    var after := Reset(read, log, selected);
    forall sid ensures Kept(fold, after, checkpoints, log, sid) <==> PromisesNothing(checkpoints, log, selected, sid) {
      var position := Saved(checkpoints, TypeOf(Stream(log, sid)));
      assert Kept(fold, read, checkpoints, log, sid);
      if TypeOf(Stream(log, sid)) !in selected {
        SameRowShows(fold, read, after, log, sid, position);
      } else if Upto(log, sid, position) == 0 {
        assert Shows(fold, after, log, sid, 0);
      }
    }
  }

  ghost predicate PromisesNothing(checkpoints: map<string, int>, log: seq<Msg>, selected: set<string>, sid: string) {
    var t := TypeOf(Stream(log, sid));
    t in selected ==> Upto(log, sid, Saved(checkpoints, t)) == 0
  }

  function Reset<V>(read: map<string, V>, log: seq<Msg>, selected: set<string>): map<string, V> {
    map sid | sid in read && TypeOf(Stream(log, sid)) !in selected :: read[sid]
  }

  lemma {:induction false} UptoHas(log: seq<Msg>, i: nat, position: int)
    requires i < |log| && log[i].seqNo <= position
    ensures Upto(log, log[i].e.streamID, position) > 0
  {
    if i == |log| - 1 {
    } else {
      UptoHas(log[..|log| - 1], i, position);
    }
  }

  /** A projector under which no two histories look the same. */
  ghost predicate KeepsHistory<V>(fold: seq<Event> -> V) {
    forall x, y :: fold(x) == fold(y) ==> x == y
  }

  /** A stream that was not projected again shows what it showed: enough for the
      position exactly when nothing of it arrived late at or below there. */
  lemma {:induction false} LateUntouched<V>(fold: seq<Event> -> V, read: map<string, V>, log: seq<Msg>, more: seq<Msg>,
      touched: set<string>, sid: string, position: int)
    requires Ordered(log + more) && sid !in touched && Current(fold, read, log, sid) && KeepsHistory(fold)
    ensures RowShows(fold, Projected(fold, read, log + more, touched), log + more, sid, position)
        <==> NoneLate(more, sid, position)
  {
    var read' := Projected(fold, read, log + more, touched);
    StreamJoins(log, more, sid);
    UptoGrows(log, more, sid, position);
    UptoBound(log, sid, position);
    var k := |Stream(log, sid)|;
    if NoneLate(more, sid, position) {
      NoneOfStream(more, sid, position);
      assert Stream(log + more, sid)[..k] == Stream(log, sid);
      assert Shows(fold, read', log + more, sid, k);
    } else {
      LateIsMissed(fold, read', log, more, sid, position);
    }
  }

  lemma {:induction false} LateIsMissed<V>(fold: seq<Event> -> V, read: map<string, V>, log: seq<Msg>, more: seq<Msg>,
      sid: string, position: int)
    requires Ordered(log + more) && Current(fold, read, log, sid) && KeepsHistory(fold)
             && !NoneLate(more, sid, position)
    ensures !RowShows(fold, read, log + more, sid, position)
  {
    var i :| 0 <= i < |more| && more[i].e.streamID == sid && more[i].seqNo <= position;
    UptoHas(more, i, position);
    assert (log + more)[|log| + i] == more[i];
    assert forall j :: 0 <= j < |log| ==> log[j] == (log + more)[j];
    UntouchedIsComplete(log, sid, position);
    UptoGrows(log, more, sid, position);
    StreamJoins(log, more, sid);
    forall n | Upto(log + more, sid, position) <= n <= |Stream(log + more, sid)|
      ensures !Shows(fold, read, log + more, sid, n)
    {
      assert |Stream(log + more, sid)[..n]| == n > |Stream(log, sid)|;
    }
  }

  ghost predicate NoneLate(more: seq<Msg>, sid: string, position: int) {
    forall i :: 0 <= i < |more| && more[i].e.streamID == sid ==> more[i].seqNo > position
  }

  lemma {:induction false} NoneOfStream(log: seq<Msg>, sid: string, position: int)
    requires forall i :: 0 <= i < |log| && log[i].e.streamID == sid ==> log[i].seqNo > position
    ensures Upto(log, sid, position) == 0
  {
    if log == [] {
    } else {
      NoneOfStream(log[..|log| - 1], sid, position);
    }
  }

  /** The late facts at or below their type's saved position were all projected. */
  ghost predicate NoneSkipped(log: seq<Msg>, more: seq<Msg>, saved: map<string, int>, touched: set<string>) {
    forall i :: 0 <= i < |more| && more[i].seqNo <= Saved(saved, TypeOf(Stream(log + more, more[i].e.streamID))) ==>
      more[i].e.streamID in touched
  }

  /** One stream of an incremental replay during which `more` arrived. */
  lemma {:induction false} LateStream<V>(fold: seq<Event> -> V, read: map<string, V>, log: seq<Msg>, more: seq<Msg>,
      checkpoints: map<string, int>, saved: map<string, int>, touched: set<string>, selected: set<string>, sid: string)
    requires Ordered(log + more) && KeepsHistory(fold) && Kept(fold, read, checkpoints, log, sid)
    requires forall t, i :: 0 <= i < |more| ==> more[i].seqNo > Saved(checkpoints, t)
    requires forall t :: t !in selected ==> Saved(saved, t) == Saved(checkpoints, t)
    requires sid in touched ==> Stream(log, sid) != []
    requires sid !in touched && TypeOf(Stream(log, sid)) in selected ==> Current(fold, read, log, sid)
    ensures Kept(fold, Projected(fold, read, log + more, touched), saved, log + more, sid) <==>
              sid in touched || NoneLate(more, sid, Saved(saved, TypeOf(Stream(log + more, sid))))
  {
    var log', read' := log + more, Projected(fold, read, log + more, touched);
    var position := Saved(saved, TypeOf(Stream(log', sid)));
    StreamJoins(log, more, sid);
    if sid in touched {
      CurrentShows(fold, read', log', sid, position);
    } else if Stream(log, sid) == [] || TypeOf(Stream(log, sid)) in selected {
      if Stream(log, sid) == [] {
        NoStreamNoRow(fold, read, log, sid, Saved(checkpoints, ""));
      }
      LateUntouched(fold, read, log, more, touched, sid, position);
    } else {
      AppendsKeepRows(fold, read, log, more, sid, position, position);
      SameRowShows(fold, read, read', log', sid, position);
    }
  }

  /** Facts `more` that arrive between an incremental replay's scan and its
      loads: after the positions are saved, every checkpoint keeps its promise
      exactly when no late fact at or below its type's new position lies in a
      stream that the scan had not seen touched. */
  lemma {:induction false} LateFactsAreSkipped<V>(fold: seq<Event> -> V, read: map<string, V>, log: seq<Msg>,
      more: seq<Msg>, checkpoints: map<string, int>, saved: map<string, int>, touched: set<string>,
      selected: set<string>)
    requires Ordered(log + more) && KeepsHistory(fold) && forall sid :: Kept(fold, read, checkpoints, log, sid)
    requires forall t, i :: 0 <= i < |more| ==> more[i].seqNo > Saved(checkpoints, t)
    requires forall t :: t !in selected ==> Saved(saved, t) == Saved(checkpoints, t)
    requires forall sid :: sid in touched ==> Stream(log, sid) != []
    requires forall sid :: sid !in touched && TypeOf(Stream(log, sid)) in selected ==> Current(fold, read, log, sid)
    ensures (forall sid :: Kept(fold, Projected(fold, read, log + more, touched), saved, log + more, sid))
       <==> NoneSkipped(log, more, saved, touched)
  {
    forall sid ensures Kept(fold, Projected(fold, read, log + more, touched), saved, log + more, sid) <==>
        sid in touched || NoneLate(more, sid, Saved(saved, TypeOf(Stream(log + more, sid)))) {
      LateStream(fold, read, log, more, checkpoints, saved, touched, selected, sid);
    }
  }

  // -------------------------------------------------------------- witnesses

  const A1 := Event("e1", "a", "t", 1)
  const B1 := Event("e2", "b", "t", 1)
  const A2 := Event("e3", "a", "t", 2)

  /** A projector that keeps the whole history. */
  function Whole(events: seq<Event>): seq<Event> { events }

  lemma {:induction false} TwoStreams()
    ensures var log := [Msg(1, A1), Msg(2, B1), Msg(3, A2)];
            Stream(log, "a") == [A1, A2] && Stream(log, "b") == [B1] && Upto(log, "b", 3) == 1
  {
    var log := [Msg(1, A1), Msg(2, B1), Msg(3, A2)];
    assert log[..2] == [Msg(1, A1), Msg(2, B1)] && log[..2][..1] == [Msg(1, A1)] && log[..1][..0] == [];
    assert "a"[0] != "b"[0];
    assert Stream([Msg(1, A1)], "a") == [A1] && Stream([Msg(1, A1)], "b") == [];
    assert Stream(log[..2], "a") == [A1] && Stream(log[..2], "b") == [B1];
    assert Upto([], "b", 3) == 0;
    assert Upto([Msg(1, A1)], "b", 3) == 0;
    assert Upto(log[..2], "b", 3) == 1;
  }

  lemma {:induction false} AllBefore(log: seq<Msg>, position: int)
    requires forall i :: 0 <= i < |log| ==> log[i].seqNo <= position
    ensures After(log, position) == []
  {
    if log == [] {
    } else {
      AllBefore(log[1..], position);
    }
  }

  /** It happens: the scan saw stream a only, then b's first and a's second fact
      arrived. The load of a raises the frontier over b's fact, which no later
      incremental replay looks at. */
  lemma {:induction false} SkippedFact()
    ensures var log, more, saved := [Msg(1, A1)], [Msg(2, B1), Msg(3, A2)], map["t" := 3];
            && Ordered(log + more) && Touches(After(log, 0)) == {"a"}
            && !NoneSkipped(log, more, saved, {"a"})
            && !Kept(Whole, Projected(Whole, map[], log + more, {"a"}), saved, log + more, "b")
            && "b" !in Touches(After(log + more, Saved(saved, "t")))
  {
    var log, more, saved := [Msg(1, A1)], [Msg(2, B1), Msg(3, A2)], map["t" := 3];
    var all := [Msg(1, A1), Msg(2, B1), Msg(3, A2)];
    assert log + more == all && log[0].e.streamID == "a";
    AllBefore(all, 3);
    TwoStreams();
    assert more[0].e.streamID == "b" && "a"[0] != "b"[0];
    assert "b" !in Projected(Whole, map[], all, {"a"});
  }

  /** A reset that stops there breaks the promise of a checkpoint behind a fact. */
  lemma {:induction false} BrokenPromise()
    ensures var log, checkpoints := [Msg(1, A1)], map["t" := 1];
            && Kept(Whole, map["a" := [A1]], checkpoints, log, "a")
            && !Kept(Whole, Reset(map["a" := [A1]], log, {"t"}), checkpoints, log, "a")
  {
    var log, checkpoints := [Msg(1, A1)], map["t" := 1];
    assert log[..0] == [];
    assert Stream(log, "a") == Stream([], "a") + [A1] == [A1];
    assert Upto([], "a", 1) == 0;
    assert Upto(log, "a", 1) == 1;
    FreshRowShows(Whole, map["a" := [A1]], log, "a", 1);
    assert Reset(map["a" := [A1]], log, {"t"}) == map[];
  }
}
