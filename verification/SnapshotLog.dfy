/** The global event log with its sparse sequence numbers, one aggregate's view
    of it, and the two ways to cut off a tail: behind a sequence number, and
    above a version. */
module SnapshotLog {
  import opened EventStore

  /** One stored message; numbers may be missing between neighbours. */
  datatype Msg = Msg(seqNo: int, e: Event)

  ghost predicate Ordered(log: seq<Msg>) {
    && (forall i :: 0 <= i < |log| ==> 0 < log[i].seqNo)
    && (forall i, j :: 0 <= i < j < |log| ==> log[i].seqNo < log[j].seqNo)
  }

  /** One aggregate's events, oldest first. */
  function Stream(log: seq<Msg>, sid: string): seq<Event> {
    if log == [] then []
    else
      var last := log[|log| - 1].e;
      Stream(log[..|log| - 1], sid) + if last.streamID == sid then [last] else []
  }

  ghost predicate Rising(events: seq<Event>) {
    && (forall i :: 0 <= i < |events| ==> 0 < events[i].version)
    && (forall i, j :: 0 <= i < j < |events| ==> events[i].version < events[j].version)
  }

  ghost predicate LogOk(log: seq<Msg>) {
    Ordered(log) && forall sid :: Rising(Stream(log, sid))
  }

  /** The events above a version. */
  function Newer(events: seq<Event>, version: int): seq<Event> {
    if events == [] then []
    else
      var last := events[|events| - 1];
      Newer(events[..|events| - 1], version) + if last.version > version then [last] else []
  }

  /** The events behind a sequence number. */
  function Behind(log: seq<Msg>, sid: string, seqNo: int): seq<Event> {
    if log == [] then []
    else
      var last := log[|log| - 1];
      Behind(log[..|log| - 1], sid, seqNo) + if last.e.streamID == sid && last.seqNo > seqNo then [last.e] else []
  }

  /** Message `seqNo` is version `version` of the aggregate. */
  ghost predicate Anchored(log: seq<Msg>, sid: string, version: int, seqNo: int) {
    exists i :: 0 <= i < |log| && log[i].seqNo == seqNo && log[i].e.streamID == sid && log[i].e.version == version
  }

  lemma {:induction false} StreamJoins(x: seq<Msg>, y: seq<Msg>, sid: string)
    ensures Stream(x + y, sid) == Stream(x, sid) + Stream(y, sid)
  {
    if y == [] {
      assert x + y == x;
    } else {
      StreamJoins(x, y[..|y| - 1], sid);
      assert (x + y)[..|x + y| - 1] == x + y[..|y| - 1];
    }
  }

  lemma {:induction false} PrefixStream(log: seq<Msg>, k: nat, sid: string)
    requires k <= |log|
    ensures Stream(log[..k], sid) <= Stream(log, sid)
  {
    assert log == log[..k] + log[k..];
    StreamJoins(log[..k], log[k..], sid);
  }

  /** Every message is in its aggregate's stream. */
  lemma {:induction false} InStream(log: seq<Msg>, i: nat)
    requires i < |log|
    ensures exists k :: 0 <= k < |Stream(log, log[i].e.streamID)| && Stream(log, log[i].e.streamID)[k] == log[i].e
  {
    var sid := log[i].e.streamID;
    var before := log[..i];
    assert log == before + [log[i]] + log[i + 1..];
    StreamJoins(before + [log[i]], log[i + 1..], sid);
    assert (before + [log[i]])[..i] == before;
    assert Stream(log, sid)[|Stream(before, sid)|] == log[i].e;
  }

  lemma {:induction false} NoneNewer(events: seq<Event>, version: int)
    requires forall i :: 0 <= i < |events| ==> events[i].version <= version
    ensures Newer(events, version) == []
  {
    if events == [] {
    } else {
      NoneNewer(events[..|events| - 1], version);
    }
  }

  lemma {:induction false} NothingAboveTip(events: seq<Event>)
    requires Rising(events) && events != []
    ensures Newer(events, events[|events| - 1].version) == []
  {
    NoneNewer(events, events[|events| - 1].version);
  }

  lemma {:induction false} NoneBehind(log: seq<Msg>, sid: string, seqNo: int)
    requires forall i :: 0 <= i < |log| ==> log[i].seqNo <= seqNo
    ensures Behind(log, sid, seqNo) == []
  {
    if log == [] {
    } else {
      NoneBehind(log[..|log| - 1], sid, seqNo);
    }
  }

  lemma {:induction false} LastMessage(log: seq<Msg>, sid: string, version: int, seqNo: int)
    requires log != []
    ensures var init, last := log[..|log| - 1], log[|log| - 1];
            && (last.e.streamID != sid ==>
                  Stream(log, sid) == Stream(init, sid) && Behind(log, sid, seqNo) == Behind(init, sid, seqNo))
            && (last.e.streamID == sid ==>
                  Stream(log, sid) == Stream(init, sid) + [last.e]
                  && Newer(Stream(log, sid), version) ==
                     Newer(Stream(init, sid), version) + if last.e.version > version then [last.e] else [])
  {
    var init, last := log[..|log| - 1], log[|log| - 1];
    if last.e.streamID == sid {
      assert Stream(log, sid)[..|Stream(log, sid)| - 1] == Stream(init, sid);
    }
  }

  lemma {:induction false} RisingAfter(log: seq<Msg>, sid: string, i: nat)
    requires i < |log| - 1 && log[i].e.streamID == sid && log[|log| - 1].e.streamID == sid
    requires Rising(Stream(log, sid)) && Stream(log, sid) == Stream(log[..|log| - 1], sid) + [log[|log| - 1].e]
    ensures log[|log| - 1].e.version > log[i].e.version
  {
    var init, stream := log[..|log| - 1], Stream(log, sid);
    InStream(init, i);
    var k :| 0 <= k < |Stream(init, sid)| && Stream(init, sid)[k] == init[i].e;
    assert stream[k] == log[i].e && stream[|stream| - 1] == log[|log| - 1].e;
  }

  lemma {:induction false} InitIsFine(log: seq<Msg>, sid: string)
    requires log != [] && Ordered(log) && Rising(Stream(log, sid))
    ensures Ordered(log[..|log| - 1]) && Rising(Stream(log[..|log| - 1], sid))
  {
    PrefixStream(log, |log| - 1, sid);
  }

  lemma {:induction false} TailBehindTip(log: seq<Msg>, sid: string)
    requires log != [] && log[|log| - 1].e.streamID == sid && Ordered(log) && Rising(Stream(log, sid))
    ensures Behind(log, sid, log[|log| - 1].seqNo) == Newer(Stream(log, sid), log[|log| - 1].e.version) == []
  {
    NoneBehind(log, sid, log[|log| - 1].seqNo);
    NothingAboveTip(Stream(log, sid));
  }

  lemma {:induction false} TailBehind(log: seq<Msg>, sid: string, i: nat)
    requires i < |log| && log[i].e.streamID == sid
    requires Ordered(log) && Rising(Stream(log, sid))
    ensures Behind(log, sid, log[i].seqNo) == Newer(Stream(log, sid), log[i].e.version)
    decreases |log|
  {
    if i == |log| - 1 {
      TailBehindTip(log, sid);
    } else {
      InitIsFine(log, sid);
      TailBehind(log[..|log| - 1], sid, i);
      LastMessage(log, sid, log[i].e.version, log[i].seqNo);
      if log[|log| - 1].e.streamID == sid {
        RisingAfter(log, sid, i);
      }
    }
  }

  /** In any log where the stream's versions rise, an anchor that matches cuts
      the same tail whether one counts by sequence number or by version. */
  lemma {:induction false} AnchoredTail(log: seq<Msg>, sid: string, version: int, seqNo: int)
    requires Ordered(log) && Rising(Stream(log, sid)) && Anchored(log, sid, version, seqNo)
    ensures Behind(log, sid, seqNo) == Newer(Stream(log, sid), version)
  {
    var i :| 0 <= i < |log| && log[i].seqNo == seqNo && log[i].e.streamID == sid && log[i].e.version == version;
    TailBehind(log, sid, i);
  }

  /** In a numbered stream the tail above a version is a slice. */
  lemma {:induction false} NewerIsSlice(events: seq<Event>, version: nat)
    requires Numbered(events)
    ensures Newer(events, version) == if version <= |events| then events[version..] else []
  {
    if events == [] {
    } else {
      var init := events[..|events| - 1];
      NewerIsSlice(init, version);
      if version < |events| {
        assert events[version..] == init[version..] + [events[|events| - 1]];
      }
    }
  }

  // ------------------------------------------------------------- the state

  function Replay<S>(apply: (S, Event) -> S, state: S, events: seq<Event>): S {
    if events == [] then state else apply(Replay(apply, state, events[..|events| - 1]), events[|events| - 1])
  }

  lemma {:induction false} ReplayJoins<S>(apply: (S, Event) -> S, state: S, x: seq<Event>, y: seq<Event>)
    ensures Replay(apply, state, x + y) == Replay(apply, Replay(apply, state, x), y)
  {
    if y == [] {
      assert x + y == x;
    } else {
      ReplayJoins(apply, state, x, y[..|y| - 1]);
      assert (x + y)[..|x + y| - 1] == x + y[..|y| - 1];
    }
  }

  /** What a snapshot taken at `version` holds. */
  function StateAt<S>(apply: (S, Event) -> S, state: S, log: seq<Msg>, sid: string, version: nat): S
    requires version <= |Stream(log, sid)|
  {
    Replay(apply, state, Stream(log, sid)[..version])
  }

  /** The log only grows: an anchor stays an anchor, a snapshot a snapshot. */
  lemma {:induction false} GrowthKeepsAnchor<S>(apply: (S, Event) -> S, state: S, log: seq<Msg>, more: seq<Msg>,
      sid: string, version: nat, seqNo: int)
    requires version <= |Stream(log, sid)| && Anchored(log, sid, version, seqNo)
    ensures Anchored(log + more, sid, version, seqNo) && version <= |Stream(log + more, sid)|
    ensures StateAt(apply, state, log + more, sid, version) == StateAt(apply, state, log, sid, version)
  {
    var i :| 0 <= i < |log| && log[i].seqNo == seqNo && log[i].e.streamID == sid && log[i].e.version == version;
    assert (log + more)[i] == log[i];
    StreamJoins(log, more, sid);
    assert Stream(log + more, sid)[..version] == Stream(log, sid)[..version];
  }

  /** Snapshot and tail together are the full replay. */
  lemma {:induction false} SnapshotThenTail<S>(apply: (S, Event) -> S, state: S, events: seq<Event>, version: nat)
    requires Numbered(events) && version <= |events|
    ensures Replay(apply, Replay(apply, state, events[..version]), Newer(events, version))
            == Replay(apply, state, events)
  {
    NewerIsSlice(events, version);
    assert events == events[..version] + events[version..];
    ReplayJoins(apply, state, events[..version], events[version..]);
  }

  // -------------------------------------------------------- rebuilt logs

  /** The aggregate that keeps its whole history. */
  function Keep(history: seq<Event>, e: Event): seq<Event> { history + [e] }

  lemma {:induction false} KeepReplays(history: seq<Event>, events: seq<Event>)
    ensures Replay(Keep, history, events) == history + events
  {
    if events == [] {
      assert history + events == history;
    } else {
      KeepReplays(history, events[..|events| - 1]);
      assert history + events == history + events[..|events| - 1] + [events[|events| - 1]];
    }
  }

  /** An anchored version lies within a numbered stream. */
  lemma {:induction false} AnchorIsInside(log: seq<Msg>, sid: string, version: int, seqNo: int)
    requires Numbered(Stream(log, sid)) && Anchored(log, sid, version, seqNo)
    ensures 0 < version <= |Stream(log, sid)|
  {
    var i :| 0 <= i < |log| && log[i].seqNo == seqNo && log[i].e.streamID == sid && log[i].e.version == version;
    InStream(log, i);
  }

  /** An anchor taken in `before` and accepted in `after`: the snapshot is the
      state of `after` exactly when the two logs share the stream's first
      `version` events. One direction holds of every aggregate, the other of
      the one that keeps its history, and so of any that can tell the two apart. */
  lemma {:induction false} AcceptedAnchorIsRightUnlessRebuilt<S(!new)>(before: seq<Msg>, after: seq<Msg>, sid: string,
      version: nat, seqNo: int)
    requires Numbered(Stream(before, sid)) && Anchored(before, sid, version, seqNo)
    requires Numbered(Stream(after, sid)) && Anchored(after, sid, version, seqNo)
    ensures version <= |Stream(before, sid)| && version <= |Stream(after, sid)|
    ensures StateAt(Keep, [], before, sid, version) == StateAt(Keep, [], after, sid, version)
       <==> Stream(before, sid)[..version] == Stream(after, sid)[..version]
    ensures Stream(before, sid)[..version] == Stream(after, sid)[..version] ==>
              forall apply: (S, Event) -> S, state: S ::
                StateAt(apply, state, before, sid, version) == StateAt(apply, state, after, sid, version)
  {
    AnchorIsInside(before, sid, version, seqNo);
    AnchorIsInside(after, sid, version, seqNo);
    KeepReplays([], Stream(before, sid)[..version]);
    KeepReplays([], Stream(after, sid)[..version]);
    assert forall events: seq<Event> :: [] + events == events;
  }

  lemma {:induction false} SoleStream(e: Event, sid: string)
    ensures Stream([Msg(1, e)], sid) == if e.streamID == sid then [e] else []
  {
    assert [Msg(1, e)][..0] == [];
  }

  lemma {:induction false} SoleMessageIsFine(e: Event)
    requires e.version == 1
    ensures LogOk([Msg(1, e)]) && Anchored([Msg(1, e)], e.streamID, 1, 1)
  {
    forall sid ensures Rising(Stream([Msg(1, e)], sid)) {
      SoleStream(e, sid);
    }
    assert [Msg(1, e)][0].seqNo == 1;
  }

  lemma {:induction false} OneMessage<S>(apply: (S, Event) -> S, state: S, e: Event)
    requires e.version == 1
    ensures var log := [Msg(1, e)];
            && LogOk(log) && Anchored(log, e.streamID, 1, 1)
            && Stream(log, e.streamID) == [e]
            && StateAt(apply, state, log, e.streamID, 1) == apply(state, e)
  {
    SoleMessageIsFine(e);
    SoleStream(e, e.streamID);
    assert [e][..0] == [] && [e][..1] == [e];
    assert Replay(apply, state, [e]) == apply(Replay(apply, state, [e][..0]), e);
  }

  /** A log rebuilt from another history can hold the same version of the same
      aggregate under the same sequence number. The anchor then matches,
      although the snapshot is not the state of what is in the log. */
  lemma {:induction false} RebuiltLogFoolsTheAnchor<S>(apply: (S, Event) -> S, state: S, was: Event, now: Event)
    requires was.version == 1 && now == was.(id := now.id) && apply(state, was) != apply(state, now)
    ensures var before, after := [Msg(1, was)], [Msg(1, now)];
            && LogOk(before) && LogOk(after)
            && Anchored(before, was.streamID, 1, 1) && Anchored(after, was.streamID, 1, 1)
            && |Stream(before, was.streamID)| == |Stream(after, was.streamID)| == 1
            && StateAt(apply, state, before, was.streamID, 1) != StateAt(apply, state, after, was.streamID, 1)
  {
    OneMessage(apply, state, was);
    OneMessage(apply, state, now);
  }
}
