/** One aggregate's stream in the authoritative event log: the event envelope,
    what the store checks before it publishes, and what the broker does with a
    publish. */
module EventStore {

  datatype Event = Event(id: string, streamID: string, streamType: string, version: int)

  /** The sentinels that `errors.Is` can find in a returned error. */
  datatype Sentinel = Conflict | Indeterminate | Canceled | LoadFailed | Other

  type Failure = set<Sentinel>

  /** Versions are exactly 1..n, in order. */
  ghost predicate Numbered(log: seq<Event>) {
    forall i :: 0 <= i < |log| ==> log[i].version == i + 1
  }

  ghost predicate DistinctIds(log: seq<Event>) {
    forall i, j :: 0 <= i < j < |log| ==> log[i].id != log[j].id
  }

  /** `e` sits in the slot its version names. */
  predicate InLog(log: seq<Event>, e: Event) {
    1 <= e.version <= |log| && log[e.version - 1] == e
  }

  /** The events of one batch, numbered from `expected` + 1 on. */
  ghost predicate Consecutive(expected: int, events: seq<Event>) {
    forall k :: 0 <= k < |events| ==> events[k].version == expected + 1 + k
  }

  function TipVersion(log: seq<Event>): int {
    if log == [] then 0 else log[|log| - 1].version
  }

  function Ids(log: seq<Event>): set<string> {
    set i | 0 <= i < |log| :: log[i].id
  }

  function MaxVersion(log: seq<Event>): int {
    if log == [] then 0
    else
      var rest := MaxVersion(log[..|log| - 1]);
      if log[|log| - 1].version > rest then log[|log| - 1].version else rest
  }

  /** In a numbered stream, the highest version is the tip's. */
  lemma {:induction false} MaxVersionIsTip(log: seq<Event>)
    requires Numbered(log)
    ensures MaxVersion(log) == TipVersion(log) == |log|
  {
    if log == [] {
    } else {
      MaxVersionIsTip(log[..|log| - 1]);
    }
  }

  /** The first thing wrong with event `i` of a batch for `sid` on top of
      `base`: a version skew is a conflict, the other mismatches are plain errors. */
  function Fault(sid: string, base: int, events: seq<Event>, i: nat): Failure
    requires i < |events|
  {
    if events[i].version != base + i + 1 then {Conflict}
    else if events[i].streamID != sid then {Other}
    else if events[i].streamType != events[0].streamType then {Other}
    else {}
  }

  /** Validation of the whole batch before anything is published; {} is "valid". */
  function Validate(sid: string, base: int, events: seq<Event>): Failure
    requires |events| > 0
  {
    if events[0].streamType == "" then {Other} else ValidateFrom(sid, base, events, 0)
  }

  function ValidateFrom(sid: string, base: int, events: seq<Event>, i: nat): Failure
    requires i <= |events|
    decreases |events| - i
  {
    if i == |events| then {}
    else if Fault(sid, base, events, i) != {} then Fault(sid, base, events, i)
    else ValidateFrom(sid, base, events, i + 1)
  }

  lemma {:induction false} ValidFrom(sid: string, base: int, events: seq<Event>, i: nat)
    requires i <= |events| && ValidateFrom(sid, base, events, i) == {}
    ensures forall k :: i <= k < |events| ==>
              events[k].version == base + 1 + k && events[k].streamID == sid
              && events[k].streamType == events[0].streamType
    decreases |events| - i
  {
    if i == |events| {
    } else {
      ValidFrom(sid, base, events, i + 1);
    }
  }

  lemma {:induction false} NothingInvalid(sid: string, base: int, events: seq<Event>, i: nat)
    requires i <= |events| && Consecutive(base, events)
    requires forall k :: 0 <= k < |events| ==> events[k].streamID == sid && events[k].streamType == events[0].streamType
    ensures ValidateFrom(sid, base, events, i) == {}
    decreases |events| - i
  {
    if i == |events| {
    } else {
      NothingInvalid(sid, base, events, i + 1);
    }
  }

  /** A batch passes validation exactly when it is numbered on from the base
      and belongs to one stream and one type. */
  lemma {:induction false} ValidationIsExact(sid: string, base: int, events: seq<Event>)
    requires |events| > 0
    ensures Validate(sid, base, events) == {} <==>
              && Consecutive(base, events) && events[0].streamType != ""
              && forall k :: 0 <= k < |events| ==>
                   events[k].streamID == sid && events[k].streamType == events[0].streamType
  {
    if Validate(sid, base, events) == {} {
      ValidFrom(sid, base, events, 0);
    } else if Consecutive(base, events)
              && forall k :: 0 <= k < |events| ==>
                   events[k].streamID == sid && events[k].streamType == events[0].streamType {
      NothingInvalid(sid, base, events, 0);
    }
  }

  /** A publish under way: `e`, to be stored only if the stream still ends at
      the event that holds position `anchor` (0 is the empty stream). */
  datatype Publication = Publication(e: Event, anchor: int)

  datatype Verdict = Stored | Duplicate(position: int) | WrongLast

  /** The broker's decision. Inside the deduplication window a known message ID
      is acknowledged with the position of the stored copy; otherwise the
      per-aggregate compare-and-set on the last position decides. */
  function Judge(log: seq<Event>, p: Publication, window: bool): Verdict {
    if window && p.e.id in Ids(log) then Duplicate(Position(log, p.e.id))
    else if p.anchor == |log| then Stored
    else WrongLast
  }

  function Position(log: seq<Event>, id: string): int
    requires id in Ids(log)
  {
    if log[|log| - 1].id == id then |log| else Position(log[..|log| - 1], id)
  }

  lemma {:induction false} PositionIs(log: seq<Event>, i: nat)
    requires DistinctIds(log) && i < |log|
    ensures log[i].id in Ids(log) && Position(log, log[i].id) == i + 1
  {
    if i == |log| - 1 {
    } else {
      PositionIs(log[..|log| - 1], i);
      assert log[..|log| - 1][i] == log[i];
    }
  }

  function Deliver(log: seq<Event>, p: Publication, window: bool): seq<Event> {
    if Judge(log, p, window).Stored? then log + [p.e] else log
  }
}
