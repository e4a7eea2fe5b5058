/** The aggregate base: recorded events are numbered on from the loaded
    version, so a recorded batch is always one the store's checks accept. */
module Aggregate {
  import opened EventStore
  import opened AppendProtocol
  import opened AppendOutcomes
  import AppendRetry

  class BaseAggregate {
    const id: string
    const streamType: string
    var version: int
    var uncommitted: seq<Event>

    /** The uncommitted events are the last ones up to `version`, in order. */
    ghost predicate Valid()
      reads this
    {
      && |uncommitted| <= version
      && Consecutive(version - |uncommitted|, uncommitted)
      && forall i :: 0 <= i < |uncommitted| ==> uncommitted[i].streamID == id && uncommitted[i].streamType == streamType
    }

    constructor (id: string, streamType: string)
      ensures Valid() && version == 0 && uncommitted == [] && this.id == id && this.streamType == streamType
    {
      this.id, this.streamType := id, streamType;
      version, uncommitted := 0, [];
    }

    /** Record under a new event ID, unless the payload does not marshal. */
    method RecordThat(eventID: string, marshals: bool) returns (e: Event, ok: bool)
      requires Valid()
      modifies this
      ensures Valid() && ok == marshals
      ensures ok ==> e == Event(eventID, id, streamType, old(version) + 1)
      ensures version == old(version) + (if ok then 1 else 0)
      ensures uncommitted == old(uncommitted) + if ok then [e] else []
    {
      e, ok := Event(eventID, id, streamType, version + 1), marshals;
      if !ok {
        assert uncommitted + [] == uncommitted;
        return;
      }
      version := e.version;
      uncommitted := uncommitted + [e];
    }

    /** Replay sets the version before anything is recorded. */
    method SetVersion(v: int)
      requires Valid()
      modifies `version
      ensures version == v && uncommitted == old(uncommitted)
      ensures Valid() <==> v == old(version) || (uncommitted == [] && 0 <= v)
    {
      assert uncommitted != [] ==> uncommitted[0].version == version - |uncommitted| + 1;
      version := v;
    }

    method ClearUncommittedEvents()
      requires Valid()
      modifies `uncommitted
      ensures Valid() && uncommitted == []
    {
      uncommitted := [];
    }

    /** The aggregate was loaded at the tip of its own stream. */
    ghost predicate Extends(sys: System)
      reads this
    {
      && sys.sid == id && streamType != "" && version - |uncommitted| == |sys.log|
      && (sys.log != [] ==> sys.log[|sys.log| - 1].streamType == streamType)
    }

    /** Commit what was recorded. Success: it is one slice of the stream, right
        behind the version the aggregate was loaded at. A failed save may be
        repeated. An undisturbed save of an aggregate loaded at the tip succeeds. */
    method Save(store: AppendRetry.Broker, w: nat) returns (r: Result)
      requires Valid() && store.Valid() && store.MaySubmit(w, version - |uncommitted|, uncommitted)
      modifies this, store
      ensures Valid() && store.Valid() && version == old(version)
      ensures r == Success ==> uncommitted == []
      ensures r == Success && old(uncommitted) != [] ==>
                version <= |store.sys.log| && store.sys.log[version - |old(uncommitted)|..version] == old(uncommitted)
      ensures r.Failed? ==> uncommitted == old(uncommitted) && store.MaySubmit(w, version - |uncommitted|, uncommitted)
      ensures old(store.steady && store.quiet && store.upsets <= 4 && Extends(store.sys)) ==> r == Success
    {
      if |uncommitted| == 0 {
        return Success;
      }
      var expectedVersion := version - |uncommitted|;
      if Extends(store.sys) {
        ExpectsTip(store.sys.log, uncommitted);
      }
      r := store.AppendWithRetry(w, expectedVersion, uncommitted);
      if r == Success {
        ClearUncommittedEvents();
      }
    }
  }

  /** The store's validation accepts a batch of one stream exactly when it is
      numbered on from the expected version and names a type; recorded batches are. */
  lemma {:induction false} RecordedBatchIsAccepted(sid: string, streamType: string, base: int, events: seq<Event>)
    requires |events| > 0
    requires forall k :: 0 <= k < |events| ==> events[k].streamID == sid && events[k].streamType == streamType
    ensures Validate(sid, base, events) == {} <==> streamType != "" && Consecutive(base, events)
  {
    ValidationIsExact(sid, base, events);
  }
}
