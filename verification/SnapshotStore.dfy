/** Saving, validating and using snapshots while other writers append to the
    log and overwrite the snapshot records. */
module SnapshotStore {
  import opened EventStore
  import opened SnapshotLog

  datatype Result<T> = Ok(value: T) | Err

  /** A record in the snapshot bucket; `Garbled` is one that does not decode or
      has no payload. */
  datatype Record<S> = Garbled | Record(streamType: string, version: int, seqNo: int, payload: S)

  datatype Snapshot<S> = Snapshot(streamType: string, version: int, payload: S)

  datatype Found<S> = Found(snap: Snapshot<S>) | NotFound | LoadError

  datatype Saved = Stored | Skipped | Refused

  const FETCH_BATCH_SIZE := 100

  const SNAPSHOT_INTERVAL := 200

  /** One aggregate's messages behind a sequence number: what the filtered
      consumer that starts there delivers. */
  function Pending(log: seq<Msg>, sid: string, seqNo: int): seq<Msg> {
    if log == [] then []
    else
      var last := log[|log| - 1];
      Pending(log[..|log| - 1], sid, seqNo) + if last.e.streamID == sid && last.seqNo > seqNo then [last] else []
  }

  lemma {:induction false} PendingIsFrom(log: seq<Msg>, sid: string, seqNo: int, i: nat) returns (k: nat)
    requires i < |Pending(log, sid, seqNo)|
    ensures k < |log| && log[k] == Pending(log, sid, seqNo)[i] && log[k].e.streamID == sid && log[k].seqNo > seqNo
  {
    var earlier := Pending(log[..|log| - 1], sid, seqNo);
    if i < |earlier| {
      k := PendingIsFrom(log[..|log| - 1], sid, seqNo, i);
    } else {
      k := |log| - 1;
    }
  }

  ghost predicate InOrder(msgs: seq<Msg>) {
    forall i, j :: 0 <= i < j < |msgs| ==> msgs[i].seqNo < msgs[j].seqNo
  }

  lemma {:induction false} PendingOrdered(log: seq<Msg>, sid: string, seqNo: int)
    requires Ordered(log)
    ensures InOrder(Pending(log, sid, seqNo))
  {
    if log == [] {
    } else {
      var init, last := log[..|log| - 1], log[|log| - 1];
      PendingOrdered(init, sid, seqNo);
      var earlier := Pending(init, sid, seqNo);
      forall i | 0 <= i < |earlier| ensures earlier[i].seqNo < last.seqNo {
        var k := PendingIsFrom(init, sid, seqNo, i);
        assert log[k] == earlier[i];
      }
      assert InOrder(earlier + [last]);
    }
  }

  lemma {:induction false} PendingGrows(log: seq<Msg>, more: seq<Msg>, sid: string, seqNo: int)
    ensures Pending(log + more, sid, seqNo) == Pending(log, sid, seqNo) + Pending(more, sid, seqNo)
  {
    if more == [] {
      assert log + more == log;
    } else {
      var init := more[..|more| - 1];
      PendingGrows(log, init, sid, seqNo);
      assert (log + more)[..|log + more| - 1] == log + init;
    }
  }

  /** A consumer that has delivered `k` messages goes on behind the last of them. */
  lemma {:induction false} PendingResumes(log: seq<Msg>, sid: string, seqNo: int, k: nat)
    requires Ordered(log) && 0 < k <= |Pending(log, sid, seqNo)|
    ensures Pending(log, sid, Pending(log, sid, seqNo)[k - 1].seqNo) == Pending(log, sid, seqNo)[k..]
    decreases |log|
  {
    var init, last := log[..|log| - 1], log[|log| - 1];
    var all, earlier := Pending(log, sid, seqNo), Pending(init, sid, seqNo);
    if k <= |earlier| {
      PendingResumes(init, sid, seqNo, k);
      var j := PendingIsFrom(init, sid, seqNo, k - 1);
      assert all[k - 1] == earlier[k - 1] == log[j];
    } else {
      assert all == earlier + [last] && k == |all|;
      NonePending(log, sid, last.seqNo);
    }
  }

  lemma {:induction false} NonePending(log: seq<Msg>, sid: string, seqNo: int)
    requires forall i :: 0 <= i < |log| ==> log[i].seqNo <= seqNo
    ensures Pending(log, sid, seqNo) == []
  {
    if log == [] {
    } else {
      NonePending(log[..|log| - 1], sid, seqNo);
    }
  }

  /** What the consumer of a grown log still delivers behind the first `done`
      of the messages `msgs` that were pending when the drain began. */
  lemma {:induction false} StillPending(at: seq<Msg>, log: seq<Msg>, sid: string, seqNo: int, done: nat)
    returns (later: seq<Msg>)
    requires Ordered(log) && at <= log && done < |Pending(at, sid, seqNo)|
    ensures var msgs := Pending(at, sid, seqNo);
            && Pending(log, sid, if done == 0 then seqNo else msgs[done - 1].seqNo) == msgs[done..] + later
            && forall i :: 0 <= i < |later| ==> later[i].seqNo > msgs[|msgs| - 1].seqNo
  {
    var msgs, more := Pending(at, sid, seqNo), log[|at|..];
    later := Pending(more, sid, seqNo);
    assert log == at + more;
    PendingGrows(at, more, sid, seqNo);
    if done > 0 {
      PendingResumes(log, sid, seqNo, done);
    }
    forall i | 0 <= i < |later| ensures later[i].seqNo > msgs[|msgs| - 1].seqNo {
      var j := PendingIsFrom(more, sid, seqNo, i);
      var k := PendingIsFrom(at, sid, seqNo, |msgs| - 1);
      assert log[|at| + j] == later[i] && log[k] == msgs[|msgs| - 1];
    }
  }

  /** The events of delivered messages that are above a version. */
  function Kept(msgs: seq<Msg>, version: int): seq<Event> {
    if msgs == [] then []
    else
      var last := msgs[|msgs| - 1].e;
      Kept(msgs[..|msgs| - 1], version) + if last.version > version then [last] else []
  }

  lemma {:induction false} KeptJoins(x: seq<Msg>, y: seq<Msg>, version: int)
    ensures Kept(x + y, version) == Kept(x, version) + Kept(y, version)
  {
    if y == [] {
      assert x + y == x;
    } else {
      KeptJoins(x, y[..|y| - 1], version);
      assert (x + y)[..|x + y| - 1] == x + y[..|y| - 1];
    }
  }

  lemma {:induction false} KeepLast(msgs: seq<Msg>, last: Msg, version: int)
    ensures Kept(msgs + [last], version) == Kept(msgs, version) + if last.e.version > version then [last.e] else []
  {
    assert (msgs + [last])[..|msgs|] == msgs;
  }

  lemma {:induction false} NewerLast(events: seq<Event>, last: Event, version: int)
    ensures Newer(events + [last], version) == Newer(events, version) + if last.version > version then [last] else []
  {
    assert (events + [last])[..|events|] == events;
  }

  lemma {:induction false} NewerTwice(events: seq<Event>, version: int)
    ensures Newer(Newer(events, version), version) == Newer(events, version)
  {
    if events == [] {
    } else {
      var init, last := events[..|events| - 1], events[|events| - 1];
      NewerTwice(init, version);
      if last.version > version {
        NewerLast(Newer(init, version), last, version);
      } else {
        assert Newer(events, version) == Newer(init, version);
      }
    }
  }

  /** Wherever a consumer starts, its last message is the aggregate's newest. */
  lemma {:induction false} SameTip(log: seq<Msg>, sid: string, seqNo: int)
    requires Ordered(log) && seqNo >= 0 && Pending(log, sid, seqNo) != []
    ensures var msgs, all := Pending(log, sid, seqNo), Pending(log, sid, 0);
            all != [] && msgs[|msgs| - 1] == all[|all| - 1]
  {
    var last := log[|log| - 1];
    if last.e.streamID != sid {
      SameTip(log[..|log| - 1], sid, seqNo);
    } else if last.seqNo <= seqNo {
      NonePending(log, sid, seqNo);
    }
  }

  lemma {:induction false} KeptIsNewer(log: seq<Msg>, sid: string, seqNo: int, version: int)
    ensures Kept(Pending(log, sid, seqNo), version) == Newer(Behind(log, sid, seqNo), version)
  {
    if log == [] {
    } else {
      var init, last := log[..|log| - 1], log[|log| - 1];
      KeptIsNewer(init, sid, seqNo, version);
      if last.e.streamID == sid && last.seqNo > seqNo {
        KeepLast(Pending(init, sid, seqNo), last, version);
        NewerLast(Behind(init, sid, seqNo), last.e, version);
      } else {
        assert Pending(log, sid, seqNo) == Pending(init, sid, seqNo)
               && Behind(log, sid, seqNo) == Behind(init, sid, seqNo);
      }
    }
  }

  lemma {:induction false} KeptMore(msgs: seq<Msg>, k: nat, m: nat, version: int)
    requires k + m <= |msgs|
    ensures Kept(msgs[..k + m], version) == Kept(msgs[..k], version) + Kept(msgs[k..k + m], version)
  {
    assert msgs[..k] + msgs[k..k + m] == msgs[..k + m];
    KeptJoins(msgs[..k], msgs[k..k + m], version);
  }

  lemma {:induction false} BatchShape(msgs: seq<Msg>, done: nat, later: seq<Msg>, batch: seq<Msg>) returns (m: nat)
    requires InOrder(msgs) && done < |msgs|
    requires batch <= msgs[done..] + later && batch != []
    requires forall i :: 0 <= i < |later| ==> later[i].seqNo > msgs[|msgs| - 1].seqNo
    ensures 0 < m <= |batch| && m <= |msgs| - done && batch[..m] == msgs[done..done + m]
    ensures var cutoff := msgs[|msgs| - 1].seqNo;
            && (forall j :: 0 <= j < |batch| ==> (batch[j].seqNo <= cutoff <==> j < m))
            && ((exists j :: 0 <= j < |batch| && batch[j].seqNo >= cutoff) <==> done + m == |msgs|)
            && (done + m < |msgs| ==> m == |batch|)
  {
    m := if |batch| <= |msgs| - done then |batch| else |msgs| - done;
    forall j | 0 <= j < |batch| ensures batch[j] == if j < m then msgs[done + j] else later[j - m] {
      assert batch[j] == (msgs[done..] + later)[j];
    }
    if done + m == |msgs| {
      assert batch[m - 1].seqNo >= msgs[|msgs| - 1].seqNo;
    }
  }

  class JetStream<S(==)> {
    const apply: (S, Event) -> S
    const blank: S
    /** No lookup, fetch or put ever fails. */
    const reliable: bool
    /** Nobody else appends or saves. */
    const quiet: bool
    var log: seq<Msg>
    var kv: map<string, Record<S>>

    constructor (apply: (S, Event) -> S, blank: S, reliable: bool, quiet: bool)
      ensures Valid() && log == [] && kv == map[]
      ensures this.apply == apply && this.blank == blank && this.reliable == reliable && this.quiet == quiet
    {
      this.apply, this.blank, this.reliable, this.quiet := apply, blank, reliable, quiet;
      log, kv := [], map[];
    }

    predicate Usable(record: Record<S>) {
      record.Record? && record.version > 0 && record.seqNo > 0
    }

    /** A record that says what the log said when it was saved. */
    ghost predicate Good(sid: string, record: Record<S>)
      reads this
    {
      Usable(record) ==>
        && record.version <= |Stream(log, sid)|
        && Anchored(log, sid, record.version, record.seqNo)
        && record.payload == StateAt(apply, blank, log, sid, record.version)
    }

    ghost predicate Valid()
      reads this
    {
      && Ordered(log)
      && (forall sid :: Numbered(Stream(log, sid)))
      && (forall sid :: sid in kv ==> Good(sid, kv[sid]))
    }

    /** Other writers append and save; the log only grows. */
    method Elsewhere()
      requires Valid()
      modifies this
      ensures Valid() && old(log) <= log
      ensures quiet ==> unchanged(this)
    {
    }

    /** The stream's snapshot, as far as the bucket has one that can be used. */
    predicate HasSnapshot(sid: string)
      reads `kv
    {
      sid in kv && Usable(kv[sid])
    }

    method Fault() returns (fails: bool)
      ensures reliable ==> !fails
    {
      fails := *;
      if reliable {
        fails := false;
      }
    }

    /** The server's subject index: the aggregate's newest message. */
    method LastMsgForSubject(sid: string) returns (last: Msg, found: bool)
      ensures found <==> Pending(log, sid, 0) != []
      ensures found ==> last == Pending(log, sid, 0)[|Pending(log, sid, 0)| - 1]
      requires Ordered(log)
    {
      found := false;
      last := Msg(0, Event("", "", "", 0));
      for i := 0 to |log|
        invariant found <==> Pending(log[..i], sid, 0) != []
        invariant found ==> last == Pending(log[..i], sid, 0)[|Pending(log[..i], sid, 0)| - 1]
      {
        assert log[..i + 1][..i] == log[..i];
        if log[i].e.streamID == sid {
          last, found := log[i], true;
        }
      }
      assert log[..|log|] == log;
    }

    /** One fetch of the consumer behind `seqNo`: something, if there is anything. */
    method FetchNoWait(sid: string, seqNo: int) returns (batch: seq<Msg>)
      ensures |batch| <= FETCH_BATCH_SIZE && batch <= Pending(log, sid, seqNo)
      ensures batch == [] ==> Pending(log, sid, seqNo) == []
    {
      var all := Pending(log, sid, seqNo);
      var n: nat := *;
      n := if 0 < n <= |all| && n <= FETCH_BATCH_SIZE then n
           else if |all| <= FETCH_BATCH_SIZE then |all| else FETCH_BATCH_SIZE;
      batch := all[..n];
    }

    /** The loop over one batch: `m` of its messages are at or below the cutoff. */
    method TakeBatch(batch: seq<Msg>, cutoff: int, after: int, ghost m: nat)
      returns (taken: seq<Event>, got: nat, reachedCutoff: bool)
      requires m <= |batch| && forall j :: 0 <= j < |batch| ==> (batch[j].seqNo <= cutoff <==> j < m)
      ensures taken == Kept(batch[..m], after) && got == m
      ensures reachedCutoff <==> exists j :: 0 <= j < |batch| && batch[j].seqNo >= cutoff
    {
      taken, got, reachedCutoff := [], 0, false;
      for j := 0 to |batch|
        invariant got == if j <= m then j else m
        invariant taken == Kept(batch[..got], after)
        invariant reachedCutoff <==> exists i :: 0 <= i < j && batch[i].seqNo >= cutoff
      {
        if batch[j].seqNo > cutoff {
          reachedCutoff := true;
        } else {
          assert batch[..j + 1][..j] == batch[..j];
          if batch[j].e.version > after {
            taken := taken + [batch[j].e];
          }
          got := got + 1;
          if batch[j].seqNo == cutoff {
            reachedCutoff := true;
          }
        }
      }
    }

    /** Where the consumer stands after delivering `done` of the messages. */
    ghost function Position(msgs: seq<Msg>, done: nat, afterSeq: int): int
      requires done <= |msgs|
    {
      if done == 0 then afterSeq else msgs[done - 1].seqNo
    }

    /** One fetch and its batch. */
    method DrainBatch(sid: string, after: int, seqNo: int, cutoff: int, ghost msgs: seq<Msg>, ghost later: seq<Msg>,
        ghost done: nat)
      returns (taken: seq<Event>, behind: int, draining: bool, ghost m: nat)
      requires InOrder(msgs) && done < |msgs| && msgs[|msgs| - 1].seqNo == cutoff
      requires Pending(log, sid, seqNo) == msgs[done..] + later
      requires forall i :: 0 <= i < |later| ==> later[i].seqNo > cutoff
      ensures 0 < m && done + m <= |msgs|
      ensures taken == Kept(msgs[done..done + m], after)
      ensures draining <==> done + m < |msgs|
      ensures draining ==> behind == msgs[done + m - 1].seqNo
    {
      var batch := FetchNoWait(sid, seqNo);
      m := BatchShape(msgs, done, later, batch);
      var got, reachedCutoff;
      taken, got, reachedCutoff := TakeBatch(batch, cutoff, after, m);
      draining := !(reachedCutoff || got == 0);
      behind := batch[|batch| - 1].seqNo;
      assert draining ==> batch[..m][m - 1] == msgs[done..done + m][m - 1];
    }

    /** One round of the fetch loop. */
    method DrainStep(sid: string, after: int, afterSeq: int, seqNo: int, cutoff: int, ghost at: seq<Msg>,
        ghost msgs: seq<Msg>, ghost done: nat)
      returns (taken: seq<Event>, behind: int, draining: bool, ghost m: nat, ok: bool)
      requires Valid() && at <= log && msgs == Pending(at, sid, afterSeq) && InOrder(msgs)
      requires done < |msgs| && msgs[|msgs| - 1].seqNo == cutoff && seqNo == Position(msgs, done, afterSeq)
      modifies this
      ensures Valid() && old(log) <= log && (reliable ==> ok) && (quiet ==> unchanged(this))
      ensures ok ==> 0 < m && done + m <= |msgs|
      ensures ok ==> taken == Kept(msgs[done..done + m], after) && (draining <==> done + m < |msgs|)
      ensures ok && draining ==> behind == Position(msgs, done + m, afterSeq)
    {
      Elsewhere();
      var fails := Fault();
      if fails {
        return [], 0, false, 0, false;
      }
      ghost var later := StillPending(at, log, sid, afterSeq, done);
      taken, behind, draining, m := DrainBatch(sid, after, seqNo, cutoff, msgs, later, done);
      ok := true;
    }

    /** The fetch loop: everything that was pending when the tip was read,
        and nothing that arrived later. */
    method Drain(sid: string, after: int, afterSeq: int, cutoff: int, ghost at: seq<Msg>, ghost msgs: seq<Msg>)
      returns (out: seq<Event>, ok: bool)
      requires Valid() && at <= log && msgs == Pending(at, sid, afterSeq) && InOrder(msgs)
      requires msgs != [] && msgs[|msgs| - 1].seqNo == cutoff
      modifies this
      ensures Valid() && old(log) <= log && (reliable ==> ok) && (quiet ==> unchanged(this))
      ensures ok ==> out == Kept(msgs, after)
    {
      ghost var done := 0;
      var seqNo, draining := afterSeq, true;
      out := [];
      while draining
        invariant Valid() && old(log) <= log && (quiet ==> unchanged(this))
        invariant done <= |msgs| && (draining <==> done < |msgs|)
        invariant draining ==> seqNo == Position(msgs, done, afterSeq)
        invariant out == Kept(msgs[..done], after)
        decreases |msgs| - done
      {
        var taken;
        ghost var m;
        taken, seqNo, draining, m, ok := DrainStep(sid, after, afterSeq, seqNo, cutoff, at, msgs, done);
        if !ok {
          return;
        }
        KeptMore(msgs, done, m, after);
        out := out + taken;
        done := done + m;
      }
      assert msgs[..done] == msgs;
      ok := true;
    }

    // -------------------------------------------------------------- loading

    /** What a load may rely on: the tail behind `afterSeq` is the tail above `after`. */
    ghost predicate Trusted(sid: string, after: int, afterSeq: int)
      reads this
    {
      after >= 0 && if afterSeq == 0 then true else Anchored(log, sid, after, afterSeq)
    }

    /** The events above `after`, as of the log `at` in which the tip was read. */
    method LoadSince(sid: string, after: int, afterSeq: int) returns (r: Result<seq<Event>>, ghost at: seq<Msg>)
      requires Valid() && Trusted(sid, after, afterSeq)
      modifies this
      ensures Valid() && old(log) <= at <= log
      ensures r.Ok? ==> after <= |Stream(at, sid)| && r.value == Newer(Stream(at, sid), after)
      ensures reliable ==> (r.Err? <==> |Stream(at, sid)| < after)
      ensures quiet ==> unchanged(this)
    {
      at := log;
      var fails := Fault();
      if fails {
        return Err, at;
      }
      var last, found := LastMsgForSubject(sid);
      TipOfStream(log, sid);
      if !found {
        return if after > 0 then Err else Ok([]), at;
      }
      if last.e.version < after {
        return Err, at;
      }
      if last.e.version == after {
        NewerIsSlice(Stream(log, sid), after);
        return Ok([]), at;
      }
      if last.e.version == after + 1 && last.e.streamID == sid {
        NewerIsSlice(Stream(log, sid), after);
        return Ok([last.e]), at;
      }
      var out, ok := LoadTail(sid, after, afterSeq, last);
      r := if ok then Ok(out) else Err;
    }

    /** The tail is longer than one event: fetch it. */
    method LoadTail(sid: string, after: nat, afterSeq: int, last: Msg) returns (out: seq<Event>, ok: bool)
      requires Valid() && Trusted(sid, after, afterSeq) && |Stream(log, sid)| > after
      requires var all := Pending(log, sid, 0); all != [] && all[|all| - 1] == last
      modifies this
      ensures Valid() && old(log) <= log && (reliable ==> ok) && (quiet ==> unchanged(this))
      ensures ok ==> out == Newer(Stream(old(log), sid), after)
    {
      if afterSeq == 0 {
        AllMessages(log, sid, after);
      } else {
        AnchoredMessages(log, sid, after, afterSeq);
      }
      ghost var msgs := Pending(log, sid, afterSeq);
      out, ok := Drain(sid, after, afterSeq, last.seqNo, log, msgs);
    }

    // ------------------------------------------------------------ snapshots

    /** Anchor to the tip, if the tip is the snapshot's version. Others may
        append and save between the lookup and the put. */
    method SaveSnapshot(sid: string, streamType: string, version: int, payload: S)
      returns (r: Saved, ghost at: seq<Msg>)
      requires Valid()
      requires version > 0 ==> version <= |Stream(log, sid)| && payload == StateAt(apply, blank, log, sid, version)
      modifies this
      ensures Valid() && old(log) <= at <= log
      ensures r.Stored? ==> HasSnapshot(sid) && kv[sid].streamType == streamType
      ensures r.Stored? ==> kv[sid].version == version && kv[sid].payload == payload
      ensures r.Stored? ==> |Stream(at, sid)| == version
      ensures r.Skipped? ==> |Stream(at, sid)| != version
      ensures reliable ==> (r.Refused? <==> sid == "" || streamType == "" || version <= 0)
      ensures quiet ==> log == old(log) && kv == if r.Stored? then old(kv)[sid := kv[sid]] else old(kv)
    {
      at := log;
      if sid == "" || streamType == "" || version <= 0 {
        return Refused, at;
      }
      ghost var first := log;
      Elsewhere();
      at := log;
      StateSurvives(apply, blank, first, at, sid, version);
      var fails := Fault();
      var tip, seqNo, found := TipFor(sid);
      if fails || !found {
        return Refused, at;
      }
      if tip != version {
        return Skipped, at;
      }
      Elsewhere();
      GoodSurvives(apply, blank, at, log, sid, version, seqNo);
      fails := Fault();
      if fails {
        return Refused, at;
      }
      Put(sid, Record(streamType, version, seqNo, payload));
      r := Saved.Stored;
    }

    method TipFor(sid: string) returns (version: int, seqNo: int, found: bool)
      requires Ordered(log) && Numbered(Stream(log, sid))
      ensures found <==> Stream(log, sid) != []
      ensures found ==> version == |Stream(log, sid)| && Anchored(log, sid, version, seqNo) && seqNo > 0
    {
      var last;
      last, found := LastMsgForSubject(sid);
      TipOfStream(log, sid);
      if found {
        TipIsAnchor(log, sid);
        AnchorIsPositive(log, sid, last.e.version, last.seqNo);
      }
      version, seqNo := last.e.version, last.seqNo;
    }

    method Put(sid: string, record: Record<S>)
      requires Valid() && Good(sid, record)
      modifies `kv
      ensures Valid() && kv == old(kv)[sid := record]
    {
      kv := kv[sid := record];
    }

    /** A record that is missing or cannot be used is no snapshot. */
    method LoadSnapshotRecord(sid: string) returns (record: Record<S>, ok: bool, failed: bool)
      ensures ok ==> sid in kv && record == kv[sid] && Usable(record)
      ensures !failed ==> (ok <==> sid in kv && Usable(kv[sid]))
      ensures failed ==> !ok && !reliable
    {
      record := Garbled;
      failed := Fault();
      ok := !failed && sid in kv && Usable(kv[sid]);
      if ok {
        record := kv[sid];
      }
    }

    /** Look the anchor up in the log: accepted exactly when the message under
        its sequence number is that version of that stream. */
    method CheckAnchor(sid: string, version: int, seqNo: int) returns (ok: bool)
      requires Ordered(log)
      ensures ok <==> Anchored(log, sid, version, seqNo)
    {
      for i := 0 to |log|
        invariant forall k :: 0 <= k < i ==> log[k].seqNo != seqNo
      {
        if log[i].seqNo == seqNo {
          return log[i].e.streamID == sid && log[i].e.version == version;
        }
      }
      ok := false;
    }

    method LoadSnapshot(sid: string) returns (f: Found<S>)
      requires Valid()
      modifies this
      ensures Valid() && old(log) <= log
      ensures f.Found? ==>
                && 0 < f.snap.version <= |Stream(log, sid)|
                && f.snap.payload == StateAt(apply, blank, log, sid, f.snap.version)
      ensures f.Found? ==>
                && old(HasSnapshot(sid))
                && var record := old(kv)[sid]; f.snap == Snapshot(record.streamType, record.version, record.payload)
      ensures reliable ==> (f.Found? <==> old(HasSnapshot(sid))) && !f.LoadError?
      ensures quiet ==> unchanged(this)
    {
      var record, ok, failed := LoadSnapshotRecord(sid);
      if !ok {
        return if failed then LoadError else NotFound;
      }
      ghost var first := log;
      Elsewhere();
      GoodSurvives(apply, blank, first, log, sid, record.version, record.seqNo);
      var fails := Fault();
      if fails {
        return LoadError;
      }
      ok := CheckAnchor(sid, record.version, record.seqNo);
      f := if ok then Found(Snapshot(record.streamType, record.version, record.payload)) else NotFound;
    }

    method LoadAfter(sid: string, after: nat) returns (r: Result<seq<Event>>, ghost at: seq<Msg>)
      requires Valid()
      modifies this
      ensures Valid() && old(log) <= at <= log
      ensures r.Ok? ==> after <= |Stream(at, sid)| && r.value == Stream(at, sid)[after..]
      ensures reliable ==> (r.Err? <==> |Stream(at, sid)| < after)
      ensures quiet ==> unchanged(this)
    {
      var afterSeq := 0;
      if after > 0 {
        var record, ok, _ := LoadSnapshotRecord(sid);
        if ok && record.version == after {
          afterSeq := record.seqNo;
        }
      }
      r, at := LoadSince(sid, after, afterSeq);
      NumberedPrefix(log, at, sid);
      NewerIsSlice(Stream(at, sid), after);
      if r.Ok? && |r.value| > 0 && r.value[0].version != after + 1 {
        r := Err;
      }
    }

    // ------------------------------------------------- loading an aggregate

    method ReplayOnto(start: S, events: seq<Event>) returns (state: S)
      ensures state == Replay(apply, start, events)
    {
      state := start;
      for i := 0 to |events|
        invariant state == Replay(apply, start, events[..i])
      {
        assert events[..i + 1][..i] == events[..i];
        state := apply(state, events[i]);
      }
      assert events[..|events|] == events;
    }

    /** The snapshot path: the freeze-frame, unless it is of another type, then
        the tail. `missing`: there was no snapshot to use. When nothing fails it
        succeeds exactly on a snapshot of the right type. */
    method LoadFromSnapshot(sid: string, streamType: string) returns (r: Result<S>, missing: bool, ghost at: seq<Msg>)
      requires Valid()
      modifies this
      ensures Valid() && old(log) <= at <= log
      ensures r.Ok? ==> Stream(at, sid) != [] && r.value == Replay(apply, blank, Stream(at, sid)) && !missing
      ensures r.Ok? ==> old(HasSnapshot(sid)) && old(kv)[sid].streamType in {"", streamType}
      ensures reliable ==> (missing <==> !old(HasSnapshot(sid)))
      ensures reliable ==> (r.Ok? <==> old(HasSnapshot(sid)) && old(kv)[sid].streamType in {"", streamType})
      ensures quiet ==> unchanged(this)
    {
      at, missing := log, false;
      var f := LoadSnapshot(sid);
      if !f.Found? {
        return Err, f.NotFound?, at;
      }
      if f.snap.streamType != "" && f.snap.streamType != streamType {
        return Err, false, at;
      }
      ghost var first, version := log, f.snap.version;
      var tail;
      tail, at := LoadAfter(sid, f.snap.version);
      StateSurvives(apply, blank, first, at, sid, version);
      if tail.Err? {
        return Err, false, at;
      }
      ghost var stream := Stream(at, sid);
      assert stream == stream[..version] + stream[version..];
      ReplayJoins(apply, blank, stream[..version], stream[version..]);
      var state := ReplayOnto(f.snap.payload, tail.value);
      r := Ok(state);
    }

    /** Replay the stream from its beginning, as it stands when its tip is read. */
    method LoadInFull(sid: string) returns (r: Result<S>, version: int, ghost at: seq<Msg>)
      requires Valid()
      modifies this
      ensures Valid() && old(log) <= at <= log
      ensures r.Ok? ==> r.value == Replay(apply, blank, Stream(at, sid)) && version == |Stream(at, sid)| > 0
      ensures reliable ==> (r.Err? <==> Stream(at, sid) == [])
      ensures quiet ==> unchanged(this)
    {
      var events;
      events, at := LoadSince(sid, 0, 0);
      NumberedPrefix(log, at, sid);
      NewerIsSlice(Stream(at, sid), 0);
      if events.Err? || |events.value| == 0 {
        return Err, 0, at;
      }
      var state := ReplayOnto(blank, events.value);
      r, version := Ok(state), |events.value|;
    }

    /** With or without a snapshot, whatever was appended and saved meanwhile:
        the loaded state is the full replay of the stream as it stood at some
        moment of the call. A long stream without a snapshot gets one, of that
        state; nothing else is saved. */
    method Load(sid: string, streamType: string) returns (r: Result<S>, ghost at: seq<Msg>)
      requires Valid()
      modifies this
      ensures Valid() && old(log) <= at <= log
      ensures r.Ok? ==> r.value == Replay(apply, blank, Stream(at, sid))
      ensures reliable ==> (r.Err? <==> Stream(at, sid) == [])
      ensures reliable && quiet && !old(HasSnapshot(sid)) && |Stream(log, sid)| >= 200 && sid != ""
              && streamType != "" ==>
                HasSnapshot(sid) && kv == old(kv)[sid := kv[sid]] && kv[sid].streamType == streamType
                && kv[sid].version == |Stream(log, sid)| && r == Ok(kv[sid].payload)
      ensures quiet ==>
                log == old(log)
                && (kv == old(kv) || (|Stream(log, sid)| >= 200 && sid in kv && kv == old(kv)[sid := kv[sid]]))
      ensures reliable && quiet && old(HasSnapshot(sid)) ==> kv == old(kv)
    {
      var missing;
      r, missing, at := LoadFromSnapshot(sid, streamType);
      if r.Ok? {
        return;
      }
      var version;
      r, version, at := LoadInFull(sid);
      assert quiet ==> at == log;
      if r.Ok? && missing && version >= SNAPSHOT_INTERVAL {
        Heal(sid, streamType, version, r.value, at);
      }
    }

    /** Save the state of a stream that was replayed in full. */
    method Heal(sid: string, streamType: string, version: int, state: S, ghost at: seq<Msg>)
      requires Valid() && at <= log && version == |Stream(at, sid)| > 0
      requires state == Replay(apply, blank, Stream(at, sid))
      modifies this
      ensures Valid() && old(log) <= log
      ensures quiet ==> log == old(log) && (kv == old(kv) || (sid in kv && kv == old(kv)[sid := kv[sid]]))
      ensures reliable && quiet && at == log && sid != "" && streamType != "" ==>
                HasSnapshot(sid) && kv == old(kv)[sid := kv[sid]] && kv[sid].streamType == streamType
                && kv[sid].version == version && kv[sid].payload == state
    {
      assert Stream(at, sid)[..version] == Stream(at, sid);
      StateSurvives(apply, blank, at, log, sid, version);
      var saved;
      ghost var tip;
      saved, tip := SaveSnapshot(sid, streamType, version, state);
      assert quiet ==> tip == log;
    }
  }

  lemma {:induction false} AllMessages(log: seq<Msg>, sid: string, after: int)
    requires Ordered(log)
    ensures Kept(Pending(log, sid, 0), after) == Newer(Stream(log, sid), after)
    ensures InOrder(Pending(log, sid, 0))
  {
    PendingOrdered(log, sid, 0);
    KeptIsNewer(log, sid, 0, after);
    BehindNothing(log, sid);
  }

  lemma {:induction false} AnchoredMessages(log: seq<Msg>, sid: string, after: nat, afterSeq: int)
    requires Ordered(log) && Numbered(Stream(log, sid)) && Anchored(log, sid, after, afterSeq)
    requires |Stream(log, sid)| > after
    ensures var msgs, all := Pending(log, sid, afterSeq), Pending(log, sid, 0);
            && Kept(msgs, after) == Newer(Stream(log, sid), after)
            && InOrder(msgs) && msgs != [] && all != [] && msgs[|msgs| - 1] == all[|all| - 1]
  {
    PendingOrdered(log, sid, afterSeq);
    KeptIsNewer(log, sid, afterSeq, after);
    AnchorIsPositive(log, sid, after, afterSeq);
    AnchoredTail(log, sid, after, afterSeq);
    NewerTwice(Stream(log, sid), after);
    NewerIsSlice(Stream(log, sid), after);
    SameLength(log, sid, afterSeq);
    SameTip(log, sid, afterSeq);
  }

  lemma {:induction false} AnchorIsPositive(log: seq<Msg>, sid: string, version: int, seqNo: int)
    requires Ordered(log) && Anchored(log, sid, version, seqNo)
    ensures seqNo > 0
  {
  }

  lemma {:induction false} SameLength(log: seq<Msg>, sid: string, seqNo: int)
    ensures |Pending(log, sid, seqNo)| == |Behind(log, sid, seqNo)|
  {
    if log == [] {
    } else {
      SameLength(log[..|log| - 1], sid, seqNo);
    }
  }

  /** In a numbered stream the newest message carries the length as its version. */
  lemma {:induction false} TipOfStream(log: seq<Msg>, sid: string)
    requires Ordered(log) && Numbered(Stream(log, sid))
    ensures var all := Pending(log, sid, 0);
            && |all| == |Stream(log, sid)|
            && (all != [] ==> all[|all| - 1].e == Stream(log, sid)[|all| - 1] && all[|all| - 1].e.version == |all|
                              && all[|all| - 1].e.streamID == sid)
  {
    BehindNothing(log, sid);
    if Pending(log, sid, 0) != [] {
      var k := PendingIsFrom(log, sid, 0, |Pending(log, sid, 0)| - 1);
    }
  }

  lemma {:induction false} BehindNothing(log: seq<Msg>, sid: string)
    requires forall i :: 0 <= i < |log| ==> 0 < log[i].seqNo
    ensures |Pending(log, sid, 0)| == |Stream(log, sid)|
    ensures forall i :: 0 <= i < |Stream(log, sid)| ==> Pending(log, sid, 0)[i].e == Stream(log, sid)[i]
    ensures Behind(log, sid, 0) == Stream(log, sid)
  {
    if log == [] {
    } else {
      BehindNothing(log[..|log| - 1], sid);
    }
  }

  lemma {:induction false} StateSurvives<S>(apply: (S, Event) -> S, blank: S, log: seq<Msg>, later: seq<Msg>,
      sid: string, version: nat)
    requires log <= later && version <= |Stream(log, sid)|
    ensures version <= |Stream(later, sid)|
    ensures StateAt(apply, blank, later, sid, version) == StateAt(apply, blank, log, sid, version)
  {
    assert later == log + later[|log|..];
    StreamJoins(log, later[|log|..], sid);
    assert Stream(later, sid)[..version] == Stream(log, sid)[..version];
  }

  lemma {:induction false} GoodSurvives<S>(apply: (S, Event) -> S, blank: S, log: seq<Msg>, later: seq<Msg>,
      sid: string, version: nat, seqNo: int)
    requires log <= later && version <= |Stream(log, sid)| && Anchored(log, sid, version, seqNo)
    ensures version <= |Stream(later, sid)| && Anchored(later, sid, version, seqNo)
    ensures StateAt(apply, blank, later, sid, version) == StateAt(apply, blank, log, sid, version)
  {
    assert later == log + later[|log|..];
    GrowthKeepsAnchor(apply, blank, log, later[|log|..], sid, version, seqNo);
  }

  lemma {:induction false} TipIsAnchor(log: seq<Msg>, sid: string)
    requires Pending(log, sid, 0) != []
    ensures var last := Pending(log, sid, 0)[|Pending(log, sid, 0)| - 1]; Anchored(log, sid, last.e.version, last.seqNo)
  {
    var k := PendingIsFrom(log, sid, 0, |Pending(log, sid, 0)| - 1);
  }

  lemma {:induction false} NumberedPrefix(log: seq<Msg>, at: seq<Msg>, sid: string)
    requires at <= log && Numbered(Stream(log, sid))
    ensures Numbered(Stream(at, sid))
  {
    assert log[..|at|] == at;
    PrefixStream(log, |at|, sid);
  }
}
