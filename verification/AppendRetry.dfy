/** AppendWithRetry and JetStreamStore.Append as they are written: loops over a
    shared broker that other writers use between any two of their steps. Every
    broker interaction is one step of the protocol, so the calls' guarantees are
    the protocol's. */
module AppendRetry {
  import opened EventStore
  import opened AppendProtocol
  import opened AppendGuarantees
  import opened AppendVerdicts
  import opened AppendOutcomes

  /** How one reconciliation ends: return, or go on from `base` with `tail`. */
  datatype Step = Stop(result: Result) | Resume(base: int, tail: seq<Event>)

  /** The error of the checks before the first publish. */
  function FirstError(sid: string, log: seq<Event>, base: int, remaining: seq<Event>, readFault: bool): Failure
    requires |remaining| > 0
  {
    var invalid := Validate(sid, base, remaining);
    if invalid != {} then invalid
    else if readFault then {Other}
    else if TipVersion(log) != base then {Conflict}
    else if log != [] && log[|log| - 1].streamType != "" && log[|log| - 1].streamType != remaining[0].streamType
    then {Other}
    else {}
  }

  lemma {:induction false} ChecksAreStep(s: System, w: nat, readFault: bool)
    requires Enabled(s, BeginAppend(w, readFault))
    ensures var c, c' := s.calls[w], Apply(s, BeginAppend(w, readFault)).calls[w];
            var err, next := FirstError(s.sid, s.log, c.base, c.events[c.skipped..], readFault),
                             c.(attempts := c.attempts + 1);
            c' == if err == {} then next.(pc := Publishing(0, |s.log|)) else AfterFailure(next, err)
  {
  }

  /** The error of a publish, by what became of it. */
  function ErrorOf(fate: PublishFate, verdict: Verdict): Failure {
    match fate
    case Acked(_) => if verdict.WrongLast? then {Conflict} else {}
    case Rejected => {Other}
    case _ => {Indeterminate}
  }

  function PositionOf(verdict: Verdict, end: nat): int {
    match verdict
    case Duplicate(position) => position
    case _ => end + 1
  }

  lemma {:induction false} AnswerIsStep(s: System, w: nat, fate: PublishFate)
    requires Enabled(s, Publish(w, fate))
    ensures var c, c' := s.calls[w], Apply(s, Publish(w, fate)).calls[w];
            var verdict := Judge(s.log, NextTicket(w, c).p, fate.Acked? && fate.window);
            var err := ErrorOf(fate, verdict);
            c' == if err == {} then Acknowledged(c, PositionOf(verdict, |s.log|)) else AfterFailure(c, err)
  {
  }

  /** An answer that does not reject keeps a sound batch on track, and an
      acknowledgement at the tip is one at the new tip. */
  lemma {:induction false} CalmAnswer(s: System, w: nat, fate: PublishFate)
    requires Reachable(s) && Enabled(s, Publish(w, fate)) && !fate.Rejected?
    requires Sound(s, s.calls[w]) && OnTrack(s.log, s.calls[w].events)
    ensures var s' := Apply(s, Publish(w, fate));
            && w in s'.calls && Sound(s', s'.calls[w]) && OnTrack(s'.log, s'.calls[w].events)
            && (s.calls[w].pc.anchor == |s.log| && fate.Acked? ==>
                  Judge(s.log, NextTicket(w, s.calls[w]).p, fate.window).Stored? && |s'.log| == |s.log| + 1)
  {
    StoredKeepsTrack(s, w, fate);
    if s.calls[w].pc.anchor == |s.log| && fate.Acked? {
      AnchoredIsStored(s, w, fate.window);
    }
  }

  class Broker {
    var sys: System
    ghost var history: seq<Action>
    /** No read of the tip, load or context fails, and no publish is rejected. */
    const steady: bool
    /** Nobody else writes. */
    const quiet: bool
    /** How many more upsets a steady and quiet broker has in store: publishes
        that lose their acknowledgement or time out, and timed-out ones that land. */
    var upsets: nat

    ghost predicate Valid()
      reads this
    {
      RunsFrom(Init(sys.sid), history) && After(Init(sys.sid), history) == sys
    }

    constructor (sid: string, steady: bool, quiet: bool, upsets: nat)
      ensures Valid() && sys == Init(sid) && history == []
      ensures this.steady == steady && this.quiet == quiet && this.upsets == upsets
    {
      sys := Init(sid);
      history := [];
      this.steady, this.quiet, this.upsets := steady, quiet, upsets;
    }

    /** Nothing upsets a call with this batch more than it can take. */
    ghost predicate Calm(expected: int, events: seq<Event>)
      reads this
    {
      && steady && quiet && Consecutive(expected, events) && OneKind(sys.sid, sys.log, events)
      && upsets + (if expected == |sys.log| then 0 else 1) <= 4
    }

    /** Call `w` of a steady and quiet broker carries a sound batch. */
    ghost predicate Settled(w: nat)
      reads this
    {
      steady && quiet && w in sys.calls && Sound(sys, sys.calls[w])
    }

    lemma SysIsReachable()
      requires Valid()
      ensures Reachable(sys)
    {
      assert RunsFrom(Init(sys.sid), history);
    }

    /** One atomic interaction. */
    method Do(a: Action)
      requires Valid() && Enabled(sys, a)
      modifies `sys, `history
      ensures Valid() && history == old(history) + [a] && sys == Apply(old(sys), a)
    {
      ghost var before := history;
      sys := Apply(sys, a);
      history := history + [a];
      assert history[..|history| - 1] == before;
    }

    /** Anything the rest of the world does: this body does nothing, but callers
        only know that the run went on and that call `w` did not move. At a quiet
        broker only late publishes of the call itself land. */
    method Elsewhere(w: nat)
      requires Valid()
      modifies this
      ensures Valid() && old(history) <= history && sys.sid == old(sys.sid)
      ensures w in sys.calls <==> w in old(sys.calls)
      ensures w in sys.calls ==> sys.calls[w] == old(sys.calls[w])
      ensures quiet ==> OnlyLate(old(sys), sys, w, old(upsets), upsets)
    {
    }

    /** The same, for a call at a steady and quiet broker. */
    method Meanwhile(w: nat)
      requires Valid() && w in sys.calls
      modifies this
      ensures Valid() && old(history) <= history && sys.sid == old(sys.sid)
      ensures w in sys.calls && sys.calls[w] == old(sys.calls[w])
      ensures old(Settled(w)) ==>
                && Settled(w) && upsets <= old(upsets) && |old(sys.log)| <= |sys.log|
                && (OnTrack(sys.log, sys.calls[w].events) <==> OnTrack(old(sys.log), sys.calls[w].events))
                && (sys.log != old(sys.log) ==>
                      upsets < old(upsets) && |sys.log| > |old(sys.log)| && FitsTip(old(sys.log), sys.calls[w].events))
    {
      ghost var before, had := sys, upsets;
      SysIsReachable();
      Elsewhere(w);
      SysIsReachable();
      if steady && quiet && Sound(before, before.calls[w]) {
        LateKeepsTrack(before, sys, w, had, upsets);
      }
    }

    /** How the broker answers a publish. */
    method Answer() returns (fate: PublishFate)
      modifies `upsets
      ensures steady ==> !fate.Rejected? && (fate.Acked? ==> upsets == old(upsets))
      ensures steady && !fate.Acked? ==> upsets < old(upsets)
    {
      fate := *;
      if steady && (fate.Rejected? || upsets == 0) {
        fate := Acked(true);
      }
      if steady && !fate.Acked? {
        upsets := upsets - 1;
      }
    }

    /** The batch validation loop. */
    method ValidateBatch(base: int, events: seq<Event>) returns (fault: Failure)
      requires |events| > 0
      ensures fault == Validate(sys.sid, base, events)
    {
      if events[0].streamType == "" {
        return {Other};
      }
      for i := 0 to |events|
        invariant Validate(sys.sid, base, events) == ValidateFrom(sys.sid, base, events, i)
      {
        if Fault(sys.sid, base, events, i) != {} {
          return Fault(sys.sid, base, events, i);
        }
      }
      fault := {};
    }

    /** The store's Append: {} is success. On an error the call stands where the
        retry loop takes over. */
    method Append(w: nat, base: int, remaining: seq<Event>) returns (err: Failure)
      requires Valid() && w in sys.calls && sys.calls[w].pc.Ready?
      requires sys.calls[w].skipped < |sys.calls[w].events|
      requires base == sys.calls[w].base && remaining == sys.calls[w].events[sys.calls[w].skipped..]
      modifies this
      ensures Valid() && old(history) <= history && sys.sid == old(sys.sid) && w in sys.calls
      ensures var c := old(sys.calls[w]).(attempts := old(sys.calls[w]).attempts + 1);
              sys.calls[w] == if err == {} then c.(pc := Returned(Success)) else AfterFailure(c, err)
      ensures old(Settled(w)) ==>
                && Settled(w) && (err == {} || err == {Conflict} || err == {Indeterminate}) && upsets <= old(upsets)
                && (OnTrack(sys.log, sys.calls[w].events) <==> OnTrack(old(sys.log), sys.calls[w].events))
                && if base == |old(sys.log)|
                   then OnTrack(sys.log, sys.calls[w].events) && (err != {} ==> upsets < old(upsets))
                   else err == {Conflict} && sys.log == old(sys.log)
    {
      var anchor;
      err, anchor := CheckFirst(w, base, remaining);
      if err == {} {
        err := PublishAll(w, remaining, anchor);
      }
    }

    /** The part of Append before the first publish; {}: go on behind `anchor`. */
    method CheckFirst(w: nat, base: int, remaining: seq<Event>) returns (err: Failure, anchor: int)
      requires Valid() && w in sys.calls && sys.calls[w].pc.Ready?
      requires sys.calls[w].skipped < |sys.calls[w].events|
      requires base == sys.calls[w].base && remaining == sys.calls[w].events[sys.calls[w].skipped..]
      modifies this
      ensures Valid() && old(history) <= history && sys.sid == old(sys.sid) && w in sys.calls
      ensures sys.log == old(sys.log) && anchor == |sys.log| && upsets == old(upsets)
      ensures var c := old(sys.calls[w]).(attempts := old(sys.calls[w]).attempts + 1);
              sys.calls[w] == if err == {} then c.(pc := Publishing(0, anchor)) else AfterFailure(c, err)
      ensures old(Settled(w)) ==>
                && Settled(w) && err == (if base == anchor then {} else {Conflict})
                && (base == anchor ==> OnTrack(sys.log, sys.calls[w].events))
    {
      SysIsReachable();
      if Settled(w) {
        AttemptBegins(w);
      }
      var readFault: bool := *;
      readFault := readFault && !steady;
      ChecksAreStep(sys, w, readFault);
      err := RunChecks(base, remaining, readFault);
      anchor := |sys.log|;
      Do(BeginAppend(w, readFault));
    }

    /** The checks: the batch itself, the read of the tip, its version, its type. */
    method RunChecks(base: int, remaining: seq<Event>, readFault: bool) returns (err: Failure)
      requires |remaining| > 0
      ensures err == FirstError(sys.sid, sys.log, base, remaining, readFault)
    {
      err := ValidateBatch(base, remaining);
      if err != {} {
        return;
      }
      if readFault {
        return {Other};
      }
      if TipVersion(sys.log) != base {
        return {Conflict};
      }
      var kind := if sys.log == [] then "" else sys.log[|sys.log| - 1].streamType;
      if kind != "" && kind != remaining[0].streamType {
        return {Other};
      }
    }

    lemma AttemptBegins(w: nat)
      requires Valid() && Settled(w) && sys.calls[w].pc.Ready?
      ensures Enabled(sys, BeginAppend(w, false)) && TipVersion(sys.log) == |sys.log|
      ensures var c := sys.calls[w];
              && Validate(sys.sid, c.base, c.events[c.skipped..]) == {}
              && (sys.log != [] ==> sys.log[|sys.log| - 1].streamType == c.events[c.skipped].streamType)
              && (c.base == |sys.log| ==> FitsTip(sys.log, c.events))
    {
      SysIsReachable();
      ReadyAtTip(sys, w);
      var c := sys.calls[w];
      NothingInvalid(sys.sid, c.base, c.events[c.skipped..], 0);
      if c.base == |sys.log| {
        ReadyFits(sys, w);
      }
    }

    /** One publish: {} is an acknowledgement, at position `next`. */
    method PublishOne(w: nat, e: Event, anchor: int) returns (err: Failure, next: int)
      requires Valid() && Enabled(sys, Publish(w, Rejected)) && sys.calls[w].pc.anchor == anchor
      requires e == sys.calls[w].events[sys.calls[w].skipped + sys.calls[w].pc.i]
      modifies this
      ensures Valid() && old(history) <= history && sys.sid == old(sys.sid) && w in sys.calls
      ensures sys.calls[w] ==
                if err == {} then Acknowledged(old(sys.calls[w]), next) else AfterFailure(old(sys.calls[w]), err)
      ensures old(Settled(w) && OnTrack(sys.log, sys.calls[w].events)) ==>
                && Settled(w) && OnTrack(sys.log, sys.calls[w].events) && upsets <= old(upsets)
                && (err == {} || err == {Conflict} || err == {Indeterminate})
                && (anchor == |old(sys.log)| ==> if err == {} then next == |sys.log| else upsets < old(upsets))
    {
      var fate := Answer();
      SysIsReachable();
      AnswerIsStep(sys, w, fate);
      if Settled(w) && OnTrack(sys.log, sys.calls[w].events) {
        CalmAnswer(sys, w, fate);
      }
      var verdict := Judge(sys.log, Publication(e, anchor), fate.Acked? && fate.window);
      var end := |sys.log|;
      Do(Publish(w, fate));
      err, next := Understand(fate, verdict, end);
    }

    /** What the code makes of the broker's answer. */
    method Understand(fate: PublishFate, verdict: Verdict, end: nat) returns (err: Failure, next: int)
      ensures err == ErrorOf(fate, verdict) && (err == {} ==> next == PositionOf(verdict, end))
    {
      err, next := {}, 0;
      match fate {
        case Acked(_) =>
          match verdict {
            case Stored => next := end + 1;
            case Duplicate(position) => next := position;
            case WrongLast => err := {Conflict};
          }
        case AckLost(_) => err := {Indeterminate};
        case Delayed => err := {Indeterminate};
        case Rejected => err := {Other};
      }
    }

    /** Publish after publish, each anchored to the acknowledgement before it. */
    method PublishAll(w: nat, remaining: seq<Event>, first: int) returns (err: Failure)
      requires Valid() && w in sys.calls && sys.calls[w].pc == Publishing(0, first)
      requires sys.calls[w].skipped < |sys.calls[w].events|
      requires remaining == sys.calls[w].events[sys.calls[w].skipped..]
      modifies this
      ensures Valid() && old(history) <= history && sys.sid == old(sys.sid) && w in sys.calls
      ensures sys.calls[w] == if err == {} then old(sys.calls[w]).(pc := Returned(Success))
                              else AfterFailure(old(sys.calls[w]).(pc := sys.calls[w].pc), err)
      ensures old(Settled(w) && OnTrack(sys.log, sys.calls[w].events)) && first == |old(sys.log)| ==>
                && Settled(w) && OnTrack(sys.log, sys.calls[w].events) && upsets <= old(upsets)
                && (err == {} || err == {Conflict} || err == {Indeterminate}) && (err != {} ==> upsets < old(upsets))
    {
      ghost var c := sys.calls[w];
      ghost var calm := Settled(w) && OnTrack(sys.log, c.events) && first == |sys.log|;
      var anchor := first;
      var i := 0;
      while i < |remaining|
        invariant Valid() && old(history) <= history && sys.sid == old(sys.sid) && w in sys.calls
        invariant 0 <= i <= |remaining|
        invariant sys.calls[w] == c.(pc := if i == |remaining| then Returned(Success) else Publishing(i, anchor))
        invariant calm ==> Settled(w) && OnTrack(sys.log, c.events) && upsets <= old(upsets)
        invariant calm ==> anchor == |sys.log| || upsets < old(upsets)
        decreases |remaining| - i
      {
        Meanwhile(w);
        err, anchor := PublishOne(w, remaining[i], anchor);
        if err != {} {
          return err;
        }
        i := i + 1;
      }
      err := {};
    }

    /** The loops over the reloaded stream: which IDs are there, and the highest version. */
    method Scan(loaded: seq<Event>) returns (present: set<string>, maxVersion: int)
      ensures present == Ids(loaded) && maxVersion == MaxVersion(loaded)
    {
      present, maxVersion := {}, 0;
      for i := 0 to |loaded|
        invariant present == Ids(loaded[..i]) && maxVersion == MaxVersion(loaded[..i])
      {
        assert loaded[..i + 1][..i] == loaded[..i];
        assert Ids(loaded[..i + 1]) == Ids(loaded[..i]) + {loaded[i].id} by {
          forall id | id in Ids(loaded[..i]) ensures id in Ids(loaded[..i + 1]) {
            var j :| 0 <= j < i && loaded[..i][j].id == id;
            assert loaded[..i + 1][j].id == id;
          }
          assert loaded[..i + 1][i] == loaded[i];
          forall id | id in Ids(loaded[..i + 1]) ensures id in Ids(loaded[..i]) + {loaded[i].id} {
            var j :| 0 <= j < i + 1 && loaded[..i + 1][j].id == id;
            assert j < i ==> loaded[..i][j].id == id;
          }
        }
        present := present + {loaded[i].id};
        maxVersion := if loaded[i].version > maxVersion then loaded[i].version else maxVersion;
      }
      assert loaded[..|loaded|] == loaded;
    }

    method CountHead(remaining: seq<Event>, present: set<string>) returns (head: nat)
      ensures head == Head(remaining, present) <= |remaining|
    {
      head := 0;
      while head < |remaining|
        invariant head <= |remaining| && Head(remaining, present) == head + Head(remaining[head..], present)
      {
        if remaining[head].id !in present {
          break;
        }
        assert remaining[head..][1..] == remaining[head + 1..];
        head := head + 1;
      }
    }

    /** A new batch, or the same batch again after the call with it returned. */
    ghost predicate MaySubmit(w: nat, expected: int, events: seq<Event>)
      reads this
    {
      if w in sys.calls then
        sys.calls[w].pc.Returned? && sys.calls[w].expected == expected && sys.calls[w].events == events
      else Fresh(sys.minted, events)
    }

    /** The retry loop. */
    method AppendWithRetry(w: nat, expected: int, events: seq<Event>) returns (r: Result)
      requires Valid() && MaySubmit(w, expected, events)
      modifies this
      ensures Valid() && old(history) <= history && sys.sid == old(sys.sid)
      ensures w in sys.calls && sys.calls[w].expected == expected && sys.calls[w].events == events
      ensures sys.calls[w].pc == Returned(r)
      ensures r == Success && events != [] ==>
                0 <= expected && expected + |events| <= |sys.log| && sys.log[expected..expected + |events|] == events
      ensures r.Failed? ==>
                forall i, k :: 0 <= i < |sys.log| && Landed(sys.log, events) <= k < |events| ==>
                  sys.log[i].id != events[k].id
      ensures Appends(history, w) <= 5
      ensures events == [] ==> r == Success
      ensures old(Calm(expected, events)) ==>
                && (r == Success <==> old(OnTrack(sys.log, events)))
                && (r.Failed? ==> Conflict in r.what && sys.log == old(sys.log))
    {
      r := RunCall(w, expected, events);
      Conclude(w, r);
    }

    method RunCall(w: nat, expected: int, events: seq<Event>) returns (r: Result)
      requires Valid() && MaySubmit(w, expected, events)
      modifies this
      ensures Valid() && old(history) <= history && sys.sid == old(sys.sid)
      ensures w in sys.calls && sys.calls[w].expected == expected && sys.calls[w].events == events
      ensures sys.calls[w].pc == Returned(r)
      ensures events == [] ==> r == Success
      ensures old(Calm(expected, events)) ==>
                && (r == Success <==> old(OnTrack(sys.log, events)))
                && (r.Failed? ==> Conflict in r.what && sys.log == old(sys.log))
    {
      if w in sys.calls {
        Do(Resubmit(w));
      } else {
        Do(Start(w, expected, events));
      }
      if |events| == 0 {
        r := Success;
      } else {
        r := Retry(w, expected, events);
      }
    }

    method Retry(w: nat, expected: int, events: seq<Event>) returns (r: Result)
      requires Valid() && |events| > 0 && w in sys.calls && sys.calls[w] == NewCall(expected, events)
      modifies this
      ensures Valid() && old(history) <= history && sys.sid == old(sys.sid)
      ensures w in sys.calls && sys.calls[w].expected == expected && sys.calls[w].events == events
      ensures sys.calls[w].pc == Returned(r)
      ensures old(Calm(expected, events)) ==>
                && (r == Success <==> old(OnTrack(sys.log, events)))
                && (r.Failed? ==> Conflict in r.what && sys.log == old(sys.log))
    {
      ghost var start, budget := sys.log, upsets + if expected == |sys.log| then 0 else 1;
      ghost var calm := Calm(expected, events);
      var base, remaining := expected, events;
      var lastErr: Failure := {};
      for attempt := 0 to APPEND_RETRY_ATTEMPTS
        invariant Valid() && old(history) <= history && sys.sid == old(sys.sid)
        invariant w in sys.calls && sys.calls[w].expected == expected && sys.calls[w].events == events
        invariant sys.calls[w].attempts == attempt && sys.calls[w].skipped < |events|
        invariant base == sys.calls[w].base && remaining == events[sys.calls[w].skipped..]
        invariant sys.calls[w].pc == if attempt == APPEND_RETRY_ATTEMPTS then Returned(Failed(lastErr)) else Ready
        invariant calm ==> Undisturbed(w, attempt, start, budget)
      {
        Meanwhile(w);
        ghost var had := upsets;
        var err := Append(w, base, remaining);
        if err == {} {
          return Success;
        }
        if Conflict !in err && Indeterminate !in err {
          return Failed(err);
        }
        lastErr := err;
        Meanwhile(w);
        var step := Reload(w, base, remaining, lastErr);
        match step {
          case Stop(result) => return result;
          case Resume(version, tail) => base, remaining := version, tail;
        }
      }
      r := Failed(lastErr);
    }

    /** Between two attempts of an undisturbed call: every attempt so far cost
        an upset, but for a first one that did not expect the tip. */
    ghost predicate Undisturbed(w: nat, attempt: nat, start: seq<Event>, budget: nat)
      reads this
    {
      && Settled(w)
      && (OnTrack(sys.log, sys.calls[w].events) <==> OnTrack(start, sys.calls[w].events))
      && budget <= 4 && if attempt == 0
         then sys.log == start && sys.calls[w].base == sys.calls[w].expected
              && upsets + (if sys.calls[w].expected == |start| then 0 else 1) == budget
         else OnTrack(start, sys.calls[w].events) && sys.calls[w].base == |sys.log| && attempt + upsets <= budget
    }

    /** The body of the retry loop after a conflict or an unknown outcome. */
    method Reload(w: nat, base: int, remaining: seq<Event>, lastErr: Failure) returns (step: Step)
      requires Valid() && w in sys.calls && sys.calls[w].pc == Reconciling(lastErr)
      requires sys.calls[w].skipped < |sys.calls[w].events|
      requires base == sys.calls[w].base && remaining == sys.calls[w].events[sys.calls[w].skipped..]
      modifies this
      ensures Valid() && old(history) <= history && sys.sid == old(sys.sid) && w in sys.calls
      ensures Reloaded(old(sys.calls[w]), sys.calls[w], step, lastErr)
      ensures old(Settled(w)) ==>
                && Settled(w) && sys.log == old(sys.log) && upsets == old(upsets)
                && if Landed(sys.log, sys.calls[w].events) == |sys.calls[w].events| then step == Stop(Success)
                   else if FitsTip(sys.log, sys.calls[w].events) then step.Resume? && step.base == |sys.log|
                   else step == Stop(Failed({Conflict} + lastErr))
    {
      ghost var c := sys.calls[w];
      var contextDead: bool := *;
      if contextDead && !steady {
        Do(Reconcile(w, ContextDead));
        return Stop(Failed(lastErr + {Canceled}));
      }
      var loadFault: bool := *;
      if loadFault && !steady {
        Do(Reconcile(w, LoadFault));
        return Stop(Failed(lastErr + {LoadFailed}));
      }
      step := ReadBack(w, base, remaining, lastErr);
    }

    /** The reconciliation proper. */
    method ReadBack(w: nat, base: int, remaining: seq<Event>, lastErr: Failure) returns (step: Step)
      requires Valid() && w in sys.calls && sys.calls[w].pc == Reconciling(lastErr)
      requires sys.calls[w].skipped < |sys.calls[w].events|
      requires base == sys.calls[w].base && remaining == sys.calls[w].events[sys.calls[w].skipped..]
      modifies this
      ensures Valid() && old(history) <= history && sys.sid == old(sys.sid) && w in sys.calls
      ensures Reloaded(old(sys.calls[w]), sys.calls[w], step, lastErr)
      ensures old(Settled(w)) ==>
                && Settled(w) && sys.log == old(sys.log) && upsets == old(upsets)
                && if Landed(sys.log, sys.calls[w].events) == |sys.calls[w].events| then step == Stop(Success)
                   else if FitsTip(sys.log, sys.calls[w].events) then step.Resume? && step.base == |sys.log|
                   else step == Stop(Failed({Conflict} + lastErr))
    {
      ghost var c := sys.calls[w];
      var head, maxVersion := Load(w, remaining);
      step := NextStep(base, remaining, head, maxVersion, lastErr);
      StepIsDecision(c, head, maxVersion, step);
      if Settled(w) && c.skipped + head == Landed(sys.log, c.events) && maxVersion == |sys.log|
         && c.base == c.expected + c.skipped {
        StepOnTrack(sys.log, c, head, step);
      }
    }

    /** Load the stream, scan it, and count what it has of the batch. */
    method Load(w: nat, remaining: seq<Event>) returns (head: nat, maxVersion: int)
      requires Valid() && w in sys.calls && sys.calls[w].pc.Reconciling?
      requires sys.calls[w].skipped < |sys.calls[w].events|
      requires remaining == sys.calls[w].events[sys.calls[w].skipped..]
      modifies this
      ensures Valid() && old(history) <= history && sys.sid == old(sys.sid) && w in sys.calls
      ensures head <= |remaining| && sys.calls[w] == Decide(old(sys.calls[w]), head, maxVersion)
      ensures sys.log == old(sys.log) && upsets == old(upsets)
      ensures old(Settled(w)) ==>
                && Settled(w) && maxVersion == |sys.log|
                && old(sys.calls[w]).skipped + head == Landed(sys.log, sys.calls[w].events)
                && old(sys.calls[w]).base == old(sys.calls[w]).expected + old(sys.calls[w]).skipped
    {
      var loaded := LoadStream(w);
      var present;
      present, maxVersion := Scan(loaded);
      head := CountHead(remaining, present);
    }

    /** The load, one atomic read. */
    method LoadStream(w: nat) returns (loaded: seq<Event>)
      requires Valid() && Enabled(sys, Reconcile(w, Loaded))
      modifies this
      ensures Valid() && old(history) <= history && sys.sid == old(sys.sid) && w in sys.calls
      ensures loaded == sys.log == old(sys.log) && upsets == old(upsets)
      ensures var c := old(sys.calls[w]);
              && sys.calls[w] == Decide(c, Head(c.events[c.skipped..], Ids(loaded)), MaxVersion(loaded))
              && sys.calls[w].events == c.events
              && (old(Settled(w)) ==>
                    && Settled(w) && MaxVersion(loaded) == |loaded| && c.base == c.expected + c.skipped
                    && c.skipped + Head(c.events[c.skipped..], Ids(loaded)) == Landed(loaded, c.events))
    {
      SysIsReachable();
      if Settled(w) {
        ReloadOnTrack(sys, w);
      }
      loaded := sys.log;
      Do(Reconcile(w, Loaded));
    }

    /** What the call and the loop agree on after a reconciliation. */
    ghost predicate Reloaded(c: Call, c': Call, step: Step, lastErr: Failure) {
      && c'.events == c.events && c'.expected == c.expected && c'.attempts == c.attempts
      && match step
         case Stop(result) => c'.pc == Returned(result)
         case Resume(version, tail) =>
           && c'.skipped < |c'.events| && version == c'.base && tail == c'.events[c'.skipped..]
           && c'.pc == if c.attempts >= APPEND_RETRY_ATTEMPTS then Returned(Failed(lastErr)) else Ready
    }

    /** The step that the protocol's decision stands for. */
    ghost predicate StepFor(base: int, remaining: seq<Event>, head: nat, tip: int, lastErr: Failure, step: Step)
      requires head <= |remaining|
    {
      if head == |remaining| then step == Stop(Success)
      else if (if head == 0 then tip != base else remaining[head].version != tip + 1) then
        step == Stop(Failed({Conflict} + lastErr))
      else step == Resume(if head == 0 then base else tip, remaining[head..])
    }

    method NextStep(base: int, remaining: seq<Event>, head: nat, maxVersion: int, lastErr: Failure) returns (step: Step)
      requires head <= |remaining|
      ensures StepFor(base, remaining, head, maxVersion, lastErr, step)
    {
      if head == |remaining| {
        return Stop(Success);
      }
      if head == 0 {
        if maxVersion != base {
          return Stop(Failed({Conflict} + lastErr));
        }
        return Resume(base, remaining);
      }
      if remaining[head].version != maxVersion + 1 {
        return Stop(Failed({Conflict} + lastErr));
      }
      step := Resume(maxVersion, remaining[head..]);
    }

    lemma StepIsDecision(c: Call, head: nat, tip: int, step: Step)
      requires c.pc.Reconciling? && c.skipped + head <= |c.events| && c.skipped < |c.events|
      requires StepFor(c.base, c.events[c.skipped..], head, tip, c.pc.cause, step)
      ensures Reloaded(c, Decide(c, head, tip), step, c.pc.cause)
    {
    }

    lemma StepOnTrack(log: seq<Event>, c: Call, head: nat, step: Step)
      requires c.pc.Reconciling? && c.skipped + head <= |c.events| && c.skipped < |c.events|
      requires StepFor(c.base, c.events[c.skipped..], head, |log|, c.pc.cause, step)
      requires c.skipped + head == Landed(log, c.events)
      requires Consecutive(c.expected, c.events) && c.base == c.expected + c.skipped
      ensures if Landed(log, c.events) == |c.events| then step == Stop(Success)
              else if FitsTip(log, c.events) then step.Resume? && step.base == |log|
              else step == Stop(Failed({Conflict} + c.pc.cause))
    {
    }

    /** What a returned call can rely on. */
    lemma Conclude(w: nat, r: Result)
      requires Valid() && w in sys.calls && sys.calls[w].pc == Returned(r)
      ensures var c := sys.calls[w];
              && (r == Success && c.events != [] ==>
                    0 <= c.expected && c.expected + |c.events| <= |sys.log|
                    && sys.log[c.expected..c.expected + |c.events|] == c.events)
              && (r.Failed? ==>
                    forall i, k :: 0 <= i < |sys.log| && Landed(sys.log, c.events) <= k < |c.events| ==>
                         sys.log[i].id != c.events[k].id)
              && Appends(history, w) <= 5
    {
      assert Reachable(sys);
      AtMostFiveAppends(sys.sid, history, w);
      AlwaysExactlyAPrefix(sys, w);
      if r == Success && sys.calls[w].events != [] {
        SuccessIsOneSlice(sys, w);
      }
    }
  }
}
