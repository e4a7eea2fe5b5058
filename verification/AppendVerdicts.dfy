/** What a failure means afterwards: how much more of a failed batch can still
    turn up, when a conflict is final, when it is not one, and what handing the
    batch in again does. */
module AppendVerdicts {
  import opened EventStore
  import opened AppendProtocol
  import opened AppendGuarantees

  ghost predicate Finished(s: System, w: nat) {
    w in s.calls && s.calls[w].pc.Returned?
  }

  ghost predicate OnWire(s: System, w: nat, k: nat) {
    exists t :: t in s.wire && t.w == w && t.k == k
  }

  /** The batch is not handed in again during the run. */
  ghost predicate Rests(run: seq<Action>, w: nat) {
    forall i :: 0 <= i < |run| ==> run[i] != Resubmit(w)
  }

  lemma {:induction false} FinishedStep(s: System, a: Action, w: nat)
    requires Enabled(s, a) && Finished(s, w) && a != Resubmit(w)
    ensures Finished(Apply(s, a), w) && Apply(s, a).calls[w] == s.calls[w]
    ensures forall t: Ticket :: t.w == w ==> (t in Apply(s, a).wire <==> t in s.wire)
    ensures s.log <= Apply(s, a).log
  {
  }

  /** After a call returned, only its own late publishes add to its batch. */
  lemma {:induction false} OnlyLandingAdds(s: System, a: Action, w: nat, k: nat)
    requires Inv(s) && Enabled(s, a) && Finished(s, w) && k < |s.calls[w].events|
    requires !InLog(s.log, s.calls[w].events[k]) && InLog(Apply(s, a).log, s.calls[w].events[k])
    ensures a.Land? && a.t.w == w && a.t.k == k && a.t.p.anchor == |s.log|
  {
    var e := s.calls[w].events[k];
    assert e in s.minted;
    match a
    case Land(t, _) => assert TicketOk(s, t);
    case Publish(v, _) => TicketIsNext(s, v);
    case _ =>
  }

  /** The rest of a run, seen from a state in which `w` has returned. */
  lemma {:induction false} AfterReturn(s: System, run: seq<Action>, w: nat)
    requires Inv(s) && RunsFrom(s, run) && Rests(run, w) && Finished(s, w)
    ensures var s' := After(s, run);
            && Inv(s') && Finished(s', w) && s'.calls[w] == s.calls[w] && s.log <= s'.log
            && (forall t: Ticket :: t.w == w ==> (t in s'.wire <==> t in s.wire))
            && (forall k :: 0 <= k < |s.calls[w].events| && InLog(s'.log, s.calls[w].events[k]) ==>
                  InLog(s.log, s.calls[w].events[k]) || OnWire(s, w, k))
    decreases |run|
  {
    if run == [] {
    } else {
      var before, a := run[..|run| - 1], run[|run| - 1];
      AfterReturn(s, before, w);
      var m := After(s, before);
      StepKeepsInv(m, a);
      FinishedStep(m, a, w);
      forall k | 0 <= k < |s.calls[w].events| && InLog(Apply(m, a).log, s.calls[w].events[k])
        ensures InLog(s.log, s.calls[w].events[k]) || OnWire(s, w, k)
      {
        if !InLog(m.log, s.calls[w].events[k]) {
          OnlyLandingAdds(m, a, w, k);
          assert a.t in s.wire;
        }
      }
    }
  }

  /** A late publish is never more than one event ahead of what is stored. */
  lemma {:induction false} WireIsNotAhead(s: System, w: nat, k: nat)
    requires Inv(s) && w in s.calls && OnWire(s, w, k)
    ensures k <= Landed(s.log, s.calls[w].events)
  {
    var t :| t in s.wire && t.w == w && t.k == k;
    assert TicketOk(s, t);
    LandedAtLeast(s.log, s.calls[w].events, k);
  }

  lemma {:induction false} WireAnchors(s: System)
    requires Inv(s)
    ensures forall t | t in s.wire ::
              && t.w in s.calls && t.k < |s.calls[t.w].events| && t.p.e == s.calls[t.w].events[t.k]
              && t.p.anchor == t.p.e.version - 1 <= |s.log|
  {
    forall t | t in s.wire ensures TicketOk(s, t) {}
  }

  lemma {:induction false} LandedAtLeast(log: seq<Event>, events: seq<Event>, n: nat)
    requires n <= |events| && StoredUpTo(log, events, n)
    ensures n <= Landed(log, events)
  {
    LandedIsPrefix(log, events);
  }

  /** Once a call has returned, and unless its batch is handed in again, at most
      one more event of it can ever land: the one right after what is stored. */
  lemma {:induction false} AtMostOneMoreLands(s: System, run: seq<Action>, w: nat)
    requires Reachable(s) && RunsFrom(s, run) && Rests(run, w) && Finished(s, w)
    ensures var events := s.calls[w].events;
            Landed(s.log, events) <= Landed(After(s, run).log, events) <= Landed(s.log, events) + 1
  {
    ReachableKeepsInv(s);
    AfterReturn(s, run, w);
    var events, s' := s.calls[w].events, After(s, run);
    var n := Landed(s.log, events);
    LandedIsPrefix(s.log, events);
    LandedIsPrefix(s'.log, events);
    LandedAtLeast(s'.log, events, n);
    assert PrefixClosed(s.log, s.calls[w]) by { assert CallOk(s.log, s.calls[w]); }
    if Landed(s'.log, events) > n + 1 {
      assert InLog(s'.log, events[n + 1]);
      NothingAfterTheGap(s.log, s.calls[w], n + 1);
      WireIsNotAhead(s, w, n + 1);
    }
  }

  /** Some publish of the first missing event of the batch can still be stored. */
  ghost predicate NextMayLand(s: System, w: nat)
    requires w in s.calls
  {
    exists t :: t in s.wire && t.w == w && t.k == Landed(s.log, s.calls[w].events) && t.p.anchor == |s.log|
  }

  ghost predicate SettledAt(s: System, w: nat)
    requires w in s.calls
  {
    forall run :: RunsFrom(s, run) && Rests(run, w) ==>
      Landed(After(s, run).log, s.calls[w].events) == Landed(s.log, s.calls[w].events)
  }

  lemma {:induction false} NoTicketNoLanding(s: System, run: seq<Action>, w: nat)
    requires Inv(s) && RunsFrom(s, run) && Rests(run, w) && Finished(s, w) && !NextMayLand(s, w)
    ensures var n := Landed(s.log, s.calls[w].events);
            n < |s.calls[w].events| ==> !InLog(After(s, run).log, s.calls[w].events[n])
    decreases |run|
  {
    var n := Landed(s.log, s.calls[w].events);
    LandedIsPrefix(s.log, s.calls[w].events);
    if run == [] || n >= |s.calls[w].events| {
    } else {
      var before, a := run[..|run| - 1], run[|run| - 1];
      NoTicketNoLanding(s, before, w);
      AfterReturn(s, before, w);
      WireAnchors(s);
      if InLog(After(s, run).log, s.calls[w].events[n]) {
        OnlyLandingAdds(After(s, before), a, w, n);
      }
    }
  }

  lemma {:induction false} TicketLands(s: System, w: nat, t: Ticket)
    requires Inv(s) && w in s.calls && t in s.wire && t.w == w
    requires t.k == Landed(s.log, s.calls[w].events) && t.p.anchor == |s.log|
    ensures RunsFrom(s, [Land(t, true)])
    ensures Landed(After(s, [Land(t, true)]).log, s.calls[w].events) > Landed(s.log, s.calls[w].events)
  {
    var run := [Land(t, true)];
    assert run[..0] == [];
    assert RunsFrom(s, []) && After(s, []) == s;
    assert TicketOk(s, t);
    LandedIsPrefix(s.log, s.calls[w].events);
    assert t.p.e.id !in Ids(s.log) by {
      if t.p.e.id in Ids(s.log) {
        StoredIsKnownById(s, t.p.e);
      }
    }
    var log' := After(s, run).log;
    assert log' == s.log + [t.p.e];
    assert StoredUpTo(log', s.calls[w].events, t.k + 1);
    LandedAtLeast(log', s.calls[w].events, t.k + 1);
  }

  /** What is stored of a returned call's batch is final exactly when no late
      publish of its next event is still anchored at the tip. */
  lemma {:induction false} SettledUnlessNextMayLand(s: System, w: nat)
    requires Reachable(s) && Finished(s, w)
    ensures SettledAt(s, w) <==> !NextMayLand(s, w)
  {
    ReachableKeepsInv(s);
    var events := s.calls[w].events;
    if NextMayLand(s, w) {
      var t :| t in s.wire && t.w == w && t.k == Landed(s.log, events) && t.p.anchor == |s.log|;
      TicketLands(s, w, t);
    } else {
      forall run | RunsFrom(s, run) && Rests(run, w)
        ensures Landed(After(s, run).log, events) == Landed(s.log, events)
      {
        NoTicketNoLanding(s, run, w);
        AtMostOneMoreLands(s, run, w);
        LandedIsPrefix(After(s, run).log, events);
      }
    }
  }

  // ------------------------------------------------------------ the verdict

  /** The rest of the batch lands exactly on the tip. */
  ghost predicate FitsTip(log: seq<Event>, events: seq<Event>) {
    Landed(log, events) < |events| && events[Landed(log, events)].version == |log| + 1
  }

  lemma {:induction false} HeadIsLanded(s: System, c: Call)
    requires Numbered(s.log) && Identified(s) && CallOk(s.log, c) && c.pc.Reconciling?
    requires forall k :: 0 <= k < |c.events| ==> c.events[k] in s.minted
    ensures c.skipped + Head(c.events[c.skipped..], Ids(s.log)) == Landed(s.log, c.events)
  {
    SkippedAndHead(s, c);
    var n := c.skipped + Head(c.events[c.skipped..], Ids(s.log));
    LandedIsPrefix(s.log, c.events);
    LandedAtLeast(s.log, c.events, n);
  }

  lemma {:induction false} CallInHand(s: System, w: nat)
    requires Reachable(s) && w in s.calls
    ensures Numbered(s.log) && Identified(s) && CallOk(s.log, s.calls[w])
    ensures forall k :: 0 <= k < |s.calls[w].events| ==> s.calls[w].events[k] in s.minted
  {
    ReachableKeepsInv(s);
  }

  /** The decision, for a properly numbered batch of which `n` events are stored
      in a stream that ends at `tip`. */
  function Decision(c: Call, n: nat, tip: int): Call
    requires c.pc.Reconciling? && n <= |c.events|
  {
    if n == |c.events| then c.(pc := Returned(Success))
    else if c.events[n].version != tip + 1 then c.(pc := Returned(Failed({Conflict} + c.pc.cause)))
    else c.(base := tip, skipped := n,
            pc := if c.attempts >= APPEND_RETRY_ATTEMPTS then Returned(Failed(c.pc.cause)) else Ready)
  }

  lemma {:induction false} DecideIsExact(c: Call, n: nat, tip: int)
    requires c.pc.Reconciling? && c.skipped <= n <= |c.events|
    requires Consecutive(c.expected, c.events) && c.base == c.expected + c.skipped
    ensures Decide(c, n - c.skipped, tip) == Decision(c, n, tip)
  {
  }

  lemma {:induction false} ReconcileDecides(s: System, w: nat, n: nat)
    requires Enabled(s, Reconcile(w, Loaded)) && MaxVersion(s.log) == |s.log|
    requires var c := s.calls[w];
             c.skipped <= n <= |c.events| && c.skipped + Head(c.events[c.skipped..], Ids(s.log)) == n
             && Consecutive(c.expected, c.events) && c.base == c.expected + c.skipped
    ensures Apply(s, Reconcile(w, Loaded)).calls[w] == Decision(s.calls[w], n, |s.log|)
  {
    DecideIsExact(s.calls[w], n, |s.log|);
  }

  /** The step takes the decision on the number of landed events and the tip. */
  lemma {:induction false} ReloadIsExact(s: System, w: nat)
    requires Reachable(s) && Enabled(s, Reconcile(w, Loaded))
    requires Consecutive(s.calls[w].expected, s.calls[w].events)
    ensures Apply(s, Reconcile(w, Loaded)).calls[w] == Decision(s.calls[w], Landed(s.log, s.calls[w].events), |s.log|)
    ensures s.calls[w].attempts <= APPEND_RETRY_ATTEMPTS
  {
    CallInHand(s, w);
    HeadIsLanded(s, s.calls[w]);
    MaxVersionIsTip(s.log);
    ReconcileDecides(s, w, Landed(s.log, s.calls[w].events));
  }

  /** The decision after a reload, for a properly numbered batch: success
      exactly when everything is stored, another attempt with exactly the
      missing events exactly when they fit the tip and attempts are left, and
      otherwise an error. */
  lemma {:induction false} VerdictIsExact(s: System, w: nat)
    requires Reachable(s) && Enabled(s, Reconcile(w, Loaded))
    requires Consecutive(s.calls[w].expected, s.calls[w].events)
    ensures var c := s.calls[w]; var c' := Apply(s, Reconcile(w, Loaded)).calls[w];
            && (c'.pc == Returned(Success) <==> Landed(s.log, c.events) == |c.events|)
            && (c'.pc.Ready? <==> FitsTip(s.log, c.events) && c.attempts < APPEND_RETRY_ATTEMPTS)
            && (c'.pc.Ready? ==> c'.skipped == Landed(s.log, c.events) && c'.base == |s.log|)
            && (c'.pc.Returned? && c'.pc.result.Failed? <==>
                  Landed(s.log, c.events) < |c.events|
                  && (FitsTip(s.log, c.events) ==> c.attempts == APPEND_RETRY_ATTEMPTS))
  {
    ReloadIsExact(s, w);
  }

  /** When the call returns an error that reads as a conflict although the rest
      of the batch fits the tip: exactly when a conflict is in hand and either
      the reload did not happen (dead context, failed load) or the attempts are
      used up. */
  ghost predicate ConflictDespiteFit(s: System, w: nat, how: ReconcileFate)
    requires Enabled(s, Reconcile(w, how))
  {
    var pc := Apply(s, Reconcile(w, how)).calls[w].pc;
    pc.Returned? && pc.result.Failed? && Conflict in pc.result.what && FitsTip(s.log, s.calls[w].events)
  }

  lemma {:induction false} FittingDecision(s: System, w: nat)
    requires Reachable(s) && Enabled(s, Reconcile(w, Loaded)) && FitsTip(s.log, s.calls[w].events)
    requires Consecutive(s.calls[w].expected, s.calls[w].events)
    ensures var c := s.calls[w]; var c' := Apply(s, Reconcile(w, Loaded)).calls[w];
            if c.attempts == APPEND_RETRY_ATTEMPTS then c'.pc == Returned(Failed(c.pc.cause)) else c'.pc == Ready
  {
    ReloadIsExact(s, w);
  }

  lemma {:induction false} ConflictDespiteFitIsExact(s: System, w: nat, how: ReconcileFate)
    requires Reachable(s) && Enabled(s, Reconcile(w, how))
    requires Consecutive(s.calls[w].expected, s.calls[w].events)
    ensures ConflictDespiteFit(s, w, how) <==>
              FitsTip(s.log, s.calls[w].events) && Conflict in s.calls[w].pc.cause
              && (!how.Loaded? || s.calls[w].attempts == APPEND_RETRY_ATTEMPTS)
  {
    if how.Loaded? && FitsTip(s.log, s.calls[w].events) {
      FittingDecision(s, w);
    }
  }

  lemma {:induction false} MisfitCannotLand(s: System, w: nat)
    requires Inv(s) && w in s.calls
    requires Landed(s.log, s.calls[w].events) < |s.calls[w].events| && !FitsTip(s.log, s.calls[w].events)
    ensures !NextMayLand(s, w)
  {
    WireAnchors(s);
  }

  lemma {:induction false} MisfitGivesUp(s: System, w: nat)
    requires Reachable(s) && Enabled(s, Reconcile(w, Loaded))
    requires var c := s.calls[w];
             Consecutive(c.expected, c.events) && Landed(s.log, c.events) < |c.events| && !FitsTip(s.log, c.events)
    ensures var c' := Apply(s, Reconcile(w, Loaded)).calls[w];
            && c'.pc.Returned? && c'.pc.result.Failed? && Conflict in c'.pc.result.what
            && c'.events == s.calls[w].events
  {
    ReloadIsExact(s, w);
  }

  /** A call that gives up because its batch does not fit the tip reports a
      conflict, and is right: nothing more of the batch will ever be stored. */
  lemma {:induction false} MisfitIsFinal(s: System, w: nat)
    requires Reachable(s) && Enabled(s, Reconcile(w, Loaded))
    requires var c := s.calls[w];
             Consecutive(c.expected, c.events) && Landed(s.log, c.events) < |c.events| && !FitsTip(s.log, c.events)
    ensures var s' := Apply(s, Reconcile(w, Loaded));
            && s'.calls[w].pc.Returned? && s'.calls[w].pc.result.Failed? && Conflict in s'.calls[w].pc.result.what
            && SettledAt(s', w)
  {
    var s' := Apply(s, Reconcile(w, Loaded));
    MisfitGivesUp(s, w);
    ReachableStep(s, Reconcile(w, Loaded));
    assert !NextMayLand(s', w) by {
      ReachableKeepsInv(s');
      MisfitCannotLand(s', w);
    }
    SettledUnlessNextMayLand(s', w);
  }

  lemma {:induction false} ReachableStep(s: System, a: Action)
    requires Reachable(s) && Enabled(s, a)
    ensures Reachable(Apply(s, a))
  {
    var sid, run :| RunsFrom(Init(sid), run) && After(Init(sid), run) == s;
    var run' := run + [a];
    assert run'[..|run|] == run;
    assert RunsFrom(Init(sid), run') && After(Init(sid), run') == Apply(s, a);
  }

  // ------------------------------------------------------ a clean append

  ghost predicate OneKind(sid: string, log: seq<Event>, events: seq<Event>) {
    && |events| > 0
    && (forall k :: 0 <= k < |events| ==>
          events[k].streamID == sid && events[k].streamType == events[0].streamType != "")
    && (log != [] ==> log[|log| - 1].streamType == events[0].streamType)
  }

  lemma {:induction false} ChecksPass(sid: string, log: seq<Event>, c: Call)
    requires Numbered(log) && c.skipped < |c.events| && c.base == c.expected + c.skipped == |log|
    requires Consecutive(c.expected, c.events) && OneKind(sid, log, c.events)
    ensures AppendChecks(sid, log, c, false).pc == Publishing(0, |log|)
  {
    NothingInvalid(sid, c.base, c.events[c.skipped..], 0);
  }

  // --------------------------------------------- a conflict that is not final

  const FIRST := Event("e1", "b", "batch", 1)
  const SECOND := Event("e2", "b", "batch", 2)
  const LATE := Ticket(0, 0, Publication(FIRST, 0))

  /** Call 0, with the batch [FIRST, SECOND], in its `attempts`-th attempt. */
  function Scene(log: seq<Event>, wire: set<Ticket>, attempts: nat, pc: Pc): System {
    System("b", log, wire, map[0 := Call(0, [FIRST, SECOND], 0, 0, attempts, pc)], {FIRST, SECOND})
  }

  lemma {:induction false} SceneBegins(wire: set<Ticket>, k: nat)
    ensures Enabled(Scene([], wire, k, Ready), BeginAppend(0, false))
    ensures Apply(Scene([], wire, k, Ready), BeginAppend(0, false)) == Scene([], wire, k + 1, Publishing(0, 0))
  {
    assert [FIRST, SECOND][0] == FIRST && [FIRST, SECOND][1] == SECOND;
    ChecksPass("b", [], Scene([], wire, k, Ready).calls[0]);
  }

  lemma {:induction false} SceneTimesOut(wire: set<Ticket>, k: nat)
    ensures Enabled(Scene([], wire, k, Publishing(0, 0)), Publish(0, Delayed))
    ensures Apply(Scene([], wire, k, Publishing(0, 0)), Publish(0, Delayed))
         == Scene([], wire + {LATE}, k, Reconciling({Indeterminate}))
  {
  }

  lemma {:induction false} SceneReloads(wire: set<Ticket>, k: nat)
    requires k < 5
    ensures Enabled(Scene([], wire, k, Reconciling({Indeterminate})), Reconcile(0, Loaded))
    ensures Apply(Scene([], wire, k, Reconciling({Indeterminate})), Reconcile(0, Loaded)) == Scene([], wire, k, Ready)
  {
    assert Ids([]) == {};
  }

  lemma {:induction false} SceneLands()
    ensures Apply(Scene([], {LATE}, 5, Publishing(0, 0)), Land(LATE, false))
            == Scene([FIRST], {LATE}, 5, Publishing(0, 0))
    ensures Apply(Scene([FIRST], {LATE}, 5, Publishing(0, 0)), Publish(0, Acked(false)))
         == Scene([FIRST], {LATE}, 5, Reconciling({Conflict}))
  {
    assert [] + [FIRST] == [FIRST];
  }

  lemma {:induction false} SceneGivesUp()
    ensures Landed([FIRST], [FIRST, SECOND]) == 1
    ensures Apply(Scene([FIRST], {LATE}, 5, Reconciling({Conflict})), Reconcile(0, Loaded)).calls[0].pc
         == Returned(Failed({Conflict}))
  {
    var events := [FIRST, SECOND];
    assert events[1..] == [SECOND] && events[0..] == events && SECOND.id[1] != FIRST.id[1];
    assert [FIRST][0] == FIRST && Ids([FIRST]) == {FIRST.id};
    assert Head([SECOND], {FIRST.id}) == 0 && Head(events, {FIRST.id}) == 1;
    assert MaxVersion([FIRST]) == 1 by { MaxVersionIsTip([FIRST]); }
  }

  lemma {:induction false} FourTimeouts(k: nat)
    requires 1 <= k <= 4
    ensures Reachable(Scene([], {LATE}, k, Ready))
  {
    var wire := if k == 1 then {} else {LATE};
    if k == 1 {
      var a := Start(0, 0, [FIRST, SECOND]);
      assert RunsFrom(Init("b"), []) && After(Init("b"), []) == Init("b");
      assert FIRST.id[1] != SECOND.id[1];
      assert [FIRST, SECOND][0] == FIRST && [FIRST, SECOND][1] == SECOND;
      ReachableStep(Init("b"), a);
      assert Apply(Init("b"), a).minted == {FIRST, SECOND};
      assert Apply(Init("b"), a) == Scene([], {}, 0, Ready);
    } else {
      FourTimeouts(k - 1);
    }
    SceneBegins(wire, k - 1);
    ReachableStep(Scene([], wire, k - 1, Ready), BeginAppend(0, false));
    SceneTimesOut(wire, k);
    ReachableStep(Scene([], wire, k, Publishing(0, 0)), Publish(0, Delayed));
    assert wire + {LATE} == {LATE};
    SceneReloads({LATE}, k);
    ReachableStep(Scene([], {LATE}, k, Reconciling({Indeterminate})), Reconcile(0, Loaded));
  }

  /** The doc comment's reading of a conflict ("the batch no longer fits the
      tip, rebuild it") fails on exhausted attempts: here the first event lands
      during the fifth attempt, the call returns a conflict, and the second
      event is still exactly what the tip needs. */
  lemma {:induction false} LateConflict() returns (s: System)
    ensures Reachable(s) && Enabled(s, Reconcile(0, Loaded)) && Consecutive(s.calls[0].expected, s.calls[0].events)
    ensures s.calls[0].attempts == 5 && ConflictDespiteFit(s, 0, Loaded)
  {
    FifthAttempt();
    SceneGivesUp();
    s := Scene([FIRST], {LATE}, 5, Reconciling({Conflict}));
  }

  lemma {:induction false} FifthAttempt()
    ensures Reachable(Scene([FIRST], {LATE}, 5, Reconciling({Conflict})))
  {
    FourTimeouts(4);
    SceneBegins({LATE}, 4);
    ReachableStep(Scene([], {LATE}, 4, Ready), BeginAppend(0, false));
    SceneLands();
    ReachableStep(Scene([], {LATE}, 5, Publishing(0, 0)), Land(LATE, false));
    ReachableStep(Scene([FIRST], {LATE}, 5, Publishing(0, 0)), Publish(0, Acked(false)));
  }

  lemma {:induction false} SceneMeetsItself()
    ensures Apply(Scene([], {LATE}, 1, Ready), Land(LATE, false)) == Scene([FIRST], {LATE}, 1, Ready)
    ensures Enabled(Scene([FIRST], {LATE}, 1, Ready), BeginAppend(0, false))
    ensures Apply(Scene([FIRST], {LATE}, 1, Ready), BeginAppend(0, false))
            == Scene([FIRST], {LATE}, 2, Reconciling({Conflict}))
  {
    assert [] + [FIRST] == [FIRST];
    var events := [FIRST, SECOND];
    assert events[0..] == events && events[0] == FIRST && events[1] == SECOND;
    NothingInvalid("b", 0, events, 0);
  }

  lemma {:induction false} SecondFits()
    ensures FitsTip([FIRST], [FIRST, SECOND])
  {
    var events := [FIRST, SECOND];
    assert events[1..] == [SECOND] && SECOND.id[1] != FIRST.id[1];
    assert [FIRST][0] == FIRST;
    assert Landed([FIRST], events) == 1;
  }

  /** It also fails early: the first event of a timed-out attempt lands before
      the second attempt, which meets its own event as a conflict, and the
      context dies before the reload. */
  lemma {:induction false} EarlyConflict() returns (s: System)
    ensures Reachable(s) && Enabled(s, Reconcile(0, ContextDead)) && Consecutive(s.calls[0].expected, s.calls[0].events)
    ensures s.calls[0].attempts == 2 && ConflictDespiteFit(s, 0, ContextDead)
  {
    FourTimeouts(1);
    SceneMeetsItself();
    ReachableStep(Scene([], {LATE}, 1, Ready), Land(LATE, false));
    ReachableStep(Scene([FIRST], {LATE}, 1, Ready), BeginAppend(0, false));
    SecondFits();
    s := Scene([FIRST], {LATE}, 2, Reconciling({Conflict}));
  }

  // ----------------------------------------------------------- convergence

  lemma {:induction false} PublishRest(s: System, w: nat) returns (run: seq<Action>)
    requires Reachable(s) && w in s.calls && s.calls[w].pc.Publishing?
    requires s.calls[w].pc.anchor == |s.log|
    ensures RunsFrom(s, run) && w in After(s, run).calls
    ensures After(s, run).calls[w].pc == Returned(Success) && After(s, run).calls[w].events == s.calls[w].events
    decreases |s.calls[w].events| - s.calls[w].skipped - s.calls[w].pc.i
  {
    assert s.calls[w].skipped + s.calls[w].pc.i < |s.calls[w].events| by {
      ReachableKeepsInv(s);
      TicketIsNext(s, w);
    }
    var a := Publish(w, Acked(false));
    var s1 := Apply(s, a);
    ReachableStep(s, a);
    assert s1.log == s.log + [s.calls[w].events[s.calls[w].skipped + s.calls[w].pc.i]];
    var rest: seq<Action>;
    if s1.calls[w].pc.Returned? {
      rest := [];
    } else {
      rest := PublishRest(s1, w);
    }
    run := [a] + rest;
    RunsJoin(s, a, rest);
  }

  lemma {:induction false} RunsJoin(s: System, a: Action, rest: seq<Action>)
    requires Enabled(s, a) && RunsFrom(Apply(s, a), rest)
    ensures RunsFrom(s, [a] + rest) && After(s, [a] + rest) == After(Apply(s, a), rest)
    decreases |rest|
  {
    var run := [a] + rest;
    if rest == [] {
      assert run[..0] == [] && run[0] == a;
      assert RunsFrom(s, run[..0]);
    } else {
      RunsJoin(s, a, rest[..|rest| - 1]);
      assert run[..|run| - 1] == [a] + rest[..|rest| - 1];
    }
  }

  lemma {:induction false} ReadyAtTip(s: System, w: nat)
    requires Reachable(s) && w in s.calls && s.calls[w].pc.Ready?
    ensures Numbered(s.log) && s.calls[w].skipped < |s.calls[w].events|
    ensures s.calls[w].base == s.calls[w].expected + s.calls[w].skipped
  {
    ReachableKeepsInv(s);
    assert CallOk(s.log, s.calls[w]);
  }

  /** A partly stored batch converges on the next attempt: whatever happened so
      far, once the broker answers and nobody else writes, the missing events
      are published behind the tip and the call succeeds. */
  lemma {:induction false} ConvergesOnNextAttempt(s: System, w: nat) returns (run: seq<Action>)
    requires Reachable(s) && Enabled(s, Reconcile(w, Loaded))
    requires Consecutive(s.calls[w].expected, s.calls[w].events)
    requires FitsTip(s.log, s.calls[w].events) && s.calls[w].attempts < APPEND_RETRY_ATTEMPTS
    requires OneKind(s.sid, s.log, s.calls[w].events)
    ensures RunsFrom(s, run) && w in After(s, run).calls && After(s, run).calls[w].pc == Returned(Success)
    ensures After(s, run).calls[w].events == s.calls[w].events
  {
    var a, b := Reconcile(w, Loaded), BeginAppend(w, false);
    VerdictIsExact(s, w);
    ReachableStep(s, a);
    var s1 := Apply(s, a);
    var rest := NextAttempt(s1, w);
    RunsJoin(s, a, rest);
    run := [a] + rest;
  }

  lemma {:induction false} NextAttempt(s: System, w: nat) returns (run: seq<Action>)
    requires Reachable(s) && w in s.calls && s.calls[w].pc.Ready? && s.calls[w].base == |s.log|
    requires Consecutive(s.calls[w].expected, s.calls[w].events) && OneKind(s.sid, s.log, s.calls[w].events)
    ensures RunsFrom(s, run) && w in After(s, run).calls && After(s, run).calls[w].pc == Returned(Success)
    ensures After(s, run).calls[w].events == s.calls[w].events
  {
    var a := BeginAppend(w, false);
    ReadyAtTip(s, w);
    ChecksPass(s.sid, s.log, s.calls[w]);
    ReachableStep(s, a);
    var rest := PublishRest(Apply(s, a), w);
    RunsJoin(s, a, rest);
    run := [a] + rest;
  }

  // ---------------------------------------------------- handing it in again

  lemma {:induction false} SuccessIsStored(s: System, w: nat)
    requires Reachable(s) && w in s.calls && s.calls[w].pc == Returned(Success)
    ensures Landed(s.log, s.calls[w].events) == |s.calls[w].events|
  {
    ReachableKeepsInv(s);
    assert StoredUpTo(s.log, s.calls[w].events, |s.calls[w].events|) by { assert CallOk(s.log, s.calls[w]); }
    LandedAtLeast(s.log, s.calls[w].events, |s.calls[w].events|);
  }

  lemma {:induction false} ResubmittedMeetsItself(s: System, w: nat)
    requires Reachable(s) && Finished(s, w) && s.calls[w].events != []
    requires OneKind(s.sid, s.log, s.calls[w].events)
    requires Landed(s.log, s.calls[w].events) == |s.calls[w].events|
    ensures var s1 := Apply(s, Resubmit(w));
            && Consecutive(s.calls[w].expected, s.calls[w].events)
            && Enabled(s1, BeginAppend(w, false)) && Apply(s1, BeginAppend(w, false)).log == s.log
            && Apply(s1, BeginAppend(w, false)).calls[w] ==
               NewCall(s.calls[w].expected, s.calls[w].events).(attempts := 1, pc := Reconciling({Conflict}))
  {
    var c := s.calls[w];
    CallInHand(s, w);
    LandedIsPrefix(s.log, c.events);
    assert InLog(s.log, c.events[0]);
    assert c.events[0..] == c.events;
    NothingInvalid(s.sid, c.expected, c.events, 0);
  }

  /** A returned call's batch may be handed in again under the same event IDs.
      It is never stored twice, and once all of it is stored, as it is after a
      success, the next attempt that gets to reload returns success and leaves
      the stream as it is. */
  lemma {:induction false} ResubmittingIsSafe(s: System, w: nat)
    requires Reachable(s) && Finished(s, w) && s.calls[w].events != []
    requires OneKind(s.sid, s.log, s.calls[w].events)
    requires s.calls[w].pc == Returned(Success) || Landed(s.log, s.calls[w].events) == |s.calls[w].events|
    ensures var run := [Resubmit(w), BeginAppend(w, false), Reconcile(w, Loaded)];
            && RunsFrom(s, run) && DistinctIds(After(s, run).log) && After(s, run).log == s.log
            && w in After(s, run).calls && After(s, run).calls[w].pc == Returned(Success)
  {
    var s1 := Apply(s, Resubmit(w));
    var s2 := Apply(s1, BeginAppend(w, false));
    if s.calls[w].pc == Returned(Success) {
      SuccessIsStored(s, w);
    }
    ResubmittedMeetsItself(s, w);
    ReachableStep(s, Resubmit(w));
    ReachableStep(s1, BeginAppend(w, false));
    ResubmittedReloads(s2, w);
    StreamStaysNumbered(s);
    ThreeSteps(s, Resubmit(w), BeginAppend(w, false), Reconcile(w, Loaded));
  }

  lemma {:induction false} ResubmittedReloads(s: System, w: nat)
    requires Reachable(s) && Enabled(s, Reconcile(w, Loaded))
    requires Consecutive(s.calls[w].expected, s.calls[w].events)
    requires Landed(s.log, s.calls[w].events) == |s.calls[w].events|
    ensures Apply(s, Reconcile(w, Loaded)).calls[w].pc == Returned(Success)
            && Apply(s, Reconcile(w, Loaded)).log == s.log
  {
    VerdictIsExact(s, w);
  }

  lemma {:induction false} ThreeSteps(s: System, a: Action, b: Action, c: Action)
    requires Enabled(s, a) && Enabled(Apply(s, a), b) && Enabled(Apply(Apply(s, a), b), c)
    ensures RunsFrom(s, [a, b, c]) && After(s, [a, b, c]) == Apply(Apply(Apply(s, a), b), c)
  {
    var s1 := Apply(s, a);
    var s2 := Apply(s1, b);
    RunsJoin(s2, c, []);
    RunsJoin(s1, b, [c]);
    RunsJoin(s, a, [b, c]);
    assert [c] + [] == [c] && [b] + [c] == [b, c] && [a] + [b, c] == [a, b, c];
  }
}
