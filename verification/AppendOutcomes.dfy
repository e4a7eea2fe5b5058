/** What each step of a call comes to, and what a call comes to that nobody
    disturbs but for acknowledgements that get lost or come late. */
module AppendOutcomes {
  import opened EventStore
  import opened AppendProtocol
  import opened AppendGuarantees
  import opened AppendVerdicts

  // -------------------------------------------------------------- one step

  /** What the checks before the first publish come to: a stale version is a
      conflict, which the loop takes up; an unreadable tip and a stream of
      another type end the call. */
  lemma {:induction false} BeginIsExact(s: System, w: nat, readFault: bool)
    requires Reachable(s) && Enabled(s, BeginAppend(w, readFault))
    requires Validate(s.sid, s.calls[w].base, s.calls[w].events[s.calls[w].skipped..]) == {}
    ensures var c, pc := s.calls[w], Apply(s, BeginAppend(w, readFault)).calls[w].pc;
            && (pc == Publishing(0, |s.log|)
                <==> !readFault && c.base == |s.log| && SameType(s.log, c.events[c.skipped]))
            && (pc == Reconciling({Conflict}) <==> !readFault && c.base != |s.log|)
            && (pc == Returned(Failed({Other})) <==>
                  readFault || (c.base == |s.log| && !SameType(s.log, c.events[c.skipped])))
  {
    ReachableKeepsInv(s);
    assert TipVersion(s.log) == |s.log|;
  }

  predicate SameType(log: seq<Event>, e: Event) {
    log != [] && log[|log| - 1].streamType != "" ==> log[|log| - 1].streamType == e.streamType
  }

  /** Every publish but a rejected one leaves the call acknowledged or to be
      reconciled; a lost acknowledgement is an unknown outcome, a missed anchor
      a conflict. */
  lemma {:induction false} PublishIsTakenUp(s: System, w: nat, fate: PublishFate)
    requires Enabled(s, Publish(w, fate))
    ensures var c, pc := s.calls[w], Apply(s, Publish(w, fate)).calls[w].pc;
            match fate
            case Acked(window) =>
              if Judge(s.log, NextTicket(w, c).p, window).WrongLast? then pc == Reconciling({Conflict})
              else if c.skipped + c.pc.i == |c.events| - 1 then pc == Returned(Success)
              else pc.Publishing? && pc.i == c.pc.i + 1
            case AckLost(_) => pc == Reconciling({Indeterminate})
            case Delayed => pc == Reconciling({Indeterminate})
            case Rejected => pc == Returned(Failed({Other})) && Apply(s, Publish(w, fate)).log == s.log
  {
  }

  lemma {:induction false} LogsOnlyGrow(s: System, run: seq<Action>)
    requires RunsFrom(s, run)
    ensures s.log <= After(s, run).log
    decreases |run|
  {
    if run == [] {
    } else {
      LogsOnlyGrow(s, run[..|run| - 1]);
    }
  }

  lemma {:induction false} ReachableRun(s: System, run: seq<Action>)
    requires Reachable(s) && RunsFrom(s, run)
    ensures Reachable(After(s, run))
    decreases |run|
  {
    if run == [] {
    } else {
      ReachableRun(s, run[..|run| - 1]);
      ReachableStep(After(s, run[..|run| - 1]), run[|run| - 1]);
    }
  }

  lemma {:induction false} LastIsStored(s: System, w: nat, window: bool)
    requires Reachable(s) && Enabled(s, Publish(w, AckLost(window)))
    requires s.calls[w].skipped + s.calls[w].pc.i == |s.calls[w].events| - 1
    requires !Judge(s.log, NextTicket(w, s.calls[w]).p, window).WrongLast?
    ensures Consecutive(s.calls[w].expected, s.calls[w].events)
    ensures StoredUpTo(Apply(s, Publish(w, AckLost(window))).log, s.calls[w].events, |s.calls[w].events|)
  {
    ReachableKeepsInv(s);
    var c, t := s.calls[w], NextTicket(w, s.calls[w]);
    assert CallOk(s.log, c);
    TicketIsNext(s, w);
    DeliveryKeeps(s, t, window);
  }

  /** The acknowledgement of a batch's last event is lost although the broker
      has the event: whatever the others do meanwhile, the next reload finds the
      whole batch and the call succeeds. */
  lemma {:induction false} LostAckIsFound(s: System, w: nat, window: bool, run: seq<Action>)
    requires Reachable(s) && Enabled(s, Publish(w, AckLost(window)))
    requires s.calls[w].skipped + s.calls[w].pc.i == |s.calls[w].events| - 1
    requires !Judge(s.log, NextTicket(w, s.calls[w]).p, window).WrongLast?
    requires var s1 := Apply(s, Publish(w, AckLost(window)));
             RunsFrom(s1, run) && w in After(s1, run).calls && After(s1, run).calls[w] == s1.calls[w]
    ensures var s2 := After(Apply(s, Publish(w, AckLost(window))), run);
            && Enabled(s2, Reconcile(w, Loaded))
            && Apply(s2, Reconcile(w, Loaded)).calls[w].pc == Returned(Success)
  {
    var s1, events := Apply(s, Publish(w, AckLost(window))), s.calls[w].events;
    var s2 := After(s1, run);
    LastIsStored(s, w, window);
    ReachableStep(s, Publish(w, AckLost(window)));
    LogsOnlyGrow(s1, run);
    ReachableRun(s1, run);
    assert StoredUpTo(s2.log, events, |events|);
    LandedAtLeast(s2.log, events, |events|);
    CallInHand(s, w);
    VerdictIsExact(s2, w);
  }

  // ------------------------------------------------------ an undisturbed call

  /** The batch is one that the store's checks accept on top of this stream. */
  ghost predicate Sound(s: System, c: Call) {
    Consecutive(c.expected, c.events) && OneKind(s.sid, s.log, c.events)
  }

  /** Nothing stands where the batch goes on: all of it is stored, or its next
      event fits the tip. */
  ghost predicate OnTrack(log: seq<Event>, events: seq<Event>) {
    Landed(log, events) == |events| || FitsTip(log, events)
  }

  /** The log grew by late publishes of call `w` at most, each at the cost of one upset. */
  ghost predicate OnlyLate(before: System, after: System, w: nat, had: nat, has: nat) {
    && after.sid == before.sid && after.calls == before.calls && before.log <= after.log
    && has + |after.log| - |before.log| <= had
    && forall i :: |before.log| <= i < |after.log| ==> w in after.calls && after.log[i] in after.calls[w].events
  }

  lemma {:induction false} LandedAtTip(log: seq<Event>, c: Call, k: nat)
    requires PrefixClosed(log, c) && Consecutive(c.expected, c.events) && k < |c.events|
    requires |log| == c.expected + k && (k > 0 ==> InLog(log, c.events[k - 1]))
    ensures Landed(log, c.events) == k
  {
    StoredBelow(log, c, k);
    LandedAtLeast(log, c.events, k);
    LandedIsPrefix(log, c.events);
    assert !InLog(log, c.events[k]);
  }

  lemma {:induction false} StoredBelow(log: seq<Event>, c: Call, k: nat)
    requires PrefixClosed(log, c) && k <= |c.events| && (k > 0 ==> InLog(log, c.events[k - 1]))
    ensures StoredUpTo(log, c.events, k)
  {
    if k == 0 {
    } else {
      if k > 1 {
        assert InLog(log, c.events[k - 2]);
      }
      StoredBelow(log, c, k - 1);
    }
  }

  /** A stream that ends in an event of the batch leaves the batch on track. */
  lemma {:induction false} EndsInMine(log: seq<Event>, c: Call)
    requires Numbered(log) && PrefixClosed(log, c) && Consecutive(c.expected, c.events)
    requires log != [] && log[|log| - 1] in c.events
    ensures OnTrack(log, c.events)
  {
    var k :| 0 <= k < |c.events| && c.events[k] == log[|log| - 1];
    assert InLog(log, c.events[k]);
    if k + 1 < |c.events| {
      LandedAtTip(log, c, k + 1);
    } else {
      StoredBelow(log, c, |c.events|);
      LandedAtLeast(log, c.events, |c.events|);
    }
  }

  /** Late publishes land only where the batch goes on. */
  lemma {:induction false} GrowsOnTrack(log: seq<Event>, longer: seq<Event>, c: Call)
    requires Numbered(longer) && PrefixClosed(longer, c) && PrefixClosed(log, c) && Consecutive(c.expected, c.events)
    requires log <= longer && log != longer && longer[|log|] in c.events
    ensures FitsTip(log, c.events)
  {
    var k :| 0 <= k < |c.events| && c.events[k] == longer[|log|];
    assert InLog(longer, c.events[k]);
    if k > 0 {
      assert InLog(longer, c.events[k - 1]);
      assert InLog(log, c.events[k - 1]);
    }
    LandedAtTip(log, c, k);
  }

  /** Between two steps of an undisturbed call: the batch stays where it was, on
      track or not, and if anything landed it was on track. */
  lemma {:induction false} LateKeepsTrack(s: System, s': System, w: nat, had: nat, has: nat)
    requires Reachable(s) && Reachable(s') && OnlyLate(s, s', w, had, has) && w in s.calls
    requires Sound(s, s.calls[w])
    ensures OneKind(s'.sid, s'.log, s.calls[w].events)
    ensures OnTrack(s'.log, s.calls[w].events) <==> OnTrack(s.log, s.calls[w].events)
    ensures s'.log != s.log ==>
              FitsTip(s.log, s.calls[w].events) && OnTrack(s'.log, s.calls[w].events) && has < had
  {
    var c := s.calls[w];
    if s'.log != s.log {
      CallClosed(s, w);
      CallClosed(s', w);
      GrowsOnTrack(s.log, s'.log, c);
      EndsInMine(s'.log, c);
    }
  }

  lemma {:induction false} CallClosed(s: System, w: nat)
    requires Reachable(s) && w in s.calls
    ensures Numbered(s.log) && PrefixClosed(s.log, s.calls[w])
  {
    ReachableKeepsInv(s);
    assert CallOk(s.log, s.calls[w]);
  }

  /** A batch that expects the tip fits it. */
  lemma {:induction false} ExpectsTip(log: seq<Event>, events: seq<Event>)
    requires events != [] && Consecutive(|log|, events)
    ensures FitsTip(log, events)
  {
    assert !InLog(log, events[0]);
  }

  /** A call that is ready at the tip goes on there. */
  lemma {:induction false} ReadyFits(s: System, w: nat)
    requires Reachable(s) && w in s.calls && s.calls[w].pc.Ready? && s.calls[w].base == |s.log| && Sound(s, s.calls[w])
    ensures FitsTip(s.log, s.calls[w].events)
  {
    ReachableKeepsInv(s);
    var c := s.calls[w];
    assert CallOk(s.log, c);
    if c.skipped > 0 {
      assert InLog(s.log, c.events[c.skipped - 1]);
    }
    LandedAtTip(s.log, c, c.skipped);
  }

  /** A publish that is stored leaves the batch on track. */
  lemma {:induction false} StoredKeepsTrack(s: System, w: nat, fate: PublishFate)
    requires Reachable(s) && Enabled(s, Publish(w, fate)) && Sound(s, s.calls[w]) && OnTrack(s.log, s.calls[w].events)
    ensures var s' := Apply(s, Publish(w, fate)); Sound(s', s'.calls[w]) && OnTrack(s'.log, s'.calls[w].events)
  {
    var s' := Apply(s, Publish(w, fate));
    if s'.log != s.log {
      ReachableStep(s, Publish(w, fate));
      CallClosed(s', w);
      assert s'.log[|s'.log| - 1] == NextTicket(w, s.calls[w]).p.e;
      EndsInMine(s'.log, s'.calls[w]);
    }
  }

  /** A publish anchored at the tip is stored. */
  lemma {:induction false} AnchoredIsStored(s: System, w: nat, window: bool)
    requires Reachable(s) && Enabled(s, Publish(w, Rejected)) && s.calls[w].pc.anchor == |s.log|
    ensures Judge(s.log, NextTicket(w, s.calls[w]).p, window) == Stored
  {
    ReachableKeepsInv(s);
    var t := NextTicket(w, s.calls[w]);
    TicketIsNext(s, w);
    if t.p.e.id in Ids(s.log) {
      StoredIsKnownById(s, t.p.e);
    }
  }

  /** What a reload finds of a sound batch. */
  lemma {:induction false} ReloadOnTrack(s: System, w: nat)
    requires Reachable(s) && Enabled(s, Reconcile(w, Loaded)) && Sound(s, s.calls[w])
    ensures Sound(Apply(s, Reconcile(w, Loaded)), Apply(s, Reconcile(w, Loaded)).calls[w])
    ensures var c := s.calls[w];
            && c.skipped + Head(c.events[c.skipped..], Ids(s.log)) == Landed(s.log, c.events)
            && MaxVersion(s.log) == |s.log| && c.base == c.expected + c.skipped
  {
    CallInHand(s, w);
    HeadIsLanded(s, s.calls[w]);
    MaxVersionIsTip(s.log);
  }
}
