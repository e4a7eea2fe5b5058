/** Whatever the interleaving, a stream holds events of one aggregate and one type. */
module AppendKinds {
  import opened EventStore
  import opened AppendProtocol
  import opened AppendGuarantees

  ghost predicate OneKindOnly(sid: string, log: seq<Event>) {
    forall i :: 0 <= i < |log| ==> log[i].streamID == sid && log[i].streamType == log[0].streamType != ""
  }

  /** The event is of the kind of what it is anchored to. */
  ghost predicate Anchored(s: System, anchor: int, e: Event) {
    e.streamID == s.sid && e.streamType != ""
    && (0 < anchor <= |s.log| ==> s.log[anchor - 1].streamType == e.streamType)
  }

  /** What a call has yet to publish passed the checks. */
  ghost predicate CallKind(s: System, c: Call) {
    c.pc.Publishing? ==>
      && c.skipped + c.pc.i < |c.events| && 0 <= c.pc.anchor <= |s.log|
      && forall k :: c.skipped + c.pc.i <= k < |c.events| ==>
           Anchored(s, c.pc.anchor, c.events[k]) && c.events[k].streamType == c.events[c.skipped + c.pc.i].streamType
  }

  ghost predicate TicketKind(s: System, t: Ticket) {
    Anchored(s, t.p.anchor, t.p.e) && 0 <= t.p.anchor <= |s.log|
  }

  ghost predicate Kinds(s: System) {
    && OneKindOnly(s.sid, s.log)
    && (forall w :: w in s.calls ==> CallKind(s, s.calls[w]))
    && (forall t :: t in s.wire ==> TicketKind(s, t))
  }

  /** An event anchored at the tip keeps the stream of one kind. */
  lemma {:induction false} GrowthKeepsKinds(s: System, e: Event)
    requires Kinds(s) && Anchored(s, |s.log|, e)
    ensures Kinds(s.(log := s.log + [e]))
  {
    var s' := s.(log := s.log + [e]);
    forall w | w in s'.calls ensures CallKind(s', s'.calls[w]) {
      assert CallKind(s, s.calls[w]);
    }
    forall t | t in s'.wire ensures TicketKind(s', t) {
      assert TicketKind(s, t);
    }
  }

  lemma {:induction false} CallKeepsKinds(s: System, w: nat, c: Call)
    requires Kinds(s) && CallKind(s, c)
    ensures Kinds(s.(calls := s.calls[w := c]))
  {
    var s' := s.(calls := s.calls[w := c]);
    forall v | v in s'.calls ensures CallKind(s', s'.calls[v]) {
      assert v != w ==> CallKind(s, s.calls[v]);
    }
    forall t | t in s'.wire ensures TicketKind(s', t) {
      assert TicketKind(s, t);
    }
  }

  lemma {:induction false} BeginKeepsKinds(s: System, w: nat, readFault: bool)
    requires Inv(s) && Kinds(s) && Enabled(s, BeginAppend(w, readFault))
    ensures CallKind(s, Apply(s, BeginAppend(w, readFault)).calls[w])
  {
    var c := Apply(s, BeginAppend(w, readFault)).calls[w];
    if c.pc.Publishing? {
      PassedIsOfKind(s, c);
    }
  }

  lemma {:induction false} PassedIsOfKind(s: System, c: Call)
    requires Kinds(s) && c.skipped < |c.events| && c.pc == Publishing(0, |s.log|)
    requires Validate(s.sid, c.base, c.events[c.skipped..]) == {}
    requires s.log != [] && s.log[|s.log| - 1].streamType != "" ==>
               s.log[|s.log| - 1].streamType == c.events[c.skipped].streamType
    ensures CallKind(s, c)
  {
    var remaining := c.events[c.skipped..];
    ValidationIsExact(s.sid, c.base, remaining);
    forall k | c.skipped <= k < |c.events|
      ensures Anchored(s, |s.log|, c.events[k]) && c.events[k].streamType == c.events[c.skipped].streamType
    {
      assert c.events[k] == remaining[k - c.skipped];
    }
  }

  /** The publish that is due, and what is stored of it. */
  lemma {:induction false} NextKind(s: System, w: nat, window: bool)
    requires Inv(s) && Kinds(s) && Enabled(s, Publish(w, Acked(window)))
    ensures var t := NextTicket(w, s.calls[w]);
            && TicketKind(s, t) && Kinds(s.(log := Deliver(s.log, t.p, window)))
            && (Judge(s.log, t.p, window).Duplicate? ==>
                  InLog(s.log, t.p.e) && Judge(s.log, t.p, window).position == t.p.e.version)
  {
    var t := NextTicket(w, s.calls[w]);
    assert CallKind(s, s.calls[w]);
    TicketIsNext(s, w);
    DeliveryKeeps(s, t, window);
    if Judge(s.log, t.p, window).Stored? {
      GrowthKeepsKinds(s, t.p.e);
    }
  }

  /** What is left after an acknowledgement is of the kind of what was acknowledged. */
  lemma {:induction false} AckedKeepsKinds(s: System, s': System, w: nat, position: int)
    requires w in s.calls && s.calls[w].pc.Publishing? && CallKind(s, s.calls[w])
    requires s'.sid == s.sid && 1 <= position <= |s'.log|
    requires s'.log[position - 1] == s.calls[w].events[s.calls[w].skipped + s.calls[w].pc.i]
    ensures CallKind(s', Acknowledged(s.calls[w], position))
  {
    var c := s.calls[w];
    var i := c.skipped + c.pc.i;
    forall k | i <= k < |c.events|
      ensures Anchored(s', position, c.events[k]) && c.events[k].streamType == c.events[i].streamType
    {
      assert Anchored(s, c.pc.anchor, c.events[k]);
    }
  }

  lemma {:induction false} AckKeepsKinds(s: System, w: nat, window: bool)
    requires Inv(s) && Kinds(s) && Enabled(s, Publish(w, Acked(window)))
    ensures Kinds(Apply(s, Publish(w, Acked(window))))
  {
    var t := NextTicket(w, s.calls[w]);
    NextKind(s, w, window);
    var grown := s.(log := Deliver(s.log, t.p, window));
    match Judge(s.log, t.p, window) {
      case Stored => AckedKeepsKinds(s, grown, w, |s.log| + 1);
      case Duplicate(position) => AckedKeepsKinds(s, grown, w, position);
      case WrongLast =>
    }
    CallKeepsKinds(grown, w, Apply(s, Publish(w, Acked(window))).calls[w]);
  }

  lemma {:induction false} PublishKeepsKinds(s: System, w: nat, fate: PublishFate)
    requires Inv(s) && Kinds(s) && Enabled(s, Publish(w, fate))
    ensures Kinds(Apply(s, Publish(w, fate)))
  {
    var c, t, s' := s.calls[w], NextTicket(w, s.calls[w]), Apply(s, Publish(w, fate));
    match fate
    case Acked(window) => AckKeepsKinds(s, w, window);
    case AckLost(window) =>
      NextKind(s, w, window);
      CallKeepsKinds(s.(log := Deliver(s.log, t.p, window)), w, s'.calls[w]);
    case Delayed =>
      NextKind(s, w, false);
      CallKeepsKinds(s, w, s'.calls[w]);
      WireKeepsKinds(s.(calls := s.calls[w := s'.calls[w]]), t);
    case Rejected => CallKeepsKinds(s, w, s'.calls[w]);
  }

  lemma {:induction false} WireKeepsKinds(s: System, t: Ticket)
    requires Kinds(s) && TicketKind(s, t)
    ensures Kinds(s.(wire := s.wire + {t}))
  {
    var s' := s.(wire := s.wire + {t});
    forall w | w in s'.calls ensures CallKind(s', s'.calls[w]) {
      assert CallKind(s, s.calls[w]);
    }
    forall u | u in s'.wire ensures TicketKind(s', u) {
      assert u != t ==> TicketKind(s, u);
    }
  }

  lemma {:induction false} MintingKeepsKinds(s: System, minted: set<Event>)
    requires Kinds(s)
    ensures Kinds(s.(minted := minted))
  {
    var s' := s.(minted := minted);
    forall w | w in s'.calls ensures CallKind(s', s'.calls[w]) {
      assert CallKind(s, s.calls[w]);
    }
    forall t | t in s'.wire ensures TicketKind(s', t) {
      assert TicketKind(s, t);
    }
  }

  lemma {:induction false} StepKeepsKinds(s: System, a: Action)
    requires Inv(s) && Kinds(s) && Enabled(s, a)
    ensures Kinds(Apply(s, a))
  {
    var s' := Apply(s, a);
    match a
    case Start(w, expected, events) =>
      CallKeepsKinds(s, w, s'.calls[w]);
      MintingKeepsKinds(s.(calls := s'.calls), s'.minted);
    case Resubmit(w) => CallKeepsKinds(s, w, s'.calls[w]);
    case BeginAppend(w, readFault) =>
      BeginKeepsKinds(s, w, readFault);
      CallKeepsKinds(s, w, s'.calls[w]);
    case Publish(w, fate) => PublishKeepsKinds(s, w, fate);
    case Reconcile(w, how) => CallKeepsKinds(s, w, s'.calls[w]);
    case Land(t, window) =>
      if Judge(s.log, t.p, window).Stored? {
        assert TicketKind(s, t);
        GrowthKeepsKinds(s, t.p.e);
      }
    case Foreign(e) =>
      GrowthKeepsKinds(s, e);
      MintingKeepsKinds(s.(log := s'.log), s'.minted);
  }

  lemma {:induction false} RunKeepsKinds(sid: string, run: seq<Action>)
    requires RunsFrom(Init(sid), run)
    ensures Kinds(After(Init(sid), run)) && After(Init(sid), run).sid == sid
    decreases |run|
  {
    if run == [] {
    } else {
      RunKeepsKinds(sid, run[..|run| - 1]);
      RunKeepsInv(Init(sid), run[..|run| - 1]);
      StepKeepsKinds(After(Init(sid), run[..|run| - 1]), run[|run| - 1]);
    }
  }

  /** In every reachable state all events of the stream carry its ID and one type. */
  lemma {:induction false} StreamStaysOfOneKind(s: System)
    requires Reachable(s)
    ensures OneKindOnly(s.sid, s.log)
  {
    var sid, run :| RunsFrom(Init(sid), run) && After(Init(sid), run) == s;
    RunKeepsKinds(sid, run);
  }
}
