/** AppendWithRetry as a protocol: any number of calls, each cut into its atomic
    interactions with the broker, interleaved with each other, with writers that
    do not use the retry loop, and with publishes that land after their caller
    has already given up on them. */
module AppendProtocol {
  import opened EventStore

  const APPEND_RETRY_ATTEMPTS := 5

  datatype Result = Success | Failed(what: Failure)

  /** Where a call stands. `Publishing(i, anchor)` is about to publish the i-th
      remaining event; `Reconciling` has a conflict or an unknown outcome in hand. */
  datatype Pc = Ready | Publishing(i: nat, anchor: int) | Reconciling(cause: Failure) | Returned(result: Result)

  /** One call. `remaining` in the source is `events[skipped..]` here. */
  datatype Call = Call(expected: int, events: seq<Event>, base: int, skipped: nat, attempts: nat, pc: Pc)

  /** A publish whose outcome its caller does not know: the `k`-th event of call `w`. */
  datatype Ticket = Ticket(w: nat, k: nat, p: Publication)

  /** `minted` holds every event ever created: IDs are never given to another
      event. Handing a returned call's batch in again makes it a new call with
      the same events. */
  datatype System = System(sid: string, log: seq<Event>, wire: set<Ticket>, calls: map<nat, Call>, minted: set<Event>)

  datatype PublishFate = Acked(window: bool) | AckLost(window: bool) | Delayed | Rejected
  datatype ReconcileFate = ContextDead | LoadFault | Loaded

  datatype Action =
    | Start(w: nat, expected: int, events: seq<Event>)
    | Resubmit(w: nat)
    | BeginAppend(w: nat, readFault: bool)
    | Publish(w: nat, fate: PublishFate)
    | Reconcile(w: nat, how: ReconcileFate)
    | Land(t: Ticket, window: bool)
    | Foreign(e: Event)

  predicate Fresh(minted: set<Event>, events: seq<Event>) {
    && (forall i, j :: 0 <= i < j < |events| ==> events[i].id != events[j].id)
    && (forall i, m :: 0 <= i < |events| && m in minted ==> events[i].id != m.id)
  }

  predicate Enabled(s: System, a: Action) {
    match a
    case Start(w, expected, events) => w !in s.calls && Fresh(s.minted, events)
    case Resubmit(w) => w in s.calls && s.calls[w].pc.Returned?
    case BeginAppend(w, _) => w in s.calls && s.calls[w].pc.Ready? && s.calls[w].skipped < |s.calls[w].events|
    case Publish(w, _) =>
      w in s.calls && s.calls[w].pc.Publishing? && s.calls[w].skipped + s.calls[w].pc.i < |s.calls[w].events|
    case Reconcile(w, _) => w in s.calls && s.calls[w].pc.Reconciling? && s.calls[w].skipped < |s.calls[w].events|
    case Land(t, _) => t in s.wire
    case Foreign(e) =>
      && e.version == |s.log| + 1 && Fresh(s.minted, [e]) && e.streamID == s.sid && e.streamType != ""
      && (s.log != [] ==> e.streamType == s.log[|s.log| - 1].streamType)
  }

  function Apply(s: System, a: Action): System
    requires Enabled(s, a)
  {
    match a
    case Start(w, expected, events) =>
      s.(calls := s.calls[w := NewCall(expected, events)],
         minted := s.minted + set i | 0 <= i < |events| :: events[i])
    case Resubmit(w) => s.(calls := s.calls[w := NewCall(s.calls[w].expected, s.calls[w].events)])
    case BeginAppend(w, readFault) =>
      s.(calls := s.calls[w := AppendChecks(s.sid, s.log, s.calls[w], readFault)])
    case Publish(w, fate) => PublishNext(s, w, fate)
    case Reconcile(w, how) =>
      s.(calls := s.calls[w := Reconciled(s.calls[w], how, s.log)])
    case Land(t, window) => s.(log := Deliver(s.log, t.p, window))
    case Foreign(e) => s.(log := s.log + [e], minted := s.minted + {e})
  }

  function NewCall(expected: int, events: seq<Event>): Call {
    Call(expected, events, expected, 0, 0, if events == [] then Returned(Success) else Ready)
  }

  /** What the loop does with a failed append. */
  function AfterFailure(c: Call, what: Failure): Call {
    if Conflict in what || Indeterminate in what then c.(pc := Reconciling(what))
    else c.(pc := Returned(Failed(what)))
  }

  /** The part of Append before the first publish: validation, the read of the
      tip, the version check and the aggregate-type guard. */
  function AppendChecks(sid: string, log: seq<Event>, call: Call, readFault: bool): Call
    requires call.skipped < |call.events|
  {
    var c := call.(attempts := call.attempts + 1);
    var remaining := c.events[c.skipped..];
    var invalid := Validate(sid, c.base, remaining);
    if invalid != {} then AfterFailure(c, invalid)
    else if readFault then AfterFailure(c, {Other})
    else if TipVersion(log) != c.base then AfterFailure(c, {Conflict})
    else if log != [] && log[|log| - 1].streamType != "" && log[|log| - 1].streamType != remaining[0].streamType then
      AfterFailure(c, {Other})
    else c.(pc := Publishing(0, |log|))
  }

  function NextTicket(w: nat, c: Call): Ticket
    requires c.pc.Publishing? && c.skipped + c.pc.i < |c.events|
  {
    Ticket(w, c.skipped + c.pc.i, Publication(c.events[c.skipped + c.pc.i], c.pc.anchor))
  }

  function PublishNext(s: System, w: nat, fate: PublishFate): System
    requires Enabled(s, Publish(w, fate))
  {
    var c := s.calls[w];
    var t := NextTicket(w, c);
    match fate
    case Acked(window) =>
      var c' := match Judge(s.log, t.p, window)
        case Stored => Acknowledged(c, |s.log| + 1)
        case Duplicate(position) => Acknowledged(c, position)
        case WrongLast => AfterFailure(c, {Conflict});
      s.(log := Deliver(s.log, t.p, window), calls := s.calls[w := c'])
    case AckLost(window) =>
      s.(log := Deliver(s.log, t.p, window), calls := s.calls[w := AfterFailure(c, {Indeterminate})])
    case Delayed =>
      s.(wire := s.wire + {t}, calls := s.calls[w := AfterFailure(c, {Indeterminate})])
    case Rejected =>
      s.(calls := s.calls[w := AfterFailure(c, {Other})])
  }

  function Acknowledged(c: Call, position: int): Call
    requires c.pc.Publishing? && c.skipped + c.pc.i < |c.events|
  {
    if c.skipped + c.pc.i + 1 == |c.events| then c.(pc := Returned(Success))
    else c.(pc := Publishing(c.pc.i + 1, position))
  }

  /** Our persisted prefix, counted by ID. */
  function Head(remaining: seq<Event>, present: set<string>): (head: nat)
    ensures head <= |remaining|
  {
    if remaining != [] && remaining[0].id in present then 1 + Head(remaining[1..], present) else 0
  }

  function Reconciled(c: Call, how: ReconcileFate, loaded: seq<Event>): Call
    requires c.pc.Reconciling? && c.skipped < |c.events|
  {
    match how
    case ContextDead => c.(pc := Returned(Failed(c.pc.cause + {Canceled})))
    case LoadFault => c.(pc := Returned(Failed(c.pc.cause + {LoadFailed})))
    case Loaded => Decide(c, Head(c.events[c.skipped..], Ids(loaded)), MaxVersion(loaded))
  }

  /** `head` events of the rest of the batch are stored and the stream ends at version `tip`. */
  function Decide(c: Call, head: nat, tip: int): Call
    requires c.pc.Reconciling? && c.skipped + head <= |c.events|
  {
    if c.skipped + head == |c.events| then c.(pc := Returned(Success))
    else if head == 0 then
      if tip != c.base then c.(pc := Returned(Failed({Conflict} + c.pc.cause))) else TryAgain(c)
    else if c.events[c.skipped + head].version != tip + 1 then c.(pc := Returned(Failed({Conflict} + c.pc.cause)))
    else TryAgain(c.(base := tip, skipped := c.skipped + head))
  }

  function TryAgain(c: Call): Call
    requires c.pc.Reconciling?
  {
    if c.attempts >= APPEND_RETRY_ATTEMPTS then c.(pc := Returned(Failed(c.pc.cause))) else c.(pc := Ready)
  }

  /** Runs. */
  predicate RunsFrom(s: System, run: seq<Action>)
    decreases |run|, 0
  {
    run == [] || (RunsFrom(s, run[..|run| - 1]) && Enabled(After(s, run[..|run| - 1]), run[|run| - 1]))
  }

  function After(s: System, run: seq<Action>): System
    requires RunsFrom(s, run)
    decreases |run|, 1
  {
    if run == [] then s else Apply(After(s, run[..|run| - 1]), run[|run| - 1])
  }

  function Init(sid: string): System {
    System(sid, [], {}, map[], {})
  }

  // ---------------------------------------------------------------- invariant

  /** The first `n` events of a batch are stored. */
  ghost predicate StoredUpTo(log: seq<Event>, events: seq<Event>, n: int) {
    forall k :: 0 <= k < n && k < |events| ==> InLog(log, events[k])
  }

  /** Every event created is known by its ID, and everything stored was created. */
  ghost predicate Identified(s: System) {
    && (forall d, e :: d in s.minted && e in s.minted && d.id == e.id ==> d == e)
    && (forall i :: 0 <= i < |s.log| ==> s.log[i] in s.minted)
    && (forall w, k :: w in s.calls && 0 <= k < |s.calls[w].events| ==> s.calls[w].events[k] in s.minted)
  }

  /** No event belongs to two places of the calls' batches. */
  ghost predicate Owned(s: System) {
    forall v, w, j, k | v in s.calls && w in s.calls && 0 <= j < |s.calls[v].events| && 0 <= k < |s.calls[w].events| ::
      s.calls[v].events[j] == s.calls[w].events[k] ==> v == w && j == k
  }

  /** What is stored of a batch is a prefix of it. */
  ghost predicate PrefixClosed(log: seq<Event>, c: Call) {
    forall k :: 0 < k < |c.events| && InLog(log, c.events[k]) ==> InLog(log, c.events[k - 1])
  }

  ghost predicate Numbering(log: seq<Event>, c: Call) {
    (exists k :: 0 <= k < |c.events| && InLog(log, c.events[k])) ==> Consecutive(c.expected, c.events)
  }

  ghost predicate CallOk(log: seq<Event>, c: Call) {
    && PrefixClosed(log, c)
    && Numbering(log, c)
    && c.attempts <= APPEND_RETRY_ATTEMPTS
    && (c.pc.Ready? ==> c.attempts < APPEND_RETRY_ATTEMPTS)
    && c.base == c.expected + c.skipped
    && c.skipped <= |c.events|
    && (!c.pc.Returned? ==> c.skipped < |c.events|)
    && StoredUpTo(log, c.events, c.skipped)
    && (c.pc.Publishing? ==>
        && Consecutive(c.expected, c.events)
        && c.skipped + c.pc.i < |c.events|
        && 0 <= c.pc.anchor == c.base + c.pc.i <= |log|
        && StoredUpTo(log, c.events, c.skipped + c.pc.i))
    && (c.pc.Reconciling? ==> Conflict in c.pc.cause || Indeterminate in c.pc.cause)
    && (c.pc == Returned(Success) ==> StoredUpTo(log, c.events, |c.events|))
  }

  /** A publish on the wire is the next event of its batch: all before it are stored. */
  ghost predicate TicketOk(s: System, t: Ticket) {
    && t.w in s.calls
    && t.k < |s.calls[t.w].events|
    && t.p.e == s.calls[t.w].events[t.k]
    && Consecutive(s.calls[t.w].expected, s.calls[t.w].events)
    && 0 <= t.p.anchor == t.p.e.version - 1 <= |s.log|
    && StoredUpTo(s.log, s.calls[t.w].events, t.k)
  }

  ghost predicate Inv(s: System) {
    && Numbered(s.log)
    && Identified(s)
    && Owned(s)
    && (forall w :: w in s.calls ==> CallOk(s.log, s.calls[w]))
    && (forall t :: t in s.wire ==> TicketOk(s, t))
  }

  // ------------------------------------------------------- preservation

  lemma {:induction false} StoredIsKnownById(s: System, e: Event)
    requires Numbered(s.log) && Identified(s) && e in s.minted && e.id in Ids(s.log)
    ensures InLog(s.log, e)
  {
    var i :| 0 <= i < |s.log| && s.log[i].id == e.id;
    assert s.log[i] in s.minted;
  }

  lemma {:induction false} IdsAreDistinct(s: System)
    requires Numbered(s.log) && Identified(s)
    ensures DistinctIds(s.log)
  {
    forall i, j | 0 <= i < j < |s.log| ensures s.log[i].id != s.log[j].id {
      assert s.log[i] in s.minted && s.log[j] in s.minted;
    }
  }

  /** A call changed, its batch did not. */
  lemma {:induction false} CallStepKeeps(s: System, w: nat, c: Call)
    requires Inv(s) && w in s.calls
    requires c.events == s.calls[w].events && c.expected == s.calls[w].expected
    requires CallOk(s.log, c)
    ensures Inv(s.(calls := s.calls[w := c]))
  {
    var s' := s.(calls := s.calls[w := c]);
    forall t | t in s'.wire ensures TicketOk(s', t) {
      assert TicketOk(s, t);
    }
  }

  lemma {:induction false} GrowthKeepsCall(log: seq<Event>, e: Event, c: Call)
    requires Numbered(log) && e.version == |log| + 1 && CallOk(log, c)
    requires forall k :: 0 <= k < |c.events| && c.events[k] == e ==>
               Consecutive(c.expected, c.events) && StoredUpTo(log, c.events, k)
    ensures CallOk(log + [e], c)
  {
    var log' := log + [e];
    assert forall x :: InLog(log, x) ==> InLog(log', x);
    assert forall x :: InLog(log', x) ==> InLog(log, x) || x == e;
    forall k | 0 < k < |c.events| && InLog(log', c.events[k]) ensures InLog(log', c.events[k - 1]) {
      if !InLog(log, c.events[k]) {
        assert c.events[..k][k - 1] == c.events[k - 1];
      }
    }
  }

  /** The stream grew by one known event that every batch holding it was due to store next. */
  lemma {:induction false} GrowthKeeps(s: System, e: Event)
    requires Inv(s) && e in s.minted && e.version == |s.log| + 1
    requires forall w, k :: w in s.calls && 0 <= k < |s.calls[w].events| && s.calls[w].events[k] == e ==>
               Consecutive(s.calls[w].expected, s.calls[w].events) && StoredUpTo(s.log, s.calls[w].events, k)
    ensures Inv(s.(log := s.log + [e]))
  {
    var s' := s.(log := s.log + [e]);
    forall w | w in s'.calls ensures CallOk(s'.log, s'.calls[w]) {
      GrowthKeepsCall(s.log, e, s.calls[w]);
    }
    forall t | t in s'.wire ensures TicketOk(s', t) {
      assert TicketOk(s, t);
    }
  }

  lemma {:induction false} DeliveryKeeps(s: System, t: Ticket, window: bool)
    requires Inv(s) && TicketOk(s, t)
    ensures Inv(s.(log := Deliver(s.log, t.p, window)))
    ensures Judge(s.log, t.p, window).Stored? ==> InLog(s.log + [t.p.e], t.p.e)
    ensures Judge(s.log, t.p, window).Duplicate? ==>
              InLog(s.log, t.p.e) && Judge(s.log, t.p, window).position == t.p.e.version
  {
    match Judge(s.log, t.p, window)
    case Stored => GrowthKeeps(s, t.p.e);
    case Duplicate(_) =>
      StoredIsKnownById(s, t.p.e);
      IdsAreDistinct(s);
      PositionIs(s.log, t.p.e.version - 1);
    case WrongLast =>
  }

  lemma {:induction false} ValidBatchIsConsecutive(sid: string, log: seq<Event>, c: Call)
    requires c.skipped < |c.events| && c.base == c.expected + c.skipped
    requires Numbering(log, c) && StoredUpTo(log, c.events, c.skipped)
    requires Validate(sid, c.base, c.events[c.skipped..]) == {}
    ensures Consecutive(c.expected, c.events)
  {
    if c.skipped > 0 {
      assert InLog(log, c.events[0]);
    } else {
      assert c.events[0..] == c.events;
      ValidFrom(sid, c.base, c.events, 0);
    }
  }

  lemma {:induction false} AttemptFails(log: seq<Event>, c: Call, what: Failure)
    requires CallOk(log, c) && c.pc.Ready?
    ensures CallOk(log, AfterFailure(c.(attempts := c.attempts + 1), what))
  {
  }

  lemma {:induction false} AttemptPublishes(sid: string, log: seq<Event>, c: Call)
    requires Numbered(log) && CallOk(log, c) && c.pc.Ready? && TipVersion(log) == c.base
    requires Validate(sid, c.base, c.events[c.skipped..]) == {}
    ensures CallOk(log, c.(attempts := c.attempts + 1, pc := Publishing(0, |log|)))
  {
    ValidBatchIsConsecutive(sid, log, c);
    assert |log| == TipVersion(log);
  }

  lemma {:induction false} ChecksKeep(sid: string, log: seq<Event>, c: Call, fault: bool)
    requires Numbered(log) && CallOk(log, c) && c.pc.Ready?
    ensures CallOk(log, AppendChecks(sid, log, c, fault))
  {
    var invalid := Validate(sid, c.base, c.events[c.skipped..]);
    if invalid != {} {
      AttemptFails(log, c, invalid);
    } else if !fault && TipVersion(log) != c.base {
      AttemptFails(log, c, {Conflict});
    } else {
      AttemptFails(log, c, {Other});
      if !fault {
        AttemptPublishes(sid, log, c);
      }
    }
  }

  lemma {:induction false} HeadIsStored(s: System, events: seq<Event>)
    requires Numbered(s.log) && Identified(s)
    requires forall k :: 0 <= k < |events| ==> events[k] in s.minted
    ensures StoredUpTo(s.log, events, Head(events, Ids(s.log)))
    ensures Head(events, Ids(s.log)) < |events| ==> !InLog(s.log, events[Head(events, Ids(s.log))])
  {
    if events == [] || events[0].id !in Ids(s.log) {
    } else {
      StoredIsKnownById(s, events[0]);
      HeadIsStored(s, events[1..]);
      var h := Head(events[1..], Ids(s.log));
      forall k | 0 <= k < h + 1 ensures InLog(s.log, events[k]) {
        if k > 0 {
          assert InLog(s.log, events[1..][k - 1]);
        }
      }
    }
  }

  /** With the stored prefix counted, the batch is `n` events further. */
  lemma {:induction false} SkippedAndHead(s: System, c: Call)
    requires Numbered(s.log) && Identified(s) && c.skipped < |c.events|
    requires forall k :: 0 <= k < |c.events| ==> c.events[k] in s.minted
    requires StoredUpTo(s.log, c.events, c.skipped)
    ensures StoredUpTo(s.log, c.events, c.skipped + Head(c.events[c.skipped..], Ids(s.log)))
    ensures var n := c.skipped + Head(c.events[c.skipped..], Ids(s.log));
            n < |c.events| ==> !InLog(s.log, c.events[n])
  {
    var remaining := c.events[c.skipped..];
    var head := Head(remaining, Ids(s.log));
    HeadIsStored(s, remaining);
    forall k | c.skipped <= k < c.skipped + head ensures InLog(s.log, c.events[k]) {
      assert InLog(s.log, remaining[k - c.skipped]);
    }
  }

  lemma {:induction false} ResumeKeeps(log: seq<Event>, c: Call, n: nat)
    requires Numbered(log) && CallOk(log, c) && c.pc.Reconciling?
    requires c.skipped < n < |c.events| && StoredUpTo(log, c.events, n)
    requires c.events[n].version == |log| + 1
    ensures CallOk(log, TryAgain(c.(base := |log|, skipped := n)))
  {
    assert InLog(log, c.events[0]);
  }

  lemma {:induction false} DecideKeeps(log: seq<Event>, c: Call, head: nat)
    requires Numbered(log) && CallOk(log, c) && c.pc.Reconciling?
    requires c.skipped + head <= |c.events| && StoredUpTo(log, c.events, c.skipped + head)
    ensures CallOk(log, Decide(c, head, |log|))
  {
    if 0 < head < |c.events| - c.skipped && c.events[c.skipped + head].version == |log| + 1 {
      ResumeKeeps(log, c, c.skipped + head);
    }
  }

  lemma {:induction false} ReconcileKeeps(s: System, c: Call, how: ReconcileFate)
    requires Numbered(s.log) && Identified(s) && CallOk(s.log, c) && c.pc.Reconciling?
    requires forall k :: 0 <= k < |c.events| ==> c.events[k] in s.minted
    ensures CallOk(s.log, Reconciled(c, how, s.log))
  {
    if how.Loaded? {
      MaxVersionIsTip(s.log);
      SkippedAndHead(s, c);
      DecideKeeps(s.log, c, Head(c.events[c.skipped..], Ids(s.log)));
    }
  }

  lemma {:induction false} AcknowledgedKeeps(log: seq<Event>, c: Call)
    requires CallOk(log, c) && c.pc.Publishing? && InLog(log, c.events[c.skipped + c.pc.i])
    ensures CallOk(log, Acknowledged(c, c.events[c.skipped + c.pc.i].version))
  {
  }

  lemma {:induction false} TicketIsNext(s: System, w: nat)
    requires Inv(s) && w in s.calls && s.calls[w].pc.Publishing?
    ensures s.calls[w].skipped + s.calls[w].pc.i < |s.calls[w].events|
    ensures TicketOk(s, NextTicket(w, s.calls[w]))
  {
    assert CallOk(s.log, s.calls[w]);
  }

  /** An accepted publish leaves its event in its slot, and the acknowledged
      position is that slot. */
  lemma {:induction false} AckPosition(s: System, t: Ticket, window: bool) returns (position: int)
    requires Inv(s) && TicketOk(s, t) && !Judge(s.log, t.p, window).WrongLast?
    ensures InLog(Deliver(s.log, t.p, window), t.p.e) && position == t.p.e.version
    ensures position ==
              match Judge(s.log, t.p, window)
              case Stored => |s.log| + 1
              case Duplicate(at) => at
              case WrongLast => 0
  {
    DeliveryKeeps(s, t, window);
    position := t.p.e.version;
  }

  lemma {:induction false} AckedKeeps(s: System, w: nat, window: bool)
    requires Inv(s) && Enabled(s, Publish(w, Acked(window)))
    ensures Inv(PublishNext(s, w, Acked(window)))
  {
    TicketIsNext(s, w);
    AnsweredKeeps(s, w, NextTicket(w, s.calls[w]), window);
  }

  lemma {:induction false} AnsweredKeeps(s: System, w: nat, t: Ticket, window: bool)
    requires Inv(s) && TicketOk(s, t) && w in s.calls && s.calls[w].pc.Publishing?
    requires var c := s.calls[w]; c.skipped + c.pc.i < |c.events| && t.p.e == c.events[c.skipped + c.pc.i]
    ensures var c := s.calls[w];
            var c' := match Judge(s.log, t.p, window)
              case Stored => Acknowledged(c, |s.log| + 1)
              case Duplicate(position) => Acknowledged(c, position)
              case WrongLast => AfterFailure(c, {Conflict});
            Inv(s.(log := Deliver(s.log, t.p, window), calls := s.calls[w := c']))
  {
    var s1 := s.(log := Deliver(s.log, t.p, window));
    DeliveryKeeps(s, t, window);
    if Judge(s.log, t.p, window).WrongLast? {
      UnknownKeeps(s1, w, {Conflict});
    } else {
      var position := AckPosition(s, t, window);
      AcknowledgmentKeeps(s1, w, position);
    }
  }

  lemma {:induction false} AcknowledgmentKeeps(s: System, w: nat, position: int)
    requires Inv(s) && w in s.calls && s.calls[w].pc.Publishing?
    requires s.calls[w].skipped + s.calls[w].pc.i < |s.calls[w].events|
    requires var e := s.calls[w].events[s.calls[w].skipped + s.calls[w].pc.i]; InLog(s.log, e) && position == e.version
    ensures Inv(s.(calls := s.calls[w := Acknowledged(s.calls[w], position)]))
  {
    assert CallOk(s.log, s.calls[w]);
    AcknowledgedKeeps(s.log, s.calls[w]);
    CallStepKeeps(s, w, Acknowledged(s.calls[w], position));
  }

  lemma {:induction false} UnknownKeeps(s: System, w: nat, what: Failure)
    requires Inv(s) && w in s.calls && s.calls[w].pc.Publishing?
    ensures Inv(s.(calls := s.calls[w := AfterFailure(s.calls[w], what)]))
  {
    assert CallOk(s.log, s.calls[w]);
    CallStepKeeps(s, w, AfterFailure(s.calls[w], what));
  }

  lemma {:induction false} PublishKeeps(s: System, w: nat, fate: PublishFate)
    requires Inv(s) && Enabled(s, Publish(w, fate))
    ensures Inv(PublishNext(s, w, fate))
  {
    var t := NextTicket(w, s.calls[w]);
    match fate
    case Acked(window) => AckedKeeps(s, w, window);
    case AckLost(window) =>
      TicketIsNext(s, w);
      DeliveryKeeps(s, t, window);
      UnknownKeeps(s.(log := Deliver(s.log, t.p, window)), w, {Indeterminate});
    case Delayed =>
      TicketIsNext(s, w);
      WireKeeps(s, t);
      UnknownKeeps(s.(wire := s.wire + {t}), w, {Indeterminate});
    case Rejected =>
      UnknownKeeps(s, w, {Other});
  }

  lemma {:induction false} WireKeeps(s: System, t: Ticket)
    requires Inv(s) && TicketOk(s, t)
    ensures Inv(s.(wire := s.wire + {t}))
  {
    var s' := s.(wire := s.wire + {t});
    forall u | u in s'.wire ensures TicketOk(s', u) {
      assert TicketOk(s, u);
    }
  }

  lemma {:induction false} MintingKeeps(s: System, created: set<Event>)
    requires Inv(s)
    requires forall d, e :: d in s.minted + created && e in s.minted + created && d.id == e.id ==> d == e
    ensures Inv(s.(minted := s.minted + created))
  {
    var s' := s.(minted := s.minted + created);
    forall t | t in s'.wire ensures TicketOk(s', t) {
      assert TicketOk(s, t);
    }
  }

  lemma {:induction false} NewCallIsOk(log: seq<Event>, expected: int, events: seq<Event>)
    requires forall k :: 0 <= k < |events| ==> !InLog(log, events[k])
    ensures CallOk(log, NewCall(expected, events))
  {
  }

  /** A new call whose events are known, stored nowhere and in no other batch. */
  lemma {:induction false} AddCallKeeps(s: System, w: nat, c: Call)
    requires Inv(s) && w !in s.calls && CallOk(s.log, c)
    requires forall k :: 0 <= k < |c.events| ==> c.events[k] in s.minted
    requires forall j, k :: 0 <= j < k < |c.events| ==> c.events[j] != c.events[k]
    requires forall v, j, k :: v in s.calls && 0 <= j < |s.calls[v].events| && 0 <= k < |c.events| ==>
               s.calls[v].events[j] != c.events[k]
    ensures Inv(s.(calls := s.calls[w := c]))
  {
    var s' := s.(calls := s.calls[w := c]);
    forall t | t in s'.wire ensures TicketOk(s', t) {
      assert TicketOk(s, t);
    }
  }

  lemma {:induction false} StartKeeps(s: System, w: nat, expected: int, events: seq<Event>)
    requires Inv(s) && Enabled(s, Start(w, expected, events))
    ensures Inv(Apply(s, Start(w, expected, events)))
  {
    var created := set i | 0 <= i < |events| :: events[i];
    MintingKeeps(s, created);
    var s1 := s.(minted := s.minted + created);
    assert forall k | 0 <= k < |events| :: events[k] in created && !InLog(s.log, events[k]);
    NewCallIsOk(s.log, expected, events);
    AddCallKeeps(s1, w, NewCall(expected, events));
  }

  lemma {:induction false} ForeignKeeps(s: System, e: Event)
    requires Inv(s) && Enabled(s, Foreign(e))
    ensures Inv(Apply(s, Foreign(e)))
  {
    assert [e][0] == e;
    MintingKeeps(s, {e});
    GrowthKeeps(s.(minted := s.minted + {e}), e);
  }

  lemma {:induction false} LandKeeps(s: System, t: Ticket, window: bool)
    requires Inv(s) && t in s.wire
    ensures Inv(s.(log := Deliver(s.log, t.p, window)))
  {
    assert TicketOk(s, t);
    DeliveryKeeps(s, t, window);
  }

  lemma {:induction false} ResubmitKeeps(s: System, w: nat)
    requires Inv(s) && Enabled(s, Resubmit(w))
    ensures Inv(Apply(s, Resubmit(w)))
  {
    assert CallOk(s.log, s.calls[w]);
    CallStepKeeps(s, w, NewCall(s.calls[w].expected, s.calls[w].events));
  }

  lemma {:induction false} BeginAppendKeeps(s: System, w: nat, readFault: bool)
    requires Inv(s) && Enabled(s, BeginAppend(w, readFault))
    ensures Inv(Apply(s, BeginAppend(w, readFault)))
  {
    var c := s.calls[w];
    assert CallOk(s.log, c);
    ChecksKeep(s.sid, s.log, c, readFault);
    CallStepKeeps(s, w, AppendChecks(s.sid, s.log, c, readFault));
  }

  lemma {:induction false} ReconcileStepKeeps(s: System, w: nat, how: ReconcileFate)
    requires Inv(s) && Enabled(s, Reconcile(w, how))
    ensures Inv(Apply(s, Reconcile(w, how)))
  {
    var c := s.calls[w];
    assert CallOk(s.log, c);
    ReconcileKeeps(s, c, how);
    ReconciledBatch(c, how, s.log);
    CallStepKeeps(s, w, Reconciled(c, how, s.log));
  }

  lemma {:induction false} ReconciledBatch(c: Call, how: ReconcileFate, loaded: seq<Event>)
    requires c.pc.Reconciling? && c.skipped < |c.events|
    ensures Reconciled(c, how, loaded).events == c.events && Reconciled(c, how, loaded).expected == c.expected
  {
  }

  /** Every step keeps the invariant. */
  lemma {:induction false} StepKeepsInv(s: System, a: Action)
    requires Inv(s) && Enabled(s, a)
    ensures Inv(Apply(s, a))
  {
    match a
    case Start(w, expected, events) => StartKeeps(s, w, expected, events);
    case Resubmit(w) => ResubmitKeeps(s, w);
    case BeginAppend(w, readFault) => BeginAppendKeeps(s, w, readFault);
    case Publish(w, fate) => PublishKeeps(s, w, fate);
    case Reconcile(w, how) => ReconcileStepKeeps(s, w, how);
    case Land(t, window) => LandKeeps(s, t, window);
    case Foreign(e) => ForeignKeeps(s, e);
  }

  /** The invariant holds in every reachable state. */
  lemma {:induction false} RunKeepsInv(s: System, run: seq<Action>)
    requires Inv(s) && RunsFrom(s, run)
    ensures Inv(After(s, run))
    decreases |run|
  {
    if run == [] {
    } else {
      RunKeepsInv(s, run[..|run| - 1]);
      StepKeepsInv(After(s, run[..|run| - 1]), run[|run| - 1]);
    }
  }
}
