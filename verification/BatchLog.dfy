/** Batch facts on the append protocol: whoever records them, from however old a
    copy of the stream, and however partially or late they are stored, the
    stream only ever holds facts that were true when they landed. */
module BatchLog {
  import opened EventStore
  import opened AppendProtocol
  import opened BatchAggregate

  /** The fact an event carries, by event ID. */
  type Payload = string -> Fact

  function Facts(payload: Payload, events: seq<Event>): (facts: seq<Fact>)
    ensures |facts| == |events|
  {
    seq(|events|, i requires 0 <= i < |events| => payload(events[i].id))
  }

  lemma {:induction false} FactsJoin(payload: Payload, x: seq<Event>, y: seq<Event>)
    ensures Facts(payload, x + y) == Facts(payload, x) + Facts(payload, y)
  {
  }

  /** A batch as the aggregate records it: from some loaded or cached copy of
      the stream's first `expected` events, by one command. */
  ghost predicate HonestBatch(payload: Payload, log: seq<Event>, expected: int, events: seq<Event>) {
    && 0 <= expected <= |log|
    && var copy := Fold(Facts(payload, log[..expected]));
       || (exists artists :: Facts(payload, events) == Recorded(copy, artists))
       || (expected == 0 && exists artists, stats :: Facts(payload, events) == Birth(artists, stats))
  }

  ghost predicate HonestStep(payload: Payload, s: System, a: Action) {
    match a
    case Start(_, expected, events) => HonestBatch(payload, s.log, expected, events)
    case Foreign(e) => Legal(Fold(Facts(payload, s.log)), payload(e.id))
    case _ => true
  }

  ghost predicate HonestRun(payload: Payload, sid: string, run: seq<Action>)
    requires RunsFrom(Init(sid), run)
  {
    run == [] ||
    (HonestRun(payload, sid, run[..|run| - 1]) &&
     HonestStep(payload, After(Init(sid), run[..|run| - 1]), run[|run| - 1]))
  }

  /** The batch is legal on top of the part of the stream it was recorded from. */
  ghost predicate LegalBatch(payload: Payload, log: seq<Event>, expected: int, events: seq<Event>) {
    0 <= expected <= |log| && LegalFrom(Fold(Facts(payload, log[..expected])), Facts(payload, events))
  }

  ghost predicate Truthful(payload: Payload, s: System) {
    && LegalLog(Facts(payload, s.log))
    && forall w :: w in s.calls ==> LegalBatch(payload, s.log, s.calls[w].expected, s.calls[w].events)
  }

  lemma {:induction false} HonestIsLegal(payload: Payload, log: seq<Event>, expected: int, events: seq<Event>)
    requires HonestBatch(payload, log, expected, events)
    ensures LegalBatch(payload, log, expected, events)
  {
    var copy := Fold(Facts(payload, log[..expected]));
    if artists :| Facts(payload, events) == Recorded(copy, artists) {
      RecordedIsLegal(copy, artists);
    } else {
      var artists, stats :| Facts(payload, events) == Birth(artists, stats);
      BirthIsLegal(artists, stats);
      assert copy == UNBORN;
    }
  }

  /** The next event of a batch whose earlier events end the stream is legal. */
  lemma {:induction false} NextIsLegal(payload: Payload, log: seq<Event>, c: Call, k: nat)
    requires Numbered(log) && LegalBatch(payload, log, c.expected, c.events) && k < |c.events|
    requires |log| == c.expected + k && log[c.expected..] == c.events[..k]
    ensures Legal(Fold(Facts(payload, log)), payload(c.events[k].id))
  {
    var copy := log[..c.expected];
    assert log == copy + c.events[..k];
    FactsJoin(payload, copy, c.events[..k]);
    FoldJoins(UNBORN, Facts(payload, copy), Facts(payload, c.events[..k]));
    assert Facts(payload, c.events)[..k] == Facts(payload, c.events[..k]);
    assert Facts(payload, c.events)[k] == payload(c.events[k].id);
  }

  lemma {:induction false} LandingIsTruthful(payload: Payload, s: System, e: Event)
    requires Truthful(payload, s) && Legal(Fold(Facts(payload, s.log)), payload(e.id))
    ensures Truthful(payload, s.(log := s.log + [e]))
  {
    FactsJoin(payload, s.log, [e]);
    assert Facts(payload, [e]) == [payload(e.id)];
    LegalExtends(UNBORN, Facts(payload, s.log), payload(e.id));
    forall w | w in s.calls ensures LegalBatch(payload, s.log + [e], s.calls[w].expected, s.calls[w].events) {
      assert (s.log + [e])[..s.calls[w].expected] == s.log[..s.calls[w].expected];
    }
  }

  /** Event `k` of call `w` is what the stream needs next. */
  ghost predicate IsNext(s: System, w: nat, k: nat) {
    && w in s.calls && k < |s.calls[w].events|
    && |s.log| == s.calls[w].expected + k
    && (0 <= s.calls[w].expected ==> s.log[s.calls[w].expected..] == s.calls[w].events[..k])
  }

  lemma {:induction false} AnchoredIsNext(s: System, t: Ticket)
    requires Inv(s) && TicketOk(s, t) && t.p.anchor == |s.log|
    ensures IsNext(s, t.w, t.k)
  {
    var c := s.calls[t.w];
    if 0 <= c.expected {
      forall i | 0 <= i < t.k ensures s.log[c.expected + i] == c.events[i] {
        assert InLog(s.log, c.events[i]);
      }
    }
  }

  /** All that a step can do to the stream. */
  datatype Effect = Nothing | Stores(w: nat, k: nat) | FromElsewhere(e: Event)

  ghost predicate HasEffect(s: System, s': System, effect: Effect) {
    match effect
    case Nothing => s'.log == s.log
    case Stores(w, k) => IsNext(s, w, k) && s'.log == s.log + [s.calls[w].events[k]]
    case FromElsewhere(e) => s'.log == s.log + [e]
  }

  lemma {:induction false} DeliveryEffect(s: System, t: Ticket, window: bool) returns (effect: Effect)
    requires Inv(s) && TicketOk(s, t)
    ensures HasEffect(s, s.(log := Deliver(s.log, t.p, window)), effect) && !effect.FromElsewhere?
  {
    effect := Nothing;
    if Judge(s.log, t.p, window).Stored? {
      AnchoredIsNext(s, t);
      effect := Stores(t.w, t.k);
    }
  }

  lemma {:induction false} StepEffect(s: System, a: Action) returns (effect: Effect)
    requires Inv(s) && Enabled(s, a)
    ensures HasEffect(s, AppendProtocol.Apply(s, a), effect)
    ensures effect.FromElsewhere? ==> a == Foreign(effect.e)
  {
    effect := Nothing;
    match a {
      case Publish(w, fate) =>
        TicketIsNext(s, w);
        if fate.Acked? || fate.AckLost? {
          effect := DeliveryEffect(s, NextTicket(w, s.calls[w]), fate.window);
        }
      case Land(t, window) =>
        assert TicketOk(s, t);
        effect := DeliveryEffect(s, t, window);
      case Foreign(e) => effect := FromElsewhere(e);
      case _ =>
    }
  }

  lemma {:induction false} PublishKeepsBatch(s: System, w: nat, fate: PublishFate, x: nat)
    requires Enabled(s, Publish(w, fate)) && x in PublishNext(s, w, fate).calls
    ensures x in s.calls
    ensures PublishNext(s, w, fate).calls[x].expected == s.calls[x].expected
    ensures PublishNext(s, w, fate).calls[x].events == s.calls[x].events
  {
  }

  lemma {:induction false} BatchesStay(s: System, a: Action, w: nat)
    requires Enabled(s, a) && w in AppendProtocol.Apply(s, a).calls && !(a.Start? && a.w == w)
    ensures w in s.calls
    ensures AppendProtocol.Apply(s, a).calls[w].expected == s.calls[w].expected
    ensures AppendProtocol.Apply(s, a).calls[w].events == s.calls[w].events
  {
    if a.Publish? {
      PublishKeepsBatch(s, a.w, a.fate, w);
    }
  }

  lemma {:induction false} EffectIsTruthful(payload: Payload, s: System, s': System, effect: Effect)
    requires Numbered(s.log) && Truthful(payload, s) && HasEffect(s, s', effect)
    requires effect.FromElsewhere? ==> Legal(Fold(Facts(payload, s.log)), payload(effect.e.id))
    ensures Truthful(payload, s.(log := s'.log))
  {
    match effect
    case Nothing => assert s.(log := s'.log) == s;
    case Stores(w, k) =>
      NextIsLegal(payload, s.log, s.calls[w], k);
      LandingIsTruthful(payload, s, s.calls[w].events[k]);
    case FromElsewhere(e) => LandingIsTruthful(payload, s, e);
  }

  lemma {:induction false} StepIsTruthful(payload: Payload, s: System, a: Action, effect: Effect)
    requires Numbered(s.log) && Truthful(payload, s) && Enabled(s, a) && HonestStep(payload, s, a)
    requires HasEffect(s, AppendProtocol.Apply(s, a), effect) && (effect.FromElsewhere? ==> a == Foreign(effect.e))
    ensures Truthful(payload, AppendProtocol.Apply(s, a))
  {
    var s' := AppendProtocol.Apply(s, a);
    EffectIsTruthful(payload, s, s', effect);
    forall w | w in s'.calls ensures LegalBatch(payload, s'.log, s'.calls[w].expected, s'.calls[w].events) {
      if a.Start? && a.w == w {
        HonestIsLegal(payload, s.log, a.expected, a.events);
      } else {
        BatchesStay(s, a, w);
      }
    }
  }

  /** In every interleaving, with partial, lost and late writes: the stored facts are legal. */
  lemma {:induction false} StoredFactsAreLegal(payload: Payload, sid: string, run: seq<Action>)
    requires RunsFrom(Init(sid), run) && HonestRun(payload, sid, run)
    ensures Truthful(payload, After(Init(sid), run))
    decreases |run|
  {
    if run == [] {
    } else {
      var before := run[..|run| - 1];
      var s, a := After(Init(sid), before), run[|run| - 1];
      StoredFactsAreLegal(payload, sid, before);
      RunKeepsInv(Init(sid), before);
      var effect := StepEffect(s, a);
      StepIsTruthful(payload, s, a, effect);
    }
  }

  /** No run ever stores two completions of one artist, and nothing after the closing fact. */
  lemma {:induction false} NoDuplicateCompletions(payload: Payload, sid: string, run: seq<Action>, i: nat, j: nat)
    requires RunsFrom(Init(sid), run) && HonestRun(payload, sid, run)
    requires i < j < |After(Init(sid), run).log|
    ensures var facts := Facts(payload, After(Init(sid), run).log);
            && !facts[i].BatchCompleted?
            && (facts[i].ArtistCompleted? && facts[j].ArtistCompleted? ==> facts[i].artist != facts[j].artist)
  {
    StoredFactsAreLegal(payload, sid, run);
    var facts := Facts(payload, After(Init(sid), run).log);
    if facts[i].BatchCompleted? {
      ClosingIsLast(facts, i);
    } else if facts[i].ArtistCompleted? && facts[j].ArtistCompleted? {
      NoSecondCompletion(facts, i, j);
    }
  }

  // ------------------------------------------------------- the closing fact

  lemma {:induction false} CompletionsHaveNoClose(b: Batch, artists: seq<string>)
    ensures forall i :: 0 <= i < |Completions(b, artists)| ==> Completions(b, artists)[i].ArtistCompleted?
  {
    if artists == [] {
    } else {
      CompletionsHaveNoClose(b, artists[..|artists| - 1]);
    }
  }

  lemma {:induction false} NoCloseStaysOpen(b: Batch, facts: seq<Fact>)
    requires forall i :: 0 <= i < |facts| ==> facts[i].ArtistCompleted?
    ensures FoldFrom(b, facts).closed == b.closed && FoldFrom(b, facts).members.Keys == b.members.Keys
  {
    if facts == [] {
    } else {
      NoCloseStaysOpen(b, facts[..|facts| - 1]);
    }
  }

  /** When only the first `k` facts of a command are stored, the batch is left
      finished but not closed exactly when what is missing is the closing fact. */
  lemma {:induction false} PartialWriteLosesClose(b: Batch, artists: seq<string>, k: nat)
    requires !Done(b) && !b.closed && k <= |Recorded(b, artists)|
    ensures var facts := Recorded(b, artists); var b' := FoldFrom(b, facts[..k]);
            Done(b') && !b'.closed <==> k + 1 == |facts| && facts[k].BatchCompleted?
  {
    var facts, completions := Recorded(b, artists), Completions(b, artists);
    CompletionsHaveNoClose(b, artists);
    if k == |facts| {
      assert facts[..k] == facts;
      RecordedCompletes(b, artists);
    } else if k == |completions| {
      assert facts[..k] == completions;
      NoCloseStaysOpen(b, completions);
    } else {
      assert facts[..k] == completions[..k];
      NotDoneBeforeLast(b, artists, k);
    }
  }

  /** A command that completes several members is not done before the last of them. */
  lemma {:induction false} NotDoneBeforeLast(b: Batch, artists: seq<string>, k: nat)
    requires k < |Completions(b, artists)|
    ensures !Done(FoldFrom(b, Completions(b, artists)[..k]))
  {
    CompletionsAreLegal(b, artists);
    assert Legal(FoldFrom(b, Completions(b, artists)[..k]), Completions(b, artists)[k]) by {
      CompletionsHaveNoClose(b, artists);
      assert Completions(b, artists)[k].ArtistCompleted?;
    }
    CompletionsHaveNoClose(b, artists);
    AllDone(FoldFrom(b, Completions(b, artists)[..k]));
  }

  /** Once lost, the closing fact stays lost: no completion command records
      anything for a finished batch. */
  lemma {:induction false} LostCloseIsNeverRecorded(b: Batch, artists: seq<string>)
    requires Done(b)
    ensures Recorded(b, artists) == []
  {
    AllDone(b);
    RecordedCompletes(b, artists);
  }
}
