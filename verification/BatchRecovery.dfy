/** What a later Reconcile repairs, late facts or not, and the two gaps that
    nothing repairs. */
module BatchRecovery {
  import opened BatchAggregate
  import opened BatchTables
  import opened BatchWorld
  import opened BatchSafety
  import opened BatchConvergence
  import opened BatchResume

  // ------------------------------------------------------- closing facts

  lemma {:induction false} WholeAppendCloses(b: Batch, artists: seq<string>)
    requires b.closed <==> Done(b)
    ensures var b' := FoldFrom(b, Recorded(b, artists)); b'.closed <==> Done(b')
  {
    RecordedCompletes(b, artists);
    AllDone(b);
    if Recorded(b, artists) == [] {
      assert FoldFrom(b, []) == b;
    }
  }

  lemma {:induction false} BirthCloses(artists: seq<string>, stats: map<string, int>)
    ensures var b := Fold(Birth(artists, stats)); b.closed <==> Done(b)
  {
    BirthIsLegal(artists, stats);
    AllDone(Fold(Birth(artists, stats)));
    if Unique(artists) != [] {
      assert Unique(artists)[0] in Fold(Birth(artists, stats)).members;
    }
  }

  lemma {:induction false} SmoothStartCloses(w: World, a: Action)
    requires ClosedWhenDone(w) && a.BeginStart? && Enabled(w, a) && Smooth(a)
    ensures ClosedWhenDone(Step(w, a))
  {
    BirthCloses(a.artists, a.stats);
    BeginStartOnlyAdds(w, a);
    assert a.id !in w.logs ==> AggregateOf(Step(w, a), a.id) == Fold(Birth(a.artists, a.stats));
  }

  lemma {:induction false} SmoothStepCloses(w: World, a: Action)
    requires ClosedWhenDone(w) && Enabled(w, a) && Smooth(a)
    requires forall o, f :: o in w.ops && Holds(w.ops[o], f) ==> f.batch in w.logs
    requires NoEmptyGroups(w)
    ensures ClosedWhenDone(Step(w, a))
  {
    match a
    case BeginStart(_, _, _, _, _, _) => SmoothStartCloses(w, a);
    case LogFound(o, _, _) =>
      assert Holds(w.ops[o], w.ops[o].f);
      WholeAppendClosesWorld(w, Group(w.ops[o].f.batch, [w.ops[o].f.artist]));
    case LogGroup(o, _, _) =>
      var g := w.ops[o].todo[0];
      assert Holds(w.ops[o], Flip(g.batch, g.artists[0]));
      WholeAppendClosesWorld(w, g);
    case _ =>
  }

  lemma {:induction false} WholeAppendClosesWorld(w: World, g: Group)
    requires ClosedWhenDone(w) && g.batch in w.logs
    ensures ClosedWhenDone(Append(w, g, Whole))
  {
    AppendFolds(w, g, Whole);
    WholeAppendCloses(AggregateOf(w, g.batch), g.artists);
  }

  lemma {:induction false} HeldIsLogged(w: World)
    requires Inv(w)
    ensures forall o, f :: o in w.ops && Holds(w.ops[o], f) ==> f.batch in w.logs
  {
    forall o, f | o in w.ops && Holds(w.ops[o], f) ensures f.batch in w.logs {
      assert OpOk(w, w.ops[o]);
    }
  }

  /** In a failure-free run a stream carries its closing fact exactly when every
      member has finished. */
  lemma {:induction false} SmoothRunsCloseTheirBatches(run: seq<Action>)
    requires RunsFrom(NOBODY, run) && SmoothRun(run)
    ensures ClosedWhenDone(After(NOBODY, run))
    decreases |run|
  {
    if run == [] {
    } else {
      var before := run[..|run| - 1];
      SmoothRunsCloseTheirBatches(before);
      RunKeepsInv(before);
      HeldIsLogged(After(NOBODY, before));
      SmoothStepCloses(After(NOBODY, before), run[|run| - 1]);
    }
  }

  // ----------------------------------------------------- one whole Reconcile

  /** A step of Reconcile `o`, whose appends succeed, or a late fact. */
  predicate MayHappen(a: Action, o: nat) {
    match a
    case FlipSelected(p) => p == o
    case LogGroup(p, outcome, _) => p == o && !outcome.Broken?
    case Land(_) => true
    case _ => false
  }

  /** Nothing but Reconcile `o` runs; facts may still land. */
  ghost predicate Undisturbed(rest: seq<Action>, o: nat) {
    forall i :: 0 <= i < |rest| ==> MayHappen(rest[i], o)
  }

  /** Where a Reconcile that selected `flips` in `w0` stands. */
  ghost predicate Reconciling(w0: World, w: World, o: nat, flips: seq<Flip>) {
    && w.pending == w0.pending && OthersWait(w0, w, o)
    && if o in w.ops && w.ops[o].Selected? then w.ops[o] == Selected(flips) && w.rows == w0.rows
       else w.rows == ApplyFlips(w0.rows, Flips(flips)) && (o in w.ops ==> w.ops[o].Owing?)
  }

  lemma {:induction false} ReconcilingStep(w0: World, w: World, o: nat, flips: seq<Flip>, a: Action)
    requires Reconciling(w0, w, o, flips) && Enabled(w, a) && MayHappen(a, o)
    ensures Reconciling(w0, Step(w, a), o, flips)
  {
  }

  lemma {:induction false} ReconcilingRun(w: World, o: nat, flips: seq<Flip>, rest: seq<Action>)
    requires Enabled(w, Select(o, flips))
    requires RunsFrom(Step(w, Select(o, flips)), rest) && Undisturbed(rest, o)
    ensures Reconciling(w, After(Step(w, Select(o, flips)), rest), o, flips)
    decreases |rest|
  {
    if rest == [] {
    } else {
      ReconcilingRun(w, o, flips, rest[..|rest| - 1]);
      assert MayHappen(rest[|rest| - 1], o);
      ReconcilingStep(w, After(Step(w, Select(o, flips)), rest[..|rest| - 1]), o, flips, rest[|rest| - 1]);
    }
  }

  /** All that holds at every moment of a healable run. */
  ghost predicate Sound(w: World, lag: set<Flip>) {
    Inv(w) && NoEmptyGroups(w) && Truthful(w) && AgreeExcept(w, lag) && LateOnly(w, lag)
  }

  lemma {:induction false} SoundStep(w: World, a: Action, lag: set<Flip>)
    requires Sound(w, lag) && Enabled(w, a) && Healable(w, a) && Victims(w, a) == {}
    ensures Sound(Step(w, a), lag)
  {
    assert lag + {} == lag;
    StepKeepsAll(w, a);
    StepAgrees(w, a, lag);
    StepKeepsLateOnly(w, a, lag);
  }

  lemma {:induction false} UndisturbedIsSound(w: World, o: nat, rest: seq<Action>, lag: set<Flip>)
    requires Sound(w, lag) && RunsFrom(w, rest) && Undisturbed(rest, o)
    ensures Sound(After(w, rest), lag)
    decreases |rest|
  {
    if rest == [] {
    } else {
      UndisturbedIsSound(w, o, rest[..|rest| - 1], lag);
      assert MayHappen(rest[|rest| - 1], o);
      SoundStep(After(w, rest[..|rest| - 1]), rest[|rest| - 1], lag);
    }
  }

  /** A Reconcile can always run through. */
  lemma {:induction false} ReconcileRunsThrough(w: World, o: nat, flips: seq<Flip>) returns (rest: seq<Action>)
    requires Enabled(w, Select(o, flips))
    ensures RunsFrom(Step(w, Select(o, flips)), rest) && Undisturbed(rest, o)
    ensures o !in After(Step(w, Select(o, flips)), rest).ops
  {
    var w1 := Step(w, Select(o, flips));
    GroupedSomething(flips);
    var logs := AppendsRunThrough(Step(w1, FlipSelected(o)), o);
    PrependRun(w1, FlipSelected(o), logs);
    rest := [FlipSelected(o)] + logs;
  }

  lemma {:induction false} AppendsRunThrough(w: World, o: nat) returns (rest: seq<Action>)
    requires o in w.ops && w.ops[o].Owing? && w.ops[o].todo != []
    ensures RunsFrom(w, rest) && Undisturbed(rest, o) && o !in After(w, rest).ops
    decreases |w.ops[o].todo|
  {
    var a := LogGroup(o, Whole, false);
    if |w.ops[o].todo| == 1 {
      rest := [];
    } else {
      rest := AppendsRunThrough(Step(w, a), o);
    }
    PrependRun(w, a, rest);
    rest := [a] + rest;
  }

  lemma {:induction false} PrependRun(w: World, a: Action, rest: seq<Action>)
    requires Enabled(w, a) && RunsFrom(Step(w, a), rest)
    ensures RunsFrom(w, [a] + rest) && After(w, [a] + rest) == After(Step(w, a), rest)
    decreases |rest|
  {
    var run := [a] + rest;
    if rest == [] {
      assert run[..0] == [] && run[0] == a;
      assert RunsFrom(w, run[..0]);
    } else {
      PrependRun(w, a, rest[..|rest| - 1]);
      assert run[..|run| - 1] == [a] + rest[..|rest| - 1];
    }
  }

  /** After any run whose only faults hit Start or CompleteArtist, with or
      without late facts, one Reconcile that runs through makes every row the
      fold of its stream again, provided the artists that were left behind are
      no longer pending. Facts may land during and after it. */
  lemma {:induction false} OneReconcileHeals(run: seq<Action>, o: nat, flips: seq<Flip>, rest: seq<Action>, id: string)
    requires RunsFrom(NOBODY, run) && HealableRun(run)
    requires After(NOBODY, run).ops == map[] && Enabled(After(NOBODY, run), Select(o, flips))
    requires forall f :: f in AllVictims(run) && IsMember(After(NOBODY, run), f) ==>
               f.artist !in After(NOBODY, run).pending
    requires var w1 := Step(After(NOBODY, run), Select(o, flips));
             RunsFrom(w1, rest) && Undisturbed(rest, o) && After(w1, rest).ops == map[]
    ensures var w' := After(Step(After(NOBODY, run), Select(o, flips)), rest);
            id in w'.rows ==> Matches(w'.rows[id], AggregateOf(w', id))
  {
    var w, lag := After(NOBODY, run), AllVictims(run);
    RunKeepsInv(run);
    RunAgrees(run);
    SoundStep(w, Select(o, flips), lag);
    UndisturbedIsSound(Step(w, Select(o, flips)), o, rest, lag);
    ReconcilingRun(w, o, flips, rest);
    VictimsAreFlipped(w, o, flips, lag);
    HealedRow(w.(rows := ApplyFlips(w.rows, Flips(flips))), After(Step(w, Select(o, flips)), rest), lag, id);
  }

  lemma {:induction false} HealedRow(w2: World, w': World, lag: set<Flip>, id: string)
    requires Sound(w', lag) && w'.ops == map[] && w'.rows == w2.rows
    requires forall f :: f in lag && IsMember(w2, f) ==> TableSays(w2, f)
    ensures id in w'.rows ==> Matches(w'.rows[id], AggregateOf(w', id))
  {
    if id in w'.rows {
      assert SameMembers(w', id);
      assert forall f :: TableSays(w', f) <==> TableSays(w2, f);
      assert forall f :: IsMember(w', f) <==> IsMember(w2, f);
      AgreedRowMatches(w', lag, id);
    }
  }

  /** With nothing to select, there was nothing to heal. */
  lemma {:induction false} NothingSelectedNothingToHeal(run: seq<Action>, id: string)
    requires RunsFrom(NOBODY, run) && HealableRun(run) && After(NOBODY, run).ops == map[]
             && id in After(NOBODY, run).rows
    requires forall f :: f in AllVictims(run) && IsMember(After(NOBODY, run), f) ==>
               f.artist !in After(NOBODY, run).pending
    requires forall f :: !Selectable(After(NOBODY, run).rows, After(NOBODY, run).pending, f)
    ensures Matches(After(NOBODY, run).rows[id], AggregateOf(After(NOBODY, run), id))
  {
    var w := After(NOBODY, run);
    RunKeepsInv(run);
    RunAgrees(run);
    assert SameMembers(w, id);
    forall f | f in AllVictims(run) && f.batch == id && IsMember(w, f) && LogSays(w, f) ensures TableSays(w, f) {
      assert RowOk(w.rows[id]) && !Selectable(w.rows, w.pending, f);
    }
    AgreedRowMatches(w, AllVictims(run), id);
  }

  lemma {:induction false} VictimsAreFlipped(w: World, o: nat, flips: seq<Flip>, lag: set<Flip>)
    requires RowsOk(w.rows) && Enabled(w, Select(o, flips))
    requires forall f :: f in lag && IsMember(w, f) ==> f.artist !in w.pending
    ensures var w2 := w.(rows := ApplyFlips(w.rows, Flips(flips)));
            forall f :: f in lag && IsMember(w2, f) ==> TableSays(w2, f)
  {
    var w2 := w.(rows := ApplyFlips(w.rows, Flips(flips)));
    forall f | f in lag && IsMember(w2, f) ensures TableSays(w2, f) {
      FlipsSay(w, flips, f);
      if !TableSays(w, f) {
        assert RowOk(w.rows[f.batch]);
        assert Selectable(w.rows, w.pending, f);
      }
    }
  }

  /** A second Reconcile, with the fetch statuses unchanged, selects nothing. */
  lemma {:induction false} SecondReconcileFlipsNothing(w: World, o: nat, flips: seq<Flip>, rest: seq<Action>, f: Flip)
    requires Enabled(w, Select(o, flips))
    requires var w1 := Step(w, Select(o, flips));
               RunsFrom(w1, rest) && Undisturbed(rest, o) && o !in After(w1, rest).ops
    ensures var w' := After(Step(w, Select(o, flips)), rest); !Selectable(w'.rows, w'.pending, f)
  {
    ReconcilingRun(w, o, flips, rest);
    NothingLeftToFlip(w.rows, w.pending, Flips(flips), f);
  }

  // ------------------------------------------------- what is not logged again

  lemma {:induction false} StreamGrows(w: World, a: Action, id: string)
    requires Enabled(w, a)
    ensures StreamOf(w, id) <= StreamOf(Step(w, a), id)
  {
  }

  lemma {:induction false} StreamsOnlyGrow(w: World, run: seq<Action>, id: string)
    requires RunsFrom(w, run)
    ensures StreamOf(w, id) <= StreamOf(After(w, run), id)
    decreases |run|
  {
    if run == [] {
    } else {
      StreamsOnlyGrow(w, run[..|run| - 1], id);
      StreamGrows(After(w, run[..|run| - 1]), run[|run| - 1], id);
    }
  }

  lemma {:induction false} RunsStayValid(w: World, run: seq<Action>)
    requires Inv(w) && NoEmptyGroups(w) && Truthful(w) && RunsFrom(w, run)
    ensures Inv(After(w, run)) && NoEmptyGroups(After(w, run)) && Truthful(After(w, run))
    decreases |run|
  {
    if run == [] {
    } else {
      RunsStayValid(w, run[..|run| - 1]);
      StepKeepsAll(After(w, run[..|run| - 1]), run[|run| - 1]);
    }
  }

  lemma {:induction false} NobodyIsDoneAtFirst(log: seq<Fact>, artist: string)
    requires Says(Fold(log), artist)
    ensures log != []
  {
  }

  lemma {:induction false} NotCompletedAgain(log: seq<Fact>, k: nat, artist: string, j: nat)
    requires LegalLog(log) && k <= j < |log| && Says(Fold(log[..k]), artist)
    ensures log[j] != ArtistCompleted(artist)
  {
    var upto := log[..j];
    LegalPrefix(UNBORN, log, j);
    assert upto[..k] == log[..k];
    FoldVersion(UNBORN, log[..k]);
    NobodyIsDoneAtFirst(log[..k], artist);
    MembersOnlyFinish(UNBORN, upto, k, artist);
    assert Legal(Fold(log[..j]), log[j]);
  }

  /** Whatever happens after a completion is in the log, with faults and late
      facts: nothing, no Reconcile either, ever logs it again. */
  lemma {:induction false} LoggedOnce(run: seq<Action>, more: seq<Action>, f: Flip, j: nat)
    requires RunsFrom(NOBODY, run) && RunsFrom(After(NOBODY, run), more) && LogSays(After(NOBODY, run), f)
    requires |StreamOf(After(NOBODY, run), f.batch)| <= j < |StreamOf(After(After(NOBODY, run), more), f.batch)|
    ensures StreamOf(After(After(NOBODY, run), more), f.batch)[j] != ArtistCompleted(f.artist)
  {
    var w := After(NOBODY, run);
    RunKeepsInv(run);
    RunsStayValid(w, more);
    StreamsOnlyGrow(w, more, f.batch);
    var log, longer := StreamOf(w, f.batch), StreamOf(After(w, more), f.batch);
    assert longer[..|log|] == log;
    NotCompletedAgain(longer, |log|, f.artist, j);
  }

  /** What Reconcile `o` has still to log of batch `id` was selected. */
  ghost predicate OwedOf(w: World, o: nat, flips: seq<Flip>, id: string) {
    o in w.ops ==>
      && (w.ops[o].Selected? ==> w.ops[o] == Selected(flips))
      && (w.ops[o].Owing? ==> forall f :: Owes(w.ops[o].todo, f) && f.batch == id ==> f in flips)
  }

  lemma {:induction false} OwedStep(w: World, o: nat, flips: seq<Flip>, id: string, a: Action)
    requires OwedOf(w, o, flips, id) && Enabled(w, a) && MayHappen(a, o)
    ensures OwedOf(Step(w, a), o, flips, id)
  {
    match a
    case FlipSelected(_) =>
      forall f | Owes(Grouped(flips), f) ensures f in flips {
        GroupedOwes(flips, f);
      }
    case LogGroup(_, _, _) =>
      forall f | Owes(w.ops[o].todo[1..], f) ensures Owes(w.ops[o].todo, f) {
        OwesSplits(w.ops[o].todo, f);
      }
    case _ =>
  }

  lemma {:induction false} OldNewsAddNothing(w: World, o: nat, outcome: Outcome, late: bool, flips: seq<Flip>,
      id: string)
    requires Enabled(w, LogGroup(o, outcome, late)) && OwedOf(w, o, flips, id)
    requires forall f :: f in flips && f.batch == id ==> LogSays(w, f)
    ensures StreamOf(Step(w, LogGroup(o, outcome, late)), id) == StreamOf(w, id)
  {
    var todo := w.ops[o].todo;
    if todo[0].batch == id {
      forall a | a in todo[0].artists ensures Says(AggregateOf(w, id), a) {
        OwesSplits(todo, Flip(id, a));
        assert LogSays(w, Flip(id, a));
      }
      NothingNew(AggregateOf(w, id), todo[0].artists);
      assert StreamOf(w, id) + [] == StreamOf(w, id);
    }
  }

  ghost predicate NothingLands(rest: seq<Action>, id: string) {
    forall i :: 0 <= i < |rest| && rest[i].Land? ==> rest[i].flight.batch != id
  }

  lemma {:induction false} HealingRun(w1: World, o: nat, flips: seq<Flip>, rest: seq<Action>, id: string)
    requires RunsFrom(w1, rest) && Undisturbed(rest, o) && NothingLands(rest, id) && OwedOf(w1, o, flips, id)
    requires forall f :: f in flips && f.batch == id ==> LogSays(w1, f)
    ensures OwedOf(After(w1, rest), o, flips, id) && StreamOf(After(w1, rest), id) == StreamOf(w1, id)
    decreases |rest|
  {
    if rest == [] {
    } else {
      var before, a := rest[..|rest| - 1], rest[|rest| - 1];
      HealingRun(w1, o, flips, before, id);
      var m := After(w1, before);
      assert MayHappen(a, o);
      OwedStep(m, o, flips, id, a);
      assert forall f: Flip :: f.batch == id ==> (LogSays(m, f) <==> LogSays(w1, f));
      if a.LogGroup? {
        OldNewsAddNothing(m, o, a.outcome, a.late, flips, id);
      }
    }
  }

  /** When everything it selects of a batch is in the log already, Reconcile
      adds no fact to the batch's stream. */
  lemma {:induction false} HealingAddsNoFact(w: World, o: nat, flips: seq<Flip>, rest: seq<Action>, id: string)
    requires Enabled(w, Select(o, flips)) && forall f :: f in flips && f.batch == id ==> LogSays(w, f)
    requires RunsFrom(Step(w, Select(o, flips)), rest) && Undisturbed(rest, o) && NothingLands(rest, id)
    ensures StreamOf(After(Step(w, Select(o, flips)), rest), id) == StreamOf(w, id)
  {
    var w1 := Step(w, Select(o, flips));
    assert forall f :: LogSays(w1, f) <==> LogSays(w, f);
    HealingRun(w1, o, flips, rest, id);
  }

  // --------------------------------------------------- crashes and nothing else

  /** Appends succeed; operations may stop between any two steps. */
  ghost predicate CrashesOnly(run: seq<Action>) {
    forall i :: 0 <= i < |run| ==> Smooth(run[i]) || run[i].Crash?
  }

  lemma {:induction false} LogSaysStays(w: World, a: Action, f: Flip)
    requires Enabled(w, a) && LogSays(w, f) && (Smooth(a) || a.Crash?)
    ensures LogSays(Step(w, a), f)
  {
    match a
    case BeginStart(_, _, _, _, _, _) =>
      assert f.batch in w.logs by { assert AggregateOf(w, f.batch) != UNBORN; }
      BeginStartOnlyAdds(w, a);
    case LogFound(o, outcome, _) => AppendSays(w, Group(w.ops[o].f.batch, [w.ops[o].f.artist]), outcome, f);
    case LogGroup(o, outcome, _) => AppendSays(w, w.ops[o].todo[0], outcome, f);
    case _ =>
  }

  /** The batch has or had a row, and a member of the row is in the log. */
  ghost predicate Attested(w: World, f: Flip) {
    (f.batch in w.rows || f.batch in w.pruned) && (IsMember(w, f) ==> LogSays(w, f))
  }

  lemma {:induction false} AttestedStays(w: World, a: Action, f: Flip)
    requires Inv(w) && Enabled(w, a) && (Smooth(a) || a.Crash?) && Attested(w, f)
    ensures Attested(Step(w, a), f)
  {
    RowsLeaveOnlyByPruning(w, a, f.batch);
    if IsMember(Step(w, a), f) {
      assert a.FinishStart? ==> OpOk(w, w.ops[a.o]);
      RowMayNotReturn(w, a, f.batch);
      DoneNeverReverts(w, a, f.batch);
      LogSaysStays(w, a, f);
    }
  }

  lemma {:induction false} RowMayNotReturn(w: World, a: Action, id: string)
    requires Inv(w) && Enabled(w, a) && (id in w.rows || id in w.pruned) && id in Step(w, a).rows
    ensures id in w.rows
  {
    RowsLeaveOnlyByPruning(w, a, id);
    if a.FinishStart? {
      assert OpOk(w, w.ops[a.o]);
    }
  }

  lemma {:induction false} CrashIsAttested(w: World, a: Action, lag: set<Flip>, f: Flip)
    requires Inv(w) && AgreeExcept(w, lag) && Enabled(w, a) && (Smooth(a) || a.Crash?) && f in Victims(w, a)
    ensures Attested(Step(w, a), f)
  {
    HeldBatch(w, a.o, f);
  }

  lemma {:induction false} CrashedIsAttested(run: seq<Action>, f: Flip)
    requires RunsFrom(NOBODY, run) && HealableRun(run) && CrashesOnly(run) && f in AllVictims(run)
    ensures Attested(After(NOBODY, run), f)
    decreases |run|
  {
    if run == [] {
    } else {
      var before, a := run[..|run| - 1], run[|run| - 1];
      assert Smooth(a) || a.Crash?;
      RunKeepsInv(before);
      if f in AllVictims(before) {
        CrashedIsAttested(before, f);
        AttestedStays(After(NOBODY, before), a, f);
      } else {
        RunAgrees(before);
        CrashIsAttested(After(NOBODY, before), a, AllVictims(before), f);
      }
    }
  }

  /** CompleteArtist crashes between its append and its table write, and nothing
      else goes wrong: one Reconcile that finds only such members of the batch
      makes the row the fold again and adds no fact to the stream. */
  lemma {:induction false} CrashIsHealedWithoutNewFact(run: seq<Action>, o: nat, flips: seq<Flip>, rest: seq<Action>,
      id: string)
    requires RunsFrom(NOBODY, run) && HealableRun(run) && CrashesOnly(run)
    requires After(NOBODY, run).ops == map[] && Enabled(After(NOBODY, run), Select(o, flips))
    requires forall f :: f in flips && f.batch == id ==> f in AllVictims(run)
    requires var w1 := Step(After(NOBODY, run), Select(o, flips));
             RunsFrom(w1, rest) && Undisturbed(rest, o) && NothingLands(rest, id)
    ensures StreamOf(After(Step(After(NOBODY, run), Select(o, flips)), rest), id) == StreamOf(After(NOBODY, run), id)
  {
    var w := After(NOBODY, run);
    forall f | f in flips && f.batch == id ensures LogSays(w, f) {
      CrashedIsAttested(run, f);
      assert Selectable(w.rows, w.pending, f);
    }
    HealingAddsNoFact(w, o, flips, rest, id);
  }

  // -------------------------------------------------- the gap that stays open

  /** Nobody works on the member, and if its row is there it is finished in it. */
  ghost predicate Abandoned(w: World, f: Flip) {
    && f.batch in w.logs
    && (f.batch in w.rows || f.batch in w.pruned)
    && (IsMember(w, f) ==> TableSays(w, f))
    && forall o :: o in w.ops ==> !Holds(w.ops[o], f)
  }

  lemma {:induction false} AbandonedLog(w: World, g: Group, outcome: Outcome, f: Flip)
    requires !(f.batch == g.batch && f.artist in g.artists)
    ensures LogSays(Append(w, g, outcome), f) ==> LogSays(w, f)
  {
    match outcome
    case Broken(k) => BrokenAppendSays(w, g, k, f);
    case _ => AppendSays(w, g, outcome, f);
  }

  lemma {:induction false} AbandonedStaysPut(w: World, a: Action, f: Flip)
    requires Inv(w) && Abandoned(w, f) && Enabled(w, a)
    ensures var w' := Step(w, a);
            && f.batch in w'.logs && (f.batch in w'.rows || f.batch in w'.pruned)
            && (IsMember(w', f) ==> TableSays(w', f))
  {
    RowsLeaveOnlyByPruning(w, a, f.batch);
    if f.batch in Step(w, a).rows {
      assert a.FinishStart? ==> OpOk(w, w.ops[a.o]);
      DoneNeverReverts(w, a, f.batch);
    }
  }

  lemma {:induction false} GroupingHoldsTheSame(flips: seq<Flip>, f: Flip)
    ensures Holds(Owing(Grouped(flips)), f) <==> Holds(Selected(flips), f)
  {
    GroupedOwes(flips, f);
  }

  lemma {:induction false} RestHoldsLess(todo: seq<Group>, f: Flip)
    requires todo != []
    ensures Holds(Owing(todo[1..]), f) ==> Holds(Owing(todo), f)
  {
    OwesSplits(todo, f);
  }

  /** The operation that moved does not take up the member either. */
  lemma {:induction false} MovedOpIsAlone(w: World, a: Action, f: Flip, p: nat)
    requires Enabled(w, a) && p in Step(w, a).ops && !(p in w.ops && Step(w, a).ops[p] == w.ops[p])
    requires p in w.ops ==> !Holds(w.ops[p], f)
    requires IsMember(w, f) ==> TableSays(w, f)
    ensures !Holds(Step(w, a).ops[p], f)
  {
    match a
    case BeginStart(_, id, artists, stats, _, _) => assert Step(w, a).ops[p] == Starting(id, artists, stats);
    case Find(_, g) => assert Step(w, a).ops[p] == Found(g);
    case LogFound(_, _, _) => assert Step(w, a).ops[p] == Logged(w.ops[p].f);
    case FlipSelected(_) => GroupingHoldsTheSame(w.ops[p].flips, f);
    case LogGroup(_, _, _) => RestHoldsLess(w.ops[p].todo, f);
    case Select(_, flips) => SelectedIsUnfinished(w, flips, f);
    case _ =>
  }

  lemma {:induction false} AbandonedStaysAlone(w: World, a: Action, f: Flip)
    requires Abandoned(w, f) && Enabled(w, a)
    ensures forall o :: o in Step(w, a).ops ==> !Holds(Step(w, a).ops[o], f)
  {
    forall p | p in Step(w, a).ops ensures !Holds(Step(w, a).ops[p], f) {
      if p in w.ops && Step(w, a).ops[p] == w.ops[p] {
      } else {
        MovedOpIsAlone(w, a, f, p);
      }
    }
  }

  lemma {:induction false} SelectedIsUnfinished(w: World, flips: seq<Flip>, f: Flip)
    requires forall g :: g in flips <==> Selectable(w.rows, w.pending, g)
    requires IsMember(w, f) ==> TableSays(w, f)
    ensures f !in flips
  {
    assert !Selectable(w.rows, w.pending, f);
  }

  /** A publish of the member's completion is under way and anchored at the tip. */
  ghost predicate UnderWay(w: World, f: Flip) {
    Flight(f.batch, |StreamOf(w, f.batch)|, ArtistCompleted(f.artist)) in w.flights
  }

  /** Nothing more of the member will land. */
  ghost predicate NoneUnderWay(w: World, f: Flip) {
    forall flight :: flight in w.flights && flight.batch == f.batch && flight.fact == ArtistCompleted(f.artist) ==>
      flight.at < |StreamOf(w, f.batch)|
  }

  lemma {:induction false} NotUnderWay(w: World, f: Flip)
    requires Truthful(w) && !UnderWay(w, f)
    ensures NoneUnderWay(w, f)
  {
    forall flight | flight in w.flights && flight.batch == f.batch && flight.fact == ArtistCompleted(f.artist)
      ensures flight.at < |StreamOf(w, f.batch)|
    {
      assert FlightOk(w, flight);
      assert flight == Flight(f.batch, flight.at, ArtistCompleted(f.artist));
    }
  }

  lemma {:induction false} NoneSetsOut(w: World, a: Action, f: Flip)
    requires Abandoned(w, f) && NoneUnderWay(w, f) && Enabled(w, a)
    ensures NoneUnderWay(Step(w, a), f)
  {
    StreamGrows(w, a, f.batch);
    forall flight | flight in Step(w, a).flights && flight.batch == f.batch && flight.fact == ArtistCompleted(f.artist)
      ensures flight in w.flights
    {
      if flight !in w.flights {
        NewFlightIsHeld(w, a, f, flight);
      }
    }
  }

  lemma {:induction false} NewFlightIsHeld(w: World, a: Action, f: Flip, flight: Flight)
    requires Enabled(w, a) && flight in Step(w, a).flights && flight !in w.flights
    requires flight.batch == f.batch && flight.fact == ArtistCompleted(f.artist)
    ensures exists o :: o in w.ops && Holds(w.ops[o], f)
  {
    match a
    case BeginStart(_, _, artists, stats, _, _) => BirthHasNoCompletion(artists, stats);
    case LogFound(o, outcome, late) =>
      LateAppendNames(w, Group(w.ops[o].f.batch, [w.ops[o].f.artist]), outcome, late, flight);
      assert Holds(w.ops[o], f);
    case LogGroup(o, outcome, late) =>
      LateAppendNames(w, w.ops[o].todo[0], outcome, late, flight);
      OwesSplits(w.ops[o].todo, f);
      assert Holds(w.ops[o], f);
    case _ =>
  }

  lemma {:induction false} AbandonedIsNotLogged(w: World, a: Action, f: Flip)
    requires Abandoned(w, f) && NoneUnderWay(w, f) && Enabled(w, a) && (a.Land? ==> FlightOk(w, a.flight))
    ensures LogSays(Step(w, a), f) ==> LogSays(w, f)
  {
    match a
    case BeginStart(_, _, _, _, _, _) => BeginStartOnlyAdds(w, a);
    case LogFound(o, outcome, _) =>
      assert !Holds(w.ops[o], f) && Flip(f.batch, f.artist) == f;
      AbandonedLog(w, Group(w.ops[o].f.batch, [w.ops[o].f.artist]), outcome, f);
    case LogGroup(o, outcome, _) =>
      assert !Holds(w.ops[o], f);
      OwesSplits(w.ops[o].todo, f);
      AbandonedLog(w, w.ops[o].todo[0], outcome, f);
    case Land(flight) => LandSays(w, flight, f);
    case _ =>
  }

  lemma {:induction false} AbandonedStep(w: World, a: Action, f: Flip)
    requires Inv(w) && Truthful(w) && Abandoned(w, f) && NoneUnderWay(w, f) && Enabled(w, a)
    ensures Abandoned(Step(w, a), f) && NoneUnderWay(Step(w, a), f)
    ensures LogSays(Step(w, a), f) ==> LogSays(w, f)
  {
    if a.Land? {
      LandableIsOk(w, a);
    }
    AbandonedStaysPut(w, a, f);
    AbandonedStaysAlone(w, a, f);
    NoneSetsOut(w, a, f);
    AbandonedIsNotLogged(w, a, f);
  }

  lemma {:induction false} AbandonedForever(w: World, run: seq<Action>, f: Flip)
    requires Inv(w) && NoEmptyGroups(w) && Truthful(w) && RunsFrom(w, run) && Abandoned(w, f) && NoneUnderWay(w, f)
    ensures Abandoned(After(w, run), f) && NoneUnderWay(After(w, run), f)
    ensures LogSays(After(w, run), f) ==> LogSays(w, f)
    decreases |run|
  {
    if run == [] {
    } else {
      var before, a := run[..|run| - 1], run[|run| - 1];
      AbandonedForever(w, before, f);
      RunsStayValid(w, before);
      AbandonedStep(After(w, before), a, f);
    }
  }

  ghost predicate CanStillBeLogged(w: World, f: Flip) {
    exists run :: RunsFrom(w, run) && LogSays(After(w, run), f)
  }

  lemma {:induction false} TwoSteps(w: World, a: Action, b: Action)
    requires Enabled(w, a) && Enabled(Step(w, a), b)
    ensures RunsFrom(w, [a, b]) && After(w, [a, b]) == Step(Step(w, a), b)
  {
    PrependRun(Step(w, a), b, []);
    PrependRun(w, a, [b]);
    assert [b] + [] == [b] && [a] + [b] == [a, b];
  }

  lemma {:induction false} FoundIsLogged(w: World, o: nat)
    requires o in w.ops && w.ops[o].Found? && w.ops[o].f.artist in AggregateOf(w, w.ops[o].f.batch).members
    ensures LogSays(Step(w, LogFound(o, Whole, false)), w.ops[o].f)
  {
    var f := w.ops[o].f;
    var g := Group(f.batch, [f.artist]);
    AppendSays(w, g, Whole, f);
    SameLogsSay(Append(w, g, Whole), Step(w, LogFound(o, Whole, false)), f);
  }

  lemma {:induction false} SameLogsSay(w: World, w': World, f: Flip)
    requires w'.logs == w.logs
    ensures LogSays(w', f) <==> LogSays(w, f)
  {
  }

  lemma {:induction false} UnfinishedCanBeLogged(w: World, f: Flip)
    requires MembersKnown(w) && w.ops == map[] && IsMember(w, f) && !TableSays(w, f) && !w.rows[f.batch].done
    ensures CanStillBeLogged(w, f)
  {
    var find, log := Find(0, f), LogFound(0, Whole, false);
    assert Enabled(w, find);
    var w1 := Step(w, find);
    assert w1 == w.(ops := map[0 := Found(f)]);
    FoundIsLogged(w1, 0);
    TwoSteps(w, find, log);
    assert LogSays(After(w, [find, log]), f);
  }

  lemma {:induction false} UnderWayCanLand(w: World, f: Flip)
    requires UnderWay(w, f) && f.artist in AggregateOf(w, f.batch).members
    ensures CanStillBeLogged(w, f)
  {
    var log, fact := StreamOf(w, f.batch), ArtistCompleted(f.artist);
    var land := Land(Flight(f.batch, |log|, fact));
    PrependRun(w, land, []);
    assert [land] + [] == [land];
    FoldOnce(UNBORN, log, fact);
    assert AggregateOf(Step(w, land), f.batch) == Apply(Fold(log), fact);
    assert LogSays(After(w, [land]), f);
  }

  /** At a quiet point, a completion that the log misses can still reach it
      exactly when the table shows the member unfinished, or a publish of it is
      under way and anchored at the tip. So a Reconcile that stopped after its
      write and before its append leaves a member that is done in the table and
      never will be in the log: no later CompleteArtist and no later Reconcile
      looks at finished members. */
  lemma {:induction false} LostOnlyBehindTheTable(w: World, f: Flip)
    requires Inv(w) && NoEmptyGroups(w) && Truthful(w) && w.ops == map[] && IsMember(w, f) && !LogSays(w, f)
    ensures CanStillBeLogged(w, f) <==> !TableSays(w, f) || UnderWay(w, f)
  {
    MembersAreKnown(w);
    if UnderWay(w, f) {
      UnderWayCanLand(w, f);
    } else if TableSays(w, f) {
      assert SameMembers(w, f.batch);
      NotUnderWay(w, f);
      forall run | RunsFrom(w, run) ensures !LogSays(After(w, run), f) {
        AbandonedForever(w, run, f);
      }
    } else {
      assert RowOk(w.rows[f.batch]);
      UnfinishedCanBeLogged(w, f);
    }
  }

  // ------------------------------------------------- the closing fact, lost

  ghost predicate Unclosed(w: World, id: string) {
    Done(AggregateOf(w, id)) && !AggregateOf(w, id).closed && StreamOf(w, id) != []
  }

  /** A publish of a closing fact is under way and anchored at the tip. */
  ghost predicate ClosingUnderWay(w: World, id: string) {
    exists flight ::
      flight in w.flights && flight.batch == id && flight.fact.BatchCompleted? && flight.at == |StreamOf(w, id)|
  }

  ghost predicate CanStillBeClosed(w: World, id: string) {
    exists run :: RunsFrom(w, run) && AggregateOf(After(w, run), id).closed
  }

  /** A finished batch records nothing any more. */
  lemma {:induction false} FinishedAppendsNothing(w: World, g: Group, outcome: Outcome, late: bool)
    requires Done(AggregateOf(w, g.batch))
    ensures StreamOf(Append(w, g, outcome), g.batch) == StreamOf(w, g.batch) && LateAppend(w, g, outcome, late) == {}
  {
    AllDone(AggregateOf(w, g.batch));
    NothingNew(AggregateOf(w, g.batch), g.artists);
    assert StreamOf(w, g.batch) + [] == StreamOf(w, g.batch);
  }

  lemma {:induction false} NothingLegalButClosing(log: seq<Fact>, fact: Fact)
    requires log != [] && Done(Fold(log)) && Legal(Fold(log), fact)
    ensures fact.BatchCompleted?
  {
    AllDone(Fold(log));
    FoldVersion(UNBORN, log);
  }

  lemma {:induction false} UnclosedLanding(w: World, flight: Flight, id: string)
    requires Truthful(w) && Unclosed(w, id) && !ClosingUnderWay(w, id) && flight in w.flights
    ensures StreamOf(Landed(w, flight), id) == StreamOf(w, id)
  {
    assert FlightOk(w, flight);
    if flight.batch == id && flight.at == |StreamOf(w, id)| {
      NothingLegalButClosing(StreamOf(w, id), flight.fact);
    }
  }

  lemma {:induction false} UnclosedAppend(w: World, g: Group, outcome: Outcome, late: bool, id: string)
    requires Unclosed(w, id)
    ensures StreamOf(Append(w, g, outcome), id) == StreamOf(w, id)
    ensures forall flight :: flight in LateAppend(w, g, outcome, late) ==> flight.batch != id
  {
    if g.batch == id {
      FinishedAppendsNothing(w, g, outcome, late);
    }
  }

  /** The stream of a finished batch changes by landing only. */
  lemma {:induction false} UnclosedStep(w: World, a: Action, id: string)
    requires Truthful(w) && Unclosed(w, id) && !ClosingUnderWay(w, id) && Enabled(w, a)
    ensures StreamOf(Step(w, a), id) == StreamOf(w, id) && !ClosingUnderWay(Step(w, a), id)
  {
    match a
    case LogFound(o, outcome, late) =>
      UnclosedAppend(w, Group(w.ops[o].f.batch, [w.ops[o].f.artist]), outcome, late, id);
    case LogGroup(o, outcome, late) => UnclosedAppend(w, w.ops[o].todo[0], outcome, late, id);
    case Land(flight) => UnclosedLanding(w, flight, id);
    case _ =>
  }

  lemma {:induction false} UnclosedForever(w: World, run: seq<Action>, id: string)
    requires Inv(w) && NoEmptyGroups(w) && Truthful(w) && Unclosed(w, id) && !ClosingUnderWay(w, id) && RunsFrom(w, run)
    ensures StreamOf(After(w, run), id) == StreamOf(w, id) && !ClosingUnderWay(After(w, run), id)
    decreases |run|
  {
    if run == [] {
    } else {
      UnclosedForever(w, run[..|run| - 1], id);
      RunsStayValid(w, run[..|run| - 1]);
      UnclosedStep(After(w, run[..|run| - 1]), run[|run| - 1], id);
    }
  }

  /** A finished batch without its closing fact gets one exactly when a publish
      of it is under way and anchored at the tip. */
  lemma {:induction false} LostCloseStaysLost(w: World, id: string)
    requires Inv(w) && NoEmptyGroups(w) && Truthful(w) && Unclosed(w, id)
    ensures CanStillBeClosed(w, id) <==> ClosingUnderWay(w, id)
  {
    if ClosingUnderWay(w, id) {
      var flight :| flight in w.flights && flight.batch == id && flight.fact.BatchCompleted?
        && flight.at == |StreamOf(w, id)|;
      PrependRun(w, Land(flight), []);
      assert [Land(flight)] + [] == [Land(flight)];
      FoldOnce(UNBORN, StreamOf(w, id), flight.fact);
      assert AggregateOf(After(w, [Land(flight)]), id).closed;
    } else {
      forall run | RunsFrom(w, run) ensures !AggregateOf(After(w, run), id).closed {
        UnclosedForever(w, run, id);
      }
    }
  }

  // -------------------------------------------------------------- witnesses

  const LOST := Flip("b", "a")

  const BORN := [Started(["a"], map[])]

  lemma {:induction false} OneArtist()
    ensures Unique(["a"]) == ["a"] && Birth(["a"], map[]) == BORN
    ensures Fold(BORN).members == map["a" := false]
  {
    assert ["a"][..0] == [];
    assert Unique([]) == [];
    assert Unique(["a"]) == ["a"];
    BirthIsLegal(["a"], map[]);
    assert BORN[..0] == [];
  }

  lemma {:induction false} LoggedStart() returns (run: seq<Action>)
    ensures RunsFrom(NOBODY, run)
    ensures After(NOBODY, run) == World(map["b" := BORN], map[], {}, {}, map[0 := Starting("b", ["a"], map[])], {})
  {
    OneArtist();
    var start := BeginStart(0, "b", ["a"], map[], Whole, false);
    run := [];
    ExtendRun(NOBODY, run, start);
    run := run + [start];
  }

  const OPEN_ROWS: Rows := map["b" := Row(1, 0, false, map[], map["a" := false])]

  lemma {:induction false} FreshRow()
    ensures Prune(Insert(map[], "b", ["a"], map[]), {}) == OPEN_ROWS
  {
    var members := map a | a in ["a"] :: false;
    assert "a" in ["a"] && members == map["a" := false];
    var row := Row(1, 0, false, map[], members);
    assert Insert(map[], "b", ["a"], map[]) == map["b" := row];
    assert OPEN_ROWS["b"] == row;
  }

  lemma {:induction false} OpenBatch() returns (run: seq<Action>)
    ensures RunsFrom(NOBODY, run)
    ensures After(NOBODY, run) == World(map["b" := BORN], OPEN_ROWS, {}, {}, map[], {})
  {
    run := LoggedStart();
    var w := After(NOBODY, run);
    ExtendRun(NOBODY, run, FinishStart(0, {}));
    run := run + [FinishStart(0, {})];
    FreshRow();
    assert w.ops - {0} == map[];
    assert w.pruned + Deleted(Insert(map[], "b", ["a"], map[]), {}) == {};
  }

  lemma {:induction false} FlippedRows()
    ensures "b" in ApplyFlips(OPEN_ROWS, {LOST})
    ensures ApplyFlips(OPEN_ROWS, {LOST})["b"] == Row(1, 1, true, map[], map["a" := true])
  {
    var members := map["a" := true];
    assert DoneMembers(members) == {"a"};
    assert FlipMembers("b", OPEN_ROWS["b"].members, {LOST}) == members;
  }

  /** A Reconcile between its table write and its append. */
  lemma {:induction false} FlippedBatch() returns (run: seq<Action>)
    ensures RunsFrom(NOBODY, run)
    ensures var w := After(NOBODY, run);
            && w.logs == map["b" := BORN] && w.flights == {}
            && w.ops.Keys == {1} && w.ops[1] == Owing(Grouped([LOST])) && "b" in w.rows
            && w.rows["b"] == Row(1, 1, true, map[], map["a" := true])
  {
    var begun := OpenBatch();
    assert Selectable(OPEN_ROWS, {}, LOST);
    var selected := begun + [Select(1, [LOST])];
    ExtendRun(NOBODY, begun, Select(1, [LOST]));
    run := selected + [FlipSelected(1)];
    ExtendRun(NOBODY, selected, FlipSelected(1));
    assert Flips([LOST]) == {LOST};
    FlippedRows();
  }

  /** Such a state is reachable: the row is done, its stream is not, and a
      replay would take the batch back. */
  lemma {:induction false} ReconcileCrashLosesAFact() returns (run: seq<Action>)
    ensures RunsFrom(NOBODY, run)
    ensures var w := After(NOBODY, run);
            && w.ops == map[] && IsMember(w, LOST) && TableSays(w, LOST) && !LogSays(w, LOST) && !UnderWay(w, LOST)
            && w.rows["b"].done && !ProjectAggregate(w.rows, "b", AggregateOf(w, "b"))["b"].done
  {
    var flipped := FlippedBatch();
    run := flipped + [Crash(1)];
    ExtendRun(NOBODY, flipped, Crash(1));
    OneArtist();
    assert After(NOBODY, run).ops == map[];
    AllDone(AggregateOf(After(NOBODY, run), "b"));
  }

  /** And so is one in which the append only timed out: its publish may still
      land, and only then does the fact reach the log. */
  lemma {:induction false} ReconcileTimesOut() returns (run: seq<Action>)
    ensures RunsFrom(NOBODY, run)
    ensures var w := After(NOBODY, run);
            w.ops == map[] && IsMember(w, LOST) && TableSays(w, LOST) && !LogSays(w, LOST) && UnderWay(w, LOST)
  {
    var flipped := FlippedBatch();
    var w := After(NOBODY, flipped);
    run := flipped + [LogGroup(1, Broken(0), true)];
    assert Grouped([LOST]) == [Group("b", ["a"])] by {
      assert [LOST][..0] == [];
    }
    ExtendRun(NOBODY, flipped, LogGroup(1, Broken(0), true));
    TimedOut(w);
  }

  lemma {:induction false} TimedOut(w: World)
    requires w.logs == map["b" := BORN] && w.flights == {}
    requires w.ops.Keys == {1} && w.ops[1] == Owing([Group("b", ["a"])])
    ensures var w' := Step(w, LogGroup(1, Broken(0), true));
            w'.rows == w.rows && w'.ops == map[] && !LogSays(w', LOST) && UnderWay(w', LOST)
  {
    var g, w' := Group("b", ["a"]), Step(w, LogGroup(1, Broken(0), true));
    OneArtist();
    assert AggregateOf(w, "b") == Fold(BORN);
    OneCompletionIsDone();
    NothingStored(w, g);
    assert w'.logs == w.logs && StreamOf(w', "b") == BORN;
    assert w.ops - {1} == map[];
  }

  lemma {:induction false} NothingStored(w: World, g: Group)
    requires g.batch in w.logs && Recorded(AggregateOf(w, g.batch), g.artists) != []
    ensures Append(w, g, Broken(0)).logs == w.logs
    ensures LateAppend(w, g, Broken(0), true) ==
              {Flight(g.batch, |w.logs[g.batch]|, Recorded(AggregateOf(w, g.batch), g.artists)[0])}
  {
    assert w.logs[g.batch] + [] == w.logs[g.batch];
  }

  lemma {:induction false} OneCompletionIsDone()
    ensures Recorded(Fold(BORN), ["a"]) == [ArtistCompleted("a"), BatchCompleted(1, 1)]
    ensures Done(Fold(BORN + [ArtistCompleted("a")])) && !Fold(BORN + [ArtistCompleted("a")]).closed
  {
    OneArtist();
    var b, fact := Fold(BORN), ArtistCompleted("a");
    BirthIsLegal(["a"], map[]);
    assert ["a"][..0] == [] && Completions(b, []) == [];
    assert FoldFrom(b, []) == b;
    assert [] + [fact] == [fact];
    assert Completions(b, ["a"]) == [fact];
    FoldOne(b, fact);
    FoldOnce(UNBORN, BORN, fact);
    var b' := Apply(b, fact);
    assert b'.members == map["a" := true];
    assert DoneMembers(b'.members) == {"a"};
  }

  lemma {:induction false} OneStored()
    ensures Stored(Fold(BORN), ["a"], Broken(1)) == [ArtistCompleted("a")]
  {
    OneCompletionIsDone();
    assert [ArtistCompleted("a"), BatchCompleted(1, 1)][..1] == [ArtistCompleted("a")];
  }

  lemma {:induction false} FailedAppend(w: World)
    requires w.ops == map[1 := Found(LOST)] && StreamOf(w, "b") == BORN && w.flights == {}
    ensures var w' := Step(w, LogFound(1, Broken(1), false));
            w'.ops == map[] && StreamOf(w', "b") == BORN + [ArtistCompleted("a")] && w'.flights == {}
  {
    OneStored();
    assert w.ops - {1} == map[];
    assert AggregateOf(w, "b") == Fold(BORN);
  }

  /** The closing fact does get lost: an append that stores the completion and
      then fails leaves a finished batch whose stream is not closed, with
      nothing under way. */
  lemma {:induction false} ClosingFactLost() returns (run: seq<Action>)
    ensures RunsFrom(NOBODY, run)
    ensures var w := After(NOBODY, run); w.ops == map[] && Unclosed(w, "b") && !ClosingUnderWay(w, "b")
  {
    var begun := OpenBatch();
    var found := begun + [Find(1, LOST)];
    ExtendRun(NOBODY, begun, Find(1, LOST));
    run := found + [LogFound(1, Broken(1), false)];
    ExtendRun(NOBODY, found, LogFound(1, Broken(1), false));
    FailedAppend(After(NOBODY, found));
    OneCompletionIsDone();
  }
}
