/** Where log and tables agree: everywhere but at operations under way and at
    members whose CompleteArtist failed half way, and so everywhere at the quiet
    points of a smooth run. */
module BatchConvergence {
  import opened BatchAggregate
  import opened BatchTables
  import opened BatchWorld
  import opened BatchSafety

  /** In every reachable state, crashes and failed appends included: each row's
      total and completed count its member rows, and it is done exactly when
      all of them are. */
  lemma {:induction false} CountsAlwaysTrue(run: seq<Action>, id: string)
    requires RunsFrom(NOBODY, run) && id in After(NOBODY, run).rows
    ensures var row := After(NOBODY, run).rows[id];
            && row.total == |row.members| && row.completed == CountDone(row.members)
            && (row.done <==> forall a :: a in row.members ==> row.members[a])
  {
    RunKeepsInv(run);
  }

  lemma {:induction false} RowStepAdvances(rows: Rows, id: string, f: Flip, flips: set<Flip>)
    requires id in rows
    ensures RowAdvances(rows[id], MarkMember(rows, f.batch, f.artist)[id])
    ensures RowAdvances(rows[id], ApplyFlips(rows, flips)[id])
    ensures RowAdvances(rows[id], rows[id])
  {
  }

  lemma {:induction false} OnlyTwoStepsTouchRows(w: World, a: Action, id: string)
    requires Enabled(w, a) && id in w.rows && id in Step(w, a).rows
    requires !a.MarkLogged? && !a.FlipSelected? && (a.FinishStart? ==> w.ops[a.o].id !in w.rows)
    ensures Step(w, a).rows[id] == w.rows[id]
  {
    if a.Restart? {
      RestartIsPrune(w, a);
    }
  }

  /** A finished member and a done batch never become unfinished again. */
  lemma {:induction false} DoneNeverReverts(w: World, a: Action, id: string)
    requires Inv(w) && Enabled(w, a) && id in w.rows && id in Step(w, a).rows
    ensures RowAdvances(w.rows[id], Step(w, a).rows[id])
  {
    if a.MarkLogged? {
      RowStepAdvances(w.rows, id, w.ops[a.o].f, {});
    } else if a.FlipSelected? {
      RowStepAdvances(w.rows, id, Flip("", ""), Flips(w.ops[a.o].flips));
    } else {
      assert a.FinishStart? ==> OpOk(w, w.ops[a.o]);
      OnlyTwoStepsTouchRows(w, a, id);
    }
  }

  // ------------------------------------------------------------- agreement

  ghost predicate LogSays(w: World, f: Flip) {
    f.artist in AggregateOf(w, f.batch).members && AggregateOf(w, f.batch).members[f.artist]
  }

  ghost predicate TableSays(w: World, f: Flip) {
    f.batch in w.rows && f.artist in w.rows[f.batch].members && w.rows[f.batch].members[f.artist]
  }

  ghost predicate IsMember(w: World, f: Flip) {
    f.batch in w.rows && f.artist in w.rows[f.batch].members
  }

  /** Some Reconcile has still to log the member. */
  ghost predicate ToBeLogged(w: World, f: Flip) {
    exists o :: o in w.ops && w.ops[o].Owing? && Owes(w.ops[o].todo, f)
  }

  /** Some CompleteArtist has still to mark the member. */
  ghost predicate ToBeMarked(w: World, f: Flip) {
    exists o :: o in w.ops && w.ops[o] == Logged(f)
  }

  /** Log and table differ only where an operation is under way; the log may
      also be ahead for the members in `lag`. */
  ghost predicate AgreeExcept(w: World, lag: set<Flip>) {
    && (forall f :: TableSays(w, f) && !LogSays(w, f) ==> ToBeLogged(w, f))
    && (forall f :: IsMember(w, f) && LogSays(w, f) && !TableSays(w, f) ==> ToBeMarked(w, f) || f in lag)
    && (forall o :: o in w.ops && w.ops[o].Logged? && IsMember(w, w.ops[o].f) ==> LogSays(w, w.ops[o].f))
  }

  /** Batches are closed exactly when everybody is done. */
  ghost predicate ClosedWhenDone(w: World) {
    forall id :: id in w.logs ==> (AggregateOf(w, id).closed <==> Done(AggregateOf(w, id)))
  }

  lemma {:induction false} UnbrokenMembers(b: Batch, artists: seq<string>, outcome: Outcome)
    requires !outcome.Broken?
    ensures FoldFrom(b, Stored(b, artists, outcome)).members == WithDone(b.members, artists)
  {
    CompletionsComplete(b, artists);
    RecordedCompletes(b, artists);
  }

  /** An append that returned success completes exactly the named members. */
  lemma {:induction false} AppendSays(w: World, g: Group, outcome: Outcome, f: Flip)
    requires !outcome.Broken?
    ensures LogSays(Append(w, g, outcome), f) <==>
              LogSays(w, f)
              || (f.batch == g.batch && f.artist in g.artists && f.artist in AggregateOf(w, f.batch).members)
  {
    AppendFolds(w, g, outcome);
    UnbrokenMembers(AggregateOf(w, g.batch), g.artists, outcome);
  }

  lemma {:induction false} PrefixMembers(b: Batch, x: seq<Fact>, y: seq<Fact>)
    requires NoBirth(x + y)
    ensures var b', all := FoldFrom(b, x), FoldFrom(b, x + y);
            all.members.Keys == b'.members.Keys && forall a :: a in b'.members && b'.members[a] ==> all.members[a]
  {
    FoldJoins(b, x, y);
    assert forall i :: 0 <= i < |y| ==> y[i] == (x + y)[|x| + i];
    LaterFactsOnlyFinish(FoldFrom(b, x), y);
  }

  lemma {:induction false} FirstFactsComplete(b: Batch, artists: seq<string>, x: seq<Fact>, y: seq<Fact>)
    requires x + y == Recorded(b, artists)
    ensures var b' := FoldFrom(b, x);
            forall a :: a in b'.members && b'.members[a] ==> a in b.members && (b.members[a] || a in artists)
  {
    StoredOnlyFinishes(b, artists, Whole);
    PrefixMembers(b, x, y);
    RecordedCompletes(b, artists);
  }

  lemma {:induction false} StoredMembers(b: Batch, artists: seq<string>, outcome: Outcome)
    ensures var b' := FoldFrom(b, Stored(b, artists, outcome));
            forall a :: a in b'.members && b'.members[a] ==> a in b.members && (b.members[a] || a in artists)
  {
    var stored, facts := Stored(b, artists, outcome), Recorded(b, artists);
    StoredIsPrefix(b, artists, outcome);
    assert stored + facts[|stored|..] == facts;
    FirstFactsComplete(b, artists, stored, facts[|stored|..]);
  }

  /** A failed append completes at most the named members. */
  lemma {:induction false} BrokenAppendSays(w: World, g: Group, k: nat, f: Flip)
    ensures LogSays(w, f) ==> LogSays(Append(w, g, Broken(k)), f)
    ensures LogSays(Append(w, g, Broken(k)), f) ==> LogSays(w, f) || (f.batch == g.batch && f.artist in g.artists)
  {
    AppendFolds(w, g, Broken(k));
    StoredMembers(AggregateOf(w, g.batch), g.artists, Broken(k));
    StoredOnlyFinishes(AggregateOf(w, g.batch), g.artists, Broken(k));
  }

  /** The members of a row are members in the log. */
  ghost predicate MembersKnown(w: World) {
    forall f :: IsMember(w, f) ==> f.artist in AggregateOf(w, f.batch).members
  }

  lemma {:induction false} MembersAreKnown(w: World)
    requires Inv(w)
    ensures MembersKnown(w)
  {
    forall f | IsMember(w, f) ensures f.artist in AggregateOf(w, f.batch).members {
      assert SameMembers(w, f.batch);
    }
  }

  /** All operations but `o` stand where they stood. */
  ghost predicate OthersWait(w: World, w': World, o: nat) {
    forall p :: p != o ==> (p in w.ops <==> p in w'.ops) && (p in w.ops ==> w'.ops[p] == w.ops[p])
  }

  lemma {:induction false} StillToBeLogged(w: World, w': World, o: nat, f: Flip)
    requires OthersWait(w, w', o) && ToBeLogged(w, f)
    requires o in w.ops && w.ops[o].Owing? && Owes(w.ops[o].todo, f) ==>
               o in w'.ops && w'.ops[o].Owing? && Owes(w'.ops[o].todo, f)
    ensures ToBeLogged(w', f)
  {
    var p :| p in w.ops && w.ops[p].Owing? && Owes(w.ops[p].todo, f);
    assert p in w'.ops && w'.ops[p].Owing? && Owes(w'.ops[p].todo, f);
  }

  lemma {:induction false} StillToBeMarked(w: World, w': World, o: nat, f: Flip)
    requires OthersWait(w, w', o) && ToBeMarked(w, f) && !(o in w.ops && w.ops[o] == Logged(f))
    ensures ToBeMarked(w', f)
  {
    var p :| p in w.ops && w.ops[p] == Logged(f);
    assert p in w'.ops && w'.ops[p] == Logged(f);
  }

  // ------------------------------------------------- smooth steps, one by one

  /** Operation `o` takes a step that only appends `g`. */
  lemma {:induction false} AppendAgrees(w: World, w': World, o: nat, g: Group, outcome: Outcome, lag: set<Flip>)
    requires MembersKnown(w) && AgreeExcept(w, lag) && OthersWait(w, w', o) && !outcome.Broken?
    requires w'.rows == w.rows && w'.logs == Append(w, g, outcome).logs
    requires o in w.ops && (w.ops[o].Found? || w.ops[o].Owing?)
    requires o in w'.ops && w'.ops[o].Logged? ==> g.batch == w'.ops[o].f.batch && w'.ops[o].f.artist in g.artists
    requires forall f :: w.ops[o].Owing? && Owes(w.ops[o].todo, f) ==>
               (f.batch == g.batch && f.artist in g.artists)
               || (o in w'.ops && w'.ops[o].Owing? && Owes(w'.ops[o].todo, f))
    requires forall f: Flip :: f.batch == g.batch && f.artist in g.artists && IsMember(w, f) ==>
               TableSays(w, f) || (o in w'.ops && w'.ops[o] == Logged(f))
    ensures AgreeExcept(w', lag)
  {
    forall f ensures LogSays(w', f) <==>
        LogSays(w, f) || (f.batch == g.batch && f.artist in g.artists && f.artist in AggregateOf(w, f.batch).members) {
      AppendSays(w, g, outcome, f);
    }
    forall f | TableSays(w', f) && !LogSays(w', f) ensures ToBeLogged(w', f) {
      StillToBeLogged(w, w', o, f);
    }
    forall f | IsMember(w', f) && LogSays(w', f) && !TableSays(w', f) ensures ToBeMarked(w', f) || f in lag {
      if LogSays(w, f) && f !in lag {
        StillToBeMarked(w, w', o, f);
      }
    }
  }

  lemma {:induction false} LogFoundAgrees(w: World, o: nat, outcome: Outcome, late: bool, lag: set<Flip>)
    requires MembersKnown(w) && AgreeExcept(w, lag) && Enabled(w, LogFound(o, outcome, late)) && !outcome.Broken?
    ensures AgreeExcept(Step(w, LogFound(o, outcome, late)), lag)
  {
    var f := w.ops[o].f;
    assert Flip(f.batch, f.artist) == f;
    AppendAgrees(w, Step(w, LogFound(o, outcome, late)), o, Group(f.batch, [f.artist]), outcome, lag);
  }

  lemma {:induction false} LogGroupAgrees(w: World, o: nat, outcome: Outcome, late: bool, lag: set<Flip>)
    requires MembersKnown(w) && AgreeExcept(w, lag) && Enabled(w, LogGroup(o, outcome, late)) && !outcome.Broken?
    requires OpOk(w, w.ops[o])
    ensures AgreeExcept(Step(w, LogGroup(o, outcome, late)), lag)
  {
    var todo := w.ops[o].todo;
    var w' := Step(w, LogGroup(o, outcome, late));
    forall f | Owes(todo, f)
      ensures (f.batch == todo[0].batch && f.artist in todo[0].artists)
              || (o in w'.ops && w'.ops[o].Owing? && Owes(w'.ops[o].todo, f))
    {
      OwesSplits(todo, f);
    }
    forall f: Flip | f.batch == todo[0].batch && f.artist in todo[0].artists && IsMember(w, f) ensures TableSays(w, f) {
      OwesSplits(todo, f);
    }
    AppendAgrees(w, w', o, todo[0], outcome, lag);
  }

  /** Streams and rows stay; `o` is not one that logs or marks, before or after. */
  lemma {:induction false} QuietAgrees(w: World, w': World, o: nat, lag: set<Flip>)
    requires AgreeExcept(w, lag) && OthersWait(w, w', o) && w'.rows == w.rows
    requires forall id :: id in w.rows ==> AggregateOf(w', id) == AggregateOf(w, id)
    requires forall f :: LogSays(w, f) ==> LogSays(w', f)
    requires o in w.ops ==> !w.ops[o].Owing? && !w.ops[o].Logged?
    requires o in w'.ops ==> !w'.ops[o].Logged?
    ensures AgreeExcept(w', lag)
  {
    forall f | TableSays(w', f) && !LogSays(w', f) ensures ToBeLogged(w', f) {
      StillToBeLogged(w, w', o, f);
    }
    forall f | IsMember(w', f) && LogSays(w', f) && !TableSays(w', f) ensures ToBeMarked(w', f) || f in lag {
      if f !in lag {
        StillToBeMarked(w, w', o, f);
      }
    }
  }

  lemma {:induction false} MarkAgrees(w: World, o: nat, lag: set<Flip>)
    requires AgreeExcept(w, lag) && Enabled(w, MarkLogged(o))
    ensures AgreeExcept(Step(w, MarkLogged(o)), lag)
  {
    var g := w.ops[o].f;
    var w' := Step(w, MarkLogged(o));
    forall f ensures TableSays(w', f) <==> TableSays(w, f) || (f == g && IsMember(w, f)) {}
    assert forall f :: IsMember(w', f) <==> IsMember(w, f);
    forall f | TableSays(w', f) && !LogSays(w', f) ensures ToBeLogged(w', f) {
      StillToBeLogged(w, w', o, f);
    }
    forall f | IsMember(w', f) && LogSays(w', f) && !TableSays(w', f) ensures ToBeMarked(w', f) || f in lag {
      if f !in lag {
        StillToBeMarked(w, w', o, f);
      }
    }
  }

  lemma {:induction false} FlipsSay(w: World, flips: seq<Flip>, f: Flip)
    ensures var w' := w.(rows := ApplyFlips(w.rows, Flips(flips)));
            && (IsMember(w', f) <==> IsMember(w, f))
            && (TableSays(w', f) <==> TableSays(w, f) || (IsMember(w, f) && f in flips))
  {
    assert Flip(f.batch, f.artist) == f;
  }

  lemma {:induction false} FlipAgrees(w: World, o: nat, lag: set<Flip>)
    requires AgreeExcept(w, lag) && Enabled(w, FlipSelected(o))
    ensures AgreeExcept(Step(w, FlipSelected(o)), lag)
  {
    var flips := w.ops[o].flips;
    var w' := Step(w, FlipSelected(o));
    forall f
      ensures (IsMember(w', f) <==> IsMember(w, f))
              && (TableSays(w', f) <==> TableSays(w, f) || (IsMember(w, f) && f in flips))
    {
      FlipsSay(w, flips, f);
    }
    forall f | TableSays(w', f) && !LogSays(w', f) ensures ToBeLogged(w', f) {
      if f in flips {
        GroupedOwes(flips, f);
        assert w'.ops[o] == Owing(Grouped(flips));
      } else {
        StillToBeLogged(w, w', o, f);
      }
    }
    forall f | IsMember(w', f) && LogSays(w', f) && !TableSays(w', f) ensures ToBeMarked(w', f) || f in lag {
      if f !in lag {
        StillToBeMarked(w, w', o, f);
      }
    }
  }

  lemma {:induction false} PruneAgrees(w: World, expired: set<string>, lag: set<Flip>)
    requires AgreeExcept(w, lag)
    ensures AgreeExcept(w.(rows := Prune(w.rows, expired), pruned := w.pruned + Deleted(w.rows, expired)), lag)
  {
    var w' := w.(rows := Prune(w.rows, expired), pruned := w.pruned + Deleted(w.rows, expired));
    assert forall f :: (IsMember(w', f) ==> IsMember(w, f)) && (TableSays(w', f) ==> TableSays(w, f));
    forall f | TableSays(w', f) && !LogSays(w', f) ensures ToBeLogged(w', f) {
      StillToBeLogged(w, w', 0, f);
    }
    forall f | IsMember(w', f) && LogSays(w', f) && !TableSays(w', f) ensures ToBeMarked(w', f) || f in lag {
      assert ToBeMarked(w, f) ==> ToBeMarked(w', f);
    }
  }

  lemma {:induction false} InsertAgrees(w: World, o: nat, lag: set<Flip>)
    requires Inv(w) && AgreeExcept(w, lag) && o in w.ops && w.ops[o].Starting?
    ensures var op := w.ops[o];
            AgreeExcept(w.(rows := Insert(w.rows, op.id, op.artists, op.stats), ops := w.ops - {o}), lag)
  {
    var op := w.ops[o];
    assert OpOk(w, op);
    var w' := w.(rows := Insert(w.rows, op.id, op.artists, op.stats), ops := w.ops - {o});
    InsertedAgrees(w, w', o, op.id, lag);
  }

  lemma {:induction false} InsertedAgrees(w: World, w': World, o: nat, id: string, lag: set<Flip>)
    requires AgreeExcept(w, lag) && OthersWait(w, w', o) && w'.logs == w.logs && o in w.ops && w.ops[o].Starting?
             && o !in w'.ops
    requires id !in w.rows && id in w'.rows && w'.rows == w.rows[id := w'.rows[id]]
    requires !AnyoneDone(AggregateOf(w, id)) && !exists a :: a in w'.rows[id].members && w'.rows[id].members[a]
    requires forall p :: p in w.ops && w.ops[p].Logged? ==> w.ops[p].f.batch != id
    ensures AgreeExcept(w', lag)
  {
    assert forall f: Flip :: f.batch != id ==>
             (IsMember(w', f) <==> IsMember(w, f)) && (TableSays(w', f) <==> TableSays(w, f));
    forall f | TableSays(w', f) && !LogSays(w', f) ensures ToBeLogged(w', f) {
      StillToBeLogged(w, w', o, f);
    }
    forall f | IsMember(w', f) && LogSays(w', f) && !TableSays(w', f) ensures ToBeMarked(w', f) || f in lag {
      if f !in lag {
        StillToBeMarked(w, w', o, f);
      }
    }
  }

  // -------------------------------------------------- all steps, whole runs

  /** The faults that one later Reconcile makes good: everything except a
      Reconcile that stops between its write and its appends. */
  predicate Healable(w: World, a: Action) {
    match a
    case Crash(o) => !(o in w.ops && w.ops[o].Owing?)
    case LogGroup(_, outcome, _) => !outcome.Broken?
    case _ => true
  }

  /** The member that a fault in CompleteArtist leaves logged but unmarked. */
  function Victims(w: World, a: Action): set<Flip> {
    match a
    case Crash(o) => if o in w.ops && w.ops[o].Logged? then {w.ops[o].f} else {}
    case LogFound(o, outcome, _) => if o in w.ops && w.ops[o].Found? && outcome.Broken? then {w.ops[o].f} else {}
    case _ => {}
  }

  lemma {:induction false} CrashAgrees(w: World, o: nat, lag: set<Flip>)
    requires AgreeExcept(w, lag) && o in w.ops && !w.ops[o].Owing?
    ensures AgreeExcept(w.(ops := w.ops - {o}), lag + if w.ops[o].Logged? then {w.ops[o].f} else {})
  {
    var w' := w.(ops := w.ops - {o});
    forall f | TableSays(w', f) && !LogSays(w', f) ensures ToBeLogged(w', f) {
      StillToBeLogged(w, w', o, f);
    }
    forall f | IsMember(w', f) && LogSays(w', f) && !TableSays(w', f)
      ensures ToBeMarked(w', f) || f in lag + if w.ops[o].Logged? then {w.ops[o].f} else {}
    {
      if f !in lag && w.ops[o] != Logged(f) {
        StillToBeMarked(w, w', o, f);
      }
    }
  }

  /** Streams only gained completions of members in `news`. */
  ghost predicate LogGains(w: World, w': World, news: set<Flip>) {
    forall f :: (LogSays(w, f) ==> LogSays(w', f)) && (LogSays(w', f) ==> LogSays(w, f) || f in news)
  }

  lemma {:induction false} GainAgrees(w: World, w': World, o: nat, news: set<Flip>, lag: set<Flip>)
    requires AgreeExcept(w, lag) && OthersWait(w, w', o) && w'.rows == w.rows && LogGains(w, w', news)
    requires o in w.ops && w.ops[o].Found? && o !in w'.ops
    ensures AgreeExcept(w', lag + news)
  {
    forall f | TableSays(w', f) && !LogSays(w', f) ensures ToBeLogged(w', f) {
      StillToBeLogged(w, w', o, f);
    }
    forall f | IsMember(w', f) && LogSays(w', f) && !TableSays(w', f) ensures ToBeMarked(w', f) || f in lag + news {
      if f !in lag + news {
        StillToBeMarked(w, w', o, f);
      }
    }
  }

  lemma {:induction false} BrokenLogFoundAgrees(w: World, o: nat, k: nat, late: bool, lag: set<Flip>)
    requires AgreeExcept(w, lag) && Enabled(w, LogFound(o, Broken(k), late))
    ensures AgreeExcept(Step(w, LogFound(o, Broken(k), late)), lag + {w.ops[o].f})
  {
    var g := w.ops[o].f;
    var w' := Step(w, LogFound(o, Broken(k), late));
    forall f ensures (LogSays(w, f) ==> LogSays(w', f)) && (LogSays(w', f) ==> LogSays(w, f) || f in {g}) {
      BrokenAppendSays(w, Group(g.batch, [g.artist]), k, f);
    }
    GainAgrees(w, w', o, {g}, lag);
  }

  lemma {:induction false} BeginStartOnlyAdds(w: World, a: Action)
    requires a.BeginStart? && Enabled(w, a)
    ensures var w' := Step(w, a);
            && w'.rows == w.rows && OthersWait(w, w', a.o)
            && (a.o in w'.ops ==> w'.ops[a.o].Starting?)
            && forall id :: id in w.logs ==> StreamOf(w', id) == StreamOf(w, id)
  {
  }

  lemma {:induction false} BeginStartAgrees(w: World, a: Action, lag: set<Flip>)
    requires AgreeExcept(w, lag) && a.BeginStart? && Enabled(w, a)
    requires forall id :: id in w.rows ==> id in w.logs
    ensures AgreeExcept(Step(w, a), lag)
  {
    BeginStartOnlyAdds(w, a);
    forall f | LogSays(w, f) ensures f.batch in w.logs {
      assert AggregateOf(w, f.batch) != UNBORN;
    }
    QuietAgrees(w, Step(w, a), a.o, lag);
  }

  lemma {:induction false} RowsAreLogged(w: World)
    requires Inv(w)
    ensures forall id :: id in w.rows ==> id in w.logs
  {
    forall id | id in w.rows ensures id in w.logs {
      assert SameMembers(w, id);
    }
  }

  lemma {:induction false} PendingAgrees(w: World, pending: set<string>, lag: set<Flip>)
    requires AgreeExcept(w, lag)
    ensures AgreeExcept(w.(pending := pending), lag)
  {
    var w' := w.(pending := pending);
    assert forall f :: (ToBeLogged(w, f) ==> ToBeLogged(w', f)) && (ToBeMarked(w, f) ==> ToBeMarked(w', f));
  }

  lemma {:induction false} FinishStartAgrees(w: World, o: nat, expired: set<string>, lag: set<Flip>)
    requires Inv(w) && AgreeExcept(w, lag) && Enabled(w, FinishStart(o, expired))
    ensures AgreeExcept(Step(w, FinishStart(o, expired)), lag)
  {
    var op := w.ops[o];
    InsertAgrees(w, o, lag);
    PruneAgrees(w.(rows := Insert(w.rows, op.id, op.artists, op.stats), ops := w.ops - {o}), expired, lag);
  }

  lemma {:induction false} CompleteStepAgrees(w: World, a: Action, lag: set<Flip>)
    requires MembersKnown(w) && AgreeExcept(w, lag) && Enabled(w, a)
    requires a.Find? || a.LogFound? || a.MarkLogged? || (a.Crash? && !w.ops[a.o].Owing?)
    ensures AgreeExcept(Step(w, a), lag + Victims(w, a))
  {
    assert lag + {} == lag;
    match a
    case Find(o, _) => QuietAgrees(w, Step(w, a), o, lag);
    case LogFound(o, outcome, late) =>
      if outcome.Broken? {
        BrokenLogFoundAgrees(w, o, outcome.k, late, lag);
      } else {
        LogFoundAgrees(w, o, outcome, late, lag);
      }
    case MarkLogged(o) => MarkAgrees(w, o, lag);
    case Crash(o) => CrashAgrees(w, o, lag);
  }

  /** The completions under way are of members in `lag`. */
  ghost predicate LateOnly(w: World, lag: set<Flip>) {
    forall flight :: flight in w.flights && flight.fact.ArtistCompleted? ==>
      Flip(flight.batch, flight.fact.artist) in lag
  }

  predicate Says(b: Batch, artist: string) {
    artist in b.members && b.members[artist]
  }

  /** One more fact completes at most the member it names. */
  lemma {:induction false} OneFactSays(b: Batch, fact: Fact, artist: string)
    requires fact.Started? ==> b == UNBORN
    ensures Says(b, artist) ==> Says(Apply(b, fact), artist)
    ensures Says(Apply(b, fact), artist) ==> Says(b, artist) || fact == ArtistCompleted(artist)
  {
  }

  lemma {:induction false} LandSays(w: World, flight: Flight, f: Flip)
    requires FlightOk(w, flight)
    ensures LogSays(w, f) ==> LogSays(Landed(w, flight), f)
    ensures LogSays(Landed(w, flight), f) ==>
              LogSays(w, f) || (flight.fact.ArtistCompleted? && f == Flip(flight.batch, flight.fact.artist))
  {
    var log := StreamOf(w, flight.batch);
    if flight.at == |log| && f.batch == flight.batch {
      LegalBirth(log, flight.fact);
      FoldOnce(UNBORN, log, flight.fact);
      OneFactSays(Fold(log), flight.fact, f.artist);
      assert AggregateOf(Landed(w, flight), f.batch) == Apply(Fold(log), flight.fact);
    }
  }

  lemma {:induction false} LandAgrees(w: World, flight: Flight, lag: set<Flip>)
    requires AgreeExcept(w, lag) && LateOnly(w, lag) && flight in w.flights && FlightOk(w, flight)
    ensures AgreeExcept(Landed(w, flight), lag)
  {
    var w' := Landed(w, flight);
    forall f ensures (LogSays(w, f) ==> LogSays(w', f)) && (LogSays(w', f) ==> LogSays(w, f) || f in lag) {
      LandSays(w, flight, f);
    }
    forall f | TableSays(w', f) && !LogSays(w', f) ensures ToBeLogged(w', f) {
      StillToBeLogged(w, w', 0, f);
    }
    forall f | IsMember(w', f) && LogSays(w', f) && !TableSays(w', f) ensures ToBeMarked(w', f) || f in lag {
      assert ToBeMarked(w, f) ==> ToBeMarked(w', f);
    }
  }

  lemma {:induction false} ReconcileStepAgrees(w: World, a: Action, lag: set<Flip>)
    requires MembersKnown(w) && OpsOk(w) && AgreeExcept(w, lag) && Enabled(w, a) && Healable(w, a)
    requires a.Select? || a.FlipSelected? || a.LogGroup?
    ensures AgreeExcept(Step(w, a), lag)
  {
    match a
    case Select(o, _) => QuietAgrees(w, Step(w, a), o, lag);
    case FlipSelected(o) => FlipAgrees(w, o, lag);
    case LogGroup(o, outcome, late) =>
      assert OpOk(w, w.ops[o]);
      LogGroupAgrees(w, o, outcome, late, lag);
  }

  lemma {:induction false} StepAgrees(w: World, a: Action, lag: set<Flip>)
    requires Inv(w) && Truthful(w) && AgreeExcept(w, lag) && LateOnly(w, lag) && Enabled(w, a) && Healable(w, a)
    ensures AgreeExcept(Step(w, a), lag + Victims(w, a))
  {
    MembersAreKnown(w);
    RowsAreLogged(w);
    assert lag + {} == lag;
    match a
    case BeginStart(_, _, _, _, _, _) => BeginStartAgrees(w, a, lag);
    case FinishStart(o, expired) => FinishStartAgrees(w, o, expired, lag);
    case Restart(_, _, _, expired) =>
      RestartIsPrune(w, a);
      PruneAgrees(w, expired, lag);
    case Select(_, _) => ReconcileStepAgrees(w, a, lag);
    case FlipSelected(_) => ReconcileStepAgrees(w, a, lag);
    case LogGroup(_, _, _) => ReconcileStepAgrees(w, a, lag);
    case Land(flight) => LandAgrees(w, flight, lag);
    case PruneRows(expired) => PruneAgrees(w, expired, lag);
    case SetPending(_, _) => PendingAgrees(w, Step(w, a).pending, lag);
    case _ => CompleteStepAgrees(w, a, lag);
  }

  /** What a command records are completions of the artists it names, and a close. */
  lemma {:induction false} RecordedNames(b: Batch, artists: seq<string>, i: nat)
    requires i < |Recorded(b, artists)|
    ensures var fact := Recorded(b, artists)[i];
            !fact.Started? && (fact.ArtistCompleted? ==> fact.artist in artists && i < |Completions(b, artists)|)
  {
    RecordedHasNoBirth(b, artists);
    if i < |Completions(b, artists)| {
      CompletionsName(b, artists, i);
    }
  }

  lemma {:induction false} CompletionsName(b: Batch, artists: seq<string>, i: nat)
    requires i < |Completions(b, artists)|
    ensures Completions(b, artists)[i].ArtistCompleted? ==> Completions(b, artists)[i].artist in artists
  {
    var init := artists[..|artists| - 1];
    if i >= |Completions(b, init)| {
    } else {
      CompletionsName(b, init, i);
    }
  }

  /** The fact left under way by an append is of a member it was to complete,
      and of nobody when the append succeeded. */
  lemma {:induction false} LateAppendNames(w: World, g: Group, outcome: Outcome, late: bool, flight: Flight)
    requires flight in LateAppend(w, g, outcome, late) && flight.fact.ArtistCompleted?
    ensures outcome.Broken? && flight.batch == g.batch && flight.fact.artist in g.artists
  {
    var b := AggregateOf(w, g.batch);
    RecordedNames(b, g.artists, |Stored(b, g.artists, outcome)|);
  }

  lemma {:induction false} StepKeepsLateOnly(w: World, a: Action, lag: set<Flip>)
    requires LateOnly(w, lag) && Enabled(w, a) && Healable(w, a)
    ensures LateOnly(Step(w, a), lag + Victims(w, a))
  {
    forall flight | flight in Step(w, a).flights && flight !in w.flights && flight.fact.ArtistCompleted?
      ensures Flip(flight.batch, flight.fact.artist) in Victims(w, a)
    {
      match a {
        case BeginStart(_, _, artists, stats, _, _) => BirthHasNoCompletion(artists, stats);
        case LogFound(o, outcome, late) =>
          LateAppendNames(w, Group(w.ops[o].f.batch, [w.ops[o].f.artist]), outcome, late, flight);
        case LogGroup(o, outcome, late) =>
          LateAppendNames(w, w.ops[o].todo[0], outcome, late, flight);
        case _ =>
      }
    }
  }

  ghost predicate HealableRun(run: seq<Action>)
    requires RunsFrom(NOBODY, run)
  {
    run == [] || (HealableRun(run[..|run| - 1]) && Healable(After(NOBODY, run[..|run| - 1]), run[|run| - 1]))
  }

  ghost function AllVictims(run: seq<Action>): set<Flip>
    requires RunsFrom(NOBODY, run)
  {
    if run == [] then {}
    else AllVictims(run[..|run| - 1]) + Victims(After(NOBODY, run[..|run| - 1]), run[|run| - 1])
  }

  /** Log and tables agree but for the operations under way and for the
      members whose CompleteArtist failed half way. */
  lemma {:induction false} RunAgrees(run: seq<Action>)
    requires RunsFrom(NOBODY, run) && HealableRun(run)
    ensures AgreeExcept(After(NOBODY, run), AllVictims(run)) && LateOnly(After(NOBODY, run), AllVictims(run))
    decreases |run|
  {
    if run == [] {
    } else {
      var before := run[..|run| - 1];
      RunAgrees(before);
      RunKeepsInv(before);
      StepAgrees(After(NOBODY, before), run[|run| - 1], AllVictims(before));
      StepKeepsLateOnly(After(NOBODY, before), run[|run| - 1], AllVictims(before));
    }
  }

  lemma {:induction false} AgreedMember(w: World, lag: set<Flip>, f: Flip)
    requires AgreeExcept(w, lag) && w.ops == map[] && IsMember(w, f)
    requires f in lag && LogSays(w, f) ==> TableSays(w, f)
    ensures LogSays(w, f) <==> TableSays(w, f)
  {
    assert !ToBeLogged(w, f) && !ToBeMarked(w, f);
  }

  lemma {:induction false} AgreedRowMatches(w: World, lag: set<Flip>, id: string)
    requires id in w.rows && RowOk(w.rows[id]) && SameMembers(w, id) && AgreeExcept(w, lag) && w.ops == map[]
    requires forall f :: f in lag && f.batch == id && IsMember(w, f) && LogSays(w, f) ==> TableSays(w, f)
    ensures Matches(w.rows[id], AggregateOf(w, id))
  {
    var row, agg := w.rows[id], AggregateOf(w, id);
    forall a | a in row.members ensures row.members[a] == agg.members[a] {
      AgreedMember(w, lag, Flip(id, a));
    }
    assert row.members == agg.members;
    HealthyRowMatches(row, agg);
  }

  ghost predicate SmoothRun(run: seq<Action>) {
    forall i :: 0 <= i < |run| ==> Smooth(run[i])
  }

  lemma {:induction false} SmoothRunsHaveNoVictims(run: seq<Action>)
    requires RunsFrom(NOBODY, run) && SmoothRun(run)
    ensures HealableRun(run) && AllVictims(run) == {}
    decreases |run|
  {
    if run == [] {
    } else {
      assert run[|run| - 1] == run[|run| - 1] && Smooth(run[|run| - 1]);
      SmoothRunsHaveNoVictims(run[..|run| - 1]);
    }
  }

  /** At every quiet point of a failure-free run of interleaved Starts,
      CompleteArtists, Reconciles and prunes, each surviving row is the fold of
      its stream, and replaying the stream into the table changes nothing. */
  lemma {:induction false} QuietTablesAreTheFold(run: seq<Action>, id: string)
    requires RunsFrom(NOBODY, run) && SmoothRun(run)
    requires After(NOBODY, run).ops == map[] && id in After(NOBODY, run).rows
    ensures var w := After(NOBODY, run);
            Matches(w.rows[id], AggregateOf(w, id)) && ProjectAggregate(w.rows, id, AggregateOf(w, id)) == w.rows
  {
    SmoothRunsHaveNoVictims(run);
    RunAgrees(run);
    RunKeepsInv(run);
    AgreedRowMatches(After(NOBODY, run), {}, id);
    ProjectingAMatchChangesNothing(After(NOBODY, run).rows, id, AggregateOf(After(NOBODY, run), id));
  }
}
