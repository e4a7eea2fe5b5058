/** What stays true of a member and of a stream while a run goes on. */
module BatchOutcomes {
  import opened BatchAggregate
  import opened BatchTables
  import opened BatchWorld
  import opened BatchSafety
  import opened BatchConvergence
  import opened BatchRecovery

  lemma {:induction false} RunSplits(w: World, run: seq<Action>, longer: seq<Action>)
    requires RunsFrom(w, longer) && run <= longer
    ensures RunsFrom(w, run) && RunsFrom(After(w, run), longer[|run|..])
    ensures After(After(w, run), longer[|run|..]) == After(w, longer)
    decreases |longer|
  {
    if run == longer {
      assert longer[|run|..] == [];
    } else {
      RunSplits(w, run, longer[..|longer| - 1]);
      var rest := longer[|run|..];
      assert rest[..|rest| - 1] == longer[..|longer| - 1][|run|..] && rest[|rest| - 1] == longer[|longer| - 1];
    }
  }

  /** The artist belongs to the batch, whose row may have been pruned. */
  ghost predicate MemberOrGone(w: World, f: Flip) {
    if f.batch in w.rows then f.artist in w.rows[f.batch].members else f.batch in w.pruned
  }

  /** The member is done in the table, unless the row was pruned. */
  ghost predicate DoneOrGone(w: World, f: Flip) {
    if f.batch in w.rows then TableSays(w, f) else f.batch in w.pruned
  }

  lemma {:induction false} PruneKeepsMember(w: World, expired: set<string>, f: Flip)
    ensures var w' := w.(rows := Prune(w.rows, expired), pruned := w.pruned + Deleted(w.rows, expired));
            (MemberOrGone(w, f) ==> MemberOrGone(w', f)) && (DoneOrGone(w, f) ==> DoneOrGone(w', f))
  {
  }

  lemma {:induction false} InsertKeepsMember(w: World, id: string, artists: seq<string>, stats: map<string, int>,
      f: Flip)
    requires id !in w.rows ==> id !in w.pruned
    ensures var w' := w.(rows := Insert(w.rows, id, artists, stats));
            (MemberOrGone(w, f) ==> MemberOrGone(w', f)) && (DoneOrGone(w, f) ==> DoneOrGone(w', f))
  {
  }

  lemma {:induction false} MarkKeepsMember(w: World, batch: string, artist: string, f: Flip)
    ensures var w' := w.(rows := MarkMember(w.rows, batch, artist));
            (MemberOrGone(w, f) ==> MemberOrGone(w', f)) && (DoneOrGone(w, f) ==> DoneOrGone(w', f))
  {
  }

  lemma {:induction false} FlipsKeepMember(w: World, flips: set<Flip>, f: Flip)
    ensures var w' := w.(rows := ApplyFlips(w.rows, flips));
            (MemberOrGone(w, f) ==> MemberOrGone(w', f)) && (DoneOrGone(w, f) ==> DoneOrGone(w', f))
  {
  }

  /** The rows after a step: those there were, with the same members and more of
      them done, or pruned; and a batch that had no row and was not pruned. */
  lemma {:induction false} StepKeepsMember(w: World, a: Action, f: Flip)
    requires Inv(w) && Enabled(w, a)
    ensures MemberOrGone(w, f) ==> MemberOrGone(Step(w, a), f)
    ensures DoneOrGone(w, f) ==> DoneOrGone(Step(w, a), f)
  {
    match a
    case FinishStart(o, expired) =>
      assert OpOk(w, w.ops[o]);
      var op := w.ops[o];
      InsertKeepsMember(w, op.id, op.artists, op.stats, f);
      PruneKeepsMember(w.(rows := Insert(w.rows, op.id, op.artists, op.stats)), expired, f);
    case Restart(id, artists, stats, expired) =>
      InsertKeepsMember(w, id, artists, stats, f);
      PruneKeepsMember(w.(rows := Insert(w.rows, id, artists, stats)), expired, f);
    case MarkLogged(o) => MarkKeepsMember(w, w.ops[o].f.batch, w.ops[o].f.artist, f);
    case FlipSelected(o) => FlipsKeepMember(w, Flips(w.ops[o].flips), f);
    case PruneRows(expired) => PruneKeepsMember(w, expired, f);
    case _ =>
  }

  lemma {:induction false} RunKeepsMember(w: World, run: seq<Action>, f: Flip)
    requires Inv(w) && NoEmptyGroups(w) && Truthful(w) && RunsFrom(w, run)
    ensures MemberOrGone(w, f) ==> MemberOrGone(After(w, run), f)
    ensures DoneOrGone(w, f) ==> DoneOrGone(After(w, run), f)
    decreases |run|
  {
    if run == [] {
    } else {
      RunKeepsMember(w, run[..|run| - 1], f);
      RunsStayValid(w, run[..|run| - 1]);
      StepKeepsMember(After(w, run[..|run| - 1]), run[|run| - 1], f);
    }
  }

  /** The stream knows the artist. */
  ghost predicate Known(w: World, f: Flip) {
    f.artist in AggregateOf(w, f.batch).members
  }

  /** Once the log knows a member it always will, and so once it says that the
      member is done. */
  lemma {:induction false} RunKeepsSaying(w: World, run: seq<Action>, f: Flip)
    requires Inv(w) && NoEmptyGroups(w) && Truthful(w) && RunsFrom(w, run) && Known(w, f)
    ensures Known(After(w, run), f) && (LogSays(w, f) ==> LogSays(After(w, run), f))
  {
    RunsStayValid(w, run);
    StreamsOnlyGrow(w, run, f.batch);
    var log, longer := StreamOf(w, f.batch), StreamOf(After(w, run), f.batch);
    FoldVersion(UNBORN, log);
    assert log != [];
    assert f.batch in After(w, run).logs;
    assert longer[..|log|] == log;
    MembersOnlyFinish(UNBORN, longer, |log|, f.artist);
  }

  /** From one point of a store's life to a later one. */
  lemma {:induction false} LifeGoesOn(before: seq<Action>, after: seq<Action>, f: Flip)
    requires RunsFrom(NOBODY, after) && before <= after
    ensures RunsFrom(NOBODY, before)
    ensures MemberOrGone(After(NOBODY, before), f) ==> MemberOrGone(After(NOBODY, after), f)
    ensures DoneOrGone(After(NOBODY, before), f) ==> DoneOrGone(After(NOBODY, after), f)
    ensures Known(After(NOBODY, before), f) ==> Known(After(NOBODY, after), f)
    ensures LogSays(After(NOBODY, before), f) ==> LogSays(After(NOBODY, after), f)
    ensures StreamOf(After(NOBODY, before), f.batch) <= StreamOf(After(NOBODY, after), f.batch)
  {
    RunSplits(NOBODY, before, after);
    RunKeepsInv(before);
    var w, rest := After(NOBODY, before), after[|before|..];
    RunKeepsMember(w, rest, f);
    StreamsOnlyGrow(w, rest, f.batch);
    if Known(w, f) {
      RunKeepsSaying(w, rest, f);
    }
  }

  /** A member of a live batch, seen from its row. */
  lemma {:induction false} LiveMember(run: seq<Action>, f: Flip)
    requires RunsFrom(NOBODY, run) && IsMember(After(NOBODY, run), f)
    ensures Known(After(NOBODY, run), f) && MemberOrGone(After(NOBODY, run), f)
  {
    RunKeepsInv(run);
    MembersAreKnown(After(NOBODY, run));
  }

  /** An append that returned success completes the members it named. */
  lemma {:induction false} AppendIsSaid(w: World, g: Group, outcome: Outcome, f: Flip)
    requires !outcome.Broken? && f.batch == g.batch && f.artist in g.artists && Known(w, f)
    ensures LogSays(Append(w, g, outcome), f)
  {
    AppendSays(w, g, outcome, f);
  }
}
