/** What holds of the batch projection in every reachable state, whatever
    interleaves, fails or crashes. */
module BatchSafety {
  import opened BatchAggregate
  import opened BatchTables
  import opened BatchWorld

  // -------------------------------------------------- effects of one append

  lemma {:induction false} LaterFactsOnlyFinish(b: Batch, facts: seq<Fact>)
    requires NoBirth(facts)
    ensures var b' := FoldFrom(b, facts);
            && b'.members.Keys == b.members.Keys && b'.stats == b.stats
            && forall a :: a in b.members && b.members[a] ==> b'.members[a]
  {
    if facts == [] {
    } else {
      LaterFactsOnlyFinish(b, facts[..|facts| - 1]);
    }
  }

  lemma {:induction false} CompletionsHaveNoBirth(b: Batch, artists: seq<string>)
    ensures NoBirth(Completions(b, artists))
  {
    if artists == [] {
    } else {
      CompletionsHaveNoBirth(b, artists[..|artists| - 1]);
    }
  }

  lemma {:induction false} RecordedHasNoBirth(b: Batch, artists: seq<string>)
    ensures NoBirth(Recorded(b, artists))
  {
    CompletionsHaveNoBirth(b, artists);
  }

  /** Whatever an append came to, a prefix of the command's facts was stored. */
  lemma {:induction false} StoredIsPrefix(b: Batch, artists: seq<string>, outcome: Outcome)
    ensures Stored(b, artists, outcome) <= Recorded(b, artists)
  {
  }

  lemma {:induction false} PrefixHasNoBirth(facts: seq<Fact>, all: seq<Fact>)
    requires facts <= all && NoBirth(all)
    ensures NoBirth(facts)
  {
    assert forall i :: 0 <= i < |facts| ==> facts[i] == all[i];
  }

  lemma {:induction false} StoredOnlyFinishes(b: Batch, artists: seq<string>, outcome: Outcome)
    ensures var b' := FoldFrom(b, Stored(b, artists, outcome));
            && b'.members.Keys == b.members.Keys && b'.stats == b.stats
            && forall a :: a in b.members && b.members[a] ==> b'.members[a]
    ensures NoBirth(Stored(b, artists, outcome))
  {
    RecordedHasNoBirth(b, artists);
    StoredIsPrefix(b, artists, outcome);
    PrefixHasNoBirth(Stored(b, artists, outcome), Recorded(b, artists));
    LaterFactsOnlyFinish(b, Stored(b, artists, outcome));
  }

  lemma {:induction false} AppendFolds(w: World, g: Group, outcome: Outcome)
    ensures var b := AggregateOf(w, g.batch);
            AggregateOf(Append(w, g, outcome), g.batch) == FoldFrom(b, Stored(b, g.artists, outcome))
    ensures forall id :: id != g.batch ==> AggregateOf(Append(w, g, outcome), id) == AggregateOf(w, id)
  {
    FoldJoins(UNBORN, StreamOf(w, g.batch), Stored(AggregateOf(w, g.batch), g.artists, outcome));
  }

  // ------------------------------------------------------------- framing

  /** Streams only grow, and keep their members. */
  ghost predicate LogsAdvance(w: World, w': World) {
    forall id :: id in w.logs ==>
      && id in w'.logs
      && AggregateOf(w', id).members.Keys == AggregateOf(w, id).members.Keys
      && AggregateOf(w', id).stats == AggregateOf(w, id).stats
  }

  /** Rows are changed in place or pruned: the members stay, and what is finished stays finished. */
  ghost predicate RowsAdvance(w: World, w': World) {
    && (forall id :: id in w.rows ==>
          (id in w'.rows && id !in w'.pruned) || (id !in w'.rows && id in w'.pruned) || id in w.pruned)
    && (forall id :: id in w.pruned ==> id in w'.pruned)
    && (forall id :: id in w'.pruned ==> id in w.pruned || id in w.rows)
    && (forall id :: id in w'.rows ==> id in w.rows && RowAdvances(w.rows[id], w'.rows[id]))
  }

  ghost predicate RowAdvances(row: Row, row': Row) {
    && row'.members.Keys == row.members.Keys && row'.stats == row.stats && row'.total == row.total
    && (row.done ==> row'.done)
    && forall a :: a in row.members && row.members[a] ==> row'.members[a]
  }

  lemma {:induction false} OpFrame(w: World, w': World, op: Op)
    requires OpOk(w, op) && LogsAdvance(w, w') && RowsAdvance(w, w')
    ensures OpOk(w', op)
  {
    if op.Owing? {
      forall f | Owes(op.todo, f) && f.batch in w'.rows && f.artist in w'.rows[f.batch].members
        ensures w'.rows[f.batch].members[f.artist]
      {
        assert RowAdvances(w.rows[f.batch], w'.rows[f.batch]);
      }
    }
    assert forall f :: Holds(op, f) ==> f.batch in w.logs && (f.batch in w.rows || f.batch in w.pruned);
  }

  lemma {:induction false} RowFrame(w: World, w': World, id: string)
    requires id in w.rows && SameMembers(w, id) && LogsAdvance(w, w') && RowsAdvance(w, w') && id in w'.rows
    ensures SameMembers(w', id)
  {
    assert RowAdvances(w.rows[id], w'.rows[id]);
  }

  /** An advance that drops or keeps operations keeps the invariant. */
  lemma {:induction false} Frame(w: World, w': World)
    requires Inv(w) && LogsAdvance(w, w') && RowsAdvance(w, w')
    requires RowsOk(w'.rows) && Unprojected(w') && forall id :: id in w'.logs ==> Begun(w'.logs[id])
    requires forall o :: o in w'.ops ==> o in w.ops && w'.ops[o] == w.ops[o]
    ensures Inv(w')
  {
    forall o | o in w'.ops ensures OpOk(w', w'.ops[o]) {
      OpFrame(w, w', w.ops[o]);
    }
    forall id | id in w'.rows ensures SameMembers(w', id) {
      RowFrame(w, w', id);
    }
  }

  lemma {:induction false} SameRowsAdvance(w: World, w': World)
    requires w'.rows == w.rows && w'.pruned == w.pruned && forall id :: id in w.rows ==> id !in w.pruned
    ensures RowsAdvance(w, w')
  {
  }

  lemma {:induction false} RowsNotPruned(w: World)
    requires Inv(w)
    ensures forall id :: id in w.rows ==> id !in w.pruned
  {
    forall id | id in w.rows ensures id !in w.pruned {
      assert SameMembers(w, id);
    }
  }

  lemma {:induction false} BegunGrows(log: seq<Fact>, more: seq<Fact>)
    requires Begun(log) && NoBirth(more)
    ensures Begun(log + more)
  {
    assert (log + more)[1..] == log[1..] + more;
  }

  lemma {:induction false} OneStreamAdvances(w: World, id: string, log: seq<Fact>)
    requires id in w.logs ==>
               Fold(log).members.Keys == AggregateOf(w, id).members.Keys && Fold(log).stats == AggregateOf(w, id).stats
    ensures LogsAdvance(w, w.(logs := w.logs[id := log]))
  {
    var w' := w.(logs := w.logs[id := log]);
    assert forall x :: x in w.logs && x != id ==> AggregateOf(w', x) == AggregateOf(w, x);
  }

  lemma {:induction false} OneStreamUnprojected(w: World, id: string, log: seq<Fact>)
    requires Unprojected(w) && (id !in w.rows && id !in w.pruned ==> !AnyoneDone(Fold(log)))
    ensures Unprojected(w.(logs := w.logs[id := log]))
  {
    var w' := w.(logs := w.logs[id := log]);
    assert forall x :: x in w.logs && x != id ==> AggregateOf(w', x) == AggregateOf(w, x);
  }

  /** One stream takes another value with the same members; nobody in it has
      finished unless the batch has or had a row. */
  lemma {:induction false} StreamKeeps(w: World, id: string, log: seq<Fact>)
    requires Inv(w) && Begun(log)
    requires id in w.logs ==>
               Fold(log).members.Keys == AggregateOf(w, id).members.Keys && Fold(log).stats == AggregateOf(w, id).stats
    requires id !in w.rows && id !in w.pruned ==> !AnyoneDone(Fold(log))
    ensures Inv(w.(logs := w.logs[id := log]))
  {
    var w' := w.(logs := w.logs[id := log]);
    OneStreamAdvances(w, id, log);
    OneStreamUnprojected(w, id, log);
    RowsNotPruned(w);
    SameRowsAdvance(w, w');
    Frame(w, w');
  }

  lemma {:induction false} AppendKeeps(w: World, g: Group, outcome: Outcome)
    requires Inv(w) && g.batch in w.logs && (g.batch in w.rows || g.batch in w.pruned)
    ensures Inv(Append(w, g, outcome))
  {
    var more := Stored(AggregateOf(w, g.batch), g.artists, outcome);
    StoredOnlyFinishes(AggregateOf(w, g.batch), g.artists, outcome);
    BegunGrows(w.logs[g.batch], more);
    FoldJoins(UNBORN, w.logs[g.batch], more);
    StreamKeeps(w, g.batch, w.logs[g.batch] + more);
  }

  // --------------------------------------------------------- effects on rows

  lemma {:induction false} DropOp(w: World, o: nat)
    requires Inv(w)
    ensures Inv(w.(ops := w.ops - {o}))
  {
    RowsNotPruned(w);
    SameRowsAdvance(w, w.(ops := w.ops - {o}));
    Frame(w, w.(ops := w.ops - {o}));
  }

  /** What is under way is no concern of the tables. */
  lemma {:induction false} FlightsKeep(w: World, flights: set<Flight>)
    requires Inv(w)
    ensures Inv(w.(flights := flights))
  {
    RowsNotPruned(w);
    SameRowsAdvance(w, w.(flights := flights));
    Frame(w, w.(flights := flights));
  }

  lemma {:induction false} SameTablesOk(w: World, w': World)
    requires TablesOk(w) && w'.logs == w.logs && w'.rows == w.rows && w'.pruned == w.pruned
    ensures TablesOk(w')
  {
    forall id | id in w'.rows ensures SameMembers(w', id) {
      assert SameMembers(w, id);
    }
    assert forall id :: AggregateOf(w', id) == AggregateOf(w, id);
  }

  lemma {:induction false} PutOpOk(w: World, o: nat, op: Op)
    requires OpsOk(w) && OpOk(w, op)
    requires op.Starting? ==> forall p :: p in w.ops && p != o && w.ops[p].Starting? ==> w.ops[p].id != op.id
    ensures OpsOk(w.(ops := w.ops[o := op]))
  {
    var w' := w.(ops := w.ops[o := op]);
    forall p | p in w'.ops ensures OpOk(w', w'.ops[p]) {
      OpFrameSame(w, w', w'.ops[p]);
    }
  }

  lemma {:induction false} OpFrameSame(w: World, w': World, op: Op)
    requires OpOk(w, op) && w'.logs == w.logs && w'.rows == w.rows && w'.pruned == w.pruned
    ensures OpOk(w', op)
  {
  }

  lemma {:induction false} PutOp(w: World, o: nat, op: Op)
    requires Inv(w) && OpOk(w, op)
    requires op.Starting? ==> forall p :: p in w.ops && p != o && w.ops[p].Starting? ==> w.ops[p].id != op.id
    ensures Inv(w.(ops := w.ops[o := op]))
  {
    SameTablesOk(w, w.(ops := w.ops[o := op]));
    PutOpOk(w, o, op);
  }

  lemma {:induction false} RowsAdvanceInPlace(w: World, rows': Rows)
    requires forall id :: id in w.rows ==> id !in w.pruned
    requires rows'.Keys == w.rows.Keys && forall id :: id in w.rows ==> RowAdvances(w.rows[id], rows'[id])
    ensures RowsAdvance(w, w.(rows := rows'))
  {
  }

  lemma {:induction false} MarkAdvances(w: World, batch: string, artist: string)
    requires forall id :: id in w.rows ==> id !in w.pruned
    ensures RowsAdvance(w, w.(rows := MarkMember(w.rows, batch, artist)))
  {
    var rows' := MarkMember(w.rows, batch, artist);
    forall id | id in w.rows ensures RowAdvances(w.rows[id], rows'[id]) {}
    RowsAdvanceInPlace(w, rows');
  }

  lemma {:induction false} FlipsAdvance(w: World, flips: set<Flip>)
    requires forall id :: id in w.rows ==> id !in w.pruned
    ensures RowsAdvance(w, w.(rows := ApplyFlips(w.rows, flips)))
  {
    var rows' := ApplyFlips(w.rows, flips);
    forall id | id in w.rows ensures RowAdvances(w.rows[id], rows'[id]) {}
    RowsAdvanceInPlace(w, rows');
  }

  lemma {:induction false} PruneAdvances(w: World, expired: set<string>)
    requires Inv(w)
    ensures RowsAdvance(w, w.(rows := Prune(w.rows, expired), pruned := w.pruned + Deleted(w.rows, expired)))
  {
    RowsNotPruned(w);
  }

  lemma {:induction false} RowsChangeKeeps(w: World, w': World)
    requires Inv(w) && RowsAdvance(w, w') && RowsOk(w'.rows) && w'.logs == w.logs && w'.ops == w.ops
    ensures Inv(w')
  {
    Frame(w, w');
  }

  lemma {:induction false} PruneKeeps(w: World, expired: set<string>)
    requires Inv(w)
    ensures Inv(w.(rows := Prune(w.rows, expired), pruned := w.pruned + Deleted(w.rows, expired)))
  {
    PruneAdvances(w, expired);
    RowsChangeKeeps(w, w.(rows := Prune(w.rows, expired), pruned := w.pruned + Deleted(w.rows, expired)));
  }

  // --------------------------------------------------------------- grouping

  lemma {:induction false} AddFlipOwes(groups: seq<Group>, f: Flip, g: Flip)
    ensures Owes(AddFlip(groups, f), g) <==> Owes(groups, g) || f == g
  {
    var after := AddFlip(groups, f);
    if groups == [] {
      assert after[0] == Group(f.batch, [f.artist]);
    } else if groups[0].batch == f.batch {
      OwesSplits(groups, g);
      OwesSplits(after, g);
      assert after[1..] == groups[1..];
    } else {
      AddFlipOwes(groups[1..], f, g);
      OwesSplits(groups, g);
      OwesSplits(after, g);
      assert after[1..] == AddFlip(groups[1..], f);
    }
  }

  lemma {:induction false} OwesSplits(todo: seq<Group>, f: Flip)
    requires todo != []
    ensures Owes(todo, f) <==> (todo[0].batch == f.batch && f.artist in todo[0].artists) || Owes(todo[1..], f)
  {
    if i :| 0 <= i < |todo| && todo[i].batch == f.batch && f.artist in todo[i].artists {
      if i > 0 {
        assert todo[1..][i - 1] == todo[i];
      }
    }
    if i :| 0 <= i < |todo[1..]| && todo[1..][i].batch == f.batch && f.artist in todo[1..][i].artists {
      assert todo[i + 1] == todo[1..][i];
    }
  }

  lemma {:induction false} GroupedSomething(flips: seq<Flip>)
    requires flips != []
    ensures Grouped(flips) != []
  {
  }

  /** Grouping per batch neither loses nor invents a member. */
  lemma {:induction false} GroupedOwes(flips: seq<Flip>, f: Flip)
    ensures Owes(Grouped(flips), f) <==> f in flips
  {
    if flips == [] {
    } else {
      GroupedOwes(flips[..|flips| - 1], f);
      AddFlipOwes(Grouped(flips[..|flips| - 1]), flips[|flips| - 1], f);
      assert flips == flips[..|flips| - 1] + [flips[|flips| - 1]];
    }
  }

  // --------------------------------------------------------------- each step

  lemma {:induction false} BirthPrefix(artists: seq<string>, stats: map<string, int>, k: nat)
    requires 0 < k <= |Birth(artists, stats)|
    ensures var b := Fold(Birth(artists, stats)[..k]);
            b.members == (map a | a in Unique(artists) :: false) && b.stats == stats
    ensures Begun(Birth(artists, stats)[..k])
  {
    BirthIsLegal(artists, stats);
    var birth := Birth(artists, stats);
    if k == |birth| {
      assert birth[..k] == birth;
    } else {
      assert birth[..k] == [Started(Unique(artists), stats)];
      assert [Started(Unique(artists), stats)][..0] == [];
    }
  }

  lemma {:induction false} BegunStream(log: seq<Fact>, artists: seq<string>, stats: map<string, int>)
    requires Begun(log) && log[0] == Started(Unique(artists), stats)
    ensures Fold(log).members.Keys == Names(Unique(artists)) && Fold(log).stats == stats
  {
    var head := [log[0]];
    assert head[..0] == [] && log == head + log[1..];
    FoldJoins(UNBORN, head, log[1..]);
    LaterFactsOnlyFinish(Fold(head), log[1..]);
  }

  lemma {:induction false} NewStreamKeeps(w: World, id: string, artists: seq<string>, stats: map<string, int>, k: nat)
    requires Inv(w) && id !in w.logs && 0 < k <= |Birth(artists, stats)|
    ensures Inv(w.(logs := w.logs[id := Birth(artists, stats)[..k]]))
  {
    BirthPrefix(artists, stats, k);
    StreamKeeps(w, id, Birth(artists, stats)[..k]);
  }

  lemma {:induction false} StartingKeeps(w: World, o: nat, id: string, artists: seq<string>, stats: map<string, int>)
    requires Inv(w) && o !in w.ops && Distinct(artists) && "" !in artists
    requires id in w.logs && id !in w.rows && id !in w.pruned
    requires forall p :: p in w.ops && w.ops[p].Starting? ==> w.ops[p].id != id
    requires w.logs[id][0] == Started(Unique(artists), stats)
    ensures Inv(w.(ops := w.ops[o := Starting(id, artists, stats)]))
  {
    assert Names(Unique(artists)) == Names(artists);
    BegunStream(w.logs[id], artists, stats);
    PutOp(w, o, Starting(id, artists, stats));
  }

  lemma {:induction false} BornIsPrefix(artists: seq<string>, stats: map<string, int>, outcome: Outcome)
    ensures var birth := Birth(artists, stats);
            && birth != [] && birth[0] == Started(Unique(artists), stats)
            && Born(birth, outcome) == birth[..|Born(birth, outcome)|]
            && (!outcome.Broken? ==> Born(birth, outcome) != [])
  {
    assert Birth(artists, stats)[..|Birth(artists, stats)|] == Birth(artists, stats);
  }

  lemma {:induction false} NewStartKeeps(w: World, a: Action)
    requires Inv(w) && a.BeginStart? && Enabled(w, a) && a.id !in w.logs
    ensures Inv(Step(w, a))
  {
    var birth := Birth(a.artists, a.stats);
    BornIsPrefix(a.artists, a.stats, a.outcome);
    var born := Born(birth, a.outcome);
    var w1 := w;
    if born != [] {
      NewStreamKeeps(w, a.id, a.artists, a.stats, |born|);
      w1 := w.(logs := w.logs[a.id := born]);
    }
    var w2 := w1;
    if !a.outcome.Broken? {
      StartingKeeps(w1, a.o, a.id, a.artists, a.stats);
      w2 := w1.(ops := w1.ops[a.o := Starting(a.id, a.artists, a.stats)]);
    }
    FlightsKeep(w2, w.flights + Late(a.id, 0, |born|, birth, a.late));
  }

  lemma {:induction false} BeginStartKeeps(w: World, a: Action)
    requires Inv(w) && a.BeginStart? && Enabled(w, a)
    ensures Inv(Step(w, a))
  {
    if a.id in w.logs {
      StartingKeeps(w, a.o, a.id, a.artists, a.stats);
    } else {
      NewStartKeeps(w, a);
    }
  }

  lemma {:induction false} OtherOpFrame(w: World, w': World, op: Op, id: string)
    requires OpOk(w, op) && id !in w.rows && id !in w.pruned && (op.Starting? ==> op.id != id)
    requires w'.logs == w.logs && w'.pruned == w.pruned && id in w'.rows && w'.rows == w.rows[id := w'.rows[id]]
    ensures OpOk(w', op)
  {
    assert forall f :: Holds(op, f) ==> f.batch in w.logs && (f.batch in w.rows || f.batch in w.pruned);
    if op.Owing? {
      assert forall f :: Owes(op.todo, f) ==> Holds(op, f);
    }
  }

  lemma {:induction false} InsertTablesOk(w: World, o: nat)
    requires TablesOk(w) && o in w.ops && w.ops[o].Starting? && OpOk(w, w.ops[o])
    ensures var op := w.ops[o]; TablesOk(w.(rows := Insert(w.rows, op.id, op.artists, op.stats), ops := w.ops - {o}))
  {
    var op := w.ops[o];
    var w' := w.(rows := Insert(w.rows, op.id, op.artists, op.stats), ops := w.ops - {o});
    BornHealthy(w.rows, op.id, op.artists, op.stats);
    InsertedSameMembers(w, o);
    assert forall id :: AggregateOf(w', id) == AggregateOf(w, id);
  }

  lemma {:induction false} InsertedSameMembers(w: World, o: nat)
    requires TablesOk(w) && o in w.ops && w.ops[o].Starting? && OpOk(w, w.ops[o])
    ensures var op := w.ops[o];
            var w' := w.(rows := Insert(w.rows, op.id, op.artists, op.stats), ops := w.ops - {o});
            forall id :: id in w'.rows ==> SameMembers(w', id)
  {
    var op := w.ops[o];
    var w' := w.(rows := Insert(w.rows, op.id, op.artists, op.stats), ops := w.ops - {o});
    assert w'.rows[op.id].members.Keys == Names(op.artists);
    forall id | id in w'.rows ensures SameMembers(w', id) {
      if id != op.id {
        assert SameMembers(w, id);
      }
    }
  }

  lemma {:induction false} InsertKeeps(w: World, o: nat)
    requires Inv(w) && o in w.ops && w.ops[o].Starting?
    ensures var op := w.ops[o]; Inv(w.(rows := Insert(w.rows, op.id, op.artists, op.stats), ops := w.ops - {o}))
  {
    var op := w.ops[o];
    assert OpOk(w, op);
    InsertTablesOk(w, o);
    var w' := w.(rows := Insert(w.rows, op.id, op.artists, op.stats), ops := w.ops - {o});
    forall p | p in w'.ops ensures OpOk(w', w'.ops[p]) {
      assert OpOk(w, w.ops[p]);
      OtherOpFrame(w, w', w.ops[p], op.id);
    }
  }

  lemma {:induction false} FinishStartKeeps(w: World, o: nat, expired: set<string>)
    requires Inv(w) && Enabled(w, FinishStart(o, expired))
    ensures Inv(Step(w, FinishStart(o, expired)))
  {
    var op := w.ops[o];
    InsertKeeps(w, o);
    PruneKeeps(w.(rows := Insert(w.rows, op.id, op.artists, op.stats), ops := w.ops - {o}), expired);
  }

  lemma {:induction false} LogFoundKeeps(w: World, o: nat, outcome: Outcome, late: bool)
    requires Inv(w) && Enabled(w, LogFound(o, outcome, late))
    ensures Inv(Step(w, LogFound(o, outcome, late)))
  {
    var f := w.ops[o].f;
    assert OpOk(w, w.ops[o]) && Holds(w.ops[o], f);
    var g := Group(f.batch, [f.artist]);
    AppendKeeps(w, g, outcome);
    var w1 := Append(w, g, outcome);
    if outcome.Broken? {
      DropOp(w1, o);
      FlightsKeep(w1.(ops := w1.ops - {o}), w.flights + LateAppend(w, g, outcome, late));
    } else {
      PutOp(w1, o, Logged(f));
      FlightsKeep(w1.(ops := w1.ops[o := Logged(f)]), w.flights + LateAppend(w, g, outcome, late));
    }
  }

  lemma {:induction false} RestOwes(w: World, todo: seq<Group>)
    requires todo != [] && OpOk(w, Owing(todo))
    ensures OpOk(w, Owing(todo[1..]))
  {
    forall g | Owes(todo[1..], g) ensures Owes(todo, g) && Holds(Owing(todo), g) {
      OwesSplits(todo, g);
    }
  }

  lemma {:induction false} LogGroupKeeps(w: World, o: nat, outcome: Outcome, late: bool)
    requires Inv(w) && Enabled(w, LogGroup(o, outcome, late)) && w.ops[o].todo[0].artists != []
    ensures Inv(Step(w, LogGroup(o, outcome, late)))
  {
    var todo := w.ops[o].todo;
    assert OpOk(w, w.ops[o]);
    assert Holds(w.ops[o], Flip(todo[0].batch, todo[0].artists[0]));
    AppendKeeps(w, todo[0], outcome);
    var w1 := Append(w, todo[0], outcome);
    var flights := w.flights + LateAppend(w, todo[0], outcome, late);
    if outcome.Broken? || |todo| == 1 {
      DropOp(w1, o);
      FlightsKeep(w1.(ops := w1.ops - {o}), flights);
    } else {
      assert OpOk(w1, w1.ops[o]);
      RestOwes(w1, todo);
      PutOp(w1, o, Owing(todo[1..]));
      FlightsKeep(w1.(ops := w1.ops[o := Owing(todo[1..])]), flights);
    }
  }

  /** What was selected is done in the tables after the write, so it may be owed. */
  lemma {:induction false} SelectedMayBeOwed(w: World, w': World, flips: seq<Flip>)
    requires OpOk(w, Selected(flips)) && w' == w.(rows := ApplyFlips(w.rows, Flips(flips)))
    ensures OpOk(w', Owing(Grouped(flips)))
  {
    forall f | Owes(Grouped(flips), f)
      ensures f.batch in w.logs && (f.batch in w.rows || f.batch in w.pruned)
      ensures f.batch in w'.rows && f.artist in w'.rows[f.batch].members ==> w'.rows[f.batch].members[f.artist]
    {
      GroupedOwes(flips, f);
      assert Holds(Selected(flips), f);
      assert Flip(f.batch, f.artist) == f;
    }
  }

  lemma {:induction false} FlipSelectedKeeps(w: World, o: nat)
    requires Inv(w) && Enabled(w, FlipSelected(o))
    ensures Inv(Step(w, FlipSelected(o)))
  {
    var flips := w.ops[o].flips;
    var rows' := ApplyFlips(w.rows, Flips(flips));
    assert OpOk(w, w.ops[o]);
    FlipsKeepOk(w.rows, Flips(flips));
    RowsNotPruned(w);
    FlipsAdvance(w, Flips(flips));
    var w1 := w.(rows := rows');
    RowsChangeKeeps(w, w1);
    SelectedMayBeOwed(w, w1, flips);
    PutOp(w1, o, Owing(Grouped(flips)));
  }

  lemma {:induction false} SelectKeeps(w: World, o: nat, flips: seq<Flip>)
    requires Inv(w) && Enabled(w, Select(o, flips))
    ensures Inv(Step(w, Select(o, flips)))
  {
    assert OpOk(w, Selected(flips)) by {
      forall f | f in flips ensures f.batch in w.rows && f.batch in w.logs {
        assert Selectable(w.rows, w.pending, f);
        assert SameMembers(w, f.batch);
      }
    }
    PutOp(w, o, Selected(flips));
  }

  lemma {:induction false} FindKeeps(w: World, o: nat, f: Flip)
    requires Inv(w) && Enabled(w, Find(o, f))
    ensures Inv(Step(w, Find(o, f)))
  {
    assert SameMembers(w, f.batch);
    PutOp(w, o, Found(f));
  }

  lemma {:induction false} MarkLoggedKeeps(w: World, o: nat)
    requires Inv(w) && Enabled(w, MarkLogged(o))
    ensures Inv(Step(w, MarkLogged(o)))
  {
    var f := w.ops[o].f;
    MarkKeepsOk(w.rows, f.batch, f.artist);
    RowsNotPruned(w);
    MarkAdvances(w, f.batch, f.artist);
    RowsChangeKeeps(w, w.(rows := MarkMember(w.rows, f.batch, f.artist)));
    DropOp(w.(rows := MarkMember(w.rows, f.batch, f.artist)), o);
  }

  ghost predicate NoEmptyGroups(w: World) {
    forall o, i :: o in w.ops && w.ops[o].Owing? && 0 <= i < |w.ops[o].todo| ==> w.ops[o].todo[i].artists != []
  }

  lemma {:induction false} GroupedNotEmpty(groups: seq<Group>, f: Flip)
    requires forall i :: 0 <= i < |groups| ==> groups[i].artists != []
    ensures forall i :: 0 <= i < |AddFlip(groups, f)| ==> AddFlip(groups, f)[i].artists != []
  {
    if groups == [] || groups[0].batch == f.batch {
    } else {
      GroupedNotEmpty(groups[1..], f);
    }
  }

  lemma {:induction false} GroupsNotEmpty(flips: seq<Flip>)
    ensures forall i :: 0 <= i < |Grouped(flips)| ==> Grouped(flips)[i].artists != []
  {
    if flips == [] {
    } else {
      GroupsNotEmpty(flips[..|flips| - 1]);
      GroupedNotEmpty(Grouped(flips[..|flips| - 1]), flips[|flips| - 1]);
    }
  }

  lemma {:induction false} StepKeepsGroups(w: World, a: Action)
    requires NoEmptyGroups(w) && Enabled(w, a)
    ensures NoEmptyGroups(Step(w, a))
  {
    if a.FlipSelected? {
      GroupsNotEmpty(w.ops[a.o].flips);
    }
  }

  // ----------------------------------------------------------- late landing

  lemma {:induction false} OneFactOnlyFinishes(log: seq<Fact>, fact: Fact)
    requires !fact.Started?
    ensures var b, b' := Fold(log), Fold(log + [fact]);
            && b'.members.Keys == b.members.Keys && b'.stats == b.stats
            && (forall a :: a in b.members && b.members[a] ==> b'.members[a])
            && (!fact.ArtistCompleted? ==> b'.members == b.members)
  {
    FoldOnce(UNBORN, log, fact);
  }

  /** Only a stream without facts can be born. */
  lemma {:induction false} LegalBirth(log: seq<Fact>, fact: Fact)
    requires Legal(Fold(log), fact)
    ensures fact.Started? <==> log == []
  {
    FoldVersion(UNBORN, log);
  }

  lemma {:induction false} BornByOneFact(fact: Fact)
    requires fact.Started?
    ensures Begun([fact]) && !AnyoneDone(Fold([fact]))
  {
    FoldOnce(UNBORN, [], fact);
    assert [] + [fact] == [fact];
  }

  lemma {:induction false} LandedFactKeeps(w: World, flight: Flight)
    requires Inv(w) && !flight.fact.Started? && flight.batch in w.logs
    requires flight.fact.ArtistCompleted? ==> flight.batch in w.rows || flight.batch in w.pruned
    ensures Inv(w.(logs := w.logs[flight.batch := w.logs[flight.batch] + [flight.fact]]))
  {
    OneFactOnlyFinishes(w.logs[flight.batch], flight.fact);
    BegunGrows(w.logs[flight.batch], [flight.fact]);
    StreamKeeps(w, flight.batch, w.logs[flight.batch] + [flight.fact]);
  }

  lemma {:induction false} LandKeeps(w: World, flight: Flight)
    requires Inv(w) && FlightOk(w, flight)
    ensures Inv(Landed(w, flight))
  {
    var log := StreamOf(w, flight.batch);
    if flight.at == |log| {
      LegalBirth(log, flight.fact);
      if log == [] {
        assert flight.batch !in w.logs && [] + [flight.fact] == [flight.fact];
        BornByOneFact(flight.fact);
        StreamKeeps(w, flight.batch, [flight.fact]);
      } else {
        LandedFactKeeps(w, flight);
      }
    }
  }

  /** A restart of a live batch is no more than its prune. */
  lemma {:induction false} RestartIsPrune(w: World, a: Action)
    requires a.Restart? && Enabled(w, a)
    ensures Enabled(w, PruneRows(a.expired)) && Step(w, a) == Step(w, PruneRows(a.expired))
  {
    forall x | x in a.artists ensures x in w.rows[a.id].members {
      assert x in Names(a.artists);
    }
    RestartKeepsRow(w.rows, a.id, a.artists, a.stats);
  }

  /** Every step keeps the invariant, failures, crashes and late facts included. */
  lemma {:induction false} StepKeepsInv(w: World, a: Action)
    requires Inv(w) && NoEmptyGroups(w) && Enabled(w, a) && (a.Land? ==> FlightOk(w, a.flight))
    ensures Inv(Step(w, a))
  {
    match a
    case BeginStart(_, _, _, _, _, _) => BeginStartKeeps(w, a);
    case FinishStart(o, expired) => FinishStartKeeps(w, o, expired);
    case Restart(_, _, _, expired) =>
      RestartIsPrune(w, a);
      PruneKeeps(w, expired);
    case Find(o, f) => FindKeeps(w, o, f);
    case LogFound(o, outcome, late) => LogFoundKeeps(w, o, outcome, late);
    case MarkLogged(o) => MarkLoggedKeeps(w, o);
    case Select(o, flips) => SelectKeeps(w, o, flips);
    case FlipSelected(o) => FlipSelectedKeeps(w, o);
    case LogGroup(o, outcome, late) => LogGroupKeeps(w, o, outcome, late);
    case Land(flight) => LandKeeps(w, flight);
    case Crash(o) => DropOp(w, o);
    case PruneRows(expired) => PruneKeeps(w, expired);
    case SetPending(_, _) => PendingKeeps(w, Step(w, a).pending);
  }

  lemma {:induction false} PendingKeeps(w: World, pending: set<string>)
    requires Inv(w)
    ensures Inv(w.(pending := pending))
  {
    RowsNotPruned(w);
    SameRowsAdvance(w, w.(pending := pending));
    Frame(w, w.(pending := pending));
  }

  // ------------------------------------------------------------- true facts

  /** A batch with a row, or that had one, keeps that. */
  lemma {:induction false} RowsLeaveOnlyByPruning(w: World, a: Action, id: string)
    requires Enabled(w, a)
    ensures id in w.logs ==> id in Step(w, a).logs
    ensures id in w.pruned ==> id in Step(w, a).pruned
    ensures id in w.rows ==> id in Step(w, a).rows || id in Step(w, a).pruned
    ensures id in Step(w, a).rows && id !in w.rows ==> a.FinishStart? && id == w.ops[a.o].id
  {
    if a.Restart? {
      RestartIsPrune(w, a);
    }
  }

  lemma {:induction false} StoredIsLegal(b: Batch, artists: seq<string>, outcome: Outcome)
    ensures var stored, news := Stored(b, artists, outcome), Recorded(b, artists);
            && LegalFrom(b, stored) && stored <= news
            && (|stored| < |news| ==> Legal(FoldFrom(b, stored), news[|stored|]))
  {
    var stored, news := Stored(b, artists, outcome), Recorded(b, artists);
    RecordedIsLegal(b, artists);
    StoredIsPrefix(b, artists, outcome);
    assert stored == news[..|stored|];
    LegalPrefix(b, news, |stored|);
  }

  /** A flight over a stream that grew cannot land any more; over one that did
      not, nothing changed. */
  lemma {:induction false} OldFlight(w: World, w': World, flight: Flight)
    requires FlightOk(w, flight)
    requires StreamOf(w', flight.batch) == StreamOf(w, flight.batch)
             || |StreamOf(w', flight.batch)| > |StreamOf(w, flight.batch)|
    requires flight.batch in w.rows || flight.batch in w.pruned ==> flight.batch in w'.rows || flight.batch in w'.pruned
    ensures FlightOk(w', flight)
  {
  }

  lemma {:induction false} SameLogsKeepTruth(w: World, w': World)
    requires Truthful(w) && w'.logs == w.logs && w'.flights == w.flights
    requires forall id :: id in w.rows || id in w.pruned ==> id in w'.rows || id in w'.pruned
    ensures Truthful(w')
  {
    forall flight | flight in w'.flights ensures FlightOk(w', flight) {
      OldFlight(w, w', flight);
    }
  }

  /** One stream is extended by true facts, and the next fact may be under way. */
  lemma {:induction false} ExtensionKeepsTruth(w: World, w': World, id: string, more: seq<Fact>, late: set<Flight>)
    requires Truthful(w) && LegalFrom(AggregateOf(w, id), more)
    requires w'.logs == if more == [] then w.logs else w.logs[id := StreamOf(w, id) + more]
    requires w'.flights == w.flights + late && forall flight :: flight in late ==> FlightOk(w', flight)
    requires forall x :: x in w.rows || x in w.pruned ==> x in w'.rows || x in w'.pruned
    ensures Truthful(w')
  {
    if more != [] && id !in w.logs {
      assert LegalFrom(UNBORN, []);
    }
    if more != [] {
      assert StreamOf(w, id) == [] || LegalLog(StreamOf(w, id));
      LegalJoins(UNBORN, StreamOf(w, id), more);
    }
    forall flight | flight in w'.flights ensures FlightOk(w', flight) {
      if flight !in late {
        OldFlight(w, w', flight);
      }
    }
  }

  lemma {:induction false} LateAppendIsOk(w: World, w': World, g: Group, outcome: Outcome, late: bool)
    requires w'.logs == Append(w, g, outcome).logs && (g.batch in w'.rows || g.batch in w'.pruned)
    ensures forall flight :: flight in LateAppend(w, g, outcome, late) ==> FlightOk(w', flight)
  {
    AppendFolds(w, g, outcome);
    StoredIsLegal(AggregateOf(w, g.batch), g.artists, outcome);
    assert StreamOf(w', g.batch) == StreamOf(Append(w, g, outcome), g.batch);
  }

  /** The step of an operation that appends `g`. */
  lemma {:induction false} AppendKeepsTruth(w: World, w': World, g: Group, outcome: Outcome, late: bool)
    requires Truthful(w) && g.batch in w.logs && (g.batch in w.rows || g.batch in w.pruned)
    requires w'.logs == Append(w, g, outcome).logs && w'.flights == w.flights + LateAppend(w, g, outcome, late)
    requires w'.rows == w.rows && w'.pruned == w.pruned
    ensures Truthful(w')
  {
    var more := Stored(AggregateOf(w, g.batch), g.artists, outcome);
    StoredIsLegal(AggregateOf(w, g.batch), g.artists, outcome);
    LateAppendIsOk(w, w', g, outcome, late);
    assert StreamOf(w, g.batch) + [] == StreamOf(w, g.batch);
    assert w'.logs == if more == [] then w.logs else w.logs[g.batch := StreamOf(w, g.batch) + more];
    ExtensionKeepsTruth(w, w', g.batch, more, LateAppend(w, g, outcome, late));
  }

  lemma {:induction false} LateBirthIsOk(w: World, id: string, artists: seq<string>, stats: map<string, int>, k: nat,
      late: bool)
    requires k <= |Birth(artists, stats)| && StreamOf(w, id) == Birth(artists, stats)[..k]
    ensures LegalFrom(UNBORN, Birth(artists, stats)[..k])
    ensures forall flight :: flight in Late(id, 0, k, Birth(artists, stats), late) ==> FlightOk(w, flight)
  {
    BirthIsLegal(artists, stats);
    LegalPrefix(UNBORN, Birth(artists, stats), k);
    BirthHasNoCompletion(artists, stats);
  }

  lemma {:induction false} NewStreamKeepsTruth(w: World, a: Action)
    requires Truthful(w) && a.BeginStart? && Enabled(w, a) && a.id !in w.logs
    ensures Truthful(Step(w, a))
  {
    var born := Born(Birth(a.artists, a.stats), a.outcome);
    BornIsPrefix(a.artists, a.stats, a.outcome);
    assert [] + born == born;
    LateBirthIsOk(Step(w, a), a.id, a.artists, a.stats, |born|, a.late);
    ExtensionKeepsTruth(w, Step(w, a), a.id, born, Late(a.id, 0, |born|, Birth(a.artists, a.stats), a.late));
  }

  lemma {:induction false} BirthHasNoCompletion(artists: seq<string>, stats: map<string, int>)
    ensures forall i :: 0 <= i < |Birth(artists, stats)| ==> !Birth(artists, stats)[i].ArtistCompleted?
  {
  }

  lemma {:induction false} OneLegalFact(b: Batch, fact: Fact)
    requires Legal(b, fact)
    ensures LegalFrom(b, [fact])
  {
    assert [] + [fact] == [fact];
    LegalExtends(b, [], fact);
  }

  lemma {:induction false} LandKeepsTruth(w: World, flight: Flight)
    requires Truthful(w) && flight in w.flights
    ensures Truthful(Landed(w, flight))
  {
    if flight.at == |StreamOf(w, flight.batch)| {
      assert FlightOk(w, flight);
      OneLegalFact(AggregateOf(w, flight.batch), flight.fact);
      assert w.flights + {} == w.flights;
      ExtensionKeepsTruth(w, Landed(w, flight), flight.batch, [flight.fact], {});
    }
  }

  lemma {:induction false} HeldBatch(w: World, o: nat, f: Flip)
    requires Inv(w) && o in w.ops && Holds(w.ops[o], f)
    ensures f.batch in w.logs && (f.batch in w.rows || f.batch in w.pruned)
  {
    assert OpOk(w, w.ops[o]);
  }

  lemma {:induction false} LogFoundKeepsTruth(w: World, o: nat, outcome: Outcome, late: bool)
    requires Inv(w) && Truthful(w) && Enabled(w, LogFound(o, outcome, late))
    ensures Truthful(Step(w, LogFound(o, outcome, late)))
  {
    var f := w.ops[o].f;
    HeldBatch(w, o, f);
    AppendKeepsTruth(w, Step(w, LogFound(o, outcome, late)), Group(f.batch, [f.artist]), outcome, late);
  }

  lemma {:induction false} LogGroupKeepsTruth(w: World, o: nat, outcome: Outcome, late: bool)
    requires Inv(w) && NoEmptyGroups(w) && Truthful(w) && Enabled(w, LogGroup(o, outcome, late))
    ensures Truthful(Step(w, LogGroup(o, outcome, late)))
  {
    var g := w.ops[o].todo[0];
    HeldBatch(w, o, Flip(g.batch, g.artists[0]));
    AppendKeepsTruth(w, Step(w, LogGroup(o, outcome, late)), g, outcome, late);
  }

  lemma {:induction false} OtherStepsKeepTruth(w: World, a: Action)
    requires Truthful(w) && Enabled(w, a) && Step(w, a).logs == w.logs && Step(w, a).flights == w.flights
    ensures Truthful(Step(w, a))
  {
    forall id | id in w.rows || id in w.pruned ensures id in Step(w, a).rows || id in Step(w, a).pruned {
      RowsLeaveOnlyByPruning(w, a, id);
    }
    SameLogsKeepTruth(w, Step(w, a));
  }

  /** Every step keeps the streams true. */
  lemma {:induction false} StepKeepsTruth(w: World, a: Action)
    requires Inv(w) && NoEmptyGroups(w) && Truthful(w) && Enabled(w, a)
    ensures Truthful(Step(w, a))
  {
    match a
    case BeginStart(_, id, _, _, _, _) =>
      if id in w.logs {
        OtherStepsKeepTruth(w, a);
      } else {
        NewStreamKeepsTruth(w, a);
      }
    case LogFound(o, outcome, late) => LogFoundKeepsTruth(w, o, outcome, late);
    case LogGroup(o, outcome, late) => LogGroupKeepsTruth(w, o, outcome, late);
    case Land(flight) => LandKeepsTruth(w, flight);
    case _ => OtherStepsKeepTruth(w, a);
  }

  lemma {:induction false} LandableIsOk(w: World, a: Action)
    requires Truthful(w) && Enabled(w, a) && a.Land?
    ensures FlightOk(w, a.flight)
  {
  }

  /** The invariants hold in every reachable state. */
  lemma {:induction false} RunKeepsInv(run: seq<Action>)
    requires RunsFrom(NOBODY, run)
    ensures Inv(After(NOBODY, run)) && NoEmptyGroups(After(NOBODY, run)) && Truthful(After(NOBODY, run))
    decreases |run|
  {
    if run == [] {
    } else {
      var before, a := run[..|run| - 1], run[|run| - 1];
      RunKeepsInv(before);
      StepKeepsAll(After(NOBODY, before), a);
    }
  }

  lemma {:induction false} StepKeepsAll(w: World, a: Action)
    requires Inv(w) && NoEmptyGroups(w) && Truthful(w) && Enabled(w, a)
    ensures Inv(Step(w, a)) && NoEmptyGroups(Step(w, a)) && Truthful(Step(w, a))
  {
    if a.Land? {
      LandableIsOk(w, a);
    }
    StepKeepsInv(w, a);
    StepKeepsGroups(w, a);
    StepKeepsTruth(w, a);
  }

  lemma {:induction false} ExtendRun(w: World, run: seq<Action>, a: Action)
    requires RunsFrom(w, run) && Enabled(After(w, run), a)
    ensures RunsFrom(w, run + [a]) && After(w, run + [a]) == Step(After(w, run), a)
  {
    assert (run + [a])[..|run| + 1 - 1] == run;
  }
}
