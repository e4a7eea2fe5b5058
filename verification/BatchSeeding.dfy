/** Batches that are older than the log: the first command that touches one
    seeds its stream from its row, and logs its completions behind that. */
module BatchSeeding {
  import opened BatchAggregate
  import opened BatchTables

  /** The stream after some completion commands, each recorded on the whole stream. */
  function Continued(log: seq<Fact>, commands: seq<seq<string>>): seq<Fact> {
    if commands == [] then log
    else
      var earlier := Continued(log, commands[..|commands| - 1]);
      earlier + Recorded(Fold(earlier), commands[|commands| - 1])
  }

  function Named(commands: seq<seq<string>>): set<string> {
    if commands == [] then {} else Named(commands[..|commands| - 1]) + Names(commands[|commands| - 1])
  }

  /** What a stream knows that was born with `order` and completed the named. */
  function Known(order: seq<string>, named: set<string>): map<string, bool> {
    map a | a in Unique(order) :: a in named
  }

  /** The row after the same members were marked. */
  function Marked(row: Row, named: set<string>): Row {
    Recompute(row.(members := map a | a in row.members :: row.members[a] || a in named))
  }

  ghost predicate Lists(order: seq<string>, row: Row) {
    Distinct(order) && Names(order) == row.members.Keys
  }

  lemma {:induction false} KnowsMore(order: seq<string>, named: set<string>, artists: seq<string>)
    ensures WithDone(Known(order, named), artists) == Known(order, named + Names(artists))
  {
  }

  /** The log knows what was logged: of the members that are not blank, exactly
      the named ones are done, and it is closed when they all are. */
  lemma {:induction false} SeededStreamKnows(order: seq<string>, stats: map<string, int>, commands: seq<seq<string>>)
    ensures Knows(Fold(Continued(Birth(order, stats), commands)), order, stats, Named(commands))
  {
    if commands == [] {
      BirthKnows(order, stats);
    } else {
      var init, last := commands[..|commands| - 1], commands[|commands| - 1];
      var earlier := Continued(Birth(order, stats), init);
      SeededStreamKnows(order, stats, init);
      FoldJoins(UNBORN, earlier, Recorded(Fold(earlier), last));
      OneMoreCommand(Fold(earlier), last);
      KnowsMore(order, Named(init), last);
    }
  }

  predicate Knows(b: Batch, order: seq<string>, stats: map<string, int>, named: set<string>) {
    b.members == Known(order, named) && b.stats == stats && (b.closed <==> Done(b))
  }

  lemma {:induction false} BirthKnows(order: seq<string>, stats: map<string, int>)
    ensures Knows(Fold(Birth(order, stats)), order, stats, {})
  {
    BirthIsLegal(order, stats);
    NewbornKnows(Fold(Birth(order, stats)), order, stats);
  }

  lemma {:induction false} NewbornKnows(b: Batch, order: seq<string>, stats: map<string, int>)
    requires b.members == (map a | a in Unique(order) :: false) && b.stats == stats
             && (b.closed <==> Unique(order) == [])
    ensures Knows(b, order, stats, {})
  {
    AllDone(b);
    if Unique(order) != [] {
      assert Unique(order)[0] in b.members;
    }
  }

  lemma {:induction false} OneMoreCommand(b: Batch, artists: seq<string>)
    requires b.closed <==> Done(b)
    ensures var b' := FoldFrom(b, Recorded(b, artists));
            && b'.members == WithDone(b.members, artists) && b'.stats == b.stats && (b'.closed <==> Done(b'))
  {
    var b' := FoldFrom(b, Recorded(b, artists));
    RecordedCompletes(b, artists);
    AllDone(b);
    AllDone(b');
  }

  lemma {:induction false} KnownOfRow(row: Row, order: seq<string>, named: set<string>)
    requires Lists(order, row) && "" !in row.members
    ensures Known(order, named) == map a | a in row.members :: a in named
  {
    assert forall a :: a in order <==> a in row.members;
  }

  /** A seeded stream starts out as the fold the row shows exactly when nobody
      had finished yet and no member is blank. */
  lemma {:induction false} SeededIsCurrentUnless(row: Row, order: seq<string>)
    requires RowOk(row) && Lists(order, row)
    ensures Matches(row, Fold(Birth(order, row.stats)))
        <==> "" !in row.members && forall a :: a in row.members ==> !row.members[a]
  {
    var b := Fold(Birth(order, row.stats));
    BirthIsLegal(order, row.stats);
    if "" in row.members {
      assert "" !in b.members;
    } else if forall a :: a in row.members ==> !row.members[a] {
      assert row.members == b.members;
      HealthyRowMatches(row, b);
    }
  }

  /** However the batch goes on, log and row agree exactly when every member
      that had finished before is named again. */
  lemma {:induction false} SeededAgreesWhenNamedAgain(row: Row, order: seq<string>, commands: seq<seq<string>>)
    requires RowOk(row) && Lists(order, row) && "" !in row.members
    ensures Matches(Marked(row, Named(commands)), Fold(Continued(Birth(order, row.stats), commands)))
        <==> forall a :: a in row.members && row.members[a] ==> a in Named(commands)
  {
    SeededStreamKnows(order, row.stats, commands);
    KnownOfRow(row, order, Named(commands));
    AgreesWhenNamedAgain(row, Fold(Continued(Birth(order, row.stats), commands)), Named(commands));
  }

  lemma {:induction false} AgreesWhenNamedAgain(row: Row, b: Batch, named: set<string>)
    requires RowOk(row) && b.members == (map a | a in row.members :: a in named) && b.stats == row.stats
    ensures Matches(Marked(row, named), b) <==> forall a :: a in row.members && row.members[a] ==> a in named
  {
    var after := Marked(row, named);
    MarkedIsOk(row, named);
    if forall a :: a in row.members && row.members[a] ==> a in named {
      assert after.members == b.members;
      HealthyRowMatches(after, b);
    } else {
      var a :| a in row.members && row.members[a] && a !in named;
      assert after.members[a] && !b.members[a];
    }
  }

  lemma {:induction false} MarkedIsOk(row: Row, named: set<string>)
    requires RowOk(row)
    ensures RowOk(Marked(row, named))
  {
    var members := map a | a in row.members :: row.members[a] || a in named;
    assert members.Keys == row.members.Keys;
    assert |members| == |members.Keys| == |row.members.Keys| == |row.members|;
    RecomputeIsOk(row.(members := members));
  }

  /** The commands of the store name unfinished members only. Once they have
      named the rest the row is done, and the stream is closed exactly when
      nobody had finished before it was seeded. */
  lemma {:induction false} SeededClosesUnless(row: Row, order: seq<string>, commands: seq<seq<string>>)
    requires RowOk(row) && Lists(order, row) && "" !in row.members
    requires forall a :: a in row.members ==> (a in Named(commands) <==> !row.members[a])
    ensures Marked(row, Named(commands)).done
    ensures Fold(Continued(Birth(order, row.stats), commands)).closed
        <==> forall a :: a in row.members ==> !row.members[a]
  {
    SeededStreamKnows(order, row.stats, commands);
    KnownOfRow(row, order, Named(commands));
    ClosesUnless(row, Fold(Continued(Birth(order, row.stats), commands)), Named(commands));
  }

  lemma {:induction false} ClosesUnless(row: Row, b: Batch, named: set<string>)
    requires RowOk(row) && b.members == (map a | a in row.members :: a in named) && (b.closed <==> Done(b))
    requires forall a :: a in row.members ==> (a in named <==> !row.members[a])
    ensures Marked(row, named).done
    ensures b.closed <==> forall a :: a in row.members ==> !row.members[a]
  {
    MarkedIsOk(row, named);
    AllDone(b);
    assert forall a :: a in row.members ==> (b.members[a] <==> !row.members[a]);
    if b.closed {
      assert forall a :: a in row.members ==> b.members[a];
    }
  }

  const HALF_DONE := Row(2, 1, false, map[], map["a" := true, "b" := false])

  lemma {:induction false} HalfDone()
    ensures RowOk(HALF_DONE) && Lists(["a", "b"], HALF_DONE)
    ensures Named([["b"]]) == {"b"}
  {
    var order, commands := ["a", "b"], [["b"]];
    assert HALF_DONE.members.Keys == {"a", "b"} && DoneMembers(HALF_DONE.members) == {"a"};
    assert order[0] == "a" && order[1] == "b" && Names(order) == {"a", "b"};
    assert commands[..0] == [] && commands[0][0] == "b" && Names(commands[0]) == {"b"};
  }

  /** One of two members had finished: when the other one has, the row is done
      and the stream is not, and projecting the stream takes the row back. */
  lemma {:induction false} SeedingForgets()
    ensures var log := Continued(Birth(["a", "b"], map[]), [["b"]]);
            && Marked(HALF_DONE, {"b"}).done && !Fold(log).closed
            && !ProjectAggregate(map["1" := Marked(HALF_DONE, {"b"})], "1", Fold(log))["1"].done
  {
    HalfDone();
    SeededClosesUnless(HALF_DONE, ["a", "b"], [["b"]]);
    SeededStreamKnows(["a", "b"], map[], [["b"]]);
    assert HALF_DONE.members["a"];
  }
}
