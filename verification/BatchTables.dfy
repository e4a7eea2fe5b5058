/** The projection tables (`batches` with its cascading `batch_members`), the
    transactions that write them, and the log next to them. */
module BatchTables {
  import opened BatchAggregate

  /** One `batches` row with its member rows, which are deleted with it. */
  datatype Row = Row(total: nat, completed: nat, done: bool, stats: map<string, int>, members: map<string, bool>)

  type Rows = map<string, Row>

  datatype Flip = Flip(batch: string, artist: string)

  function CountDone(members: map<string, bool>): nat {
    |DoneMembers(members)|
  }

  /** Start's insert: an existing row keeps everything, missing members are added. */
  function Insert(rows: Rows, id: string, artists: seq<string>, stats: map<string, int>): Rows {
    var members := map a | a in artists :: false;
    if id in rows then rows[id := rows[id].(members := members + rows[id].members)]
    else rows[id := Row(|artists|, 0, artists == [], stats, members)]
  }

  /** Only done rows are pruned. */
  function Prune(rows: Rows, expired: set<string>): Rows {
    map id | id in rows && !(id in expired && rows[id].done) :: rows[id]
  }

  function Recompute(row: Row): Row {
    var completed := CountDone(row.members);
    row.(completed := completed, done := row.done || (row.total > 0 && completed >= row.total))
  }

  function MarkMember(rows: Rows, batch: string, artist: string): Rows {
    if batch !in rows then rows
    else
      var row := rows[batch];
      rows[batch := Recompute(if artist in row.members then row.(members := row.members[artist := true]) else row)]
  }

  /** The members Reconcile selects: unfinished, in an unfinished batch, no longer pending. */
  predicate Selectable(rows: Rows, pending: set<string>, f: Flip) {
    f.batch in rows && !rows[f.batch].done && f.artist in rows[f.batch].members && !rows[f.batch].members[f.artist]
    && f.artist !in pending
  }

  function FlipMembers(id: string, members: map<string, bool>, flips: set<Flip>): map<string, bool> {
    map a | a in members :: members[a] || Flip(id, a) in flips
  }

  /** Reconcile's write transaction. */
  function FlipRow(id: string, row: Row, flips: set<Flip>): Row {
    var flipped := row.(members := FlipMembers(id, row.members, flips));
    if row.done then flipped else Recompute(flipped)
  }

  function ApplyFlips(rows: Rows, flips: set<Flip>): Rows {
    map id | id in rows :: FlipRow(id, rows[id], flips)
  }

  /** The replay path: the row becomes the folded aggregate. */
  function ProjectAggregate(rows: Rows, id: string, agg: Batch): Rows {
    var members := (if id in rows then rows[id].members else map[]) + agg.members;
    rows[id := Row(|agg.members|, Completed(agg), Done(agg), agg.stats, members)]
  }

  // -------------------------------------------------------------- row health

  ghost predicate Distinct(artists: seq<string>) {
    forall i, j :: 0 <= i < j < |artists| ==> artists[i] != artists[j]
  }

  /** The counts say what the member rows say. */
  ghost predicate RowOk(row: Row) {
    && row.total == |row.members|
    && row.completed == CountDone(row.members)
    && (row.done <==> forall a :: a in row.members ==> row.members[a])
  }

  ghost predicate RowsOk(rows: Rows) {
    forall id :: id in rows ==> RowOk(rows[id])
  }

  /** The row is the fold. */
  ghost predicate Matches(row: Row, agg: Batch) {
    && row.total == Total(agg) && row.completed == Completed(agg) && row.done == Done(agg)
    && row.stats == agg.stats && row.members == agg.members
  }

  lemma {:induction false} AllTrueIsAllDone(members: map<string, bool>)
    ensures CountDone(members) <= |members|
    ensures CountDone(members) >= |members| <==> forall a :: a in members ==> members[a]
  {
    assert |members| == |members.Keys|;
    SubsetOfSameSize(DoneMembers(members), members.Keys);
    assert (forall a :: a in members ==> members[a]) ==> DoneMembers(members) == members.Keys;
  }

  /** A healthy row whose members are the fold's is the whole fold. */
  lemma {:induction false} HealthyRowMatches(row: Row, agg: Batch)
    requires RowOk(row) && row.members == agg.members && row.stats == agg.stats
    ensures Matches(row, agg)
  {
    AllDone(agg);
  }

  lemma {:induction false} ProjectingAMatchChangesNothing(rows: Rows, id: string, agg: Batch)
    requires id in rows && Matches(rows[id], agg)
    ensures ProjectAggregate(rows, id, agg) == rows
  {
    assert rows[id].members + agg.members == rows[id].members;
    assert rows[id := rows[id]] == rows;
  }

  lemma {:induction false} RecomputeIsOk(row: Row)
    requires row.total == |row.members|
    requires row.done ==> forall a :: a in row.members ==> row.members[a]
    requires row.total == 0 ==> row.done
    ensures RowOk(Recompute(row))
  {
    AllTrueIsAllDone(row.members);
  }

  /** Projecting makes the row the fold exactly when the row has no members that
      the aggregate lacks, and touches no other row. */
  lemma {:induction false} ProjectedMatchesUnless(rows: Rows, id: string, agg: Batch)
    ensures var after := ProjectAggregate(rows, id, agg);
            && id in after && after == rows[id := after[id]]
            && (Matches(after[id], agg) <==> id !in rows || rows[id].members.Keys <= agg.members.Keys)
  {
    var kept := if id in rows then rows[id].members else map[];
    assert (kept + agg.members).Keys == kept.Keys + agg.members.Keys;
    if kept.Keys <= agg.members.Keys {
      assert kept + agg.members == agg.members;
    }
  }

  /** A row that is a fold is healthy, and it is the only one. */
  lemma {:induction false} MatchesOneRow(row: Row, other: Row, agg: Batch)
    requires Matches(row, agg)
    ensures RowOk(row) && (Matches(other, agg) <==> other == row)
  {
    AllDone(agg);
  }

  function Names(artists: seq<string>): set<string> {
    set a | a in artists
  }

  lemma {:induction false} NamesSnoc(artists: seq<string>)
    requires artists != []
    ensures var init, last := artists[..|artists| - 1], artists[|artists| - 1];
            && Names(artists) == Names(init) + {last}
            && (Distinct(artists) <==> Distinct(init) && last !in Names(init))
  {
    var init, last := artists[..|artists| - 1], artists[|artists| - 1];
    assert artists == init + [last];
    if last in Names(init) {
      var i :| 0 <= i < |init| && init[i] == last;
      assert artists[i] == artists[|artists| - 1];
    }
    if Distinct(init) && last !in Names(init) {
      forall i, j | 0 <= i < j < |artists| ensures artists[i] != artists[j] {
        assert artists[i] == init[i] && init[i] in Names(init);
      }
    }
  }

  lemma {:induction false} DistinctCount(artists: seq<string>)
    ensures |Names(artists)| <= |artists|
    ensures |Names(artists)| == |artists| <==> Distinct(artists)
  {
    if artists == [] {
    } else {
      NamesSnoc(artists);
      DistinctCount(artists[..|artists| - 1]);
    }
  }

  /** A batch is born healthy exactly when its artists are distinct. */
  lemma {:induction false} BornHealthy(rows: Rows, id: string, artists: seq<string>, stats: map<string, int>)
    requires id !in rows
    ensures RowOk(Insert(rows, id, artists, stats)[id]) <==> Distinct(artists)
  {
    var members := Insert(rows, id, artists, stats)[id].members;
    DistinctCount(artists);
    assert members.Keys == Names(artists);
    assert |members| == |members.Keys|;
    assert DoneMembers(members) == {};
    if artists != [] {
      assert artists[0] in members;
    }
  }

  /** The new row is the fold of the new stream exactly when the artists are
      distinct and none is blank: the log drops blanks and repeats, the tables
      count them. */
  lemma {:induction false} BornMatching(rows: Rows, id: string, artists: seq<string>, stats: map<string, int>)
    requires id !in rows
    ensures Matches(Insert(rows, id, artists, stats)[id], Fold(Birth(artists, stats)))
        <==> Distinct(artists) && "" !in artists
  {
    var row, agg := Insert(rows, id, artists, stats)[id], Fold(Birth(artists, stats));
    BirthIsLegal(artists, stats);
    BornHealthy(rows, id, artists, stats);
    DistinctCount(artists);
    assert row.members.Keys == Names(artists);
    assert |row.members| == |row.members.Keys|;
    if "" in artists {
      assert "" in row.members && "" !in agg.members;
    } else {
      assert row.members == agg.members;
      if Distinct(artists) {
        HealthyRowMatches(row, agg);
      }
    }
  }

  /** One artist named twice: the row counts two members and has one. */
  lemma {:induction false} RepeatedArtist()
    ensures var row := Insert(map[], "b", ["a", "a"], map[])["b"];
            row.total == 2 && |row.members| == 1 && !Recompute(row.(members := map["a" := true])).done
            && !Matches(row, Fold(Birth(["a", "a"], map[])))
  {
    var row := Insert(map[], "b", ["a", "a"], map[])["b"];
    var members := map a | a in ["a", "a"] :: false;
    assert ["a", "a"][0] == "a" && members == map["a" := false];
    assert DoneMembers(map["a" := true]) == {"a"};
    assert !Distinct(["a", "a"]) by { assert ["a", "a"][0] == ["a", "a"][1]; }
    BornMatching(map[], "b", ["a", "a"], map[]);
  }

  /** A second Start for a live batch with artists it has changes nothing. */
  lemma {:induction false} RestartKeepsRow(rows: Rows, id: string, artists: seq<string>, stats: map<string, int>)
    requires id in rows && forall a :: a in artists ==> a in rows[id].members
    ensures Insert(rows, id, artists, stats) == rows
  {
    var members := map a | a in artists :: false;
    assert members + rows[id].members == rows[id].members;
  }

  /** A second Start for a live batch, with any artists: the row stays healthy,
      and the fold if it was that, exactly when the batch has them all. */
  lemma {:induction false} RestartWithOthers(rows: Rows, id: string, artists: seq<string>, stats: map<string, int>,
      agg: Batch)
    requires id in rows && RowOk(rows[id])
    ensures RowOk(Insert(rows, id, artists, stats)[id]) <==> Names(artists) <= rows[id].members.Keys
    ensures Matches(rows[id], agg) ==>
              (Matches(Insert(rows, id, artists, stats)[id], agg) <==> Names(artists) <= rows[id].members.Keys)
  {
    if Names(artists) <= rows[id].members.Keys {
      RestartKeepsRow(rows, id, artists, stats);
    } else {
      var members := Insert(rows, id, artists, stats)[id].members;
      assert members.Keys == Names(artists) + rows[id].members.Keys;
      SubsetOfSameSize(rows[id].members.Keys, members.Keys);
      assert |members| == |members.Keys| > |rows[id].members.Keys| == |rows[id].members|;
    }
  }

  /** A batch of "a" started again with "a" and "c": when "a" finishes, the row
      is done and "c" is not. */
  lemma {:induction false} RestartedWithMore()
    ensures var rows := Insert(map["b" := Row(1, 0, false, map[], map["a" := false])], "b", ["a", "c"], map[]);
            var row := MarkMember(rows, "b", "a")["b"];
            row.done && "c" in row.members && !row.members["c"]
  {
    var rows := Insert(map["b" := Row(1, 0, false, map[], map["a" := false])], "b", ["a", "c"], map[]);
    var members := rows["b"].members;
    assert ["a", "c"][0] == "a" && ["a", "c"][1] == "c";
    assert members == map["a" := false, "c" := false];
    assert DoneMembers(members["a" := true]) == {"a"};
  }

  /** A Start for a batch that has a stream and no row any more inserts the row
      afresh: it is the fold of the stream exactly when the call names the
      artists of the stream, each once, with its stats, and none has finished. */
  lemma {:induction false} RestartAfterPruning(rows: Rows, id: string, artists: seq<string>, stats: map<string, int>,
      agg: Batch)
    requires id !in rows
    ensures Matches(Insert(rows, id, artists, stats)[id], agg) <==>
              && Distinct(artists) && Names(artists) == agg.members.Keys && stats == agg.stats
              && forall a :: a in agg.members ==> !agg.members[a]
  {
    var row := Insert(rows, id, artists, stats)[id];
    BornHealthy(rows, id, artists, stats);
    DistinctCount(artists);
    assert row.members.Keys == Names(artists);
    assert |agg.members| == |agg.members.Keys|;
    if Distinct(artists) && Names(artists) == agg.members.Keys && forall a :: a in agg.members ==> !agg.members[a] {
      assert row.members == agg.members;
      if stats == agg.stats {
        HealthyRowMatches(row, agg);
      }
    }
  }

  /** A finished batch whose row was pruned comes back unfinished. */
  lemma {:induction false} RestartedDoneBatch()
    ensures var log := [Started(["a"], map[]), ArtistCompleted("a"), BatchCompleted(1, 1)];
            && LegalLog(log) && Done(Fold(log))
            && !Matches(Insert(map[], "b", ["a"], map[])["b"], Fold(log))
  {
    var log := OneArtist();
    assert Fold(log).members["a"];
    AllDone(Fold(log));
    RestartAfterPruning(map[], "b", ["a"], map[], Fold(log));
  }

  /** The life of a batch of one artist. */
  lemma {:induction false} OneArtist() returns (log: seq<Fact>)
    ensures log == [Started(["a"], map[]), ArtistCompleted("a"), BatchCompleted(1, 1)]
    ensures LegalLog(log) && Fold(log).members == map["a" := true]
  {
    var started, completed, closed := Started(["a"], map[]), ArtistCompleted("a"), BatchCompleted(1, 1);
    var born := OneMore([], started);
    assert ["a"][0] == "a" && Fold(born).members == map["a" := false];
    var done := OneMore(born, completed);
    assert Fold(done).members == map["a" := true] && DoneMembers(Fold(done).members) == {"a"};
    log := OneMore(done, closed);
  }

  lemma {:induction false} OneMore(log: seq<Fact>, f: Fact) returns (longer: seq<Fact>)
    requires LegalLog(log) && Legal(Fold(log), f)
    ensures longer == log + [f] && LegalLog(longer) && Fold(longer) == Apply(Fold(log), f)
  {
    longer := log + [f];
    LegalExtends(UNBORN, log, f);
    FoldOnce(UNBORN, log, f);
  }

  lemma {:induction false} MarkKeepsOk(rows: Rows, batch: string, artist: string)
    requires RowsOk(rows)
    ensures RowsOk(MarkMember(rows, batch, artist))
  {
    if batch in rows {
      var row := rows[batch];
      var marked := if artist in row.members then row.(members := row.members[artist := true]) else row;
      assert marked.members.Keys == row.members.Keys;
      assert |marked.members| == |marked.members.Keys| == |row.members.Keys| == |row.members|;
      RecomputeIsOk(marked);
    }
  }

  lemma {:induction false} FlipRowKeepsOk(id: string, row: Row, flips: set<Flip>)
    requires RowOk(row)
    ensures RowOk(FlipRow(id, row, flips))
  {
    var flipped := row.(members := FlipMembers(id, row.members, flips));
    assert flipped.members.Keys == row.members.Keys;
    assert |flipped.members| == |flipped.members.Keys| == |row.members.Keys| == |row.members|;
    if row.done {
      assert flipped.members == row.members;
    } else {
      RecomputeIsOk(flipped);
    }
  }

  lemma {:induction false} FlipsKeepOk(rows: Rows, flips: set<Flip>)
    requires RowsOk(rows)
    ensures RowsOk(ApplyFlips(rows, flips))
  {
    forall id | id in rows ensures RowOk(ApplyFlips(rows, flips)[id]) {
      FlipRowKeepsOk(id, rows[id], flips);
    }
  }

  /** After Reconcile's transaction the same selection is empty. */
  lemma {:induction false} NothingLeftToFlip(rows: Rows, pending: set<string>, flips: set<Flip>, f: Flip)
    requires forall g :: Selectable(rows, pending, g) ==> g in flips
    ensures !Selectable(ApplyFlips(rows, flips), pending, f)
  {
    if f.batch in rows && f.artist in rows[f.batch].members && !rows[f.batch].members[f.artist]
       && f.artist !in pending
    {
      if !rows[f.batch].done {
        assert Selectable(rows, pending, f);
      }
    }
  }
}
