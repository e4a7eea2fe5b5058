/** The batch store as it is written: methods over the log, the two tables and
    a cached aggregate, which other goroutines use between any two
    transactions. Every transaction and every locked append is one step of
    BatchWorld, so the store's whole life is one of its runs. */
module BatchStore {
  import opened BatchAggregate
  import opened BatchTables
  import opened BatchWorld
  import opened BatchSafety
  import opened BatchConvergence
  import opened BatchOutcomes
  import opened BatchRecovery
  import opened BatchResume
  import opened Options
  import opened Text
  import Sorting

  /** What AppendWithRetry told the caller. */
  datatype LogResult = Appended | Conflict | LogFailed

  datatype Completion = Nothing | CompletedIn(batch: string) | Failed

  /** The same publishes can still land. */
  ghost predicate SameLive(a: set<Flight>, b: set<Flight>, logs: map<string, seq<Fact>>) {
    forall flight: Flight :: flight.at == |if flight.batch in logs then logs[flight.batch] else []| ==>
      (flight in a <==> flight in b)
  }

  /** The cached attempt and the reload leave under way what their one outcome does. */
  lemma {:induction false} LateTogether(batch: string, base: nat, news: seq<Fact>, first: nat, lateFirst: bool,
      more: seq<Fact>, second: nat, lateSecond: bool, start: set<Flight>, begun: set<Flight>, middle: nat,
      flights: set<Flight>, logs: map<string, seq<Fact>>, n: nat, late: bool)
    requires n == first + second && (late <==> (second == 0 && lateFirst) || lateSecond)
    requires first <= |news| && (lateFirst ==> first < |news|)
    requires begun == start + Late(batch, base, first, news, lateFirst)
    requires flights == begun + Late(batch, middle, second, more, lateSecond) && middle == base + first
    requires (more == [] || more == news[first..]) && second <= |more| && (lateSecond ==> second < |more|)
    requires batch in logs && |logs[batch]| == base + first + second
    ensures SameLive(flights, start + Late(batch, base, n, news, late), logs)
  {
    OneLateFact(batch, base, news, first, lateFirst, more, second, lateSecond, n, late);
  }

  /** The stream and what is under way, after one command came to an outcome. */
  ghost predicate CameTo(before: map<string, seq<Fact>>, start: set<Flight>, batch: string, artists: seq<string>,
      after: map<string, seq<Fact>>, flights: set<Flight>, outcome: Outcome, late: bool)
    requires batch in before
  {
    && batch in after && after == before[batch := after[batch]]
    && StreamCameTo(before[batch], start, batch, artists, after[batch], after, flights, outcome, late)
  }

  ghost predicate StreamCameTo(log: seq<Fact>, start: set<Flight>, batch: string, artists: seq<string>,
      longer: seq<Fact>, after: map<string, seq<Fact>>, flights: set<Flight>, outcome: Outcome, late: bool)
  {
    var stored := Stored(Fold(log), artists, outcome);
    && longer == log + stored
    && SameLive(flights, start + Late(batch, |log|, |stored|, Recorded(Fold(log), artists), late), after)
  }

  /** A first attempt made `before` into `middle`, a second that into `after`. */
  lemma {:induction false} TwoTries(before: map<string, seq<Fact>>, start: set<Flight>, batch: string,
      artists: seq<string>, news: seq<Fact>, first: nat, lateFirst: bool, middle: map<string, seq<Fact>>,
      begun: set<Flight>, more: seq<Fact>, second: nat, lateSecond: bool, ok: bool, after: map<string, seq<Fact>>,
      flights: set<Flight>)
    returns (outcome: Outcome, late: bool)
    requires batch in before && news == Recorded(Fold(before[batch]), artists) && first <= |news|
             && (lateFirst ==> first < |news|)
    requires middle == before[batch := before[batch] + news[..first]]
    requires begun == start + Late(batch, |before[batch]|, first, news, lateFirst)
    requires more == Recorded(Fold(middle[batch]), artists) && second <= |more| && (lateSecond ==> second < |more|)
    requires after == middle[batch := middle[batch] + more[..second]] && (ok ==> second == |more|)
    requires flights == begun + Late(batch, |middle[batch]|, second, more, lateSecond)
    ensures CameTo(before, start, batch, artists, after, flights, outcome, late)
    ensures (ok <==> !outcome.Broken?) && (ok && first == 0 ==> outcome == Whole)
  {
    var log, x, y := before[batch], middle[batch], after[batch];
    outcome, late := TwoTriesOf(batch, log, artists, news, first, lateFirst, x, more, second, lateSecond, ok, y,
      start, begun, flights, after);
    UpdatedTwice(before, batch, x, y, middle, after);
  }

  /** The same for the one stream. */
  lemma {:induction false} TwoTriesOf(batch: string, log: seq<Fact>, artists: seq<string>, news: seq<Fact>, first: nat,
      lateFirst: bool, x: seq<Fact>, more: seq<Fact>, second: nat, lateSecond: bool, ok: bool, y: seq<Fact>,
      start: set<Flight>, begun: set<Flight>, flights: set<Flight>, after: map<string, seq<Fact>>)
    returns (outcome: Outcome, late: bool)
    requires news == Recorded(Fold(log), artists) && first <= |news| && (lateFirst ==> first < |news|)
    requires x == log + news[..first] && begun == start + Late(batch, |log|, first, news, lateFirst)
    requires more == Recorded(Fold(x), artists) && second <= |more| && (lateSecond ==> second < |more|)
    requires y == x + more[..second] && (ok ==> second == |more|)
    requires flights == begun + Late(batch, |x|, second, more, lateSecond)
    requires batch in after && after[batch] == y
    ensures StreamCameTo(log, start, batch, artists, y, after, flights, outcome, late)
    ensures (ok <==> !outcome.Broken?) && (ok && first == 0 ==> outcome == Whole)
  {
    late := (second == 0 && lateFirst) || lateSecond;
    var n := first + second;
    TwoTriesLate(batch, log, artists, news, first, lateFirst, x, more, second, lateSecond, y, start, begun, flights,
      after, n, late);
    outcome := OneOutcome(log, artists, news, first, x, more, second, y, ok);
    ItCameTo(log, start, batch, artists, y, after, flights, outcome, late, news, n);
  }

  lemma {:induction false} TwoTriesLate(batch: string, log: seq<Fact>, artists: seq<string>, news: seq<Fact>,
      first: nat, lateFirst: bool, x: seq<Fact>, more: seq<Fact>, second: nat, lateSecond: bool, y: seq<Fact>,
      start: set<Flight>, begun: set<Flight>, flights: set<Flight>, after: map<string, seq<Fact>>, n: nat, late: bool)
    requires n == first + second && (late <==> (second == 0 && lateFirst) || lateSecond)
    requires news == Recorded(Fold(log), artists) && first <= |news| && (lateFirst ==> first < |news|)
    requires x == log + news[..first] && begun == start + Late(batch, |log|, first, news, lateFirst)
    requires more == Recorded(Fold(x), artists) && second <= |more| && (lateSecond ==> second < |more|)
    requires y == x + more[..second] && flights == begun + Late(batch, |x|, second, more, lateSecond)
    requires batch in after && after[batch] == y
    ensures SameLive(flights, start + Late(batch, |log|, n, news, late), after)
  {
    MoreIsTheRest(log, artists, news, first, x, more);
    assert |x| == |log| + first && |y| == |log| + first + second;
    LateTogether(batch, |log|, news, first, lateFirst, more, second, lateSecond, start, begun, |x|, flights, after, n,
      late);
  }

  lemma {:induction false} UpdatedTwice(before: map<string, seq<Fact>>, batch: string, x: seq<Fact>, y: seq<Fact>,
      middle: map<string, seq<Fact>>, after: map<string, seq<Fact>>)
    requires middle == before[batch := x] && after == middle[batch := y]
    ensures after == before[batch := y]
  {
  }

  lemma {:induction false} ItCameTo(log: seq<Fact>, start: set<Flight>, batch: string, artists: seq<string>,
      longer: seq<Fact>, after: map<string, seq<Fact>>, flights: set<Flight>, outcome: Outcome, late: bool,
      news: seq<Fact>, n: nat)
    requires news == Recorded(Fold(log), artists) && n <= |news| && longer == log + news[..n]
    requires Stored(Fold(log), artists, outcome) == news[..n]
    requires SameLive(flights, start + Late(batch, |log|, n, news, late), after)
    ensures StreamCameTo(log, start, batch, artists, longer, after, flights, outcome, late)
  {
  }

  lemma {:induction false} AllAtOnce(before: map<string, seq<Fact>>, flights: set<Flight>, batch: string,
      artists: seq<string>, news: seq<Fact>, after: map<string, seq<Fact>>)
    requires batch in before && news == Recorded(Fold(before[batch]), artists)
             && after == before[batch := before[batch] + news]
    ensures CameTo(before, flights, batch, artists, after, flights, Whole, false)
  {
    assert flights + {} == flights;
  }

  /** One attempt that stored `k` of the facts to record is one outcome. */
  lemma {:induction false} OneTry(loaded: map<string, seq<Fact>>, begun: set<Flight>, batch: string,
      artists: seq<string>, news: seq<Fact>, k: nat, lateOne: bool, ok: bool, after: map<string, seq<Fact>>,
      flights: set<Flight>)
    returns (outcome: Outcome, late: bool)
    requires batch in loaded && news == Recorded(Fold(loaded[batch]), artists) && k <= |news|
             && (lateOne ==> k < |news|)
    requires after == loaded[batch := loaded[batch] + news[..k]] && (ok ==> k == |news|)
    requires flights == begun + Late(batch, |loaded[batch]|, k, news, lateOne)
    ensures CameTo(loaded, begun, batch, artists, after, flights, outcome, late)
    ensures (ok <==> !outcome.Broken?) && (ok ==> outcome == Whole)
  {
    late := lateOne;
    outcome := OutcomeOf(Fold(loaded[batch]), artists, k, ok);
    ItCameTo(loaded[batch], begun, batch, artists, after[batch], after, flights, outcome, late, news, k);
  }

  lemma {:induction false} NothingAppended(logs: map<string, seq<Fact>>, flights: set<Flight>, batch: string,
      news: seq<Fact>)
    requires batch in logs
    ensures logs == logs[batch := logs[batch] + news[..0]]
            && flights == flights + Late(batch, |logs[batch]|, 0, news, false)
  {
    assert logs[batch] + news[..0] == logs[batch];
  }

  lemma {:induction false} NoCommand(logs: map<string, seq<Fact>>, flights: set<Flight>, batch: string)
    requires batch in logs
    ensures CameTo(logs, flights, batch, [], logs, flights, Whole, false)
  {
    var news := Recorded(Fold(logs[batch]), []);
    assert news == [] && logs[batch] + news == logs[batch];
    AllAtOnce(logs, flights, batch, [], news, logs);
  }

  /** `k` birth facts of a row's members are stored as a new stream, and the
      next may be under way. */
  ghost predicate SeededTo(before: map<string, seq<Fact>>, start: set<Flight>, row: Row, batch: string,
      order: seq<string>, k: nat, late: bool, after: map<string, seq<Fact>>, flights: set<Flight>)
  {
    var birth := Birth(order, row.stats);
    && Distinct(order) && Names(order) == row.members.Keys
    && k <= |birth| && after == (if k == 0 then before else before[batch := birth[..k]])
    && flights == start + Late(batch, 0, k, birth, late)
  }

  /** What seeding makes of the log; a batch without a row cannot be seeded. */
  ghost predicate Seeded(before: map<string, seq<Fact>>, start: set<Flight>, rows: Rows, batch: string,
      after: map<string, seq<Fact>>, flights: set<Flight>)
  {
    if batch !in rows then after == before && flights == start
    else exists order, k, late :: SeededTo(before, start, rows[batch], batch, order, k, late, after, flights)
  }

  lemma {:induction false} OneMoreName(order: seq<string>, a: string)
    requires Distinct(order) && a !in Names(order)
    ensures Distinct(order + [a]) && Names(order + [a]) == Names(order) + {a}
  {
    assert (order + [a])[..|order|] == order;
    NamesSnoc(order + [a]);
  }

  /** What a call that logs its birth came to. */
  function BirthOutcome(k: nat, birth: seq<Fact>, ok: bool): Outcome {
    if !ok then Broken(k) else if k == |birth| then Whole else CloseLost
  }

  lemma {:induction false} BirthStep(w: World, o: nat, id: string, artists: seq<string>, stats: map<string, int>,
      k: nat, ok: bool, late: bool)
    requires Enabled(w, BeginStart(o, id, artists, stats, Whole, false)) && id !in w.logs
    requires k <= |Birth(artists, stats)| && (ok ==> k > 0)
    ensures var birth := Birth(artists, stats);
            var a := BeginStart(o, id, artists, stats, BirthOutcome(k, birth, ok), late);
            && Enabled(w, a)
            && Step(w, a) == w.(logs := if k == 0 then w.logs else w.logs[id := birth[..k]],
                                ops := if ok then w.ops[o := Starting(id, artists, stats)] else w.ops,
                                flights := w.flights + Late(id, 0, k, birth, late))
  {
    var birth := Birth(artists, stats);
    BirthIsShort(artists, stats);
    assert birth[..|birth|] == birth;
    assert Born(birth, BirthOutcome(k, birth, ok)) == birth[..k];
  }

  lemma {:induction false} MatchingRowsAreOk(rows: Rows, logs: map<string, seq<Fact>>)
    requires rows.Keys == logs.Keys && forall id :: id in logs ==> Matches(rows[id], Fold(logs[id]))
    ensures forall id :: id in logs ==> RowOk(rows[id])
  {
    forall id | id in logs ensures RowOk(rows[id]) {
      MatchesOneRow(rows[id], rows[id], Fold(logs[id]));
    }
  }

  /** Rows that were the folds of their streams are what a replay writes. */
  lemma {:induction false} RowsComeBack(before: Rows, after: Rows, logs: map<string, seq<Fact>>)
    requires forall id :: id in before ==> id in logs && Matches(before[id], Fold(logs[id]))
    requires after.Keys == logs.Keys && forall id :: id in logs ==> Matches(after[id], Fold(logs[id]))
    ensures forall id :: id in before ==> id in after && after[id] == before[id]
    ensures after == before <==> forall id :: id in logs ==> id in before
  {
    forall id | id in before ensures id in after && after[id] == before[id] {
      MatchesOneRow(before[id], after[id], Fold(logs[id]));
    }
    if forall id :: id in logs ==> id in before {
      assert after == before;
    }
  }

  /** What Reconcile selects. */
  function SelectableFlips(rows: Rows, pending: set<string>): (flips: set<Flip>)
    ensures forall f :: f in flips <==> Selectable(rows, pending, f)
  {
    set id, a | id in rows && a in rows[id].members && Selectable(rows, pending, Flip(id, a)) :: Flip(id, a)
  }

  lemma {:induction false} NothingSelectable(rows: Rows, pending: set<string>)
    requires |SelectableFlips(rows, pending)| == 0
    ensures forall f :: !Selectable(rows, pending, f)
  {
    assert forall f :: f !in SelectableFlips(rows, pending);
  }

  lemma {:induction false} EachOnce(flips: seq<Flip>)
    requires forall i, j :: 0 <= i < j < |flips| ==> flips[i] != flips[j]
    ensures |Flips(flips)| == |flips|
  {
    if flips == [] {
    } else {
      var init, last := flips[..|flips| - 1], flips[|flips| - 1];
      EachOnce(init);
      assert flips == init + [last];
      assert Flips(flips) == Flips(init) + {last};
    }
  }

  /** No operation was under way but this one, and it is over. */
  lemma {:induction false} OnlyOneMoved(w: World, w': World, o: nat)
    requires w.ops == map[] && OthersWait(w, w', o) && o !in w'.ops
    ensures w'.ops == map[]
  {
  }

  lemma {:induction false} OneMoreGroup(groups: seq<Group>, i: nat, f: Flip)
    requires i < |groups|
    ensures Owes(groups[..i + 1], f)
        <==> Owes(groups[..i], f) || (f.batch == groups[i].batch && f.artist in groups[i].artists)
  {
    if Owes(groups[..i + 1], f) {
      var k :| 0 <= k < i + 1 && groups[..i + 1][k].batch == f.batch && f.artist in groups[..i + 1][k].artists;
      assert k < i ==> groups[..i][k] == groups[k];
    }
    if Owes(groups[..i], f) {
      var k :| 0 <= k < i && groups[..i][k].batch == f.batch && f.artist in groups[..i][k].artists;
      assert groups[..i + 1][k] == groups[k];
    }
    assert groups[..i + 1][i] == groups[i];
  }

  /** The members of a group were all selected. */
  lemma {:induction false} NextGroupKnown(flips: seq<Flip>, i: nat)
    requires i < |Grouped(flips)|
    ensures forall a :: a in Grouped(flips)[i].artists ==> Flip(Grouped(flips)[i].batch, a) in flips
  {
    forall a | a in Grouped(flips)[i].artists ensures Flip(Grouped(flips)[i].batch, a) in flips {
      assert Owes(Grouped(flips), Flip(Grouped(flips)[i].batch, a));
      GroupedOwes(flips, Flip(Grouped(flips)[i].batch, a));
    }
  }

  /** The stream gained exactly what the command records on it. */
  ghost predicate Gained(before: map<string, seq<Fact>>, after: map<string, seq<Fact>>, batch: string,
      artists: seq<string>)
  {
    batch in before && after == before[batch := before[batch] + Recorded(Fold(before[batch]), artists)]
  }

  ghost predicate Latest(batches: set<string>, newer: (string, string) -> bool, id: string) {
    id in batches && forall x :: x in batches && x != id ==> newer(id, x)
  }

  predicate IsCompletedStatus(fetchStatus: string) {
    fetchStatus == "idle" || fetchStatus == "failed"
  }

  class Store {
    var logs: map<string, seq<Fact>>
    var rows: Rows
    var pending: set<string>
    var cachedID: string
    var cachedAgg: Option<Batch>
    /** Nothing ever fails: the log, the database and the context stay up. */
    const reliable: bool
    /** Nobody else uses the store, and nothing lands late. */
    const quiet: bool
    ghost var pruned: set<string>
    ghost var ops: map<nat, Op>
    /** Publishes under way that nobody waits for. */
    ghost var flights: set<Flight>
    ghost var history: seq<Action>

    ghost function Now(): World
      reads this
    {
      World(logs, rows, pending, pruned, ops, flights)
    }

    /** The cached aggregate is the replay of a prefix of its stream. */
    ghost predicate CacheOk()
      reads this
    {
      cachedAgg.Some? ==> cachedID in logs && IsCopy(logs[cachedID], cachedAgg.value)
    }

    ghost predicate Valid()
      reads this
    {
      && RunsFrom(NOBODY, history) && After(NOBODY, history) == Now()
      && (reliable ==> SmoothRun(history))
      && CacheOk()
    }

    constructor (reliable: bool, quiet: bool)
      ensures Valid() && Now() == NOBODY && this.reliable == reliable && this.quiet == quiet
    {
      logs, rows, pending := map[], map[], {};
      cachedID, cachedAgg := "", None;
      this.reliable, this.quiet := reliable, quiet;
      pruned, ops, flights, history := {}, map[], {}, [];
    }

    /** The step that just changed the log or the tables, for the record.
        Publishes that can never land any more are forgotten. */
    ghost method Record(was: World, a: Action)
      requires RunsFrom(NOBODY, history) && After(NOBODY, history) == was && Enabled(was, a)
      requires logs == Step(was, a).logs && rows == Step(was, a).rows && pending == Step(was, a).pending
      requires SameLive(flights, Step(was, a).flights, logs)
      requires reliable ==> SmoothRun(history) && Smooth(a)
      requires CacheOk()
      modifies `pruned, `ops, `flights, `history
      ensures Valid() && Now() == Step(was, a) && history == old(history) + [a]
    {
      ExtendRun(NOBODY, history, a);
      RecordNext(a, Step(was, a));
    }

    ghost method RecordNext(a: Action, next: World)
      requires RunsFrom(NOBODY, history + [a]) && After(NOBODY, history + [a]) == next
      requires logs == next.logs && rows == next.rows && pending == next.pending
      requires reliable ==> SmoothRun(history) && Smooth(a)
      requires CacheOk()
      modifies `pruned, `ops, `flights, `history
      ensures Valid() && Now() == next && history == old(history) + [a]
    {
      pruned, ops, flights := next.pruned, next.ops, next.flights;
      history := history + [a];
    }

    /** Anything the other goroutines do: this body does nothing, but callers
        only know that the run went on and that operation `o` did not move. */
    method Elsewhere(o: nat)
      requires Valid()
      modifies this
      ensures Valid() && old(history) <= history
      ensures o in ops <==> o in old(ops)
      ensures o in ops ==> ops[o] == old(ops[o])
      ensures quiet ==> unchanged(this)
    {
    }

    /** What an operation knows about its member survives what the others do. */
    lemma StillSo(before: seq<Action>, f: Flip)
      requires Valid() && before <= history
      ensures RunsFrom(NOBODY, before)
      ensures MemberOrGone(After(NOBODY, before), f) ==> MemberOrGone(Now(), f)
      ensures DoneOrGone(After(NOBODY, before), f) ==> DoneOrGone(Now(), f)
      ensures Known(After(NOBODY, before), f) ==> Known(Now(), f)
      ensures LogSays(After(NOBODY, before), f) ==> LogSays(Now(), f)
      ensures StreamOf(After(NOBODY, before), f.batch) <= StreamOf(Now(), f.batch)
    {
      LifeGoesOn(before, history, f);
    }

    lemma StillSoAll(before: seq<Action>, flips: seq<Flip>)
      requires Valid() && before <= history
      ensures RunsFrom(NOBODY, before)
      ensures forall f :: f in flips && MemberOrGone(After(NOBODY, before), f) ==> MemberOrGone(Now(), f)
      ensures forall f :: f in flips && DoneOrGone(After(NOBODY, before), f) ==> DoneOrGone(Now(), f)
      ensures forall f :: f in flips && Known(After(NOBODY, before), f) ==> Known(Now(), f)
    {
      RunSplits(NOBODY, before, history);
      forall f | f in flips
        ensures && (MemberOrGone(After(NOBODY, before), f) ==> MemberOrGone(Now(), f))
                && (DoneOrGone(After(NOBODY, before), f) ==> DoneOrGone(Now(), f))
                && (Known(After(NOBODY, before), f) ==> Known(Now(), f))
      {
        StillSo(before, f);
      }
    }

    lemma StillSaid(before: seq<Action>, groups: seq<Group>)
      requires Valid() && before <= history
      ensures RunsFrom(NOBODY, before)
      ensures forall f :: Owes(groups, f) && LogSays(After(NOBODY, before), f) ==> LogSays(Now(), f)
    {
      RunSplits(NOBODY, before, history);
      forall f | Owes(groups, f) && LogSays(After(NOBODY, before), f) ensures LogSays(Now(), f) {
        StillSo(before, f);
      }
    }

    /** With nothing to select, nothing is to mend. */
    lemma MendedAlready()
      requires Valid() && Mendable() && forall f :: !Selectable(rows, pending, f)
      ensures forall id :: id in rows ==> Matches(rows[id], AggregateOf(Now(), id))
    {
      forall id | id in rows ensures Matches(rows[id], AggregateOf(Now(), id)) {
        NothingSelectedNothingToHeal(history, id);
      }
    }

    /** What an undisturbed Reconcile leaves behind. */
    lemma Mended(run: seq<Action>, o: nat, flips: seq<Flip>, rest: seq<Action>)
      requires Valid() && RunsFrom(NOBODY, run) && HealableRun(run) && After(NOBODY, run).ops == map[]
      requires forall f :: f in AllVictims(run) && IsMember(After(NOBODY, run), f) ==>
                 f.artist !in After(NOBODY, run).pending
      requires Enabled(After(NOBODY, run), Select(o, flips)) && history == run + [Select(o, flips)] + rest
      requires Undisturbed(rest, o) && o !in ops
      ensures forall id :: id in rows ==> Matches(rows[id], AggregateOf(Now(), id))
    {
      var w := After(NOBODY, run);
      ExtendRun(NOBODY, run, Select(o, flips));
      RunSplits(NOBODY, run + [Select(o, flips)], history);
      assert history[|run + [Select(o, flips)]|..] == rest;
      ReconcilingRun(w, o, flips, rest);
      OnlyOneMoved(w, Now(), o);
      forall id | id in rows ensures Matches(rows[id], AggregateOf(Now(), id)) {
        OneReconcileHeals(run, o, flips, rest, id);
      }
    }

    // ------------------------------------------------------------- the log

    /** Append, or AppendWithRetry: a prefix of the facts is stored, and only
        on top of a stream that ends at `base`; success means all of them. A
        stale base is a conflict, unless the read of the tip fails first. On an
        error the publish of the next fact may still be under way (`late`), and
        the error may read as a conflict with what the call itself stored. */
    method AppendFacts(id: string, base: nat, facts: seq<Fact>)
      returns (result: LogResult, ghost k: nat, ghost late: bool)
      requires facts != []
      modifies `logs, `flights
      ensures k <= |facts| && (result.Appended? ==> k == |facts|) && (late ==> k < |facts|)
      ensures base != (if id in old(logs) then |old(logs)[id]| else 0) ==>
                !result.Appended? && k == 0 && !late && (reliable ==> result.Conflict?)
      ensures base == (if id in old(logs) then |old(logs)[id]| else 0) && result.Conflict? ==> k > 0
      ensures reliable ==> !late && (base == (if id in old(logs) then |old(logs)[id]| else 0) ==> result.Appended?)
      ensures id in old(logs) ==> logs == old(logs)[id := old(logs)[id] + facts[..k]]
      ensures id !in old(logs) ==> logs == if k == 0 then old(logs) else old(logs)[id := facts[..k]]
      ensures flights == old(flights) + Late(id, base, k, facts, late)
    {
      k, late := 0, false;
      var stream := if id in logs then logs[id] else [];
      assert stream + [] == stream && forall s: seq<Fact> :: [] + s == s;
      var readFails: bool := *;
      if !reliable && readFails {
        return LogFailed, 0, false;
      }
      if base != |stream| {
        return Conflict, 0, false;
      }
      var landed: nat := |facts|;
      result := Appended;
      var fails: bool := *;
      if !reliable && fails {
        landed := *;
        landed := if landed <= |facts| then landed else 0;
        var meetsItself: bool := *;
        result := if meetsItself && landed > 0 then Conflict else LogFailed;
        late := *;
        late := late && landed < |facts|;
      }
      if landed > 0 {
        logs := logs[id := stream + facts[..landed]];
      }
      k := landed;
      flights := flights + Late(id, base, k, facts, late);
    }

    /** The command loop: record a completion for each artist that is news. */
    method RecordCompletions(copy: Batch, artists: seq<string>) returns (agg: Batch, facts: seq<Fact>)
      ensures facts == Completions(copy, artists) && agg == FoldFrom(copy, facts)
    {
      agg, facts := copy, [];
      for i := 0 to |artists|
        invariant facts == Completions(copy, artists[..i]) && agg == FoldFrom(copy, facts)
      {
        var news := RecordCompletion(agg, artists[i]);
        assert artists[..i + 1][..i] == artists[..i];
        FoldJoins(copy, facts, news);
        if news != [] {
          FoldOne(agg, news[0]);
          agg := Apply(agg, news[0]);
        }
        facts := facts + news;
      }
      assert artists[..|artists|] == artists;
    }

    method RecordClosed(before: Batch, facts: seq<Fact>, ghost copy: Batch) returns (agg: Batch, all: seq<Fact>)
      requires before == FoldFrom(copy, facts)
      ensures all == facts + Close(before) && agg == FoldFrom(copy, all)
    {
      var closing := Close(before);
      agg := before;
      FoldJoins(copy, facts, closing);
      if closing != [] {
        FoldOne(before, closing[0]);
        agg := Apply(before, closing[0]);
      }
      all := facts + closing;
    }

    method NewBatch(artists: seq<string>, stats: map<string, int>) returns (agg: Batch, facts: seq<Fact>)
      ensures facts == Birth(artists, stats) && agg == Fold(facts)
    {
      var unique: seq<string> := [];
      for i := 0 to |artists|
        invariant unique == Unique(artists[..i])
      {
        assert artists[..i + 1][..i] == artists[..i];
        if artists[i] != "" && artists[i] !in unique {
          unique := unique + [artists[i]];
        }
      }
      assert artists[..|artists|] == artists;
      var started := [Started(unique, stats)];
      agg := Apply(UNBORN, started[0]);
      FoldOne(UNBORN, started[0]);
      facts := started;
      if |unique| == 0 {
        agg, facts := RecordClosed(agg, started, UNBORN);
      } else {
        assert started + [] == started;
      }
    }

    /** One command on a copy of the aggregate: nothing when no artist is news. */
    method RecordCommand(copy: Batch, artists: seq<string>) returns (agg: Batch, facts: seq<Fact>)
      ensures facts == Recorded(copy, artists) && agg == FoldFrom(copy, facts)
    {
      agg, facts := RecordCompletions(copy, artists);
      if facts != [] {
        agg, facts := RecordClosed(agg, facts, copy);
      }
    }

    /** Growing a stream leaves cached copies copies. */
    lemma CacheSurvives(before: map<string, seq<Fact>>)
      requires cachedAgg.Some? ==> cachedID in before && IsCopy(before[cachedID], cachedAgg.value)
      requires forall id :: id in before ==> id in logs && before[id] <= logs[id]
      ensures CacheOk()
    {
      if cachedAgg.Some? {
        var log := before[cachedID];
        assert logs[cachedID] == log + logs[cachedID][|log|..];
        CopySurvives(log, logs[cachedID][|log|..], cachedAgg.value);
      }
    }

    /** A conflict means that the stream exists: another call began it, or this
        one did and lost track of that. */
    method AppendStarted(id: string, artists: seq<string>, stats: map<string, int>)
      returns (result: LogResult, ghost k: nat, ghost late: bool)
      requires CacheOk() && (id in logs ==> logs[id] != [])
      modifies `logs, `flights, `cachedID, `cachedAgg
      ensures CacheOk()
      ensures k <= |Birth(artists, stats)| && (result.Appended? ==> k == |Birth(artists, stats)|)
              && (late ==> k < |Birth(artists, stats)|)
      ensures id in old(logs) ==> !result.Appended? && k == 0 && !late && (reliable ==> result.Conflict?)
      ensures id !in old(logs) && result.Conflict? ==> k > 0
      ensures reliable ==> !result.LogFailed? && !late && (id !in old(logs) ==> result.Appended?)
      ensures logs == if k == 0 then old(logs) else old(logs)[id := Birth(artists, stats)[..k]]
      ensures flights == old(flights) + Late(id, 0, k, Birth(artists, stats), late)
    {
      var agg, facts := NewBatch(artists, stats);
      assert id in logs ==> logs[id] + [] == logs[id];
      result, k, late := AppendFacts(id, 0, facts);
      CacheSurvives(old(logs));
      if result.Appended? {
        cachedID, cachedAgg := id, Some(agg);
        assert facts[..k] == facts;
        FoldIsCopy(facts);
      }
    }

    method Replay(stream: seq<Fact>) returns (agg: Batch)
      ensures agg == Fold(stream)
    {
      agg := UNBORN;
      for i := 0 to |stream|
        invariant agg == Fold(stream[..i])
      {
        assert stream[..i + 1][..i] == stream[..i];
        agg := Apply(agg, stream[i]);
      }
      assert stream[..|stream|] == stream;
    }

    /** The members of a row, listed. */
    method MemberIDs(batch: string) returns (order: seq<string>)
      requires batch in rows
      ensures Distinct(order) && Names(order) == rows[batch].members.Keys
    {
      order := [];
      var left := rows[batch].members.Keys;
      while left != {}
        invariant left <= rows[batch].members.Keys && Names(order) == rows[batch].members.Keys - left
        invariant Distinct(order)
      {
        var a :| a in left;
        OneMoreName(order, a);
        order, left := order + [a], left - {a};
      }
    }

    /** A batch born before the log gets a stream from its row. A conflict
        means that the stream exists by now. */
    method SeedStreamFromProjection(batch: string) returns (ok: bool)
      requires batch !in logs && CacheOk()
      modifies `logs, `flights
      ensures CacheOk()
      ensures Seeded(old(logs), old(flights), rows, batch, logs, flights)
      ensures ok ==> batch in logs && logs[batch] != []
      ensures reliable && batch in rows ==> ok
    {
      if batch !in rows {
        return false;
      }
      var order := MemberIDs(batch);
      var agg, facts := NewBatch(order, rows[batch].stats);
      var result;
      ghost var k, late;
      result, k, late := AppendFacts(batch, 0, facts);
      CacheSurvives(old(logs));
      assert SeededTo(old(logs), old(flights), rows[batch], batch, order, k, late, logs, flights);
      ok := !result.LogFailed?;
    }

    method LoadAggregate(batch: string) returns (agg: Option<Batch>)
      requires (batch in logs ==> logs[batch] != []) && CacheOk()
      modifies `logs, `flights
      ensures CacheOk() && (batch in logs ==> logs[batch] != [])
      ensures batch in old(logs) ==> logs == old(logs) && flights == old(flights)
      ensures batch !in old(logs) ==> Seeded(old(logs), old(flights), rows, batch, logs, flights)
      ensures agg.Some? ==> batch in logs && agg.value == Fold(logs[batch])
      ensures reliable && (batch in old(logs) || batch in rows) ==> agg.Some?
    {
      if batch !in logs {
        var ok := SeedStreamFromProjection(batch);
        if !ok {
          return None;
        }
      }
      var loadFails: bool := *;
      if !reliable && loadFails {
        return None;
      }
      var replayed := Replay(logs[batch]);
      agg := Some(replayed);
    }

    /** The path that reloads the stream first, seeding it when there is none;
        `k` facts of the command's `news` end up in the stream. */
    method AppendReloaded(batch: string, artists: seq<string>)
      returns (ok: bool, ghost loaded: map<string, seq<Fact>>, ghost begun: set<Flight>, ghost news: seq<Fact>,
        ghost k: nat, ghost late: bool)
      requires (batch in logs ==> logs[batch] != []) && CacheOk()
      modifies `logs, `flights, `cachedID, `cachedAgg
      ensures CacheOk()
      ensures batch in old(logs) ==> loaded == old(logs) && begun == old(flights)
      ensures batch !in old(logs) ==> Seeded(old(logs), old(flights), rows, batch, loaded, begun)
      ensures batch !in loaded ==> !ok && logs == loaded && flights == begun
      ensures batch in loaded ==>
                && news == Recorded(Fold(loaded[batch]), artists) && k <= |news| && (ok ==> k == |news|)
                   && (late ==> k < |news|)
                && logs == loaded[batch := loaded[batch] + news[..k]]
                && flights == begun + Late(batch, |loaded[batch]|, k, news, late)
      ensures reliable && (batch in old(logs) || batch in rows) ==> ok
    {
      var agg := LoadAggregate(batch);
      loaded, begun, news, k, late := logs, flights, [], 0, false;
      if agg.None? {
        if batch in logs {
          news := Recorded(Fold(logs[batch]), artists);
          NothingAppended(logs, flights, batch, news);
        }
        return false, loaded, begun, news, 0, false;
      }
      ok, news, k, late := AppendLoaded(batch, agg.value, artists);
    }

    /** The command on the reloaded aggregate. */
    method AppendLoaded(batch: string, agg: Batch, artists: seq<string>)
      returns (ok: bool, ghost news: seq<Fact>, ghost k: nat, ghost late: bool)
      requires batch in logs && logs[batch] != [] && agg == Fold(logs[batch]) && CacheOk()
      modifies `logs, `flights, `cachedID, `cachedAgg
      ensures CacheOk()
      ensures news == Recorded(Fold(old(logs)[batch]), artists) && k <= |news| && (ok ==> k == |news|)
              && (late ==> k < |news|)
      ensures logs == old(logs)[batch := old(logs)[batch] + news[..k]]
      ensures flights == old(flights) + Late(batch, |old(logs)[batch]|, k, news, late)
      ensures reliable ==> ok
    {
      news := Recorded(agg, artists);
      NothingAppended(logs, flights, batch, news);
      var base := |logs[batch]|;
      var after, facts := RecordCommand(agg, artists);
      if facts == [] {
        cachedID, cachedAgg := batch, Some(after);
        CopyAfter(logs[batch], []);
        return true, news, 0, false;
      }
      ok, k, late := AppendFresh(batch, base, after, facts);
    }

    /** The append of facts recorded on the whole stream. */
    method AppendFresh(batch: string, base: nat, agg: Batch, facts: seq<Fact>)
      returns (ok: bool, ghost k: nat, ghost late: bool)
      requires batch in logs && logs[batch] != [] && CacheOk() && facts != []
      requires base == |logs[batch]| && agg == FoldFrom(Fold(logs[batch]), facts)
      modifies `logs, `flights, `cachedID, `cachedAgg
      ensures CacheOk()
      ensures k <= |facts| && (ok ==> k == |facts|) && (late ==> k < |facts|)
      ensures logs == old(logs)[batch := old(logs)[batch] + facts[..k]]
      ensures flights == old(flights) + Late(batch, base, k, facts, late)
      ensures reliable ==> ok
    {
      ghost var log := logs[batch];
      var result;
      result, k, late := AppendFacts(batch, base, facts);
      ok := result.Appended?;
      CacheSurvives(old(logs));
      if ok {
        CopyAfter(log, facts);
        assert facts[..k] == facts;
        cachedID, cachedAgg := batch, Some(agg);
      }
    }

    /** The plain Append of facts recorded on the cached copy: it goes through
        only when the copy is the whole stream, and otherwise the cache is
        dropped. */
    method AppendOnCache(batch: string, base: nat, agg: Batch, facts: seq<Fact>)
      returns (settled: bool, ghost k: nat, ghost late: bool)
      requires batch in logs && logs[batch] != [] && facts != []
      requires base == |logs[batch]| ==> agg == FoldFrom(Fold(logs[batch]), facts)
      requires cachedID == batch
      modifies `logs, `flights, `cachedID, `cachedAgg
      ensures CacheOk()
      ensures k <= |facts| && (late ==> k < |facts|) && logs == old(logs)[batch := old(logs)[batch] + facts[..k]]
      ensures flights == old(flights) + Late(batch, base, k, facts, late)
      ensures settled ==> k == |facts|
      ensures base != |old(logs)[batch]| ==> k == 0 && !settled && !late
      ensures reliable && base == |old(logs)[batch]| ==> settled
    {
      ghost var log := logs[batch];
      var result;
      result, k, late := AppendFacts(batch, base, facts);
      settled := result.Appended?;
      if settled {
        CopyAfter(log, facts);
        assert facts[..k] == facts;
        cachedAgg := Some(agg);
      } else {
        cachedID, cachedAgg := "", None;
      }
    }

    /** The path that trusts the cached aggregate; `k` facts of the command's
        `news` end up in the stream. */
    method AppendCached(batch: string, artists: seq<string>)
      returns (settled: bool, ghost news: seq<Fact>, ghost k: nat, ghost late: bool)
      requires batch in logs && Begun(logs[batch]) && CacheOk()
      requires cachedID == batch && cachedAgg.Some?
      modifies `logs, `flights, `cachedID, `cachedAgg
      ensures CacheOk()
      ensures news == Recorded(Fold(old(logs)[batch]), artists) && k <= |news| && (late ==> k < |news|)
      ensures logs == old(logs)[batch := old(logs)[batch] + news[..k]]
      ensures flights == old(flights) + Late(batch, |old(logs)[batch]|, k, news, late)
      ensures settled ==> k == |news|
      ensures reliable && !settled ==> k == 0
    {
      ghost var copy, log := cachedAgg.value, logs[batch];
      assert log + [] == log;
      FullCopy(log, copy);
      news, k, late := Recorded(Fold(log), artists), 0, false;
      var base := cachedAgg.value.version;
      var agg, facts := RecordCommand(cachedAgg.value, artists);
      if facts == [] {
        OldNewsStaysOld(log, copy, artists);
        return true, news, 0, false;
      }
      settled, k, late := AppendOnCache(batch, base, agg, facts);
    }

    /** The reload after a cached attempt that stored `first` facts. */
    method AppendAgain(batch: string, artists: seq<string>, ghost before: map<string, seq<Fact>>,
        ghost start: set<Flight>, ghost news: seq<Fact>, ghost first: nat, ghost lateFirst: bool)
      returns (ok: bool, ghost outcome: Outcome, ghost late: bool)
      requires batch in before && before[batch] != [] && news == Recorded(Fold(before[batch]), artists)
      requires first <= |news| && (lateFirst ==> first < |news|)
      requires logs == before[batch := before[batch] + news[..first]] && CacheOk()
      requires flights == start + Late(batch, |before[batch]|, first, news, lateFirst)
      modifies `logs, `flights, `cachedID, `cachedAgg
      ensures CacheOk()
      ensures CameTo(before, start, batch, artists, logs, flights, outcome, late)
      ensures ok <==> !outcome.Broken?
      ensures reliable ==> ok && (first == 0 ==> outcome == Whole)
    {
      ghost var middle, begun, more, second, lateSecond;
      ok, middle, begun, more, second, lateSecond := AppendReloaded(batch, artists);
      outcome, late := TwoTries(before, start, batch, artists, news, first, lateFirst, middle, begun,
        more, second, lateSecond, ok, logs, flights);
    }

    /** The reload when there is no stream yet, and hence no cached copy of it. */
    method AppendSeeded(batch: string, artists: seq<string>)
      returns (ok: bool, ghost loaded: map<string, seq<Fact>>, ghost begun: set<Flight>, ghost outcome: Outcome,
        ghost late: bool)
      requires batch !in logs && CacheOk()
      modifies `logs, `flights, `cachedID, `cachedAgg
      ensures CacheOk()
      ensures Seeded(old(logs), old(flights), rows, batch, loaded, begun)
      ensures batch !in loaded ==> !ok && logs == loaded && flights == begun
      ensures batch in loaded ==>
                CameTo(loaded, begun, batch, artists, logs, flights, outcome, late) && (ok <==> !outcome.Broken?)
      ensures reliable && batch in rows ==> batch in loaded && outcome == Whole
    {
      ghost var news, k;
      ok, loaded, begun, news, k, late := AppendReloaded(batch, artists);
      outcome := Broken(0);
      if batch in loaded {
        outcome, late := OneTry(loaded, begun, batch, artists, news, k, late, ok, logs, flights);
      }
    }

    /** Log one command's completions: from the cached aggregate when the batch
        is cached and nobody else wrote, otherwise from the reloaded stream,
        seeded first if there is none. Either way the stream gains what one
        outcome of the command stores. */
    method AppendCompletions(batch: string, artists: seq<string>)
      returns (ok: bool, ghost loaded: map<string, seq<Fact>>, ghost begun: set<Flight>, ghost outcome: Outcome,
        ghost late: bool)
      requires (batch in logs ==> Begun(logs[batch])) && CacheOk()
      modifies `logs, `flights, `cachedID, `cachedAgg
      ensures CacheOk()
      ensures batch in old(logs) || artists == [] ==> loaded == old(logs) && begun == old(flights)
      ensures batch !in old(logs) && artists != [] ==> Seeded(old(logs), old(flights), rows, batch, loaded, begun)
      ensures batch !in loaded ==> logs == loaded && flights == begun && (ok <==> artists == [])
      ensures batch in loaded ==>
                CameTo(loaded, begun, batch, artists, logs, flights, outcome, late) && (ok <==> !outcome.Broken?)
      ensures reliable && (batch in old(logs) || batch in rows) ==> ok && outcome == Whole
    {
      loaded, begun := logs, flights;
      if artists == [] {
        if batch in logs {
          NoCommand(logs, flights, batch);
        }
        return true, loaded, begun, Whole, false;
      }
      if batch !in logs {
        ok, loaded, begun, outcome, late := AppendSeeded(batch, artists);
      } else {
        ok, outcome, late := AppendLogged(batch, artists);
      }
    }

    /** The two attempts on a stream that has begun. */
    method AppendLogged(batch: string, artists: seq<string>)
      returns (ok: bool, ghost outcome: Outcome, ghost late: bool)
      requires batch in logs && Begun(logs[batch]) && CacheOk()
      modifies `logs, `flights, `cachedID, `cachedAgg
      ensures CacheOk()
      ensures CameTo(old(logs), old(flights), batch, artists, logs, flights, outcome, late)
      ensures ok <==> !outcome.Broken?
      ensures reliable ==> outcome == Whole
    {
      ghost var log := logs[batch];
      ghost var news, first, lateFirst := Recorded(Fold(log), artists), 0, false;
      assert log + news[..0] == log && flights + {} == flights;
      if cachedID == batch && cachedAgg.Some? {
        var settled;
        settled, news, first, lateFirst := AppendCached(batch, artists);
        if settled {
          assert news[..first] == news && flights + {} == flights;
          AllAtOnce(old(logs), flights, batch, artists, news, logs);
          return true, Whole, false;
        }
      }
      ok, outcome, late := AppendAgain(batch, artists, old(logs), old(flights), news, first, lateFirst);
    }

    // ---------------------------------------------------------- the tables

    /** INSERT OR IGNORE, member by member. */
    method InsertMembers(id: string, artists: seq<string>)
      requires id in rows
      modifies `rows
      ensures var row := old(rows)[id];
              rows == old(rows)[id := row.(members := FreshMembers(artists) + row.members)]
    {
      ghost var was := rows;
      for i := 0 to |artists|
        invariant id in rows && rows == was[id := rows[id]]
        invariant rows[id] == was[id].(members := FreshMembers(artists[..i]) + was[id].members)
      {
        OneMoreMember(artists, i, was[id].members);
        if artists[i] !in rows[id].members {
          rows := rows[id := rows[id].(members := rows[id].members[artists[i] := false])];
        }
      }
      assert artists[..|artists|] == artists;
    }

    /** Start's transaction. */
    method InsertBatch(id: string, artists: seq<string>, stats: map<string, int>, expired: set<string>)
      modifies `rows
      ensures rows == Prune(Insert(old(rows), id, artists, stats), expired)
      ensures forall b :: b in old(rows) && b != id ==>
                (b in rows <==> !(b in expired && old(rows)[b].done)) && (b in rows ==> rows[b] == old(rows)[b])
    {
      if id !in rows {
        rows := rows[id := Row(|artists|, 0, |artists| == 0, stats, map[])];
        assert FreshMembers(artists) + map[] == FreshMembers(artists);
      }
      InsertMembers(id, artists);
      assert rows == old(rows)[id := rows[id]];
      rows := Prune(rows, expired);
    }

    /** The two counting statements that close a completion. */
    method RecomputeRow(batch: string)
      requires batch in rows
      modifies `rows
      ensures rows == old(rows)[batch := Recompute(old(rows)[batch])]
    {
      rows := rows[batch := rows[batch].(completed := CountDone(rows[batch].members))];
      if rows[batch].total > 0 && rows[batch].completed >= rows[batch].total {
        rows := rows[batch := rows[batch].(done := true)];
      }
      assert rows == old(rows)[batch := rows[batch]];
    }

    /** CompleteArtist's transaction. */
    method MarkMemberDone(batch: string, artist: string)
      modifies `rows
      ensures rows == MarkMember(old(rows), batch, artist)
    {
      if batch in rows {
        if artist in rows[batch].members && !rows[batch].members[artist] {
          rows := rows[batch := rows[batch].(members := rows[batch].members[artist := true])];
        }
        ghost var members := old(rows)[batch].members;
        assert artist in members ==> rows[batch].members == members[artist := true];
        RecomputeRow(batch);
        assert rows == old(rows)[batch := rows[batch]];
      }
    }

    /** Reconcile's read transaction. */
    method SelectFlips() returns (flips: seq<Flip>)
      ensures forall f :: f in flips <==> Selectable(rows, pending, f)
      ensures forall f: Flip :: f in flips <==>
                f.batch in rows && !rows[f.batch].done && f.artist in rows[f.batch].members
                && !rows[f.batch].members[f.artist] && f.artist !in pending
      ensures forall i, j :: 0 <= i < j < |flips| ==> flips[i] != flips[j]
    {
      flips := [];
      var found := SelectableFlips(rows, pending);
      while found != {}
        invariant forall f :: f in flips || f in found <==> Selectable(rows, pending, f)
        invariant forall f :: f in flips ==> f !in found
        invariant forall i, j :: 0 <= i < j < |flips| ==> flips[i] != flips[j]
      {
        var f :| f in found;
        flips, found := flips + [f], found - {f};
      }
    }

    /** Reconcile's write transaction: the flips one by one, then the counts
        and the flags of all unfinished batches. */
    method WriteFlips(flips: seq<Flip>)
      modifies `rows
      ensures rows == ApplyFlips(old(rows), Flips(flips))
    {
      ghost var before := rows;
      NoFlip(before);
      assert Flips(flips[..0]) == {};
      for i := 0 to |flips|
        invariant rows == Flipped(before, Flips(flips[..i]))
      {
        var f := flips[i];
        OneMoreFlip(before, Flips(flips[..i]), f);
        assert Flips(flips[..i + 1]) == Flips(flips[..i]) + {f};
        if f.batch in rows && f.artist in rows[f.batch].members && !rows[f.batch].members[f.artist] {
          rows := rows[f.batch := rows[f.batch].(members := rows[f.batch].members[f.artist := true])];
        }
      }
      assert flips[..|flips|] == flips;
      RecomputeOpen();
      FlipsRecomputed(before, Flips(flips));
    }

    method RecomputeOpen()
      modifies `rows
      ensures rows == Recomputed(old(rows))
    {
      rows := map id | id in rows ::
        if rows[id].done then rows[id] else rows[id].(completed := CountDone(rows[id].members));
      rows := map id | id in rows ::
        if !rows[id].done && rows[id].total > 0 && rows[id].completed >= rows[id].total
        then rows[id].(done := true) else rows[id];
    }

    /** The catch-up completions batch by batch, in the order of first mention. */
    method GroupByBatch(flips: seq<Flip>) returns (batchOrder: seq<string>, byBatch: map<string, seq<string>>)
      ensures forall i :: 0 <= i < |batchOrder| ==> batchOrder[i] in byBatch
      ensures InOrder(batchOrder, byBatch) == Grouped(flips)
    {
      batchOrder, byBatch := [], map[];
      for i := 0 to |flips|
        invariant forall k :: 0 <= k < |batchOrder| ==> batchOrder[k] in byBatch
        invariant forall id :: id in byBatch ==> id in batchOrder
        invariant forall k, l :: 0 <= k < l < |batchOrder| ==> batchOrder[k] != batchOrder[l]
        invariant InOrder(batchOrder, byBatch) == Grouped(flips[..i])
      {
        var f := flips[i];
        assert flips[..i + 1][..i] == flips[..i];
        AddsInOrder(batchOrder, byBatch, f);
        if f.batch !in byBatch {
          batchOrder, byBatch := batchOrder + [f.batch], byBatch[f.batch := []];
          assert [] + [f.artist] == [f.artist];
        }
        byBatch := byBatch[f.batch := byBatch[f.batch] + [f.artist]];
      }
      assert flips[..|flips|] == flips;
    }

    // --------------------------------------------------------- the commands

    /** The database or the context gives up; never in a reliable store. */
    method Fault() returns (fails: bool)
      ensures reliable ==> !fails
    {
      fails := *;
      if reliable {
        fails := false;
      }
    }

    ghost method Stop(o: nat)
      requires Valid() && o in ops && !reliable
      modifies `pruned, `ops, `flights, `history
      ensures Valid() && o !in ops && history == old(history) + [Crash(o)]
    {
      Record(Now(), Crash(o));
    }

    lemma StartedIsLogged(o: nat)
      requires Valid() && o in ops && ops[o].Starting?
      ensures var op := ops[o];
              && op.id in logs && op.id !in rows && op.id !in pruned
              && Fold(logs[op.id]).members.Keys == Names(op.artists) && Fold(logs[op.id]).stats == op.stats
    {
      RunKeepsInv(history);
      assert OpOk(Now(), ops[o]);
    }

    lemma HeldIsBegun(o: nat, f: Flip)
      requires Valid() && o in ops && Holds(ops[o], f)
      ensures f.batch in logs && Begun(logs[f.batch])
    {
      RunKeepsInv(history);
      assert OpOk(Now(), ops[o]);
    }

    method LogStart(o: nat, id: string, artists: seq<string>, stats: map<string, int>) returns (ok: bool)
      requires Valid() && Enabled(Now(), BeginStart(o, id, artists, stats, Whole, false))
      modifies this
      ensures Valid() && old(history) <= history && rows == old(rows) && pending == old(pending)
      ensures if ok then o in ops && ops[o] == Starting(id, artists, stats) else o !in ops
      ensures reliable ==> ok && logs == if id in old(logs) then old(logs) else old(logs)[id := Birth(artists, stats)]
    {
      ghost var was := Now();
      ghost var birth := Birth(artists, stats);
      var result;
      ghost var k, late;
      result, k, late := AppendStarted(id, artists, stats);
      ok := !result.LogFailed?;
      assert birth[..|birth|] == birth;
      if id in was.logs {
        assert flights == was.flights;
        if ok {
          Record(was, BeginStart(o, id, artists, stats, Whole, false));
        }
      } else {
        BirthStep(was, o, id, artists, stats, k, ok, late);
        Record(was, BeginStart(o, id, artists, stats, BirthOutcome(k, birth, ok), late));
      }
    }

    method WriteStart(o: nat, id: string, artists: seq<string>, stats: map<string, int>, expired: set<string>)
      requires Valid() && o in ops && ops[o] == Starting(id, artists, stats)
      modifies this
      ensures Valid() && old(history) <= history && o !in ops && logs == old(logs) && pending == old(pending)
      ensures id in logs && (id in rows || id in pruned)
      ensures rows == Prune(Insert(old(rows), id, artists, stats), expired)
      ensures id in rows ==> rows[id] == Row(|artists|, 0, artists == [], stats, FreshMembers(artists))
      ensures Fold(logs[id]).members.Keys == Names(artists) && Fold(logs[id]).stats == stats
    {
      ghost var was := Now();
      StartedIsLogged(o);
      InsertBatch(id, artists, stats, expired);
      Record(was, FinishStart(o, expired));
    }

    /** A new batch: its stream is of these artists and stats, and its row, unless
        it was pruned at once, holds them all, unfinished. */
    method Start(o: nat, id: string, artists: seq<string>, stats: map<string, int>, expired: set<string>)
      returns (ok: bool)
      requires Valid() && o !in ops
      requires !Blank(id) ==> Enabled(Now(), BeginStart(o, id, artists, stats, Whole, false))
      modifies this
      ensures Valid() && old(history) <= history && o !in ops
      ensures ok ==> !Blank(id) && id in logs && (id in rows || id in pruned)
      ensures ok ==> Fold(logs[id]).members.Keys == Names(artists) && Fold(logs[id]).stats == stats
      ensures ok && id in rows ==> rows[id] == Row(|artists|, 0, artists == [], stats, FreshMembers(artists))
      ensures reliable && ok && id !in old(logs) ==> Birth(artists, stats) <= logs[id]
      ensures quiet && ok ==> rows == Prune(Insert(old(rows), id, artists, stats), expired)
      ensures quiet && reliable && ok ==>
                logs == if id in old(logs) then old(logs) else old(logs)[id := Birth(artists, stats)]
      ensures quiet && !ok ==> rows == old(rows)
      ensures reliable && !Blank(id) ==> ok
    {
      if Blank(id) {
        return false;
      }
      ok := LogStart(o, id, artists, stats);
      if !ok {
        return;
      }
      ghost var logged := history;
      Elsewhere(o);
      StillSo(logged, Flip(id, ""));
      var fails := Fault();
      if fails {
        Stop(o);
        return false;
      }
      WriteStart(o, id, artists, stats, expired);
    }

    /** The same call for a batch that is live, with artists it has, while nobody
        prunes its row: the log answers with a conflict, and the tables stay as
        they are but for the prune. */
    method StartAgain(id: string, artists: seq<string>, stats: map<string, int>, expired: set<string>)
      returns (ok: bool)
      requires Valid() && !Blank(id) && Enabled(Now(), Restart(id, artists, stats, expired))
      modifies this
      ensures Valid() && old(history) <= history && logs == old(logs) && ops == old(ops)
      ensures rows == if ok then Prune(old(rows), expired) else old(rows)
      ensures reliable ==> ok
    {
      ghost var was := Now();
      LiveIsLogged(id);
      var result;
      ghost var k, late;
      result, k, late := AppendStarted(id, artists, stats);
      assert flights == was.flights;
      var fails := Fault();
      if result.LogFailed? || fails {
        return false;
      }
      InsertBatch(id, artists, stats, expired);
      RestartIsPrune(was, Restart(id, artists, stats, expired));
      Record(was, Restart(id, artists, stats, expired));
      ok := true;
    }

    lemma LiveIsLogged(id: string)
      requires Valid() && id in rows
      ensures id in logs && logs[id] != []
    {
      RunKeepsInv(history);
      assert SameMembers(Now(), id);
    }

    /** The batches that still wait for the artist. */
    function OpenBatches(artist: string): set<string>
      reads `rows
    {
      set id | id in rows && !rows[id].done && artist in rows[id].members && !rows[id].members[artist]
    }

    /** The open batch of the artist that was updated last, in the table's own
        strict order (`newer`). */
    method FindOpenBatch(o: nat, artist: string, newer: (string, string) -> bool) returns (batch: Option<string>)
      requires Valid() && o !in ops && Sorting.StrictOn(OpenBatches(artist), newer)
      modifies this
      ensures Valid() && old(history) <= history
      ensures logs == old(logs) && rows == old(rows) && pending == old(pending)
      ensures batch.None? <==> OpenBatches(artist) == {}
      ensures batch.None? ==> history == old(history) && ops == old(ops)
      ensures batch.Some? ==> o in ops && ops[o] == Found(Flip(batch.value, artist))
      ensures batch.Some? ==> Latest(OpenBatches(artist), newer, batch.value)
      ensures batch.Some? ==> Known(Now(), Flip(batch.value, artist)) && MemberOrGone(Now(), Flip(batch.value, artist))
    {
      var open := OpenBatches(artist);
      if open == {} {
        return None;
      }
      ghost var first := Sorting.FirstOf(open, newer);
      var id :| id in open && forall x :: x in open && x != id ==> newer(id, x);
      Record(Now(), Find(o, Flip(id, artist)));
      LiveMember(history, Flip(id, artist));
      batch := Some(id);
    }

    method LogCompletion(o: nat, batch: string, artist: string) returns (ok: bool)
      requires Valid() && o in ops && ops[o] == Found(Flip(batch, artist)) && Known(Now(), Flip(batch, artist))
      modifies this
      ensures Valid() && old(history) <= history && rows == old(rows) && pending == old(pending)
      ensures if ok then o in ops && ops[o] == Op.Logged(Flip(batch, artist)) else o !in ops
      ensures ok ==> LogSays(Now(), Flip(batch, artist))
      ensures reliable ==> ok && Gained(old(logs), logs, batch, [artist])
    {
      ghost var was := Now();
      HeldIsBegun(o, Flip(batch, artist));
      ghost var loaded, begun, outcome, late;
      ok, loaded, begun, outcome, late := AppendCompletions(batch, [artist]);
      Record(was, LogFound(o, outcome, late));
      if ok {
        AppendIsSaid(was, Group(batch, [artist]), outcome, Flip(batch, artist));
      }
    }

    method WriteCompletion(o: nat, batch: string, artist: string)
      requires Valid() && o in ops && ops[o] == Op.Logged(Flip(batch, artist))
               && MemberOrGone(Now(), Flip(batch, artist)) && LogSays(Now(), Flip(batch, artist))
      modifies this
      ensures Valid() && old(history) <= history && o !in ops
      ensures logs == old(logs) && rows == MarkMember(old(rows), batch, artist) && pending == old(pending)
      ensures LogSays(Now(), Flip(batch, artist)) && DoneOrGone(Now(), Flip(batch, artist))
    {
      ghost var was := Now();
      MarkMemberDone(batch, artist);
      Record(was, MarkLogged(o));
    }

    /** An artist that is done fetching finishes in the latest batch that waits
        for it, if there is one: the log says so, and so does the row, unless it
        was pruned. */
    method CompleteArtist(o: nat, artist: string, fetchStatus: string, newer: (string, string) -> bool)
      returns (c: Completion)
      requires Valid() && o !in ops && Sorting.StrictOn(OpenBatches(artist), newer)
      modifies this
      ensures Valid() && old(history) <= history && o !in ops
      ensures Blank(artist) || (fetchStatus != "idle" && fetchStatus != "failed") ==> c.Nothing?
      ensures !Blank(artist) && (fetchStatus == "idle" || fetchStatus == "failed") && !c.Failed? ==>
                (c.Nothing? <==> old(OpenBatches(artist)) == {})
      ensures forall b :: b in old(OpenBatches(artist)) <==>
                b in old(rows) && !old(rows)[b].done && artist in old(rows)[b].members && !old(rows)[b].members[artist]
      ensures c.Nothing? ==> history == old(history)
      ensures reliable ==> !c.Failed?
      ensures c.CompletedIn? ==>
                c.batch in old(OpenBatches(artist))
                && forall b :: b in old(OpenBatches(artist)) && b != c.batch ==> newer(c.batch, b)
      ensures c.CompletedIn? ==> LogSays(Now(), Flip(c.batch, artist)) && DoneOrGone(Now(), Flip(c.batch, artist))
      ensures quiet && c.CompletedIn? ==> rows == MarkMember(old(rows), c.batch, artist)
      ensures quiet && reliable && c.CompletedIn? ==> Gained(old(logs), logs, c.batch, [artist])
      ensures quiet && c.Failed? ==> rows == old(rows)
    {
      if Blank(artist) || !IsCompletedStatus(fetchStatus) {
        return Nothing;
      }
      var fails := Fault();
      if fails {
        return Failed;
      }
      var found := FindOpenBatch(o, artist, newer);
      if found.None? {
        return Nothing;
      }
      c := CompleteIn(o, found.value, artist);
    }

    /** The rest of the call, for the batch found. */
    method CompleteIn(o: nat, batch: string, artist: string) returns (c: Completion)
      requires Valid() && o in ops && ops[o] == Found(Flip(batch, artist))
      requires Known(Now(), Flip(batch, artist)) && MemberOrGone(Now(), Flip(batch, artist))
      modifies this
      ensures Valid() && old(history) <= history && o !in ops
      ensures !c.Nothing? && (reliable ==> !c.Failed?) && (c.CompletedIn? ==> c.batch == batch)
      ensures c.CompletedIn? ==> LogSays(Now(), Flip(batch, artist)) && DoneOrGone(Now(), Flip(batch, artist))
      ensures quiet && c.CompletedIn? ==> rows == MarkMember(old(rows), batch, artist)
      ensures quiet && reliable ==> Gained(old(logs), logs, batch, [artist])
      ensures quiet && c.Failed? ==> rows == old(rows)
    {
      ghost var found := history;
      Elsewhere(o);
      StillSo(found, Flip(batch, artist));
      var ok := LogCompletion(o, batch, artist);
      if !ok {
        return Failed;
      }
      ghost var logged := history;
      StillSo(found, Flip(batch, artist));
      Elsewhere(o);
      StillSo(logged, Flip(batch, artist));
      var fails := Fault();
      if fails {
        Stop(o);
        return Failed;
      }
      WriteCompletion(o, batch, artist);
      c := CompletedIn(batch);
    }

    method SelectReconciled(o: nat) returns (flips: seq<Flip>)
      requires Valid() && o !in ops
      modifies this
      ensures Valid() && logs == old(logs) && rows == old(rows) && pending == old(pending)
      ensures Flips(flips) == SelectableFlips(rows, pending) && |flips| == |SelectableFlips(rows, pending)|
      ensures if flips == [] then history == old(history) && o !in ops && ops == old(ops)
              else o in ops && ops[o] == Selected(flips) && history == old(history) + [Select(o, flips)]
      ensures flips != [] ==> Enabled(old(Now()), Select(o, flips))
      ensures forall f :: f in flips ==> Known(Now(), f) && MemberOrGone(Now(), f)
    {
      flips := SelectFlips();
      EachOnce(flips);
      assert Flips(flips) == SelectableFlips(rows, pending);
      if |flips| > 0 {
        Record(Now(), Select(o, flips));
        forall f | f in flips ensures Known(Now(), f) && MemberOrGone(Now(), f) {
          LiveMember(history, f);
        }
      }
    }

    method WriteReconciled(o: nat, flips: seq<Flip>)
      requires Valid() && o in ops && ops[o] == Selected(flips)
      requires forall f :: f in flips ==> Known(Now(), f) && MemberOrGone(Now(), f)
      modifies this
      ensures Valid() && history == old(history) + [FlipSelected(o)]
      ensures logs == old(logs) && rows == ApplyFlips(old(rows), Flips(flips)) && pending == old(pending)
      ensures o in ops && ops[o] == Owing(Grouped(flips))
      ensures forall f :: f in flips ==> Known(Now(), f) && DoneOrGone(Now(), f)
    {
      ghost var was := Now();
      WriteFlips(flips);
      Record(was, FlipSelected(o));
      forall f | f in flips ensures DoneOrGone(Now(), f) {
        assert MemberOrGone(was, f);
      }
    }

    method LogReconciled(o: nat, batch: string, artists: seq<string>, ghost todo: seq<Group>)
      returns (ok: bool, ghost a: Action)
      requires Valid() && o in ops && ops[o] == Owing(todo) && todo != [] && todo[0] == Group(batch, artists)
      modifies this
      ensures Valid() && history == old(history) + [a] && rows == old(rows) && pending == old(pending)
      ensures if ok && |todo| > 1 then o in ops && ops[o] == Owing(todo[1..]) else o !in ops
      ensures reliable ==> ok
      ensures ok ==> MayHappen(a, o)
      ensures ok ==> forall artist :: artist in artists && Known(old(Now()), Flip(batch, artist)) ==>
                LogSays(Now(), Flip(batch, artist))
    {
      ghost var was := Now();
      OwedIsBegun(o, todo);
      ghost var loaded, begun, outcome, late;
      ok, loaded, begun, outcome, late := AppendCompletions(batch, artists);
      a := LogGroup(o, outcome, late);
      Record(was, a);
      if ok {
        forall artist | artist in artists && Known(was, Flip(batch, artist))
          ensures LogSays(Now(), Flip(batch, artist))
        {
          AppendIsSaid(was, todo[0], outcome, Flip(batch, artist));
        }
      }
    }

    lemma OwedIsBegun(o: nat, todo: seq<Group>)
      requires Valid() && o in ops && ops[o] == Owing(todo) && todo != []
      ensures todo[0].batch in logs && Begun(logs[todo[0].batch])
    {
      RunKeepsInv(history);
      assert todo[0].artists[0] in todo[0].artists;
      HeldIsBegun(o, Flip(todo[0].batch, todo[0].artists[0]));
    }

    /** At rest after a run that hit Start and CompleteArtist at most, with the
        artists left behind no longer pending. */
    ghost predicate Mendable()
      reads this
    {
      && RunsFrom(NOBODY, history) && HealableRun(history) && ops == map[]
      && forall f :: f in AllVictims(history) && IsMember(Now(), f) ==> f.artist !in pending
    }

    /** Success: every member that was selectable is done in the log, and in the
        table unless its row was pruned, and the result counts them. Undisturbed,
        a store that can be mended has its rows as the folds of their streams. */
    method Reconcile(o: nat) returns (flipped: nat, ok: bool)
      requires Valid() && o !in ops
      modifies this
      ensures Valid() && old(history) <= history && o !in ops
      ensures reliable ==> ok
      ensures flipped == 0 || flipped == |SelectableFlips(old(rows), old(pending))|
      ensures ok ==> flipped == |SelectableFlips(old(rows), old(pending))|
      ensures ok ==> forall f :: Selectable(old(rows), old(pending), f) ==> LogSays(Now(), f) && DoneOrGone(Now(), f)
      ensures quiet ==> pending == old(pending)
      ensures quiet ==>
                rows == if flipped == 0
                then old(rows) else ApplyFlips(old(rows), SelectableFlips(old(rows), old(pending)))
      ensures quiet && ok && old(Mendable()) ==> forall id :: id in rows ==> Matches(rows[id], AggregateOf(Now(), id))
    {
      flipped := 0;
      var fails := Fault();
      if fails {
        return 0, false;
      }
      var flips := SelectReconciled(o);
      if |flips| == 0 {
        NothingSelectable(rows, pending);
        if Mendable() {
          MendedAlready();
        }
        return 0, true;
      }
      var written;
      ghost var rest;
      written, ok, rest := FlipAndLog(o, flips);
      flipped := if written then |flips| else 0;
      if quiet && ok && old(Mendable()) {
        Mended(old(history), o, flips, rest);
      }
    }

    /** The two writing parts of the call, for the members selected. */
    method FlipAndLog(o: nat, flips: seq<Flip>) returns (written: bool, ok: bool, ghost rest: seq<Action>)
      requires Valid() && flips != [] && o in ops && ops[o] == Selected(flips)
      requires forall f :: f in flips ==> Known(Now(), f) && MemberOrGone(Now(), f)
      modifies this
      ensures Valid() && old(history) <= history && o !in ops
      ensures (reliable ==> ok) && (ok ==> written)
      ensures ok ==> forall f :: f in flips ==> LogSays(Now(), f) && DoneOrGone(Now(), f)
      ensures quiet ==> pending == old(pending)
      ensures quiet ==> rows == if written then ApplyFlips(old(rows), Flips(flips)) else old(rows)
      ensures quiet && ok ==> history == old(history) + rest && Undisturbed(rest, o)
    {
      ghost var selected := history;
      rest := [];
      Elsewhere(o);
      StillSoAll(selected, flips);
      var fails := Fault();
      if fails {
        Stop(o);
        return false, false, [];
      }
      WriteReconciled(o, flips);
      ok, rest := LogFlips(o, flips);
      rest := [FlipSelected(o)] + rest;
      written := true;
    }

    /** The catch-up appends. */
    method LogFlips(o: nat, flips: seq<Flip>) returns (ok: bool, ghost rest: seq<Action>)
      requires Valid() && flips != [] && o in ops && ops[o] == Owing(Grouped(flips))
      requires forall f :: f in flips ==> Known(Now(), f) && DoneOrGone(Now(), f)
      modifies this
      ensures Valid() && old(history) <= history && o !in ops
      ensures reliable ==> ok
      ensures ok ==> forall f :: f in flips ==> LogSays(Now(), f) && DoneOrGone(Now(), f)
      ensures quiet ==> rows == old(rows) && pending == old(pending)
      ensures quiet && ok ==> history == old(history) + rest && Undisturbed(rest, o)
    {
      var batchOrder, byBatch := GroupByBatch(flips);
      GroupedSomething(flips);
      ok, rest := LogAll(o, batchOrder, byBatch, flips);
      if ok {
        forall f | f in flips ensures LogSays(Now(), f) {
          GroupedOwes(flips, f);
        }
      }
    }

    method LogAll(o: nat, batchOrder: seq<string>, byBatch: map<string, seq<string>>, ghost flips: seq<Flip>)
      returns (ok: bool, ghost rest: seq<Action>)
      requires forall i :: 0 <= i < |batchOrder| ==> batchOrder[i] in byBatch
      requires InOrder(batchOrder, byBatch) == Grouped(flips)
      requires Valid() && batchOrder != [] && o in ops && ops[o] == Owing(InOrder(batchOrder, byBatch))
      requires forall f :: f in flips ==> Known(Now(), f) && DoneOrGone(Now(), f)
      modifies this
      ensures Valid() && old(history) <= history && o !in ops
      ensures reliable ==> ok
      ensures ok ==> forall f :: Owes(Grouped(flips), f) ==> LogSays(Now(), f)
      ensures forall f :: f in flips ==> DoneOrGone(Now(), f)
      ensures quiet ==> rows == old(rows) && pending == old(pending)
      ensures quiet && ok ==> history == old(history) + rest && Undisturbed(rest, o)
    {
      ghost var groups := InOrder(batchOrder, byBatch);
      rest := [];
      assert groups[0..] == groups && history + [] == history;
      for i := 0 to |batchOrder|
        invariant Valid() && old(history) <= history
        invariant if i < |batchOrder| then o in ops && ops[o] == Owing(groups[i..]) else o !in ops
        invariant forall f :: f in flips ==> Known(Now(), f) && DoneOrGone(Now(), f)
        invariant forall f :: Owes(groups[..i], f) ==> LogSays(Now(), f)
        invariant quiet ==> rows == old(rows) && pending == old(pending)
        invariant quiet ==> Traced(old(history), rest, o)
      {
        ghost var a;
        ghost var was := history;
        ok, a := LogNext(o, batchOrder[i], byBatch[batchOrder[i]], groups, i, flips);
        if !ok {
          return;
        }
        if quiet {
          OneMoreAction(old(history), was, rest, a, o);
        }
        rest := rest + [a];
      }
      assert groups[..|batchOrder|] == groups;
      ok := true;
    }

    /** Since `start` nothing happened but what an undisturbed operation lets happen. */
    ghost predicate Traced(start: seq<Action>, rest: seq<Action>, o: nat)
      reads `history
    {
      history == start + rest && Undisturbed(rest, o)
    }

    lemma OneMoreAction(start: seq<Action>, was: seq<Action>, rest: seq<Action>, a: Action, o: nat)
      requires was == start + rest && Undisturbed(rest, o) && MayHappen(a, o) && history == was + [a]
      ensures Traced(start, rest + [a], o)
    {
    }

    /** One batch's catch-up append, after whatever the others did. */
    method LogNext(o: nat, batch: string, artists: seq<string>, ghost groups: seq<Group>, ghost i: nat,
        ghost flips: seq<Flip>)
      returns (ok: bool, ghost a: Action)
      requires Valid() && groups == Grouped(flips) && i < |groups| && groups[i] == Group(batch, artists)
      requires o in ops && ops[o] == Owing(groups[i..])
      requires forall f :: f in flips ==> Known(Now(), f) && DoneOrGone(Now(), f)
      requires forall f :: Owes(groups[..i], f) ==> LogSays(Now(), f)
      modifies this
      ensures Valid() && old(history) <= history && (reliable ==> ok)
      ensures if ok && i + 1 < |groups| then o in ops && ops[o] == Owing(groups[i + 1..]) else o !in ops
      ensures forall f :: f in flips ==> Known(Now(), f) && DoneOrGone(Now(), f)
      ensures ok ==> forall f :: Owes(groups[..i + 1], f) ==> LogSays(Now(), f)
      ensures quiet ==> rows == old(rows) && pending == old(pending)
      ensures quiet && ok ==> MayHappen(a, o) && history == old(history) + [a]
    {
      ghost var before := history;
      Elsewhere(o);
      StillSoAll(before, flips);
      StillSaid(before, groups[..i]);
      var fails := Fault();
      if fails {
        ghost var still := history;
        Stop(o);
        StillSoAll(still, flips);
        return false, Crash(o);
      }
      ghost var after := history;
      NextGroupKnown(flips, i);
      ok, a := LogReconciled(o, batch, artists, groups[i..]);
      StillSoAll(after, flips);
      StillSaid(after, groups[..i]);
      if ok {
        forall f | Owes(groups[..i + 1], f) ensures LogSays(Now(), f) {
          OneMoreGroup(groups, i, f);
        }
      }
    }

    /** A reliable store at rest: every row is the fold of its stream. */
    lemma AtRestRowsAreFolds(id: string)
      requires Valid() && reliable && ops == map[] && id in rows
      ensures id in logs && Matches(rows[id], Fold(logs[id])) && ProjectAggregate(rows, id, Fold(logs[id])) == rows
    {
      RunKeepsInv(history);
      assert SameMembers(Now(), id);
      QuietTablesAreTheFold(history, id);
    }

    // ----------------------------------------------------- the replay path

    method ResetForReplay()
      modifies `rows, `cachedID, `cachedAgg
      ensures rows == map[] && cachedAgg == None && CacheOk()
    {
      cachedID, cachedAgg := "", None;
      rows := map[];
    }

    method UpsertMember(id: string, artist: string, done: bool)
      requires id in rows
      modifies `rows
      ensures rows == old(rows)[id := old(rows)[id].(members := old(rows)[id].members[artist := done])]
    {
      rows := rows[id := rows[id].(members := rows[id].members[artist := done])];
    }

    method UpsertMembers(id: string, members: map<string, bool>)
      requires id in rows
      modifies `rows
      ensures rows == old(rows)[id := old(rows)[id].(members := old(rows)[id].members + members)]
    {
      ghost var was, before, done := rows[id], rows, {};
      var left := members.Keys;
      NothingMerged(was.members, members);
      while left != {}
        invariant left <= members.Keys && done == members.Keys - left
        invariant rows == before[id := was.(members := Merged(was.members, members, done))]
      {
        var a :| a in left;
        OneMoreMerged(was.members, members, done, a);
        UpsertMember(id, a, members[a]);
        left, done := left - {a}, done + {a};
      }
      AllMerged(was.members, members, done);
    }

    /** The upsert of the row, then of its members one by one. */
    method Project(id: string, agg: Batch)
      modifies `rows
      ensures rows == ProjectAggregate(old(rows), id, agg)
    {
      var kept := if id in rows then rows[id].members else map[];
      rows := rows[id := Row(|agg.members|, Completed(agg), Done(agg), agg.stats, kept)];
      UpsertMembers(id, agg.members);
    }

    /** A full replay: whatever the tables held, every stream's row is the fold
        of the stream, and there are no others. In a store that never failed, at
        rest, the rows come back as they were, those that were pruned as well. */
    method ReplayAll()
      modifies `rows, `cachedID, `cachedAgg
      ensures CacheOk() && rows.Keys == logs.Keys
      ensures forall id :: id in logs ==> Matches(rows[id], Fold(logs[id])) && RowOk(rows[id])
      ensures old(Valid()) && reliable && ops == map[] ==>
                && (forall id :: id in old(rows) ==> id in rows && rows[id] == old(rows)[id])
                && (rows == old(rows) <==> forall id :: id in logs ==> id in old(rows))
    {
      ghost var before := rows;
      ghost var resting := Valid() && reliable && ops == map[];
      if resting {
        AllAtRest();
      }
      ResetForReplay();
      ProjectStreams();
      MatchingRowsAreOk(rows, logs);
      if resting {
        RowsComeBack(before, rows, logs);
      }
    }

    /** The replay of every stream into empty tables. */
    method ProjectStreams()
      requires rows == map[] && CacheOk()
      modifies `rows
      ensures rows.Keys == logs.Keys && forall id :: id in logs ==> Matches(rows[id], Fold(logs[id]))
    {
      var left := logs.Keys;
      while left != {}
        invariant left <= logs.Keys && rows.Keys == logs.Keys - left
        invariant forall id :: id in rows ==> Matches(rows[id], Fold(logs[id]))
      {
        var id :| id in left;
        var agg := Replay(logs[id]);
        ProjectedMatchesUnless(rows, id, agg);
        Project(id, agg);
        left := left - {id};
      }
    }

    lemma AllAtRest()
      requires Valid() && reliable && ops == map[]
      ensures forall id :: id in rows ==> id in logs && Matches(rows[id], Fold(logs[id]))
    {
      forall id | id in rows ensures id in logs && Matches(rows[id], Fold(logs[id])) {
        AtRestRowsAreFolds(id);
      }
    }
  }

  /** `members` with the entries of `newer` for the artists in `done`. */
  function Merged(members: map<string, bool>, newer: map<string, bool>, done: set<string>): map<string, bool> {
    members + map a | a in newer && a in done :: newer[a]
  }

  lemma {:induction false} NothingMerged(members: map<string, bool>, newer: map<string, bool>)
    ensures Merged(members, newer, {}) == members
  {
  }

  lemma {:induction false} OneMoreMerged(members: map<string, bool>, newer: map<string, bool>, done: set<string>,
      a: string)
    requires a in newer
    ensures Merged(members, newer, done + {a}) == Merged(members, newer, done)[a := newer[a]]
  {
  }

  lemma {:induction false} AllMerged(members: map<string, bool>, newer: map<string, bool>, done: set<string>)
    requires done == newer.Keys
    ensures Merged(members, newer, done) == members + newer
  {
  }

  lemma {:induction false} BirthIsShort(artists: seq<string>, stats: map<string, int>)
    ensures 1 <= |Birth(artists, stats)| <= 2
  {
  }

  function InOrder(order: seq<string>, groups: map<string, seq<string>>): seq<Group>
    requires forall i :: 0 <= i < |order| ==> order[i] in groups
  {
    seq(|order|, i requires 0 <= i < |order| => Group(order[i], groups[order[i]]))
  }

  lemma {:induction false} InOrderFront(order: seq<string>, groups: map<string, seq<string>>)
    requires order != [] && forall i :: 0 <= i < |order| ==> order[i] in groups
    ensures InOrder(order, groups) == [Group(order[0], groups[order[0]])] + InOrder(order[1..], groups)
    ensures InOrder(order, groups)[1..] == InOrder(order[1..], groups)
  {
  }

  lemma {:induction false} InOrderElsewhere(order: seq<string>, groups: map<string, seq<string>>, id: string,
      group: seq<string>)
    requires id !in order && forall i :: 0 <= i < |order| ==> order[i] in groups
    ensures InOrder(order, groups[id := group]) == InOrder(order, groups)
  {
  }

  lemma {:induction false} AddsToGroup(order: seq<string>, groups: map<string, seq<string>>, f: Flip)
    requires forall i :: 0 <= i < |order| ==> order[i] in groups
    requires f.batch in order && forall i, j :: 0 <= i < j < |order| ==> order[i] != order[j]
    ensures AddFlip(InOrder(order, groups), f) == InOrder(order, groups[f.batch := groups[f.batch] + [f.artist]])
    decreases |order|
  {
    var group := groups[f.batch] + [f.artist];
    InOrderFront(order, groups);
    InOrderFront(order, groups[f.batch := group]);
    if order[0] == f.batch {
      InOrderElsewhere(order[1..], groups, f.batch, group);
    } else {
      AddsToGroup(order[1..], groups, f);
    }
  }

  lemma {:induction false} AddsNewGroup(order: seq<string>, groups: map<string, seq<string>>, f: Flip)
    requires f.batch !in order && forall i :: 0 <= i < |order| ==> order[i] in groups
    ensures AddFlip(InOrder(order, groups), f) == InOrder(order + [f.batch], groups[f.batch := [f.artist]])
    decreases |order|
  {
    if order == [] {
    } else {
      InOrderFront(order, groups);
      InOrderFront(order + [f.batch], groups[f.batch := [f.artist]]);
      assert (order + [f.batch])[1..] == order[1..] + [f.batch];
      AddsNewGroup(order[1..], groups, f);
    }
  }

  lemma {:induction false} AddsInOrder(order: seq<string>, groups: map<string, seq<string>>, f: Flip)
    requires forall i :: 0 <= i < |order| ==> order[i] in groups
    requires forall i, j :: 0 <= i < j < |order| ==> order[i] != order[j]
    ensures f.batch in order ==>
              AddFlip(InOrder(order, groups), f) == InOrder(order, groups[f.batch := groups[f.batch] + [f.artist]])
    ensures f.batch !in order ==>
              AddFlip(InOrder(order, groups), f) == InOrder(order + [f.batch], groups[f.batch := [f.artist]])
  {
    if f.batch in order {
      AddsToGroup(order, groups, f);
    } else {
      AddsNewGroup(order, groups, f);
    }
  }

  lemma {:induction false} CopyAfter(log: seq<Fact>, more: seq<Fact>)
    requires log != []
    ensures IsCopy(log + more, FoldFrom(Fold(log), more))
  {
    FoldJoins(UNBORN, log, more);
    FoldIsCopy(log + more);
  }

  function FreshMembers(artists: seq<string>): map<string, bool> {
    map a | a in artists :: false
  }

  /** The rows with the flips written and nothing recomputed. */
  function Flipped(rows: Rows, flips: set<Flip>): Rows {
    map id | id in rows :: rows[id].(members := FlipMembers(id, rows[id].members, flips))
  }

  function Recomputed(rows: Rows): Rows {
    map id | id in rows :: if rows[id].done then rows[id] else Recompute(rows[id])
  }

  lemma {:induction false} FlipsRecomputed(rows: Rows, flips: set<Flip>)
    ensures Recomputed(Flipped(rows, flips)) == ApplyFlips(rows, flips)
  {
  }

  lemma {:induction false} NoFlip(rows: Rows)
    ensures Flipped(rows, {}) == rows
  {
    forall id | id in rows ensures Flipped(rows, {})[id] == rows[id] {
      assert FlipMembers(id, rows[id].members, {}) == rows[id].members;
    }
  }

  lemma {:induction false} OneMoreMember(artists: seq<string>, i: nat, members: map<string, bool>)
    requires i < |artists|
    ensures var was := FreshMembers(artists[..i]) + members;
            FreshMembers(artists[..i + 1]) + members == if artists[i] in was then was else was[artists[i] := false]
  {
    assert forall a :: a in artists[..i + 1] <==> a in artists[..i] || a == artists[i];
  }

  lemma {:induction false} OneMoreFlip(rows: Rows, flips: set<Flip>, f: Flip)
    ensures var was := Flipped(rows, flips);
            Flipped(rows, flips + {f}) ==
              if f.batch in was && f.artist in was[f.batch].members && !was[f.batch].members[f.artist]
              then was[f.batch := was[f.batch].(members := was[f.batch].members[f.artist := true])]
              else was
  {
    var was, now := Flipped(rows, flips), Flipped(rows, flips + {f});
    forall id | id in rows && id != f.batch ensures now[id] == was[id] {
      assert now[id].members == was[id].members;
    }
    if f.batch in rows {
      var members := was[f.batch].members;
      assert Flip(f.batch, f.artist) == f;
      assert now[f.batch].members ==
        if f.artist in members && !members[f.artist] then members[f.artist := true] else members;
    }
  }
}
