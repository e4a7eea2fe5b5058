/** Recording a command again after part of its facts were stored: the second
    attempt records what is missing, except for a closing fact. */
module BatchResume {
  import opened BatchAggregate
  import opened BatchWorld
  import opened BatchSafety

  lemma {:induction false} FoldOne(b: Batch, f: Fact)
    ensures FoldFrom(b, [f]) == Apply(b, f)
  {
    assert [f][..0] == [];
    assert FoldFrom(b, []) == b;
  }

  lemma {:induction false} NothingNew(b: Batch, artists: seq<string>)
    requires forall a :: a in b.members && a in artists ==> b.members[a]
    ensures Completions(b, artists) == [] && Recorded(b, artists) == []
  {
    assert WithDone(b.members, artists) == b.members;
    CompletionsComplete(b, artists);
  }

  lemma {:induction false} NothingNewAfter(b: Batch, artists: seq<string>)
    ensures Completions(FoldFrom(b, Completions(b, artists)), artists) == []
    ensures Recorded(FoldFrom(b, Completions(b, artists)), artists) == []
    ensures Recorded(FoldFrom(b, Recorded(b, artists)), artists) == []
  {
    CompletionsComplete(b, artists);
    NothingNew(FoldFrom(b, Completions(b, artists)), artists);
    RecordedCompletes(b, artists);
    NothingNew(FoldFrom(b, Recorded(b, artists)), artists);
  }

  /** After the first completions, `x`, the same command records the others. */
  lemma {:induction false} CompletionsResume(b: Batch, artists: seq<string>, x: seq<Fact>, y: seq<Fact>)
    requires Completions(b, artists) == x + y
    ensures Completions(FoldFrom(b, x), artists) == y
    decreases |artists|
  {
    if y == [] {
      assert x + y == x;
      NothingNewAfter(b, artists);
    } else {
      var init, last := artists[..|artists| - 1], artists[|artists| - 1];
      var earlier := Completions(b, init);
      var one := RecordCompletion(FoldFrom(b, earlier), last);
      var rest := earlier[|x|..];
      SamePrefix(earlier, one, x, y);
      CompletionsResume(b, init, x, rest);
      FoldJoins(b, x, rest);
    }
  }

  lemma {:induction false} SamePrefix(earlier: seq<Fact>, one: seq<Fact>, x: seq<Fact>, y: seq<Fact>)
    requires earlier + one == x + y && |one| <= 1 && y != []
    ensures |x| <= |earlier| && earlier == x + earlier[|x|..] && y == earlier[|x|..] + one
  {
    assert forall i :: 0 <= i < |x| ==> x[i] == (x + y)[i] == earlier[i];
    assert forall i :: 0 <= i < |y| ==> y[i] == (earlier + one)[|x| + i];
  }

  lemma {:induction false} RestIsRecorded(b: Batch, artists: seq<string>, x: seq<Fact>, y: seq<Fact>)
    requires Completions(b, artists) == x + y && y != []
    ensures Recorded(b, artists) == x + Recorded(FoldFrom(b, x), artists)
  {
    CompletionsResume(b, artists, x, y);
    FoldJoins(b, x, y);
  }

  lemma {:induction false} RecordedShape(b: Batch, artists: seq<string>)
    ensures var completions, facts := Completions(b, artists), Recorded(b, artists);
            && |completions| <= |facts| <= |completions| + 1
            && facts[..|completions|] == completions && (completions == [] ==> facts == [])
  {
  }

  /** What a reload records when the first facts, `x`, are stored already: the
      rest, or nothing at all once every completion is there. */
  lemma {:induction false} RecordedResumes(b: Batch, artists: seq<string>, x: seq<Fact>, y: seq<Fact>)
    requires Recorded(b, artists) == x + y
    ensures Recorded(FoldFrom(b, x), artists) == if |x| < |Completions(b, artists)| then y else []
  {
    NothingNewAfter(b, artists);
    if |x| < |Completions(b, artists)| {
      var rest := Completions(b, artists)[|x|..];
      CompletionsSplit(b, artists, x, y);
      RestIsRecorded(b, artists, x, rest);
      SameRest(x, y, Recorded(FoldFrom(b, x), artists));
    } else if y == [] {
      assert x + y == x;
    } else {
      CompletionsSplit(b, artists, x, y);
    }
  }

  lemma {:induction false} CompletionsSplit(b: Batch, artists: seq<string>, x: seq<Fact>, y: seq<Fact>)
    requires Recorded(b, artists) == x + y
    ensures |x| < |Completions(b, artists)| ==> Completions(b, artists) == x + Completions(b, artists)[|x|..]
    ensures |x| >= |Completions(b, artists)| && y != [] ==> Completions(b, artists) == x && |y| == 1
  {
    RecordedShape(b, artists);
    var c := |Completions(b, artists)|;
    assert forall i :: 0 <= i < |x| ==> x[i] == (x + y)[i];
    assert Completions(b, artists) == (x + y)[..c];
    if |x| >= c && y != [] {
      assert (x + y)[..c] == x;
    }
  }

  lemma {:induction false} SameRest(x: seq<Fact>, y: seq<Fact>, z: seq<Fact>)
    requires x + y == x + z
    ensures y == z
  {
    assert (x + y)[|x|..] == y && (x + z)[|x|..] == z;
  }

  /** What a reload records behind the first `first` facts of a command: the
      rest, or nothing once every completion is there. */
  lemma {:induction false} MoreIsTheRest(log: seq<Fact>, artists: seq<string>, news: seq<Fact>, first: nat,
      middle: seq<Fact>, more: seq<Fact>)
    requires news == Recorded(Fold(log), artists) && first <= |news| && middle == log + news[..first]
    requires more == Recorded(Fold(middle), artists)
    ensures more == if first < |Completions(Fold(log), artists)| then news[first..] else []
  {
    assert news == news[..first] + news[first..];
    FoldJoins(UNBORN, log, news[..first]);
    RecordedResumes(Fold(log), artists, news[..first], news[first..]);
  }

  /** Two prefixes one after the other are one. */
  lemma {:induction false} TwoPrefixes(log: seq<Fact>, news: seq<Fact>, first: nat, middle: seq<Fact>, more: seq<Fact>,
      second: nat, whole: seq<Fact>)
    requires first <= |news| && middle == log + news[..first] && (more == [] || more == news[first..])
    requires second <= |more| && whole == middle + more[..second]
    ensures first + second <= |news| && whole == log + news[..first + second]
  {
    if more == [] {
      assert whole == middle;
    } else {
      assert news[..first + second] == news[..first] + more[..second];
    }
  }

  /** The outcome under which `n` of a command's facts are stored. */
  lemma {:induction false} OutcomeOf(b: Batch, artists: seq<string>, n: nat, ok: bool) returns (outcome: Outcome)
    requires n <= |Recorded(b, artists)|
    requires ok ==> n == |Recorded(b, artists)| || n == |Completions(b, artists)|
    ensures Stored(b, artists, outcome) == Recorded(b, artists)[..n]
    ensures (ok <==> !outcome.Broken?) && (ok && n == |Recorded(b, artists)| ==> outcome == Whole)
  {
    RecordedShape(b, artists);
    outcome := if !ok then Broken(n) else if n == |Recorded(b, artists)| then Whole else CloseLost;
    assert Recorded(b, artists)[..|Recorded(b, artists)|] == Recorded(b, artists);
  }

  /** Where two attempts end: with everything, or before the closing fact. */
  lemma {:induction false} WhereItEnds(completions: nat, news: seq<Fact>, first: nat, more: seq<Fact>, second: nat,
      ok: bool)
    requires completions <= |news| <= completions + 1 && (completions == 0 ==> news == []) && first <= |news|
    requires more == (if first < completions then news[first..] else []) && second <= |more|
             && (ok ==> second == |more|)
    ensures first + second <= |news|
    ensures ok ==> first + second == |news| || first + second == completions
    ensures ok && first == 0 ==> first + second == |news|
  {
    if first < completions {
      assert |more| == |news| - first;
    }
  }

  /** `first` facts of the news stored by the cached attempt, `second` of what
      is left recorded by the reload: together they are one outcome. */
  lemma {:induction false} OneOutcome(log: seq<Fact>, artists: seq<string>, news: seq<Fact>, first: nat,
      middle: seq<Fact>, more: seq<Fact>, second: nat, whole: seq<Fact>, ok: bool)
    returns (outcome: Outcome)
    requires news == Recorded(Fold(log), artists) && first <= |news| && middle == log + news[..first]
    requires more == Recorded(Fold(middle), artists) && second <= |more| && (ok ==> second == |more|)
    requires whole == middle + more[..second]
    ensures first + second <= |news| && Stored(Fold(log), artists, outcome) == news[..first + second]
    ensures whole == log + news[..first + second]
    ensures ok <==> !outcome.Broken?
    ensures ok && first == 0 ==> outcome == Whole
  {
    MoreIsTheRest(log, artists, news, first, middle, more);
    TwoPrefixes(log, news, first, middle, more, second, whole);
    RecordedShape(Fold(log), artists);
    WhereItEnds(|Completions(Fold(log), artists)|, news, first, more, second, ok);
    outcome := OutcomeOf(Fold(log), artists, first + second, ok);
  }

  /** What two attempts leave under way: a publish of the first attempt's next
      fact can land only if the second stored nothing. */
  lemma {:induction false} OneLateFact(batch: string, base: nat, news: seq<Fact>, first: nat, lateFirst: bool,
      more: seq<Fact>, second: nat, lateSecond: bool, n: nat, late: bool)
    requires n == first + second && (late <==> (second == 0 && lateFirst) || lateSecond)
    requires first <= |news| && (lateFirst ==> first < |news|)
    requires (more == [] || more == news[first..]) && second <= |more| && (lateSecond ==> second < |more|)
    ensures (if second == 0 then Late(batch, base, first, news, lateFirst) else {})
            + Late(batch, base + first, second, more, lateSecond)
         == Late(batch, base, n, news, late)
  {
    if lateSecond {
      assert more[second] == news[first + second];
    }
  }

  /** A copy of the stream's first `k` facts. */
  ghost predicate IsCopy(log: seq<Fact>, copy: Batch) {
    exists k :: 0 < k <= |log| && copy == Fold(log[..k])
  }

  lemma {:induction false} FoldIsCopy(log: seq<Fact>)
    requires log != []
    ensures IsCopy(log, Fold(log))
  {
    assert log[..|log|] == log;
  }

  lemma {:induction false} CopySurvives(log: seq<Fact>, more: seq<Fact>, copy: Batch)
    requires IsCopy(log, copy)
    ensures IsCopy(log + more, copy)
  {
    var k :| 0 < k <= |log| && copy == Fold(log[..k]);
    assert (log + more)[..k] == log[..k];
  }

  /** A copy as long as the stream is the stream's fold. */
  lemma {:induction false} FullCopy(log: seq<Fact>, copy: Batch)
    requires IsCopy(log, copy)
    ensures copy.version <= |log|
    ensures copy.version == |log| ==> copy == Fold(log)
  {
    var k :| 0 < k <= |log| && copy == Fold(log[..k]);
    FoldVersion(UNBORN, log[..k]);
    assert log[..|log|] == log;
  }

  /** What a stale copy takes for old news is old news in the stream too. */
  lemma {:induction false} OldNewsStaysOld(log: seq<Fact>, copy: Batch, artists: seq<string>)
    requires Begun(log) && IsCopy(log, copy) && Recorded(copy, artists) == []
    ensures Recorded(Fold(log), artists) == []
  {
    var k :| 0 < k <= |log| && copy == Fold(log[..k]);
    var later := log[k..];
    assert log == log[..k] + later;
    FoldJoins(UNBORN, log[..k], later);
    assert NoBirth(later) by {
      assert forall i :: 0 <= i < |later| ==> later[i] == log[1..][k - 1 + i];
    }
    LaterFactsOnlyFinish(copy, later);
    NothingWasNew(copy, artists);
    NothingNew(Fold(log), artists);
  }

  lemma {:induction false} NothingWasNew(b: Batch, artists: seq<string>)
    requires Recorded(b, artists) == []
    ensures forall a :: a in b.members && a in artists ==> b.members[a]
  {
    RecordedCompletes(b, artists);
    assert forall a :: a in b.members && a in artists ==> WithDone(b.members, artists)[a];
  }
}
