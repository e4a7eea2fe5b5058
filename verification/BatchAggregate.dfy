/** The batch aggregate: its facts, the fold that rebuilds it, and the commands
    that record new facts. */
module BatchAggregate {

  datatype Fact =
    | Started(artists: seq<string>, stats: map<string, int>)
    | ArtistCompleted(artist: string)
    | BatchCompleted(total: nat, completed: nat)

  datatype Batch = Batch(members: map<string, bool>, stats: map<string, int>, closed: bool, version: nat)

  const UNBORN := Batch(map[], map[], false, 0)

  function DoneMembers(members: map<string, bool>): set<string> {
    set a | a in members && members[a]
  }

  function Total(b: Batch): nat { |b.members| }

  function Completed(b: Batch): nat { |DoneMembers(b.members)| }

  predicate Done(b: Batch) {
    Total(b) == 0 || Completed(b) >= Total(b)
  }

  function Apply(b: Batch, f: Fact): Batch {
    var b' := b.(version := b.version + 1);
    match f
    case Started(artists, stats) =>
      b'.(members := (map a | a in artists :: false) + b.members, stats := stats)
    case ArtistCompleted(artist) =>
      if artist in b.members then b'.(members := b.members[artist := true]) else b'
    case BatchCompleted(_, _) => b'.(closed := true)
  }

  function FoldFrom(b: Batch, facts: seq<Fact>): Batch {
    if facts == [] then b else Apply(FoldFrom(b, facts[..|facts| - 1]), facts[|facts| - 1])
  }

  /** Replay. */
  function Fold(facts: seq<Fact>): Batch {
    FoldFrom(UNBORN, facts)
  }

  lemma {:induction false} FoldJoins(b: Batch, left: seq<Fact>, right: seq<Fact>)
    ensures FoldFrom(b, left + right) == FoldFrom(FoldFrom(b, left), right)
  {
    if right == [] {
      assert left + right == left;
    } else {
      var init, joined := right[..|right| - 1], left + right;
      FoldJoins(b, left, init);
      assert joined[..|joined| - 1] == left + init;
      FoldLast(b, joined);
      FoldLast(FoldFrom(b, left), right);
    }
  }

  lemma {:induction false} FoldLast(b: Batch, facts: seq<Fact>)
    requires facts != []
    ensures FoldFrom(b, facts) == Apply(FoldFrom(b, facts[..|facts| - 1]), facts[|facts| - 1])
  {
  }

  lemma {:induction false} FoldVersion(b: Batch, facts: seq<Fact>)
    ensures FoldFrom(b, facts).version == b.version + |facts|
  {
    if facts == [] {
    } else {
      FoldVersion(b, facts[..|facts| - 1]);
    }
  }

  // ---------------------------------------------------------------- commands

  /** The artists the log knows: blanks and repeats dropped, order kept. */
  function Unique(artists: seq<string>): (u: seq<string>)
    ensures forall a :: a in u <==> a in artists && a != ""
    ensures forall i, j :: 0 <= i < j < |u| ==> u[i] != u[j]
  {
    if artists == [] then []
    else
      var rest := Unique(artists[..|artists| - 1]);
      var last := artists[|artists| - 1];
      if last == "" || last in rest then rest else rest + [last]
  }

  /** The artists come in the order of their first mention. */
  lemma {:induction false} UniqueKeepsOrder(artists: seq<string>, i: nat, j: nat)
    requires i < j < |Unique(artists)|
    ensures exists p :: 0 <= p < |artists| && artists[p] == Unique(artists)[i] && Unique(artists)[j] !in artists[..p]
  {
    var init, u := artists[..|artists| - 1], Unique(artists);
    if j < |Unique(init)| {
      UniqueKeepsOrder(init, i, j);
      var p :| 0 <= p < |init| && init[p] == u[i] && u[j] !in init[..p];
      assert artists[p] == u[i] && artists[..p] == init[..p];
    } else {
      assert u[j] !in init && u[i] in init;
      var p :| 0 <= p < |init| && init[p] == u[i];
      assert artists[p] == u[i] && artists[..p] == init[..p];
    }
  }

  function Birth(artists: seq<string>, stats: map<string, int>): seq<Fact> {
    var started := [Started(Unique(artists), stats)];
    started + if Unique(artists) == [] then Close(Fold(started)) else []
  }

  function RecordCompletion(b: Batch, artist: string): seq<Fact> {
    if artist in b.members && !b.members[artist] then [ArtistCompleted(artist)] else []
  }

  function Close(b: Batch): seq<Fact> {
    if Done(b) && !b.closed then [BatchCompleted(Total(b), Completed(b))] else []
  }

  function Completions(b: Batch, artists: seq<string>): seq<Fact> {
    if artists == [] then []
    else
      var earlier := Completions(b, artists[..|artists| - 1]);
      earlier + RecordCompletion(FoldFrom(b, earlier), artists[|artists| - 1])
  }

  /** Everything one completion command records: nothing at all when no artist
      is a new fact, and the closing fact when the batch ends. */
  function Recorded(b: Batch, artists: seq<string>): seq<Fact> {
    var completions := Completions(b, artists);
    if completions == [] then [] else completions + Close(FoldFrom(b, completions))
  }

  /** The members with `artists` done. */
  function WithDone(members: map<string, bool>, artists: seq<string>): map<string, bool> {
    map a | a in members :: members[a] || a in artists
  }

  lemma {:induction false} OneCompletion(b: Batch, artist: string)
    ensures var b' := FoldFrom(b, RecordCompletion(b, artist));
            && b'.members == WithDone(b.members, [artist]) && b'.closed == b.closed && b'.stats == b.stats
            && (RecordCompletion(b, artist) == [] <==> b'.members == b.members)
  {
    var facts := RecordCompletion(b, artist);
    if facts != [] {
      assert facts[..0] == [];
      assert FoldFrom(b, facts) == Apply(b, facts[0]);
    }
  }

  lemma {:induction false} WithDoneJoins(members: map<string, bool>, artists: seq<string>)
    requires artists != []
    ensures var init := WithDone(members, artists[..|artists| - 1]);
            && WithDone(members, artists) == WithDone(init, [artists[|artists| - 1]])
            && (WithDone(members, artists) == members ==> init == members)
  {
    assert forall a :: a in artists <==> a in artists[..|artists| - 1] || a == artists[|artists| - 1];
    if WithDone(members, artists) == members {
      assert forall a :: a in members && a in artists ==> WithDone(members, artists)[a];
      assert WithDone(members, artists[..|artists| - 1]) == members;
    }
  }

  lemma {:induction false} CompletionsComplete(b: Batch, artists: seq<string>)
    ensures FoldFrom(b, Completions(b, artists)).members == WithDone(b.members, artists)
    ensures FoldFrom(b, Completions(b, artists)).closed == b.closed
    ensures FoldFrom(b, Completions(b, artists)).stats == b.stats
    ensures Completions(b, artists) == [] <==> WithDone(b.members, artists) == b.members
  {
    if artists == [] {
      assert WithDone(b.members, artists) == b.members;
    } else {
      var init, last := artists[..|artists| - 1], artists[|artists| - 1];
      CompletionsComplete(b, init);
      var earlier := Completions(b, init);
      FoldJoins(b, earlier, RecordCompletion(FoldFrom(b, earlier), last));
      OneCompletion(FoldFrom(b, earlier), last);
      WithDoneJoins(b.members, artists);
    }
  }

  /** One command marks exactly the named members, and closes the batch exactly
      when it recorded something and everybody is done. */
  lemma {:induction false} RecordedCompletes(b: Batch, artists: seq<string>)
    ensures FoldFrom(b, Recorded(b, artists)).members == WithDone(b.members, artists)
    ensures FoldFrom(b, Recorded(b, artists)).stats == b.stats
    ensures Recorded(b, artists) == [] <==> WithDone(b.members, artists) == b.members
    ensures Recorded(b, artists) != [] ==>
              var b' := FoldFrom(b, Recorded(b, artists)); b'.closed == (b.closed || Done(b'))
  {
    var completions := Completions(b, artists);
    CompletionsComplete(b, artists);
    if completions != [] {
      var b1 := FoldFrom(b, completions);
      FoldJoins(b, completions, Close(b1));
      if Close(b1) != [] {
        assert Close(b1)[..0] == [];
        assert FoldFrom(b1, Close(b1)) == Apply(b1, Close(b1)[0]);
      }
    }
  }

  // ------------------------------------------------------------ legal logs

  /** A fact that the aggregate could have recorded in this state. */
  ghost predicate Legal(b: Batch, f: Fact) {
    match f
    case Started(_, _) => b.version == 0
    case ArtistCompleted(artist) => artist in b.members && !b.members[artist]
    case BatchCompleted(total, completed) =>
      0 < b.version && Done(b) && !b.closed && total == Total(b) && completed == Completed(b)
  }

  ghost predicate LegalFrom(b: Batch, facts: seq<Fact>) {
    forall i {:trigger facts[i]} :: 0 <= i < |facts| ==> Legal(FoldFrom(b, facts[..i]), facts[i])
  }

  ghost predicate LegalLog(facts: seq<Fact>) {
    LegalFrom(UNBORN, facts)
  }

  lemma {:induction false} LegalExtends(b: Batch, facts: seq<Fact>, f: Fact)
    requires LegalFrom(b, facts) && Legal(FoldFrom(b, facts), f)
    ensures LegalFrom(b, facts + [f])
  {
    var longer := facts + [f];
    forall i | 0 <= i < |longer| ensures Legal(FoldFrom(b, longer[..i]), longer[i]) {
      if i < |facts| {
        assert longer[..i] == facts[..i] && longer[i] == facts[i];
      } else {
        assert longer[..i] == facts;
      }
    }
  }

  lemma {:induction false} LegalJoins(b: Batch, x: seq<Fact>, y: seq<Fact>)
    requires LegalFrom(b, x) && LegalFrom(FoldFrom(b, x), y)
    ensures LegalFrom(b, x + y)
  {
    var all := x + y;
    forall i | 0 <= i < |all| ensures Legal(FoldFrom(b, all[..i]), all[i]) {
      if i < |x| {
        assert all[..i] == x[..i] && all[i] == x[i];
      } else {
        var k := i - |x|;
        assert all[..i] == x + y[..k] && all[i] == y[k];
        FoldJoins(b, x, y[..k]);
      }
    }
  }

  lemma {:induction false} CompletionsAreLegal(b: Batch, artists: seq<string>)
    ensures LegalFrom(b, Completions(b, artists))
  {
    if artists == [] {
    } else {
      CompletionsAreLegal(b, artists[..|artists| - 1]);
      var earlier := Completions(b, artists[..|artists| - 1]);
      var more := RecordCompletion(FoldFrom(b, earlier), artists[|artists| - 1]);
      if more == [] {
        assert earlier + more == earlier;
      } else {
        LegalExtends(b, earlier, more[0]);
        assert earlier + more == earlier + [more[0]];
      }
    }
  }

  lemma {:induction false} RecordedIsLegal(b: Batch, artists: seq<string>)
    ensures LegalFrom(b, Recorded(b, artists))
  {
    var completions := Completions(b, artists);
    CompletionsAreLegal(b, artists);
    if completions != [] {
      var closing := Close(FoldFrom(b, completions));
      if closing == [] {
        assert completions + closing == completions;
      } else {
        FoldVersion(b, completions);
        LegalExtends(b, completions, closing[0]);
        assert completions + closing == completions + [closing[0]];
      }
    }
  }

  lemma {:induction false} BirthIsLegal(artists: seq<string>, stats: map<string, int>)
    ensures LegalLog(Birth(artists, stats))
    ensures Fold(Birth(artists, stats)) ==
              Batch(map a | a in Unique(artists) :: false, stats, Unique(artists) == [], |Birth(artists, stats)|)
  {
    var started := [Started(Unique(artists), stats)];
    BornOf(artists, stats);
    if Unique(artists) == [] {
      var last := BatchCompleted(0, 0);
      assert DoneMembers(map[]) == {};
      LegalExtends(UNBORN, started, last);
      FoldOnce(UNBORN, started, last);
      assert Birth(artists, stats) == started + [last];
    } else {
      assert DoneMembers(Fold(started).members) == {};
      assert Unique(artists)[0] in Fold(started).members;
      assert Birth(artists, stats) == started;
    }
  }

  lemma {:induction false} FoldOnce(b: Batch, facts: seq<Fact>, f: Fact)
    ensures FoldFrom(b, facts + [f]) == Apply(FoldFrom(b, facts), f)
  {
    assert (facts + [f])[..|facts|] == facts;
  }

  lemma {:induction false} BornOf(artists: seq<string>, stats: map<string, int>)
    ensures var started := [Started(Unique(artists), stats)];
            LegalLog(started) && Fold(started) == Batch(map a | a in Unique(artists) :: false, stats, false, 1)
  {
    var first := Started(Unique(artists), stats);
    assert [] + [first] == [first];
    LegalExtends(UNBORN, [], first);
    FoldOnce(UNBORN, [], first);
  }

  lemma {:induction false} LegalFactFinishes(b: Batch, f: Fact, a: string)
    requires b.version > 0 && Legal(b, f) && a in b.members
    ensures var b' := Apply(b, f); b'.version > 0 && a in b'.members && (b.members[a] ==> b'.members[a])
  {
  }

  lemma {:induction false} MembersOnlyFinish(b: Batch, facts: seq<Fact>, i: nat, a: string)
    requires i <= |facts| && LegalFrom(b, facts) && a in FoldFrom(b, facts[..i]).members
    requires FoldFrom(b, facts[..i]).version > 0
    ensures a in FoldFrom(b, facts).members && (FoldFrom(b, facts[..i]).members[a] ==> FoldFrom(b, facts).members[a])
    decreases |facts| - i
  {
    if i < |facts| {
      var now, next := FoldFrom(b, facts[..i]), facts[..i + 1];
      assert next[..i] == facts[..i] && next[i] == facts[i];
      assert FoldFrom(b, next) == Apply(now, facts[i]);
      LegalFactFinishes(now, facts[i], a);
      MembersOnlyFinish(b, facts, i + 1, a);
    } else {
      assert facts[..i] == facts;
    }
  }

  lemma {:induction false} LegalPrefix(b: Batch, facts: seq<Fact>, j: nat)
    requires j <= |facts| && LegalFrom(b, facts)
    ensures LegalFrom(b, facts[..j])
  {
    var upto := facts[..j];
    forall k | 0 <= k < |upto| ensures Legal(FoldFrom(b, upto[..k]), upto[k]) {
      assert upto[..k] == facts[..k] && upto[k] == facts[k];
    }
  }

  lemma {:induction false} CompletedStaysDone(log: seq<Fact>, i: nat, j: nat)
    requires LegalLog(log) && i < j <= |log| && log[i].ArtistCompleted?
    ensures log[i].artist in Fold(log[..j]).members && Fold(log[..j]).members[log[i].artist]
  {
    var upto := log[..j];
    LegalPrefix(UNBORN, log, j);
    var next := upto[..i + 1];
    assert next[..i] == log[..i] && next[i] == log[i];
    assert Legal(Fold(log[..i]), log[i]);
    FoldVersion(UNBORN, next);
    MembersOnlyFinish(UNBORN, upto, i + 1, log[i].artist);
  }

  /** A legal log names no artist twice. */
  lemma {:induction false} NoSecondCompletion(log: seq<Fact>, i: nat, j: nat)
    requires LegalLog(log) && i < j < |log| && log[i].ArtistCompleted? && log[j].ArtistCompleted?
    ensures log[i].artist != log[j].artist
  {
    CompletedStaysDone(log, i, j);
    assert Legal(Fold(log[..j]), log[j]);
  }

  lemma {:induction false} AfterClosing(log: seq<Fact>, i: nat)
    requires LegalLog(log) && i < |log| && log[i].BatchCompleted?
    ensures var b := Fold(log[..i + 1]); b.closed && b.version > 0 && Done(b)
  {
    var next := log[..i + 1];
    assert next[..i] == log[..i] && next[i] == log[i];
    assert Legal(Fold(log[..i]), log[i]);
  }

  lemma {:induction false} NothingAfterClosing(b: Batch, f: Fact)
    requires b.closed && b.version > 0 && Done(b)
    ensures !Legal(b, f)
  {
    AllDone(b);
  }

  /** Nothing follows the closing fact. */
  lemma {:induction false} ClosingIsLast(log: seq<Fact>, i: nat)
    requires LegalLog(log) && i < |log| && log[i].BatchCompleted?
    ensures i == |log| - 1
  {
    AfterClosing(log, i);
    if i + 1 < |log| {
      NothingAfterClosing(Fold(log[..i + 1]), log[i + 1]);
    }
  }

  lemma {:induction false} AllDone(b: Batch)
    ensures Done(b) <==> forall a :: a in b.members ==> b.members[a]
  {
    var done := DoneMembers(b.members);
    assert done <= b.members.Keys;
    SubsetOfSameSize(done, b.members.Keys);
    assert (forall a :: a in b.members ==> b.members[a]) ==> done == b.members.Keys;
  }

  lemma {:induction false} SubsetOfSameSize(x: set<string>, y: set<string>)
    requires x <= y
    ensures |x| <= |y|
    ensures |x| >= |y| ==> x == y
  {
    if x == {} {
    } else {
      var a :| a in x;
      SubsetOfSameSize(x - {a}, y - {a});
    }
  }
}
