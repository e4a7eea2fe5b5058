/** Scoring a review name against the known artists and ranking the matches.
    Keys are normalized names. */
module ArtistSuggestions {
  import opened Text
  import opened EditDistance
  import Sorting

  datatype Artist = Artist(name: string, spotifyID: string, key: Runes)

  datatype Suggestion = Suggestion(name: string, spotifyID: string, score: real)

  // ------------------------------------------------------------- the score

  function Longer(left: Runes, right: Runes): nat {
    if |left| >= |right| then |left| else |right|
  }

  function Score(inputKey: Runes, artistKey: Runes): real {
    if inputKey == artistKey then 1.0
    else if artistKey <= inputKey || inputKey <= artistKey then 0.86
    else
      var distance, maxLength := Distance(inputKey, artistKey), Longer(inputKey, artistKey);
      if maxLength == 0 then 0.0 else Graded(distance, 1.0 - distance as real / maxLength as real)
  }

  function Graded(distance: nat, similarity: real): real {
    if distance <= 1 && similarity >= 0.85 then 0.93
    else if distance <= 2 && similarity >= 0.75 then 0.82
    else if distance <= 3 && similarity >= 0.70 then 0.74
    else 0.0
  }

  method MatchSuggestionScore(inputKey: Runes, artistKey: Runes) returns (score: real)
    ensures score == Score(inputKey, artistKey)
  {
    if inputKey == artistKey {
      return 1.0;
    }
    if artistKey <= inputKey || inputKey <= artistKey {
      return 0.86;
    }
    var distance := LevenshteinDistance(inputKey, artistKey);
    var maxLength := Longer(inputKey, artistKey);
    if maxLength == 0 {
      return 0.0;
    }
    var similarity := 1.0 - distance as real / maxLength as real;
    if distance <= 1 && similarity >= 0.85 {
      return 0.93;
    } else if distance <= 2 && similarity >= 0.75 {
      return 0.82;
    } else if distance <= 3 && similarity >= 0.70 {
      return 0.74;
    }
    score := 0.0;
  }

  lemma {:induction false} ScoreIsSymmetric(left: Runes, right: Runes)
    ensures Score(left, right) == Score(right, left)
  {
    Symmetric(left, right);
  }

  /** The full score is for equal keys only. */
  lemma {:induction false} FullScoreOnlyForEqual(left: Runes, right: Runes)
    ensures Score(left, right) == 1.0 <==> left == right
  {
    if left == right {
      assert Score(left, right) == 1.0;
    } else if right <= left || left <= right {
      assert Score(left, right) == 0.86;
    } else {
      var distance, maxLength := Distance(left, right), Longer(left, right);
      assert maxLength != 0;
      var similarity := 1.0 - distance as real / maxLength as real;
      assert Score(left, right) == Graded(distance, similarity);
      GradedBelow(distance, similarity);
    }
  }

  lemma {:induction false} GradedBelow(distance: nat, similarity: real)
    ensures Graded(distance, similarity) < 1.0
  {
  }

  lemma {:induction false} Scales(x: real, y: real, m: real)
    requires m > 0.0
    ensures x <= y <==> x * m <= y * m
  {
    if x <= y {
      assert 0.0 <= (y - x) * m;
    } else {
      assert 0.0 < (x - y) * m;
    }
  }

  lemma {:induction false} QuotientBound(d: real, m: real, bound: real)
    requires m > 0.0
    ensures d / m <= bound <==> d <= bound * m
  {
    var q := d / m;
    assert q * m == d;
    Scales(q, bound, m);
  }

  /** The grades in whole numbers. */
  lemma {:induction false} GradesAreExact(distance: nat, maxLength: nat)
    requires maxLength > 0
    ensures var grade := Graded(distance, 1.0 - distance as real / maxLength as real);
            if distance <= 1 && 20 * distance <= 3 * maxLength then grade == 0.93
            else if distance <= 2 && 4 * distance <= maxLength then grade == 0.82
            else if distance <= 3 && 10 * distance <= 3 * maxLength then grade == 0.74
            else grade == 0.0
  {
    var d, m := distance as real, maxLength as real;
    QuotientBound(d, m, 0.15);
    QuotientBound(d, m, 0.25);
    QuotientBound(d, m, 0.3);
    GradesAt(distance, maxLength, d / m);
  }

  lemma {:induction false} GradesAt(distance: nat, maxLength: nat, q: real)
    requires q <= 0.15 <==> distance as real <= 0.15 * maxLength as real
    requires q <= 0.25 <==> distance as real <= 0.25 * maxLength as real
    requires q <= 0.3 <==> distance as real <= 0.3 * maxLength as real
    ensures var grade := Graded(distance, 1.0 - q);
            if distance <= 1 && 20 * distance <= 3 * maxLength then grade == 0.93
            else if distance <= 2 && 4 * distance <= maxLength then grade == 0.82
            else if distance <= 3 && 10 * distance <= 3 * maxLength then grade == 0.74
            else grade == 0.0
  {
  }

  /** The whole scale: the same key, one edit, a prefix, two edits, three. */
  lemma {:induction false} ScoreIsExact(left: Runes, right: Runes)
    ensures var d, m, score := Distance(left, right), Longer(left, right), Score(left, right);
            if left == right then score == 1.0
            else if left <= right || right <= left then score == 0.86
            else if d <= 1 && 20 * d <= 3 * m then score == 0.93
            else if d <= 2 && 4 * d <= m then score == 0.82
            else if d <= 3 && 10 * d <= 3 * m then score == 0.74
            else score == 0.0
  {
    if !(left <= right) && !(right <= left) {
      assert Longer(left, right) > 0;
      GradesAreExact(Distance(left, right), Longer(left, right));
    }
  }

  /** What counts as a match: the same key, a prefix, or up to three edits that
      touch at most three tenths of the longer key. */
  lemma {:induction false} WhatMatches(left: Runes, right: Runes)
    ensures Score(left, right) > 0.0 <==>
              || left <= right || right <= left
              || (Distance(left, right) <= 3 && 10 * Distance(left, right) <= 3 * Longer(left, right))
  {
    ScoreIsExact(left, right);
  }

  /** More edits on keys of the same longer length never score higher, unless
      one key is a prefix of the other. */
  lemma {:induction false} MoreEditsScoreNoHigher(left: Runes, right: Runes, left': Runes, right': Runes)
    requires !(left <= right) && !(right <= left) && !(left' <= right') && !(right' <= left')
    requires Longer(left, right) == Longer(left', right') && Distance(left, right) <= Distance(left', right')
    ensures Score(left, right) >= Score(left', right')
  {
    ScoreIsExact(left, right);
    ScoreIsExact(left', right');
  }

  // ------------------------------------------------------------- the order

  predicate Before(x: Suggestion, y: Suggestion) {
    if x.score != y.score then x.score > y.score
    else if x.name != y.name then StringLess(x.name, y.name)
    else StringLess(x.spotifyID, y.spotifyID)
  }

  lemma {:induction false} BeforeChains(x: Suggestion, y: Suggestion, z: Suggestion)
    requires !Before(y, x) && !Before(z, y)
    ensures !Before(z, x)
  {
    StringLessIsTotal(x.name, y.name);
    StringLessIsTotal(y.name, z.name);
    StringLessIsTotal(x.name, z.name);
    StringLessIsTotal(x.spotifyID, y.spotifyID);
    StringLessIsTotal(y.spotifyID, z.spotifyID);
    StringLessIsTotal(x.spotifyID, z.spotifyID);
    if StringLess(x.name, y.name) && StringLess(y.name, z.name) {
      StringLessChains(x.name, y.name, z.name);
    }
    if StringLess(x.spotifyID, y.spotifyID) && StringLess(y.spotifyID, z.spotifyID) {
      StringLessChains(x.spotifyID, y.spotifyID, z.spotifyID);
    }
  }

  lemma {:induction false} NotBoth(x: Suggestion, y: Suggestion)
    requires Before(x, y)
    ensures !Before(y, x)
  {
    StringLessIsTotal(x.name, y.name);
    StringLessIsTotal(x.spotifyID, y.spotifyID);
  }

  lemma {:induction false} OrderIsWeak()
    ensures Sorting.WeakOrder(Before)
  {
    forall x, y | Before(x, y) ensures !Before(y, x) {
      NotBoth(x, y);
    }
    forall x, y, z | !Before(y, x) && !Before(z, y) ensures !Before(z, x) {
      BeforeChains(x, y, z);
    }
  }

  // ------------------------------------------------------------ the matches

  function Matches(inputKey: Runes, artists: seq<Artist>): seq<Suggestion> {
    if artists == [] then []
    else
      var artist := artists[|artists| - 1];
      Matches(inputKey, artists[..|artists| - 1]) +
      if artist.key != "" && Score(inputKey, artist.key) > 0.0
      then [Suggestion(artist.name, artist.spotifyID, Score(inputKey, artist.key))] else []
  }

  lemma {:induction false} RankedByScore(s: seq<Suggestion>, i: nat, j: nat)
    requires Sorting.Ranked(s, Before) && i < j < |s|
    ensures s[i].score >= s[j].score
    ensures s[i].score == s[j].score ==> !StringLess(s[j].name, s[i].name)
  {
    assert !Before(s[j], s[i]);
    StringLessIsTotal(s[i].name, s[j].name);
  }

  /** An artist is suggested exactly when it has a key that is the input's, or a
      prefix of it or the other way round, or a few edits away. */
  lemma {:induction false} MatchesAreExact(inputKey: Runes, artists: seq<Artist>, i: nat)
    requires i < |artists|
    ensures var a, d, m := artists[i], Distance(inputKey, artists[i].key), Longer(inputKey, artists[i].key);
            a.key != "" && (a.key <= inputKey || inputKey <= a.key || (d <= 3 && 10 * d <= 3 * m)) ==>
              Suggestion(a.name, a.spotifyID, Score(inputKey, a.key)) in Matches(inputKey, artists)
    ensures forall s :: s in Matches(inputKey, artists) ==>
              exists k :: 0 <= k < |artists| && IsMatch(inputKey, artists[k], s)
    decreases |artists|
  {
    var init, last := artists[..|artists| - 1], artists[|artists| - 1];
    WhatMatches(inputKey, last.key);
    if i < |init| {
      MatchesAreExact(inputKey, init, i);
    } else if init == [] {
      assert Matches(inputKey, init) == [];
    } else {
      MatchesAreExact(inputKey, init, 0);
    }
    forall s | s in Matches(inputKey, artists)
      ensures exists k :: 0 <= k < |artists| && IsMatch(inputKey, artists[k], s)
    {
      if s in Matches(inputKey, init) {
        var k :| 0 <= k < |init| && IsMatch(inputKey, init[k], s);
        assert artists[k] == init[k];
      } else {
        assert IsMatch(inputKey, last, s);
      }
    }
  }

  predicate IsMatch(inputKey: Runes, a: Artist, s: Suggestion) {
    && a.key != "" && s == Suggestion(a.name, a.spotifyID, Score(inputKey, a.key))
    && (a.key <= inputKey || inputKey <= a.key
        || (Distance(inputKey, a.key) <= 3 && 10 * Distance(inputKey, a.key) <= 3 * Longer(inputKey, a.key)))
  }

  /** The best five matches, best first; none of the other matches ranks before
      any of them. */
  method SuggestExistingArtists(inputKey: Runes, artists: seq<Artist>)
    returns (best: seq<Suggestion>, ghost others: seq<Suggestion>)
    ensures inputKey == "" ==> best == []
    ensures inputKey != "" ==> multiset(best) + multiset(others) == multiset(Matches(inputKey, artists))
    ensures Sorting.Ranked(best, Before) && |best| <= 5 && (others != [] ==> |best| == 5)
    ensures forall i, j :: 0 <= i < |best| && 0 <= j < |others| ==> !Before(others[j], best[i])
    ensures forall i, j :: 0 <= i < j < |best| ==>
              best[i].score > best[j].score
              || (best[i].score == best[j].score && !StringLess(best[j].name, best[i].name))
    ensures forall i, j :: 0 <= i < |best| && 0 <= j < |others| ==> best[i].score >= others[j].score
  {
    best, others := [], [];
    if inputKey == "" {
      return;
    }
    var suggestions: seq<Suggestion> := [];
    for i := 0 to |artists|
      invariant suggestions == Matches(inputKey, artists[..i])
    {
      assert artists[..i + 1][..i] == artists[..i];
      if artists[i].key != "" {
        var score := MatchSuggestionScore(inputKey, artists[i].key);
        if score > 0.0 {
          suggestions := suggestions + [Suggestion(artists[i].name, artists[i].spotifyID, score)];
        }
      }
    }
    assert artists[..|artists|] == artists;
    OrderIsWeak();
    var ranked := Sorting.Sort(suggestions, Before);
    forall i, j | 0 <= i < j < |ranked|
      ensures ranked[i].score >= ranked[j].score
      ensures ranked[i].score == ranked[j].score ==> !StringLess(ranked[j].name, ranked[i].name)
    {
      RankedByScore(ranked, i, j);
    }
    best := ranked;
    if |ranked| > 5 {
      best, others := ranked[..5], ranked[5..];
      assert ranked == best + others;
    }
  }
}
