/** Planning song enrichment from ranked lookup candidates and from trusted
    local release-type labels. */
module Enrichment {
  import opened Options
  import opened Text

  /** A song with the fields it has; "" and 0 are missing. */
  datatype Song = Song(id: string, album: string, releaseDate: string, releaseYear: int, releaseType: string)

  datatype Candidate =
    Candidate(source: string, album: string, releaseDate: string, releaseType: string, confidence: real)

  /** What the lookup returned for one song. */
  datatype Lookup = LookupFailed | Found(candidates: seq<Candidate>)

  datatype Fill = Fill(album: string, releaseDate: string, releaseYear: int, releaseType: string)

  datatype Verdict = Update | SkipLookupFailed | SkipUnresolved | SkipNoData | SkipLowConfidence

  datatype Resolution =
    Resolution(songID: string, verdict: Verdict, confidence: real, fill: Option<Fill>, candidate: Option<Candidate>)

  /** The year a date starts with, read off the date as it stands. */
  function ReleaseYearOf(date: string): int {
    if |date| >= 4 && AllDigits(date[..4]) && Number(date[..4]) >= 1000 then Number(date[..4]) else 0
  }

  /** The planner's reader trims first. */
  function ParseReleaseYear(date: string): int {
    ReleaseYearOf(TrimSpace(date))
  }

  function WithYear(fill: Fill, song: Song): Fill {
    if song.releaseYear != 0 then fill
    else fill.(releaseYear := ParseReleaseYear(if song.releaseDate != "" then song.releaseDate else fill.releaseDate))
  }

  /** The label counts only for a song without a type. */
  function Label(labels: map<string, string>, song: Song): string {
    if song.releaseType == "" && song.id in labels then labels[song.id] else ""
  }

  // ------------------------------------------------------ what is promised

  /** The candidate has something that the song lacks; a type does not count
      when the label supplies it. */
  predicate Contributes(song: Song, curated: string, c: Candidate) {
    || (song.album == "" && c.album != "")
    || (song.releaseDate == "" && c.releaseDate != "")
    || (song.releaseType == "" && curated == "" && c.releaseType != "")
  }

  /** The first candidate that contributes. */
  function First(song: Song, curated: string, candidates: seq<Candidate>): Option<Candidate> {
    if candidates == [] then None
    else if Contributes(song, curated, candidates[0]) then Some(candidates[0])
    else First(song, curated, candidates[1..])
  }

  lemma {:induction false} FirstAt(song: Song, curated: string, candidates: seq<Candidate>, i: nat)
    requires i < |candidates| && forall k :: 0 <= k < i ==> !Contributes(song, curated, candidates[k])
    ensures Contributes(song, curated, candidates[i]) ==> First(song, curated, candidates) == Some(candidates[i])
    ensures i == |candidates| - 1 && !Contributes(song, curated, candidates[i]) ==>
              First(song, curated, candidates) == None
  {
    if i == 0 {
    } else {
      FirstAt(song, curated, candidates[1..], i - 1);
    }
  }

  predicate FillsOnlyGaps(song: Song, fill: Fill) {
    && (fill.album != "" ==> song.album == "")
    && (fill.releaseDate != "" ==> song.releaseDate == "")
    && (fill.releaseYear != 0 ==> song.releaseYear == 0)
    && (fill.releaseType != "" ==> song.releaseType == "")
  }

  /** Every value in the fill is the label's or the candidate's, and the year
      is that of the date that survives. */
  predicate FillComesFrom(song: Song, curated: string, c: Candidate, fill: Fill) {
    && (fill.album == if song.album == "" then c.album else "")
    && (fill.releaseDate == if song.releaseDate == "" then c.releaseDate else "")
    && (fill.releaseYear == if song.releaseYear != 0 then 0
                            else ParseReleaseYear(if song.releaseDate != "" then song.releaseDate else c.releaseDate))
    && (fill.releaseType == if curated != "" then curated else if song.releaseType == "" then c.releaseType else "")
  }

  function LabelFill(song: Song, curated: string): Fill {
    WithYear(Fill("", "", 0, curated), song)
  }

  /** What the lookup has to offer for the song. */
  function Offer(song: Song, curated: string, found: Lookup): Option<Candidate> {
    if found.Found? then First(song, curated, found.candidates) else None
  }

  /** Exactly which verdict a song without a label gets. */
  ghost predicate RightWithoutLabel(song: Song, found: Lookup, minimum: real, r: Resolution) {
    var offer := Offer(song, "", found);
    && (r.verdict == SkipLookupFailed <==> found.LookupFailed?)
    && (r.verdict == SkipUnresolved <==> found == Found([]))
    && (r.verdict == SkipNoData <==> found.Found? && found.candidates != [] && offer.None?)
    && (r.verdict == SkipLowConfidence <==> offer.Some? && offer.value.confidence < minimum)
    && (r.verdict == Update <==> offer.Some? && offer.value.confidence >= minimum)
  }

  /** An update cites the offer when that is good enough, and otherwise rests
      on the label alone. */
  ghost predicate RightUpdate(song: Song, curated: string, found: Lookup, minimum: real, r: Resolution) {
    var offer := Offer(song, curated, found);
    && r.fill.Some? && FillsOnlyGaps(song, r.fill.value)
    && if offer.Some? && offer.value.confidence >= minimum
       then r.candidate == offer && r.confidence == offer.value.confidence
            && FillComesFrom(song, curated, offer.value, r.fill.value)
       else r.candidate == None && r.confidence == 1.0 && r.fill.value == LabelFill(song, curated)
  }

  ghost predicate RightResolution(song: Song, curated: string, found: Lookup, minimum: real, r: Resolution) {
    && r.songID == song.id
    && (if curated != "" then r.verdict == Update && r.fill.Some? && r.fill.value.releaseType == curated
        else RightWithoutLabel(song, found, minimum, r))
    && (r.verdict == Update ==> RightUpdate(song, curated, found, minimum, r))
  }

  // ------------------------------------------------- what the event records

  /** The aggregate's merge: gaps are filled, and a missing year is that of the
      merged date, which is not trimmed when it is the song's own. */
  function Enriched(song: Song, album: string, releaseDate: string, releaseType: string): Song {
    var mergedDate := if song.releaseDate == "" then TrimSpace(releaseDate) else song.releaseDate;
    Song(song.id,
         if song.album == "" then TrimSpace(album) else song.album,
         mergedDate,
         if song.releaseYear == 0 && mergedDate != "" then ReleaseYearOf(mergedDate) else song.releaseYear,
         if song.releaseType == "" then TrimSpace(releaseType) else song.releaseType)
  }

  /** The song with its gaps filled as planned. */
  function Filled(song: Song, fill: Fill): Song {
    Song(song.id,
         if song.album == "" then fill.album else song.album,
         if song.releaseDate == "" then fill.releaseDate else song.releaseDate,
         if song.releaseYear == 0 then fill.releaseYear else song.releaseYear,
         if song.releaseType == "" then fill.releaseType else song.releaseType)
  }

  predicate Trimmed(s: string) {
    TrimSpace(s) == s
  }

  predicate TrimmedFill(fill: Fill) {
    Trimmed(fill.album) && Trimmed(fill.releaseDate) && Trimmed(fill.releaseType)
  }

  /** The song has no year, and a date of its own that starts with a space in
      front of a readable year. */
  predicate YearBehindSpace(song: Song) {
    && song.releaseYear == 0 && song.releaseDate != ""
    && IsSpace(song.releaseDate[0]) && ParseReleaseYear(song.releaseDate) != 0
  }

  /** Dropping a space behind the date changes no year. */
  lemma {:induction false} YearIgnoresTheEnd(date: string)
    requires date != "" && IsSpace(date[|date| - 1])
    ensures ReleaseYearOf(date[..|date| - 1]) == ReleaseYearOf(date)
  {
    var shorter := date[..|date| - 1];
    if |date| > 4 {
      assert shorter[..4] == date[..4];
    } else if |date| == 4 {
      assert !IsDigit(date[..4][3]);
    }
  }

  /** Both readers find the same year behind anything but a space. */
  lemma {:induction false} SameYearUnlessSpace(date: string)
    requires date != "" && !IsSpace(date[0])
    ensures ParseReleaseYear(date) == ReleaseYearOf(date)
  {
    if IsSpace(date[|date| - 1]) {
      YearIgnoresTheEnd(date);
      SameYearUnlessSpace(date[..|date| - 1]);
    } else {
      assert TrimSpace(date) == date;
    }
  }

  lemma {:induction false} NoYearBehindSpace(date: string)
    requires date != "" && IsSpace(date[0])
    ensures ReleaseYearOf(date) == 0
  {
    if |date| >= 4 {
      assert !IsDigit(date[..4][0]);
    }
  }

  /** The year as planned is the year as recorded, unless the song's own date
      hides one behind a space. */
  lemma {:induction false} PlannedYearIsRecorded(song: Song, fill: Fill)
    requires FillsOnlyGaps(song, fill) && Trimmed(fill.releaseDate) && fill == WithYear(fill, song)
    ensures Enriched(song, fill.album, fill.releaseDate, fill.releaseType).releaseYear == Filled(song, fill).releaseYear
        <==> !YearBehindSpace(song)
  {
    if song.releaseDate != "" {
      if IsSpace(song.releaseDate[0]) {
        NoYearBehindSpace(song.releaseDate);
      } else {
        SameYearUnlessSpace(song.releaseDate);
      }
    }
  }

  /** The plan matches the event, the year included: for every update, what the
      aggregate records is the song with its gaps filled as planned, exactly
      when the fill is trimmed and the song's own date hides no year. */
  lemma {:induction false} PlanMatchesTheEvent(song: Song, curated: string, found: Lookup, minimum: real, r: Resolution)
    requires RightResolution(song, curated, found, minimum, r) && r.verdict == Update
    ensures var fill := r.fill.value;
            Enriched(song, fill.album, fill.releaseDate, fill.releaseType) == Filled(song, fill)
            <==> TrimmedFill(fill) && !YearBehindSpace(song)
  {
    var fill := r.fill.value;
    assert RightUpdate(song, curated, found, minimum, r);
    if r.candidate.Some? {
      assert FillComesFrom(song, curated, r.candidate.value, fill);
    } else {
      assert fill == LabelFill(song, curated);
    }
    assert Trimmed("");
    if TrimmedFill(fill) {
      PlannedYearIsRecorded(song, fill);
    }
  }

  /** A label on a song whose date starts with a space: the plan has the year,
      the event has none. */
  lemma {:induction false} YearLost()
    ensures var song := Song("s", "", " 1992", 0, "");
            var r := Resolution("s", Update, 1.0, Some(Fill("", "", 1992, "lp")), None);
            && RightResolution(song, "lp", LookupFailed, 0.9, r)
            && Enriched(song, "", "", "lp").releaseYear == 0
  {
    var song := Song("s", "", " 1992", 0, "");
    assert song.releaseDate[1..] == "1992" && TrimSpace("1992") == "1992" && "1992"[..4] == "1992";
    Number1992();
    NoYearBehindSpace(song.releaseDate);
  }

  lemma {:induction false} Number1992()
    ensures AllDigits("1992") && Number("1992") == 1992
  {
    assert "1992"[..3] == "199" && "199"[..2] == "19" && "19"[..1] == "1" && "1"[..0] == "";
    assert Number("1") == 1 && Number("19") == 19 && Number("199") == 199;
  }

  /** An update with a trimmed fill always records something. */
  lemma {:induction false} UpdatesRecord(song: Song, curated: string, found: Lookup, minimum: real, r: Resolution)
    requires RightResolution(song, curated, found, minimum, r) && r.verdict == Update && TrimmedFill(r.fill.value)
    ensures Enriched(song, r.fill.value.album, r.fill.value.releaseDate, r.fill.value.releaseType) != song
  {
    assert RightUpdate(song, curated, found, minimum, r);
    if r.candidate.Some? {
      OfferContributes(song, curated, found.candidates);
    }
  }

  lemma {:induction false} OfferContributes(song: Song, curated: string, candidates: seq<Candidate>)
    requires First(song, curated, candidates).Some?
    ensures Contributes(song, curated, First(song, curated, candidates).value)
  {
    if Contributes(song, curated, candidates[0]) {
    } else {
      OfferContributes(song, curated, candidates[1..]);
    }
  }

  /** Reruns converge: the same values enrich an enriched song no further. */
  lemma {:induction false} RerunRecordsNothing(song: Song, album: string, releaseDate: string, releaseType: string)
    ensures var once := Enriched(song, album, releaseDate, releaseType);
            Enriched(once, album, releaseDate, releaseType) == once
  {
  }

  ghost predicate RankedByConfidence(candidates: seq<Candidate>) {
    forall i, j :: 0 <= i < j < |candidates| ==> candidates[i].confidence >= candidates[j].confidence
  }

  /** With candidates ranked by confidence, the offer is unbeaten among those
      that have something to contribute. */
  lemma {:induction false} OfferIsBest(song: Song, curated: string, candidates: seq<Candidate>, i: nat)
    requires RankedByConfidence(candidates)
    requires i < |candidates| && Contributes(song, curated, candidates[i])
    ensures var offer := First(song, curated, candidates);
            offer.Some? && offer.value in candidates && Contributes(song, curated, offer.value)
            && candidates[i].confidence <= offer.value.confidence
  {
    if i == 0 {
    } else {
      if !Contributes(song, curated, candidates[0]) {
        OfferIsBest(song, curated, candidates[1..], i - 1);
      }
    }
  }

  // ------------------------------------------------------------ the program

  method PlanYear(fill: Fill, song: Song) returns (planned: Fill)
    ensures planned == WithYear(fill, song)
  {
    planned := fill;
    if song.releaseYear == 0 {
      var yearSource := song.releaseDate;
      if yearSource == "" {
        yearSource := fill.releaseDate;
      }
      planned := planned.(releaseYear := ParseReleaseYear(yearSource));
    }
  }

  method ResolveFromLabel(song: Song, curated: string) returns (r: Resolution)
    ensures r == Resolution(song.id, Update, 1.0, Some(LabelFill(song, curated)), None)
  {
    var fill := PlanYear(Fill("", "", 0, curated), song);
    r := Resolution(song.id, Update, 1.0, Some(fill), None);
  }

  /** The first candidate that carries data for a missing field. */
  method ResolveFromCandidates(song: Song, curated: string, candidates: seq<Candidate>, minimum: real)
    returns (r: Option<Resolution>)
    requires curated != "" ==> song.releaseType == ""
    ensures r.None? <==> First(song, curated, candidates).None?
    ensures r.Some? ==> RightResolution(song, curated, Found(candidates), minimum, r.value)
  {
    for i := 0 to |candidates|
      invariant forall k :: 0 <= k < i ==> !Contributes(song, curated, candidates[k])
    {
      var candidate := candidates[i];
      FirstAt(song, curated, candidates, i);
      var fill := Fill("", "", 0, curated);
      if song.album == "" && candidate.album != "" {
        fill := fill.(album := candidate.album);
      }
      if song.releaseDate == "" && candidate.releaseDate != "" {
        fill := fill.(releaseDate := candidate.releaseDate);
      }
      if song.releaseType == "" && fill.releaseType == "" && candidate.releaseType != "" {
        fill := fill.(releaseType := candidate.releaseType);
      }
      var tidalType := curated == "" && fill.releaseType != "";
      if fill.album != "" || fill.releaseDate != "" || tidalType {
        fill := PlanYear(fill, song);
        if candidate.confidence >= minimum {
          return Some(Resolution(song.id, Update, candidate.confidence, Some(fill), Some(candidate)));
        }
        if curated != "" {
          var fromLabel := ResolveFromLabel(song, curated);
          return Some(fromLabel);
        }
        return Some(Resolution(song.id, SkipLowConfidence, candidate.confidence, Some(fill), Some(candidate)));
      }
    }
    NoneFirst(song, curated, candidates);
    r := None;
  }

  lemma {:induction false} NoneFirst(song: Song, curated: string, candidates: seq<Candidate>)
    requires forall k :: 0 <= k < |candidates| ==> !Contributes(song, curated, candidates[k])
    ensures First(song, curated, candidates) == None
  {
    if candidates == [] {
    } else {
      NoneFirst(song, curated, candidates[1..]);
    }
  }

  method Resolve(song: Song, curated: string, found: Lookup, minimum: real) returns (r: Resolution)
    requires curated != "" ==> song.releaseType == ""
    ensures RightResolution(song, curated, found, minimum, r)
  {
    if found.LookupFailed? || found.candidates == [] {
      if curated != "" {
        r := ResolveFromLabel(song, curated);
      } else {
        r := Resolution(song.id, if found.LookupFailed? then SkipLookupFailed else SkipUnresolved, 0.0, None, None);
      }
      return;
    }
    var best := ResolveFromCandidates(song, curated, found.candidates, minimum);
    if best.Some? {
      r := best.value;
    } else if curated != "" {
      r := ResolveFromLabel(song, curated);
    } else {
      r := Resolution(song.id, SkipNoData, 0.0, None, None);
    }
  }

  /** One resolution per song, in order. */
  method ResolveAll(songs: seq<Song>, lookups: seq<Lookup>, labels: map<string, string>, minimum: real)
    returns (resolutions: seq<Resolution>)
    requires |lookups| == |songs|
    ensures |resolutions| == |songs|
    ensures forall i :: 0 <= i < |songs| ==>
              RightResolution(songs[i], Label(labels, songs[i]), lookups[i], minimum, resolutions[i])
  {
    resolutions := [];
    for i := 0 to |songs|
      invariant |resolutions| == i
      invariant forall k :: 0 <= k < i ==>
                  RightResolution(songs[k], Label(labels, songs[k]), lookups[k], minimum, resolutions[k])
    {
      var r := Resolve(songs[i], Label(labels, songs[i]), lookups[i], minimum);
      resolutions := resolutions + [r];
    }
  }
}
