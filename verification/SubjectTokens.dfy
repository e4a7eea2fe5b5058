/** Stream types, stream IDs and event types as tokens of a message subject:
    the escape is injective, the parser undoes it, and the wildcard scope of an
    aggregate matches its own subjects only. */
module SubjectTokens {
  import opened Options
  import opened Text

  /** The escape letter of a reserved rune. */
  function LetterOf(c: char): Option<char> {
    match c
    case '.' => Some('d')
    case '*' => Some('s')
    case '>' => Some('g')
    case ' ' => Some('w')
    case '\t' => Some('t')
    case '\n' => Some('n')
    case '\r' => Some('r')
    case '\U{0c}' => Some('f')
    case _ => None
  }

  function RuneOf(letter: char): Option<char> {
    match letter
    case 'd' => Some('.')
    case 's' => Some('*')
    case 'g' => Some('>')
    case 'w' => Some(' ')
    case 't' => Some('\t')
    case 'n' => Some('\n')
    case 'r' => Some('\r')
    case 'f' => Some('\U{0c}')
    case _ => None
  }

  function Escape(c: char): string {
    if c == '-' then "--"
    else if LetterOf(c).Some? then ['-', LetterOf(c).value, '-']
    else [c]
  }

  function Escaped(s: string): string {
    if s == "" then "" else Escaped(s[..|s| - 1]) + Escape(s[|s| - 1])
  }

  /** "-" alone stands for the empty string. */
  function Token(s: string): string {
    if s == "" then "-" else Escaped(s)
  }

  method SanitizeSubjectToken(s: string) returns (token: string)
    ensures token == Token(s)
  {
    if s == "" {
      return "-";
    }
    token := "";
    for i := 0 to |s|
      invariant token == Escaped(s[..i])
    {
      assert s[..i + 1][..i] == s[..i];
      if s[i] == '-' {
        token := token + "--";
      } else if LetterOf(s[i]).Some? {
        token := token + ['-', LetterOf(s[i]).value, '-'];
      } else {
        token := token + [s[i]];
      }
    }
    assert s[..|s|] == s;
  }

  // --------------------------------------------------------------- decoding

  function Prepend(c: char, rest: Option<string>): Option<string> {
    if rest.Some? then Some([c] + rest.value) else None
  }

  function Unescaped(t: string): Option<string> {
    if t == "" then Some("")
    else if t[0] != '-' then Prepend(t[0], Unescaped(t[1..]))
    else if |t| > 1 && t[1] == '-' then Prepend('-', Unescaped(t[2..]))
    else if |t| <= 2 || t[2] != '-' || RuneOf(t[1]).None? then None
    else Prepend(RuneOf(t[1]).value, Unescaped(t[3..]))
  }

  function Decoded(token: string): Option<string> {
    if token == "" then None else if token == "-" then Some("") else Unescaped(token)
  }

  method DecodeSubjectToken(token: string) returns (r: Option<string>)
    ensures r == Decoded(token)
  {
    if token == "" {
      return None;
    }
    if token == "-" {
      return Some("");
    }
    var b := "";
    var i := 0;
    AfterEnds("", Unescaped(token));
    assert token[0..] == token;
    while i < |token|
      invariant 0 <= i <= |token|
      invariant Unescaped(token) == After(b, Unescaped(token[i..]))
    {
      var rest := token[i..];
      if token[i] != '-' {
        AfterPrepend(b, token[i], Unescaped(rest[1..]));
        b := b + [token[i]];
        i := i + 1;
      } else if i + 1 < |token| && token[i + 1] == '-' {
        AfterPrepend(b, '-', Unescaped(rest[2..]));
        b := b + ['-'];
        i := i + 2;
      } else if i + 2 >= |token| || token[i + 2] != '-' || RuneOf(token[i + 1]).None? {
        return None;
      } else {
        AfterPrepend(b, RuneOf(token[i + 1]).value, Unescaped(rest[3..]));
        b := b + [RuneOf(token[i + 1]).value];
        i := i + 3;
      }
    }
    AfterEnds(b, Some(""));
    r := Some(b);
  }

  function After(b: string, rest: Option<string>): Option<string> {
    if rest.Some? then Some(b + rest.value) else None
  }

  lemma {:induction false} AfterEnds(b: string, rest: Option<string>)
    ensures b == "" ==> After(b, rest) == rest
    ensures rest == Some("") ==> After(b, rest) == Some(b)
  {
    if rest.Some? {
      assert "" + rest.value == rest.value && b + "" == b;
    }
  }

  lemma {:induction false} AfterPrepend(b: string, c: char, rest: Option<string>)
    ensures After(b, Prepend(c, rest)) == After(b + [c], rest)
  {
    if rest.Some? {
      assert b + ([c] + rest.value) == b + [c] + rest.value;
    }
  }

  // ------------------------------------------------------------- round trip

  lemma {:induction false} LettersInvert(c: char)
    ensures LetterOf(c).Some? ==> RuneOf(LetterOf(c).value) == Some(c) && LetterOf(c).value != '-'
    ensures RuneOf(c).Some? ==> LetterOf(RuneOf(c).value) == Some(c)
  {
  }

  lemma {:induction false} UnescapeOne(c: char, rest: string)
    ensures Unescaped(Escape(c) + rest) == Prepend(c, Unescaped(rest))
  {
    var t := Escape(c) + rest;
    LettersInvert(c);
    assert t[|Escape(c)|..] == rest;
  }

  lemma {:induction false} UnescapeMany(s: string, rest: string)
    ensures Unescaped(Escaped(s) + rest) == After(s, Unescaped(rest))
    decreases |s|
  {
    if s == "" {
      assert "" + rest == rest;
      AfterEnds("", Unescaped(rest));
    } else {
      var init, c := s[..|s| - 1], s[|s| - 1];
      assert Escaped(s) + rest == Escaped(init) + (Escape(c) + rest);
      UnescapeMany(init, Escape(c) + rest);
      UnescapeOne(c, rest);
      AfterPrepend(init, c, Unescaped(rest));
      assert s == init + [c];
    }
  }

  lemma {:induction false} EscapedIsLonger(s: string)
    ensures |Escaped(s)| >= |s|
    ensures s != "" ==> Escaped(s) != "-"
  {
    if s == "" {
    } else {
      var init, last := s[..|s| - 1], Escape(s[|s| - 1]);
      EscapedIsLonger(init);
      assert last != "-" && |last| >= 1;
      if init == "" {
        assert Escaped(s) == last;
      }
    }
  }

  /** Decoding undoes encoding, for every string. */
  lemma {:induction false} TokenRoundTrip(s: string)
    ensures Decoded(Token(s)) == Some(s)
  {
    if s != "" {
      EscapedIsLonger(s);
      UnescapeMany(s, "");
      AfterEnds(s, Some(""));
      assert Escaped(s) + "" == Escaped(s);
    }
  }

  /** Distinct strings get distinct tokens. */
  lemma {:induction false} TokensAreDistinct(x: string, y: string)
    ensures Token(x) == Token(y) <==> x == y
  {
    TokenRoundTrip(x);
    TokenRoundTrip(y);
  }

  /** A token never holds a reserved rune. */
  predicate Clean(t: string) {
    forall i :: 0 <= i < |t| ==> LetterOf(t[i]).None?
  }

  lemma {:induction false} TokenIsClean(s: string)
    ensures Clean(Token(s)) && Token(s) != ""
  {
    EscapedIsClean(s);
    EscapedIsLonger(s);
  }

  lemma {:induction false} EscapedIsClean(s: string)
    ensures Clean(Escaped(s))
  {
    if s == "" {
    } else {
      EscapedIsClean(s[..|s| - 1]);
    }
  }

  lemma {:induction false} EscapedSnoc(s: string, c: char)
    ensures Escaped(s + [c]) == Escaped(s) + Escape(c)
  {
    assert (s + [c])[..|s|] == s;
  }

  lemma {:induction false} EscapedJoins(x: string, y: string)
    ensures Escaped(x + y) == Escaped(x) + Escaped(y)
  {
    if y == "" {
      assert x + y == x;
    } else {
      var init, last := y[..|y| - 1], y[|y| - 1];
      calc {
        Escaped(x + y);
        { assert x + y == (x + init) + [last]; }
        Escaped((x + init) + [last]);
        { EscapedSnoc(x + init, last); }
        Escaped(x + init) + Escape(last);
        { EscapedJoins(x, init); }
        Escaped(x) + Escaped(init) + Escape(last);
        { Associates(Escaped(x), Escaped(init), Escape(last)); }
        Escaped(x) + (Escaped(init) + Escape(last));
        { EscapedSnoc(init, last); assert init + [last] == y; }
        Escaped(x) + Escaped(y);
      }
    }
  }

  lemma {:induction false} EscapedOne(c: char, rest: string)
    ensures Escaped([c] + rest) == Escape(c) + Escaped(rest)
  {
    EscapedJoins([c], rest);
    assert [c][..0] == "";
    assert Escaped([c]) == Escape(c);
  }

  /** Whatever decodes was either produced by the encoder or carries a reserved
      rune in the open, which the decoder passes through. */
  lemma {:induction false} DecodedIsEncodedUnlessRaw(token: string)
    requires Decoded(token).Some?
    ensures Token(Decoded(token).value) == token <==> Clean(token)
  {
    if token != "-" {
      UnescapedIsEscapedUnlessRaw(token);
    }
  }

  /** A wildcard is a token that decodes, although nothing is encoded as it. */
  lemma {:induction false} RawStar(s: string)
    ensures Decoded("*") == Some("*") && Token(s) != "*"
  {
    calc {
      Unescaped("*");
      Prepend('*', Unescaped("*"[1..]));
      { assert "*"[1..] == ""; }
      Prepend('*', Some(""));
      { assert ['*'] + "" == "*"; }
      Some("*");
    }
    TokenIsClean(s);
    assert !Clean("*") by {
      assert "*"[0] == '*';
    }
  }

  lemma {:induction false} UnescapedIsEscapedUnlessRaw(t: string)
    requires Unescaped(t).Some?
    ensures Escaped(Unescaped(t).value) == t <==> Clean(t)
    decreases |t|
  {
    if t == "" {
    } else {
      var n := if t[0] != '-' then 1 else if |t| > 1 && t[1] == '-' then 2 else 3;
      var c := if n == 1 then t[0] else if n == 2 then '-' else RuneOf(t[1]).value;
      LettersInvert(t[if n == 3 then 1 else 0]);
      UnescapedIsEscapedUnlessRaw(t[n..]);
      EscapedOne(c, Unescaped(t[n..]).value);
      CleanSplits(t, n);
      SameStart(t, n, c);
    }
  }

  lemma {:induction false} CleanSplits(t: string, n: nat)
    requires n <= |t|
    ensures Clean(t) <==> Clean(t[..n]) && Clean(t[n..])
  {
    if Clean(t[..n]) && Clean(t[n..]) {
      forall i | 0 <= i < |t| ensures LetterOf(t[i]).None? {
        assert t[i] == if i < n then t[..n][i] else t[n..][i - n];
      }
    }
    if Clean(t) {
      assert forall i :: 0 <= i < |t| - n ==> t[n..][i] == t[n + i];
    }
  }

  lemma {:induction false} SameStart(t: string, n: nat, c: char)
    requires n <= |t|
    requires if n == 1 then c == t[0] != '-' else if n == 2 then t[..2] == "--" && c == '-'
             else n == 3 && t[0] == '-' && t[2] == '-' && LetterOf(c) == Some(t[1]) && RuneOf(t[1]) == Some(c)
                  && t[1] != '-'
    ensures Escape(c) == t[..n] <==> Clean(t[..n])
    ensures forall rest: string :: Escape(c) + rest == t <==> Escape(c) == t[..n] && rest == t[n..]
  {
    forall rest: string ensures Escape(c) + rest == t <==> Escape(c) == t[..n] && rest == t[n..] {
      if Escape(c) + rest == t {
        assert t[0] == (Escape(c) + rest)[0] == Escape(c)[0];
        assert t[..|Escape(c)|] == Escape(c) && t[|Escape(c)|..] == rest;
      }
      if Escape(c) == t[..n] && rest == t[n..] {
        assert t == t[..n] + t[n..];
      }
    }
  }

  // --------------------------------------------------------------- subjects

  function Split(s: string): seq<string> {
    if s == "" then [""]
    else if s[0] == '.' then [""] + Split(s[1..])
    else
      var rest := Split(s[1..]);
      [[s[0]] + rest[0]] + rest[1..]
  }

  lemma {:induction false} SplitToken(token: string, rest: string)
    requires forall i :: 0 <= i < |token| ==> token[i] != '.'
    ensures Split(token + "." + rest) == [token] + Split(rest)
    ensures Split(token) == [token]
    decreases |token|
  {
    if token == "" {
      assert token + "." + rest == "." + rest;
      assert ("." + rest)[1..] == rest;
    } else {
      var s := token + "." + rest;
      SplitToken(token[1..], rest);
      assert s[0] == token[0] && s[1..] == token[1..] + "." + rest;
      assert [token[0]] + token[1..] == token;
    }
  }

  function Subject(streamType: string, streamID: string, eventType: string): string {
    "domain" + "." + ("events" + "." + (Token(streamType) + "." + (Token(streamID) + "." + Token(eventType))))
  }

  function ParseSubject(subject: string): Option<(string, string, string)> {
    var tokens := Split(subject);
    if |tokens| != 5 || tokens[0] != "domain" || tokens[1] != "events" then None
    else
      match (Decoded(tokens[2]), Decoded(tokens[3]), Decoded(tokens[4]))
      case (Some(t), Some(id), Some(e)) => Some((t, id, e))
      case _ => None
  }

  lemma {:induction false} NoDots(s: string)
    ensures forall i :: 0 <= i < |Token(s)| ==> Token(s)[i] != '.'
  {
    TokenIsClean(s);
  }

  lemma {:induction false} TailTokens(streamType: string, streamID: string, eventType: string)
    ensures Split(Token(streamType) + "." + (Token(streamID) + "." + Token(eventType))) ==
              [Token(streamType), Token(streamID), Token(eventType)]
  {
    NoDots(streamType);
    NoDots(streamID);
    NoDots(eventType);
    SplitToken(Token(eventType), "");
    SplitToken(Token(streamID), Token(eventType));
    SplitToken(Token(streamType), Token(streamID) + "." + Token(eventType));
  }

  lemma {:induction false} TwoTokens(a: string, b: string, tail: string)
    requires forall i :: 0 <= i < |a| ==> a[i] != '.'
    requires forall i :: 0 <= i < |b| ==> b[i] != '.'
    ensures Split(a + "." + (b + "." + tail)) == [a, b] + Split(tail)
  {
    SplitToken(b, tail);
    SplitToken(a, b + "." + tail);
    assert [a] + ([b] + Split(tail)) == [a, b] + Split(tail);
  }

  lemma {:induction false} HeadTokens(tail: string)
    ensures Split("domain" + "." + ("events" + "." + tail)) == ["domain", "events"] + Split(tail)
  {
    TwoTokens("domain", "events", tail);
  }

  lemma {:induction false} SubjectTokensAre(streamType: string, streamID: string, eventType: string)
    ensures Split(Subject(streamType, streamID, eventType))
            == ["domain", "events", Token(streamType), Token(streamID), Token(eventType)]
  {
    TailTokens(streamType, streamID, eventType);
    HeadTokens(Token(streamType) + "." + (Token(streamID) + "." + Token(eventType)));
  }

  /** Parsing undoes composing, for every stream type, ID and event type. */
  lemma {:induction false} SubjectRoundTrip(streamType: string, streamID: string, eventType: string)
    ensures ParseSubject(Subject(streamType, streamID, eventType)) == Some((streamType, streamID, eventType))
  {
    SubjectTokensAre(streamType, streamID, eventType);
    TokenRoundTrip(streamType);
    TokenRoundTrip(streamID);
    TokenRoundTrip(eventType);
  }

  /** A single-token wildcard. */
  predicate Matches(pattern: seq<string>, tokens: seq<string>) {
    |pattern| == |tokens| && forall i :: 0 <= i < |pattern| ==> pattern[i] == "*" || pattern[i] == tokens[i]
  }

  function Scope(streamID: string): seq<string> {
    ["domain", "events", "*", Token(streamID), "*"]
  }

  /** An aggregate's scope covers all of its subjects and nobody else's. */
  lemma {:induction false} ScopeIsExact(streamID: string, streamType: string, otherID: string, eventType: string)
    ensures Matches(Scope(streamID), Split(Subject(streamType, otherID, eventType))) <==> streamID == otherID
  {
    SubjectTokensAre(streamType, otherID, eventType);
    TokensAreDistinct(streamID, otherID);
    TokenIsClean(streamID);
    var pattern, tokens := Scope(streamID), Split(Subject(streamType, otherID, eventType));
    assert pattern[3] != "*" by {
      assert LetterOf('*').Some?;
      assert "*"[0] == '*';
    }
    if streamID == otherID {
      assert forall i :: 0 <= i < 5 ==> pattern[i] == "*" || pattern[i] == tokens[i];
    }
  }
}
