/** The number printer with thousands separators and the parser that undoes it. */
module NumberText {
  import opened Text

  const MAX_INT := 0x7fff_ffff_ffff_ffff
  const MIN_INT := -0x8000_0000_0000_0000

  const EM_DASH := "\U{2014}"

  function Digits(n: nat): string {
    if n < 10 then [DigitOf(n)] else Digits(n / 10) + [DigitOf(n % 10)]
  }

  /** The decimal verb of the formatter. */
  function Decimal(n: int): string {
    if n < 0 then "-" + Digits(-n) else Digits(n)
  }

  /** What goes before a digit that has `n` - 1 digits behind it. */
  function Comma(n: nat): string {
    if n % 3 == 0 then "," else ""
  }

  function Piece(inside: bool, n: nat, c: char): string {
    (if inside then Comma(n) else "") + [c]
  }

  /** A comma before every third place from the end, except at the front. */
  function GroupFrom(s: string, i: nat): string
    requires i <= |s|
    decreases |s| - i
  {
    if i == |s| then ""
    else Piece(i > 0, |s| - i, s[i]) + GroupFrom(s, i + 1)
  }

  function Formatted(n: int): string {
    if n == 0 then EM_DASH else GroupFrom(Decimal(n), 0)
  }

  lemma {:induction false} ShortHasNoComma(s: string, i: nat)
    requires |s| <= 3 && i <= |s|
    ensures GroupFrom(s, i) == s[i..]
    decreases |s| - i
  {
    if i == |s| {
    } else {
      ShortHasNoComma(s, i + 1);
    }
  }

  lemma {:induction false} PieceJoins(text: string, inside: bool, n: nat, c: char)
    ensures text + Piece(inside, n, c) == (if inside && n % 3 == 0 then text + "," else text) + [c]
  {
    if inside && n % 3 == 0 {
      Associates(text, ",", [c]);
    } else {
      assert "" + [c] == [c];
    }
  }

  lemma {:induction false} GroupStep(s: string, i: nat, text: string)
    requires i < |s|
    ensures text + GroupFrom(s, i)
            == ((if i > 0 && (|s| - i) % 3 == 0 then text + "," else text) + [s[i]]) + GroupFrom(s, i + 1)
  {
    Associates(text, Piece(i > 0, |s| - i, s[i]), GroupFrom(s, i + 1));
    PieceJoins(text, i > 0, |s| - i, s[i]);
  }

  method FormatNumber(n: int) returns (text: string)
    ensures text == Formatted(n)
  {
    if n == 0 {
      return EM_DASH;
    }
    var s := Decimal(n);
    if |s| <= 3 {
      ShortHasNoComma(s, 0);
      return s;
    }
    text := Grouped(s);
  }

  /** The loop over the digits. */
  method Grouped(s: string) returns (text: string)
    ensures text == GroupFrom(s, 0)
  {
    text := "";
    ghost var whole := GroupFrom(s, 0);
    for i := 0 to |s|
      invariant whole == text + GroupFrom(s, i)
    {
      GroupStep(s, i, text);
      if i > 0 && (|s| - i) % 3 == 0 {
        text := text + ",";
      }
      text := text + [s[i]];
    }
  }

  // --------------------------------------------------------------- parsing

  function WithoutCommas(s: string): string {
    if s == "" then "" else (if s[0] == ',' then "" else [s[0]]) + WithoutCommas(s[1..])
  }

  function WithoutPercent(s: string): string {
    if s != "" && s[|s| - 1] == '%' then s[..|s| - 1] else s
  }

  /** Zero on a syntax error, the nearest bound when out of range. */
  function Atoi(s: string): int {
    var negative := s != "" && s[0] == '-';
    var rest := if s != "" && (s[0] == '-' || s[0] == '+') then s[1..] else s;
    if rest == "" || !AllDigits(rest) then 0
    else
      var size: int := Number(rest);
      var n := if negative then -size else size;
      if n > MAX_INT then MAX_INT else if n < MIN_INT then MIN_INT else n
  }

  function ParseNumber(s: string): int {
    Atoi(WithoutPercent(WithoutCommas(TrimSpace(s))))
  }

  // ------------------------------------------------------------ round trip

  lemma {:induction false} DigitsAreDigits(n: nat)
    ensures Digits(n) != "" && AllDigits(Digits(n))
  {
    if n < 10 {
    } else {
      DigitsAreDigits(n / 10);
    }
  }

  lemma {:induction false} DigitsParse(n: nat)
    ensures AllDigits(Digits(n)) && Number(Digits(n)) == n
  {
    DigitsAreDigits(n);
    if n < 10 {
      assert Digits(n)[..0] == "";
      assert Number("") == 0;
    } else {
      DigitsParse(n / 10);
      assert Digits(n)[..|Digits(n)| - 1] == Digits(n / 10);
    }
  }

  /** Dropping commas behind a first rune is dropping them in the rest. */
  lemma {:induction false} DropsFirst(c: char, rest: string)
    ensures WithoutCommas([c] + rest) == (if c == ',' then "" else [c]) + WithoutCommas(rest)
  {
    assert ([c] + rest)[1..] == rest;
  }

  lemma {:induction false} PieceGoes(inside: bool, n: nat, c: char, rest: string)
    requires c != ','
    ensures WithoutCommas(Piece(inside, n, c) + rest) == [c] + WithoutCommas(rest)
  {
    DropsFirst(c, rest);
    if inside && n % 3 == 0 {
      DropsFirst(',', [c] + rest);
      Associates([','], [c], rest);
      assert "" + WithoutCommas([c] + rest) == WithoutCommas([c] + rest);
    } else {
      assert "" + [c] == [c];
    }
  }

  lemma {:induction false} GroupingIsUndone(s: string, i: nat)
    requires i <= |s| && forall k :: 0 <= k < |s| ==> s[k] != ','
    ensures WithoutCommas(GroupFrom(s, i)) == s[i..]
    decreases |s| - i
  {
    if i == |s| {
    } else {
      calc {
        WithoutCommas(GroupFrom(s, i));
        WithoutCommas(Piece(i > 0, |s| - i, s[i]) + GroupFrom(s, i + 1));
        { PieceGoes(i > 0, |s| - i, s[i], GroupFrom(s, i + 1)); }
        [s[i]] + WithoutCommas(GroupFrom(s, i + 1));
        { GroupingIsUndone(s, i + 1); }
        [s[i]] + s[i + 1..];
        s[i..];
      }
    }
  }

  lemma {:induction false} GroupingEnds(s: string, i: nat)
    requires i < |s| && forall k :: 0 <= k < |s| ==> !IsSpace(s[k])
    ensures GroupFrom(s, i) != "" && !IsSpace(GroupFrom(s, i)[0])
    ensures !IsSpace(GroupFrom(s, i)[|GroupFrom(s, i)| - 1])
    decreases |s| - i
  {
    if i + 1 == |s| {
    } else {
      GroupingEnds(s, i + 1);
    }
  }

  lemma {:induction false} DecimalShape(n: int)
    ensures Decimal(n) != ""
    ensures forall k :: 0 <= k < |Decimal(n)| ==>
              Decimal(n)[k] != ',' && Decimal(n)[k] != '%' && !IsSpace(Decimal(n)[k])
  {
    DigitsAreDigits(if n < 0 then -n else n);
  }

  /** The parser undoes the printer for every machine integer. */
  lemma {:induction false} RoundTrip(n: int)
    requires MIN_INT <= n <= MAX_INT
    ensures ParseNumber(Formatted(n)) == n
  {
    if n == 0 {
      DashParses();
    } else {
      var s := Decimal(n);
      DecimalShape(n);
      GroupingEnds(s, 0);
      GroupingIsUndone(s, 0);
      assert TrimSpace(Formatted(n)) == Formatted(n);
      assert s[0..] == s && WithoutPercent(s) == s;
      DecimalParses(n);
    }
  }

  lemma {:induction false} DecimalParses(n: int)
    requires MIN_INT <= n <= MAX_INT
    ensures Atoi(Decimal(n)) == n
  {
    var d := Digits(if n < 0 then -n else n);
    DigitsAreDigits(if n < 0 then -n else n);
    DigitsParse(if n < 0 then -n else n);
    if n < 0 {
      assert Decimal(n)[1..] == d;
    } else {
      assert IsDigit(d[0]);
    }
  }

  lemma {:induction false} DashParses()
    ensures ParseNumber(EM_DASH) == 0
  {
    assert EM_DASH[1..] == "";
    assert WithoutCommas(EM_DASH) == EM_DASH;
    assert !IsDigit(EM_DASH[0]);
  }

  // -------------------------------------------------------------- grouping

  /** Digits in threes from the right, the first group shorter if need be. */
  predicate InThrees(t: string) {
    if |t| <= 3 then t != "" && AllDigits(t)
    else t[|t| - 4] == ',' && AllDigits(t[|t| - 3..]) && InThrees(t[..|t| - 4])
  }

  lemma {:induction false} LastThree(s: string, d: string, i: nat)
    requires s != "" && |d| == 3 && i <= |s|
    ensures GroupFrom(s + d, i) == GroupFrom(s, i) + "," + d
    decreases |s| - i
  {
    var t := s + d;
    if i == |s| {
      ShortTail(t, |s|);
      assert t[|s|..] == d;
    } else {
      LastThree(s, d, i + 1);
      ThreeMore(|s| - i);
      var piece := Piece(i > 0, |s| - i, s[i]);
      assert piece == Piece(i > 0, |t| - i, t[i]);
      Associates(piece, GroupFrom(s, i + 1), "," + d);
      Associates(GroupFrom(s, i + 1), ",", d);
      Associates(GroupFrom(s, i), ",", d);
    }
  }

  lemma {:induction false} ThreeMore(n: nat)
    ensures Comma(n + 3) == Comma(n)
  {
  }

  lemma {:induction false} ShortTail(t: string, k: nat)
    requires 0 < k && |t| == k + 3
    ensures GroupFrom(t, k) == "," + t[k..]
  {
    assert GroupFrom(t, k + 3) == "";
    assert GroupFrom(t, k + 2) == [t[k + 2]];
    assert GroupFrom(t, k + 1) == [t[k + 1]] + [t[k + 2]];
    assert t[k..] == [t[k], t[k + 1], t[k + 2]];
  }

  lemma {:induction false} GroupedInThrees(s: string)
    requires s != "" && AllDigits(s)
    ensures InThrees(GroupFrom(s, 0))
    decreases |s|
  {
    if |s| <= 3 {
      ShortHasNoComma(s, 0);
      assert s[0..] == s;
    } else {
      var init, d := s[..|s| - 3], s[|s| - 3..];
      assert s == init + d;
      GroupedInThrees(init);
      LastThree(init, d, 0);
      var t := GroupFrom(s, 0);
      assert t == GroupFrom(init, 0) + "," + d;
      assert t[|t| - 3..] == d && t[..|t| - 4] == GroupFrom(init, 0) && t[|t| - 4] == ',';
    }
  }

  /** Positive numbers are grouped in threes. */
  lemma {:induction false} PositiveIsGrouped(n: int)
    requires n > 0
    ensures InThrees(Formatted(n))
  {
    DigitsAreDigits(n);
    GroupedInThrees(Digits(n));
  }

  /** Behind its first rune, `t` is `d`: so are their groups. */
  lemma {:induction false} SignShifts(t: string, d: string, i: nat)
    requires 0 < i <= |d| && |t| == |d| + 1 && forall k :: 0 <= k < |d| ==> t[k + 1] == d[k]
    ensures GroupFrom(t, i + 1) == GroupFrom(d, i)
    decreases |d| - i
  {
    if i == |d| {
    } else {
      SignShifts(t, d, i + 1);
      assert Piece(true, |t| - (i + 1), t[i + 1]) == Piece(true, |d| - i, d[i]);
    }
  }

  /** A rune before digits gets no comma, and the first of them may get one. */
  lemma {:induction false} BehindTheSign(t: string, d: string)
    requires d != "" && |t| == |d| + 1 && forall k :: 0 <= k < |d| ==> t[k + 1] == d[k]
    ensures GroupFrom(t, 0) == [t[0]] + (Comma(|d|) + GroupFrom(d, 0))
  {
    SignShifts(t, d, 1);
    calc {
      GroupFrom(t, 1);
      Piece(true, |d|, t[1]) + GroupFrom(t, 2);
      (Comma(|d|) + [d[0]]) + GroupFrom(d, 1);
      { Associates(Comma(|d|), [d[0]], GroupFrom(d, 1)); }
      Comma(|d|) + ([d[0]] + GroupFrom(d, 1));
      { assert Piece(false, |d|, d[0]) == [d[0]]; }
      Comma(|d|) + GroupFrom(d, 0);
    }
    assert Piece(false, |t|, t[0]) == [t[0]];
  }

  lemma {:induction false} FirstAfterSign(d: string)
    requires d != ""
    ensures GroupFrom("-" + d, 0) == "-" + (Comma(|d|) + GroupFrom(d, 0))
  {
    BehindTheSign("-" + d, d);
  }

  /** A negative number is the sign and a grouped number exactly when its digit
      count is no multiple of three; otherwise a stray comma follows the sign. */
  lemma {:induction false} NegativeIsGroupedUnless(n: int)
    requires n < 0
    ensures Formatted(n)[..1] == "-"
    ensures InThrees(Formatted(n)[1..]) <==> |Digits(-n)| % 3 != 0
    ensures |Digits(-n)| % 3 == 0 ==> Formatted(n) == "-," + Formatted(-n)
  {
    var d := Digits(-n);
    DigitsAreDigits(-n);
    FirstAfterSign(d);
    GroupedInThrees(d);
    var t := Formatted(n);
    assert t[1..] == Comma(|d|) + GroupFrom(d, 0);
    if |d| % 3 == 0 {
      assert t == "-," + GroupFrom(d, 0);
      StrayComma(GroupFrom(d, 0));
    } else {
      assert t[1..] == GroupFrom(d, 0);
    }
  }

  lemma {:induction false} StrayComma(t: string)
    ensures !InThrees("," + t)
    decreases |t|
  {
    var u := "," + t;
    if |u| <= 3 {
      assert !IsDigit(u[0]);
    } else if |u| == 4 {
      assert u[..0] == "";
    } else {
      StrayComma(t[..|t| - 4]);
      assert u[..|u| - 4] == "," + t[..|t| - 4];
    }
  }

  /** The stray comma at its smallest. */
  lemma {:induction false} MinusHundred()
    ensures Formatted(-100) == "-,100" && !InThrees(Formatted(-100)[1..])
  {
    assert Digits(1) == "1" && Digits(10) == "10" && Digits(100) == "100";
    NegativeIsGroupedUnless(-100);
    ShortHasNoComma("100", 0);
  }
}
