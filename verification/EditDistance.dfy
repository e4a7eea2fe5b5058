/** Edit distance between rune sequences: the recursive definition, what it
    means in edit scripts, why it is a metric, and the one-row program. */
module EditDistance {

  type Runes = string

  function Min(x: nat, y: nat): nat { if x <= y then x else y }

  function Differ(x: char, y: char): nat { if x == y then 0 else 1 }

  /** The distance of the first `i` runes of `left` and the first `j` of `right`. */
  function Cell(left: Runes, right: Runes, i: nat, j: nat): nat
    requires i <= |left| && j <= |right|
  {
    if i == 0 then j
    else if j == 0 then i
    else
      Min(Cell(left, right, i - 1, j) + 1,
          Min(Cell(left, right, i, j - 1) + 1, Cell(left, right, i - 1, j - 1) + Differ(left[i - 1], right[j - 1])))
  }

  function Distance(left: Runes, right: Runes): nat {
    Cell(left, right, |left|, |right|)
  }

  /** Which neighbour the minimum was taken from, and at what cost. */
  datatype Last = Deleted | Inserted | Replaced

  lemma {:induction false} LastStep(left: Runes, right: Runes, i: nat, j: nat) returns (last: Last, cost: nat)
    requires 0 < i <= |left| && 0 < j <= |right|
    ensures cost == if last.Replaced? then Differ(left[i - 1], right[j - 1]) else 1
    ensures Cell(left, right, i, j)
            == cost + Cell(left, right, if last.Inserted? then i else i - 1, if last.Deleted? then j else j - 1)
  {
    var d := Cell(left, right, i, j);
    last := if d == Cell(left, right, i - 1, j) + 1 then Deleted
            else if d == Cell(left, right, i, j - 1) + 1 then Inserted
            else Replaced;
    cost := if last.Replaced? then Differ(left[i - 1], right[j - 1]) else 1;
  }

  /** No neighbour offers less. */
  lemma {:induction false} AtMost(left: Runes, right: Runes, i: nat, j: nat, last: Last)
    requires 0 < i <= |left| && 0 < j <= |right|
    ensures Cell(left, right, i, j) <=
              (if last.Replaced? then Differ(left[i - 1], right[j - 1]) else 1) +
              Cell(left, right, if last.Inserted? then i else i - 1, if last.Deleted? then j else j - 1)
  {
  }

  lemma {:induction false} SamePrefixes(left: Runes, left': Runes, right: Runes, right': Runes, i: nat, j: nat)
    requires i <= |left| && i <= |left'| && j <= |right| && j <= |right'|
    requires forall k :: 0 <= k < i ==> left[k] == left'[k]
    requires forall k :: 0 <= k < j ==> right[k] == right'[k]
    ensures Cell(left, right, i, j) == Cell(left', right', i, j)
  {
    if i == 0 || j == 0 {
    } else {
      SamePrefixes(left, left', right, right', i - 1, j);
      SamePrefixes(left, left', right, right', i, j - 1);
      SamePrefixes(left, left', right, right', i - 1, j - 1);
    }
  }

  lemma {:induction false} DistanceStep(l: Runes, x: char, r: Runes, y: char) returns (last: Last)
    ensures Distance(l + [x], r + [y]) <= Distance(l, r) + Differ(x, y)
    ensures Distance(l + [x], r + [y]) ==
              match last
              case Deleted => Distance(l, r + [y]) + 1
              case Inserted => Distance(l + [x], r) + 1
              case Replaced => Distance(l, r) + Differ(x, y)
  {
    var a, b := l + [x], r + [y];
    var cost;
    last, cost := LastStep(a, b, |a|, |b|);
    AtMost(a, b, |a|, |b|, Replaced);
    SamePrefixes(a, l, b, b, |l|, |b|);
    SamePrefixes(a, a, b, r, |a|, |r|);
    SamePrefixes(a, l, b, r, |l|, |r|);
  }

  lemma {:induction false} EmptyRight(left: Runes)
    ensures Distance(left, []) == |left| && Distance([], left) == |left|
  {
  }

  // ---------------------------------------------------------- edit scripts

  /** One edit of one rune, anywhere. */
  datatype Edit = Insert(at: nat, rune: char) | Delete(at: nat) | Replace(at: nat, rune: char)

  predicate Applies(s: Runes, e: Edit) {
    if e.Insert? then e.at <= |s| else e.at < |s|
  }

  function Apply(s: Runes, e: Edit): Runes
    requires Applies(s, e)
  {
    match e
    case Insert(at, rune) => s[..at] + [rune] + s[at..]
    case Delete(at) => s[..at] + s[at + 1..]
    case Replace(at, rune) => s[..at] + [rune] + s[at + 1..]
  }

  datatype Script = End | Then(first: Edit, rest: Script)

  function Length(script: Script): nat {
    if script.End? then 0 else 1 + Length(script.rest)
  }

  /** The script turns `left` into `right`. */
  predicate Turns(left: Runes, script: Script, right: Runes)
    decreases script
  {
    match script
    case End => left == right
    case Then(e, rest) => Applies(left, e) && Turns(Apply(left, e), rest, right)
  }

  /** One more edit at the end. */
  lemma {:induction false} TurnsOn(left: Runes, script: Script, middle: Runes, e: Edit) returns (longer: Script)
    requires Turns(left, script, middle) && Applies(middle, e)
    ensures Turns(left, longer, Apply(middle, e)) && Length(longer) == Length(script) + 1
    decreases script
  {
    match script
    case End => longer := Then(e, End);
    case Then(first, rest) =>
      var tail := TurnsOn(Apply(left, first), rest, middle, e);
      longer := Then(first, tail);
  }

  lemma {:induction false} EditBefore(left: Runes, e: Edit, rune: char)
    requires Applies(left, e)
    ensures Applies(left + [rune], e) && Apply(left + [rune], e) == Apply(left, e) + [rune]
  {
  }

  /** A script works as well in front of one more rune. */
  lemma {:induction false} TurnsBefore(left: Runes, script: Script, right: Runes, rune: char)
    requires Turns(left, script, right)
    ensures Turns(left + [rune], script, right + [rune])
    decreases script
  {
    if script == End {
    } else {
      EditBefore(left, script.first, rune);
      TurnsBefore(Apply(left, script.first), script.rest, right, rune);
    }
  }

  lemma {:induction false} EditAtEnd(s: Runes, x: char, y: char)
    ensures Apply(s, Insert(|s|, y)) == s + [y]
    ensures Apply(s + [x], Delete(|s|)) == s
    ensures Apply(s + [x], Replace(|s|, y)) == s + [y]
  {
  }

  lemma {:induction false} InsertAll(right: Runes) returns (script: Script)
    ensures Length(script) == |right| && Turns([], script, right)
  {
    if right == [] {
      script := End;
    } else {
      var r, y := right[..|right| - 1], right[|right| - 1];
      assert right == r + [y];
      EditAtEnd(r, y, y);
      script := InsertAll(r);
      script := TurnsOn([], script, r, Insert(|r|, y));
    }
  }

  /** A script as short as the distance says. */
  lemma {:induction false} ShortScript(left: Runes, right: Runes) returns (script: Script)
    ensures Length(script) == Distance(left, right) && Turns(left, script, right)
    decreases |left| + |right|, 0
  {
    if left == [] {
      script := InsertAll(right);
    } else {
      var l, x := left[..|left| - 1], left[|left| - 1];
      assert left == l + [x];
      if right == [] {
        EmptyRight(l);
        EditAtEnd(l, x, x);
        script := ShortScript(l, []);
        script := Then(Delete(|l|), script);
      } else {
        var r, y := right[..|right| - 1], right[|right| - 1];
        assert right == r + [y];
        script := ShortByLast(l, x, r, y);
      }
    }
  }

  lemma {:induction false} ShortByLast(l: Runes, x: char, r: Runes, y: char) returns (script: Script)
    ensures Length(script) == Distance(l + [x], r + [y]) && Turns(l + [x], script, r + [y])
    decreases |l| + |r| + 1, 1
  {
    var last := DistanceStep(l, x, r, y);
    EditAtEnd(l, x, y);
    EditAtEnd(r, y, y);
    match last {
      case Deleted =>
        script := ShortScript(l, r + [y]);
        script := Then(Delete(|l|), script);
      case Inserted =>
        script := ShortScript(l + [x], r);
        script := TurnsOn(l + [x], script, r, Insert(|r|, y));
      case Replaced =>
        script := ShortScript(l, r);
        TurnsBefore(l, script, r, y);
        if x != y {
          script := Then(Replace(|l|, y), script);
        }
    }
  }

  // -------------------------------------------------------------- a metric

  lemma {:induction false} CellSymmetric(left: Runes, right: Runes, i: nat, j: nat)
    requires i <= |left| && j <= |right|
    ensures Cell(left, right, i, j) == Cell(right, left, j, i)
  {
    if i == 0 || j == 0 {
    } else {
      CellSymmetric(left, right, i - 1, j);
      CellSymmetric(left, right, i, j - 1);
      CellSymmetric(left, right, i - 1, j - 1);
    }
  }

  lemma {:induction false} Symmetric(left: Runes, right: Runes)
    ensures Distance(left, right) == Distance(right, left)
  {
    CellSymmetric(left, right, |left|, |right|);
  }

  lemma {:induction false} CellBounds(left: Runes, right: Runes, i: nat, j: nat)
    requires i <= |left| && j <= |right|
    ensures i - j <= Cell(left, right, i, j) && j - i <= Cell(left, right, i, j)
    ensures Cell(left, right, i, j) <= if i >= j then i else j
  {
    if i == 0 || j == 0 {
    } else {
      CellBounds(left, right, i - 1, j);
      CellBounds(left, right, i, j - 1);
      CellBounds(left, right, i - 1, j - 1);
    }
  }

  /** Between the length difference and the longer length. */
  lemma {:induction false} Bounds(left: Runes, right: Runes)
    ensures |left| - |right| <= Distance(left, right) && |right| - |left| <= Distance(left, right)
    ensures Distance(left, right) <= if |left| >= |right| then |left| else |right|
  {
    CellBounds(left, right, |left|, |right|);
  }

  lemma {:induction false} CellZero(left: Runes, right: Runes, i: nat, j: nat)
    requires i <= |left| && j <= |right|
    ensures Cell(left, right, i, j) == 0 <==> i == j && forall k :: 0 <= k < i ==> left[k] == right[k]
  {
    if i == 0 || j == 0 {
    } else {
      CellZero(left, right, i - 1, j - 1);
      CellBounds(left, right, i, j);
    }
  }

  lemma {:induction false} ZeroOnlyForEqual(left: Runes, right: Runes)
    ensures Distance(left, right) == 0 <==> left == right
  {
    CellZero(left, right, |left|, |right|);
  }

  lemma {:induction false} CellTriangle(a: Runes, b: Runes, c: Runes, i: nat, j: nat, k: nat)
    requires i <= |a| && j <= |b| && k <= |c|
    ensures Cell(a, c, i, k) <= Cell(a, b, i, j) + Cell(b, c, j, k)
    decreases i + j + k, 1
  {
    if i == 0 || j == 0 || k == 0 {
      CellBounds(a, c, i, k);
      CellBounds(a, b, i, j);
      CellBounds(b, c, j, k);
    } else {
      var ab, x := LastStep(a, b, i, j);
      var bc, y := LastStep(b, c, j, k);
      if ab.Deleted? || bc.Inserted? {
        TriangleOutside(a, b, c, i, j, k, ab, bc);
      } else {
        TriangleInside(a, b, c, i, j, k, ab, bc, x, y);
      }
    }
  }

  /** The first script ends with a deletion, or the second with an insertion. */
  lemma {:induction false} TriangleOutside(a: Runes, b: Runes, c: Runes, i: nat, j: nat, k: nat, ab: Last, bc: Last)
    requires 0 < i <= |a| && 0 < j <= |b| && 0 < k <= |c| && (ab.Deleted? || bc.Inserted?)
    requires ab.Deleted? ==> Cell(a, b, i, j) == 1 + Cell(a, b, i - 1, j)
    requires bc.Inserted? ==> Cell(b, c, j, k) == 1 + Cell(b, c, j, k - 1)
    ensures Cell(a, c, i, k) <= Cell(a, b, i, j) + Cell(b, c, j, k)
    decreases i + j + k, 0
  {
    if ab.Deleted? {
      CellTriangle(a, b, c, i - 1, j, k);
      AtMost(a, c, i, k, Deleted);
    } else {
      CellTriangle(a, b, c, i, j, k - 1);
      AtMost(a, c, i, k, Inserted);
    }
  }

  /** Both scripts' last steps touch the last rune of the middle sequence. */
  lemma {:induction false} TriangleInside(a: Runes, b: Runes, c: Runes, i: nat, j: nat, k: nat, ab: Last, bc: Last,
      x: nat, y: nat)
    requires 0 < i <= |a| && 0 < j <= |b| && 0 < k <= |c| && !ab.Deleted? && !bc.Inserted?
    requires x == if ab.Replaced? then Differ(a[i - 1], b[j - 1]) else 1
    requires y == if bc.Replaced? then Differ(b[j - 1], c[k - 1]) else 1
    requires Cell(a, b, i, j) == x + Cell(a, b, if ab.Inserted? then i else i - 1, j - 1)
    requires Cell(b, c, j, k) == y + Cell(b, c, j - 1, if bc.Deleted? then k else k - 1)
    ensures Cell(a, c, i, k) <= Cell(a, b, i, j) + Cell(b, c, j, k)
    decreases i + j + k, 0
  {
    CellTriangle(a, b, c, if ab.Inserted? then i else i - 1, j - 1, if bc.Deleted? then k else k - 1);
    if !(ab.Inserted? && bc.Deleted?) {
      AtMost(a, c, i, k, if ab.Inserted? then Inserted else if bc.Deleted? then Deleted else Replaced);
    }
  }

  lemma {:induction false} Triangle(a: Runes, b: Runes, c: Runes)
    ensures Distance(a, c) <= Distance(a, b) + Distance(b, c)
  {
    CellTriangle(a, b, c, |a|, |b|, |c|);
  }

  lemma {:induction false} SameSuffix(left: Runes, right: Runes, suffix: Runes)
    ensures Distance(left + suffix, right + suffix) <= Distance(left, right)
    decreases |suffix|
  {
    if suffix == [] {
      assert left + suffix == left && right + suffix == right;
    } else {
      var init, x := suffix[..|suffix| - 1], suffix[|suffix| - 1];
      SameSuffix(left, right, init);
      var _ := DistanceStep(left + init, x, right + init, x);
      assert left + suffix == left + init + [x] && right + suffix == right + init + [x];
    }
  }

  lemma {:induction false} OneMoreRune(s: Runes, rune: char)
    ensures Distance(s, s + [rune]) <= 1 && Distance(s + [rune], s) <= 1
  {
    ZeroOnlyForEqual(s, s);
    if s == [] {
      EmptyRight([rune]);
      assert s + [rune] == [rune];
    } else {
      SamePrefixes(s, s, s + [rune], s, |s|, |s|);
      Symmetric(s, s + [rune]);
    }
  }

  lemma {:induction false} OneOtherRune(s: Runes, x: char, y: char)
    ensures Distance(s + [x], s + [y]) <= 1
  {
    ZeroOnlyForEqual(s, s);
    var _ := DistanceStep(s, x, s, y);
  }

  lemma {:induction false} SplitAt(s: Runes, at: nat)
    requires at <= |s|
    ensures s == s[..at] + s[at..]
    ensures at < |s| ==> s == s[..at] + [s[at]] + s[at + 1..]
  {
  }

  lemma {:induction false} OneEditIsOne(s: Runes, e: Edit)
    requires Applies(s, e)
    ensures Distance(s, Apply(s, e)) <= 1
  {
    var head := s[..e.at];
    SplitAt(s, e.at);
    match e
    case Insert(at, rune) =>
      OneMoreRune(head, rune);
      SameSuffix(head, head + [rune], s[at..]);
    case Delete(at) =>
      OneMoreRune(head, s[at]);
      SameSuffix(head + [s[at]], head, s[at + 1..]);
    case Replace(at, rune) =>
      OneOtherRune(head, s[at], rune);
      SameSuffix(head + [s[at]], head + [rune], s[at + 1..]);
  }

  /** No script is shorter than the distance. */
  lemma {:induction false} NoShorterScript(left: Runes, script: Script, right: Runes)
    requires Turns(left, script, right)
    ensures Distance(left, right) <= Length(script)
    decreases script
  {
    match script
    case End => ZeroOnlyForEqual(left, right);
    case Then(e, rest) =>
      NoShorterScript(Apply(left, e), rest, right);
      OneEditIsOne(left, e);
      Triangle(left, Apply(left, e), right);
  }

  // ---------------------------------------------------- the one-row program

  /** The distances of the first `i` runes to every prefix of `right`. */
  ghost predicate IsRow(row: seq<nat>, left: Runes, right: Runes, i: nat)
    requires i <= |left|
  {
    |row| == |right| + 1 && forall j :: 0 <= j <= |right| ==> row[j] == Cell(left, right, i, j)
  }

  /** Entry `j` + 1 is the three-way minimum of its neighbours. */
  ghost predicate EntryOk(row: seq<nat>, next: seq<nat>, rune: char, right: Runes, j: nat)
    requires |row| == |next| == |right| + 1 && j < |right|
  {
    next[j + 1] == Min(row[j + 1] + 1, Min(next[j] + 1, row[j] + Differ(rune, right[j])))
  }

  /** `next` follows from `row`. */
  ghost predicate Follows(row: seq<nat>, next: seq<nat>, rune: char, right: Runes) {
    && |row| == |next| == |right| + 1
    && next[0] == row[0] + 1
    && forall j :: 0 <= j < |right| ==> EntryOk(row, next, rune, right, j)
  }

  lemma {:induction false} FollowingCell(row: seq<nat>, next: seq<nat>, left: Runes, right: Runes, i: nat, j: nat)
    requires i < |left| && j <= |right|
    requires IsRow(row, left, right, i) && Follows(row, next, left[i], right)
    ensures next[j] == Cell(left, right, i + 1, j)
    decreases j
  {
    if j == 0 {
    } else {
      FollowingCell(row, next, left, right, i, j - 1);
      assert EntryOk(row, next, left[i], right, j - 1);
    }
  }

  lemma {:induction false} NextRow(row: seq<nat>, next: seq<nat>, left: Runes, right: Runes, i: nat)
    requires i < |left| && IsRow(row, left, right, i) && Follows(row, next, left[i], right)
    ensures IsRow(next, left, right, i + 1)
  {
    forall j | 0 <= j <= |right| ensures next[j] == Cell(left, right, i + 1, j) {
      FollowingCell(row, next, left, right, i, j);
    }
  }

  /** The inner loop, in place. */
  method UpdateRow(column: array<nat>, i: nat, rune: char, right: Runes)
    requires column.Length == |right| + 1 && column[0] == i
    modifies column
    ensures Follows(old(column[..]), column[..], rune, right)
  {
    ghost var row := column[..];
    var prevDiagonal := column[0];
    column[0] := i + 1;
    for j := 0 to |right|
      invariant column[0] == row[0] + 1 && prevDiagonal == row[j]
      invariant forall k :: 0 <= k < j ==> EntryOk(row, column[..], rune, right, k)
      invariant forall k :: j < k <= |right| ==> column[k] == row[k]
    {
      var insertCost := column[j + 1] + 1;
      var deleteCost := column[j] + 1;
      var replaceCost := prevDiagonal;
      if rune != right[j] {
        replaceCost := replaceCost + 1;
      }
      prevDiagonal := column[j + 1];
      ghost var before := column[..];
      column[j + 1] := Min(insertCost, Min(deleteCost, replaceCost));
      forall k | 0 <= k < j ensures EntryOk(row, column[..], rune, right, k) {
        assert EntryOk(row, before, rune, right, k);
      }
    }
  }

  method LevenshteinDistance(left: Runes, right: Runes) returns (distance: nat)
    ensures distance == Distance(left, right)
  {
    if |left| == 0 {
      return |right|;
    }
    if |right| == 0 {
      return |left|;
    }
    var column := new nat[|right| + 1];
    for j := 0 to column.Length
      invariant forall k :: 0 <= k < j ==> column[k] == k
    {
      column[j] := j;
    }
    for i := 0 to |left|
      invariant IsRow(column[..], left, right, i)
    {
      ghost var row := column[..];
      UpdateRow(column, i, left[i], right);
      NextRow(row, column[..], left, right, i);
    }
    distance := column[|right|];
  }
}
