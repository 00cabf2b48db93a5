/** Confirmation of payee: the two-row edit distance and the three-way classification built on it. */
module Payee {
  import opened Text

  // ---------- single edits, and scripts of them ----------

  datatype Edit = Insert(at: nat, c: char) | Delete(at: nat) | Substitute(at: nat, c: char)

  predicate Applies(e: Edit, s: string) { if e.Insert? then e.at <= |s| else e.at < |s| }

  function Edited(e: Edit, s: string): string
    requires Applies(e, s)
  {
    match e
    case Insert(at, c) => s[..at] + [c] + s[at..]
    case Delete(at) => s[..at] + s[at + 1..]
    case Substitute(at, c) => s[at := c]
  }

  /** The script, applied one edit after the other anywhere in the string, turns a into b. */
  predicate Turns(script: seq<Edit>, a: string, b: string) {
    if script == [] then a == b
    else Applies(script[0], a) && Turns(script[1..], Edited(script[0], a), b)
  }

  lemma {:induction false} TurnsThen(s1: seq<Edit>, s2: seq<Edit>, a: string, b: string, c: string)
    requires Turns(s1, a, b) && Turns(s2, b, c)
    ensures Turns(s1 + s2, a, c)
  {
    if s1 == [] {
      assert s1 + s2 == s2;
    } else {
      TurnsThen(s1[1..], s2, Edited(s1[0], a), b, c);
      var script := s1 + s2;
      assert script[0] == s1[0] && script[1..] == s1[1..] + s2;
    }
  }

  lemma {:induction false} EditedBefore(e: Edit, a: string, tail: string)
    requires Applies(e, a)
    ensures Applies(e, a + tail) && Edited(e, a + tail) == Edited(e, a) + tail
  {
    assert (a + tail)[..e.at] == a[..e.at];
    if e.Insert? {
      assert (a + tail)[e.at..] == a[e.at..] + tail;
    } else if e.Delete? {
      assert (a + tail)[e.at + 1..] == a[e.at + 1..] + tail;
    }
  }

  /** A script leaves whatever follows the string alone. */
  lemma {:induction false} TurnsBefore(script: seq<Edit>, a: string, b: string, tail: string)
    requires Turns(script, a, b)
    ensures Turns(script, a + tail, b + tail)
  {
    if script != [] {
      EditedBefore(script[0], a, tail);
      TurnsBefore(script[1..], Edited(script[0], a), b, tail);
    }
  }

  // ---------- the distance ----------

  function Min3(a: int, b: int, c: int): int {
    var m := if b < a then b else a;
    if c < m then c else m
  }

  function Cost(x: char, y: char): nat { if x == y then 0 else 1 }

  /** The distance between a's first i and b's first j characters: the recurrence the rows compute. */
  function Cell(a: string, b: string, i: nat, j: nat): nat
    requires i <= |a| && j <= |b|
    decreases i + j, 1
  {
    if i == 0 then j else if j == 0 then i else Inner(a, b, i, j)
  }

  function Inner(a: string, b: string, i: nat, j: nat): nat
    requires 0 < i <= |a| && 0 < j <= |b|
    decreases i + j, 0
  {
    Min3(Cell(a, b, i, j - 1) + 1, Cell(a, b, i - 1, j) + 1, Cell(a, b, i - 1, j - 1) + Cost(a[i - 1], b[j - 1]))
  }

  /** A cell inside the table is the least that its three neighbours allow. */
  lemma {:induction false} Neighbours(a: string, b: string, i: nat, j: nat)
    requires 0 < i <= |a| && 0 < j <= |b|
    ensures Cell(a, b, i, j) <= Cell(a, b, i, j - 1) + 1
    ensures Cell(a, b, i, j) <= Cell(a, b, i - 1, j) + 1
    ensures Cell(a, b, i, j) <= Cell(a, b, i - 1, j - 1) + Cost(a[i - 1], b[j - 1])
    ensures
      || Cell(a, b, i, j) == Cell(a, b, i, j - 1) + 1
      || Cell(a, b, i, j) == Cell(a, b, i - 1, j) + 1
      || Cell(a, b, i, j) == Cell(a, b, i - 1, j - 1) + Cost(a[i - 1], b[j - 1])
  {
  }

  function Distance(a: string, b: string): nat { Cell(a, b, |a|, |b|) }

  method ComputeMin3(a: int, b: int, c: int) returns (m: int)
    ensures m == Min3(a, b, c) && m <= a && m <= b && m <= c && (m == a || m == b || m == c)
  {
    m := a;
    if b < m { m := b; }
    if c < m { m := c; }
  }

  /** The first n cells of the row hold the distances from a's first i characters. */
  ghost predicate IsRow(row: array<int>, n: nat, a: string, b: string, i: nat)
    requires n <= row.Length == |b| + 1 && i <= |a|
    reads row
  {
    forall k | 0 <= k < n :: row[k] == Cell(a, b, i, k)
  }

  method FillRow(prev: array<int>, curr: array<int>, a: string, b: string, i: nat)
    requires prev != curr && prev.Length == curr.Length == |b| + 1 && 0 < i <= |a|
    requires IsRow(prev, |b| + 1, a, b, i - 1)
    modifies curr
    ensures IsRow(curr, |b| + 1, a, b, i)
  {
    curr[0] := i;
    for j := 1 to |b| + 1
      invariant IsRow(curr, j, a, b, i)
    {
      var cost := 1;
      if a[i - 1] == b[j - 1] { cost := 0; }
      assert Cell(a, b, i, j) == Inner(a, b, i, j);
      curr[j] := ComputeMin3(curr[j - 1] + 1, prev[j] + 1, prev[j - 1] + cost);
    }
  }

  method Levenshtein(a: string, b: string) returns (d: int)
    ensures d == Distance(a, b)
  {
    var prev := new int[|b| + 1];
    var curr := new int[|b| + 1];
    for j := 0 to |b| + 1
      invariant IsRow(prev, j, a, b, 0)
    {
      prev[j] := j;
    }
    for i := 1 to |a| + 1
      invariant fresh(prev) && fresh(curr) && prev != curr
      invariant prev.Length == curr.Length == |b| + 1
      invariant IsRow(prev, |b| + 1, a, b, i - 1)
    {
      FillRow(prev, curr, a, b, i);
      prev, curr := curr, prev;
    }
    return prev[|b|];
  }

  // ---------- it is a metric ----------

  lemma {:induction false} CellBounds(a: string, b: string, i: nat, j: nat)
    requires i <= |a| && j <= |b|
    ensures j - i <= Cell(a, b, i, j) <= i + j
    ensures i - j <= Cell(a, b, i, j)
    decreases i + j
  {
    if i > 0 && j > 0 {
      Neighbours(a, b, i, j);
      CellBounds(a, b, i, j - 1);
      CellBounds(a, b, i - 1, j);
      CellBounds(a, b, i - 1, j - 1);
    }
  }

  lemma {:induction false} DiagonalCell(a: string, i: nat)
    requires i <= |a|
    ensures Cell(a, a, i, i) == 0
  {
    if i > 0 {
      Neighbours(a, a, i, i);
      DiagonalCell(a, i - 1);
    }
  }

  lemma {:induction false} ZeroCell(a: string, b: string, i: nat, j: nat)
    requires i <= |a| && j <= |b| && Cell(a, b, i, j) == 0
    ensures i == j && forall k | 0 <= k < i :: a[k] == b[k]
    decreases i + j
  {
    if i > 0 && j > 0 {
      Neighbours(a, b, i, j);
      ZeroCell(a, b, i - 1, j - 1);
    }
  }

  lemma {:induction false} ZeroIffEqual(a: string, b: string)
    ensures Distance(a, b) == 0 <==> a == b
  {
    if a == b { DiagonalCell(a, |a|); }
    if Distance(a, b) == 0 { ZeroCell(a, b, |a|, |b|); }
  }

  /** Whichever neighbour the distance comes from, the mirrored cell has the mirrored neighbour. */
  lemma {:induction false} MirroredCell(a: string, b: string, i: nat, j: nat)
    requires i <= |a| && j <= |b|
    ensures Cell(b, a, j, i) <= Cell(a, b, i, j)
    decreases i + j
  {
    if i > 0 && j > 0 {
      Neighbours(a, b, i, j);
      Neighbours(b, a, j, i);
      if Cell(a, b, i, j) == Cell(a, b, i, j - 1) + 1 {
        MirroredCell(a, b, i, j - 1);
      } else if Cell(a, b, i, j) == Cell(a, b, i - 1, j) + 1 {
        MirroredCell(a, b, i - 1, j);
      } else {
        MirroredCell(a, b, i - 1, j - 1);
      }
    }
  }

  lemma {:induction false} Symmetric(a: string, b: string)
    ensures Distance(a, b) == Distance(b, a)
  {
    MirroredCell(a, b, |a|, |b|);
    MirroredCell(b, a, |b|, |a|);
  }

  /** The cheapest way from a to b followed by the cheapest way from b to c gives a way from a to c: drop
      the last step that only one of them takes, or pair the last characters. */
  lemma {:induction false} TriangleCell(a: string, b: string, c: string, i: nat, j: nat, k: nat)
    requires i <= |a| && j <= |b| && k <= |c|
    ensures Cell(a, c, i, k) <= Cell(a, b, i, j) + Cell(b, c, j, k)
    decreases i + j + k
  {
    if i == 0 || j == 0 || k == 0 {
      CellBounds(a, b, i, j);
      CellBounds(b, c, j, k);
      CellBounds(a, c, i, k);
    } else if Cell(a, b, i, j) == Cell(a, b, i - 1, j) + 1 {
      Neighbours(a, c, i, k);
      TriangleCell(a, b, c, i - 1, j, k);
    } else if Cell(b, c, j, k) == Cell(b, c, j, k - 1) + 1 {
      Neighbours(a, c, i, k);
      TriangleCell(a, b, c, i, j, k - 1);
    } else if Cell(a, b, i, j) == Cell(a, b, i, j - 1) + 1 {
      AddedLast(a, b, c, i, j, k);
    } else {
      Neighbours(a, b, i, j);
      PairedLast(a, b, c, i, j, k);
    }
  }

  /** The way to b adds b's last character; the way from b removes or pairs it. */
  lemma {:induction false} AddedLast(a: string, b: string, c: string, i: nat, j: nat, k: nat)
    requires 0 < i <= |a| && 0 < j <= |b| && 0 < k <= |c|
    requires Cell(a, b, i, j) == Cell(a, b, i, j - 1) + 1 && Cell(b, c, j, k) != Cell(b, c, j, k - 1) + 1
    ensures Cell(a, c, i, k) <= Cell(a, b, i, j) + Cell(b, c, j, k)
    decreases i + j + k, 0
  {
    Neighbours(a, c, i, k);
    Neighbours(b, c, j, k);
    if Cell(b, c, j, k) == Cell(b, c, j - 1, k) + 1 {
      TriangleCell(a, b, c, i, j - 1, k);
    } else {
      TriangleCell(a, b, c, i, j - 1, k - 1);
    }
  }

  /** The way to b pairs b's last character with a's; the way from b removes or pairs it. */
  lemma {:induction false} PairedLast(a: string, b: string, c: string, i: nat, j: nat, k: nat)
    requires 0 < i <= |a| && 0 < j <= |b| && 0 < k <= |c|
    requires Cell(a, b, i, j) == Cell(a, b, i - 1, j - 1) + Cost(a[i - 1], b[j - 1])
    requires Cell(b, c, j, k) != Cell(b, c, j, k - 1) + 1
    ensures Cell(a, c, i, k) <= Cell(a, b, i, j) + Cell(b, c, j, k)
    decreases i + j + k, 0
  {
    Neighbours(a, c, i, k);
    Neighbours(b, c, j, k);
    if Cell(b, c, j, k) == Cell(b, c, j - 1, k) + 1 {
      TriangleCell(a, b, c, i - 1, j - 1, k);
    } else {
      TriangleCell(a, b, c, i - 1, j - 1, k - 1);
    }
  }

  lemma {:induction false} Triangle(a: string, b: string, c: string)
    ensures Distance(a, c) <= Distance(a, b) + Distance(b, c)
  {
    TriangleCell(a, b, c, |a|, |b|, |c|);
  }

  // ---------- it is the length of a shortest script ----------

  /** What follows the characters of a cell does not raise it. */
  lemma {:induction false} CellOfPrefix(a: string, b: string, x: string, y: string, i: nat, j: nat)
    requires i <= |a| && j <= |b|
    ensures Cell(a + x, b + y, i, j) <= Cell(a, b, i, j)
    decreases i + j
  {
    if i > 0 && j > 0 {
      Neighbours(a, b, i, j);
      Neighbours(a + x, b + y, i, j);
      if Cell(a, b, i, j) == Cell(a, b, i, j - 1) + 1 {
        CellOfPrefix(a, b, x, y, i, j - 1);
      } else if Cell(a, b, i, j) == Cell(a, b, i - 1, j) + 1 {
        CellOfPrefix(a, b, x, y, i - 1, j);
      } else {
        CellOfPrefix(a, b, x, y, i - 1, j - 1);
      }
    }
  }

  lemma {:induction false} CommonTailCell(a: string, b: string, tail: string, n: nat)
    requires n <= |tail|
    ensures Cell(a + tail, b + tail, |a| + n, |b| + n) <= Distance(a, b)
  {
    if n == 0 {
      CellOfPrefix(a, b, tail, tail, |a|, |b|);
    } else {
      CommonTailCell(a, b, tail, n - 1);
      if |a| + n > 0 && |b| + n > 0 {
        Neighbours(a + tail, b + tail, |a| + n, |b| + n);
        assert (a + tail)[|a| + n - 1] == tail[n - 1] == (b + tail)[|b| + n - 1];
      }
    }
  }

  /** A common tail never costs anything. */
  lemma {:induction false} CommonTail(a: string, b: string, tail: string)
    ensures Distance(a + tail, b + tail) <= Distance(a, b)
  {
    CommonTailCell(a, b, tail, |tail|);
  }

  lemma {:induction false} LastCharacter(a: string, x: char, y: char)
    ensures Distance(a, a + [x]) <= 1 && Distance(a + [x], a) <= 1
    ensures Distance(a + [x], a + [y]) <= 1
  {
    var n := |a|;
    if n > 0 {
      Neighbours(a, a + [x], n, n + 1);
      Neighbours(a + [x], a, n + 1, n);
    }
    Neighbours(a + [x], a + [y], n + 1, n + 1);
    DiagonalCell(a, |a|);
    CellOfPrefix(a, a, [], [x], |a|, |a|);
    CellOfPrefix(a, a, [x], [], |a|, |a|);
    CellOfPrefix(a, a, [x], [y], |a|, |a|);
    assert a + [] == a;
  }

  lemma {:induction false} EditBeforeTail(head: string, x: char, y: char, tail: string)
    ensures Distance(head + tail, head + [x] + tail) <= 1
    ensures Distance(head + [x] + tail, head + tail) <= 1
    ensures Distance(head + [x] + tail, head + [y] + tail) <= 1
  {
    LastCharacter(head, x, y);
    CommonTail(head, head + [x], tail);
    CommonTail(head + [x], head, tail);
    CommonTail(head + [x], head + [y], tail);
  }

  lemma {:induction false} OneEditCostsOne(e: Edit, s: string)
    requires Applies(e, s)
    ensures Distance(s, Edited(e, s)) <= 1
  {
    var head := s[..e.at];
    if e.Insert? {
      assert s == head + s[e.at..];
      EditBeforeTail(head, e.c, e.c, s[e.at..]);
    } else {
      var tail := s[e.at + 1..];
      assert s == head + [s[e.at]] + tail;
      if e.Delete? {
        EditBeforeTail(head, s[e.at], s[e.at], tail);
      } else {
        EditBeforeTail(head, s[e.at], e.c, tail);
        assert s[e.at := e.c] == head + [e.c] + tail;
      }
    }
  }

  lemma {:induction false} NoScriptIsShorter(script: seq<Edit>, a: string, b: string)
    requires Turns(script, a, b)
    ensures Distance(a, b) <= |script|
  {
    if script == [] {
      DiagonalCell(a, |a|);
    } else {
      var mid := Edited(script[0], a);
      OneEditCostsOne(script[0], a);
      NoScriptIsShorter(script[1..], mid, b);
      Triangle(a, mid, b);
    }
  }

  lemma {:induction false} InsertNext(rest: seq<Edit>, x: string, b: string, j: nat) returns (script: seq<Edit>)
    requires 0 < j <= |b| && Turns(rest, x, b[..j - 1])
    ensures Turns(script, x, b[..j]) && |script| == |rest| + 1
  {
    var e := Insert(j - 1, b[j - 1]);
    assert Edited(e, b[..j - 1]) == b[..j];
    assert Turns([e], b[..j - 1], b[..j]);
    TurnsThen(rest, [e], x, b[..j - 1], b[..j]);
    script := rest + [e];
  }

  lemma {:induction false} DeleteNext(rest: seq<Edit>, a: string, i: nat, y: string) returns (script: seq<Edit>)
    requires 0 < i <= |a| && Turns(rest, a[..i - 1], y)
    ensures Turns(script, a[..i], y) && |script| == |rest| + 1
  {
    assert Edited(Delete(i - 1), a[..i]) == a[..i - 1];
    script := [Delete(i - 1)] + rest;
  }

  lemma {:induction false} SubstituteLast(head: string, x: char, y: char)
    ensures Turns([Substitute(|head|, y)], head + [x], head + [y])
  {
  }

  lemma {:induction false} MatchNext(rest: seq<Edit>, a: string, i: nat, b: string, j: nat) returns (script: seq<Edit>)
    requires 0 < i <= |a| && 0 < j <= |b| && Turns(rest, a[..i - 1], b[..j - 1])
    ensures Turns(script, a[..i], b[..j]) && |script| == |rest| + Cost(a[i - 1], b[j - 1])
  {
    var head, x, y := b[..j - 1], a[i - 1], b[j - 1];
    assert a[..i] == a[..i - 1] + [x] && b[..j] == head + [y];
    TurnsBefore(rest, a[..i - 1], head, [x]);
    if x == y {
      script := rest;
    } else {
      SubstituteLast(head, x, y);
      script := rest + [Substitute(|head|, y)];
      TurnsThen(rest, [Substitute(|head|, y)], a[..i], head + [x], b[..j]);
    }
  }

  /** A script whose length is the cell: follow the neighbours back to the corner. */
  lemma {:induction false} ScriptOfCell(a: string, b: string, i: nat, j: nat) returns (script: seq<Edit>)
    requires i <= |a| && j <= |b|
    ensures Turns(script, a[..i], b[..j]) && |script| == Cell(a, b, i, j)
    decreases i + j
  {
    if i == 0 && j == 0 {
      script := [];
    } else if i == 0 || (j > 0 && Cell(a, b, i, j) == Cell(a, b, i, j - 1) + 1) {
      var rest := ScriptOfCell(a, b, i, j - 1);
      script := InsertNext(rest, a[..i], b, j);
    } else if j == 0 || Cell(a, b, i, j) == Cell(a, b, i - 1, j) + 1 {
      var rest := ScriptOfCell(a, b, i - 1, j);
      script := DeleteNext(rest, a, i, b[..j]);
    } else {
      Neighbours(a, b, i, j);
      var rest := ScriptOfCell(a, b, i - 1, j - 1);
      script := MatchNext(rest, a, i, b, j);
    }
  }

  /** The distance is the least number of insertions, deletions and substitutions, made anywhere and in
      any order, that turn a into b; in particular two edits suffice exactly when it is at most two. */
  lemma {:induction false} DistanceIsShortestScript(a: string, b: string, n: nat)
    ensures Distance(a, b) <= n <==> exists script :: |script| <= n && Turns(script, a, b)
  {
    var best := ScriptOfCell(a, b, |a|, |b|);
    assert a[..|a|] == a && b[..|b|] == b;
    assert Distance(a, b) <= n ==> |best| <= n && Turns(best, a, b);
    forall script | |script| <= n && Turns(script, a, b) ensures Distance(a, b) <= n {
      NoScriptIsShorter(script, a, b);
    }
  }

  // ---------- normalization ----------

  predicate IsSpace(c: char) { c in {' ', '\t', '\n', '\r'} }

  /** A per-character lower-casing that is idempotent and neither makes nor removes white space. */
  ghost predicate Lowers(lower: char -> char) {
    forall c :: lower(lower(c)) == lower(c) && (IsSpace(lower(c)) <==> IsSpace(c)) && (IsSpace(c) ==> lower(c) == c)
  }

  function ToLower(lower: char -> char, s: string): string {
    seq(|s|, i requires 0 <= i < |s| => lower(s[i]))
  }

  /** The maximal runs of non-space characters. */
  function Fields(s: string): seq<string> {
    if s == [] then []
    else
      var rest := Fields(s[1..]);
      if IsSpace(s[0]) then rest
      else if |s| == 1 || IsSpace(s[1]) || rest == [] then [[s[0]]] + rest
      else [[s[0]] + rest[0]] + rest[1..]
  }

  function Join(words: seq<string>): string {
    if words == [] then ""
    else if |words| == 1 then words[0]
    else words[0] + " " + Join(words[1..])
  }

  function Normalize(lower: char -> char, name: string): string { Join(Fields(ToLower(lower, name))) }

  predicate IsWord(lower: char -> char, w: string) {
    w != [] && forall i | 0 <= i < |w| :: !IsSpace(w[i]) && lower(w[i]) == w[i]
  }

  ghost predicate AllWords(lower: char -> char, words: seq<string>) {
    forall k | 0 <= k < |words| :: IsWord(lower, words[k])
  }

  lemma {:induction false} FieldsAreWords(lower: char -> char, s: string)
    requires forall i | 0 <= i < |s| :: lower(s[i]) == s[i]
    ensures AllWords(lower, Fields(s))
  {
    if s != [] { FieldsAreWords(lower, s[1..]); }
  }

  lemma {:induction false} WordIsOneField(lower: char -> char, w: string, tail: string)
    requires IsWord(lower, w) && (tail == [] || IsSpace(tail[0]))
    ensures Fields(w + tail) == [w] + Fields(tail)
  {
    var s := w + tail;
    assert s[1..] == w[1..] + tail;
    if |w| == 1 {
      assert s[1..] == tail && [s[0]] == w;
    } else {
      WordIsOneField(lower, w[1..], tail);
      assert ([w[1..]] + Fields(tail))[1..] == Fields(tail);
      assert [s[0]] + w[1..] == w;
    }
  }

  lemma {:induction false} FieldsOfJoin(lower: char -> char, words: seq<string>)
    requires AllWords(lower, words)
    ensures Fields(Join(words)) == words
  {
    if |words| == 1 {
      WordIsOneField(lower, words[0], "");
      assert words[0] + "" == words[0];
    } else if words != [] {
      var tail := " " + Join(words[1..]);
      FieldsOfJoin(lower, words[1..]);
      WordIsOneField(lower, words[0], tail);
      assert tail[1..] == Join(words[1..]);
      assert Join(words) == words[0] + tail;
    }
  }

  lemma {:induction false} JoinIsLower(lower: char -> char, words: seq<string>)
    requires AllWords(lower, words) && Lowers(lower)
    ensures ToLower(lower, Join(words)) == Join(words)
  {
    if |words| > 1 { JoinIsLower(lower, words[1..]); }
  }

  /** Normalizing a normalized name changes nothing. */
  lemma {:induction false} NormalizeIdempotent(lower: char -> char, name: string)
    requires Lowers(lower)
    ensures Normalize(lower, Normalize(lower, name)) == Normalize(lower, name)
  {
    var s := ToLower(lower, name);
    FieldsAreWords(lower, s);
    FieldsOfJoin(lower, Fields(s));
    JoinIsLower(lower, Fields(s));
  }

  predicate AllSpaces(s: string) { forall i | 0 <= i < |s| :: s[i] in {' ', '\t', '\n', '\r'} }

  lemma {:induction false} SpacesAreSkipped(lead: string, s: string)
    requires AllSpaces(lead)
    ensures Fields(lead + s) == Fields(s)
  {
    if lead == [] {
      assert lead + s == s;
    } else {
      SpacesAreSkipped(lead[1..], s);
      assert (lead + s)[1..] == lead[1..] + s;
    }
  }

  lemma {:induction false} EmptyJoin(lower: char -> char, words: seq<string>)
    requires AllWords(lower, words)
    ensures Join(words) == "" <==> words == []
  {
    if words != [] { assert IsWord(lower, words[0]); }
  }

  /** White space before the first word is dropped; the word is lower-cased, and separated by one space from what the
      rest is normalized to, if anything is left of it. */
  lemma {:induction false} NormalizeWord(lower: char -> char, lead: string, w: string, rest: string)
    requires Lowers(lower) && AllSpaces(lead) && (rest == "" || rest[0] in {' ', '\t', '\n', '\r'})
    requires w != "" && forall i | 0 <= i < |w| :: w[i] !in {' ', '\t', '\n', '\r'}
    ensures Normalize(lower, lead) == ""
    ensures Normalize(lower, lead + w + rest) ==
      seq(|w|, i requires 0 <= i < |w| => lower(w[i]))
      + if Normalize(lower, rest) == "" then "" else " " + Normalize(lower, rest)
  {
    var front, word, tail := ToLower(lower, lead), ToLower(lower, w), ToLower(lower, rest);
    assert ToLower(lower, lead + w + rest) == front + (word + tail);
    SpacesAreSkipped(front, word + tail);
    SpacesAreSkipped(front, "");
    assert front + "" == front;
    assert IsWord(lower, word);
    WordIsOneField(lower, word, tail);
    FieldsAreWords(lower, tail);
    EmptyJoin(lower, Fields(tail));
    assert ([word] + Fields(tail))[1..] == Fields(tail);
  }

  // ---------- the check ----------

  datatype Result = Match | CloseMatch | NoMatch

  const CLOSE_MATCH_DISTANCE := 2

  function Classify(typed: string, actual: string): Result {
    if typed == actual then Match
    else if typed == "" || actual == "" then NoMatch
    else if Contains(actual, typed) || Contains(typed, actual) then CloseMatch
    else if Distance(typed, actual) <= CLOSE_MATCH_DISTANCE then CloseMatch
    else NoMatch
  }

  method Check(lower: char -> char, typedName: string, actualName: string) returns (r: Result)
    ensures r == Classify(Normalize(lower, typedName), Normalize(lower, actualName))
  {
    var typed := Normalize(lower, typedName);
    var actual := Normalize(lower, actualName);
    if typed == actual {
      return Match;
    }
    if typed == "" || actual == "" {
      return NoMatch;
    }
    if Contains(actual, typed) || Contains(typed, actual) {
      return CloseMatch;
    }
    var d := Levenshtein(typed, actual);
    r := if d <= CLOSE_MATCH_DISTANCE then CloseMatch else NoMatch;
  }

  /** It does not matter which of the two names was typed. */
  lemma {:induction false} CheckIsSymmetric(typed: string, actual: string)
    ensures Classify(typed, actual) == Classify(actual, typed)
  {
    Symmetric(typed, actual);
  }

  /** Two names fail to match exactly when they differ and either one is empty, or neither is part of the
      other and no one or two edits turn one into the other. */
  lemma {:induction false} NoMatchIff(typed: string, actual: string)
    ensures Classify(typed, actual) == NoMatch <==>
      && typed != actual
      && (typed == "" || actual == "" ||
          (&& !Contains(actual, typed) && !Contains(typed, actual)
           && forall script | Turns(script, typed, actual) :: |script| > 2))
    ensures Classify(typed, actual) == Match <==> typed == actual
  {
    DistanceIsShortestScript(typed, actual, CLOSE_MATCH_DISTANCE);
  }
}
