/**
 * The string handling the input guardrails share: the ASCII word class `\w` = [A-Za-z0-9_],
 * ASCII lower-casing, and `String.prototype.split` by a regular expression that matches
 * runs of one character class (`\W+` or `\w+`).
 */
module Text {
  import opened Wrappers

  /** Membership in the regular-expression class `\w`. */
  predicate IsWordChar(c: char) {
    ('a' <= c <= 'z') || ('A' <= c <= 'Z') || ('0' <= c <= '9') || c == '_'
  }

  /** ASCII lower-casing of one character. */
  function LowerChar(c: char): (r: char)
    ensures IsWordChar(r) == IsWordChar(c)
    ensures !('A' <= r <= 'Z')
    ensures !('A' <= c <= 'Z') ==> r == c
  {
    if 'A' <= c <= 'Z' then (c as int + 32) as char else c
  }

  /** `toLowerCase()`, restricted to ASCII letters. */
  function Lower(s: string): (r: string)
    ensures |r| == |s|
    ensures forall i :: 0 <= i < |s| ==> r[i] == LowerChar(s[i])
  {
    if s == [] then [] else [LowerChar(s[0])] + Lower(s[1..])
  }

  lemma LowerConcat(a: string, b: string)
    ensures Lower(a + b) == Lower(a) + Lower(b)
  {
    assert forall i :: 0 <= i < |a + b| ==> Lower(a + b)[i] == (Lower(a) + Lower(b))[i];
  }

  /** A string without upper-case letters is its own lower-case form. */
  lemma LowerOfLowercase(s: string)
    requires forall i :: 0 <= i < |s| ==> !('A' <= s[i] <= 'Z')
    ensures Lower(s) == s
  {
  }

  /** Lower-casing twice is lower-casing once: what makes every check case-insensitive. */
  lemma LowerIdempotent(s: string)
    ensures Lower(Lower(s)) == Lower(s)
  {
    assert forall i :: 0 <= i < |s| ==> Lower(Lower(s))[i] == Lower(s)[i];
  }

  /** Whether `c` belongs to the separator class: `\w` when `wordSeps`, `\W` otherwise. */
  predicate IsSep(c: char, wordSeps: bool) {
    IsWordChar(c) == wordSeps
  }

  /** No character of `s` is a separator. */
  predicate NoSep(s: string, wordSeps: bool) {
    forall i :: 0 <= i < |s| ==> !IsSep(s[i], wordSeps)
  }

  /** Length of the longest separator-free prefix of `s`. */
  function PieceLen(s: string, wordSeps: bool): (n: nat)
    ensures n <= |s|
    ensures forall i :: 0 <= i < n ==> !IsSep(s[i], wordSeps)
    ensures n < |s| ==> IsSep(s[n], wordSeps)
  {
    if s == [] || IsSep(s[0], wordSeps) then 0 else 1 + PieceLen(s[1..], wordSeps)
  }

  /** Length of the separator run `s` starts with (what one greedy match of `\W+` or `\w+` consumes). */
  function RunLen(s: string, wordSeps: bool): (n: nat)
    ensures n <= |s|
    ensures forall i :: 0 <= i < n ==> IsSep(s[i], wordSeps)
    ensures n < |s| ==> !IsSep(s[n], wordSeps)
  {
    if s == [] || !IsSep(s[0], wordSeps) then 0 else 1 + RunLen(s[1..], wordSeps)
  }

  /**
   * `s.split(/\W+/)` (wordSeps false) or `s.split(/\w+/)` (wordSeps true): the pieces between
   * maximal separator runs. A leading or trailing run yields an empty first or last piece,
   * and the empty string splits into one empty piece.
   */
  function Split(s: string, wordSeps: bool): (r: seq<string>)
    ensures |r| >= 1
    ensures forall k :: 0 <= k < |r| ==> NoSep(r[k], wordSeps)
    decreases |s|
  {
    var n := PieceLen(s, wordSeps);
    if n == |s| then
      assert s[..n] == s;
      [s]
    else
      var rest := s[n..];
      var m := RunLen(rest, wordSeps);
      assert NoSep(s[..n], wordSeps);
      [s[..n]] + Split(rest[m..], wordSeps)
  }

  /** A string without separators is a single piece: a word is never split further. */
  lemma OnePiece(s: string, wordSeps: bool)
    requires NoSep(s, wordSeps)
    ensures Split(s, wordSeps) == [s]
  {
    PieceLenWhole(s, [], wordSeps);
    assert s + [] == s;
  }

  lemma {:induction false} PieceLenWhole(x: string, y: string, wordSeps: bool)
    requires NoSep(x, wordSeps)
    requires y == [] || IsSep(y[0], wordSeps)
    ensures PieceLen(x + y, wordSeps) == |x|
    decreases |x|
  {
    if x != [] {
      assert (x + y)[1..] == x[1..] + y;
      PieceLenWhole(x[1..], y, wordSeps);
    }
  }

  lemma {:induction false} PieceLenStops(x: string, y: string, wordSeps: bool)
    requires PieceLen(x, wordSeps) < |x|
    ensures PieceLen(x + y, wordSeps) == PieceLen(x, wordSeps)
    decreases |x|
  {
    if !IsSep(x[0], wordSeps) {
      assert (x + y)[1..] == x[1..] + y;
      PieceLenStops(x[1..], y, wordSeps);
    }
  }

  lemma {:induction false} RunLenStops(x: string, y: string, wordSeps: bool)
    requires y != [] && !IsSep(y[0], wordSeps)
    ensures RunLen(x + y, wordSeps) <= |x|
    decreases |x|
  {
    if x != [] && IsSep(x[0], wordSeps) {
      assert (x + y)[1..] == x[1..] + y;
      RunLenStops(x[1..], y, wordSeps);
    }
  }

  /**
   * Whole-token matching: a separator-free, non-empty `w` standing between separators
   * (or the ends of the string) is one of the pieces.
   */
  lemma {:induction false} WordIsPiece(a: string, w: string, b: string, wordSeps: bool)
    requires w != [] && NoSep(w, wordSeps)
    requires a == [] || IsSep(a[|a| - 1], wordSeps)
    requires b == [] || IsSep(b[0], wordSeps)
    ensures w in Split(a + (w + b), wordSeps)
    decreases |a|, 1
  {
    if a == [] {
      assert a + (w + b) == w + b;
      WordLeadsSplit(w, b, wordSeps);
    } else {
      WordIsLaterPiece(a, w, b, wordSeps);
    }
  }

  /** The inductive step of `WordIsPiece`: the pieces of `a` come first, then `w`. */
  lemma {:induction false} WordIsLaterPiece(a: string, w: string, b: string, wordSeps: bool)
    requires w != [] && NoSep(w, wordSeps)
    requires a != [] && IsSep(a[|a| - 1], wordSeps)
    requires b == [] || IsSep(b[0], wordSeps)
    ensures w in Split(a + (w + b), wordSeps)
    decreases |a|, 0
  {
    var piece, a' := SkipFirstPiece(a, w + b, wordSeps);
    WordIsPiece(a', w, b, wordSeps);
  }

  /** A word followed by a separator (or nothing) is the first piece. */
  lemma WordLeadsSplit(w: string, b: string, wordSeps: bool)
    requires NoSep(w, wordSeps)
    requires b == [] || IsSep(b[0], wordSeps)
    ensures Split(w + b, wordSeps)[0] == w
  {
    PieceLenWhole(w, b, wordSeps);
    assert (w + b)[..|w|] == w;
  }

  /**
   * When `a` ends with a separator and `z` starts with a non-separator, splitting `a + z`
   * emits one piece and continues with a shorter `a'` that still ends with that separator.
   */
  lemma SkipFirstPiece(a: string, z: string, wordSeps: bool) returns (piece: string, a': string)
    requires a != [] && IsSep(a[|a| - 1], wordSeps)
    requires z != [] && !IsSep(z[0], wordSeps)
    ensures |a'| < |a|
    ensures a' == [] || IsSep(a'[|a'| - 1], wordSeps)
    ensures Split(a + z, wordSeps) == [piece] + Split(a' + z, wordSeps)
  {
    var n, m := FirstRun(a, z, wordSeps);
    SplitStep(a + z, n, m, wordSeps);
    piece := (a + z)[..n];
    a' := a[n + m..];
  }

  /** Where the first piece and the separator run after it end, when both lie inside `a`. */
  lemma FirstRun(a: string, z: string, wordSeps: bool) returns (n: nat, m: nat)
    requires a != [] && IsSep(a[|a| - 1], wordSeps)
    requires z != [] && !IsSep(z[0], wordSeps)
    ensures n == PieceLen(a + z, wordSeps) < |a + z|
    ensures m == RunLen((a + z)[n..], wordSeps)
    ensures 1 <= n + m <= |a|
    ensures (a + z)[n..][m..] == a[n + m..] + z
  {
    n := PieceLen(a, wordSeps);
    PieceLenStops(a, z, wordSeps);
    DropOfJoin(a, z, n, 0);
    var rest := (a + z)[n..];
    RunLenStops(a[n..], z, wordSeps);
    m := RunLen(rest, wordSeps);
    assert m >= 1 by { assert IsSep(rest[0], wordSeps); }
    DropOfJoin(a, z, n, m);
  }

  lemma DropOfJoin(a: string, z: string, n: nat, m: nat)
    requires n + m <= |a|
    ensures (a + z)[n..] == a[n..] + z
    ensures (a + z)[n..][m..] == a[n + m..] + z
  {
    assert (a + z)[n..] == a[n..] + z;
    assert (a[n..] + z)[m..] == a[n..][m..] + z;
  }

  /** One step of the split: the first piece, then the split of what follows its separator run. */
  lemma SplitStep(s: string, n: nat, m: nat, wordSeps: bool)
    requires n == PieceLen(s, wordSeps) < |s|
    requires m == RunLen(s[n..], wordSeps)
    ensures Split(s, wordSeps) == [s[..n]] + Split(s[n..][m..], wordSeps)
  {
  }

  /** The message prefix every input guardrail reports a banned token with. */
  const DetectedPrefix := "Sensitive word detected: "

  /** The first index of `tokens` whose entry is in `banned`: the token a scan with early return reports. */
  function FirstMember(tokens: seq<string>, banned: set<string>): (r: Option<nat>)
    ensures r.None? <==> forall i :: 0 <= i < |tokens| ==> tokens[i] !in banned
    ensures r.Some? ==> r.value < |tokens| && tokens[r.value] in banned
    ensures r.Some? ==> forall j :: 0 <= j < r.value ==> tokens[j] !in banned
  {
    if tokens == [] then None
    else if tokens[0] in banned then Some(0)
    else
      match FirstMember(tokens[1..], banned)
      case None => None
      case Some(k) => Some(k + 1)
  }

  /** `String.endsWith`. */
  predicate EndsWith(s: string, suffix: string) {
    |suffix| <= |s| && s[|s| - |suffix|..] == suffix
  }
}
