/** String primitives the scorer is built on: ASCII lowercasing (`toLowerCase`),
    substring search (`includes`), whitespace trimming (`trim`) and splitting on
    sentence punctuation (`split(/[.,!?]/)`). Strings are sequences of characters. */
module Text {

  /** True of the ASCII capitals 'A'..'Z'. */
  predicate IsUpper(c: char) {
    'A' <= c <= 'Z'
  }

  function LowerChar(c: char): (d: char)
    ensures !IsUpper(d)
    ensures IsUpper(c) ==> d as int == c as int + 32
    ensures !IsUpper(c) ==> d == c
  {
    if IsUpper(c) then (c as int + 32) as char else c
  }

  /** Lowercasing, character by character. */
  function Lower(s: string): (r: string)
    ensures |r| == |s|
    ensures forall i :: 0 <= i < |s| ==> r[i] == LowerChar(s[i])
  {
    seq(|s|, i requires 0 <= i < |s| => LowerChar(s[i]))
  }

  /** Lowercasing twice is lowercasing once; a lowercased string has no capitals. */
  lemma LowerIdempotent(s: string)
    ensures Lower(Lower(s)) == Lower(s)
    ensures forall i :: 0 <= i < |s| ==> !IsUpper(Lower(s)[i])
  {
  }

  /** Lowercasing commutes with concatenation. */
  lemma LowerConcat(a: string, b: string)
    ensures Lower(a + b) == Lower(a) + Lower(b)
  {
  }

  /** A string without capitals is its own lowercase form. */
  lemma LowerOfLower(s: string)
    requires forall i :: 0 <= i < |s| ==> !IsUpper(s[i])
    ensures Lower(s) == s
  {
  }

  // ---------------------------------------------------------------- substrings

  predicate IsPrefix(p: string, s: string) {
    |p| <= |s| && s[..|p|] == p
  }

  /** `k` occurs in `t` starting at position `i`. */
  predicate OccursAt(k: string, t: string, i: nat) {
    i <= |t| && IsPrefix(k, t[i..])
  }

  /** The reference meaning of `t.includes(k)`: some position of `t` starts a copy of `k`. */
  ghost predicate Occurs(k: string, t: string) {
    exists i: nat :: OccursAt(k, t, i)
  }

  /** Occurrence in a non-empty text: at the front, or somewhere in the rest. */
  lemma OccursUnfold(k: string, t: string)
    requires |t| > 0
    ensures Occurs(k, t) <==> IsPrefix(k, t) || Occurs(k, t[1..])
  {
    if Occurs(k, t) {
      var i: nat :| OccursAt(k, t, i);
      if i > 0 {
        assert t[1..][i - 1..] == t[i..];
        assert OccursAt(k, t[1..], i - 1);
      }
    }
    if IsPrefix(k, t) {
      assert OccursAt(k, t, 0);
    }
    if Occurs(k, t[1..]) {
      var i: nat :| OccursAt(k, t[1..], i);
      assert t[1..][i..] == t[i + 1..];
      assert OccursAt(k, t, i + 1);
    }
  }

  /** Executable substring search, scanning `t` left to right. */
  function Includes(t: string, k: string): (b: bool)
    ensures b <==> Occurs(k, t)
    decreases |t|
  {
    if |t| == 0 then
      assert IsPrefix(k, t) ==> OccursAt(k, t, 0);
      IsPrefix(k, t)
    else
      OccursUnfold(k, t);
      IsPrefix(k, t) || Includes(t[1..], k)
  }

  /** Occurrence is transitive: a substring of a substring of `t` is a substring of `t`. */
  lemma OccursTransitive(a: string, b: string, t: string)
    requires Occurs(a, b) && Occurs(b, t)
    ensures Occurs(a, t)
  {
    var i: nat :| OccursAt(a, b, i);
    var j: nat :| OccursAt(b, t, j);
    assert t[j + i..][..|a|] == b[i..][..|a|];
    assert OccursAt(a, t, j + i);
  }

  /** A word with a character that `t` lacks does not occur in `t`. */
  lemma AbsentChar(k: string, t: string, c: char)
    requires c in k && c !in t
    ensures !Occurs(k, t)
  {
    forall i: nat | i <= |t| && |k| <= |t| - i
      ensures !OccursAt(k, t, i)
    {
      var j :| 0 <= j < |k| && k[j] == c;
      assert t[i..][..|k|][j] == t[i + j];
    }
  }

  /** No position of `t` holds `a` immediately followed by `b`. */
  predicate PairFree(t: string, a: char, b: char) {
    forall i :: 0 <= i < |t| - 1 ==> !(t[i] == a && t[i + 1] == b)
  }

  /** A word with two neighbouring characters that never stand side by side in `t` does
      not occur in `t`. */
  lemma AbsentPair(k: string, t: string, j: nat)
    requires j + 1 < |k| && PairFree(t, k[j], k[j + 1])
    ensures !Occurs(k, t)
  {
    forall i: nat | i <= |t| && |k| <= |t| - i
      ensures !OccursAt(k, t, i)
    {
      assert t[i..][..|k|][j] == t[i + j];
      assert t[i..][..|k|][j + 1] == t[i + j + 1];
    }
  }

  /** A concatenation is free of a pair when both parts are and the seam does not form it. */
  lemma PairFreeConcat(a: string, b: string, x: char, y: char)
    requires PairFree(a, x, y) && PairFree(b, x, y)
    requires |a| > 0 && |b| > 0 ==> !(a[|a| - 1] == x && b[0] == y)
    ensures PairFree(a + b, x, y)
  {
    var ab := a + b;
    forall i | 0 <= i < |ab| - 1
      ensures !(ab[i] == x && ab[i + 1] == y)
    {
      if i + 1 < |a| {
        assert ab[i] == a[i] && ab[i + 1] == a[i + 1];
      } else if i + 1 == |a| {
        assert ab[i] == a[|a| - 1] && ab[i + 1] == b[0];
      } else {
        assert ab[i] == b[i - |a|] && ab[i + 1] == b[i - |a| + 1];
      }
    }
  }

  /** Every word occurs in itself. */
  lemma OccursSelf(k: string)
    ensures Occurs(k, k)
  {
    assert OccursAt(k, k, 0);
  }

  /** Lowercasing keeps occurrences: a word found in `t` in any case mix is found,
      lowercased, in the lowercased text. */
  lemma LowerPreservesOccurrence(k: string, t: string)
    requires Occurs(k, t)
    ensures Occurs(Lower(k), Lower(t))
  {
    var i: nat :| OccursAt(k, t, i);
    assert Lower(t)[i..][..|k|] == Lower(k);
    assert OccursAt(Lower(k), Lower(t), i);
  }

  /** The empty text contains only the empty word. */
  lemma OccursInEmpty(k: string)
    requires |k| > 0
    ensures !Occurs(k, [])
  {
  }

  // ---------------------------------------------------------------- trimming

  /** The characters `String.prototype.trim` strips: ECMAScript WhiteSpace and LineTerminator. */
  predicate IsSpace(c: char) {
    || c == ' '
    || '\t' <= c <= '\r'
    || c == '\U{A0}'
    || c == '\U{1680}'
    || '\U{2000}' <= c <= '\U{200A}'
    || c == '\U{2028}'
    || c == '\U{2029}'
    || c == '\U{202F}'
    || c == '\U{205F}'
    || c == '\U{3000}'
    || c == '\U{FEFF}'
  }

  /** Drops leading whitespace: the result is a suffix of `s` after a run of spaces. */
  function TrimStart(s: string): (r: string)
    ensures |r| <= |s| && r == s[|s| - |r|..]
    ensures forall i :: 0 <= i < |s| - |r| ==> IsSpace(s[i])
    ensures |r| > 0 ==> !IsSpace(r[0])
  {
    if |s| > 0 && IsSpace(s[0]) then TrimStart(s[1..]) else s
  }

  /** Drops trailing whitespace: the result is a prefix of `s` before a run of spaces. */
  function TrimEnd(s: string): (r: string)
    ensures |r| <= |s| && r == s[..|r|]
    ensures forall i :: |r| <= i < |s| ==> IsSpace(s[i])
    ensures |r| > 0 ==> !IsSpace(r[|r| - 1])
  {
    if |s| > 0 && IsSpace(s[|s| - 1]) then TrimEnd(s[..|s| - 1]) else s
  }

  /** `s.trim()`: the longest slice of `s` that neither starts nor ends with whitespace,
      everything cut off being whitespace. */
  function Trim(s: string): (r: string)
    ensures |r| <= |s|
    ensures |r| > 0 ==> !IsSpace(r[0]) && !IsSpace(r[|r| - 1])
    ensures exists a :: TrimmedAt(s, r, a)
  {
    var t := TrimStart(s);
    var r := TrimEnd(t);
    var a := |s| - |t|;
    assert TrimmedAt(s, r, a);
    r
  }

  /** `r` is the slice of `s` starting at `a`, with only whitespace around it. */
  predicate TrimmedAt(s: string, r: string, a: int) {
    && 0 <= a <= |s| - |r|
    && r == s[a..a + |r|]
    && (forall i :: 0 <= i < a ==> IsSpace(s[i]))
    && (forall i :: a + |r| <= i < |s| ==> IsSpace(s[i]))
  }

  /** A string of whitespace only trims to the empty string, and back. */
  lemma TrimEmptyIffBlank(s: string)
    ensures Trim(s) == [] <==> forall i :: 0 <= i < |s| ==> IsSpace(s[i])
  {
    var r := Trim(s);
    var a :| TrimmedAt(s, r, a);
    if |r| > 0 {
      assert r[0] == s[a];
    }
  }

  // ---------------------------------------------------------------- splitting

  /** The separators of `split(/[.,!?]/)`. */
  predicate IsBreak(c: char) {
    c == '.' || c == ',' || c == '!' || c == '?'
  }

  /** The separators of `s`, in order. */
  function Separators(s: string): (r: string)
    ensures forall i :: 0 <= i < |r| ==> IsBreak(r[i])
  {
    if |s| == 0 then []
    else if IsBreak(s[0]) then [s[0]] + Separators(s[1..])
    else Separators(s[1..])
  }

  /** The separators of a concatenation are those of its parts. */
  lemma {:induction false} SeparatorsConcat(a: string, b: string)
    ensures Separators(a + b) == Separators(a) + Separators(b)
    decreases |a|
  {
    if |a| == 0 {
      assert a + b == b;
    } else {
      assert (a + b)[1..] == a[1..] + b;
      SeparatorsConcat(a[1..], b);
    }
  }

  /** `s` contains no separator. */
  predicate BreakFree(s: string) {
    forall i :: 0 <= i < |s| ==> !IsBreak(s[i])
  }

  lemma BreakFreeSeparators(s: string)
    requires BreakFree(s)
    ensures Separators(s) == []
  {
    if |s| > 0 {
      BreakFreeSeparators(s[1..]);
    }
  }

  /** Lowercasing leaves the separators where they were. */
  lemma LowerKeepsSeparators(s: string)
    ensures Separators(Lower(s)) == Separators(s)
  {
    if |s| > 0 {
      assert Lower(s)[1..] == Lower(s[1..]);
      LowerKeepsSeparators(s[1..]);
    }
  }

  /** `s.split(/[.,!?]/)`: the pieces between separators, empty pieces included,
      so a string with n separators yields n + 1 pieces. */
  function Split(s: string): (pieces: seq<string>)
    ensures |pieces| == |Separators(s)| + 1
    ensures forall j :: 0 <= j < |pieces| ==> forall i :: 0 <= i < |pieces[j]| ==> !IsBreak(pieces[j][i])
  {
    if |s| == 0 then
      [[]]
    else if IsBreak(s[0]) then
      [[]] + Split(s[1..])
    else
      var rest := Split(s[1..]);
      [[s[0]] + rest[0]] + rest[1..]
  }

  /** Puts pieces back together with one separator between each neighbouring pair. */
  function Weave(pieces: seq<string>, seps: string): string
    requires |pieces| == |seps| + 1
  {
    if |seps| == 0 then pieces[0]
    else pieces[0] + [seps[0]] + Weave(pieces[1..], seps[1..])
  }

  /** Splitting loses nothing: weaving the pieces with the separators gives back the text. */
  lemma {:induction false} SplitRoundTrip(s: string)
    ensures Weave(Split(s), Separators(s)) == s
    decreases |s|
  {
    if |s| == 0 {
    } else if IsBreak(s[0]) {
      SplitRoundTrip(s[1..]);
      assert Split(s)[1..] == Split(s[1..]);
    } else {
      SplitRoundTrip(s[1..]);
      var rest := Split(s[1..]);
      var seps := Separators(s[1..]);
      assert Separators(s) == seps;
      if |seps| == 0 {
      } else {
        assert Split(s)[1..] == rest[1..];
        assert Weave(rest, seps) == rest[0] + [seps[0]] + Weave(rest[1..], seps[1..]);
      }
    }
  }
}
