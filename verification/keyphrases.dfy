/** Key-phrase extraction: split the lowercased text at sentence punctuation, keep the
    fragments whose trimmed length exceeds 3, and return the first four of them. */
module KeyPhrases {
  import opened Ints
  import opened Text

  const MaxPhrases: nat := 4

  /** Length as a JavaScript string reports it: UTF-16 code units, so a character outside
      the Basic Multilingual Plane counts twice. */
  function Utf16Length(s: string): (n: nat)
    ensures |s| <= n <= 2 * |s|
  {
    if |s| == 0 then 0
    else (if s[0] as int > 0xFFFF then 2 else 1) + Utf16Length(s[1..])
  }

  /** A fragment worth keeping: more than three code units once trimmed. */
  predicate IsKeyPhrase(p: string) {
    Utf16Length(Trim(p)) > 3
  }

  /** `xs` can be obtained from `ys` by deleting elements: same elements, same order. */
  ghost predicate Subsequence<T>(xs: seq<T>, ys: seq<T>)
    decreases |ys|
  {
    || |xs| == 0
    || (|ys| > 0 && ((xs[0] == ys[0] && Subsequence(xs[1..], ys[1..])) || Subsequence(xs, ys[1..])))
  }

  /** Any prefix of a subsequence is a subsequence. */
  lemma {:induction false} SubsequencePrefix<T>(xs: seq<T>, ys: seq<T>, n: nat)
    requires n <= |xs| && Subsequence(xs, ys)
    ensures Subsequence(xs[..n], ys)
    decreases |ys|
  {
    if n > 0 {
      if xs[0] == ys[0] && Subsequence(xs[1..], ys[1..]) {
        SubsequencePrefix(xs[1..], ys[1..], n - 1);
        assert xs[..n][1..] == xs[1..][..n - 1];
      } else {
        SubsequencePrefix(xs, ys[1..], n);
      }
    }
  }

  /** The positions of `pieces` whose element satisfies `keep`. */
  ghost function KeptPositions(pieces: seq<string>, keep: string -> bool): set<int> {
    set i | 0 <= i < |pieces| && keep(pieces[i])
  }

  /** Every element of `s` moved up by one. */
  ghost function Shift(s: set<int>): set<int> {
    set i | i in s :: i + 1
  }

  /** Shifting a set of positions below `n` by one keeps its size. */
  lemma {:induction false} ShiftKeepsSize(s: set<int>, n: nat)
    requires forall i :: i in s ==> 0 <= i < n
    ensures |Shift(s)| == |s|
  {
    if n > 0 {
      var t := s - {n - 1};
      ShiftKeepsSize(t, n - 1);
      if n - 1 in s {
        forall y | y in Shift(s) ensures y in Shift(t) + {n} {
          if y != n { assert y - 1 in t; }
        }
        assert n in Shift(s);
        forall y | y in Shift(t) ensures y in Shift(s) {
          assert y - 1 in s;
        }
        assert Shift(s) == Shift(t) + {n};
        assert n !in Shift(t);
        assert s == t + {n - 1};
      } else {
        assert t == s;
      }
    } else {
      assert forall i :: i !in s;
      assert s == {};
    }
  }

  /** Kept positions of a non-empty sequence: the head's, plus the tail's moved up by one. */
  lemma KeptPositionsUnfold(pieces: seq<string>, keep: string -> bool)
    requires |pieces| > 0
    ensures |KeptPositions(pieces, keep)| == (if keep(pieces[0]) then 1 else 0) + |KeptPositions(pieces[1..], keep)|
  {
    var tail := KeptPositions(pieces[1..], keep);
    ShiftKeepsSize(tail, |pieces| - 1);
    assert forall i :: 1 <= i < |pieces| ==> pieces[i] == pieces[1..][i - 1];
    forall y | y in KeptPositions(pieces, keep) && y > 0 ensures y in Shift(tail) {
      assert y - 1 in tail;
    }
    if keep(pieces[0]) {
      assert KeptPositions(pieces, keep) == {0} + Shift(tail);
    } else {
      assert KeptPositions(pieces, keep) == Shift(tail);
    }
  }

  /** `filter`: exactly the elements satisfying `keep`, in their original order, as many as
      there are qualifying positions. Being an in-order selection of the qualifying elements
      of that length pins the result down. */
  function Filter(pieces: seq<string>, keep: string -> bool): (r: seq<string>)
    ensures |r| <= |pieces|
    ensures |r| == |KeptPositions(pieces, keep)|
    ensures forall i :: 0 <= i < |r| ==> keep(r[i])
    ensures forall i :: 0 <= i < |pieces| && keep(pieces[i]) ==> pieces[i] in r
    ensures Subsequence(r, pieces)
  {
    if |pieces| == 0 then []
    else
      KeptPositionsUnfold(pieces, keep);
      var head := pieces[0];
      var tail := pieces[1..];
      var rest := Filter(tail, keep);
      assert forall i :: 1 <= i < |pieces| ==> pieces[i] == tail[i - 1];
      if keep(head) then
        var r := [head] + rest;
        assert r[1..] == rest;
        assert forall i :: 1 <= i < |r| ==> r[i] == rest[i - 1];
        r
      else
        rest
  }

  /** The key-phrase filter. */
  function KeepLong(pieces: seq<string>): seq<string> {
    Filter(pieces, IsKeyPhrase)
  }

  /** `extractKeyPhrases`: at most four fragments of the lowercased text, each a key phrase,
      in left-to-right order; fewer than four only when no qualifying fragment was left out. */
  function ExtractKeyPhrases(text: string): (r: seq<string>)
    ensures |r| <= MaxPhrases
    ensures forall i :: 0 <= i < |r| ==> IsKeyPhrase(r[i])
    ensures Subsequence(r, Split(Lower(text)))
    ensures |r| <= |Split(Lower(text))|
    ensures |r| == Min(MaxPhrases, |KeptPositions(Split(Lower(text)), IsKeyPhrase)|)
    ensures |r| < MaxPhrases ==>
      forall i :: 0 <= i < |Split(Lower(text))| && IsKeyPhrase(Split(Lower(text))[i]) ==> Split(Lower(text))[i] in r
  {
    var pieces := Split(Lower(text));
    var long := KeepLong(pieces);
    var n := if |long| < MaxPhrases then |long| else MaxPhrases;
    SubsequencePrefix(long, pieces, n);
    assert n == |long| ==> long[..n] == long;
    long[..n]
  }

  /** The phrases are the leading qualifying fragments: with at least four of them the
      first four are returned, otherwise all of them. */
  lemma ExtractKeepsLeadingPhrases(text: string)
    ensures ExtractKeyPhrases(text) <= KeepLong(Split(Lower(text)))
    ensures |ExtractKeyPhrases(text)| == Min(MaxPhrases, |KeepLong(Split(Lower(text)))|)
  {
  }
}
