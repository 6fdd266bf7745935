/** The sentiment scorer: count which words of a positive and of a negative list occur in
    the lowercased text and compare the two counts. */
module SentimentScorer {
  import opened Text

  datatype Sentiment = Positive | Negative | Neutral

  const PositiveWords: seq<string> := ["good", "improved", "working", "happy", "thanks", "completed", "fixed"]
  const NegativeWords: seq<string> := ["broken", "not working", "problem", "issue", "bad", "poor", "lack", "missing"]

  /** How many words of the list occur in `t`; a word counts once however often it occurs. */
  function CountPresent(words: seq<string>, t: string): (n: nat)
    ensures n <= |words|
    ensures n == 0 <==> forall i :: 0 <= i < |words| ==> !Occurs(words[i], t)
    ensures n == |words| <==> forall i :: 0 <= i < |words| ==> Occurs(words[i], t)
  {
    if |words| == 0 then 0
    else (if Includes(t, words[0]) then 1 else 0) + CountPresent(words[1..], t)
  }

  predicate Distinct(words: seq<string>) {
    forall i, j :: 0 <= i < j < |words| ==> words[i] != words[j]
  }

  /** The words of the list that occur in `t`. */
  ghost function Present(words: seq<string>, t: string): set<string> {
    set w | w in words && Occurs(w, t)
  }

  /** For a list without repeats the count is the number of distinct list words present. */
  lemma {:induction false} CountIsPresentWords(words: seq<string>, t: string)
    requires Distinct(words)
    ensures CountPresent(words, t) == |Present(words, t)|
  {
    if |words| > 0 {
      var w := words[0];
      var rest := words[1..];
      CountIsPresentWords(rest, t);
      assert w !in rest;
      if Occurs(w, t) {
        assert Present(words, t) == {w} + Present(rest, t);
      } else {
        assert Present(words, t) == Present(rest, t);
      }
    }
  }

  /** When exactly one list word occurs, the count is one. */
  lemma {:induction false} CountExactlyOne(words: seq<string>, t: string, k: nat)
    requires k < |words| && Occurs(words[k], t)
    requires forall i :: 0 <= i < |words| && i != k ==> !Occurs(words[i], t)
    ensures CountPresent(words, t) == 1
  {
    var rest := words[1..];
    if k == 0 {
      assert forall i :: 0 <= i < |rest| ==> !Occurs(rest[i], t) by {
        forall i | 0 <= i < |rest| ensures !Occurs(rest[i], t) {
          assert rest[i] == words[i + 1];
        }
      }
    } else {
      assert Occurs(rest[k - 1], t);
      forall i | 0 <= i < |rest| && i != k - 1 ensures !Occurs(rest[i], t) {
        assert rest[i] == words[i + 1];
      }
      CountExactlyOne(rest, t, k - 1);
    }
  }

  /** `analyzeSentiment`: NEGATIVE when more negative than positive list words occur in the
      lowercased text, POSITIVE for the reverse, NEUTRAL on a tie (none at all included). */
  function Analyze(text: string): (r: Sentiment)
    ensures r == Negative <==> CountPresent(NegativeWords, Lower(text)) > CountPresent(PositiveWords, Lower(text))
    ensures r == Positive <==> CountPresent(PositiveWords, Lower(text)) > CountPresent(NegativeWords, Lower(text))
    ensures r == Neutral <==> CountPresent(PositiveWords, Lower(text)) == CountPresent(NegativeWords, Lower(text))
  {
    var t := Lower(text);
    var positive := CountPresent(PositiveWords, t);
    var negative := CountPresent(NegativeWords, t);
    if negative > positive then Negative
    else if positive > negative then Positive
    else Neutral
  }

  /** Both lists are free of repeats, so both counts are counts of distinct words. */
  lemma WordListsDistinct()
    ensures Distinct(PositiveWords) && Distinct(NegativeWords)
  {
  }

  /** A text with no list word at all is NEUTRAL. */
  lemma AnalyzeNoWords(text: string)
    requires forall i :: 0 <= i < |PositiveWords| ==> !Occurs(PositiveWords[i], Lower(text))
    requires forall i :: 0 <= i < |NegativeWords| ==> !Occurs(NegativeWords[i], Lower(text))
    ensures Analyze(text) == Neutral
  {
  }

  /** "working" is a positive word and part of the negative "not working", so a text that
      says "not working" scores a hit on each side. */
  lemma NotWorkingOverlap(text: string)
    requires Occurs("not working", Lower(text))
    ensures Occurs("working", Lower(text))
    ensures CountPresent(PositiveWords, Lower(text)) >= 1
    ensures CountPresent(NegativeWords, Lower(text)) >= 1
  {
    assert OccursAt("working", "not working", 4);
    OccursTransitive("working", "not working", Lower(text));
    assert PositiveWords[2] == "working";
    assert NegativeWords[1] == "not working";
  }

  /** Consequently "not working" on its own, without any other list word, is NEUTRAL. */
  lemma NotWorkingAloneIsNeutral(text: string)
    requires Occurs("not working", Lower(text))
    requires forall i :: 0 <= i < |PositiveWords| && i != 2 ==> !Occurs(PositiveWords[i], Lower(text))
    requires forall i :: 0 <= i < |NegativeWords| && i != 1 ==> !Occurs(NegativeWords[i], Lower(text))
    ensures Analyze(text) == Neutral
  {
    NotWorkingOverlap(text);
    CountExactlyOne(PositiveWords, Lower(text), 2);
    CountExactlyOne(NegativeWords, Lower(text), 1);
  }
}
