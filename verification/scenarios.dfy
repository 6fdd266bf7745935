/** Worked examples: the classifier, scorer and store on particular texts. */
module Scenarios {
  import opened Text
  import opened Classifier
  import opened SentimentScorer
  import opened Priority
  import opened KeyPhrases
  import opened IssueStore

  /** An empty text is "other", NEUTRAL, has no key phrase, and without the stubs scores
      the base priority 5. */
  lemma EmptyText()
    ensures Categorize("") == Other
    ensures Analyze("") == Neutral
    ensures ExtractKeyPhrases("") == []
    ensures CalculatePriority(Name(Categorize("")), Analyze(""), false, false) == 5
  {
    EmptyTextOther();
    EmptyTextNeutral();
    EmptyTextNoPhrases();
  }

  lemma EmptyTextOther()
    ensures Categorize("") == Other
  {
    assert Lower("") == "";
    forall c: Category ensures !Matches("", c) {
      forall w | w in Keywords(c) ensures !Includes("", w) {
        OccursInEmpty(w);
      }
    }
  }

  lemma EmptyTextNeutral()
    ensures Analyze("") == Neutral
  {
    assert Lower("") == "";
    forall i | 0 <= i < |PositiveWords| ensures !Occurs(PositiveWords[i], "") {
      OccursInEmpty(PositiveWords[i]);
    }
    forall i | 0 <= i < |NegativeWords| ensures !Occurs(NegativeWords[i], "") {
      OccursInEmpty(NegativeWords[i]);
    }
    AnalyzeNoWords("");
  }

  lemma EmptyTextNoPhrases()
    ensures ExtractKeyPhrases("") == []
  {
    assert Lower("") == "";
    assert Split("") == [""];
    assert Trim("") == "";
    assert !IsKeyPhrase("");
  }

  /** "not working" on its own is NEUTRAL, not NEGATIVE: its "working" is a positive hit. */
  lemma NotWorkingIsNeutral()
    ensures Analyze("not working") == Neutral
  {
    var t := "not working";
    assert Lower(t) == t by {
      LowerOfLower(t);
    }
    OccursSelf(t);
    NotWorkingOtherPositivesAbsent();
    NotWorkingOtherNegativesAbsent();
    NotWorkingAloneIsNeutral(t);
  }

  lemma NotWorkingOtherPositivesAbsent()
    ensures forall i :: 0 <= i < |PositiveWords| && i != 2 ==> !Occurs(PositiveWords[i], "not working")
  {
    var t := "not working";
    AbsentChar("good", t, 'd');
    AbsentChar("improved", t, 'm');
    AbsentChar("happy", t, 'h');
    AbsentChar("thanks", t, 'h');
    AbsentChar("completed", t, 'c');
    AbsentChar("fixed", t, 'f');
  }

  lemma NotWorkingOtherNegativesAbsent()
    ensures forall i :: 0 <= i < |NegativeWords| && i != 1 ==> !Occurs(NegativeWords[i], "not working")
  {
    var t := "not working";
    AbsentChar("broken", t, 'b');
    AbsentChar("problem", t, 'b');
    AbsentChar("issue", t, 's');
    AbsentChar("bad", t, 'b');
    AbsentChar("poor", t, 'p');
    AbsentChar("lack", t, 'l');
    AbsentChar("missing", t, 's');
  }

  /** The first seed text names both a water keyword ("water") and an education keyword
      ("school"); water is declared first and wins, which is the category the seed stores. */
  lemma WaterDeclaredBeforeEducation()
    ensures Matches(Lower(SeedIssues[0].text), Water)
    ensures Matches(Lower(SeedIssues[0].text), Education)
    ensures Categorize(SeedIssues[0].text) == Water
    ensures Name(Categorize(SeedIssues[0].text)) == SeedIssues[0].category
  {
    var first := "Water pump not working near primary school";
    var t := Lower(SeedIssues[0].text);
    SeedTextSplit();
    LowerConcat(first, SeedTail());
    FirstSentenceKeywords();
    OccursAtExtends("water", Lower(first), Lower(SeedTail()), 0);
    OccursAtExtends("school", Lower(first), Lower(SeedTail()), 36);
    assert Includes(t, "water") && Includes(t, "school");
    assert Keywords(Water)[0] == "water";
    assert Keywords(Education)[0] == "school";
    assert Matches(t, Water);
    assert Matches(t, Education);
  }

  /** The first sentence of the first seed text, lowercased, starts with "water" and ends
      with "school". */
  lemma FirstSentenceKeywords()
    ensures OccursAt("water", Lower("Water pump not working near primary school"), 0)
    ensures OccursAt("school", Lower("Water pump not working near primary school"), 36)
  {
    var t := Lower("Water pump not working near primary school");
    PumpTextLower();
    assert t[36..] == "school";
  }

  /** An occurrence in `a` is still an occurrence, at the same place, once text is appended. */
  lemma OccursAtExtends(k: string, a: string, b: string, i: nat)
    requires OccursAt(k, a, i)
    ensures OccursAt(k, a + b, i)
  {
    assert (a + b)[i..][..|k|] == a[i..][..|k|];
  }

  /** The first seed text is its first sentence followed by the rest; the literals are
      compared a few characters at a time. */
  lemma SeedTextSplit()
    ensures SeedIssues[0].text == "Water pump not working near primary school" + SeedTail()
  {
    FirstSeedText();
    SeedTextUpToChildren();
    SeedTextUpToBringing();
    SeedTextToEnd();
    SeedTailPieces();
  }

  lemma FirstSeedText()
    ensures SeedIssues[0].text == "Water pump not working near primary school. Children are bringing water from far away."
  {
  }

  lemma SeedTextUpToChildren()
    ensures "Water pump not working near primary school. Children" == "Water pump not working near primary school" + ". Children"
  {
  }

  lemma SeedTextUpToBringing()
    ensures "Water pump not working near primary school. Children are bringing" == "Water pump not working near primary school. Children" + " are bringing"
  {
  }

  lemma SeedTextToEnd()
    ensures "Water pump not working near primary school. Children are bringing water from far away."
         == "Water pump not working near primary school. Children are bringing" + " water from far away."
  {
  }

  lemma SeedTailPieces()
    ensures SeedTail() == ". Children" + " are bringing" + " water from far away."
  {
    assert ". Children are bringing" == ". Children" + " are bringing";
  }

  function SeedTail(): string {
    ". Children are bringing water from far away."
  }

  /** The pump text, lowercased, is "water" + a middle part + "school". */
  lemma PumpTextLower()
    ensures Lower("Water pump not working near primary school") == "water" + PumpMiddle() + "school"
  {
    PumpTextSplit();
    LowerConcat("Water" + PumpMiddle(), "school");
    LowerConcat("Water", PumpMiddle());
    LowerOfLower(PumpMiddle());
    LowerOfLower("school");
    assert Lower("Water") == "water";
  }

  function PumpMiddle(): string {
    " pump not working near primary "
  }

  lemma PumpTextSplit()
    ensures "Water pump not working near primary school" == "Water" + PumpMiddle() + "school"
  {
  }

  /** A text of blanks is refused and leaves the store as it was. */
  lemma BlankSubmissionRefused(issues: seq<Issue>, id: int, fails: bool, confident: bool, lowInfra: bool)
    ensures Submit(issues, " \t\n", id, fails, confident, lowInfra) == issues
  {
    BlankTrimsToEmpty();
  }

  lemma BlankTrimsToEmpty()
    ensures Trim(" \t\n") == []
  {
    var s := " \t\n";
    assert IsSpace(s[0]) && IsSpace(s[1]) && IsSpace(s[2]);
    TrimEmptyIffBlank(s);
  }
}
