/** The seed issues read against the analysers. The seeds are hand-written demonstration
    records: the analysers, run on the seed texts, give a different sentiment, different
    urgencies and fewer key phrases than the seeds store. Also the worked example
    "Water pump not working near primary school", the first sentence of the first seed. */
module SeedRecords {
  import opened Text
  import opened Classifier
  import opened SentimentScorer
  import opened Priority
  import opened KeyPhrases
  import opened IssueStore
  import opened Scenarios

  /** The worked example, which is also the first sentence of the first seed, lowercased. */
  const PumpSentence: string := "water pump not working near primary school"

  /** The rest of the first seed text, lowercased. */
  const PumpTail: string := ". children are bringing water from far away."

  // ---------------------------------------------------------------- the worked example

  /** The worked example as typed. */
  const WorkedText: string := "Water pump not working near primary school"

  /** "Water pump not working near primary school" is filed as water and scored NEUTRAL,
      so its priority is at least 8 whatever the two stubs say. */
  lemma WorkedExample()
    ensures Categorize(WorkedText) == Water
    ensures Analyze(WorkedText) == Neutral
    ensures forall confident: bool, lowInfra: bool ::
      CalculatePriority(Name(Categorize(WorkedText)), Analyze(WorkedText), confident, lowInfra) >= 8
  {
    WorkedExampleIsWater();
    WorkedExampleIsNeutral();
  }

  lemma WorkedExampleIsWater()
    ensures Categorize("Water pump not working near primary school") == Water
  {
    var t := Lower("Water pump not working near primary school");
    FirstSentenceKeywords();
    assert Includes(t, "water");
    assert Keywords(Water)[0] == "water";
    assert Matches(t, Water);
  }

  lemma WorkedExampleIsNeutral()
    ensures Analyze("Water pump not working near primary school") == Neutral
  {
    PumpSentenceLowered();
    SentenceClear();
    OtherWordsAbsent(PumpSentence);
    NotWorkingInSentence();
    NotWorkingAloneIsNeutral("Water pump not working near primary school");
  }

  lemma PumpSentenceLowered()
    ensures Lower("Water pump not working near primary school") == PumpSentence
  {
    PumpTextLower();
    PumpSentencePieces();
  }

  lemma PumpSentencePieces()
    ensures PumpSentence == "water" + PumpMiddle() + "school"
  {
  }

  lemma NotWorkingInSentence()
    ensures Occurs("not working", PumpSentence)
  {
    assert PumpSentence[11..][..11] == "not working";
    assert OccursAt("not working", PumpSentence, 11);
  }

  // ---------------------------------------------------------------- absent list words

  /** For every list word but "working" and "not working", `t` lacks one of the word's
      characters or one of its neighbouring character pairs. */
  predicate ClearOfOtherWords(t: string) {
    && 'v' !in t && 'x' !in t
    && PairFree(t, 'g', 'o') && PairFree(t, 'p', 'p') && PairFree(t, 't', 'h')
    && PairFree(t, 'c', 'o') && PairFree(t, 'k', 'e') && PairFree(t, 'o', 'b')
    && PairFree(t, 's', 's') && PairFree(t, 'b', 'a') && PairFree(t, 'p', 'o')
    && PairFree(t, 'l', 'a')
  }

  /** Such a text contains no list word other than "working" and "not working". */
  lemma OtherWordsAbsent(t: string)
    requires ClearOfOtherWords(t)
    ensures forall i :: 0 <= i < |PositiveWords| && i != 2 ==> !Occurs(PositiveWords[i], t)
    ensures forall i :: 0 <= i < |NegativeWords| && i != 1 ==> !Occurs(NegativeWords[i], t)
  {
    AbsentPair("good", t, 0);
    AbsentChar("improved", t, 'v');
    AbsentPair("happy", t, 2);
    AbsentPair("thanks", t, 0);
    AbsentPair("completed", t, 0);
    AbsentChar("fixed", t, 'x');
    AbsentPair("broken", t, 3);
    AbsentPair("problem", t, 2);
    AbsentPair("issue", t, 1);
    AbsentPair("bad", t, 0);
    AbsentPair("poor", t, 0);
    AbsentPair("lack", t, 0);
    AbsentPair("missing", t, 2);
  }

  /** Each text is checked word by word; a word boundary never forms one of the pairs. */
  lemma SentenceClear()
    ensures ClearOfOtherWords(PumpSentence)
  {
    SentenceWords();
    SentenceWordsClearA();
    SentenceWordsClearB();
    SentenceWordsClearC();
    ClearConcat("water", " pump");
    ClearConcat("water" + " pump", " not");
    ClearConcat("water" + " pump" + " not", " working");
    ClearConcat("water" + " pump" + " not" + " working", " near");
    ClearConcat("water" + " pump" + " not" + " working" + " near", " primary");
    ClearConcat("water" + " pump" + " not" + " working" + " near" + " primary", " school");
  }

  lemma TailClear()
    ensures ClearOfOtherWords(PumpTail)
  {
    TailWords();
    TailWordsClearA();
    TailWordsClearB();
    TailWordsClearC();
    ClearConcat(".", " children");
    ClearConcat("." + " children", " are");
    ClearConcat("." + " children" + " are", " bringing");
    ClearConcat("." + " children" + " are" + " bringing", " water");
    ClearConcat("." + " children" + " are" + " bringing" + " water", " from");
    ClearConcat("." + " children" + " are" + " bringing" + " water" + " from", " far");
    ClearConcat("." + " children" + " are" + " bringing" + " water" + " from" + " far", " away");
    ClearConcat("." + " children" + " are" + " bringing" + " water" + " from" + " far" + " away", ".");
  }

  lemma SentenceWords()
    ensures PumpSentence == "water" + " pump" + " not" + " working" + " near" + " primary" + " school"
  {
  }

  lemma TailWords()
    ensures PumpTail == "." + " children" + " are" + " bringing" + " water" + " from" + " far" + " away" + "."
  {
  }

  lemma SentenceWordsClearA()
    ensures ClearOfOtherWords("water") && ClearOfOtherWords(" pump") && ClearOfOtherWords(" not")
  {
  }

  lemma SentenceWordsClearB()
    ensures ClearOfOtherWords(" working") && ClearOfOtherWords(" near")
  {
  }

  lemma SentenceWordsClearC()
    ensures ClearOfOtherWords(" primary") && ClearOfOtherWords(" school")
  {
  }

  lemma TailWordsClearA()
    ensures ClearOfOtherWords(".") && ClearOfOtherWords(" children") && ClearOfOtherWords(" are")
  {
  }

  lemma TailWordsClearB()
    ensures ClearOfOtherWords(" bringing") && ClearOfOtherWords(" water") && ClearOfOtherWords(" from")
  {
  }

  lemma TailWordsClearC()
    ensures ClearOfOtherWords(" far") && ClearOfOtherWords(" away")
  {
  }

  /** The pairs above all end in a letter, so a seam before a blank or a '.' cannot form
      one. */
  lemma ClearConcat(a: string, b: string)
    requires ClearOfOtherWords(a) && ClearOfOtherWords(b)
    requires |b| > 0 && (b[0] == ' ' || b[0] == '.')
    ensures ClearOfOtherWords(a + b)
  {
    PairFreeConcat(a, b, 'g', 'o');
    PairFreeConcat(a, b, 'p', 'p');
    PairFreeConcat(a, b, 't', 'h');
    PairFreeConcat(a, b, 'c', 'o');
    PairFreeConcat(a, b, 'k', 'e');
    PairFreeConcat(a, b, 'o', 'b');
    PairFreeConcat(a, b, 's', 's');
    PairFreeConcat(a, b, 'b', 'a');
    PairFreeConcat(a, b, 'p', 'o');
    PairFreeConcat(a, b, 'l', 'a');
  }

  // ---------------------------------------------------------------- the first seed

  /** The first seed stores NEGATIVE, but the analyser scores its text NEUTRAL: "working"
      and "not working" give one hit on each side, and no other list word occurs. */
  lemma SeedSentimentNotRecomputed()
    ensures SeedIssues[0].sentiment == Negative
    ensures Analyze(SeedIssues[0].text) == Neutral
  {
    SeedLowered();
    SentenceClear();
    TailClear();
    ClearConcat(PumpSentence, PumpTail);
    OtherWordsAbsent(PumpSentence + PumpTail);
    NotWorkingInSentence();
    var i: nat :| OccursAt("not working", PumpSentence, i);
    OccursAtExtends("not working", PumpSentence, PumpTail, i);
    NotWorkingAloneIsNeutral(SeedIssues[0].text);
  }

  lemma SeedLowered()
    ensures Lower(SeedIssues[0].text) == PumpSentence + PumpTail
  {
    SeedTextSplit();
    LowerConcat("Water pump not working near primary school", SeedTail());
    PumpSentenceLowered();
    PumpTailLowered();
  }

  lemma PumpTailLowered()
    ensures Lower(SeedTail()) == PumpTail
  {
    SeedTailPieces();
    LowerConcat(". Children" + " are bringing", " water from far away.");
    LowerConcat(". Children", " are bringing");
    assert Lower(". Children") == ". children";
    LowerOfLower(" are bringing");
    LowerOfLower(" water from far away.");
    PumpTailPieces();
  }

  lemma PumpTailPieces()
    ensures PumpTail == ". children" + " are bringing" + " water from far away."
  {
    assert ". children are bringing" == ". children" + " are bringing";
  }

  /** Both seeds store urgencies the calculator cannot give for their stored category and
      sentiment: it gives 10 for each, whatever the stubs say, where 9 and 8 are stored. */
  lemma SeedUrgenciesNotRecomputed()
    ensures SeedIssues[0].urgency == 9 && SeedIssues[1].urgency == 8
    ensures forall confident: bool, lowInfra: bool ::
      CalculatePriority(SeedIssues[0].category, SeedIssues[0].sentiment, confident, lowInfra) == 10
    ensures forall confident: bool, lowInfra: bool ::
      CalculatePriority(SeedIssues[1].category, SeedIssues[1].sentiment, confident, lowInfra) == 10
  {
  }

  /** The first seed stores four key phrases, but its text has two separators, so it
      splits into three fragments and at most three phrases can be extracted. */
  lemma FirstSeedPhrasesNotRecomputed()
    ensures |SeedIssues[0].keyPhrases| == 4
    ensures |ExtractKeyPhrases(SeedIssues[0].text)| <= 3
  {
    var first := "Water pump not working near primary school";
    SeedTextSplit();
    LowerKeepsSeparators(SeedIssues[0].text);
    SeparatorsConcat(first, SeedTail());
    FirstSentenceBreakFree();
    BreakFreeSeparators(first);
    SeedTailSeparators();
  }

  lemma SeedTailSeparators()
    ensures |Separators(SeedTail())| == 2
  {
    SeedTailPieces();
    SeparatorsConcat(". Children" + " are bringing", " water from far away.");
    SeparatorsConcat(". Children", " are bringing");
    TailEnds();
    SeparatorsConcat(".", " Children");
    ChildrenBreakFree();
    BreakFreeSeparators(" Children");
    AreBringingBreakFree();
    BreakFreeSeparators(" are bringing");
    SeparatorsConcat(" water from far away", ".");
    FromFarAwayBreakFree();
    BreakFreeSeparators(" water from far away");
  }

  lemma TailEnds()
    ensures ". Children" == "." + " Children"
    ensures " water from far away." == " water from far away" + "."
  {
  }

  // The pieces between the separators of the two seed texts hold no separator.

  lemma FirstSentenceBreakFree()
    ensures BreakFree("Water pump not working near primary school")
  {
  }

  lemma ChildrenBreakFree()
    ensures BreakFree(" Children")
  {
  }

  lemma AreBringingBreakFree()
    ensures BreakFree(" are bringing")
  {
  }

  lemma FromFarAwayBreakFree()
    ensures BreakFree(" water from far away")
  {
  }

  lemma RoadNearBreakFree()
    ensures BreakFree("Road near hospital has")
  {
  }

  lemma LargePotholesBreakFree()
    ensures BreakFree(" large potholes causing")
  {
  }

  lemma TrafficIssuesBreakFree()
    ensures BreakFree(" traffic issues for ambulances")
  {
  }

  // ---------------------------------------------------------------- the second seed

  /** The second seed stores four key phrases, but its text has a single separator, at its
      end, so at most two phrases can be extracted. */
  lemma SecondSeedPhrasesNotRecomputed()
    ensures |SeedIssues[1].keyPhrases| == 4
    ensures |ExtractKeyPhrases(SeedIssues[1].text)| <= 2
  {
    RoadTextPieces();
    LowerKeepsSeparators(SeedIssues[1].text);
    var a, b, c := "Road near hospital has", " large potholes causing", " traffic issues for ambulances";
    SeparatorsConcat(a + b + c, ".");
    SeparatorsConcat(a + b, c);
    SeparatorsConcat(a, b);
    RoadNearBreakFree();
    BreakFreeSeparators(a);
    LargePotholesBreakFree();
    BreakFreeSeparators(b);
    TrafficIssuesBreakFree();
    BreakFreeSeparators(c);
  }

  lemma RoadTextPieces()
    ensures SeedIssues[1].text
         == "Road near hospital has" + " large potholes causing" + " traffic issues for ambulances" + "."
  {
    SecondSeedText();
    RoadUpToCausing();
    RoadUpToAmbulances();
    RoadToEnd();
  }

  lemma SecondSeedText()
    ensures SeedIssues[1].text == "Road near hospital has large potholes causing traffic issues for ambulances."
  {
  }

  lemma RoadUpToCausing()
    ensures "Road near hospital has large potholes causing" == "Road near hospital has" + " large potholes causing"
  {
  }

  lemma RoadUpToAmbulances()
    ensures "Road near hospital has large potholes causing traffic issues for ambulances"
         == "Road near hospital has large potholes causing" + " traffic issues for ambulances"
  {
  }

  lemma RoadToEnd()
    ensures "Road near hospital has large potholes causing traffic issues for ambulances."
         == "Road near hospital has large potholes causing traffic issues for ambulances" + "."
  {
  }
}
