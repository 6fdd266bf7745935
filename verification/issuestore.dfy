/** The issue store: the ordered, append-only list of reported issues, the two seed issues
    used when nothing is stored, the analysis of a submitted text, and the offline fallback
    used when the analysis fails. */
module IssueStore {
  import opened Text
  import opened Classifier
  import opened SentimentScorer
  import opened Priority
  import opened KeyPhrases

  /** One reported issue. The location, the timestamp, the photo URL and the confidence
      figures are random or clock values and are not part of this record. */
  datatype Issue = Issue(
    id: int,
    text: string,
    category: string,
    sentiment: Sentiment,
    urgency: int,
    keyPhrases: seq<string>,
    offline: bool)

  /** What the text analysis returns, with the random confidence reduced to whether it
      exceeds 0.8; the extracted location is not modelled. */
  datatype TextAnalysis = TextAnalysis(
    category: Category,
    sentiment: Sentiment,
    keyPhrases: seq<string>,
    confidenceHigh: bool)

  /** The store invariant: every urgency lies in [1, 10]. */
  predicate ValidUrgencies(issues: seq<Issue>) {
    forall i :: 0 <= i < |issues| ==> 1 <= issues[i].urgency <= 10
  }

  /** The demo records installed when the store is empty. */
  const SeedIssues: seq<Issue> := [
    Issue(1, "Water pump not working near primary school. Children are bringing water from far away.",
      "water", Negative, 9, ["water pump", "not working", "primary school", "children"], false),
    Issue(2, "Road near hospital has large potholes causing traffic issues for ambulances.",
      "roads", Negative, 8, ["road", "potholes", "hospital", "ambulances"], false)
  ]

  /** `loadSampleData`: an empty store receives the seed issues; a non-empty one is kept. */
  function LoadSampleData(issues: seq<Issue>): (r: seq<Issue>)
    ensures |r| > 0
    ensures |issues| > 0 ==> r == issues
    ensures |issues| == 0 ==> r == SeedIssues
    ensures ValidUrgencies(issues) ==> ValidUrgencies(r)
  {
    if |issues| == 0 then SeedIssues else issues
  }

  /** `analyzeTextWithAI` without its delay. */
  function AnalyzeText(text: string, confidenceHigh: bool): TextAnalysis {
    TextAnalysis(Categorize(text), Analyze(text), ExtractKeyPhrases(text), confidenceHigh)
  }

  /** The record built from a successful analysis. */
  function AnalyzedIssue(id: int, text: string, analysis: TextAnalysis, imageLowInfra: bool): (issue: Issue)
    ensures 1 <= issue.urgency <= 10
    ensures !issue.offline
  {
    var category := Name(analysis.category);
    Issue(id, text, category, analysis.sentiment,
      CalculatePriority(category, analysis.sentiment, analysis.confidenceHigh, imageLowInfra),
      analysis.keyPhrases, false)
  }

  /** The placeholder stored when analysis fails; it carries no analysis, hence no key
      phrases. */
  function OfflineIssue(id: int, text: string): Issue {
    Issue(id, text, "pending", Neutral, 5, [], true)
  }

  /** `saveIssueOffline`: appends exactly one placeholder record (category "pending",
      NEUTRAL, urgency 5, flagged offline) and leaves every earlier issue as it was. */
  function SaveIssueOffline(issues: seq<Issue>, id: int, text: string): (r: seq<Issue>)
    ensures |r| == |issues| + 1
    ensures r[..|issues|] == issues
    ensures r[|issues|].id == id && r[|issues|].text == text
    ensures r[|issues|].category == "pending" && r[|issues|].sentiment == Neutral
    ensures r[|issues|].urgency == 5 && r[|issues|].offline
    ensures ValidUrgencies(issues) ==> ValidUrgencies(r)
  {
    issues + [OfflineIssue(id, text)]
  }

  /** Appending one record keeps the store invariant when the record is valid. */
  function Append(issues: seq<Issue>, issue: Issue): (r: seq<Issue>)
    ensures |r| == |issues| + 1 && r[..|issues|] == issues && r[|issues|] == issue
    ensures ValidUrgencies(issues) && 1 <= issue.urgency <= 10 ==> ValidUrgencies(r)
  {
    issues + [issue]
  }

  /** `analyzeAndSubmitIssue` with its inputs made explicit: the text is trimmed and a blank
      one is refused; otherwise the text is analysed and the resulting issue appended, or,
      when the analysis service fails (`analysisFails`), the offline placeholder is appended
      instead. Either way the store only grows at its end and keeps every urgency in [1, 10]. */
  function Submit(issues: seq<Issue>, rawText: string, id: int,
                  analysisFails: bool, confidenceHigh: bool, imageLowInfra: bool): (r: seq<Issue>)
    ensures Trim(rawText) == [] ==> r == issues
    ensures Trim(rawText) != [] ==>
      |r| == |issues| + 1 && r[..|issues|] == issues && r[|issues|].id == id && r[|issues|].text == Trim(rawText)
    ensures Trim(rawText) != [] && analysisFails ==>
      && r[|issues|].category == "pending" && r[|issues|].sentiment == Neutral
      && r[|issues|].urgency == 5 && r[|issues|].keyPhrases == [] && r[|issues|].offline
    ensures Trim(rawText) != [] && !analysisFails ==>
      && r[|issues|].category == Name(Categorize(Trim(rawText)))
      && r[|issues|].sentiment == Analyze(Trim(rawText))
      && r[|issues|].keyPhrases == ExtractKeyPhrases(Trim(rawText))
      && r[|issues|].urgency == CalculatePriority(r[|issues|].category, r[|issues|].sentiment, confidenceHigh, imageLowInfra)
      && !r[|issues|].offline
    ensures ValidUrgencies(issues) ==> ValidUrgencies(r)
  {
    var text := Trim(rawText);
    if text == [] then issues
    else if analysisFails then SaveIssueOffline(issues, id, text)
    else Append(issues, AnalyzedIssue(id, text, AnalyzeText(text, confidenceHigh), imageLowInfra))
  }

  /** The seed issues satisfy the store invariant, so a store that starts from them and
      grows only by `Submit` keeps every urgency in [1, 10]. */
  lemma {:induction false} SubmissionsKeepUrgenciesValid(
    issues: seq<Issue>, texts: seq<string>, fails: seq<bool>, confident: seq<bool>, lowInfra: seq<bool>)
    requires ValidUrgencies(issues)
    requires |fails| == |texts| && |confident| == |texts| && |lowInfra| == |texts|
    ensures ValidUrgencies(SubmitAll(issues, texts, fails, confident, lowInfra))
    decreases |texts|
  {
    if |texts| > 0 {
      var next := Submit(issues, texts[0], |issues|, fails[0], confident[0], lowInfra[0]);
      SubmissionsKeepUrgenciesValid(next, texts[1..], fails[1..], confident[1..], lowInfra[1..]);
    }
  }

  /** A run of submissions, each given the current store size as its id. */
  function SubmitAll(issues: seq<Issue>, texts: seq<string>, fails: seq<bool>, confident: seq<bool>, lowInfra: seq<bool>): seq<Issue>
    requires |fails| == |texts| && |confident| == |texts| && |lowInfra| == |texts|
    decreases |texts|
  {
    if |texts| == 0 then issues
    else SubmitAll(Submit(issues, texts[0], |issues|, fails[0], confident[0], lowInfra[0]),
      texts[1..], fails[1..], confident[1..], lowInfra[1..])
  }

  /** Submissions never rewrite history: the store before a run is a prefix of the store
      after it. */
  lemma {:induction false} SubmitAllAppendsOnly(
    issues: seq<Issue>, texts: seq<string>, fails: seq<bool>, confident: seq<bool>, lowInfra: seq<bool>)
    requires |fails| == |texts| && |confident| == |texts| && |lowInfra| == |texts|
    ensures issues <= SubmitAll(issues, texts, fails, confident, lowInfra)
    decreases |texts|
  {
    if |texts| > 0 {
      var next := Submit(issues, texts[0], |issues|, fails[0], confident[0], lowInfra[0]);
      assert issues <= next;
      SubmitAllAppendsOnly(next, texts[1..], fails[1..], confident[1..], lowInfra[1..]);
    }
  }

  /** The seeds satisfy the store invariant. */
  lemma SeedsValid()
    ensures ValidUrgencies(SeedIssues)
  {
  }
}
