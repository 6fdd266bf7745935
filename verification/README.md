# Adarsh Gram AI — issue scoring core in Dafny

This project models the scoring and classification logic of the `AdarshGramAI` class in
`js/app.js`. Villagers report civic issues as free text. The application then:

- files each report under one of six categories, or "other", by keyword substring search
  on the lowercased text, where the first category in declaration order wins;
- scores its sentiment as POSITIVE, NEGATIVE or NEUTRAL by comparing how many words of a
  positive list and of a negative list occur in the text;
- computes an urgency from 1 to 10 as a clamped weighted sum;
- extracts up to four key phrases;
- appends the resulting issue record to an append-only store. When analysis fails, it
  appends an offline "pending" placeholder instead.

The dashboard derives three things from the store: a completion rate, a priority message
and a list of the five newest issues. The model also covers the two display bandings of an
urgency: the recommended action and the colour.

Everything is pure functions over immutable datatypes. The modules are:

- `Ints`: `Min` and `Max`, shared by the modules below.
- `Text`: ASCII lowercasing, substring search, whitespace trimming, punctuation splitting.
- `Classifier`: the category table and `Categorize`.
- `SentimentScorer`: the word lists and `Analyze`.
- `Priority`: the category weights, `CalculatePriority`, `Recommendation` and `UrgencyBand`.
- `KeyPhrases`: `ExtractKeyPhrases`.
- `IssueStore`: the `Issue` record, the seed issues, `SaveIssueOffline` and `Submit`, with
  `AnalyzeText` as its analysis step.
- `Dashboard`: `CompletionRate`, `PriorityMessage` and `RecentIssues`.
- `Scenarios`: worked examples on particular texts.
- `SeedRecords`: the seed issues read against the analysers, and the worked example.

The random stubs in `calculatePriority` are modelled as two boolean inputs:

- `confidenceHigh` stands for "text confidence > 0.8".
- `imageLowInfra` stands for "an image was analysed and its infrastructure score is
  < 0.4".

The boolean `analysisFails` selects the documented fallback of `analyzeAndSubmitIssue`:
the offline placeholder is stored instead of an analysed issue. In the source itself the
analysis steps before `this.issues.push` (js/app.js:85-114) only resolve and never throw,
so this branch stands for an analysis service that can fail, not for a path the present
code takes. Issue ids are a parameter, because the source takes them from the clock.

The two seed issues (js/app.js:24-59) are hand-written demonstration records, and the
analysers, run on the seed texts, do not reproduce them. The model follows the code; the
module `SeedRecords` states each difference.

- Sentiment: the first seed stores NEGATIVE, but the analyser gives NEUTRAL for its text.
  "working" is a positive word and occurs inside the negative phrase "not working", which
  makes one hit on each side, and no other list word occurs.
- Urgency: the seeds store 9 and 8, but `calculatePriority` gives 10 for both stored
  category and sentiment pairs (water or roads, NEGATIVE), whatever the two stubs say.
- Key phrases: each seed stores four, such as "water pump" and "road". `extractKeyPhrases`
  splits only at sentence punctuation. The first text has two separators, so it yields at
  most three phrases. The second has one, so it yields at most two.
- Category: here the seeds and the classifier agree; the first seed is filed as water.

The worked example "Water pump not working near primary school", the first sentence of
the first seed, behaves the same way. It is filed as water and scored NEUTRAL, not
NEGATIVE, and its priority is at least 8 whatever the stubs say.

## Model

| member | source | states |
|---|---|---|
| Text.Lower | js/app.js:180 | lowercasing keeps the length and maps each character through the ASCII case mapping |
| Text.Includes | js/app.js:182 | the scanning substring search returns true exactly when some position of the text starts a copy of the word |
| Text.LowerPreservesOccurrence | js/app.js:180-182 | a word occurring in the text in any case mix occurs, lowercased, in the lowercased text |
| Text.Trim | js/app.js:221 | trimming returns a slice of the input that neither starts nor ends with whitespace, and everything cut off is whitespace |
| Text.TrimEmptyIffBlank | js/app.js:66-72 | a text trims to empty exactly when it consists of whitespace only, which is when a submission is refused |
| Text.Split | js/app.js:220 | splitting at `.`, `,`, `!`, `?` yields one more piece than there are separators, and no piece contains a separator |
| Text.SplitRoundTrip | js/app.js:220 | interleaving the pieces with the separators gives back the original text |
| Classifier.Categorize | js/app.js:170-187 | the result is "other" exactly when no category's keyword occurs in the lowercased text; otherwise the text has a keyword of the result and none of any earlier-declared category |
| Classifier.CategorizeIgnoresCase | js/app.js:180 | a text and its lowercase form get the same category |
| Classifier.CategorizeSoleCategory | js/app.js:181-184 | a text that matches the keywords of exactly one category gets that category |
| Classifier.CategorizeFindsAnyCase | js/app.js:180-184 | a keyword written in any case forces a category no later in declaration order than that keyword's own |
| SentimentScorer.CountPresent | js/app.js:195-196 | the count is at most the list length; it is 0 exactly when no list word occurs, and full exactly when all occur |
| SentimentScorer.CountIsPresentWords | js/app.js:195-196 | for a list without repeats, the count is the number of distinct list words present, not the number of occurrences |
| SentimentScorer.CountExactlyOne | js/app.js:195-196 | when exactly one list word occurs, the count is one |
| SentimentScorer.WordListsDistinct | js/app.js:191-192 | neither word list repeats a word |
| SentimentScorer.Analyze | js/app.js:190-201 | NEGATIVE iff the negative count exceeds the positive one, POSITIVE iff the reverse, NEUTRAL iff they are equal |
| SentimentScorer.AnalyzeNoWords | js/app.js:198-200 | a text with no list word at all is NEUTRAL |
| SentimentScorer.NotWorkingOverlap | js/app.js:191-192 | a text containing "not working" also contains the positive word "working", so both counts are at least one |
| SentimentScorer.NotWorkingAloneIsNeutral | js/app.js:191-200 | a text whose only list words are "working" and "not working" is NEUTRAL, not NEGATIVE |
| Priority.Weight | js/app.js:233-242 | the weight is the table entry for a listed name and 0 for any other name, always within [0, 3] |
| Priority.RawScore | js/app.js:226-250 | the unclamped sum lies in [3, 14] |
| Priority.CalculatePriority | js/app.js:225-253 | the priority lies in [1, 10] and in fact is at least 3; it equals the raw sum when that is at most 10, and is 10 exactly when the raw sum reaches 10 |
| Priority.PriorityMonotoneInSentiment | js/app.js:229-230 | with category and stubs fixed, NEGATIVE >= NEUTRAL >= POSITIVE |
| Priority.PriorityMonotoneInStubs | js/app.js:245-250 | turning either stub on never lowers the priority |
| Priority.UnknownCategoryWeighsLikeOther | js/app.js:242 | a category outside the table, such as "pending", scores exactly like "other" |
| Priority.LowBandOnlyAtMinimum | js/app.js:226-252 | a computed priority falls in the green band only for a POSITIVE text of weight 0 with neither stub set |
| Priority.UrgencyBand | js/app.js:262-264 | green iff urgency <= 3, orange iff 4..6, red iff >= 7; every urgency gets exactly one band |
| Priority.Recommendation | js/app.js:281-286 | immediate action iff >= 9, within 48 hours iff 7..8, this week iff 5..6, monthly planning iff <= 4 |
| Priority.RecommendationMonotone | js/app.js:281-286 | a higher score never gets a less pressing recommendation |
| Priority.BandAgreesWithRecommendation | js/app.js:262-264 | red is exactly the two most pressing actions; green always means monthly planning; orange is at most "this week" |
| KeyPhrases.Utf16Length | js/app.js:221 | the JavaScript length of a string lies between its character count and twice that |
| KeyPhrases.Filter | js/app.js:221 | the filter keeps exactly the qualifying fragments, as a subsequence of the input, one element per qualifying position, so repeated fragments are kept as often as they occur |
| KeyPhrases.SubsequencePrefix | js/app.js:221 | taking a prefix of an in-order selection keeps it in order |
| KeyPhrases.ExtractKeyPhrases | js/app.js:219-222 | at most four phrases, each longer than 3 once trimmed, in left-to-right order; fewer than four only when no qualifying fragment was dropped; the count is the smaller of four and the number of qualifying positions |
| KeyPhrases.ExtractKeepsLeadingPhrases | js/app.js:221 | the phrases are the first min(4, n) of the n qualifying fragments |
| IssueStore.LoadSampleData | js/app.js:22-62 | an empty store receives the seed issues and a non-empty one is kept; the urgency invariant carries over |
| IssueStore.SeedsValid | js/app.js:24-59 | the seed issues have urgencies in [1, 10] |
| IssueStore.AnalyzedIssue | js/app.js:96-112 | an issue built from an analysis has an urgency in [1, 10] and is not offline |
| IssueStore.Append | js/app.js:114 | appending adds the record at the end and leaves earlier records unchanged |
| IssueStore.SaveIssueOffline | js/app.js:419-430 | exactly one record is appended: "pending", NEUTRAL, urgency 5, offline, with the given text and id; earlier issues are unchanged |
| IssueStore.Submit | js/app.js:65-153 | a blank text leaves the store unchanged; otherwise exactly one record is appended, either the offline placeholder ("pending", neutral, urgency 5, no key phrases, marked offline) or the analysed issue, whose category, sentiment and key phrases are those the analysis step (`AnalyzeText`, modelling `analyzeTextWithAI`) computes for the trimmed text and whose urgency is the priority of that category and sentiment; the urgency invariant is preserved |
| IssueStore.SubmissionsKeepUrgenciesValid | js/app.js:97-115 | any run of submissions keeps every stored urgency in [1, 10] |
| IssueStore.SubmitAllAppendsOnly | js/app.js:114 | any run of submissions only extends the store, never rewriting earlier records |
| Dashboard.Count | js/app.js:301 | a count is positive exactly when some issue qualifies, and full exactly when all do |
| Dashboard.CountAppend | js/app.js:313-315 | counting an appended store adds one exactly when the new issue qualifies |
| Dashboard.IsLow | js/app.js:301 | the completion rate's "done" test is exactly the green urgency band |
| Dashboard.RoundedPercent | js/app.js:301 | the rounded percentage lies in [0, 100] and within half a point of 100k/n, with halves rounded up |
| Dashboard.RoundedPercentExtremes | js/app.js:301 | none of n is 0 percent and all n of n is 100 percent |
| Dashboard.CompletionRate | js/app.js:300-301 | the rate is 0 for an empty store, otherwise in [0, 100] and within half a point of the low-urgency share |
| Dashboard.CompletionRateExtremes | js/app.js:300-301 | the rate is 0 with no low-urgency issue and 100 when every issue is low-urgency |
| Dashboard.OfflineSaveKeepsCompleted | js/app.js:301 | an offline placeholder does not change the number of completed issues |
| Dashboard.PriorityMessage | js/app.js:305-326 | an empty store gets its own message; otherwise urgent (>= 8) beats water, which beats healthcare, with the all-clear when none is present; each count is the number of such issues |
| Dashboard.OfflineSaveKeepsMessage | js/app.js:313-325 | an offline placeholder does not change a non-empty store's message, and turns an empty store's into the all-clear |
| Dashboard.Reverse | js/app.js:330 | reversal keeps the length and maps position k to position n-1-k |
| Dashboard.RecentIssues | js/app.js:330 | shows min(5, n) issues, the k-th shown being the k-th newest |
| Dashboard.RecentAfterAppend | js/app.js:330 | after an append, the new issue heads the list, followed by the previous list cut to four |
| Dashboard.SubmittedIssueShownFirst | js/app.js:330 | after a submission that is not refused, its issue is the first one shown |
| Scenarios.EmptyText | js/app.js:170-252 | the empty text is "other", NEUTRAL, has no key phrase, and scores 5 without the stubs |
| Scenarios.NotWorkingIsNeutral | js/app.js:191-200 | "not working" alone is NEUTRAL |
| Scenarios.WaterDeclaredBeforeEducation | js/app.js:171-184 | the whole first seed text matches both the water and the education keywords, is filed as water, and that agrees with the category the seed stores |
| Scenarios.BlankSubmissionRefused | js/app.js:66-72 | a submission of blanks leaves the store unchanged |
| SeedRecords.WorkedExampleIsWater | js/app.js:171-184 | "Water pump not working near primary school" is filed as water |
| SeedRecords.WorkedExampleIsNeutral | js/app.js:187-201 | the same text is scored NEUTRAL: one hit on each side, no other list word |
| SeedRecords.WorkedExample | js/app.js:225-253 | with that category and sentiment, its priority is at least 8 for every setting of the stubs |
| SeedRecords.SeedSentimentNotRecomputed | js/app.js:187-201 | the first seed stores NEGATIVE, while the analyser scores its whole text NEUTRAL |
| SeedRecords.SeedUrgenciesNotRecomputed | js/app.js:225-253 | the seeds store urgencies 9 and 8, while the calculator gives 10 for each stored category and sentiment, whatever the stubs |
| SeedRecords.FirstSeedPhrasesNotRecomputed | js/app.js:219-222 | the first seed stores four key phrases, while extraction from its text yields at most three |
| SeedRecords.SecondSeedPhrasesNotRecomputed | js/app.js:219-222 | the second seed stores four key phrases, while extraction from its text yields at most two |

## Left out

- Rendering: the DOM and HTML templating are not modelled. This covers the markup of
  `displayAIResults`, `loadDashboard`, `loadProjects`, `showTab` and the offline indicator.
  So are the 100-character previews and the issue and project counters of `updateStats`.
  None of these carries logic beyond the bandings modelled above.
- The map (`initMap`, `addToMap`) is left out. It consists of calls into the Leaflet
  library, which is not part of this model.
- `localStorage`, `JSON.parse`/`JSON.stringify`, the constructor's load and
  `saveToStorage` are left out as browser I/O. The store is the in-memory sequence.
- Timers, promises and delays in `analyzeAndSubmitIssue`, `analyzeTextWithAI` and
  `analyzeImageWithAI` are left out. Their results are inputs instead.
- `Math.random`, `Date.now()` and `new Date()` are left out. The confidence and
  infrastructure score become the booleans `confidenceHigh` and `imageLowInfra`. Ids are
  a parameter. Locations, timestamps and photo URLs are not part of the issue record.
- `extractLocation` is left out. It relies on JavaScript regular-expression semantics.
  Its result is stored with the analysis (js/app.js:146, 110) and never read: the
  results panel shows no location, and the map uses `generateRandomLocation`.
- `sw.js` is left out entirely. Its install, fetch and activate handlers are thin wrappers
  over the browser Cache API.
- Submit: the one failure the source can actually reach is left out. The `catch` at
  js/app.js:126 can only be entered after `this.issues.push` (js/app.js:114), from
  `saveToStorage` (storage full) or from the display and map calls at js/app.js:118-124.
  On that path the store ends up with both the analysed issue and the offline placeholder.
  `analysisFails` instead models a failure of the analysis itself, which appends the
  placeholder alone.
- Text.Lower: only 'A'..'Z' are case-mapped. JavaScript's `toLowerCase` also maps
  non-ASCII letters, and some of those become ASCII, such as the Kelvin sign becoming "k".
  Lone UTF-16 surrogates cannot be represented either.
- Priority.Weight: the lookup is a plain map. JavaScript would also find inherited object
  properties such as "constructor", but no category produced by the application has such
  a name.
- Dashboard.CompletionRate: `Math.round((k / n) * 100)` is modelled with exact rational
  arithmetic, rounding halves up. Floating-point error in `k / n * 100`, which could move
  a value sitting exactly on .5, is not modelled.
