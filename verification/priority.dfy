/** The priority calculator and the two ways a priority is bucketed for display: the
    recommended action and the urgency colour band. */
module Priority {
  import opened Ints
  import opened SentimentScorer

  /** Category criticality, keyed by the stored category name. */
  const CriticalCategories: map<string, int> := map[
    "healthcare" := 3, "water" := 3,
    "electricity" := 2, "roads" := 2, "sanitation" := 2,
    "education" := 1,
    "other" := 0]

  /** Weight of a category name: its table entry, and 0 for a name the table lacks
      (such as the offline placeholder "pending"). */
  function Weight(category: string): (w: int)
    ensures 0 <= w <= 3
    ensures category !in CriticalCategories ==> w == 0
    ensures category in CriticalCategories ==> w == CriticalCategories[category]
  {
    if category in CriticalCategories then CriticalCategories[category] else 0
  }

  function SentimentImpact(s: Sentiment): int {
    match s
    case Negative => 3
    case Positive => -2
    case Neutral => 0
  }

  /** The weighted sum before clamping: base 5, the sentiment impact, the category weight,
      +2 when an attached image scored low on infrastructure, +1 for a confident text
      analysis. */
  function RawScore(category: string, sentiment: Sentiment, confidenceHigh: bool, imageLowInfra: bool): (raw: int)
    ensures 3 <= raw <= 14
  {
    5 + SentimentImpact(sentiment) + Weight(category)
      + (if imageLowInfra then 2 else 0)
      + (if confidenceHigh then 1 else 0)
  }

  /** `calculatePriority`: the raw score clamped to [1, 10]. Since the raw score is at least
      3 the lower clamp never fires, and every raw score from 10 to 14 becomes 10. */
  function CalculatePriority(category: string, sentiment: Sentiment, confidenceHigh: bool, imageLowInfra: bool): (r: int)
    ensures 1 <= r <= 10
    ensures 3 <= r
    ensures RawScore(category, sentiment, confidenceHigh, imageLowInfra) <= 10 ==>
      r == RawScore(category, sentiment, confidenceHigh, imageLowInfra)
    ensures r == 10 <==> RawScore(category, sentiment, confidenceHigh, imageLowInfra) >= 10
  {
    Min(Max(RawScore(category, sentiment, confidenceHigh, imageLowInfra), 1), 10)
  }

  /** With category and stubs fixed, NEGATIVE ranks at least NEUTRAL, which ranks at least
      POSITIVE. */
  lemma PriorityMonotoneInSentiment(category: string, confidenceHigh: bool, imageLowInfra: bool)
    ensures CalculatePriority(category, Negative, confidenceHigh, imageLowInfra)
      >= CalculatePriority(category, Neutral, confidenceHigh, imageLowInfra)
      >= CalculatePriority(category, Positive, confidenceHigh, imageLowInfra)
  {
  }

  /** Either stub reporting true never lowers the priority. */
  lemma PriorityMonotoneInStubs(category: string, sentiment: Sentiment, c0: bool, c1: bool, i0: bool, i1: bool)
    requires c0 ==> c1
    requires i0 ==> i1
    ensures CalculatePriority(category, sentiment, c0, i0) <= CalculatePriority(category, sentiment, c1, i1)
  {
  }

  /** A category name outside the table, such as "pending", weighs exactly like "other". */
  lemma UnknownCategoryWeighsLikeOther(category: string, sentiment: Sentiment, confidenceHigh: bool, imageLowInfra: bool)
    requires category !in CriticalCategories
    ensures CalculatePriority(category, sentiment, confidenceHigh, imageLowInfra)
      == CalculatePriority("other", sentiment, confidenceHigh, imageLowInfra)
  {
  }

  // ---------------------------------------------------------------- bucketing

  datatype Band = Low | Medium | High

  /** The urgency colour of `displayAIResults`: green up to 3, orange up to 6, red above. */
  function UrgencyBand(urgency: int): (b: Band)
    ensures b == Low <==> urgency <= 3
    ensures b == Medium <==> 4 <= urgency <= 6
    ensures b == High <==> urgency >= 7
  {
    if urgency <= 3 then Low
    else if urgency <= 6 then Medium
    else High
  }

  datatype Action = ImmediateAction | WithinTwoDays | ThisWeek | MonthlyPlanning

  /** How pressing an action is, 0 being least. */
  function Pressure(a: Action): nat {
    match a
    case MonthlyPlanning => 0
    case ThisWeek => 1
    case WithinTwoDays => 2
    case ImmediateAction => 3
  }

  /** `getRecommendation`: thresholds at 9, 7 and 5. */
  function Recommendation(score: int): (a: Action)
    ensures a == ImmediateAction <==> score >= 9
    ensures a == WithinTwoDays <==> 7 <= score <= 8
    ensures a == ThisWeek <==> 5 <= score <= 6
    ensures a == MonthlyPlanning <==> score <= 4
  {
    if score >= 9 then ImmediateAction
    else if score >= 7 then WithinTwoDays
    else if score >= 5 then ThisWeek
    else MonthlyPlanning
  }

  /** A higher score never gets a less pressing recommendation. */
  lemma RecommendationMonotone(s: int, t: int)
    requires s <= t
    ensures Pressure(Recommendation(s)) <= Pressure(Recommendation(t))
  {
  }

  /** The colour bands and the recommendations agree: red is exactly the two most pressing
      actions, green always means monthly planning. */
  lemma BandAgreesWithRecommendation(urgency: int)
    ensures UrgencyBand(urgency) == High <==> Pressure(Recommendation(urgency)) >= 2
    ensures UrgencyBand(urgency) == Low ==> Recommendation(urgency) == MonthlyPlanning
    ensures UrgencyBand(urgency) == Medium ==> Pressure(Recommendation(urgency)) <= 1
  {
  }

  /** A computed priority is green only at its minimum: a POSITIVE text of weight 0 with
      neither stub set. */
  lemma LowBandOnlyAtMinimum(category: string, sentiment: Sentiment, confidenceHigh: bool, imageLowInfra: bool)
    ensures UrgencyBand(CalculatePriority(category, sentiment, confidenceHigh, imageLowInfra)) == Low
      <==> sentiment == Positive && Weight(category) == 0 && !confidenceHigh && !imageLowInfra
  {
  }
}
