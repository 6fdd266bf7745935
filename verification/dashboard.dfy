/** The dashboard's computations over the store: the completion rate, the priority
    message and the "recent issues" list. */
module Dashboard {
  import opened Ints
  import Text
  import opened Priority
  import opened IssueStore

  /** Number of issues satisfying `p`. */
  function Count(issues: seq<Issue>, p: Issue -> bool): (n: nat)
    ensures n <= |issues|
    ensures n > 0 <==> exists i :: 0 <= i < |issues| && p(issues[i])
    ensures n == |issues| <==> forall i :: 0 <= i < |issues| ==> p(issues[i])
  {
    if |issues| == 0 then 0
    else
      var rest := Count(issues[1..], p);
      assert forall i :: 1 <= i < |issues| ==> issues[i] == issues[1..][i - 1];
      (if p(issues[0]) then 1 else 0) + rest
  }

  /** Counting distributes over an append at the end. */
  lemma {:induction false} CountAppend(issues: seq<Issue>, issue: Issue, p: Issue -> bool)
    ensures Count(issues + [issue], p) == Count(issues, p) + (if p(issue) then 1 else 0)
  {
    if |issues| > 0 {
      assert (issues + [issue])[1..] == issues[1..] + [issue];
      CountAppend(issues[1..], issue, p);
    }
  }

  /** An issue counted as done by the completion rate: urgency 3 or less, the green band. */
  predicate IsLow(issue: Issue)
    ensures IsLow(issue) <==> UrgencyBand(issue.urgency) == Low
  {
    issue.urgency <= 3
  }

  predicate IsUrgent(issue: Issue) {
    issue.urgency >= 8
  }

  predicate IsWater(issue: Issue) {
    issue.category == "water"
  }

  predicate IsHealthcare(issue: Issue) {
    issue.category == "healthcare"
  }

  /** `Math.round((k / n) * 100)` for 0 <= k <= n, in exact arithmetic: the percentage
      rounded to the nearest integer, halves rounded up, so within half a point of the
      exact value. */
  function RoundedPercent(k: nat, n: nat): (r: int)
    requires 0 < n && k <= n
    ensures 0 <= r <= 100
    ensures n * (2 * r - 1) <= 200 * k < n * (2 * r + 1)
  {
    var a := 200 * k + n;
    var r := a / (2 * n);
    DivBounds(a, 2 * n, r);
    assert n * (2 * r - 1) == r * (2 * n) - n && n * (2 * r + 1) == (r + 1) * (2 * n) - n by {
      ProductShape(n, r);
    }
    assert 0 <= r <= 100 by {
      if r > 100 {
        MulMono(101, r, 2 * n);
        assert false;
      }
    }
    r
  }

  /** Euclidean division brackets its dividend. */
  lemma DivBounds(a: int, b: int, q: int)
    requires a >= 0 && b > 0 && q == a / b
    ensures q >= 0
    ensures q * b <= a < (q + 1) * b
  {
  }

  lemma ProductShape(n: int, r: int)
    ensures n * (2 * r - 1) == r * (2 * n) - n
    ensures n * (2 * r + 1) == (r + 1) * (2 * n) - n
  {
  }

  lemma MulMono(x: int, y: int, z: int)
    requires x <= y && z >= 0
    ensures x * z <= y * z
  {
  }

  /** The completion rate of `updateStats`: 0 for an empty store, otherwise the percentage of
      low-urgency issues, rounded. */
  function CompletionRate(issues: seq<Issue>): (r: int)
    ensures |issues| == 0 ==> r == 0
    ensures 0 <= r <= 100
    ensures |issues| > 0 ==>
      |issues| * (2 * r - 1) <= 200 * Count(issues, IsLow) < |issues| * (2 * r + 1)
  {
    if |issues| == 0 then 0 else RoundedPercent(Count(issues, IsLow), |issues|)
  }

  /** None of n is 0 percent and all n of n is 100 percent. */
  lemma RoundedPercentExtremes(k: nat, n: nat)
    requires 0 < n && k <= n
    ensures k == 0 ==> RoundedPercent(k, n) == 0
    ensures k == n ==> RoundedPercent(k, n) == 100
  {
    var r := RoundedPercent(k, n);
    if k == 0 && r >= 1 {
      MulMono(1, 2 * r - 1, n);
    }
    if k == n && r <= 99 {
      MulMono(2 * r + 1, 199, n);
    }
  }

  /** The rate is 0 with no low-urgency issue and 100 when every issue is low-urgency. */
  lemma CompletionRateExtremes(issues: seq<Issue>)
    ensures Count(issues, IsLow) == 0 ==> CompletionRate(issues) == 0
    ensures |issues| > 0 && (forall i :: 0 <= i < |issues| ==> IsLow(issues[i])) ==> CompletionRate(issues) == 100
  {
    if |issues| > 0 {
      RoundedPercentExtremes(Count(issues, IsLow), |issues|);
    }
  }

  /** An offline placeholder (urgency 5) leaves the number of completed issues unchanged. */
  lemma OfflineSaveKeepsCompleted(issues: seq<Issue>, id: int, text: string)
    ensures Count(SaveIssueOffline(issues, id, text), IsLow) == Count(issues, IsLow)
  {
    assert SaveIssueOffline(issues, id, text) == issues + [OfflineIssue(id, text)];
    CountAppend(issues, OfflineIssue(id, text), IsLow);
  }

  datatype Message =
    | NoIssues
    | UrgentIssues(count: nat)
    | WaterIssues(count: nat)
    | HealthcareIssues(count: nat)
    | AllMonitoring

  /** `showAIPriorityMessage`: an empty store has its own message; otherwise urgent issues
      (urgency 8 or more) take precedence over water issues, which take precedence over
      healthcare issues, and a store with none of the three gets the all-clear. */
  function PriorityMessage(issues: seq<Issue>): (m: Message)
    ensures m == NoIssues <==> |issues| == 0
    ensures m.UrgentIssues? <==> exists i :: 0 <= i < |issues| && IsUrgent(issues[i])
    ensures m.WaterIssues? <==>
      && (forall i :: 0 <= i < |issues| ==> !IsUrgent(issues[i]))
      && (exists i :: 0 <= i < |issues| && IsWater(issues[i]))
    ensures m.HealthcareIssues? <==>
      && (forall i :: 0 <= i < |issues| ==> !IsUrgent(issues[i]) && !IsWater(issues[i]))
      && (exists i :: 0 <= i < |issues| && IsHealthcare(issues[i]))
    ensures m == AllMonitoring <==>
      && |issues| > 0
      && forall i :: 0 <= i < |issues| ==> !IsUrgent(issues[i]) && !IsWater(issues[i]) && !IsHealthcare(issues[i])
    ensures m.UrgentIssues? ==> m.count == Count(issues, IsUrgent) > 0
    ensures m.WaterIssues? ==> m.count == Count(issues, IsWater) > 0
    ensures m.HealthcareIssues? ==> m.count == Count(issues, IsHealthcare) > 0
  {
    if |issues| == 0 then NoIssues
    else
      var urgent := Count(issues, IsUrgent);
      var water := Count(issues, IsWater);
      var healthcare := Count(issues, IsHealthcare);
      if urgent > 0 then UrgentIssues(urgent)
      else if water > 0 then WaterIssues(water)
      else if healthcare > 0 then HealthcareIssues(healthcare)
      else AllMonitoring
  }

  /** An offline placeholder is neither urgent, water nor healthcare: on a non-empty store
      it does not change the message, and on an empty one it yields the all-clear. */
  lemma OfflineSaveKeepsMessage(issues: seq<Issue>, id: int, text: string)
    ensures |issues| > 0 ==> PriorityMessage(SaveIssueOffline(issues, id, text)) == PriorityMessage(issues)
    ensures |issues| == 0 ==> PriorityMessage(SaveIssueOffline(issues, id, text)) == AllMonitoring
  {
    var x := OfflineIssue(id, text);
    assert SaveIssueOffline(issues, id, text) == issues + [x];
    CountAppend(issues, x, IsUrgent);
    CountAppend(issues, x, IsWater);
    CountAppend(issues, x, IsHealthcare);
  }

  /** The elements of `s` in the opposite order. */
  function Reverse<T>(s: seq<T>): (r: seq<T>)
    ensures |r| == |s|
    ensures forall k :: 0 <= k < |s| ==> r[k] == s[|s| - 1 - k]
  {
    if |s| == 0 then [] else Reverse(s[1..]) + [s[0]]
  }

  /** `showRecentIssues`: the last five issues (all of them when there are fewer), newest
      first. */
  function RecentIssues(issues: seq<Issue>): (r: seq<Issue>)
    ensures |r| == Min(5, |issues|)
    ensures forall k :: 0 <= k < |r| ==> r[k] == issues[|issues| - 1 - k]
  {
    var start := if |issues| > 5 then |issues| - 5 else 0;
    Reverse(issues[start..])
  }

  /** A newly appended issue heads the recent list, followed by the previous list cut to
      four entries. */
  lemma RecentAfterAppend(issues: seq<Issue>, issue: Issue)
    ensures RecentIssues(issues + [issue]) == [issue] + RecentIssues(issues)[..Min(4, |issues|)]
  {
    var lhs := RecentIssues(issues + [issue]);
    var rhs := [issue] + RecentIssues(issues)[..Min(4, |issues|)];
    assert |lhs| == |rhs|;
    forall k | 0 <= k < |lhs| ensures lhs[k] == rhs[k] {
      if k > 0 {
        assert rhs[k] == RecentIssues(issues)[k - 1];
      }
    }
  }

  /** After a submission that is not refused, its issue is the first one shown. */
  lemma SubmittedIssueShownFirst(issues: seq<Issue>, rawText: string, id: int,
                                 analysisFails: bool, confidenceHigh: bool, imageLowInfra: bool)
    requires |Text.Trim(rawText)| > 0
    ensures RecentIssues(Submit(issues, rawText, id, analysisFails, confidenceHigh, imageLowInfra))[0].id == id
  {
  }
}
