/** The dashboard: values derived from the stored audit result. */
module Dashboard {
  import opened Types
  import opened GeminiService

  /** `auditResults ? auditResults.score : 0` */
  function DisplayedScore(auditResults: Option<AuditResult>): (score: int)
    ensures auditResults.None? ==> score == 0
    ensures auditResults.Some? ==> score == auditResults.value.score
  {
    if auditResults.Some? then auditResults.value.score else 0
  }

  const GoodLabel := "Good condition"
  const AttentionLabel := "Needs attention"

  /** The health card's caption. */
  function HealthLabel(score: int): (caption: string)
    ensures caption == GoodLabel <==> score > 70
    ensures caption == AttentionLabel <==> score <= 70
  {
    if score > 70 then GoodLabel else AttentionLabel
  }

  /** The health card's colour follows its caption. */
  function HealthColour(score: int): (c: Colour)
    ensures c == Green <==> HealthLabel(score) == GoodLabel
    ensures c == Orange <==> HealthLabel(score) == AttentionLabel
  {
    if score > 70 then Green else Orange
  }

  /** `auditResults?.issues.length || 0` */
  function ActionItems(auditResults: Option<AuditResult>): (n: nat)
    ensures auditResults.None? ==> n == 0
    ensures auditResults.Some? ==> n == |auditResults.value.issues|
  {
    if auditResults.Some? then |auditResults.value.issues| else 0
  }

  /** `slice(0, n)`: the first `min(n, |s|)` elements, in order. */
  function Take<T>(s: seq<T>, n: nat): (r: seq<T>)
    ensures |r| == if n < |s| then n else |s|
    ensures forall i | 0 <= i < |r| :: r[i] == s[i]
    decreases n
  {
    if n == 0 || |s| == 0 then [] else [s[0]] + Take(s[1..], n - 1)
  }

  /** The quick-wins panel: the first four issues in original order. */
  function QuickWins(auditResults: Option<AuditResult>): (wins: seq<SeoIssue>)
    ensures auditResults.None? ==> wins == []
    ensures auditResults.Some? ==>
      |wins| == (if |auditResults.value.issues| < 4 then |auditResults.value.issues| else 4)
    ensures auditResults.Some? ==> forall i | 0 <= i < |wins| :: wins[i] == auditResults.value.issues[i]
  {
    if auditResults.Some? then Take(auditResults.value.issues, 4) else []
  }

  /** "Run an audit to see quick wins." */
  predicate ShowsAuditPlaceholder(auditResults: Option<AuditResult>) {
    auditResults.None?
  }

  /** Quick wins are exactly the prefix of length min(4, n) of the issues. */
  lemma QuickWinsArePrefix(auditResults: Option<AuditResult>)
    requires auditResults.Some?
    ensures var issues := auditResults.value.issues;
      QuickWins(auditResults) == issues[..if |issues| < 4 then |issues| else 4]
  {
    var issues := auditResults.value.issues;
    var r := QuickWins(auditResults);
    assert r == issues[..|r|];
  }

  /** With no audit, the panel shows the placeholder and no issue; with an
      audit, no placeholder, even when the issue list is empty. */
  lemma PlaceholderIffNoAudit(auditResults: Option<AuditResult>)
    ensures ShowsAuditPlaceholder(auditResults) ==> QuickWins(auditResults) == []
    ensures !ShowsAuditPlaceholder(auditResults) <==> auditResults.Some?
  {
  }

  /** The quick-win strip colour is the issue-type colour. */
  function QuickWinColour(issue: SeoIssue): (c: Colour)
    ensures c == Red <==> issue.issueType == CRITICAL
    ensures c == Orange <==> issue.issueType == WARNING
    ensures c == Blue <==> issue.issueType == NOTICE
  {
    IssueColour(issue.issueType)
  }

  /** After an audit whose call threw, the stored fallback makes the
      dashboard read 50, "Needs attention", no action items and no quick
      wins, without the placeholder. */
  lemma DashboardAfterFailedAudit(p: BusinessProfile, gateway: Gateway, parse: Parser<AuditResult>)
    requires Call(gateway, AuditPrompt(p), true).Threw?
    ensures var stored := Some(GenerateAudit(p, gateway, parse));
      && DisplayedScore(stored) == 50
      && HealthLabel(DisplayedScore(stored)) == AttentionLabel
      && HealthColour(DisplayedScore(stored)) == Orange
      && ActionItems(stored) == 0
      && QuickWins(stored) == []
      && !ShowsAuditPlaceholder(stored)
  {
  }
}
