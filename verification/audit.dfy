/** The audit view: its local state (loading flag, the one `fixingId` slot,
    the per-issue fix map, the expanded issue), the render mode and the
    score ring colour. The audit result itself lives in the session and is
    written through the setter the view is given. */
module Audit {
  import opened Types
  import opened GeminiService

  datatype AuditView = AuditView(
    loading: bool,
    fixingId: Option<string>,
    fixes: map<string, string>,
    expandedIssue: Option<string>
  )

  /** The state each time the view mounts. */
  const Mounted := AuditView(false, None, map[], None)

  datatype Screen = StartScreen | Spinner | Results

  /** Which of the three screens the view draws. */
  function RenderMode(auditResults: Option<AuditResult>, loading: bool): (m: Screen)
    ensures m == StartScreen <==> auditResults.None? && !loading
    ensures m == Spinner <==> loading
    ensures m == Results <==> auditResults.Some? && !loading
  {
    if auditResults.None? && !loading then StartScreen
    else if loading then Spinner
    else Results
  }

  // ---------------------------------------------------------------------
  // runAudit

  /** First half of `runAudit`: the request is out. */
  function BeginAudit(v: AuditView): (w: AuditView)
    ensures w.loading
    ensures w.fixes == v.fixes && w.fixingId == v.fixingId && w.expandedIssue == v.expandedIssue
  {
    v.(loading := true)
  }

  /** What `runAudit` leaves behind: the view state and the value handed to
      the session's audit setter. */
  datatype AuditRun = AuditRun(view: AuditView, stored: AuditResult)

  /** Second half of `runAudit`: the result is handed to the setter as it
      came back and loading is cleared. */
  function FinishAudit(v: AuditView, p: BusinessProfile, gateway: Gateway, parse: Parser<AuditResult>): (r: AuditRun)
    ensures r.stored == GenerateAudit(p, gateway, parse)
    ensures !r.view.loading
    ensures r.view.fixes == v.fixes && r.view.fixingId == v.fixingId && r.view.expandedIssue == v.expandedIssue
  {
    AuditRun(v.(loading := false), GenerateAudit(p, gateway, parse))
  }

  /** While an audit runs the spinner shows, whatever result is already
      stored; once it completes the results screen shows the new result,
      and a failed call shows the fallback rather than failing. */
  lemma RunAuditScreens(v: AuditView, previous: Option<AuditResult>, p: BusinessProfile,
                        gateway: Gateway, parse: Parser<AuditResult>)
    ensures RenderMode(previous, BeginAudit(v).loading) == Spinner
    ensures var r := FinishAudit(BeginAudit(v), p, gateway, parse);
      RenderMode(Some(r.stored), r.view.loading) == Results
    ensures Call(gateway, AuditPrompt(p), true).Threw? ==>
      FinishAudit(BeginAudit(v), p, gateway, parse).stored == AuditFallback
  {
  }

  // ---------------------------------------------------------------------
  // handleFix

  /** First half of `handleFix`: the slot names the issue being fixed. */
  function BeginFix(v: AuditView, issue: SeoIssue): (w: AuditView)
    ensures w.fixingId == Some(issue.id)
    ensures w.fixes == v.fixes && w.loading == v.loading && w.expandedIssue == v.expandedIssue
  {
    v.(fixingId := Some(issue.id))
  }

  /** Second half of `handleFix`: the fix is recorded under the issue id,
      every other entry is kept, and the slot is emptied. */
  function FinishFix(v: AuditView, issue: SeoIssue, fix: string): (w: AuditView)
    ensures w.fixes.Keys == v.fixes.Keys + {issue.id}
    ensures w.fixes[issue.id] == fix
    ensures forall k | k in v.fixes && k != issue.id :: w.fixes[k] == v.fixes[k]
    ensures w.fixingId.None?
    ensures w.loading == v.loading && w.expandedIssue == v.expandedIssue
  {
    v.(fixes := v.fixes[issue.id := fix], fixingId := None)
  }

  /** `handleFix` as one step, with the fix the service returns. */
  function HandleFix(v: AuditView, issue: SeoIssue, p: BusinessProfile, gateway: Gateway): (w: AuditView)
    ensures w.fixes.Keys == v.fixes.Keys + {issue.id}
    ensures w.fixes[issue.id] == FixIssueWithAI(issue, p, gateway) && w.fixes[issue.id] != ""
    ensures w.fixingId.None?
  {
    FinishFix(BeginFix(v, issue), issue, FixIssueWithAI(issue, p, gateway))
  }

  /** The names a plain object literal inherits from `Object.prototype`. A
      lookup of one of them that has no own entry finds a function, or for
      `__proto__` the prototype object; both are truthy. */
  const InheritedKeys: set<string> := {
    "constructor", "hasOwnProperty", "isPrototypeOf", "propertyIsEnumerable",
    "toLocaleString", "toString", "valueOf", "__proto__",
    "__defineGetter__", "__defineSetter__", "__lookupGetter__", "__lookupSetter__"
  }

  /** Whether `fixes[id]` is truthy: an own entry that is not empty, or an
      inherited member when there is no own entry. */
  predicate HasFix(v: AuditView, id: string) {
    if id in v.fixes then v.fixes[id] != "" else id in InheritedKeys
  }

  /** The "Fix with AI" button is offered while `fixes[id]` is falsy. */
  predicate FixOffered(v: AuditView, id: string) {
    !HasFix(v, id)
  }

  /** The button is disabled while the slot names this issue. */
  predicate FixDisabled(v: AuditView, id: string) {
    v.fixingId == Some(id)
  }

  /** The lower part of an expanded issue: the fix button, the recorded fix,
      or, for an inherited member, whatever that member renders as. */
  datatype FixPanel = FixButton(disabled: bool) | SuggestedFix(text: string) | InheritedValue

  /** An issue card, folded or with its details. */
  datatype IssueCard = Folded | Unfolded(recommendation: string, panel: FixPanel)

  /** The card drawn for one issue. */
  function Card(v: AuditView, issue: SeoIssue): (c: IssueCard)
    ensures c.Unfolded? <==> v.expandedIssue == Some(issue.id)
    ensures c.Unfolded? ==> c.recommendation == issue.recommendation
    ensures c.Unfolded? && c.panel.FixButton? <==>
      v.expandedIssue == Some(issue.id) && (issue.id !in v.fixes || v.fixes[issue.id] == "")
                                        && issue.id !in InheritedKeys - v.fixes.Keys
    ensures c.Unfolded? && c.panel.FixButton? ==> (c.panel.disabled <==> v.fixingId == Some(issue.id))
    ensures c.Unfolded? && c.panel.SuggestedFix? ==>
      issue.id in v.fixes && c.panel.text == v.fixes[issue.id] && c.panel.text != ""
    ensures c.Unfolded? && c.panel.InheritedValue? ==> issue.id !in v.fixes && issue.id in InheritedKeys
  {
    if v.expandedIssue != Some(issue.id) then Folded
    else if FixOffered(v, issue.id) then Unfolded(issue.recommendation, FixButton(FixDisabled(v, issue.id)))
    else if issue.id in v.fixes then Unfolded(issue.recommendation, SuggestedFix(v.fixes[issue.id]))
    else Unfolded(issue.recommendation, InheritedValue)
  }

  /** An issue whose id names an inherited member and has no own fix is
      never offered the button: its unfolded card shows the inherited value. */
  lemma InheritedIdShowsNoButton(v: AuditView, issue: SeoIssue)
    requires issue.id in InheritedKeys && issue.id !in v.fixes
    requires v.expandedIssue == Some(issue.id)
    ensures Card(v, issue) == Unfolded(issue.recommendation, InheritedValue)
  {
  }

  /** The cards of the issue list, in order. */
  function Cards(v: AuditView, issues: seq<SeoIssue>): (cs: seq<IssueCard>)
    ensures |cs| == |issues|
    ensures forall i | 0 <= i < |issues| :: cs[i] == Card(v, issues[i])
  {
    if |issues| == 0 then [] else [Card(v, issues[0])] + Cards(v, issues[1..])
  }

  /** No two issues share an id. Nothing checks this of a parsed audit. */
  predicate DistinctIds(issues: seq<SeoIssue>) {
    forall a, b | 0 <= a < b < |issues| :: issues[a].id != issues[b].id
  }

  /** While a fix is requested its button is disabled; once it completes
      the button is gone for good, because the service never returns an
      empty fix, and no other issue's recorded fix has changed. */
  lemma HandleFixLifecycle(v: AuditView, issue: SeoIssue, p: BusinessProfile, gateway: Gateway)
    ensures FixDisabled(BeginFix(v, issue), issue.id)
    ensures !FixOffered(HandleFix(v, issue, p, gateway), issue.id)
    ensures HandleFix(v, issue, p, gateway).fixingId.None?
    ensures forall k | k in v.fixes && k != issue.id ::
      k in HandleFix(v, issue, p, gateway).fixes && HandleFix(v, issue, p, gateway).fixes[k] == v.fixes[k]
  {
  }

  /** The fixes that complete, in completion order. */
  function FinishAll(v: AuditView, done: seq<(SeoIssue, string)>): AuditView
    decreases |done|
  {
    if |done| == 0 then v else FinishAll(FinishFix(v, done[0].0, done[0].1), done[1..])
  }

  /** Keys of the fix map are never removed, and each completed issue has an entry. */
  lemma {:induction false} FixKeysOnlyGrow(v: AuditView, done: seq<(SeoIssue, string)>)
    ensures v.fixes.Keys <= FinishAll(v, done).fixes.Keys
    ensures forall i | 0 <= i < |done| :: done[i].0.id in FinishAll(v, done).fixes
    decreases |done|
  {
    if |done| > 0 {
      var w := FinishFix(v, done[0].0, done[0].1);
      FixKeysOnlyGrow(w, done[1..]);
      forall i | 0 <= i < |done|
        ensures done[i].0.id in FinishAll(v, done).fixes
      {
        if i > 0 {
          assert done[i] == done[1..][i - 1];
        }
      }
    }
  }

  /** Fixes for two different issues that resolve in either order leave the
      same fix map: each issue keeps its own fix. */
  lemma FixesCommute(v: AuditView, a: SeoIssue, fa: string, b: SeoIssue, fb: string)
    requires a.id != b.id
    ensures FinishFix(FinishFix(v, a, fa), b, fb).fixes == FinishFix(FinishFix(v, b, fb), a, fa).fixes
    ensures FinishFix(FinishFix(v, a, fa), b, fb).fixes[a.id] == fa
    ensures FinishFix(FinishFix(v, a, fa), b, fb).fixes[b.id] == fb
  {
  }

  /** The single slot is shared: with two fixes in flight only the later
      issue shows as in progress, and the first completion clears the slot
      for both. */
  lemma SharedFixingSlot(v: AuditView, a: SeoIssue, b: SeoIssue, fb: string)
    requires a.id != b.id
    ensures !FixDisabled(BeginFix(BeginFix(v, a), b), a.id)
    ensures !FixDisabled(FinishFix(BeginFix(BeginFix(v, a), b), b, fb), a.id)
  {
  }

  // ---------------------------------------------------------------------
  // Expanding an issue

  predicate DetailsShown(v: AuditView, id: string) {
    v.expandedIssue == Some(id)
  }

  /** The expand button of issue `id`: collapses it if open, else opens it
      and thereby closes whichever other issue was open. */
  function ToggleDetails(v: AuditView, id: string): (w: AuditView)
    ensures forall j :: DetailsShown(w, j) <==> (j == id && !DetailsShown(v, id))
    ensures w.fixes == v.fixes && w.fixingId == v.fixingId && w.loading == v.loading
  {
    v.(expandedIssue := if v.expandedIssue == Some(id) then None else Some(id))
  }

  /** With distinct ids, at most one card of the list is unfolded. */
  lemma AtMostOneExpanded(v: AuditView, issues: seq<SeoIssue>, a: nat, b: nat)
    requires DistinctIds(issues)
    requires a < |issues| && b < |issues|
    requires Cards(v, issues)[a].Unfolded? && Cards(v, issues)[b].Unfolded?
    ensures a == b
  {
  }

  /** Issues that share an id unfold and fold together: the expanded slot
      holds an id, not a position. */
  lemma SharedIdsUnfoldTogether(v: AuditView, issues: seq<SeoIssue>, a: nat, b: nat)
    requires a < |issues| && b < |issues| && issues[a].id == issues[b].id
    ensures Cards(v, issues)[a].Unfolded? <==> Cards(v, issues)[b].Unfolded?
    ensures Cards(ToggleDetails(v, issues[a].id), issues)[b].Unfolded? <==> !Cards(v, issues)[b].Unfolded?
  {
  }

  // ---------------------------------------------------------------------
  // Score ring

  /** Colour of the score ring. */
  function ScoreRing(score: int): (c: Colour)
    ensures c == Green <==> score > 75
    ensures c == Yellow <==> 50 < score <= 75
    ensures c == Red <==> score <= 50
  {
    if score > 75 then Green else if score > 50 then Yellow else Red
  }
}
