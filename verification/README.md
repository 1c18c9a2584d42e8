# SEOBox session and response-handling model

SEOBox is a browser dashboard. The user describes a business once, on an
onboarding form. The dashboard then asks a hosted language model for SEO
artifacts: an audit, keyword ideas, a blog post, per-issue fixes, and local
and backlink strategies. This project models the application's own logic in
Dafny:

- `Strings` and `GeminiService`: the `cleanJson` normaliser, the prompt
  builders, and how each service call turns a gateway outcome into a parsed
  value or a fixed fallback. A gateway outcome is one of: the call threw, it
  returned no text, or it returned text.
- `App` and `Layout`: the session record (view, profile, stored audit,
  selected topic), every transition the interface can cause, and the menu
  that is the navigation alphabet.
- `Audit`, `Keywords`, `Dashboard`, `Content`: each view's local state and
  the display rules derived from it. The rules are threshold colours, the
  first four quick wins, the loading row and the button guards.
- `Types`: the records of `types.ts`.

The hosted model is a parameter: a `Gateway` is any function from a request
(model id, prompt, JSON-output flag) to an outcome. `JSON.parse` followed by
the unchecked `as T` cast is a second parameter, `Parser<V>`, a partial
function returning `Option<V>`. Nothing validates the parsed value between
the two: whatever the parser yields reaches the view
(`GeminiService.AuditPassesParsedValueThrough`). An async handler is split into
a begin step and a completion step. Each step is atomic.

The code behaves as follows, and the model follows it:
- The code has no shape validation of parsed payloads.
- A missing or empty response text is parsed as `"{}"` or `"[]"`. It is not
  replaced by the fallback.
- Concurrent fixes share one `fixingId` slot (`Audit.SharedFixingSlot`).
- A failed keyword refresh empties the list (`Keywords.LoadReplacesList`).
- The fix map is local to the audit view and is not held in the session.
- The fix map is a plain object, so a lookup of an issue id that names an
  `Object.prototype` member finds that member (`Audit.Card`).
- The expanded-issue slot holds an id, so issues that share an id unfold
  together (`Audit.SharedIdsUnfoldTogether`).

## Model

| member | source | states |
|---|---|---|
| Strings.DeleteAll | services/geminiService.ts:11 | deleting all non-overlapping matches left to right never lengthens the text, and leaves it unchanged exactly when the pattern does not occur |
| Strings.Trim | services/geminiService.ts:12 | the result is an infix of the input with only ECMAScript whitespace cut before and after it and none left at either end; an already trimmed text is returned as is |
| Strings.TrimKeepsAbsence | services/geminiService.ts:12 | trimming cannot create an occurrence of a pattern, because the result is an infix of the input |
| Strings.DeleteFenceLeadingTicks | services/geminiService.ts:11 | a leading run of k backticks comes out of the fence deletion as k mod 3 backticks |
| Strings.DeleteFenceLeavesNoFence | services/geminiService.ts:11 | after every "```" is deleted, no three backticks stand together anywhere in the text |
| GeminiService.CleanJson | services/geminiService.ts:10-13 | the cleaned text never contains "```" and has no leading or trailing whitespace |
| GeminiService.CleanJsonIdempotent | services/geminiService.ts:10-13 | cleaning a cleaned text changes nothing |
| GeminiService.CleanJsonKeepsPlainText | services/geminiService.ts:10-13 | a text with no backtick and no surrounding whitespace is returned unchanged |
| GeminiService.CleanJsonUnwrapsFencedBlock | services/geminiService.ts:11-12 | for a backtick-free body, cleaning "```json" + body + "```" gives the trimmed body, the same as cleaning the bare body |
| GeminiService.AuditPromptFields | services/geminiService.ts:16-20 | the audit prompt contains business name, URL and industry verbatim, and profiles that agree on those three give the same prompt |
| GeminiService.KeywordPromptFields | services/geminiService.ts:62-67 | the keyword prompt contains name, industry, location and focus keyword verbatim, and depends on no other profile field |
| GeminiService.BlogPromptFields | services/geminiService.ts:97-101 | the blog prompt contains the topic, business name and location verbatim |
| GeminiService.FixPromptFields | services/geminiService.ts:127-131 | the fix prompt contains the issue title and description and the business name and industry verbatim, and nothing else of the issue |
| GeminiService.LocalPromptFields | services/geminiService.ts:148-153 | the local-strategy prompt contains name, location and industry verbatim |
| GeminiService.BacklinkPromptFields | services/geminiService.ts:181-184 | the backlink prompt contains the name and the competitors field verbatim |
| GeminiService.TextOr | services/geminiService.ts:49 | the logical-or default: a present, non-empty text is kept; a missing or empty one gives the default (also at lines 89, 119, 141, 174 and 201) |
| GeminiService.ParseOutcome | services/geminiService.ts:49-50 | the shared JSON path: nothing when the call threw; the parse of the cleaned default when the text is missing or empty; otherwise the parse of the cleaned text |
| GeminiService.GenerateAudit | services/geminiService.ts:40-58 | a thrown call or a failed parse yields the fixed fallback {50, "Could not generate audit. Please check API key.", []}; otherwise the parsed value is returned, with missing or empty text parsed as "{}" |
| GeminiService.AuditFallbackCases | services/geminiService.ts:40-58 | the fallback is returned whenever the call threw or the parse failed, and only then unless the parser itself produced the fallback value |
| GeminiService.AuditPassesParsedValueThrough | services/geminiService.ts:49-50 | no shape check: any value the parser yields is returned unchanged, whatever the response text |
| GeminiService.AuditAbsentTextParsedAsEmptyObject | services/geminiService.ts:49-50 | a response with no text or empty text is parsed as "{}", which cleaning leaves unchanged; the fallback appears only if that parse fails |
| GeminiService.AuditFencedResponse | services/geminiService.ts:49-50 | a response fenced as ```json ... ``` is parsed from its trimmed body |
| GeminiService.GenerateKeywords | services/geminiService.ts:81-93 | a thrown call or failed parse yields the empty list; otherwise the parsed list, with missing or empty text parsed as "[]" |
| GeminiService.KeywordsAbsentTextParsedAsEmptyArray | services/geminiService.ts:89 | a keyword response with no text or empty text is parsed as "[]", which cleaning leaves unchanged; the empty list results only if that parse fails |
| GeminiService.GenerateBlogPost | services/geminiService.ts:114-123 | the answer is never empty: the raw text, "Failed to generate content." for missing or empty text, "Error generating content. Please try again." when the call throws |
| GeminiService.FixIssueWithAI | services/geminiService.ts:136-144 | the answer is never empty: the raw text, "Could not generate fix." for missing or empty text, "Error generating fix." when the call throws |
| GeminiService.GenerateLocalStrategy | services/geminiService.ts:168-177 | null (None) when the call throws; otherwise whatever parsing the cleaned text (or "{}") gives, null included |
| GeminiService.GenerateBacklinkStrategy | services/geminiService.ts:195-204 | null (None) when the call throws; otherwise whatever parsing the cleaned text (or "{}") gives, null included |
| GeminiService.StrategyNullCases | services/geminiService.ts:168-204 | each strategy is null exactly when the call threw or the cleaned text (or "{}") did not parse, and the two strategies agree whenever the gateway answers their prompts alike |
| Types.AllViewsComplete | types.ts:1-9 | the view enumeration has exactly seven distinct values |
| Types.IssueColour | components/Audit.tsx:107-111 | critical issues are red, warnings orange, notices blue |
| Layout.MenuIsNavigationAlphabet | components/Layout.tsx:20-27 | the menu ids are exactly DASHBOARD, AUDIT, KEYWORDS, CONTENT, LOCAL_SEO, BACKLINKS in that order, and every view but ONBOARDING is among them |
| Layout.Dispatch | components/Layout.tsx:49 | clicking entry i requests exactly that entry's view, which is never ONBOARDING |
| Layout.FindLabel | components/Layout.tsx:77 | finds nothing exactly when no entry has the id; otherwise returns the label of the first entry with that id |
| Layout.AtMostOneActive | components/Layout.tsx:45 | two active entries are the same entry, and outside onboarding some entry is active |
| Layout.IsActive | components/Layout.tsx:45 | an entry is highlighted when its id is the current view |
| Layout.HeaderTitle | components/Layout.tsx:77 | there is a title exactly when the view is not ONBOARDING, and it is the label of a menu entry with that id |
| Layout.HeaderShowsActiveLabel | components/Layout.tsx:77 | the header title is the label of the active entry |
| App.InitialSession | App.tsx:13-27 | the session starts on ONBOARDING with all six profile fields empty, no audit and an empty topic |
| App.EditProfile | App.tsx:53-106 | an input writes its own profile field, leaves every other field as it was, and never touches competitors |
| App.EditChangesOneField | App.tsx:53-106 | an onboarding edit changes only the edited profile field of the session |
| App.SubmitOnboarding | App.tsx:29-34 | submitting either moves to DASHBOARD or leaves the session unchanged, and moves iff URL and name are both non-empty |
| App.SubmitGate | App.tsx:29-34 | from onboarding, submit reaches the dashboard exactly when URL and name are non-empty, and otherwise changes nothing |
| App.HandOffTopic | App.tsx:36-39 | the handoff sets the topic and the CONTENT view together and keeps profile and audit |
| App.HandOffIsAtomic | App.tsx:36-39 | from the keyword view, one "Write Post" event sets both the topic and the content view |
| App.NavigationFrame | App.tsx:122 | a menu click changes the view to that entry's id and nothing else |
| App.OnlySetterWritesAudit | App.tsx:124-130 | the stored audit changes only through the audit setter, which stores the given result whole |
| App.NeverBackToOnboarding | App.tsx:29-39 | once the view leaves ONBOARDING, no sequence of events returns to it |
| App.ProfileFrozenAfterOnboarding | App.tsx:41-116 | after onboarding no sequence of events changes the profile |
| App.CompetitorsStayEmpty | App.tsx:53-106 | competitors has no input, so from an empty start it stays empty through every run |
| App.PastOnboardingHasUrlAndName | App.tsx:29-34 | every session past onboarding has a non-empty URL and business name |
| App.Step | App.tsx:29-139 | one event: no step enters ONBOARDING, the profile is fixed outside it, competitors never changes, only "Write Post" changes the topic and it then opens CONTENT, and only the audit setter changes the stored audit |
| App.Run | App.tsx:29-139 | a run of events: the empty run changes nothing, a run without the audit setter keeps the stored audit, and a run without "Write Post" keeps the topic |
| App.ReachableSessions | App.tsx:13-34 | from the initial session, competitors is always empty, and any session past onboarding has URL and name |
| App.Render | App.tsx:121-140 | onboarding draws the form; every other view draws the frame with exactly one feature view, the one for that view, given the session's profile; CONTENT gets the selected topic, and DASHBOARD and AUDIT get the stored audit |
| App.ContentFromMenuGetsSelectedTopic | App.tsx:122-136 | the content view opened from the menu gets the last topic handed over, which the session keeps |
| App.AuditPersistsAcrossNavigation | App.tsx:124-130 | leaving the audit view and returning shows the same stored result |
| App.WritePostReachesContent | App.tsx:131-137 | "Write Post" on a keyword row opens the content view, which mounts with that row's keyword as its topic |
| Audit.RenderMode | components/Audit.tsx:32-64 | start screen iff no result and not loading, spinner iff loading, results iff a result and not loading |
| Audit.BeginAudit | components/Audit.tsx:18-20 | starting an audit raises loading and keeps the fix map, the fix slot and the expanded issue |
| Audit.FinishAudit | components/Audit.tsx:20-22 | completion hands the service's result whole to the setter and clears loading |
| Audit.RunAuditScreens | components/Audit.tsx:18-23 | the spinner shows while an audit runs; afterwards the results screen shows the new result, which is the fallback when the call threw |
| Audit.BeginFix | components/Audit.tsx:26 | the fix slot names the issue being fixed, and nothing else changes |
| Audit.HandleFix | components/Audit.tsx:25-30 | one fix: the issue gains an entry holding the service's answer, which is never empty, no key is lost, and the slot is emptied |
| Audit.FinishFix | components/Audit.tsx:28-29 | the fix is recorded under the issue id, every other entry is kept, no key is removed, and the slot is emptied |
| Audit.HandleFixLifecycle | components/Audit.tsx:25-30 | the issue's button is disabled during its fix; afterwards it is gone for good, since the fix is never empty; other entries are unchanged |
| Audit.FixKeysOnlyGrow | components/Audit.tsx:15-28 | across any sequence of completed fixes, the set of keys only grows and contains every fixed issue |
| Audit.FixesCommute | components/Audit.tsx:28 | two fixes for different issues leave the same map whichever completes first, each issue keeping its own fix |
| Audit.SharedFixingSlot | components/Audit.tsx:14-29 | with two fixes in flight only the later one shows as in progress, and the first completion clears the slot for both |
| Audit.ToggleDetails | components/Audit.tsx:131 | after a toggle on issue i, an issue shows details iff it is i and i was not shown before |
| Audit.FixOffered | components/Audit.tsx:144 | the button is offered while `fixes[id]` is falsy: no own entry and no inherited member of that name, or an empty own entry |
| Audit.FixDisabled | components/Audit.tsx:147 | the button is disabled while the fix slot names the issue |
| Audit.Card | components/Audit.tsx:129-166 | a card is unfolded iff the expanded slot holds its id; unfolded, it shows the recommendation and either the button (offered iff there is no truthy entry, disabled iff the slot names it), the own non-empty fix, or, for an inherited member name, that member |
| Audit.InheritedIdShowsNoButton | components/Audit.tsx:15-144 | an issue whose id names an `Object.prototype` member with no own entry is never offered the button |
| Audit.Cards | components/Audit.tsx:104-172 | one card per issue, in list order |
| Audit.AtMostOneExpanded | components/Audit.tsx:16-139 | when issue ids are distinct, at most one card of the list is unfolded |
| Audit.SharedIdsUnfoldTogether | components/Audit.tsx:131-139 | issues that share an id are unfolded together, and one toggle flips both |
| Audit.ScoreRing | components/Audit.tsx:84-86 | green iff score > 75, yellow iff 50 < score <= 75, red iff score <= 50 |
| Keywords.BeginLoad | components/Keywords.tsx:24 | a load raises loading and keeps the current list |
| Keywords.FinishLoad | components/Keywords.tsx:26-27 | completion replaces the list with the data and clears loading |
| Keywords.LoadReplacesList | components/Keywords.tsx:23-28 | the list after a load is exactly the service's list, whatever was there before, and empty after a failed call |
| Keywords.Load | components/Keywords.tsx:23-28 | after a load the list is the service's list, the refresh button is enabled again and the table shows the list |
| Keywords.RefreshEnabled | components/Keywords.tsx:41 | the refresh button is enabled while no load is in flight |
| Keywords.Mount | components/Keywords.tsx:12-21 | right after mounting, a load is in flight over the empty list |
| Keywords.MountLoads | components/Keywords.tsx:15-19 | a fresh mount triggers a load and shows the loading row, and its completion shows the loaded rows |
| Keywords.ClickRefresh | components/Keywords.tsx:39-41 | a click while loading does nothing; otherwise it starts a load over the current list |
| Keywords.Body | components/Keywords.tsx:62-71 | the loading row shows iff loading with an empty list; otherwise the rows are the list in order |
| Keywords.DifficultyColour | components/Keywords.tsx:89-92 | red iff difficulty > 70, yellow iff 40 < difficulty <= 70, green iff difficulty <= 40 |
| Keywords.IntentColour | components/Keywords.tsx:75-79 | Transactional green, Informational blue, Local purple, any other intent grey |
| Keywords.WritePostTopic | components/Keywords.tsx:100-101 | "Write Post" on a displayed row hands on exactly that row's keyword |
| Dashboard.DisplayedScore | components/Dashboard.tsx:12 | the stored score if there is an audit, else 0 |
| Dashboard.HealthLabel | components/Dashboard.tsx:55 | "Good condition" iff score > 70, else "Needs attention" |
| Dashboard.HealthColour | components/Dashboard.tsx:57 | the card is green exactly when its label is "Good condition", else orange |
| Dashboard.ActionItems | components/Dashboard.tsx:75 | the number of issues, or 0 without an audit |
| Dashboard.Take | components/Dashboard.tsx:107 | slice(0, n) keeps min(n, length) elements, each at its original position |
| Dashboard.QuickWins | components/Dashboard.tsx:107 | no quick wins without an audit; otherwise min(4, n) of them, each the issue at the same position |
| Dashboard.ShowsAuditPlaceholder | components/Dashboard.tsx:118 | the placeholder shows while no audit is stored |
| Dashboard.QuickWinsArePrefix | components/Dashboard.tsx:107 | the quick wins are the first min(4, n) issues in original order |
| Dashboard.PlaceholderIffNoAudit | components/Dashboard.tsx:118 | the "Run an audit" placeholder shows iff there is no audit, and then no quick win shows |
| Dashboard.QuickWinColour | components/Dashboard.tsx:110 | critical strips are red, warnings orange, everything else blue |
| Dashboard.DashboardAfterFailedAudit | components/Dashboard.tsx:12-118 | after an audit whose call threw, the dashboard reads 50, "Needs attention" in orange, no action items, no quick wins and no placeholder |
| Content.TopicOr | components/Content.tsx:12 | the initial topic if given, else the empty string |
| Content.SyncTopic | components/Content.tsx:17-19 | a non-empty initial topic overwrites the field; otherwise the field is kept |
| Content.MountSeedsTopic | components/Content.tsx:12-19 | after mounting, the field holds the initial topic or "", and generate is enabled iff that is non-empty |
| Content.Mount | components/Content.tsx:12-19 | the view mounts with the initial topic or "", no article and not generating |
| Content.GenerateEnabled | components/Content.tsx:47 | the generate button is enabled only while idle and with a non-empty topic |
| Content.ShowsPlaceholder | components/Content.tsx:60 | the empty-editor placeholder shows exactly while there is no article |
| Content.BeginGenerate | components/Content.tsx:22-23 | with an empty topic nothing happens; otherwise generating is raised |
| Content.HandleGenerate | components/Content.tsx:21-27 | with an empty topic nothing happens; otherwise the article is replaced whole by the service's answer and generating is cleared |
| Content.GenerateShowsArticle | components/Content.tsx:21-60 | the button is disabled during generation; afterwards the placeholder is gone, since the answer is never empty, and the button is enabled again |
| Content.EditTopic | components/Content.tsx:41 | typing replaces the topic and nothing else |

## Left out

- The language-model SDK, the API key and the network call are left out. The gateway is an arbitrary function parameter, so every property holds for every gateway behaviour.
- `JSON.parse` is an uninterpreted parser parameter. The JSON grammar is not modelled.
- GenerateAudit, GenerateKeywords: the parser returns values of the declared type, so a payload of the wrong shape cannot be represented. For example, `"{}"` cast to an audit with no score cannot be written down. The model adds no validator, but the datatypes cannot show the malformed values either.
- Interleaving of concurrent requests is left out. Each request is a begin step and an atomic completion step. Only the shared `fixingId` slot is stated about overlapping fixes.
- The fix map, the keyword list and the article are local to their views and are lost on unmount. The model gives each view its own state record and does not model unmounting.
- The local-SEO and backlink views are left out. They are presentation over untyped data. Their service calls are modelled.
- Rendering, CSS classes, icons, the simulated traffic chart and the "copy to clipboard" action with its 2-second flag are left out.
- Prompt wording is left out. Each prompt is a brief, labelled context lines and an output-shape note. Only which values are embedded is stated.
- Browser form validation (`required`, `type="url"`) is left out. Only the submit handler's own non-empty check is modelled.
- Scores and difficulties are integers. JavaScript numbers may be fractional, and the thresholds compare the same way for those.
- Audit.AtMostOneExpanded: holds only for issue lists with distinct ids. Nothing checks ids of a parsed audit, and issues that share an id unfold together (`Audit.SharedIdsUnfoldTogether`).
- Audit.Card: for an issue id that names an `Object.prototype` member with no own fix, the panel is `InheritedValue`. What React then draws is not modelled: nothing for a function, and a render error for `__proto__`, whose value is an object.
- Strings are sequences of Unicode scalar values, whereas JavaScript strings are UTF-16 code units. Trimming and fence deletion only involve characters from the Basic Multilingual Plane, so they are unaffected.
