/** The wrapper around the hosted model: one prompt builder per artifact,
    the `cleanJson` normaliser, and the mapping from a gateway outcome to
    either the parsed value or a fixed fallback. */
module GeminiService {
  import opened Types
  import opened Strings

  // ---------------------------------------------------------------------
  // The gateway boundary

  /** What one `generateContent` call produced: it threw, or it returned a
      response whose `text` may be absent. */
  datatype GatewayOutcome = Threw | Returned(text: Option<string>)

  /** What is sent: model identifier, prompt and whether JSON output is requested. */
  datatype Request = Request(model: string, prompt: string, jsonOutput: bool)

  /** The hosted model, seen from this side: any total map from requests to outcomes. */
  type Gateway = Request -> GatewayOutcome

  /** `JSON.parse` followed by the unchecked `as T` cast: `None` where parsing
      throws. No shape validation sits between the two. */
  type Parser<V> = string -> Option<V>

  const ModelFast: string := "gemini-2.5-flash"

  /** Sends one prompt with the fixed model identifier. */
  function Call(gateway: Gateway, prompt: string, jsonOutput: bool): GatewayOutcome
  {
    gateway(Request(ModelFast, prompt, jsonOutput))
  }

  /** `response.text || default`: JavaScript's `||` rejects the empty string too. */
  function TextOr(text: Option<string>, default: string): (r: string)
    ensures text.Some? && text.value != "" ==> r == text.value
    ensures text.None? || text.value == "" ==> r == default
  {
    if text.Some? && text.value != "" then text.value else default
  }

  // ---------------------------------------------------------------------
  // cleanJson

  const JsonFence: string := "```json"

  /** Deletes every "```json", then every remaining "```", then trims. */
  function CleanJson(text: string): (r: string)
    ensures !Occurs(Fence, r)
    ensures IsTrimmed(r)
  {
    var unlabelled := DeleteAll(text, JsonFence);
    var unfenced := DeleteAll(unlabelled, Fence);
    DeleteFenceLeavesNoFence(unlabelled);
    TrimKeepsAbsence(Fence, unfenced);
    Trim(unfenced)
  }

  /** Cleaning an already cleaned text changes nothing. */
  lemma CleanJsonIdempotent(text: string)
    ensures CleanJson(CleanJson(text)) == CleanJson(text)
  {
    var t := CleanJson(text);
    if Occurs(JsonFence, t) {
      PrefixPatternOccurs(Fence, JsonFence, t);
    }
    assert DeleteAll(t, JsonFence) == t;
    assert DeleteAll(t, Fence) == t;
  }

  /** A text with no backtick and no surrounding whitespace is already clean. */
  lemma CleanJsonKeepsPlainText(text: string)
    requires Tick !in text
    requires IsTrimmed(text)
    ensures CleanJson(text) == text
  {
    if Occurs(JsonFence, text) {
      OccursNeedsFirstChar(JsonFence, text);
    }
    if Occurs(Fence, text) {
      OccursNeedsFirstChar(Fence, text);
    }
  }

  /** A backtick-free body wrapped in a ```json ... ``` block comes out as the
      trimmed body, which is what the unwrapped body cleans to as well. */
  lemma CleanJsonUnwrapsFencedBlock(body: string)
    requires Tick !in body
    ensures CleanJson(JsonFence + body + Fence) == Trim(body)
    ensures CleanJson(JsonFence + body + Fence) == CleanJson(body)
  {
    var wrapped := JsonFence + body + Fence;
    assert JsonFence <= wrapped;
    assert wrapped[|JsonFence|..] == body + Fence;
    DeleteAllSkipsTickFree(body, Fence, JsonFence);
    TooLongNeverOccurs(JsonFence, Fence);
    assert DeleteAll(wrapped, JsonFence) == body + Fence;
    DeleteAllSkipsTickFree(body, Fence, Fence);
    assert Fence <= Fence && Fence[3..] == [];
    assert DeleteAll(Fence, Fence) == [];
    assert body + [] == body;
    if Occurs(JsonFence, body) {
      OccursNeedsFirstChar(JsonFence, body);
    }
    if Occurs(Fence, body) {
      OccursNeedsFirstChar(Fence, body);
    }
  }

  // ---------------------------------------------------------------------
  // Prompt builders

  /** The profile fields a prompt embeds, as labelled lines. */
  function Lines(fields: seq<(string, string)>): string
  {
    if |fields| == 0 then ""
    else fields[0].0 + ": " + fields[0].1 + "\n" + Lines(fields[1..])
  }

  /** A prompt: a task brief, the labelled context lines and the requested output shape. */
  function Prompt(brief: string, fields: seq<(string, string)>, shape: string): string
  {
    brief + "\n" + Lines(fields) + shape
  }

  lemma {:induction false} LinesEmbedValues(fields: seq<(string, string)>, i: nat)
    requires i < |fields|
    ensures Occurs(fields[i].1, Lines(fields))
    decreases i
  {
    var head := fields[0].0 + ": " + fields[0].1 + "\n";
    var rest := Lines(fields[1..]);
    assert Lines(fields) == head + rest;
    if i == 0 {
      OccursBetween(fields[0].1, fields[0].0 + ": ", "\n" + rest);
      assert fields[0].0 + ": " + fields[0].1 + ("\n" + rest) == head + rest;
    } else {
      assert fields[1..][i - 1] == fields[i];
      LinesEmbedValues(fields[1..], i - 1);
      assert (head + rest)[|head|..] == rest;
      OccursInSuffix(fields[i].1, head + rest, |head|);
    }
  }

  /** Every context value placed in a prompt occurs in the prompt text verbatim. */
  lemma PromptEmbedsValues(brief: string, fields: seq<(string, string)>, shape: string, i: nat)
    requires i < |fields|
    ensures Occurs(fields[i].1, Prompt(brief, fields, shape))
  {
    var front := brief + "\n";
    var prompt := Prompt(brief, fields, shape);
    LinesEmbedValues(fields, i);
    assert prompt == front + Lines(fields) + shape;
    assert prompt[..|front| + |Lines(fields)|][|front|..] == Lines(fields);
    OccursInSuffix(fields[i].1, prompt[..|front| + |Lines(fields)|], |front|);
    OccursInPrefix(fields[i].1, prompt, |front| + |Lines(fields)|);
  }


  const AuditBrief := "Act as a technical SEO auditor and simulate an audit of this business."
  const AuditShape := "Answer with one JSON object {score 0-100, summary, issues: [{id, type, category, title, description, recommendation}]} and at least 6 issues."
  const KeywordBrief := "Act as a keyword researcher and list high-value SEO keywords for this business."
  const KeywordShape := "Answer with one JSON array of {keyword, intent, volume, difficulty 0-100}, 10 to 15 entries."
  const BlogBrief := "Act as an SEO content writer and write a blog post on the topic below."
  const BlogShape := "Use Markdown with an H1 title, H2/H3 sections, an FAQ and a call to action, about 800 words."
  const FixBrief := "Act as an SEO technician and give the concrete fix for this issue."
  const FixShape := "Give only the fix itself, with no commentary."
  const LocalBrief := "Write a local SEO strategy for this business."
  const LocalShape := "Answer with one JSON object {googleBusinessProfile, landingPageStructure, localKeywords}."
  const BacklinkBrief := "Write a backlink outreach strategy for this business."
  const BacklinkShape := "Answer with one JSON object {opportunities: [{type, target, potential}], emailTemplate}."

  function AuditFields(p: BusinessProfile): seq<(string, string)>
  {
    [("Business", p.businessName), ("URL", p.websiteUrl), ("Industry", p.industry)]
  }

  function AuditPrompt(p: BusinessProfile): string
  {
    Prompt(AuditBrief, AuditFields(p), AuditShape)
  }

  function KeywordFields(p: BusinessProfile): seq<(string, string)>
  {
    [("Business", p.businessName), ("Industry", p.industry),
     ("Location", p.location), ("Core Topic", p.primaryKeywords)]
  }

  function KeywordPrompt(p: BusinessProfile): string
  {
    Prompt(KeywordBrief, KeywordFields(p), KeywordShape)
  }

  function BlogFields(topic: string, p: BusinessProfile): seq<(string, string)>
  {
    [("Topic", topic), ("Business", p.businessName), ("Location", p.location)]
  }

  function BlogPrompt(topic: string, p: BusinessProfile): string
  {
    Prompt(BlogBrief, BlogFields(topic, p), BlogShape)
  }

  function FixFields(issue: SeoIssue, p: BusinessProfile): seq<(string, string)>
  {
    [("Issue", issue.title), ("Description", issue.description),
     ("Business", p.businessName), ("Industry", p.industry)]
  }

  function FixPrompt(issue: SeoIssue, p: BusinessProfile): string
  {
    Prompt(FixBrief, FixFields(issue, p), FixShape)
  }

  function LocalFields(p: BusinessProfile): seq<(string, string)>
  {
    [("Business", p.businessName), ("Location", p.location), ("Type", p.industry)]
  }

  function LocalPrompt(p: BusinessProfile): string
  {
    Prompt(LocalBrief, LocalFields(p), LocalShape)
  }

  function BacklinkFields(p: BusinessProfile): seq<(string, string)>
  {
    [("Business", p.businessName), ("Competitors", p.competitors)]
  }

  function BacklinkPrompt(p: BusinessProfile): string
  {
    Prompt(BacklinkBrief, BacklinkFields(p), BacklinkShape)
  }

  /** The audit prompt carries name, URL and industry verbatim, and depends on no other field. */
  lemma AuditPromptFields(p: BusinessProfile, q: BusinessProfile)
    ensures Occurs(p.businessName, AuditPrompt(p))
    ensures Occurs(p.websiteUrl, AuditPrompt(p))
    ensures Occurs(p.industry, AuditPrompt(p))
    ensures (p.businessName == q.businessName && p.websiteUrl == q.websiteUrl
             && p.industry == q.industry) ==> AuditPrompt(p) == AuditPrompt(q)
  {
    PromptEmbedsValues(AuditBrief, AuditFields(p), AuditShape, 0);
    PromptEmbedsValues(AuditBrief, AuditFields(p), AuditShape, 1);
    PromptEmbedsValues(AuditBrief, AuditFields(p), AuditShape, 2);
  }

  /** The keyword prompt carries name, industry, location and focus keyword
      verbatim, and depends on no other field. */
  lemma KeywordPromptFields(p: BusinessProfile, q: BusinessProfile)
    ensures Occurs(p.businessName, KeywordPrompt(p))
    ensures Occurs(p.industry, KeywordPrompt(p))
    ensures Occurs(p.location, KeywordPrompt(p))
    ensures Occurs(p.primaryKeywords, KeywordPrompt(p))
    ensures (p.businessName == q.businessName && p.industry == q.industry && p.location == q.location
             && p.primaryKeywords == q.primaryKeywords) ==> KeywordPrompt(p) == KeywordPrompt(q)
  {
    PromptEmbedsValues(KeywordBrief, KeywordFields(p), KeywordShape, 0);
    PromptEmbedsValues(KeywordBrief, KeywordFields(p), KeywordShape, 1);
    PromptEmbedsValues(KeywordBrief, KeywordFields(p), KeywordShape, 2);
    PromptEmbedsValues(KeywordBrief, KeywordFields(p), KeywordShape, 3);
  }

  /** The blog prompt carries the topic, name and location verbatim. */
  lemma BlogPromptFields(topic: string, p: BusinessProfile, q: BusinessProfile)
    ensures Occurs(topic, BlogPrompt(topic, p))
    ensures Occurs(p.businessName, BlogPrompt(topic, p))
    ensures Occurs(p.location, BlogPrompt(topic, p))
    ensures (p.businessName == q.businessName && p.location == q.location)
            ==> BlogPrompt(topic, p) == BlogPrompt(topic, q)
  {
    PromptEmbedsValues(BlogBrief, BlogFields(topic, p), BlogShape, 0);
    PromptEmbedsValues(BlogBrief, BlogFields(topic, p), BlogShape, 1);
    PromptEmbedsValues(BlogBrief, BlogFields(topic, p), BlogShape, 2);
  }

  /** The fix prompt carries the issue's title and description and the
      business name and industry verbatim; the recommendation is not sent. */
  lemma FixPromptFields(issue: SeoIssue, p: BusinessProfile, other: SeoIssue, q: BusinessProfile)
    ensures Occurs(issue.title, FixPrompt(issue, p))
    ensures Occurs(issue.description, FixPrompt(issue, p))
    ensures Occurs(p.businessName, FixPrompt(issue, p))
    ensures Occurs(p.industry, FixPrompt(issue, p))
    ensures (issue.title == other.title && issue.description == other.description
             && p.businessName == q.businessName && p.industry == q.industry)
            ==> FixPrompt(issue, p) == FixPrompt(other, q)
  {
    PromptEmbedsValues(FixBrief, FixFields(issue, p), FixShape, 0);
    PromptEmbedsValues(FixBrief, FixFields(issue, p), FixShape, 1);
    PromptEmbedsValues(FixBrief, FixFields(issue, p), FixShape, 2);
    PromptEmbedsValues(FixBrief, FixFields(issue, p), FixShape, 3);
  }

  /** The local-strategy prompt carries name, location and industry verbatim. */
  lemma LocalPromptFields(p: BusinessProfile, q: BusinessProfile)
    ensures Occurs(p.businessName, LocalPrompt(p))
    ensures Occurs(p.location, LocalPrompt(p))
    ensures Occurs(p.industry, LocalPrompt(p))
    ensures (p.businessName == q.businessName && p.location == q.location
             && p.industry == q.industry) ==> LocalPrompt(p) == LocalPrompt(q)
  {
    PromptEmbedsValues(LocalBrief, LocalFields(p), LocalShape, 0);
    PromptEmbedsValues(LocalBrief, LocalFields(p), LocalShape, 1);
    PromptEmbedsValues(LocalBrief, LocalFields(p), LocalShape, 2);
  }

  /** The backlink prompt carries the name and the competitors field verbatim. */
  lemma BacklinkPromptFields(p: BusinessProfile, q: BusinessProfile)
    ensures Occurs(p.businessName, BacklinkPrompt(p))
    ensures Occurs(p.competitors, BacklinkPrompt(p))
    ensures (p.businessName == q.businessName && p.competitors == q.competitors)
            ==> BacklinkPrompt(p) == BacklinkPrompt(q)
  {
    PromptEmbedsValues(BacklinkBrief, BacklinkFields(p), BacklinkShape, 0);
    PromptEmbedsValues(BacklinkBrief, BacklinkFields(p), BacklinkShape, 1);
  }

  // ---------------------------------------------------------------------
  // Outcome handling

  /** The shared JSON path: substitute `emptyText` for a missing or empty
      text, clean, parse; `None` where the call or the parse threw. */
  function ParseOutcome<V>(outcome: GatewayOutcome, emptyText: string, parse: Parser<V>): (r: Option<V>)
    ensures outcome.Threw? ==> r.None?
    ensures (outcome == Returned(None) || outcome == Returned(Some(""))) ==> r == parse(CleanJson(emptyText))
    ensures (outcome.Returned? && outcome.text.Some? && outcome.text.value != "") ==>
      r == parse(CleanJson(outcome.text.value))
  {
    match outcome
    case Threw => None
    case Returned(text) => parse(CleanJson(TextOr(text, emptyText)))
  }

  const AuditFallback := AuditResult(50, [], "Could not generate audit. Please check API key.")

  /** `generateAudit`: the parsed value, passed on without any shape check,
      or the fixed fallback when the call or the parse throws. A missing or
      empty text is parsed as "{}". */
  function GenerateAudit(p: BusinessProfile, gateway: Gateway, parse: Parser<AuditResult>): (r: AuditResult)
    ensures Call(gateway, AuditPrompt(p), true).Threw? ==> r == AuditFallback
    ensures Call(gateway, AuditPrompt(p), true).Returned? ==>
      var text := TextOr(Call(gateway, AuditPrompt(p), true).text, "{}");
      (parse(CleanJson(text)).None? ==> r == AuditFallback) &&
      (parse(CleanJson(text)).Some? ==> r == parse(CleanJson(text)).value)
  {
    ParseOutcome(Call(gateway, AuditPrompt(p), true), "{}", parse).GetOr(AuditFallback)
  }

  /** `generateKeywords`: the parsed list, or the empty list when the call or
      the parse throws. A missing or empty text is parsed as "[]". */
  function GenerateKeywords(p: BusinessProfile, gateway: Gateway, parse: Parser<seq<KeywordData>>): (r: seq<KeywordData>)
    ensures Call(gateway, KeywordPrompt(p), true).Threw? ==> r == []
    ensures Call(gateway, KeywordPrompt(p), true).Returned? ==>
      var text := TextOr(Call(gateway, KeywordPrompt(p), true).text, "[]");
      (parse(CleanJson(text)).None? ==> r == []) &&
      (parse(CleanJson(text)).Some? ==> r == parse(CleanJson(text)).value)
  {
    ParseOutcome(Call(gateway, KeywordPrompt(p), true), "[]", parse).GetOr([])
  }

  const BlogEmptyText := "Failed to generate content."
  const BlogErrorText := "Error generating content. Please try again."

  /** `generateBlogPost`: the raw text, never cleaned or parsed; one fixed
      message for a missing or empty text and another when the call throws. */
  function GenerateBlogPost(topic: string, p: BusinessProfile, gateway: Gateway): (r: string)
    ensures r != ""
    ensures Call(gateway, BlogPrompt(topic, p), false).Threw? ==> r == BlogErrorText
    ensures Call(gateway, BlogPrompt(topic, p), false).Returned? ==>
      r == TextOr(Call(gateway, BlogPrompt(topic, p), false).text, BlogEmptyText)
  {
    match Call(gateway, BlogPrompt(topic, p), false)
    case Threw => BlogErrorText
    case Returned(text) => TextOr(text, BlogEmptyText)
  }

  const FixEmptyText := "Could not generate fix."
  const FixErrorText := "Error generating fix."

  /** `fixIssueWithAI`: the raw text, or a fixed message for a missing or
      empty text, or another when the call throws. */
  function FixIssueWithAI(issue: SeoIssue, p: BusinessProfile, gateway: Gateway): (r: string)
    ensures r != ""
    ensures Call(gateway, FixPrompt(issue, p), false).Threw? ==> r == FixErrorText
    ensures Call(gateway, FixPrompt(issue, p), false).Returned? ==>
      r == TextOr(Call(gateway, FixPrompt(issue, p), false).text, FixEmptyText)
  {
    match Call(gateway, FixPrompt(issue, p), false)
    case Threw => FixErrorText
    case Returned(text) => TextOr(text, FixEmptyText)
  }

  /** `generateLocalStrategy`: the parsed blob, or `null` (None) when the call
      or the parse throws. A missing or empty text is parsed as "{}". */
  function GenerateLocalStrategy<V>(p: BusinessProfile, gateway: Gateway, parse: Parser<V>): (r: Option<V>)
    ensures Call(gateway, LocalPrompt(p), true).Threw? ==> r.None?
    ensures Call(gateway, LocalPrompt(p), true).Returned? ==>
      r == parse(CleanJson(TextOr(Call(gateway, LocalPrompt(p), true).text, "{}")))
  {
    ParseOutcome(Call(gateway, LocalPrompt(p), true), "{}", parse)
  }

  /** `generateBacklinkStrategy`: as for the local strategy, with its own prompt. */
  function GenerateBacklinkStrategy<V>(p: BusinessProfile, gateway: Gateway, parse: Parser<V>): (r: Option<V>)
    ensures Call(gateway, BacklinkPrompt(p), true).Threw? ==> r.None?
    ensures Call(gateway, BacklinkPrompt(p), true).Returned? ==>
      r == parse(CleanJson(TextOr(Call(gateway, BacklinkPrompt(p), true).text, "{}")))
  {
    ParseOutcome(Call(gateway, BacklinkPrompt(p), true), "{}", parse)
  }

  // ---------------------------------------------------------------------
  // Consequences

  /** No validator: whatever value the parser yields reaches the caller
      unchanged, whatever the response text was, even when there was none. */
  lemma AuditPassesParsedValueThrough(p: BusinessProfile, gateway: Gateway, v: AuditResult)
    requires Call(gateway, AuditPrompt(p), true).Returned?
    ensures GenerateAudit(p, gateway, _ => Some(v)) == v
  {
  }

  /** The audit fallback appears exactly when the call threw or the parser
      rejected the cleaned text, unless the parser itself produced a value
      equal to the fallback. */
  lemma AuditFallbackCases(p: BusinessProfile, gateway: Gateway, parse: Parser<AuditResult>)
    ensures var outcome := Call(gateway, AuditPrompt(p), true);
      (outcome.Threw? || parse(CleanJson(TextOr(outcome.text, "{}"))).None?)
      ==> GenerateAudit(p, gateway, parse) == AuditFallback
    ensures var outcome := Call(gateway, AuditPrompt(p), true);
      GenerateAudit(p, gateway, parse) == AuditFallback
      ==> outcome.Threw? || parse(CleanJson(TextOr(outcome.text, "{}"))) in {None, Some(AuditFallback)}
  {
  }

  /** A response with no text, or with empty text, is parsed as the empty
      object rather than replaced by the fallback; cleaning leaves "{}" as is. */
  lemma AuditAbsentTextParsedAsEmptyObject(p: BusinessProfile, gateway: Gateway, parse: Parser<AuditResult>)
    requires Call(gateway, AuditPrompt(p), true) in {Returned(None), Returned(Some(""))}
    ensures CleanJson("{}") == "{}"
    ensures GenerateAudit(p, gateway, parse) == parse(CleanJson("{}")).GetOr(AuditFallback)
  {
    assert TextOr(Call(gateway, AuditPrompt(p), true).text, "{}") == "{}";
    CleanJsonKeepsPlainText("{}");
  }

  /** A ```json-fenced response parses exactly as its trimmed body would. */
  lemma AuditFencedResponse(p: BusinessProfile, gateway: Gateway, parse: Parser<AuditResult>, body: string)
    requires Tick !in body
    requires Call(gateway, AuditPrompt(p), true) == Returned(Some(JsonFence + body + Fence))
    ensures parse(Trim(body)).Some? ==> GenerateAudit(p, gateway, parse) == parse(Trim(body)).value
    ensures parse(Trim(body)).None? ==> GenerateAudit(p, gateway, parse) == AuditFallback
  {
    CleanJsonUnwrapsFencedBlock(body);
  }

  /** A strategy is null exactly when the call threw or the cleaned text
      (or "{}") did not parse, and the two strategies differ only in their
      prompts. */
  lemma StrategyNullCases<V>(p: BusinessProfile, gateway: Gateway, parse: Parser<V>)
    ensures var outcome := Call(gateway, LocalPrompt(p), true);
      GenerateLocalStrategy(p, gateway, parse).None? <==>
      (outcome.Threw? || parse(CleanJson(TextOr(outcome.text, "{}"))).None?)
    ensures var outcome := Call(gateway, BacklinkPrompt(p), true);
      GenerateBacklinkStrategy(p, gateway, parse).None? <==>
      (outcome.Threw? || parse(CleanJson(TextOr(outcome.text, "{}"))).None?)
    ensures Call(gateway, LocalPrompt(p), true) == Call(gateway, BacklinkPrompt(p), true) ==>
      GenerateLocalStrategy(p, gateway, parse) == GenerateBacklinkStrategy(p, gateway, parse)
  {
  }

  /** A keyword response with no text, or with empty text, is parsed as the
      empty array; cleaning leaves "[]" as is. */
  lemma KeywordsAbsentTextParsedAsEmptyArray(p: BusinessProfile, gateway: Gateway, parse: Parser<seq<KeywordData>>)
    requires Call(gateway, KeywordPrompt(p), true) in {Returned(None), Returned(Some(""))}
    ensures CleanJson("[]") == "[]"
    ensures GenerateKeywords(p, gateway, parse) == parse(CleanJson("[]")).GetOr([])
  {
    assert TextOr(Call(gateway, KeywordPrompt(p), true).text, "[]") == "[]";
    CleanJsonKeepsPlainText("[]");
  }
}
