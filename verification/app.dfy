/** The top-level session: current view, business profile, the stored audit
    result and the topic handed from the keyword view to the content view,
    with every transition the user interface can cause. */
module App {
  import opened Types
  import Layout
  import Content
  import Keywords

  datatype Session = Session(
    view: AppView,
    profile: BusinessProfile,
    auditResults: Option<AuditResult>,
    selectedTopic: string
  )

  /** The session when the application starts. */
  const Initial := Session(ONBOARDING, EmptyProfile, None, "")

  /** The five inputs of the onboarding form; there is none for competitors. */
  datatype ProfileInput = UrlInput | NameInput | IndustryInput | LocationInput | KeywordInput

  /** The profile field an input writes. */
  function FieldOf(p: BusinessProfile, input: ProfileInput): string {
    match input
    case UrlInput => p.websiteUrl
    case NameInput => p.businessName
    case IndustryInput => p.industry
    case LocationInput => p.location
    case KeywordInput => p.primaryKeywords
  }

  /** One onboarding input's change handler: a copy of the profile with one field replaced. */
  function EditProfile(p: BusinessProfile, input: ProfileInput, value: string): (q: BusinessProfile)
    ensures FieldOf(q, input) == value
    ensures forall other | other != input :: FieldOf(q, other) == FieldOf(p, other)
    ensures q.competitors == p.competitors
  {
    match input
    case UrlInput => p.(websiteUrl := value)
    case NameInput => p.(businessName := value)
    case IndustryInput => p.(industry := value)
    case LocationInput => p.(location := value)
    case KeywordInput => p.(primaryKeywords := value)
  }

  /** `handleOnboardingSubmit`: to the dashboard when URL and name are both
      non-empty, otherwise nothing changes. */
  function SubmitOnboarding(s: Session): (r: Session)
    ensures r.view == DASHBOARD || r == s
    ensures r != s ==> s.view != DASHBOARD
    ensures r.view == DASHBOARD <==>
      (s.profile.websiteUrl != "" && s.profile.businessName != "") || s.view == DASHBOARD
    ensures r.profile == s.profile && r.auditResults == s.auditResults && r.selectedTopic == s.selectedTopic
  {
    if s.profile.websiteUrl != "" && s.profile.businessName != "" then s.(view := DASHBOARD) else s
  }

  /** `handleGenerateContentFromKeyword`: topic and view change in one step. */
  function HandOffTopic(s: Session, topic: string): (r: Session)
    ensures r.selectedTopic == topic && r.view == CONTENT
    ensures r.profile == s.profile && r.auditResults == s.auditResults
  {
    s.(selectedTopic := topic, view := CONTENT)
  }

  /** Everything the user interface can do to the session. */
  datatype Event =
    | Edit(input: ProfileInput, value: string)  // an onboarding input changes
    | Submit                                    // the onboarding form is submitted
    | MenuClick(index: nat)                     // a side-menu entry is clicked
    | WritePost(topic: string)                  // "Write Post" in the keyword table
    | AuditStored(result: AuditResult)          // the audit view's setter is called

  /** One transition. An event whose control is not on screen in the
      current view changes nothing: the form exists only during onboarding,
      the menu only after it, "Write Post" only in the keyword view, and the
      audit setter only once the audit view can have mounted. A started
      audit may resolve after the user has moved on, so its result is
      stored in any view after onboarding. */
  function Step(s: Session, e: Event): (r: Session)
    ensures r.view == ONBOARDING ==> s.view == ONBOARDING
    ensures s.view != ONBOARDING ==> r.profile == s.profile
    ensures r.profile.competitors == s.profile.competitors
    ensures r.selectedTopic != s.selectedTopic ==> e.WritePost? && r.view == CONTENT
    ensures !e.AuditStored? ==> r.auditResults == s.auditResults
  {
    match e
    case Edit(input, value) =>
      if s.view == ONBOARDING then s.(profile := EditProfile(s.profile, input, value)) else s
    case Submit =>
      if s.view == ONBOARDING then SubmitOnboarding(s) else s
    case MenuClick(index) =>
      if s.view != ONBOARDING && Layout.Dispatch(index).Some? then s.(view := Layout.Dispatch(index).value) else s
    case WritePost(topic) =>
      if s.view == KEYWORDS then HandOffTopic(s, topic) else s
    case AuditStored(result) =>
      if s.view != ONBOARDING then s.(auditResults := Some(result)) else s
  }

  /** A sequence of transitions, first event first. */
  function Run(s: Session, events: seq<Event>): (r: Session)
    ensures |events| == 0 ==> r == s
    ensures (forall i | 0 <= i < |events| :: !events[i].AuditStored?) ==> r.auditResults == s.auditResults
    ensures (forall i | 0 <= i < |events| :: !events[i].WritePost?) ==> r.selectedTopic == s.selectedTopic
    decreases |events|
  {
    if |events| == 0 then s else Run(Step(s, events[0]), events[1..])
  }

  // ---------------------------------------------------------------------
  // Single-step properties

  /** The application starts on the onboarding form with an empty profile,
      no audit result and no topic. */
  lemma InitialSession()
    ensures Initial.view == ONBOARDING
    ensures forall input :: FieldOf(Initial.profile, input) == ""
    ensures Initial.profile.competitors == ""
    ensures Initial.auditResults.None? && Initial.selectedTopic == ""
  {
  }

  /** Submitting onboarding reaches the dashboard exactly when URL and name
      are both filled in; otherwise the session is unchanged. */
  lemma SubmitGate(s: Session)
    requires s.view == ONBOARDING
    ensures Step(s, Submit).view == DASHBOARD <==> s.profile.websiteUrl != "" && s.profile.businessName != ""
    ensures Step(s, Submit).view != DASHBOARD ==> Step(s, Submit) == s
    ensures Step(s, Submit).profile == s.profile
  {
  }

  /** An onboarding edit changes only the edited profile field. */
  lemma EditChangesOneField(s: Session, input: ProfileInput, value: string)
    requires s.view == ONBOARDING
    ensures FieldOf(Step(s, Edit(input, value)).profile, input) == value
    ensures forall other | other != input ::
      FieldOf(Step(s, Edit(input, value)).profile, other) == FieldOf(s.profile, other)
    ensures Step(s, Edit(input, value)).profile.competitors == s.profile.competitors
    ensures Step(s, Edit(input, value)).(profile := s.profile) == s
  {
  }

  /** A menu click moves to that entry's view and touches nothing else. */
  lemma NavigationFrame(s: Session, index: nat)
    requires s.view != ONBOARDING && index < |Layout.Menu|
    ensures Step(s, MenuClick(index)).view == Layout.Menu[index].id
    ensures Step(s, MenuClick(index)).(view := s.view) == s
  {
  }

  /** "Write Post" sets the topic and opens the content view in one step. */
  lemma HandOffIsAtomic(s: Session, topic: string)
    requires s.view == KEYWORDS
    ensures Step(s, WritePost(topic)).selectedTopic == topic
    ensures Step(s, WritePost(topic)).view == CONTENT
    ensures Step(s, WritePost(topic)).profile == s.profile
    ensures Step(s, WritePost(topic)).auditResults == s.auditResults
  {
  }

  /** Only the audit setter changes the stored audit result, and it stores
      the value it is given as a whole. */
  lemma OnlySetterWritesAudit(s: Session, e: Event)
    ensures Step(s, e).auditResults != s.auditResults ==> e.AuditStored?
    ensures e.AuditStored? && s.view != ONBOARDING ==> Step(s, e).auditResults == Some(e.result)
  {
  }

  // ---------------------------------------------------------------------
  // Properties of every run

  /** Once past onboarding, no sequence of events leads back to it. */
  lemma {:induction false} NeverBackToOnboarding(s: Session, events: seq<Event>)
    requires s.view != ONBOARDING
    ensures Run(s, events).view != ONBOARDING
    decreases |events|
  {
    if |events| > 0 {
      NeverBackToOnboarding(Step(s, events[0]), events[1..]);
    }
  }

  /** After onboarding the profile is frozen: no later event can edit it. */
  lemma {:induction false} ProfileFrozenAfterOnboarding(s: Session, events: seq<Event>)
    requires s.view != ONBOARDING
    ensures Run(s, events).profile == s.profile
    decreases |events|
  {
    if |events| > 0 {
      ProfileFrozenAfterOnboarding(Step(s, events[0]), events[1..]);
    }
  }

  /** No input writes competitors, so it stays empty in every session. */
  lemma {:induction false} CompetitorsStayEmpty(s: Session, events: seq<Event>)
    requires s.profile.competitors == ""
    ensures Run(s, events).profile.competitors == ""
    decreases |events|
  {
    if |events| > 0 {
      CompetitorsStayEmpty(Step(s, events[0]), events[1..]);
    }
  }

  /** Every session reached from the start has passed the onboarding gate
      if it is anywhere but onboarding. */
  lemma {:induction false} PastOnboardingHasUrlAndName(s: Session, events: seq<Event>)
    requires s.view == ONBOARDING || (s.profile.websiteUrl != "" && s.profile.businessName != "")
    ensures Run(s, events).view == ONBOARDING
            || (Run(s, events).profile.websiteUrl != "" && Run(s, events).profile.businessName != "")
    decreases |events|
  {
    if |events| > 0 {
      PastOnboardingHasUrlAndName(Step(s, events[0]), events[1..]);
    }
  }

  /** The facts above, for runs from the initial session. */
  lemma ReachableSessions(events: seq<Event>)
    ensures Run(Initial, events).profile.competitors == ""
    ensures Run(Initial, events).view == ONBOARDING
            || (Run(Initial, events).profile.websiteUrl != "" && Run(Initial, events).profile.businessName != "")
  {
    CompetitorsStayEmpty(Initial, events);
    PastOnboardingHasUrlAndName(Initial, events);
  }

  // ---------------------------------------------------------------------
  // View dispatch

  /** The one feature view drawn inside the frame, with the props it gets. */
  datatype Feature =
    | DashboardFeature(profile: BusinessProfile, auditResults: Option<AuditResult>)
    | AuditFeature(profile: BusinessProfile, auditResults: Option<AuditResult>)
    | KeywordsFeature(profile: BusinessProfile)
    | ContentFeature(profile: BusinessProfile, initialTopic: string)
    | LocalSeoFeature(profile: BusinessProfile)
    | BacklinksFeature(profile: BusinessProfile)

  /** The view a feature belongs to. */
  function ViewOf(f: Feature): AppView {
    match f
    case DashboardFeature(_, _) => DASHBOARD
    case AuditFeature(_, _) => AUDIT
    case KeywordsFeature(_) => KEYWORDS
    case ContentFeature(_, _) => CONTENT
    case LocalSeoFeature(_) => LOCAL_SEO
    case BacklinksFeature(_) => BACKLINKS
  }

  datatype Screen = OnboardingForm(profile: BusinessProfile) | Framed(currentView: AppView, feature: Feature)

  /** What the application draws for a session. */
  function Render(s: Session): (r: Screen)
    ensures r.OnboardingForm? <==> s.view == ONBOARDING
    ensures r.Framed? ==> r.currentView == s.view && ViewOf(r.feature) == s.view
                          && r.feature.profile == s.profile
    ensures s.view == CONTENT ==> r == Framed(CONTENT, ContentFeature(s.profile, s.selectedTopic))
    ensures (s.view == DASHBOARD || s.view == AUDIT) ==> r.feature.auditResults == s.auditResults
  {
    match s.view
    case ONBOARDING => OnboardingForm(s.profile)
    case DASHBOARD => Framed(s.view, DashboardFeature(s.profile, s.auditResults))
    case AUDIT => Framed(s.view, AuditFeature(s.profile, s.auditResults))
    case KEYWORDS => Framed(s.view, KeywordsFeature(s.profile))
    case CONTENT => Framed(s.view, ContentFeature(s.profile, s.selectedTopic))
    case LOCAL_SEO => Framed(s.view, LocalSeoFeature(s.profile))
    case BACKLINKS => Framed(s.view, BacklinksFeature(s.profile))
  }

  /** The audit view and the dashboard both see the stored result, so
      returning to the audit view shows the last result without a new request. */
  lemma AuditPersistsAcrossNavigation(s: Session, away: nat, back: nat)
    requires s.view == AUDIT && away < |Layout.Menu| && back < |Layout.Menu|
    requires Layout.Menu[back].id == AUDIT
    ensures Render(Run(s, [MenuClick(away), MenuClick(back)])) == Framed(AUDIT, AuditFeature(s.profile, s.auditResults))
  {
    var mid := Step(s, MenuClick(away));
    assert [MenuClick(away), MenuClick(back)][1..] == [MenuClick(back)];
    assert Run(s, [MenuClick(away), MenuClick(back)]) == Run(mid, [MenuClick(back)]);
    assert Run(mid, [MenuClick(back)]) == Run(Step(mid, MenuClick(back)), []);
  }

  /** The content view reached from the menu receives the last topic handed
      over from the keyword view, which stays in the session, or "" if none
      was ever handed over. */
  lemma ContentFromMenuGetsSelectedTopic(s: Session, index: nat)
    requires s.view != ONBOARDING && index < |Layout.Menu| && Layout.Menu[index].id == CONTENT
    ensures Render(Step(s, MenuClick(index))) == Framed(CONTENT, ContentFeature(s.profile, s.selectedTopic))
  {
  }

  /** End to end: "Write Post" on a keyword row opens the content view, and
      the content view mounts with that keyword as its topic. */
  lemma WritePostReachesContent(s: Session, table: Keywords.KeywordsView, row: nat)
    requires s.view == KEYWORDS
    requires Keywords.Body(table).Rows? && row < |Keywords.Body(table).rows|
    ensures var next := Step(s, WritePost(Keywords.WritePostTopic(table, row)));
      && Render(next).Framed?
      && Render(next).feature == ContentFeature(s.profile, table.keywords[row].keyword)
      && Content.Mount(Some(Render(next).feature.initialTopic)).topic == table.keywords[row].keyword
  {
  }
}
