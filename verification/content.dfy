/** The content view: a topic field seeded from the session, a generate
    action guarded by a non-empty topic, and the generated article. */
module Content {
  import opened Types
  import opened GeminiService

  datatype ContentView = ContentView(topic: string, content: string, isGenerating: bool)

  /** `initialTopic || ''` */
  function TopicOr(initialTopic: Option<string>): (t: string)
    ensures initialTopic.None? ==> t == ""
    ensures initialTopic.Some? ==> t == initialTopic.value
  {
    if initialTopic.Some? && initialTopic.value != "" then initialTopic.value else ""
  }

  /** The effect on `initialTopic`: a non-empty value overwrites the topic. */
  function SyncTopic(v: ContentView, initialTopic: Option<string>): (w: ContentView)
    ensures initialTopic.Some? && initialTopic.value != "" ==> w.topic == initialTopic.value
    ensures initialTopic.None? || initialTopic.value == "" ==> w.topic == v.topic
    ensures w.content == v.content && w.isGenerating == v.isGenerating
  {
    if initialTopic.Some? && initialTopic.value != "" then v.(topic := initialTopic.value) else v
  }

  /** The state after mounting: initial state, then the effect's first run. */
  function Mount(initialTopic: Option<string>): (v: ContentView)
    ensures v.content == "" && !v.isGenerating
    ensures v.topic == initialTopic.GetOr("")
  {
    SyncTopic(ContentView(TopicOr(initialTopic), "", false), initialTopic)
  }

  /** Typing in the topic field. */
  function EditTopic(v: ContentView, topic: string): (w: ContentView)
    ensures w.topic == topic && w.content == v.content && w.isGenerating == v.isGenerating
  {
    v.(topic := topic)
  }

  /** First half of `handleGenerate`: nothing at all for an empty topic. */
  function BeginGenerate(v: ContentView): (w: ContentView)
    ensures v.topic == "" ==> w == v
    ensures v.topic != "" ==> w.isGenerating && w.topic == v.topic && w.content == v.content
  {
    if v.topic == "" then v else v.(isGenerating := true)
  }

  /** `handleGenerate` as one step: an empty topic does nothing; otherwise
      the article is replaced wholesale by the service's answer. */
  function HandleGenerate(v: ContentView, p: BusinessProfile, gateway: Gateway): (w: ContentView)
    ensures v.topic == "" ==> w == v
    ensures v.topic != "" ==> w.content == GenerateBlogPost(v.topic, p, gateway)
                               && !w.isGenerating && w.topic == v.topic
  {
    if v.topic == "" then v
    else BeginGenerate(v).(content := GenerateBlogPost(v.topic, p, gateway), isGenerating := false)
  }

  /** The generate button is enabled only while idle and with a topic. */
  predicate GenerateEnabled(v: ContentView) {
    !v.isGenerating && v.topic != ""
  }

  /** The empty-editor placeholder shows exactly while there is no article. */
  predicate ShowsPlaceholder(v: ContentView) {
    v.content == ""
  }

  /** Mounting with a topic shows that topic; mounting without one, or with
      an empty one, shows an empty field whose generate button is disabled. */
  lemma MountSeedsTopic(initialTopic: Option<string>)
    ensures Mount(initialTopic).topic == initialTopic.GetOr("")
    ensures GenerateEnabled(Mount(initialTopic)) <==> initialTopic.GetOr("") != ""
    ensures ShowsPlaceholder(Mount(initialTopic))
  {
  }

  /** A generation with a topic always ends with an article on screen, since
      the service never answers with empty text, and re-enables the button. */
  lemma GenerateShowsArticle(v: ContentView, p: BusinessProfile, gateway: Gateway)
    requires v.topic != ""
    ensures !GenerateEnabled(BeginGenerate(v))
    ensures !ShowsPlaceholder(HandleGenerate(v, p, gateway))
    ensures GenerateEnabled(HandleGenerate(v, p, gateway))
  {
  }
}
