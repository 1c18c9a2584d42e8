/** The keyword view: a list loaded on mount and replaced on each refresh,
    its badge and bar colours, and the "Write Post" handoff. */
module Keywords {
  import opened Types
  import opened GeminiService

  datatype KeywordsView = KeywordsView(keywords: seq<KeywordData>, loading: bool)

  /** The state `useState` gives before the mount effect runs. */
  const Initial := KeywordsView([], false)

  /** The mount effect loads when the list is empty. */
  predicate LoadsOnMount(v: KeywordsView) {
    |v.keywords| == 0
  }

  /** First half of `handleLoadKeywords`: the request is out. */
  function BeginLoad(v: KeywordsView): (w: KeywordsView)
    ensures w.loading && w.keywords == v.keywords
  {
    v.(loading := true)
  }

  /** Second half of `handleLoadKeywords`: the list is replaced by the data. */
  function FinishLoad(v: KeywordsView, data: seq<KeywordData>): (w: KeywordsView)
    ensures w.keywords == data && !w.loading
  {
    KeywordsView(data, false)
  }

  /** `handleLoadKeywords` as one step, with the list the service returns. */
  function Load(v: KeywordsView, p: BusinessProfile, gateway: Gateway, parse: Parser<seq<KeywordData>>): (w: KeywordsView)
    ensures w.keywords == GenerateKeywords(p, gateway, parse)
    ensures RefreshEnabled(w) && Body(w) == Rows(w.keywords)
  {
    FinishLoad(BeginLoad(v), GenerateKeywords(p, gateway, parse))
  }

  /** The state right after mounting: the effect has started a load. */
  function Mount(): (v: KeywordsView)
    ensures v.loading && v.keywords == []
  {
    if LoadsOnMount(Initial) then BeginLoad(Initial) else Initial
  }

  /** The "Find More Ideas" button is enabled only while idle. */
  predicate RefreshEnabled(v: KeywordsView) {
    !v.loading
  }

  /** A click on the refresh button; a disabled button does nothing. */
  function ClickRefresh(v: KeywordsView): (w: KeywordsView)
    ensures v.loading ==> w == v
    ensures !v.loading ==> w.loading && w.keywords == v.keywords
  {
    if RefreshEnabled(v) then BeginLoad(v) else v
  }

  datatype TableBody = LoadingRow | Rows(rows: seq<KeywordData>)

  /** The table body: the loading row only for a first load, otherwise the
      rows in list order, including while a refresh is in flight. */
  function Body(v: KeywordsView): (b: TableBody)
    ensures b == LoadingRow <==> v.loading && |v.keywords| == 0
    ensures b.Rows? ==> b.rows == v.keywords
  {
    if v.loading && |v.keywords| == 0 then LoadingRow else Rows(v.keywords)
  }

  /** A load replaces the list wholesale: nothing of the old list survives,
      and a failed load leaves it empty. */
  lemma LoadReplacesList(v: KeywordsView, p: BusinessProfile, gateway: Gateway, parse: Parser<seq<KeywordData>>)
    ensures Load(v, p, gateway, parse).keywords == GenerateKeywords(p, gateway, parse)
    ensures |Load(v, p, gateway, parse).keywords| == |GenerateKeywords(p, gateway, parse)|
    ensures Call(gateway, KeywordPrompt(p), true).Threw? ==> Load(v, p, gateway, parse).keywords == []
    ensures !Load(v, p, gateway, parse).loading
  {
  }

  /** A fresh mount shows the loading row, and the load it started fills the table. */
  lemma MountLoads(p: BusinessProfile, gateway: Gateway, parse: Parser<seq<KeywordData>>)
    ensures LoadsOnMount(Initial)
    ensures Body(Mount()) == LoadingRow
    ensures !RefreshEnabled(Mount())
    ensures Body(FinishLoad(Mount(), GenerateKeywords(p, gateway, parse)))
            == Rows(GenerateKeywords(p, gateway, parse))
  {
  }

  /** Colour of the difficulty bar. */
  function DifficultyColour(difficulty: int): (c: Colour)
    ensures c == Red <==> difficulty > 70
    ensures c == Yellow <==> 40 < difficulty <= 70
    ensures c == Green <==> difficulty <= 40
  {
    if difficulty > 70 then Red else if difficulty > 40 then Yellow else Green
  }

  /** Colour of the intent badge; Navigational falls to the grey default. */
  function IntentColour(intent: Intent): (c: Colour)
    ensures c == Green <==> intent == Transactional
    ensures c == Blue <==> intent == Informational
    ensures c == Purple <==> intent == Local
    ensures c == Grey <==> intent == Navigational
  {
    match intent
    case Transactional => Green
    case Informational => Blue
    case Local => Purple
    case Navigational => Grey
  }

  /** "Write Post" on a displayed row hands exactly that row's keyword on. */
  function WritePostTopic(v: KeywordsView, row: nat): (topic: string)
    requires Body(v).Rows? && row < |Body(v).rows|
    ensures topic == v.keywords[row].keyword
  {
    Body(v).rows[row].keyword
  }
}
