/** The domain records shared by every view and by the AI gateway wrapper. */
module Types {

  /** A value that may be absent: JavaScript's `null`/`undefined`. */
  datatype Option<+T> = None | Some(value: T) {
    function GetOr(default: T): T {
      match this
      case Some(v) => v
      case None => default
    }
  }

  /** The seven screens of the application. */
  datatype AppView =
    | DASHBOARD
    | AUDIT
    | KEYWORDS
    | CONTENT
    | LOCAL_SEO
    | BACKLINKS
    | ONBOARDING

  /** Every view, in declaration order. */
  const AllViews: seq<AppView> :=
    [DASHBOARD, AUDIT, KEYWORDS, CONTENT, LOCAL_SEO, BACKLINKS, ONBOARDING]

  /** The enumeration is exactly the seven listed views, each listed once. */
  lemma AllViewsComplete(v: AppView)
    ensures v in AllViews
    ensures |AllViews| == 7
    ensures forall i, j :: 0 <= i < j < |AllViews| ==> AllViews[i] != AllViews[j]
  {
  }

  /** The business description entered at onboarding. All six fields are free text. */
  datatype BusinessProfile = BusinessProfile(
    websiteUrl: string,
    businessName: string,
    industry: string,
    location: string,
    primaryKeywords: string,
    competitors: string
  )

  const EmptyProfile := BusinessProfile("", "", "", "", "", "")

  datatype IssueType = CRITICAL | WARNING | NOTICE

  datatype IssueCategory = ON_PAGE | TECHNICAL

  /** One finding of an audit; `fixed` is an optional flag the UI never reads. */
  datatype SeoIssue = SeoIssue(
    id: string,
    issueType: IssueType,
    category: IssueCategory,
    title: string,
    description: string,
    recommendation: string,
    fixed: Option<bool>
  )

  datatype Intent = Transactional | Informational | Local | Navigational

  /** One keyword suggestion; `volume` is display text such as "1.2k". */
  datatype KeywordData = KeywordData(
    keyword: string,
    intent: Intent,
    volume: string,
    difficulty: int
  )

  datatype AuditResult = AuditResult(score: int, issues: seq<SeoIssue>, summary: string)

  /** The colour family of a badge, bar or ring; the exact CSS shade is not modelled. */
  datatype Colour = Green | Yellow | Orange | Red | Blue | Purple | Grey

  /** Issue-type colour, shared by the audit list and the dashboard's quick wins. */
  function IssueColour(t: IssueType): (c: Colour)
    ensures c == Red <==> t == CRITICAL
    ensures c == Orange <==> t == WARNING
    ensures c == Blue <==> t == NOTICE
  {
    match t
    case CRITICAL => Red
    case WARNING => Orange
    case NOTICE => Blue
  }
}
