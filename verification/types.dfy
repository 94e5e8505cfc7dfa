/**
 * The report schema: the records every component reads. Every list field is
 * required; `sourceUrls` and `visualUrl` are the declared optional fields.
 * `audioUrl` and `videoUrl` are not declared by the schema, but the report
 * viewer attaches them to a record at run time, so the model carries them as
 * optional fields too.
 */
module Types {
  import opened Wrappers

  datatype SwotData = SwotData(
    strengths: seq<string>,
    weaknesses: seq<string>,
    opportunities: seq<string>,
    threats: seq<string>)

  datatype BattlecardData = BattlecardData(
    howToWin: seq<string>,
    commonObjections: seq<string>,
    discoveryQuestions: seq<string>)

  /**
   * A feature-gap entry. The schema restricts `status` to three words, but
   * nothing enforces that at run time, so the model keeps any string and
   * states the restriction as `DeclaredStatus`.
   */
  datatype FeatureGap = FeatureGap(feature: string, status: string, description: string)

  /** A sentiment entry; `score` is documented as lying in 0..100. */
  datatype SentimentAnalysis = SentimentAnalysis(category: string, score: int, gripes: seq<string>)

  datatype AuditResult = AuditResult(
    id: string,
    domain: string,
    companyName: string,
    industry: string,
    summary: string,
    techStack: seq<string>,
    swot: SwotData,
    battlecard: BattlecardData,
    featureGap: seq<FeatureGap>,
    sentiment: seq<SentimentAnalysis>,
    timestamp: string,
    sourceUrls: Option<seq<string>>,
    visualUrl: Option<string>,
    audioUrl: Option<string>,
    videoUrl: Option<string>)

  /** The three top-level screens of the application. */
  datatype AppView = Dashboard | NewAudit | AuditDetail

  /** The status words the schema declares. */
  predicate DeclaredStatus(status: string) {
    status == "available" || status == "limited" || status == "missing"
  }

  /** The documented range of a sentiment score. */
  predicate DocumentedScore(score: int) {
    0 <= score <= 100
  }

  /** The string value each view carries in the enumeration. */
  function ViewName(v: AppView): (name: string)
    ensures name in {"dashboard", "new_audit", "audit_detail"}
  {
    match v
    case Dashboard => "dashboard"
    case NewAudit => "new_audit"
    case AuditDetail => "audit_detail"
  }

  /** The enumeration has exactly three members with pairwise distinct values. */
  lemma ViewNamesDistinct(v: AppView, w: AppView)
    ensures ViewName(v) == ViewName(w) <==> v == w
  {
  }

  /** JavaScript truthiness of an optional string field. */
  predicate IsSet(field: Option<string>) {
    field.Some? && field.value != ""
  }
}
