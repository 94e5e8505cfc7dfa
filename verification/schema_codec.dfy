/**
 * The bridge between the raw normaliser output and the typed report schema.
 * `AsAudit` reads a `Report` as an `AuditResult` when every passed-through
 * value has the declared shape; `ToJson` writes a typed record as the JSON
 * object the backend's response schema asks for. Together they state that
 * a well-formed backend answer is reproduced exactly by the normaliser.
 */
module SchemaCodec {
  import opened Wrappers
  import opened Json
  import opened Types
  import opened AuditService

  function EncodeStrings(xs: seq<string>): (r: seq<Json>)
    ensures |r| == |xs|
  {
    if |xs| == 0 then [] else [Str(xs[0])] + EncodeStrings(xs[1..])
  }

  function DecodeStrings(js: seq<Json>): Option<seq<string>> {
    if |js| == 0 then Some([])
    else match (js[0], DecodeStrings(js[1..]))
      case (Str(s), Some(rest)) => Some([s] + rest)
      case _ => None
  }

  /** Decoding undoes encoding, and only encodings decode. */
  lemma {:induction false} StringsRoundTrip(xs: seq<string>, js: seq<Json>)
    ensures DecodeStrings(EncodeStrings(xs)) == Some(xs)
    ensures DecodeStrings(js) == Some(xs) ==> EncodeStrings(xs) == js
    decreases |xs| + |js|
  {
    if |xs| > 0 {
      StringsRoundTrip(xs[1..], if |js| > 0 then js[1..] else js);
      assert [xs[0]] + xs[1..] == xs;
    } else {
      if |js| > 0 {
        StringsRoundTrip(xs, js[1..]);
      }
    }
  }

  /** A list-of-strings field of a JSON object. */
  function ListField(m: map<string, Json>, key: string): Option<seq<string>> {
    if key in m && m[key].Arr? then DecodeStrings(m[key].items) else None
  }

  function EncodeSwot(s: SwotData): Json {
    Obj(map[
      "strengths" := Arr(EncodeStrings(s.strengths)),
      "weaknesses" := Arr(EncodeStrings(s.weaknesses)),
      "opportunities" := Arr(EncodeStrings(s.opportunities)),
      "threats" := Arr(EncodeStrings(s.threats))])
  }

  function DecodeSwot(j: Json): Option<SwotData> {
    if j.Obj? then
      var a, b := ListField(j.fields, "strengths"), ListField(j.fields, "weaknesses");
      var c, d := ListField(j.fields, "opportunities"), ListField(j.fields, "threats");
      if a.Some? && b.Some? && c.Some? && d.Some? then Some(SwotData(a.value, b.value, c.value, d.value))
      else None
    else None
  }

  function EncodeBattlecard(b: BattlecardData): Json {
    Obj(map[
      "howToWin" := Arr(EncodeStrings(b.howToWin)),
      "commonObjections" := Arr(EncodeStrings(b.commonObjections)),
      "discoveryQuestions" := Arr(EncodeStrings(b.discoveryQuestions))])
  }

  function DecodeBattlecard(j: Json): Option<BattlecardData> {
    if j.Obj? then
      var a, b := ListField(j.fields, "howToWin"), ListField(j.fields, "commonObjections");
      var c := ListField(j.fields, "discoveryQuestions");
      if a.Some? && b.Some? && c.Some? then Some(BattlecardData(a.value, b.value, c.value))
      else None
    else None
  }

  function EncodeFeature(f: FeatureGap): Json {
    Obj(map["feature" := Str(f.feature), "status" := Str(f.status),
            "description" := Str(f.description)])
  }

  function DecodeFeature(j: Json): Option<FeatureGap> {
    if j.Obj? && "feature" in j.fields && "status" in j.fields && "description" in j.fields
       && j.fields["feature"].Str? && j.fields["status"].Str? && j.fields["description"].Str?
    then Some(FeatureGap(j.fields["feature"].s, j.fields["status"].s, j.fields["description"].s))
    else None
  }

  function EncodeFeatures(fs: seq<FeatureGap>): (r: seq<Json>)
    ensures |r| == |fs|
  {
    if |fs| == 0 then [] else [EncodeFeature(fs[0])] + EncodeFeatures(fs[1..])
  }

  function DecodeFeatures(js: seq<Json>): Option<seq<FeatureGap>> {
    if |js| == 0 then Some([])
    else match (DecodeFeature(js[0]), DecodeFeatures(js[1..]))
      case (Some(f), Some(rest)) => Some([f] + rest)
      case _ => None
  }

  function EncodeSentiment(s: SentimentAnalysis): Json {
    Obj(map["category" := Str(s.category), "score" := Num(s.score),
            "gripes" := Arr(EncodeStrings(s.gripes))])
  }

  function DecodeSentiment(j: Json): Option<SentimentAnalysis> {
    if j.Obj? && "category" in j.fields && "score" in j.fields
       && j.fields["category"].Str? && j.fields["score"].Num?
       && ListField(j.fields, "gripes").Some?
    then Some(SentimentAnalysis(j.fields["category"].s, j.fields["score"].n,
                                ListField(j.fields, "gripes").value))
    else None
  }

  function EncodeSentiments(ss: seq<SentimentAnalysis>): (r: seq<Json>)
    ensures |r| == |ss|
  {
    if |ss| == 0 then [] else [EncodeSentiment(ss[0])] + EncodeSentiments(ss[1..])
  }

  function DecodeSentiments(js: seq<Json>): Option<seq<SentimentAnalysis>> {
    if |js| == 0 then Some([])
    else match (DecodeSentiment(js[0]), DecodeSentiments(js[1..]))
      case (Some(s), Some(rest)) => Some([s] + rest)
      case _ => None
  }

  /** A list field written by the encoders reads back as the list. */
  lemma ListFieldOfEncoded(m: map<string, Json>, key: string, xs: seq<string>)
    requires key in m && m[key] == Arr(EncodeStrings(xs))
    ensures ListField(m, key) == Some(xs)
  {
    StringsRoundTrip(xs, []);
  }

  lemma SwotRoundTrip(s: SwotData)
    ensures DecodeSwot(EncodeSwot(s)) == Some(s)
  {
    var m := EncodeSwot(s).fields;
    ListFieldOfEncoded(m, "strengths", s.strengths);
    ListFieldOfEncoded(m, "weaknesses", s.weaknesses);
    ListFieldOfEncoded(m, "opportunities", s.opportunities);
    ListFieldOfEncoded(m, "threats", s.threats);
  }

  lemma BattlecardRoundTrip(b: BattlecardData)
    ensures DecodeBattlecard(EncodeBattlecard(b)) == Some(b)
  {
    var m := EncodeBattlecard(b).fields;
    ListFieldOfEncoded(m, "howToWin", b.howToWin);
    ListFieldOfEncoded(m, "commonObjections", b.commonObjections);
    ListFieldOfEncoded(m, "discoveryQuestions", b.discoveryQuestions);
  }

  lemma FeatureRoundTrip(f: FeatureGap)
    ensures DecodeFeature(EncodeFeature(f)) == Some(f)
  {
  }

  lemma {:induction false} FeaturesRoundTrip(fs: seq<FeatureGap>)
    ensures DecodeFeatures(EncodeFeatures(fs)) == Some(fs)
    decreases |fs|
  {
    if |fs| > 0 {
      var js := EncodeFeatures(fs);
      assert js[0] == EncodeFeature(fs[0]) && js[1..] == EncodeFeatures(fs[1..]);
      FeatureRoundTrip(fs[0]);
      FeaturesRoundTrip(fs[1..]);
      assert [fs[0]] + fs[1..] == fs;
    }
  }

  lemma SentimentRoundTrip(s: SentimentAnalysis)
    ensures DecodeSentiment(EncodeSentiment(s)) == Some(s)
  {
    ListFieldOfEncoded(EncodeSentiment(s).fields, "gripes", s.gripes);
  }

  lemma {:induction false} SentimentsRoundTrip(ss: seq<SentimentAnalysis>)
    ensures DecodeSentiments(EncodeSentiments(ss)) == Some(ss)
    decreases |ss|
  {
    if |ss| > 0 {
      var js := EncodeSentiments(ss);
      assert js[0] == EncodeSentiment(ss[0]) && js[1..] == EncodeSentiments(ss[1..]);
      SentimentRoundTrip(ss[0]);
      SentimentsRoundTrip(ss[1..]);
      assert [ss[0]] + ss[1..] == ss;
    }
  }

  /**
   * A report read against the schema: every text field a string, every list
   * element of the declared shape, `swot` and `battlecard` complete objects.
   * Media fields start absent.
   */
  function AsAudit(r: Report): Option<AuditResult> {
    if r.companyName.Str? && r.industry.Str? && r.summary.Str?
       && DecodeStrings(r.techStack).Some? && DecodeSwot(r.swot).Some?
       && DecodeBattlecard(r.battlecard).Some?
       && DecodeFeatures(r.featureGap).Some? && DecodeSentiments(r.sentiment).Some?
    then Some(AuditResult(
      r.id, r.domain, r.companyName.s, r.industry.s, r.summary.s,
      DecodeStrings(r.techStack).value, DecodeSwot(r.swot).value,
      DecodeBattlecard(r.battlecard).value, DecodeFeatures(r.featureGap).value,
      DecodeSentiments(r.sentiment).value, r.timestamp, Some(r.sourceUrls),
      None, None, None))
    else None
  }

  /** The backend-generated part of a record, as the response schema lays it out. */
  function ToJson(a: AuditResult): Json {
    Obj(map[
      "companyName" := Str(a.companyName),
      "industry" := Str(a.industry),
      "summary" := Str(a.summary),
      "techStack" := Arr(EncodeStrings(a.techStack)),
      "swot" := EncodeSwot(a.swot),
      "battlecard" := EncodeBattlecard(a.battlecard),
      "featureGap" := Arr(EncodeFeatures(a.featureGap)),
      "sentiment" := Arr(EncodeSentiments(a.sentiment))])
  }

  /** The report a well-formed answer normalises to, field for field. */
  function EncodedReport(a: AuditResult, urls: seq<string>): Report {
    Report(a.id, a.domain, a.timestamp, urls,
           Str(a.companyName), Str(a.industry), Str(a.summary),
           EncodeStrings(a.techStack), EncodeSwot(a.swot), EncodeBattlecard(a.battlecard),
           EncodeFeatures(a.featureGap), EncodeSentiments(a.sentiment))
  }

  lemma ToJsonTextProps(a: AuditResult)
    ensures Prop(ToJson(a), "companyName") == Some(Str(a.companyName))
    ensures Prop(ToJson(a), "industry") == Some(Str(a.industry))
    ensures Prop(ToJson(a), "summary") == Some(Str(a.summary))
  {
  }

  lemma ToJsonListProps(a: AuditResult)
    ensures Prop(ToJson(a), "techStack") == Some(Arr(EncodeStrings(a.techStack)))
    ensures Prop(ToJson(a), "featureGap") == Some(Arr(EncodeFeatures(a.featureGap)))
    ensures Prop(ToJson(a), "sentiment") == Some(Arr(EncodeSentiments(a.sentiment)))
  {
  }

  lemma ToJsonObjectProps(a: AuditResult)
    ensures Prop(ToJson(a), "swot") == Some(EncodeSwot(a.swot))
    ensures Prop(ToJson(a), "battlecard") == Some(EncodeBattlecard(a.battlecard))
  {
  }

  /** Any answer with the encoded fields normalises to the encoded report. */
  lemma NormalizeEncodedFields(j: Json, a: AuditResult, urls: seq<string>)
    requires !j.Null?
    requires a.companyName != "" && a.industry != "" && a.summary != ""
    requires Prop(j, "companyName") == Some(Str(a.companyName))
    requires Prop(j, "industry") == Some(Str(a.industry))
    requires Prop(j, "summary") == Some(Str(a.summary))
    requires Prop(j, "techStack") == Some(Arr(EncodeStrings(a.techStack)))
    requires Prop(j, "featureGap") == Some(Arr(EncodeFeatures(a.featureGap)))
    requires Prop(j, "sentiment") == Some(Arr(EncodeSentiments(a.sentiment)))
    requires Prop(j, "swot") == Some(EncodeSwot(a.swot))
    requires Prop(j, "battlecard") == Some(EncodeBattlecard(a.battlecard))
    ensures Normalize(j, a.domain, a.id, a.timestamp, urls) == Success(EncodedReport(a, urls))
  {
  }

  lemma NormalizeToJson(a: AuditResult, urls: seq<string>)
    requires a.companyName != "" && a.industry != "" && a.summary != ""
    ensures Normalize(ToJson(a), a.domain, a.id, a.timestamp, urls) == Success(EncodedReport(a, urls))
  {
    ToJsonTextProps(a);
    ToJsonListProps(a);
    ToJsonObjectProps(a);
    NormalizeEncodedFields(ToJson(a), a, urls);
  }

  lemma AsAuditEncoded(a: AuditResult)
    requires a.sourceUrls.Some?
    requires a.visualUrl.None? && a.audioUrl.None? && a.videoUrl.None?
    ensures AsAudit(EncodedReport(a, a.sourceUrls.value)) == Some(a)
  {
    StringsRoundTrip(a.techStack, []);
    SwotRoundTrip(a.swot);
    BattlecardRoundTrip(a.battlecard);
    FeaturesRoundTrip(a.featureGap);
    SentimentsRoundTrip(a.sentiment);
  }

  /**
   * Round trip: a record whose text fields are non-empty, written as the
   * backend's JSON and normalised with its own id, domain, timestamp and
   * source URLs, reads back as exactly that record.
   */
  lemma NormalizeRoundTrip(a: AuditResult)
    requires a.companyName != "" && a.industry != "" && a.summary != ""
    requires a.sourceUrls.Some?
    requires a.visualUrl.None? && a.audioUrl.None? && a.videoUrl.None?
    ensures var r := Normalize(ToJson(a), a.domain, a.id, a.timestamp, a.sourceUrls.value);
      r.Success? && AsAudit(r.value) == Some(a)
  {
    NormalizeToJson(a, a.sourceUrls.value);
    AsAuditEncoded(a);
  }

  /** A `swot` answer that holds only `strengths`. */
  const PartialSwot := Obj(map["strengths" := Arr([Str("fast")])])

  /** An otherwise well-formed answer carrying the partial `swot`. */
  const PartialAnswer := Obj(map[
    "companyName" := Str("Acme"), "industry" := Str("Widgets"), "summary" := Str("ok"),
    "techStack" := Arr([]), "swot" := PartialSwot, "battlecard" := Obj(map[]),
    "featureGap" := Arr([]), "sentiment" := Arr([])])

  /**
   * The normaliser does not repair a partial `swot`: an answer whose `swot`
   * holds only `strengths` keeps that object as it is, so the report does
   * not read as a schema record.
   */
  lemma PartialSwotKeptAsIs(domain: string, id: string, timestamp: string)
    ensures var r := Normalize(PartialAnswer, domain, id, timestamp, []);
      && r.Success?
      && r.value.companyName == Str("Acme")
      && r.value.swot == PartialSwot
      && r.value.battlecard == Obj(map[])
      && AsAudit(r.value).None?
  {
    assert Prop(PartialAnswer, "companyName") == Some(Str("Acme"));
    assert Prop(PartialAnswer, "swot") == Some(PartialSwot);
    assert Prop(PartialAnswer, "battlecard") == Some(Obj(map[]));
    assert ListField(PartialSwot.fields, "weaknesses").None?;
  }

  /**
   * An example rather than a property of the app: the schema only documents
   * its status words and score range and nothing in the app checks them, so
   * the model's reader accepts an undeclared status and a score above 100
   * unchanged.
   */
  lemma DocumentedRangesNotEnforced()
    ensures var f := DecodeFeature(Obj(map["feature" := Str("SSO"), "status" := Str("beta"), "description" := Str("")]));
      f.Some? && f.value.status == "beta" && !DeclaredStatus(f.value.status)
    ensures var s := DecodeSentiment(Obj(map["category" := Str("UX"), "score" := Num(150), "gripes" := Arr([])]));
      s.Some? && s.value.score == 150 && !DocumentedScore(s.value.score)
  {
    var m := map["category" := Str("UX"), "score" := Num(150), "gripes" := Arr([])];
    assert ListField(m, "gripes") == Some([]);
  }
}
