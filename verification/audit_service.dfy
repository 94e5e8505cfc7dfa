/**
 * `performCompetitorAudit` after the backend has answered: extract the JSON
 * object from the response text, collect the grounding source URLs, and
 * default every field of the report. The backend call is an input
 * (`Result<Response, string>`, failing with the backend's message), as are
 * the generated id and the timestamp.
 */
module AuditService {
  import opened Wrappers
  import opened Json
  import Extraction

  const ProbePrefix: string := "Strategic probe failed: "
  /**
   * The engine's message for reading `companyName` of `null`. The wording is
   * engine-specific; this is V8's, and other engines word it differently.
   */
  const NullReadMessage: string := "Cannot read properties of null (reading 'companyName')"
  const DefaultIndustry: string := "General Industry"
  const DefaultSummary: string := "Intelligence summary complete."

  const DefaultSwot: Json := Obj(map[
    "strengths" := Arr([]), "weaknesses" := Arr([]),
    "opportunities" := Arr([]), "threats" := Arr([])])

  const DefaultBattlecard: Json := Obj(map[
    "howToWin" := Arr([]), "commonObjections" := Arr([]),
    "discoveryQuestions" := Arr([])])

  /** A grounding chunk's optional `web` reference and its optional `uri`. */
  datatype WebSource = WebSource(uri: Option<string>)
  datatype GroundingChunk = GroundingChunk(web: Option<WebSource>)

  /**
   * What the backend returns: the response text (absent or empty when the
   * model said nothing) and the first candidate's grounding chunks (absent
   * when any link of the metadata chain is missing).
   */
  datatype Response = Response(text: Option<string>, groundingChunks: Option<seq<GroundingChunk>>)

  /**
   * The record the normaliser returns. Fields the source passes through
   * unchecked keep the parsed JSON value: any truthy value for the text
   * fields, any truthy value for `swot` and `battlecard`, and the elements of
   * the list fields as they were.
   */
  datatype Report = Report(
    id: string,
    domain: string,
    timestamp: string,
    sourceUrls: seq<string>,
    companyName: Json,
    industry: Json,
    summary: Json,
    techStack: seq<Json>,
    swot: Json,
    battlecard: Json,
    featureGap: seq<Json>,
    sentiment: seq<Json>)

  /** `chunk.web?.uri`, kept only when truthy. */
  function ChunkUri(c: GroundingChunk): Option<string> {
    if c.web.Some? && c.web.value.uri.Some? && c.web.value.uri.value != "" then c.web.value.uri
    else None
  }

  /** The truthy URIs of the chunks, in chunk order. */
  function Uris(chunks: seq<GroundingChunk>): (r: seq<string>)
    ensures |r| <= |chunks|
    ensures forall k :: 0 <= k < |r| ==> r[k] != ""
  {
    if |chunks| == 0 then []
    else
      var rest := Uris(chunks[1..]);
      match ChunkUri(chunks[0])
      case Some(u) => [u] + rest
      case None => rest
  }

  /** Filtering distributes over concatenation, so relative order is kept. */
  lemma {:induction false} UrisConcat(a: seq<GroundingChunk>, b: seq<GroundingChunk>)
    ensures Uris(a + b) == Uris(a) + Uris(b)
    decreases |a|
  {
    if |a| == 0 {
      assert a + b == b;
    } else {
      assert (a + b)[1..] == a[1..] + b;
      UrisConcat(a[1..], b);
    }
  }

  /**
   * The source URLs: the chunk URIs with absent and empty ones dropped, in
   * order, or the empty list when the grounding metadata is missing.
   */
  function SourceUrls(chunks: Option<seq<GroundingChunk>>): (r: seq<string>)
    ensures chunks.None? ==> r == []
    ensures chunks.Some? ==> |r| <= |chunks.value|
    ensures forall k :: 0 <= k < |r| ==> r[k] != ""
  {
    match chunks
    case None => []
    case Some(cs) => Uris(cs)
  }

  /** A chunk contributes exactly its truthy `web.uri`, if any. */
  lemma SourceUrlsAppend(cs: seq<GroundingChunk>, c: GroundingChunk)
    ensures SourceUrls(Some(cs + [c])) ==
      SourceUrls(Some(cs)) + (if ChunkUri(c).Some? then [ChunkUri(c).value] else [])
  {
    UrisConcat(cs, [c]);
    assert [c][1..] == [];
  }

  /** `parsed.key || fallback` for a text field. */
  function TextOr(v: Option<Json>, fallback: string): (r: Json)
    ensures Present(v) ==> r == v.value
    ensures !Present(v) ==> r == Str(fallback)
  {
    if Present(v) then v.value else Str(fallback)
  }

  /** `parsed.key || fallback` for an object field: the whole value or the whole default. */
  function ObjectOr(v: Option<Json>, fallback: Json): (r: Json)
    ensures Present(v) ==> r == v.value
    ensures !Present(v) ==> r == fallback
  {
    if Present(v) then v.value else fallback
  }

  /** `Array.isArray(parsed.key) ? parsed.key : []`. */
  function ListOr(v: Option<Json>): (r: seq<Json>)
    ensures IsArray(v) ==> r == v.value.items
    ensures !IsArray(v) ==> r == []
  {
    if IsArray(v) then v.value.items else []
  }

  /**
   * The returned object literal: `null` throws at the first property read;
   * any other parsed value is normalised field by field.
   */
  function Normalize(parsed: Json, domain: string, id: string, timestamp: string, sourceUrls: seq<string>)
    : (r: Result<Report, string>)
    ensures r.Failure? <==> parsed.Null?
    ensures r.Failure? ==> r.error == NullReadMessage
    ensures r.Success? ==>
      && r.value.id == id && r.value.domain == domain
      && r.value.timestamp == timestamp && r.value.sourceUrls == sourceUrls
  {
    if parsed.Null? then Failure(NullReadMessage)
    else
      Success(Report(
        id, domain, timestamp, sourceUrls,
        TextOr(Prop(parsed, "companyName"), domain),
        TextOr(Prop(parsed, "industry"), DefaultIndustry),
        TextOr(Prop(parsed, "summary"), DefaultSummary),
        ListOr(Prop(parsed, "techStack")),
        ObjectOr(Prop(parsed, "swot"), DefaultSwot),
        ObjectOr(Prop(parsed, "battlecard"), DefaultBattlecard),
        ListOr(Prop(parsed, "featureGap")),
        ListOr(Prop(parsed, "sentiment"))))
  }

  /**
   * Text fields keep any truthy parsed value and otherwise take their
   * placeholder; `industry` and `summary` are therefore always truthy, while
   * `companyName` is falsy exactly when both the parsed value and the domain are.
   */
  lemma NormalizedTextFields(parsed: Json, domain: string, id: string, timestamp: string, urls: seq<string>)
    requires !parsed.Null?
    ensures var r := Normalize(parsed, domain, id, timestamp, urls).value;
      && (Present(Prop(parsed, "companyName")) ==> r.companyName == Prop(parsed, "companyName").value)
      && (!Present(Prop(parsed, "companyName")) ==> r.companyName == Str(domain))
      && (Present(Prop(parsed, "industry")) ==> r.industry == Prop(parsed, "industry").value)
      && (!Present(Prop(parsed, "industry")) ==> r.industry == Str(DefaultIndustry))
      && (Present(Prop(parsed, "summary")) ==> r.summary == Prop(parsed, "summary").value)
      && (!Present(Prop(parsed, "summary")) ==> r.summary == Str(DefaultSummary))
      && Truthy(r.industry) && Truthy(r.summary)
      && (Truthy(r.companyName) <==> Present(Prop(parsed, "companyName")) || domain != "")
  {
  }

  /**
   * List fields are kept only when they are arrays, element for element;
   * anything else, a string included, becomes the empty list and is never
   * wrapped.
   */
  lemma NormalizedListFields(parsed: Json, domain: string, id: string, timestamp: string, urls: seq<string>)
    requires !parsed.Null?
    ensures var r := Normalize(parsed, domain, id, timestamp, urls).value;
      && (IsArray(Prop(parsed, "techStack")) ==> r.techStack == Prop(parsed, "techStack").value.items)
      && (!IsArray(Prop(parsed, "techStack")) ==> r.techStack == [])
      && (IsArray(Prop(parsed, "featureGap")) ==> r.featureGap == Prop(parsed, "featureGap").value.items)
      && (!IsArray(Prop(parsed, "featureGap")) ==> r.featureGap == [])
      && (IsArray(Prop(parsed, "sentiment")) ==> r.sentiment == Prop(parsed, "sentiment").value.items)
      && (!IsArray(Prop(parsed, "sentiment")) ==> r.sentiment == [])
  {
  }

  /**
   * `swot` and `battlecard` are replaced by the all-empty object only when
   * falsy; a truthy value, an object missing its sub-lists included, is kept
   * whole.
   */
  lemma NormalizedNestedObjects(parsed: Json, domain: string, id: string, timestamp: string, urls: seq<string>)
    requires !parsed.Null?
    ensures var r := Normalize(parsed, domain, id, timestamp, urls).value;
      && (Present(Prop(parsed, "swot")) ==> r.swot == Prop(parsed, "swot").value)
      && (!Present(Prop(parsed, "swot")) ==> r.swot == DefaultSwot)
      && (Present(Prop(parsed, "battlecard")) ==> r.battlecard == Prop(parsed, "battlecard").value)
      && (!Present(Prop(parsed, "battlecard")) ==> r.battlecard == DefaultBattlecard)
  {
  }

  /** `response.text || "{}"`. */
  function ResponseText(resp: Response): (t: string)
    ensures t != ""
    ensures resp.text.Some? && resp.text.value != "" ==> t == resp.text.value
  {
    if resp.text.Some? && resp.text.value != "" then resp.text.value else "{}"
  }

  /**
   * The whole of `performCompetitorAudit` after the backend call; every
   * failure reaches the caller as `ProbePrefix` followed by the message.
   */
  function PerformAudit(
    domain: string, id: string, timestamp: string,
    outcome: Result<Response, string>, parse: string -> Option<Json>)
    : (r: Result<Report, string>)
    ensures outcome.Failure? ==> r == Failure(ProbePrefix + outcome.error)
    ensures r.Failure? ==> ProbePrefix <= r.error
    ensures outcome.Success? ==>
      var parsed := parse(Extraction.Candidate(ResponseText(outcome.value)));
      && (parsed.None? ==> r == Failure(ProbePrefix + Extraction.ExtractionMessage))
      && (parsed.Some? && parsed.value.Null? ==> r == Failure(ProbePrefix + NullReadMessage))
      && (parsed.Some? && !parsed.value.Null? ==>
            r == Normalize(parsed.value, domain, id, timestamp,
                           SourceUrls(outcome.value.groundingChunks)))
  {
    match outcome
    case Failure(message) => Failure(ProbePrefix + message)
    case Success(resp) =>
      match Extraction.ExtractJson(ResponseText(resp), parse)
      case Failure(message) => Failure(ProbePrefix + message)
      case Success(parsed) =>
        var urls := SourceUrls(resp.groundingChunks);
        match Normalize(parsed, domain, id, timestamp, urls)
        case Failure(message) => Failure(ProbePrefix + message)
        case Success(report) => Success(report)
  }

  /**
   * An empty or absent response text is parsed as `{}`, so every field takes
   * its default; the stored domain is the argument verbatim.
   */
  lemma EmptyResponseDefaults(
    domain: string, id: string, timestamp: string, resp: Response, parse: string -> Option<Json>)
    requires resp.text.None? || resp.text.value == ""
    requires parse("{}") == Some(Obj(map[]))
    ensures var r := PerformAudit(domain, id, timestamp, Success(resp), parse);
      && r.Success?
      && r.value == Report(id, domain, timestamp, SourceUrls(resp.groundingChunks),
                           Str(domain), Str(DefaultIndustry), Str(DefaultSummary),
                           [], DefaultSwot, DefaultBattlecard, [], [])
  {
    assert ResponseText(resp) == "{}";
    assert Extraction.Candidate("{}") == "{}" by {
      Extraction.CandidateWhenOrdered("{}", 0, 1);
    }
    NormalizeEmptyObject(domain, id, timestamp, SourceUrls(resp.groundingChunks));
  }

  lemma NormalizeEmptyObject(domain: string, id: string, timestamp: string, urls: seq<string>)
    ensures Normalize(Obj(map[]), domain, id, timestamp, urls)
      == Success(Report(id, domain, timestamp, urls, Str(domain), Str(DefaultIndustry),
                        Str(DefaultSummary), [], DefaultSwot, DefaultBattlecard, [], []))
  {
  }

  /**
   * A response made only of prose, with no brace at all, that the parser
   * rejects ends in the rewrapped extraction error and no report.
   */
  lemma ProseOnlyResponseFails(
    domain: string, id: string, timestamp: string, resp: Response, parse: string -> Option<Json>)
    requires resp.text.Some? && resp.text.value != ""
    requires '{' !in resp.text.value
    requires parse(resp.text.value).None?
    ensures PerformAudit(domain, id, timestamp, Success(resp), parse)
      == Failure(ProbePrefix + Extraction.ExtractionMessage)
  {
    Extraction.CandidateWithoutBraces(resp.text.value);
  }
}

/**
 * `generateCompetitorImage` after the backend call: the first part with
 * inline data becomes a PNG data URL; anything else, including a thrown
 * exception (modelled as `None`), yields the fixed fallback picture.
 */
module CompetitorImage {
  import opened Wrappers

  const DataUrlPrefix: string := "data:image/png;base64,"
  const FallbackImage: string :=
    "https://images.unsplash.com/photo-1460925895917-afdab827c52f?auto=format&fit=crop&q=80&w=1200"

  /** A content part; `inlineData` carries the base64 payload when present. */
  datatype Part = Part(inlineData: Option<string>)

  /** The payload of the first part that has inline data. */
  function FirstInline(parts: seq<Part>): (r: Option<string>)
    ensures r.None? <==> forall k :: 0 <= k < |parts| ==> parts[k].inlineData.None?
    ensures r.Some? ==> exists k :: 0 <= k < |parts| && parts[k].inlineData == r &&
                                    forall m :: 0 <= m < k ==> parts[m].inlineData.None?
  {
    if |parts| == 0 then None
    else if parts[0].inlineData.Some? then parts[0].inlineData
    else
      var r := FirstInline(parts[1..]);
      assert forall k :: 0 <= k < |parts[1..]| ==> parts[1..][k] == parts[k + 1];
      if r.Some? then
        var k :| 0 <= k < |parts[1..]| && parts[1..][k].inlineData == r
          && forall m :: 0 <= m < k ==> parts[1..][m].inlineData.None?;
        assert parts[k + 1].inlineData == r;
        r
      else r
  }

  /**
   * The image URL. `parts` is `None` when the call or the read of the first
   * candidate's parts throws.
   */
  function ImageUrl(parts: Option<seq<Part>>): (url: string)
    ensures url == FallbackImage || DataUrlPrefix <= url
    ensures parts.None? ==> url == FallbackImage
    ensures parts.Some? && FirstInline(parts.value).Some? ==>
      url == DataUrlPrefix + FirstInline(parts.value).value
    ensures parts.Some? && FirstInline(parts.value).None? ==> url == FallbackImage
  {
    if parts.Some? && FirstInline(parts.value).Some? then DataUrlPrefix + FirstInline(parts.value).value
    else FallbackImage
  }

  /** Parts after the first one with inline data never matter. */
  lemma ImageUsesFirstInlinePart(before: seq<Part>, data: string, after: seq<Part>)
    requires forall k :: 0 <= k < |before| ==> before[k].inlineData.None?
    ensures ImageUrl(Some(before + [Part(Some(data))] + after)) == DataUrlPrefix + data
  {
    var parts := before + [Part(Some(data))] + after;
    var r := FirstInline(parts);
    assert parts[|before|].inlineData.Some?;
    var k :| 0 <= k < |parts| && parts[k].inlineData == r
      && forall m :: 0 <= m < k ==> parts[m].inlineData.None?;
    assert k == |before|;
  }
}
