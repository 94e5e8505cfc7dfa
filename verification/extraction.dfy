/**
 * `extractJson`: pick the text between the first `{` and the last `}` of a
 * model response and parse it; parse the whole text only when one of the
 * two braces is missing. Any parse failure becomes one fixed error.
 * The JSON parser itself is a parameter (`parse`), returning `None` where
 * `JSON.parse` throws.
 */
module Extraction {
  import opened Wrappers
  import opened Json
  import opened JsString

  const ExtractionMessage: string :=
    "Strategic intelligence extraction failed. Please re-run the probe."

  /** The text handed to the parser. */
  function Candidate(text: string): string {
    var firstOpen := IndexOf(text, '{');
    var lastClose := LastIndexOf(text, '}');
    if firstOpen != -1 && lastClose != -1 then Substring(text, firstOpen, lastClose + 1)
    else text
  }

  /** `extractJson(text)` with `JSON.parse` given as `parse`. */
  function ExtractJson(text: string, parse: string -> Option<Json>): (r: Result<Json, string>)
    ensures r.Success? <==> parse(Candidate(text)).Some?
    ensures r.Success? ==> r.value == parse(Candidate(text)).value
    ensures r.Failure? ==> r.error == ExtractionMessage
  {
    match parse(Candidate(text))
    case Some(v) => Success(v)
    case None => Failure(ExtractionMessage)
  }

  /** `i` is the position of the first `{` of `text`. */
  predicate FirstOpenAt(text: string, i: int) {
    0 <= i < |text| && text[i] == '{' && '{' !in text[..i]
  }

  /** `j` is the position of the last `}` of `text`. */
  predicate LastCloseAt(text: string, j: int) {
    0 <= j < |text| && text[j] == '}' && '}' !in text[j + 1..]
  }

  lemma IndexOfUnique(text: string, i: int)
    requires FirstOpenAt(text, i)
    ensures IndexOf(text, '{') == i
  {
  }

  lemma LastIndexOfUnique(text: string, j: int)
    requires LastCloseAt(text, j)
    ensures LastIndexOf(text, '}') == j
  {
  }

  /**
   * With both braces present and in order, exactly the span from the first
   * `{` through the last `}` is parsed.
   */
  lemma CandidateWhenOrdered(text: string, i: int, j: int)
    requires FirstOpenAt(text, i) && LastCloseAt(text, j) && i <= j
    ensures Candidate(text) == text[i..j + 1]
  {
    IndexOfUnique(text, i);
    LastIndexOfUnique(text, j);
  }

  /**
   * With the last `}` before the first `{`, `substring` swaps its arguments
   * and the text strictly between the two braces is parsed.
   */
  lemma CandidateWhenReversed(text: string, i: int, j: int)
    requires FirstOpenAt(text, i) && LastCloseAt(text, j) && j < i
    ensures Candidate(text) == text[j + 1..i]
  {
    IndexOfUnique(text, i);
    LastIndexOfUnique(text, j);
  }

  /** With either brace missing, the whole text is parsed. */
  lemma CandidateWithoutBraces(text: string)
    requires '{' !in text || '}' !in text
    ensures Candidate(text) == text
  {
  }

  /** The reversed case on its smallest instance. */
  lemma ReversedBracesExample()
    ensures Candidate("}5{") == "5"
  {
    CandidateWhenReversed("}5{", 2, 0);
  }

  /**
   * An object wrapped in prose that contains no `{` before it and no `}`
   * after it is found exactly.
   */
  lemma EmbeddedObjectFound(before: string, obj: string, after: string)
    requires |obj| >= 2 && obj[0] == '{' && obj[|obj| - 1] == '}'
    requires '{' !in before && '}' !in after
    ensures Candidate(before + obj + after) == obj
  {
    var text := before + obj + after;
    var i, j := |before|, |before| + |obj| - 1;
    assert text[..i] == before;
    assert text[j + 1..] == after;
    CandidateWhenOrdered(text, i, j);
    assert text[i..j + 1] == obj;
  }

  /**
   * A failed parse of the brace span is final: the raw text is not tried,
   * even when it would parse.
   */
  lemma NoRetryOnRawText(text: string, i: int, j: int, parse: string -> Option<Json>)
    requires FirstOpenAt(text, i) && LastCloseAt(text, j) && i <= j
    requires parse(text[i..j + 1]).None?
    ensures ExtractJson(text, parse) == Failure(ExtractionMessage)
  {
    CandidateWhenOrdered(text, i, j);
  }
}
