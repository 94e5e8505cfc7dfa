/**
 * The report overview: an empty-state panel when there is no report, else
 * one card per report in list order. A card shows the rounded mean sentiment
 * score, the size of the technology list and the first strength; its delete
 * button asks for confirmation before it reports the id upwards.
 */
module Dashboard {
  import opened Wrappers
  import opened Types

  /** The left-to-right sum of the scores, as the reducer accumulates it. */
  function ScoreSum(entries: seq<SentimentAnalysis>): int {
    if |entries| == 0 then 0
    else ScoreSum(entries[..|entries| - 1]) + entries[|entries| - 1].score
  }

  /** The divisor of the mean: the entry count, or 1 for an empty list. */
  function Divisor(entries: seq<SentimentAnalysis>): (n: nat)
    ensures n >= 1
    ensures |entries| > 0 ==> n == |entries|
  {
    if |entries| == 0 then 1 else |entries|
  }

  /**
   * The displayed sentiment figure: the mean score rounded to the nearest
   * integer, halves rounding upwards (JavaScript's rounding of `sum / n`,
   * written in integers as `floor((2 * sum + n) / (2 * n))`). An empty list
   * divides by one, so it shows 0 instead of NaN.
   */
  function AverageSentiment(entries: seq<SentimentAnalysis>): (avg: int)
    ensures |entries| == 0 ==> avg == 0
    ensures RoundsMean(ScoreSum(entries), Divisor(entries), avg)
  {
    var n := Divisor(entries);
    var s := ScoreSum(entries);
    var q := (2 * s + n) / (2 * n);
    DivisionBounds(2 * s + n, 2 * n);
    q
  }

  /**
   * `avg` is `sum / n` rounded half up: the distance from `n * avg` to `sum`
   * is at most half of `n` below and strictly less than half above.
   */
  predicate RoundsMean(sum: int, n: nat, avg: int) {
    -(n as int) <= 2 * (sum - n * avg) < n
  }

  /** Euclidean quotient and remainder pin down the quotient from both sides. */
  lemma DivisionBounds(a: int, d: int)
    requires d > 0
    ensures d * (a / d) <= a < d * (a / d) + d
  {
  }

  /** At most one integer is the rounded mean, so the characterisation is exact. */
  lemma RoundingUnique(sum: int, n: nat, a: int, b: int)
    requires n >= 1
    requires RoundsMean(sum, n, a) && RoundsMean(sum, n, b)
    ensures a == b
  {
    if a < b {
      ProductStep(n, a, b);
    } else if b < a {
      ProductStep(n, b, a);
    }
  }

  lemma ProductStep(n: nat, a: int, b: int)
    requires a < b
    ensures n * a + n <= n * b
  {
    var k: nat := b - a - 1;
    assert n * b == n * a + n * k + n;
  }

  /** Scores in 0..100 add up to at most 100 per entry. */
  lemma {:induction false} ScoreSumBounds(entries: seq<SentimentAnalysis>)
    requires forall i :: 0 <= i < |entries| ==> DocumentedScore(entries[i].score)
    ensures 0 <= ScoreSum(entries) <= 100 * |entries|
  {
    if |entries| > 0 {
      var init := entries[..|entries| - 1];
      assert forall i :: 0 <= i < |init| ==> init[i] == entries[i];
      ScoreSumBounds(init);
    }
  }

  /** When every score is documented, the displayed mean is also in 0..100. */
  lemma AverageWithinRange(entries: seq<SentimentAnalysis>)
    requires forall i :: 0 <= i < |entries| ==> DocumentedScore(entries[i].score)
    ensures DocumentedScore(AverageSentiment(entries))
  {
    ScoreSumBounds(entries);
    var n := Divisor(entries);
    var s := ScoreSum(entries);
    var avg := AverageSentiment(entries);
    assert 0 <= s <= 100 * n;
    if avg < 0 {
      ProductStep(n, avg, 0);
    }
    if avg > 100 {
      ProductStep(n, 100, avg);
    }
  }

  /** A single entry shows its own (integer) score. */
  lemma SingleEntryAverage(entry: SentimentAnalysis)
    ensures AverageSentiment([entry]) == entry.score
  {
    var entries := [entry];
    assert entries[..0] == [];
    assert ScoreSum(entries) == entry.score;
    RoundingUnique(entry.score, 1, AverageSentiment(entries), entry.score);
  }

  /** What one report card displays. */
  datatype Card = Card(
    id: string,
    companyName: string,
    domain: string,
    sentiment: int,
    techCount: nat,
    headline: Option<string>)

  /** The first strength, or nothing when the list is empty (an empty quote on screen). */
  function Headline(strengths: seq<string>): (h: Option<string>)
    ensures h.None? <==> |strengths| == 0
    ensures h.Some? ==> h.value == strengths[0]
  {
    if |strengths| > 0 then Some(strengths[0]) else None
  }

  /** The card of one report. */
  function CardOf(a: AuditResult): (c: Card)
    ensures c.id == a.id && c.companyName == a.companyName && c.domain == a.domain
    ensures c.techCount == |a.techStack|
    ensures RoundsMean(ScoreSum(a.sentiment), Divisor(a.sentiment), c.sentiment)
    ensures c.headline.None? <==> |a.swot.strengths| == 0
    ensures c.headline.Some? ==> c.headline.value == a.swot.strengths[0]
  {
    Card(a.id, a.companyName, a.domain, AverageSentiment(a.sentiment), |a.techStack|, Headline(a.swot.strengths))
  }

  /** The overview screen. */
  datatype Screen = EmptyState | Grid(cards: seq<Card>)

  function Cards(audits: seq<AuditResult>): (cards: seq<Card>)
    ensures |cards| == |audits|
    ensures forall i :: 0 <= i < |audits| ==> cards[i] == CardOf(audits[i])
  {
    if |audits| == 0 then [] else [CardOf(audits[0])] + Cards(audits[1..])
  }

  /** The empty-state panel exactly when there is no report; otherwise one card per report. */
  function Render(audits: seq<AuditResult>): (screen: Screen)
    ensures screen == EmptyState <==> |audits| == 0
    ensures screen.Grid? ==>
      && |screen.cards| == |audits|
      && forall i :: 0 <= i < |audits| ==> screen.cards[i] == CardOf(audits[i])
  {
    if |audits| == 0 then EmptyState else Grid(Cards(audits))
  }

  /** A report with documented scores shows a sentiment figure in 0..100. */
  lemma CardSentimentInRange(a: AuditResult)
    requires forall i :: 0 <= i < |a.sentiment| ==> DocumentedScore(a.sentiment[i].score)
    ensures DocumentedScore(CardOf(a).sentiment)
  {
    AverageWithinRange(a.sentiment);
  }

  /**
   * A report with one sentiment entry and no strengths shows that entry's
   * score and an empty quote.
   */
  lemma SingleEntryCard(a: AuditResult)
    requires |a.sentiment| == 1 && |a.swot.strengths| == 0
    ensures CardOf(a).sentiment == a.sentiment[0].score
    ensures CardOf(a).headline.None?
  {
    assert a.sentiment == [a.sentiment[0]];
    SingleEntryAverage(a.sentiment[0]);
  }

  /** A report put at the front of the list gets the first card, ahead of the previous grid. */
  lemma NewReportCardFirst(a: AuditResult, audits: seq<AuditResult>)
    ensures Render([a] + audits) == Grid([CardOf(a)] + Cards(audits))
  {
    assert ([a] + audits)[1..] == audits;
  }

  /** The delete button: the id goes upwards only when the confirmation is accepted. */
  function DeleteRequest(confirmed: bool, id: string): (request: Option<string>)
    ensures request.Some? <==> confirmed
    ensures request.Some? ==> request.value == id
  {
    if confirmed then Some(id) else None
  }
}
