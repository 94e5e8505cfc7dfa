/**
 * The sentiment cards: one card per category, coloured by score band, with
 * a bar whose width is the score as a percentage and one row per gripe.
 * The score label and the bar each carry their own copy of the threshold
 * test; the model keeps both copies and proves that they agree.
 */
module ReviewAnalysis {
  import opened Types

  /** The three colour bands. */
  datatype Band = Emerald | Amber | Rose

  /** The band a score falls in. */
  function ScoreBand(score: int): (b: Band)
    ensures b == Emerald <==> score > 70
    ensures b == Amber <==> 40 < score <= 70
    ensures b == Rose <==> score <= 40
  {
    if score > 70 then Emerald else if score > 40 then Amber else Rose
  }

  /** The text colour class of each band's score label. */
  function LabelClass(b: Band): string {
    match b
    case Emerald => "text-emerald-400"
    case Amber => "text-amber-400"
    case Rose => "text-rose-400"
  }

  /** The background colour class of each band's bar. */
  function BarClass(b: Band): string {
    match b
    case Emerald => "bg-emerald-500 shadow-[0_0_10px_rgba(16,185,129,0.5)]"
    case Amber => "bg-amber-500 shadow-[0_0_10px_rgba(245,158,11,0.5)]"
    case Rose => "bg-rose-500 shadow-[0_0_10px_rgba(244,63,94,0.5)]"
  }

  /** The bar classes have three different lengths. */
  function BarClassLength(b: Band): (n: nat)
    ensures n == |BarClass(b)|
  {
    match b
    case Emerald => 53
    case Amber => 51
    case Rose => 49
  }

  /** The score label's colour, chosen by its own threshold test. */
  function LabelColour(score: int): string {
    if score > 70 then "text-emerald-400" else if score > 40 then "text-amber-400" else "text-rose-400"
  }

  /** The bar's colour, chosen by a second copy of the threshold test. */
  function BarColour(score: int): string {
    if score > 70 then "bg-emerald-500 shadow-[0_0_10px_rgba(16,185,129,0.5)]" else if score > 40 then "bg-amber-500 shadow-[0_0_10px_rgba(245,158,11,0.5)]" else "bg-rose-500 shadow-[0_0_10px_rgba(244,63,94,0.5)]"
  }

  /** Both threshold tests pick the colour of the score's band, so label and bar always agree. */
  lemma LabelAndBarAgree(score: int)
    ensures LabelColour(score) == LabelClass(ScoreBand(score))
    ensures BarColour(score) == BarClass(ScoreBand(score))
  {
  }

  /** Distinct bands have distinct colours, so a colour identifies its band. */
  lemma ColoursIdentifyBand(b: Band, c: Band)
    ensures LabelClass(b) == LabelClass(c) <==> b == c
    ensures BarClass(b) == BarClass(c) <==> b == c
  {
    if b != c {
      assert LabelClass(b)[5] != LabelClass(c)[5];
      assert BarClassLength(b) != BarClassLength(c);
    }
  }

  /** Orders the bands from worst to best. */
  function Rank(b: Band): nat {
    match b
    case Rose => 0
    case Amber => 1
    case Emerald => 2
  }

  /** A higher score never lands in a lower band. */
  lemma BandMonotone(x: int, y: int)
    requires x <= y
    ensures Rank(ScoreBand(x)) <= Rank(ScoreBand(y))
  {
  }

  /** One rendered sentiment card. */
  datatype SentimentCard = SentimentCard(
    category: string,
    labelClass: string,
    barClass: string,
    barWidth: int,
    gripes: seq<string>)

  function CardOf(s: SentimentAnalysis): (c: SentimentCard)
    ensures c.category == s.category && c.gripes == s.gripes
    ensures c.barWidth == s.score
    ensures c.labelClass == LabelClass(ScoreBand(s.score))
    ensures c.barClass == BarClass(ScoreBand(s.score))
  {
    LabelAndBarAgree(s.score);
    SentimentCard(s.category, LabelColour(s.score), BarColour(s.score), s.score, s.gripes)
  }

  /** One card per sentiment entry, in order. */
  function Cards(entries: seq<SentimentAnalysis>): (cards: seq<SentimentCard>)
    ensures |cards| == |entries|
    ensures forall i :: 0 <= i < |entries| ==> cards[i] == CardOf(entries[i])
  {
    if |entries| == 0 then [] else [CardOf(entries[0])] + Cards(entries[1..])
  }

  /** The two colour classes of a card always name one and the same band. */
  lemma CardColoursMatch(s: SentimentAnalysis, b: Band)
    requires CardOf(s).labelClass == LabelClass(b)
    ensures CardOf(s).barClass == BarClass(b)
  {
    ColoursIdentifyBand(b, ScoreBand(s.score));
  }
}
