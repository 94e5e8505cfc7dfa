/**
 * The capability table of a report: each feature-gap entry becomes one row
 * whose badge is chosen from the lower-cased status word; an empty list
 * renders a single placeholder row instead.
 */
module FeatureMatrix {
  import opened Types
  import opened JsString

  /** The three badges a status word can earn. */
  datatype Badge = Operational | Limited | SignalGap

  /** Lower-cased status words that read as an operational capability. */
  predicate OperationalWord(s: string) {
    s == "available" || s == "yes"
  }

  /** Lower-cased status words that read as a partial capability. */
  predicate LimitedWord(s: string) {
    s == "limited" || s == "partial" || s == "beta"
  }

  /**
   * The badge for a status string. The comparison is made on the lower-cased
   * status, and every word that is neither operational nor limited, the empty
   * string and unknown words included, falls through to the gap badge.
   */
  function StatusBadge(status: string): (b: Badge)
    ensures b == Operational <==> OperationalWord(ToLower(status))
    ensures b == Limited <==> LimitedWord(ToLower(status))
    ensures b == SignalGap <==> !OperationalWord(ToLower(status)) && !LimitedWord(ToLower(status))
  {
    var s := ToLower(status);
    if s == "available" || s == "yes" then Operational
    else if s == "limited" || s == "partial" || s == "beta" then Limited
    else SignalGap
  }

  /** Two statuses that agree once lower-cased earn the same badge. */
  lemma BadgeIgnoresCase(status: string, other: string)
    requires ToLower(status) == ToLower(other)
    ensures StatusBadge(status) == StatusBadge(other)
  {
  }

  /** Lower-casing a status first never changes its badge. */
  lemma BadgeOfLowered(status: string)
    ensures StatusBadge(ToLower(status)) == StatusBadge(status)
  {
    ToLowerIdempotent(status);
  }

  /** The three words the schema declares land on three different badges. */
  lemma DeclaredStatusBadges()
    ensures StatusBadge("available") == Operational
    ensures StatusBadge("limited") == Limited
    ensures StatusBadge("missing") == SignalGap
  {
    assert ToLower("available") == "available";
    assert ToLower("limited") == "limited";
    assert ToLower("missing") == "missing";
  }

  /** Upper-case spellings are recognised; the empty status is a gap. */
  lemma MixedCaseStatuses()
    ensures StatusBadge("YES") == Operational
    ensures StatusBadge("Beta") == Limited
    ensures StatusBadge("") == SignalGap
  {
    assert ToLower("YES") == "yes";
    assert ToLower("Beta") == "beta";
  }

  /** A rendered table row: one per feature, or the placeholder. */
  datatype Row =
    | FeatureRow(feature: string, badge: Badge, description: string)
    | AwaitingSignal

  /** The rows of a feature list, one per entry, in input order. */
  function FeatureRows(features: seq<FeatureGap>): (rows: seq<Row>)
    ensures |rows| == |features|
    ensures forall i :: 0 <= i < |features| ==>
      rows[i] == FeatureRow(features[i].feature, StatusBadge(features[i].status), features[i].description)
  {
    if |features| == 0 then []
    else
      [FeatureRow(features[0].feature, StatusBadge(features[0].status), features[0].description)]
      + FeatureRows(features[1..])
  }

  /** The table body: the feature rows, or the single placeholder row. */
  function MatrixRows(features: seq<FeatureGap>): (rows: seq<Row>)
    ensures |features| == 0 <==> rows == [AwaitingSignal]
    ensures |features| > 0 ==> |rows| == |features| && AwaitingSignal !in rows
  {
    if |features| > 0 then FeatureRows(features) else [AwaitingSignal]
  }

  /** The rows of a concatenated list are the rows of each part, in order. */
  lemma {:induction false} FeatureRowsAppend(xs: seq<FeatureGap>, ys: seq<FeatureGap>)
    ensures FeatureRows(xs + ys) == FeatureRows(xs) + FeatureRows(ys)
  {
    if |xs| == 0 {
      assert xs + ys == ys;
    } else {
      assert (xs + ys)[1..] == xs[1..] + ys;
      FeatureRowsAppend(xs[1..], ys);
    }
  }
}
