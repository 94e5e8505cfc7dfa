/**
 * The JavaScript string primitives the core relies on, with their exact
 * edge cases: `indexOf` and `lastIndexOf` report -1 for a missing character,
 * `substring` clamps both arguments and swaps them when they are reversed,
 * and `toLowerCase` (restricted here to ASCII letters).
 */
module JsString {

  /** `s.indexOf(c)`: the first position of `c`, or -1. */
  function IndexOf(s: string, c: char): (r: int)
    ensures -1 <= r < |s|
    ensures r == -1 <==> c !in s
    ensures r >= 0 ==> s[r] == c && c !in s[..r]
    decreases |s|
  {
    if |s| == 0 then -1
    else if s[0] == c then 0
    else
      var k := IndexOf(s[1..], c);
      assert k >= 0 ==> s[..k + 1] == [s[0]] + s[1..][..k];
      if k == -1 then -1 else k + 1
  }

  /** `s.lastIndexOf(c)`: the last position of `c`, or -1. */
  function LastIndexOf(s: string, c: char): (r: int)
    ensures -1 <= r < |s|
    ensures r == -1 <==> c !in s
    ensures r >= 0 ==> s[r] == c && c !in s[r + 1..]
    decreases |s|
  {
    if |s| == 0 then -1
    else if s[|s| - 1] == c then |s| - 1
    else
      var k := LastIndexOf(s[..|s| - 1], c);
      LastSplit(s, c, k);
      k
  }

  /** Membership in a non-empty string, and in any of its suffixes, splits at the last character. */
  lemma LastSplit(s: string, c: char, k: int)
    requires |s| > 0 && -1 <= k < |s| - 1
    ensures c in s <==> c in s[..|s| - 1] || s[|s| - 1] == c
    ensures c in s[k + 1..] <==> c in s[..|s| - 1][k + 1..] || s[|s| - 1] == c
  {
    assert s == s[..|s| - 1] + [s[|s| - 1]];
    assert s[k + 1..] == s[..|s| - 1][k + 1..] + [s[|s| - 1]];
  }

  /** The clamping `substring` applies to each argument. */
  function Clamp(x: int, len: nat): (r: nat)
    ensures r <= len
    ensures 0 <= x <= len ==> r == x
  {
    if x < 0 then 0 else if x > len then len else x
  }

  /**
   * `s.substring(start, end)`: the characters between the two clamped
   * positions, whichever of them is smaller.
   */
  function Substring(s: string, start: int, end: int): (r: string)
    ensures var a, b := Clamp(start, |s|), Clamp(end, |s|);
      && |r| == (if a <= b then b - a else a - b)
      && forall i :: 0 <= i < |r| ==> r[i] == s[(if a <= b then a else b) + i]
  {
    var a, b := Clamp(start, |s|), Clamp(end, |s|);
    if a <= b then s[a..b] else s[b..a]
  }

  /** Swapping the arguments of `substring` makes no difference. */
  lemma SubstringSymmetric(s: string, start: int, end: int)
    ensures Substring(s, start, end) == Substring(s, end, start)
  {
  }

  /** `c.toLowerCase()` on one character; only ASCII letters change. */
  function LowerChar(c: char): char {
    if 'A' <= c <= 'Z' then (c as int + 32) as char else c
  }

  /** `s.toLowerCase()`, character by character. */
  function ToLower(s: string): (r: string)
    ensures |r| == |s|
    ensures forall i :: 0 <= i < |s| ==> r[i] == LowerChar(s[i])
  {
    seq(|s|, i requires 0 <= i < |s| => LowerChar(s[i]))
  }

  /** Lowering is idempotent. */
  lemma ToLowerIdempotent(s: string)
    ensures ToLower(ToLower(s)) == ToLower(s)
  {
  }
}
