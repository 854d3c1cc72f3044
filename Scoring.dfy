/**
 * The scoring of useTypingGame: the positional match count (getValidCharCount and the
 * count inside calculateAccuracy), accuracy and words per minute. JavaScript's floating
 * point arithmetic and Math.round are replaced by exact integer arithmetic: times are
 * whole milliseconds, and Math.round(a / b) for b > 0 is floor((2a + b) / (2b)).
 */
module Scoring {
  import opened Wrappers

  /** Typed position `i` counts: `typedChars[i] === targetChars[i]`, which is never true past the target's end. */
  predicate MatchAt(typed: string, target: string, i: int)
  {
    0 <= i < |typed| && i < |target| && typed[i] == target[i]
  }

  /** The number of positions where the typed text agrees with the target. */
  function CountMatches(typed: string, target: string): (n: nat)
    ensures n <= |typed| && n <= |target|
    decreases |typed|
  {
    if |typed| == 0 then 0
    else CountMatches(typed[..|typed| - 1], target) + (if MatchAt(typed, target, |typed| - 1) then 1 else 0)
  }

  /** The matching positions as a set: the independent reading of "count of indices i with typed[i] == target[i]". */
  function MatchPositions(typed: string, target: string): set<int>
  {
    set i | 0 <= i < |typed| && MatchAt(typed, target, i)
  }

  lemma {:induction false} CountMatchesIsMatchPositions(typed: string, target: string)
    ensures CountMatches(typed, target) == |MatchPositions(typed, target)|
    decreases |typed|
  {
    if |typed| > 0 {
      var n := |typed| - 1;
      var pre := typed[..n];
      CountMatchesIsMatchPositions(pre, target);
      var extra: set<int> := if MatchAt(typed, target, n) then {n} else {};
      assert forall i :: 0 <= i < n ==> (MatchAt(typed, target, i) <==> MatchAt(pre, target, i));
      assert MatchPositions(typed, target) == MatchPositions(pre, target) + extra;
      assert MatchPositions(pre, target) !! extra;
    }
  }

  /**
   * Appending one character adds one exactly when that character matches the target at its
   * position: a mismatch earlier never stops later matches from counting.
   */
  lemma CountMatchesAppend(typed: string, target: string, c: char)
    ensures CountMatches(typed + [c], target)
         == CountMatches(typed, target) + (if |typed| < |target| && c == target[|typed|] then 1 else 0)
  {
    assert (typed + [c])[..|typed|] == typed;
  }

  /** Typed characters beyond the target's length never count. */
  lemma {:induction false} CountMatchesBeyondTarget(typed: string, target: string)
    requires |typed| > |target|
    ensures CountMatches(typed, target) == CountMatches(typed[..|target|], target)
    decreases |typed|
  {
    var n := |typed| - 1;
    assert !MatchAt(typed, target, n);
    if n > |target| {
      CountMatchesBeyondTarget(typed[..n], target);
      assert typed[..n][..|target|] == typed[..|target|];
    }
  }

  /** Math.round(num / den) for den > 0: the integer nearest num / den, halves rounded up. */
  function Round(num: int, den: int): (r: int)
    requires den > 0
    ensures 2 * (r * den) <= 2 * num + den < 2 * (r * den) + 2 * den
  {
    var q := (2 * num + den) / (2 * den);
    assert (2 * den) * q <= 2 * num + den < (2 * den) * q + 2 * den;
    assert (2 * den) * q == 2 * (q * den);
    q
  }

  lemma RoundBounds(num: int, den: int, lo: int, hi: int)
    requires den > 0
    requires lo * den <= num <= hi * den
    ensures lo <= Round(num, den) <= hi
  {
    var r := Round(num, den);
    assert (hi + 1) * den == hi * den + den;
    MulCancelLess(r, hi + 1, den);
    assert (r + 1) * den == r * den + den;
    MulCancelLess(lo, r + 1, den);
  }

  /** A positive factor can be cancelled from a strict inequality. */
  lemma MulCancelLess(a: int, b: int, d: int)
    requires d > 0 && a * d < b * d
    ensures a < b
  {
    assert (b - a) * d == b * d - a * d;
  }

  /** calculateAccuracy: 100 for nothing typed, otherwise the percentage of typed characters that match, rounded. */
  function Accuracy(typed: string, target: string): (a: int)
    ensures 0 <= a <= 100
    ensures |typed| == 0 ==> a == 100
    ensures |typed| > 0 ==> 2 * (a * |typed|) <= 200 * CountMatches(typed, target) + |typed| < 2 * (a * |typed|) + 2 * |typed|
    ensures CountMatches(typed, target) == |typed| ==> a == 100
  {
    if |typed| == 0 then 100
    else
      var correct := CountMatches(typed, target);
      RoundBounds(100 * correct, |typed|, 0, 100);
      if correct == |typed| then
        RoundBounds(100 * correct, |typed|, 100, 100);
        Round(100 * correct, |typed|)
      else
        Round(100 * correct, |typed|)
  }

  /** A start time counts as set only when it is truthy: `null` and 0 both read as "not started". */
  predicate StartTimeSet(startTime: Option<int>)
  {
    startTime.Some? && startTime.value != 0
  }

  /** The elapsed time the speed is divided by, in milliseconds: at least one second, one second when not started. */
  function EffectiveElapsedMs(startTime: Option<int>, now: int): (ms: int)
    ensures ms >= 1000
    ensures StartTimeSet(startTime) && now - startTime.value >= 1000 ==> ms == now - startTime.value
    ensures !StartTimeSet(startTime) || now - startTime.value <= 1000 ==> ms == 1000
  {
    if StartTimeSet(startTime) && now - startTime.value > 1000 then now - startTime.value else 1000
  }

  /** calculateWPM: valid characters per five, per elapsed minute, rounded. */
  function Wpm(validChars: nat, startTime: Option<int>, now: int): (w: int)
    ensures w >= 0
    ensures validChars == 0 ==> w == 0
    ensures EffectiveElapsedMs(startTime, now) == 1000 ==> w == 12 * validChars
    ensures w <= 12 * validChars
    // The value itself: Math.round(12000 * validChars / ms), as a bracket on the exact quotient.
    ensures 2 * (w * EffectiveElapsedMs(startTime, now)) <= 24000 * validChars + EffectiveElapsedMs(startTime, now)
              < 2 * (w * EffectiveElapsedMs(startTime, now)) + 2 * EffectiveElapsedMs(startTime, now)
  {
    var ms := EffectiveElapsedMs(startTime, now);
    var num := 12000 * validChars;
    assert 2 * num == 24000 * validChars;
    assert num <= 12 * validChars * ms by {
      assert 12 * validChars * (ms - 1000) >= 0;
    }
    RoundBounds(num, ms, 0, 12 * validChars);
    if ms == 1000 then
      RoundBounds(num, ms, 12 * validChars, 12 * validChars);
      Round(num, ms)
    else
      Round(num, ms)
  }

  /** getValidCharCount: the counting loop over the typed characters. */
  method GetValidCharCount(text: string, targetText: string) returns (validChars: nat)
    ensures validChars == CountMatches(text, targetText)
  {
    validChars := 0;
    var i := 0;
    while i < |text|
      invariant 0 <= i <= |text|
      invariant validChars == CountMatches(text[..i], targetText)
    {
      assert text[..i + 1][..i] == text[..i];
      if i < |targetText| && text[i] == targetText[i] {
        validChars := validChars + 1;
      }
      i := i + 1;
    }
    assert text[..|text|] == text;
  }

  /** calculateAccuracy: its own counting loop, then the rounded percentage. */
  method CalculateAccuracy(text: string, targetText: string) returns (accuracy: int)
    ensures accuracy == Accuracy(text, targetText)
    ensures 0 <= accuracy <= 100
  {
    var correctChars := 0;
    var totalCharsTyped := |text|;
    var i := 0;
    while i < totalCharsTyped
      invariant 0 <= i <= totalCharsTyped == |text|
      invariant correctChars == CountMatches(text[..i], targetText)
    {
      assert text[..i + 1][..i] == text[..i];
      if i < |targetText| && text[i] == targetText[i] {
        correctChars := correctChars + 1;
      }
      i := i + 1;
    }
    assert text[..|text|] == text;
    if totalCharsTyped == 0 {
      return 100;
    }
    accuracy := Round(100 * correctChars, totalCharsTyped);
  }

  /** calculateWPM: the valid count from getValidCharCount over the elapsed time. */
  method CalculateWpm(text: string, targetText: string, startTime: Option<int>, now: int) returns (wpm: int)
    ensures wpm == Wpm(CountMatches(text, targetText), startTime, now)
    ensures 0 <= wpm <= 12 * CountMatches(text, targetText)
  {
    var validChars := GetValidCharCount(text, targetText);
    var elapsedMs := if StartTimeSet(startTime) && now - startTime.value > 1000 then now - startTime.value else 1000;
    wpm := Round(12000 * validChars, elapsedMs);
  }

  /** Target "abc", typed "abx": two positions match and the accuracy is 67. */
  lemma AccuracyExample()
    ensures CountMatches("abx", "abc") == 2
    ensures Accuracy("abx", "abc") == 67
  {
    assert "abx"[..2] == "ab" && "ab"[..1] == "a" && "a"[..0] == "";
  }

  /** A typo does not stop later matches: "xbc" against "abc" still scores two of three. */
  lemma NonPrefixScoringExample()
    ensures CountMatches("xbc", "abc") == 2
  {
    assert "xbc"[..2] == "xb" && "xb"[..1] == "x" && "x"[..0] == "";
  }

  /** Started ten seconds ago with ten valid characters: 12 words per minute. */
  lemma WpmExample()
    ensures Wpm(10, Some(5000), 15000) == 12
  {
  }
}
