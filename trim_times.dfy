/** FLSATTrimTimes: the window of a sound wave that one audio section plays,
    in whole milliseconds, and the tolerance-quantised key equality the
    trim-times map coalesces by. */
module TrimTimes {
  import opened Wrappers
  import opened Engine

  /** MinDifferenceMs as the hash uses it: it divides by it, so it is positive. */
  type Tolerance = t: int | t > 0 witness 1

  datatype TrimTimes = TrimTimes(startMs: int, endMs: int, sound: Option<SoundWave>)

  /** FLSATTrimTimes::Invalid. */
  const Invalid: TrimTimes := TrimTimes(-1, -1, None)

  /** GetUsageDurationMs. */
  function UsageDurationMs(w: TrimTimes): int {
    w.endMs - w.startMs
  }

  /** GetSoundTotalDurationMs: 0 without a sound. */
  function TotalDurationMs(w: TrimTimes): nat {
    if w.sound.Some? then w.sound.value.durationMs else 0
  }

  predicate IsValid(w: TrimTimes) {
    w.startMs >= 0 && w.endMs >= 0 && w.sound.Some?
  }

  /** The window runs past the sound's end by at least the tolerance. */
  predicate IsLooping(w: TrimTimes, tolerance: int) {
    var difference := w.endMs - TotalDurationMs(w);
    w.endMs > TotalDurationMs(w) && difference >= tolerance
  }

  /** The window already covers almost the whole sound from its start. The
      header calls this IsUsageSimilarToTotalDuration. */
  predicate IsSoundTrimmed(w: TrimTimes, tolerance: int) {
    var difference := TotalDurationMs(w) - UsageDurationMs(w);
    difference < tolerance && w.startMs < tolerance
  }

  predicate IsWithinTrimBounds(w: TrimTimes, other: TrimTimes) {
    w.startMs >= other.startMs && w.endMs <= other.endMs
  }

  /** GetMaxTrimTimes: the larger start and the larger end, Left's sound. */
  function GetMaxTrimTimes(left: TrimTimes, right: TrimTimes): TrimTimes {
    TrimTimes(
      if left.startMs >= right.startMs then left.startMs else right.startMs,
      if left.endMs >= right.endMs then left.endMs else right.endMs,
      left.sound)
  }

  /** C++ integer division, which truncates toward zero. */
  function TruncDiv(a: int, b: int): int
    requires b > 0
  {
    if a >= 0 then a / b else -((-a) / b)
  }

  /** The remainder of a truncating division has the sign of the dividend. */
  lemma TruncDivBounds(a: int, b: int)
    requires b > 0
    ensures a >= 0 ==> 0 <= a - TruncDiv(a, b) * b < b
    ensures a < 0 ==> -b < a - TruncDiv(a, b) * b <= 0
  {
  }

  /** `x / ToleranceMs * ToleranceMs` of GetTypeHash. */
  function Quantise(x: int, tolerance: Tolerance): int {
    TruncDiv(x, tolerance) * tolerance
  }

  /** The triple GetTypeHash combines; the combining XOR is not modelled. */
  function HashKey(w: TrimTimes, tolerance: Tolerance): (int, int, Option<SoundWave>) {
    (Quantise(w.startMs, tolerance), Quantise(w.endMs, tolerance), w.sound)
  }

  /** operator==: the hashes agree. */
  predicate KeyEq(a: TrimTimes, b: TrimTimes, tolerance: Tolerance) {
    HashKey(a, tolerance) == HashKey(b, tolerance)
  }

  // ---------------------------------------------------------------------------
  // Properties

  lemma InvalidIsNotValid()
    ensures !IsValid(Invalid)
  {
  }

  /** A window ending no later than the sound is never looping. */
  lemma NotLoopingWithinDuration(w: TrimTimes, tolerance: int)
    requires tolerance > 0
    ensures w.endMs <= TotalDurationMs(w) ==> !IsLooping(w, tolerance)
    ensures IsLooping(w, tolerance) <==> w.endMs - TotalDurationMs(w) >= tolerance
  {
  }

  /** A looping window is "already trimmed" whenever it starts near zero, so
      the executor skips it. */
  lemma LoopingNearStartCountsAsTrimmed(w: TrimTimes, tolerance: int)
    requires IsLooping(w, tolerance) && 0 <= w.startMs < tolerance
    ensures IsSoundTrimmed(w, tolerance)
  {
  }

  /** Both bounds of the merge dominate both inputs, the merge is
      commutative in the times, and it keeps the left sound. */
  lemma MaxTrimTimesWidens(left: TrimTimes, right: TrimTimes)
    ensures var m := GetMaxTrimTimes(left, right);
      && m.startMs >= left.startMs && m.startMs >= right.startMs
      && m.endMs >= left.endMs && m.endMs >= right.endMs
      && (m.startMs == left.startMs || m.startMs == right.startMs)
      && (m.endMs == left.endMs || m.endMs == right.endMs)
      && m.sound == left.sound
      && GetMaxTrimTimes(right, left) == m.(sound := right.sound)
  {
  }

  /** The merge is not a bounding-box union: the left window lies inside
      the merge only when its start is the larger one. */
  lemma MaxTrimTimesIsNotUnion(left: TrimTimes, right: TrimTimes)
    ensures IsWithinTrimBounds(left, GetMaxTrimTimes(left, right)) <==> left.startMs >= right.startMs
  {
  }

  /** Merging two well-formed windows (start <= end) gives a well-formed one. */
  lemma MaxTrimTimesKeepsOrder(left: TrimTimes, right: TrimTimes)
    requires left.startMs <= left.endMs && right.startMs <= right.endMs
    ensures GetMaxTrimTimes(left, right).startMs <= GetMaxTrimTimes(left, right).endMs
  {
  }

  lemma KeyEqIsEquivalence(a: TrimTimes, b: TrimTimes, c: TrimTimes, tolerance: Tolerance)
    ensures KeyEq(a, a, tolerance)
    ensures KeyEq(a, b, tolerance) <==> KeyEq(b, a, tolerance)
    ensures KeyEq(a, b, tolerance) && KeyEq(b, c, tolerance) ==> KeyEq(a, c, tolerance)
  {
  }

  /** Merging two equal keys gives a key equal to both, so widening a key of
      the map in place never moves it to another bucket. */
  lemma MaxTrimTimesKeepsKey(left: TrimTimes, right: TrimTimes, tolerance: Tolerance)
    requires KeyEq(left, right, tolerance)
    ensures KeyEq(GetMaxTrimTimes(left, right), left, tolerance)
    ensures KeyEq(GetMaxTrimTimes(left, right), right, tolerance)
  {
  }

  /** Equal valid keys have the same sound and both bounds closer than the
      tolerance. */
  lemma KeyEqIsClose(a: TrimTimes, b: TrimTimes, tolerance: Tolerance)
    requires IsValid(a) && IsValid(b) && KeyEq(a, b, tolerance)
    ensures a.sound == b.sound
    ensures a.startMs - b.startMs < tolerance && b.startMs - a.startMs < tolerance
    ensures a.endMs - b.endMs < tolerance && b.endMs - a.endMs < tolerance
  {
    TruncDivBounds(a.startMs, tolerance);
    TruncDivBounds(b.startMs, tolerance);
    TruncDivBounds(a.endMs, tolerance);
    TruncDivBounds(b.endMs, tolerance);
  }

  /** Key equality is not closeness: 49 and 50 are 1 ms apart and fall into
      different buckets of 50 ms. */
  lemma CloseButNotKeyEq(s: SoundWave)
    ensures !KeyEq(TrimTimes(49, 100, Some(s)), TrimTimes(50, 100, Some(s)), 50)
  {
    assert TruncDiv(49, 50) == 0;
    assert TruncDiv(50, 50) == 1;
  }

  /** Division truncates toward zero, so -1 and 49 share the bucket 0 although
      they are 50 ms apart: the closeness bound needs valid windows. */
  lemma NegativeStartsShareBucketZero(s: SoundWave)
    ensures KeyEq(TrimTimes(-1, 100, Some(s)), TrimTimes(49, 100, Some(s)), 50)
  {
    assert TruncDiv(-1, 50) == 0;
    assert TruncDiv(49, 50) == 0;
  }
}
