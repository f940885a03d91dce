/**
 * The pure logic of the predictor: the input normalizer and the
 * sliding-window under-count predictor.
 */
module Logic {
  import opened Wrappers

  /** Number of most recent rounds the predictor looks at. */
  const WINDOW: nat := 20
  /** A round is "under" when its multiplier is strictly below this value. */
  const THRESHOLD: real := 2.0
  /** Default number of unders in the window that triggers an "Above" call. */
  const MIN_UNDERS_FOR_ABOVE: nat := 14

  datatype Label = Above | Under

  /** What the predictor returns: the call and the under count behind it. */
  datatype Prediction = Prediction(call: Label, underCount: nat)

  // ---------------------------------------------------------------------
  // Normalizer
  // ---------------------------------------------------------------------

  /**
   * A typed entry above 10 is read as a percentage-style number (187 for
   * 1.87x) and scaled down by 100; every other entry is kept as it is.
   */
  function Normalize(v: real): (r: real)
    ensures v > 10.0 ==> r * 100.0 == v
    ensures r == v <==> v <= 10.0
  {
    if v > 10.0 then v / 100.0 else v
  }

  /** A percentage-style entry up to 1000 lands at or below 10, so normalizing twice changes nothing more. */
  lemma NormalizeSettlesPercentEntries(v: real)
    requires v <= 1000.0
    ensures Normalize(v) <= 10.0
    ensures Normalize(Normalize(v)) == Normalize(v)
  {
  }

  /** Entries above 1000 are scaled down only once per entry: a second pass would scale them again. */
  lemma NormalizeNotIdempotentAbove1000(v: real)
    requires v > 1000.0
    ensures Normalize(Normalize(v)) != Normalize(v)
  {
  }

  /** The worked values of the normalizer, including the boundary 10. */
  lemma NormalizeExamples()
    ensures Normalize(187.0) == 1.87
    ensures Normalize(1.87) == 1.87
    ensures Normalize(10.0) == 10.0
    ensures Normalize(10.01) == 0.1001
  {
  }

  /** The history the manual-entry path would build from the entries `vs`, one entry at a time. */
  function NormalizeEach(vs: seq<real>): (r: seq<real>)
    ensures |r| == |vs|
    ensures forall i :: 0 <= i < |vs| ==> r[i] == Normalize(vs[i])
  {
    if vs == [] then [] else NormalizeEach(vs[..|vs| - 1]) + [Normalize(vs[|vs| - 1])]
  }

  /**
   * Manual entry normalizes while bulk upload does not: both paths give the
   * same history exactly when no entry exceeds 10.
   */
  lemma ManualEntriesAgreeWithUpload(vs: seq<real>)
    ensures NormalizeEach(vs) == vs <==> forall i :: 0 <= i < |vs| ==> vs[i] <= 10.0
  {
    if forall i :: 0 <= i < |vs| ==> vs[i] <= 10.0 {
      assert forall i :: 0 <= i < |vs| ==> NormalizeEach(vs)[i] == vs[i];
    } else {
      var i :| 0 <= i < |vs| && vs[i] > 10.0;
      assert NormalizeEach(vs)[i] != vs[i];
    }
  }

  // ---------------------------------------------------------------------
  // Predictor
  // ---------------------------------------------------------------------

  /** Number of entries of `s` strictly below `threshold`. */
  function CountUnder(s: seq<real>, threshold: real): (n: nat)
    ensures n <= |s|
    ensures n == 0 <==> forall i :: 0 <= i < |s| ==> s[i] >= threshold
  {
    if s == [] then 0
    else CountUnder(s[..|s| - 1], threshold) + (if s[|s| - 1] < threshold then 1 else 0)
  }

  /** The positions of `s` that hold an under: the reference meaning of the count. */
  ghost function UnderPositions(s: seq<real>, threshold: real): (p: set<int>)
  {
    set i | 0 <= i < |s| && s[i] < threshold
  }

  /** The count is the number of positions holding an under. */
  lemma {:induction false} CountUnderIsCardinality(s: seq<real>, threshold: real)
    ensures CountUnder(s, threshold) == |UnderPositions(s, threshold)|
  {
    if s != [] {
      var p, last := s[..|s| - 1], |s| - 1;
      CountUnderIsCardinality(p, threshold);
      assert last !in UnderPositions(p, threshold);
      if s[last] < threshold {
        assert UnderPositions(s, threshold) == UnderPositions(p, threshold) + {last};
      } else {
        assert UnderPositions(s, threshold) == UnderPositions(p, threshold);
      }
    }
  }

  /** Counting is additive over concatenation. */
  lemma {:induction false} CountUnderAppend(a: seq<real>, b: seq<real>, threshold: real)
    ensures CountUnder(a + b, threshold) == CountUnder(a, threshold) + CountUnder(b, threshold)
  {
    if b != [] {
      var b' := b[..|b| - 1];
      assert (a + b)[..|a + b| - 1] == a + b';
      CountUnderAppend(a, b', threshold);
    } else {
      assert a + b == a;
    }
  }

  /** A run of `n` equal entries holds `n` unders or none. */
  lemma {:induction false} CountUnderRun(n: nat, x: real, threshold: real)
    ensures CountUnder(seq(n, _ => x), threshold) == if x < threshold then n else 0
  {
    if n > 0 {
      assert seq(n, _ => x)[..n - 1] == seq(n - 1, _ => x);
      CountUnderRun(n - 1, x, threshold);
    }
  }

  /**
   * `data[-window:]` on a list with at least `window` entries: the last
   * `window` entries, or the whole list when `window` is 0 (in Python `-0`
   * is `0`, so the slice starts at the front).
   */
  function Recent(data: seq<real>, window: nat): (r: seq<real>)
    requires window <= |data|
    ensures |r| == if window == 0 then |data| else window
    ensures data[|data| - |r|..] == r
  {
    if window == 0 then data else data[|data| - window..]
  }

  /**
   * predict_from_unders: no call while the history is shorter than the
   * window; otherwise "Above" when the unders among the recent entries reach
   * `minUnders` (inclusive), "Under" otherwise, with the count.
   */
  function Predict(data: seq<real>, threshold: real, window: nat, minUnders: nat): (r: Option<Prediction>)
    ensures r.None? <==> |data| < window
    ensures r.Some? ==> r.value.underCount == CountUnder(Recent(data, window), threshold)
    ensures r.Some? ==> (r.value.call == Above <==> r.value.underCount >= minUnders)
    ensures r.Some? && window > 0 ==> r.value.underCount <= window
  {
    if |data| < window then None
    else
      var underCount := CountUnder(Recent(data, window), threshold);
      if underCount >= minUnders then Some(Prediction(Above, underCount))
      else Some(Prediction(Under, underCount))
  }

  /** Entries older than the window do not affect the call or the count. */
  lemma PredictIgnoresOlderEntries(older: seq<real>, data: seq<real>, threshold: real, window: nat, minUnders: nat)
    requires 0 < window <= |data|
    ensures Predict(older + data, threshold, window, minUnders) == Predict(data, threshold, window, minUnders)
  {
    assert Recent(older + data, window) == Recent(data, window);
  }

  /** Two histories that end in the same `window` entries get the same call. */
  lemma PredictDependsOnlyOnWindow(h1: seq<real>, h2: seq<real>, threshold: real, window: nat, minUnders: nat)
    requires 0 < window <= |h1| && window <= |h2|
    requires h1[|h1| - window..] == h2[|h2| - window..]
    ensures Predict(h1, threshold, window, minUnders) == Predict(h2, threshold, window, minUnders)
  {
  }

  /** Lowering the trigger can only turn an "Under" call into an "Above" one, never the reverse. */
  lemma PredictMonotoneInTrigger(data: seq<real>, threshold: real, window: nat, m1: nat, m2: nat)
    requires m1 <= m2 && |data| >= window
    ensures Predict(data, threshold, window, m2).value.call == Above ==>
              Predict(data, threshold, window, m1).value.call == Above
    ensures Predict(data, threshold, window, m1).value.underCount == Predict(data, threshold, window, m2).value.underCount
  {
  }

  /**
   * The worked calls: twenty rounds with fourteen unders and trigger 14 give
   * ("Above", 14); with thirteen unders they give ("Under", 13).
   */
  lemma {:induction false} PredictExamples()
    ensures Predict(seq(14, _ => 1.5) + seq(6, _ => 2.5), THRESHOLD, WINDOW, MIN_UNDERS_FOR_ABOVE) == Some(Prediction(Above, 14))
    ensures Predict(seq(13, _ => 1.5) + seq(7, _ => 2.5), THRESHOLD, WINDOW, MIN_UNDERS_FOR_ABOVE) == Some(Prediction(Under, 13))
  {
    CountUnderRun(14, 1.5, THRESHOLD);
    CountUnderRun(6, 2.5, THRESHOLD);
    CountUnderAppend(seq(14, _ => 1.5), seq(6, _ => 2.5), THRESHOLD);
    CountUnderRun(13, 1.5, THRESHOLD);
    CountUnderRun(7, 2.5, THRESHOLD);
    CountUnderAppend(seq(13, _ => 1.5), seq(7, _ => 2.5), THRESHOLD);
  }

  /** With fewer than `window` entries there is never a call, whatever the entries are. */
  lemma PredictWaitsForData(data: seq<real>, minUnders: nat)
    requires |data| < WINDOW
    ensures Predict(data, THRESHOLD, WINDOW, minUnders) == None
  {
  }
}
