/**
 * The temporal side of the coordinate processor, on values: matching a box
 * against the previous frame's boxes, Python's `round`, the weighted average
 * that smooths a matched box, and one step of `smooth_human_coordinates`
 * (including the hysteresis counter for frames without detections).
 * The `CoordinateProcessor` class runs these steps on its own fields.
 */
module Tracker {
  import opened Wrappers
  import opened JsonValues
  import opened Geometry

  // ---------------------------------------------------------------------------
  // find_most_similar_human

  /**
   * `(max_similarity, most_similar_human)` after the loop has visited `cands`:
   * a candidate replaces the current best only when its score is strictly larger.
   */
  function BestMatch(h: Box, cands: seq<Box>, canvas: Canvas, sqrt: real -> real): (real, Option<Box>)
    decreases |cands|
  {
    if cands == [] then (0.0, None)
    else
      var prior := BestMatch(h, cands[..|cands| - 1], canvas, sqrt);
      var score := Similarity(h, cands[|cands| - 1], canvas, sqrt);
      if score > prior.0 then (score, Some(cands[|cands| - 1])) else prior
  }

  /**
   * What the loop promises after visiting `cands`: `m` is the highest score
   * (never below the initial 0), no candidate is kept when no score is positive,
   * and a kept candidate is the first one with score `m`.
   */
  ghost predicate IsBestMatch(h: Box, cands: seq<Box>, canvas: Canvas, sqrt: real -> real, m: real, best: Option<Box>) {
    && 0.0 <= m
    && (forall j :: 0 <= j < |cands| ==> Similarity(h, cands[j], canvas, sqrt) <= m)
    && (best.None? <==> forall j :: 0 <= j < |cands| ==> Similarity(h, cands[j], canvas, sqrt) <= 0.0)
    && (best.None? ==> m == 0.0)
    && (best.Some? ==> exists j :: 0 <= j < |cands| && cands[j] == best.value
                        && Similarity(h, cands[j], canvas, sqrt) == m
                        && forall k :: 0 <= k < j ==> Similarity(h, cands[k], canvas, sqrt) < m)
  }

  /** A candidate scoring above the best so far becomes the new best. */
  lemma BestMatchReplaced(h: Box, init: seq<Box>, c: Box, canvas: Canvas, sqrt: real -> real, m: real, best: Option<Box>)
    requires IsBestMatch(h, init, canvas, sqrt, m, best)
    requires Similarity(h, c, canvas, sqrt) > m
    ensures IsBestMatch(h, init + [c], canvas, sqrt, Similarity(h, c, canvas, sqrt), Some(c))
  {
    var cands := init + [c];
    assert forall j :: 0 <= j < |init| ==> cands[j] == init[j];
    assert cands[|init|] == c;
  }

  /** A candidate scoring no more than the best so far leaves the best in place. */
  lemma BestMatchKept(h: Box, init: seq<Box>, c: Box, canvas: Canvas, sqrt: real -> real, m: real, best: Option<Box>)
    requires IsBestMatch(h, init, canvas, sqrt, m, best)
    requires Similarity(h, c, canvas, sqrt) <= m
    ensures IsBestMatch(h, init + [c], canvas, sqrt, m, best)
  {
    var cands := init + [c];
    var n := |init|;
    assert forall j :: 0 <= j < n ==> cands[j] == init[j];
    assert cands[n] == c;
    if best.Some? {
      var j :| 0 <= j < n && init[j] == best.value && Similarity(h, init[j], canvas, sqrt) == m
               && forall k :: 0 <= k < j ==> Similarity(h, init[k], canvas, sqrt) < m;
      assert cands[j] == best.value;
    }
  }

  lemma InitLast<T>(s: seq<T>)
    requires s != []
    ensures s[..|s| - 1] + [s[|s| - 1]] == s
  {
  }

  /** The loop keeps its promise over any list of candidates. */
  lemma {:induction false} BestMatchSpec(h: Box, cands: seq<Box>, canvas: Canvas, sqrt: real -> real)
    ensures IsBestMatch(h, cands, canvas, sqrt, BestMatch(h, cands, canvas, sqrt).0, BestMatch(h, cands, canvas, sqrt).1)
    decreases |cands|
  {
    if cands != [] {
      var init := cands[..|cands| - 1];
      BestMatchSpec(h, init, canvas, sqrt);
      var (m, best) := BestMatch(h, init, canvas, sqrt);
      if Similarity(h, cands[|cands| - 1], canvas, sqrt) > m {
        BestMatchReplaced(h, init, cands[|cands| - 1], canvas, sqrt, m, best);
      } else {
        BestMatchKept(h, init, cands[|cands| - 1], canvas, sqrt, m, best);
      }
      InitLast(cands);
    }
  }

  /** `find_most_similar_human`: the best candidate when its score beats the threshold. */
  function MostSimilar(h: Box, cands: seq<Box>, canvas: Canvas, threshold: real, sqrt: real -> real): (r: Option<Box>)
    ensures r.Some? ==> r.value in cands && Similarity(h, r.value, canvas, sqrt) > Max(threshold, 0.0)
  {
    BestMatchSpec(h, cands, canvas, sqrt);
    var (m, best) := BestMatch(h, cands, canvas, sqrt);
    if m > threshold then best else None
  }

  /**
   * A match exists exactly when some candidate scores above both the threshold
   * and 0, and then it is the first candidate with the highest score.
   */
  lemma MostSimilarSpec(h: Box, cands: seq<Box>, canvas: Canvas, threshold: real, sqrt: real -> real)
    ensures MostSimilar(h, cands, canvas, threshold, sqrt).Some?
            <==> exists j :: 0 <= j < |cands| && Similarity(h, cands[j], canvas, sqrt) > Max(threshold, 0.0)
    ensures var r := MostSimilar(h, cands, canvas, threshold, sqrt);
            r.Some? ==> exists j :: 0 <= j < |cands| && cands[j] == r.value
                          && (forall k :: 0 <= k < |cands| ==> Similarity(h, cands[k], canvas, sqrt) <= Similarity(h, cands[j], canvas, sqrt))
                          && (forall k :: 0 <= k < j ==> Similarity(h, cands[k], canvas, sqrt) < Similarity(h, cands[j], canvas, sqrt))
  {
    BestMatchSpec(h, cands, canvas, sqrt);
  }

  // ---------------------------------------------------------------------------
  // round() and the weighted average

  /** Python's `round(v)` for a float: the nearest integer, ties to the even one. */
  function Round(v: real): (r: int)
    ensures -0.5 <= v - r as real <= 0.5
    ensures (v - r as real == 0.5 || v - r as real == -0.5) ==> r % 2 == 0
  {
    var f := v.Floor;
    var frac := v - f as real;
    if frac < 0.5 then f
    else if frac > 0.5 then f + 1
    else if f % 2 == 0 then f
    else f + 1
  }

  /** Any integer strictly within 0.5 of `v` is what `round` returns. */
  lemma RoundNearest(v: real, n: int)
    requires -0.5 < v - n as real < 0.5
    ensures Round(v) == n
  {
  }

  /** The weighted average `current * weight + previous * (1 - weight)`. */
  function WeightedAverage(current: real, previous: real, weight: real): real {
    current * weight + previous * (1.0 - weight)
  }

  /** One smoothed coordinate: the weighted average, rounded. */
  function SmoothCoord(current: real, previous: real, weight: real): int {
    Round(WeightedAverage(current, previous, weight))
  }

  /** A product of a non-positive and a non-negative number is non-positive. */
  lemma NonPositiveProduct(d: real, k: real)
    requires d <= 0.0 && 0.0 <= k
    ensures d * k <= 0.0
  {
    MulRight(d, 0.0, k);
  }

  /** A product of two non-negative numbers is non-negative. */
  lemma NonNegativeProduct(d: real, k: real)
    requires 0.0 <= d && 0.0 <= k
    ensures 0.0 <= d * k
  {
    MulRight(0.0, d, k);
  }

  /** A weighted average with a weight in [0, 1] lies between its two inputs. */
  lemma WeightedAverageBetween(c: real, p: real, weight: real)
    requires 0.0 <= weight <= 1.0
    ensures Min(c, p) <= WeightedAverage(c, p, weight) <= Max(c, p)
  {
    var v := WeightedAverage(c, p, weight);
    var d := c - p;
    var toC := d * weight;
    var toP := d * (1.0 - weight);
    assert v == p + toC;
    assert c == v + toP;
    if c <= p {
      NonPositiveProduct(d, weight);
      NonPositiveProduct(d, 1.0 - weight);
    } else {
      NonNegativeProduct(d, weight);
      NonNegativeProduct(d, 1.0 - weight);
    }
  }

  /** Rounding a value between two integers stays between them. */
  lemma RoundBetween(v: real, lo: int, hi: int)
    requires lo as real <= v <= hi as real
    ensures lo <= Round(v) <= hi
  {
    var r := Round(v);
    assert (r as real) < (hi + 1) as real;
    assert (lo - 1) as real < r as real;
  }

  /** For whole-number coordinates and a weight in [0, 1], the smoothed value lies between them. */
  lemma SmoothCoordBetween(c: int, p: int, weight: real)
    requires 0.0 <= weight <= 1.0
    ensures Min(c as real, p as real) <= SmoothCoord(c as real, p as real, weight) as real <= Max(c as real, p as real)
  {
    var v := WeightedAverage(c as real, p as real, weight);
    WeightedAverageBetween(c as real, p as real, weight);
    if c <= p {
      RoundBetween(v, c, p);
    } else {
      RoundBetween(v, p, c);
    }
  }

  /** Smoothing a coordinate against itself leaves it unchanged. */
  lemma SmoothCoordSame(c: int, weight: real)
    ensures SmoothCoord(c as real, c as real, weight) == c
  {
    assert WeightedAverage(c as real, c as real, weight) == c as real;
    RoundNearest(c as real, c);
  }

  /** A float coordinate is not kept: smoothed against itself, 100.5 comes back as `round(100.5)`, 100. */
  lemma SmoothCoordRoundsFloat(weight: real)
    ensures SmoothCoord(100.5, 100.5, weight) == 100
  {
    assert WeightedAverage(100.5, 100.5, weight) == 100.5;
  }

  /** The dict the loop builds for a matched box: four rounded weighted averages. */
  function SmoothedBox(current: Box, previous: Box, weight: real): Box
    requires HasNumericFields(current) && HasNumericFields(previous)
  {
    IntBox(SmoothCoord(Coord(current, "x"), Coord(previous, "x"), weight),
           SmoothCoord(Coord(current, "y"), Coord(previous, "y"), weight),
           SmoothCoord(Coord(current, "width"), Coord(previous, "width"), weight),
           SmoothCoord(Coord(current, "height"), Coord(previous, "height"), weight))
  }

  /** What one current box becomes: smoothed against its match, or itself when it has none. */
  function SmoothOne(current: Box, previous: seq<Box>, canvas: Canvas, cfg: Thresholds, sqrt: real -> real): Box {
    match MostSimilar(current, previous, canvas, cfg.similarityThreshold, sqrt)
    case None => current
    case Some(p) =>
      PositiveSimilarityNumeric(current, p, canvas, sqrt);
      SmoothedBox(current, p, cfg.smoothingWeight)
  }

  function SmoothAll(current: seq<Box>, previous: seq<Box>, canvas: Canvas, cfg: Thresholds, sqrt: real -> real): seq<Box> {
    seq(|current|, i requires 0 <= i < |current| => SmoothOne(current[i], previous, canvas, cfg, sqrt))
  }

  // ---------------------------------------------------------------------------
  // smooth_human_coordinates as a state transition

  /** The processor's temporal state: the boxes shown last and the count of empty frames since. */
  datatype TrackState = TrackState(previousHumans: seq<Box>, noHumanCounter: int)

  /** One call of `smooth_human_coordinates`: the new state and the boxes returned. */
  function Step(st: TrackState, current: seq<Box>, canvas: Canvas, cfg: Thresholds, sqrt: real -> real): (TrackState, seq<Box>) {
    if current == [] then
      var counter := st.noHumanCounter + 1;
      if counter >= cfg.maxNoHumanCount then (TrackState([], counter), [])
      else (TrackState(st.previousHumans, counter), st.previousHumans)
    else if st.previousHumans == [] then (TrackState(current, 0), current)
    else
      var smoothed := SmoothAll(current, st.previousHumans, canvas, cfg, sqrt);
      (TrackState(smoothed, 0), smoothed)
  }

  /**
   * What one step returns is what it remembers; a frame with detections resets
   * the counter and returns one box per detection, the detections themselves
   * when nothing is remembered; a frame without returns the remembered boxes
   * or nothing.
   */
  lemma StepShape(st: TrackState, current: seq<Box>, canvas: Canvas, cfg: Thresholds, sqrt: real -> real)
    ensures var (next, out) := Step(st, current, canvas, cfg, sqrt);
      && out == next.previousHumans
      && (current != [] ==> next.noHumanCounter == 0 && |out| == |current|)
      && (current != [] && st.previousHumans == [] ==> out == current)
      && (current == [] ==> next.noHumanCounter == st.noHumanCounter + 1
                            && out == (if st.noHumanCounter + 1 >= cfg.maxNoHumanCount then [] else st.previousHumans))
  {
  }

  /**
   * With remembered boxes, each returned box is either the detection itself
   * (no previous box is similar enough) or the detection smoothed against a
   * previous box that scores above the threshold.
   */
  lemma StepMatches(st: TrackState, current: seq<Box>, canvas: Canvas, cfg: Thresholds, sqrt: real -> real)
    requires current != [] && st.previousHumans != []
    ensures var out := Step(st, current, canvas, cfg, sqrt).1;
      forall i :: 0 <= i < |current| ==>
        || (out[i] == current[i]
            && forall p :: p in st.previousHumans ==> Similarity(current[i], p, canvas, sqrt) <= Max(cfg.similarityThreshold, 0.0))
        || exists p :: p in st.previousHumans && Similarity(current[i], p, canvas, sqrt) > Max(cfg.similarityThreshold, 0.0)
                       && HasNumericFields(current[i]) && HasNumericFields(p)
                       && out[i] == SmoothedBox(current[i], p, cfg.smoothingWeight)
  {
    var out := Step(st, current, canvas, cfg, sqrt).1;
    forall i | 0 <= i < |current|
      ensures || (out[i] == current[i]
                  && forall p :: p in st.previousHumans ==> Similarity(current[i], p, canvas, sqrt) <= Max(cfg.similarityThreshold, 0.0))
              || exists p :: p in st.previousHumans && Similarity(current[i], p, canvas, sqrt) > Max(cfg.similarityThreshold, 0.0)
                             && HasNumericFields(current[i]) && HasNumericFields(p)
                             && out[i] == SmoothedBox(current[i], p, cfg.smoothingWeight)
    {
      MostSimilarSpec(current[i], st.previousHumans, canvas, cfg.similarityThreshold, sqrt);
      var r := MostSimilar(current[i], st.previousHumans, canvas, cfg.similarityThreshold, sqrt);
      if r.Some? {
        PositiveSimilarityNumeric(current[i], r.value, canvas, sqrt);
      } else {
        forall p | p in st.previousHumans
          ensures Similarity(current[i], p, canvas, sqrt) <= Max(cfg.similarityThreshold, 0.0)
        {
          var j :| 0 <= j < |st.previousHumans| && st.previousHumans[j] == p;
        }
      }
    }
  }

  /** Remembered and returned boxes keep numeric fields when every detection fed in has them. */
  lemma StepKeepsNumeric(st: TrackState, current: seq<Box>, canvas: Canvas, cfg: Thresholds, sqrt: real -> real)
    requires forall h :: h in st.previousHumans ==> HasNumericFields(h)
    requires forall h :: h in current ==> HasNumericFields(h)
    ensures forall h :: h in Step(st, current, canvas, cfg, sqrt).0.previousHumans ==> HasNumericFields(h)
  {
    if current != [] && st.previousHumans != [] {
      var out := Step(st, current, canvas, cfg, sqrt).1;
      forall i | 0 <= i < |out| ensures HasNumericFields(out[i]) {
        assert current[i] in current;
      }
    }
  }

  /** The state after `k` consecutive frames without detections. */
  function EmptyFrames(st: TrackState, k: nat, canvas: Canvas, cfg: Thresholds, sqrt: real -> real): TrackState
    decreases k
  {
    if k == 0 then st else EmptyFrames(Step(st, [], canvas, cfg, sqrt).0, k - 1, canvas, cfg, sqrt)
  }

  /**
   * Hysteresis: empty frames only count until the counter reaches
   * MAX_NO_HUMAN_COUNT; the remembered boxes are kept unchanged until then and
   * dropped from then on.
   */
  lemma {:induction false} Hysteresis(st: TrackState, k: nat, canvas: Canvas, cfg: Thresholds, sqrt: real -> real)
    requires 1 <= k
    ensures EmptyFrames(st, k, canvas, cfg, sqrt).noHumanCounter == st.noHumanCounter + k
    ensures EmptyFrames(st, k, canvas, cfg, sqrt).previousHumans
            == if st.noHumanCounter + k >= cfg.maxNoHumanCount then [] else st.previousHumans
    decreases k
  {
    var next := Step(st, [], canvas, cfg, sqrt).0;
    if k > 1 {
      Hysteresis(next, k - 1, canvas, cfg, sqrt);
    }
  }

  /**
   * A box seen again where it was is returned as it was: it matches itself
   * (similarity 1) and the weighted average of equal whole numbers is that number.
   */
  lemma SteadyBoxIsFixedPoint(x: int, y: int, width: int, height: int, counter: int,
                              canvas: Canvas, cfg: Thresholds, sqrt: real -> real)
    requires IsSquareRoot(sqrt)
    requires width * height != 0
    requires canvas.width != 0 || canvas.height != 0
    requires cfg.similarityThreshold < 1.0
    ensures var b := IntBox(x, y, width, height);
            Step(TrackState([b], counter), [b], canvas, cfg, sqrt) == (TrackState([b], 0), [b])
  {
    var b := IntBox(x, y, width, height);
    assert Area(b) == (width * height) as real;
    SimilaritySelf(b, canvas, sqrt);
    assert Similarity(b, [b][0], canvas, sqrt) > Max(cfg.similarityThreshold, 0.0);
    MostSimilarSpec(b, [b], canvas, cfg.similarityThreshold, sqrt);
    var w := cfg.smoothingWeight;
    SmoothCoordSame(x, w);
    SmoothCoordSame(y, w);
    SmoothCoordSame(width, w);
    SmoothCoordSame(height, w);
    assert SmoothedBox(b, b, w) == b;
    assert SmoothAll([b], [b], canvas, cfg, sqrt) == [SmoothOne(b, [b], canvas, cfg, sqrt)];
  }

  // ---------------------------------------------------------------------------
  // Worked examples on a 640x480 frame with the configured constants

  const Frame := Canvas(640, 480)

  /** A box 10 pixels to the right of a remembered one scores 0.99125 against it. */
  lemma ShiftedBoxSimilarity(sqrt: real -> real, x: int)
    requires IsSquareRoot(sqrt)
    requires x == 110 || x == 90
    ensures Similarity(IntBox(x, 100, 50, 50), IntBox(100, 100, 50, 50), Frame, sqrt) == 0.99125
  {
    var cur, prev := IntBox(x, 100, 50, 50), IntBox(100, 100, 50, 50);
    assert DiagonalSquared(Frame) == 640000.0;
    SqrtOf(sqrt, 640000.0, 800.0);
    assert CentreDistanceSquared(cur, prev) == 100.0;
    SqrtOf(sqrt, 100.0, 10.0);
    assert Area(cur) == 2500.0 && Area(prev) == 2500.0;
    assert Score(10.0, 800.0, 2500.0, 2500.0) == 0.99125;
  }

  /** The shifted box is matched to the original and moves 3 of its 10 pixels back towards it. */
  lemma ShiftedBoxSmoothed(sqrt: real -> real, x: int, y: int)
    requires IsSquareRoot(sqrt)
    requires (x == 110 && y == 103) || (x == 90 && y == 97)
    ensures SmoothOne(IntBox(x, 100, 50, 50), [IntBox(100, 100, 50, 50)], Frame, DefaultThresholds, sqrt)
            == IntBox(y, 100, 50, 50)
  {
    var cur, prev := IntBox(x, 100, 50, 50), IntBox(100, 100, 50, 50);
    ShiftedBoxSimilarity(sqrt, x);
    assert Similarity(cur, [prev][0], Frame, sqrt) > Max(0.7, 0.0);
    MostSimilarSpec(cur, [prev], Frame, 0.7, sqrt);
    assert MostSimilar(cur, [prev], Frame, 0.7, sqrt) == Some(prev);
    RoundNearest(y as real, y);
    RoundNearest(100.0, 100);
    RoundNearest(50.0, 50);
    assert SmoothedBox(cur, prev, 0.3) == IntBox(y, 100, 50, 50);
  }

  /** The box moves 3 of those 10 pixels: 0.3 of the new position plus 0.7 of the old. */
  lemma SmoothingExample(sqrt: real -> real)
    requires IsSquareRoot(sqrt)
    ensures Step(TrackState([IntBox(100, 100, 50, 50)], 0), [IntBox(110, 100, 50, 50)], Frame, DefaultThresholds, sqrt)
            == (TrackState([IntBox(103, 100, 50, 50)], 0), [IntBox(103, 100, 50, 50)])
  {
    ShiftedBoxSmoothed(sqrt, 110, 103);
    var cur, prev := IntBox(110, 100, 50, 50), IntBox(100, 100, 50, 50);
    assert SmoothAll([cur], [prev], Frame, DefaultThresholds, sqrt) == [SmoothOne(cur, [prev], Frame, DefaultThresholds, sqrt)];
  }

  /**
   * Matching is not exclusive: two detections on either side of one remembered
   * box are both smoothed against it.
   */
  lemma SharedMatchExample(sqrt: real -> real)
    requires IsSquareRoot(sqrt)
    ensures Step(TrackState([IntBox(100, 100, 50, 50)], 0),
                 [IntBox(110, 100, 50, 50), IntBox(90, 100, 50, 50)], Frame, DefaultThresholds, sqrt).1
            == [IntBox(103, 100, 50, 50), IntBox(97, 100, 50, 50)]
  {
    ShiftedBoxSmoothed(sqrt, 110, 103);
    ShiftedBoxSmoothed(sqrt, 90, 97);
    var right, left, prev := IntBox(110, 100, 50, 50), IntBox(90, 100, 50, 50), IntBox(100, 100, 50, 50);
    assert SmoothAll([right, left], [prev], Frame, DefaultThresholds, sqrt)
           == [SmoothOne(right, [prev], Frame, DefaultThresholds, sqrt), SmoothOne(left, [prev], Frame, DefaultThresholds, sqrt)];
  }
}
