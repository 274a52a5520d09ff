/**
 * The geometric checks of the coordinate processor: which candidate boxes are
 * sane for the current canvas, and how alike two boxes are.
 */
module Geometry {
  import opened JsonValues

  /** The pixel size of the current frame; the detection loop overwrites it every cycle. */
  datatype Canvas = Canvas(width: int, height: int)

  /**
   * The tuning constants the processor reads (MIN_HUMAN_SIZE, MAX_HUMAN_SIZE_RATIO,
   * HUMAN_ASPECT_RATIO_MIN/MAX, SMOOTHING_WEIGHT, SIMILARITY_THRESHOLD,
   * MAX_NO_HUMAN_COUNT).
   */
  datatype Thresholds = Thresholds(
    minSize: real,
    maxSizeRatio: real,
    aspectMin: real,
    aspectMax: real,
    smoothingWeight: real,
    similarityThreshold: real,
    maxNoHumanCount: int)

  /** The values config.py gives these constants (under their face names). */
  const DefaultThresholds := Thresholds(20.0, 0.9, 0.5, 2.0, 0.3, 0.7, 3)

  /**
   * `is_valid_human_coordinate`: the checks in the program's order; the
   * exception paths (missing key, non-number) answer false.
   */
  function IsValidHumanCoordinate(h: Box, canvas: Canvas, cfg: Thresholds): bool {
    if !HasNumericFields(h) then false
    else
      var x, y, width, height := Coord(h, "x"), Coord(h, "y"), Coord(h, "width"), Coord(h, "height");
      if x < 0.0 || y < 0.0 || width <= 0.0 || height <= 0.0 then false
      else if x + width > canvas.width as real || y + height > canvas.height as real then false
      else if width < cfg.minSize || height < cfg.minSize then false
      else if width > canvas.width as real * cfg.maxSizeRatio
           || height > canvas.height as real * cfg.maxSizeRatio then false
      else
        var aspectRatio := width / height;
        !(aspectRatio < cfg.aspectMin || aspectRatio > cfg.aspectMax)
  }

  /** The sanity rules stated as one set of inequalities, with the aspect ratio cross-multiplied. */
  ghost predicate SaneBox(x: real, y: real, width: real, height: real, canvas: Canvas, cfg: Thresholds) {
    && 0.0 <= x && 0.0 <= y && 0.0 < width && 0.0 < height
    && x + width <= canvas.width as real && y + height <= canvas.height as real
    && cfg.minSize <= width <= canvas.width as real * cfg.maxSizeRatio
    && cfg.minSize <= height <= canvas.height as real * cfg.maxSizeRatio
    && cfg.aspectMin * height <= width <= cfg.aspectMax * height
  }

  lemma RatioBelow(width: real, height: real, bound: real)
    requires 0.0 < height
    ensures (width / height < bound) <==> (width < bound * height)
  {
    assert width == (width / height) * height;
    if width / height < bound {
      assert (width / height) * height < bound * height;
    }
  }

  lemma RatioAbove(width: real, height: real, bound: real)
    requires 0.0 < height
    ensures (width / height > bound) <==> (width > bound * height)
  {
    assert width == (width / height) * height;
    if width / height > bound {
      assert (width / height) * height > bound * height;
    }
  }

  /** A box is accepted exactly when its four fields are numbers that satisfy every rule. */
  lemma ValidIffSane(h: Box, canvas: Canvas, cfg: Thresholds)
    ensures IsValidHumanCoordinate(h, canvas, cfg) <==>
      HasNumericFields(h)
      && SaneBox(Coord(h, "x"), Coord(h, "y"), Coord(h, "width"), Coord(h, "height"), canvas, cfg)
  {
    if HasNumericFields(h) && Coord(h, "height") > 0.0 {
      RatioBelow(Coord(h, "width"), Coord(h, "height"), cfg.aspectMin);
      RatioAbove(Coord(h, "width"), Coord(h, "height"), cfg.aspectMax);
    }
  }

  /** The box has numeric fields, a positive size, and lies inside the canvas. */
  ghost predicate InsideCanvas(h: Box, canvas: Canvas) {
    && HasNumericFields(h)
    && 0.0 <= Coord(h, "x") && 0.0 < Coord(h, "width") && Coord(h, "x") + Coord(h, "width") <= canvas.width as real
    && 0.0 <= Coord(h, "y") && 0.0 < Coord(h, "height") && Coord(h, "y") + Coord(h, "height") <= canvas.height as real
  }

  /** Every accepted box lies inside the canvas. */
  lemma ValidInCanvas(h: Box, canvas: Canvas, cfg: Thresholds)
    requires IsValidHumanCoordinate(h, canvas, cfg)
    ensures InsideCanvas(h, canvas)
  {
  }

  /** `[h for h in raw if is_valid_human_coordinate(h)]`. */
  function KeepValid(hs: seq<Box>, canvas: Canvas, cfg: Thresholds): seq<Box>
    decreases |hs|
  {
    if hs == [] then []
    else (if IsValidHumanCoordinate(hs[0], canvas, cfg) then [hs[0]] else []) + KeepValid(hs[1..], canvas, cfg)
  }

  /** The filter keeps exactly the valid boxes, and keeps them in order. */
  lemma {:induction false} KeepValidSpec(hs: seq<Box>, canvas: Canvas, cfg: Thresholds)
    ensures forall h :: h in KeepValid(hs, canvas, cfg) <==> h in hs && IsValidHumanCoordinate(h, canvas, cfg)
    ensures |KeepValid(hs, canvas, cfg)| <= |hs|
    ensures (forall i :: 0 <= i < |hs| ==> IsValidHumanCoordinate(hs[i], canvas, cfg)) ==> KeepValid(hs, canvas, cfg) == hs
    decreases |hs|
  {
    if hs != [] {
      KeepValidSpec(hs[1..], canvas, cfg);
      assert hs == [hs[0]] + hs[1..];
    }
  }

  lemma {:induction false} KeepValidAppend(a: seq<Box>, b: seq<Box>, canvas: Canvas, cfg: Thresholds)
    ensures KeepValid(a + b, canvas, cfg) == KeepValid(a, canvas, cfg) + KeepValid(b, canvas, cfg)
    decreases |a|
  {
    if a == [] {
      assert a + b == b;
    } else {
      assert (a + b)[1..] == a[1..] + b;
      KeepValidAppend(a[1..], b, canvas, cfg);
    }
  }

  /** What `math.sqrt` is relied on for: the non-negative square root of a non-negative number. */
  ghost predicate IsSquareRoot(sqrt: real -> real) {
    forall v: real {:trigger sqrt(v)} :: 0.0 <= v ==> 0.0 <= sqrt(v) && sqrt(v) * sqrt(v) == v
  }

  function Min(a: real, b: real): real {
    if a <= b then a else b
  }

  function Max(a: real, b: real): real {
    if a >= b then a else b
  }

  function Area(b: Box): real
    requires HasNumericFields(b)
  {
    Coord(b, "width") * Coord(b, "height")
  }

  function CentreX(b: Box): real
    requires HasNumericFields(b)
  {
    Coord(b, "x") + Coord(b, "width") / 2.0
  }

  function CentreY(b: Box): real
    requires HasNumericFields(b)
  {
    Coord(b, "y") + Coord(b, "height") / 2.0
  }

  function CentreDistanceSquared(a: Box, b: Box): real
    requires HasNumericFields(a) && HasNumericFields(b)
  {
    (CentreX(a) - CentreX(b)) * (CentreX(a) - CentreX(b)) + (CentreY(a) - CentreY(b)) * (CentreY(a) - CentreY(b))
  }

  function DiagonalSquared(canvas: Canvas): real {
    canvas.width as real * canvas.width as real + canvas.height as real * canvas.height as real
  }

  /** The weighted score once both divisors are known to be non-zero. */
  function Score(distance: real, diagonal: real, area1: real, area2: real): real
    requires diagonal != 0.0 && Max(area1, area2) != 0.0
  {
    (1.0 - distance / diagonal) * 0.7 + (Min(area1, area2) / Max(area1, area2)) * 0.3
  }

  /**
   * `calculate_human_similarity`: 0.7 of closeness of the centres relative to the
   * canvas diagonal plus 0.3 of the smaller-to-larger area ratio; a missing or
   * non-numeric field, or a division by zero, gives 0.0.
   */
  function Similarity(a: Box, b: Box, canvas: Canvas, sqrt: real -> real): real {
    if !HasNumericFields(a) || !HasNumericFields(b) then 0.0
    else
      var diagonal := sqrt(DiagonalSquared(canvas));
      var distance := sqrt(CentreDistanceSquared(a, b));
      if diagonal == 0.0 || Max(Area(a), Area(b)) == 0.0 then 0.0
      else Score(distance, diagonal, Area(a), Area(b))
  }

  lemma MulLeft(k: real, x: real, y: real)
    requires 0.0 <= k && x <= y
    ensures k * x <= k * y
  {
  }

  lemma MulRight(x: real, y: real, k: real)
    requires 0.0 <= k && x <= y
    ensures x * k <= y * k
  {
  }

  lemma MulRightStrict(x: real, y: real, k: real)
    requires 0.0 < k && x < y
    ensures x * k < y * k
  {
  }

  lemma SquareStrict(a: real, b: real)
    requires 0.0 <= a
    ensures a < b ==> a * a < b * b
  {
    if a < b {
      calc {
        a * a;
      <= { MulLeft(a, a, b); }
        a * b;
      < { MulRightStrict(a, b, b); }
        b * b;
      }
    }
  }

  lemma SquareBelow(d: real, bound: real)
    requires -bound <= d <= bound
    ensures d * d <= bound * bound
  {
    if d >= 0.0 {
      calc {
        d * d;
      <= { MulLeft(d, d, bound); }
        d * bound;
      <= { MulRight(d, bound, bound); }
        bound * bound;
      }
    } else {
      calc {
        d * d;
        (-d) * (-d);
      <= { MulLeft(-d, -d, bound); }
        (-d) * bound;
      <= { MulRight(-d, bound, bound); }
        bound * bound;
      }
    }
  }

  lemma SquareNonNegative(v: real)
    ensures 0.0 <= v * v
  {
    if v >= 0.0 {
      MulLeft(v, 0.0, v);
    } else {
      MulLeft(-v, 0.0, -v);
    }
  }

  lemma SqrtZero(sqrt: real -> real)
    requires IsSquareRoot(sqrt)
    ensures sqrt(0.0) == 0.0
  {
    SquareStrict(0.0, sqrt(0.0));
  }

  /** The square root is determined by its defining property. */
  lemma SqrtOf(sqrt: real -> real, v: real, r: real)
    requires IsSquareRoot(sqrt) && 0.0 <= r && r * r == v
    ensures sqrt(v) == r
  {
    SquareNonNegative(r);
    var s := sqrt(v);
    SquareStrict(s, r);
    SquareStrict(r, s);
  }

  lemma SqrtPositive(sqrt: real -> real, v: real)
    requires IsSquareRoot(sqrt) && 0.0 < v
    ensures 0.0 < sqrt(v)
  {
    assert sqrt(v) * sqrt(v) == v;
  }

  lemma SqrtMonotone(sqrt: real -> real, u: real, v: real)
    requires IsSquareRoot(sqrt) && 0.0 <= u <= v
    ensures sqrt(u) <= sqrt(v)
  {
    SquareStrict(sqrt(v), sqrt(u));
  }

  lemma SquareOfNonZero(v: real)
    requires v != 0.0
    ensures 0.0 < v * v
  {
    if v > 0.0 {
      SquareStrict(0.0, v);
    } else {
      SquareStrict(0.0, -v);
    }
  }

  lemma DiagonalPositive(canvas: Canvas)
    requires canvas.width != 0 || canvas.height != 0
    ensures 0.0 < DiagonalSquared(canvas)
  {
    var w, h := canvas.width as real, canvas.height as real;
    SquareNonNegative(w);
    SquareNonNegative(h);
    if w != 0.0 {
      SquareOfNonZero(w);
    } else {
      SquareOfNonZero(h);
    }
  }

  /** A box compared with itself scores exactly 1.0 when the canvas and its area are not zero. */
  lemma SimilaritySelf(a: Box, canvas: Canvas, sqrt: real -> real)
    requires IsSquareRoot(sqrt)
    requires HasNumericFields(a) && Area(a) != 0.0
    requires canvas.width != 0 || canvas.height != 0
    ensures Similarity(a, a, canvas, sqrt) == 1.0
  {
    DiagonalPositive(canvas);
    SqrtPositive(sqrt, DiagonalSquared(canvas));
    assert CentreDistanceSquared(a, a) == 0.0;
    SqrtZero(sqrt);
    var diagonal := sqrt(DiagonalSquared(canvas));
    assert 0.0 / diagonal == 0.0;
    assert Area(a) / Area(a) == 1.0;
    assert Score(0.0, diagonal, Area(a), Area(a)) == 1.0;
  }

  /** The exception paths: a missing or non-numeric field, a zero canvas, or a zero larger area give 0.0. */
  lemma SimilarityZeroOnError(a: Box, b: Box, canvas: Canvas, sqrt: real -> real)
    requires IsSquareRoot(sqrt)
    requires || !HasNumericFields(a) || !HasNumericFields(b)
             || (canvas.width == 0 && canvas.height == 0)
             || Max(Area(a), Area(b)) == 0.0
    ensures Similarity(a, b, canvas, sqrt) == 0.0
  {
    if HasNumericFields(a) && HasNumericFields(b) && canvas.width == 0 && canvas.height == 0 {
      assert DiagonalSquared(canvas) == 0.0;
      SqrtZero(sqrt);
    }
  }

  /** A positive score is only ever given to two boxes whose fields are all numbers. */
  lemma PositiveSimilarityNumeric(a: Box, b: Box, canvas: Canvas, sqrt: real -> real)
    requires Similarity(a, b, canvas, sqrt) > 0.0
    ensures HasNumericFields(a) && HasNumericFields(b)
  {
  }

  /** The score does not depend on the order of the two boxes. */
  lemma SimilaritySymmetric(a: Box, b: Box, canvas: Canvas, sqrt: real -> real)
    ensures Similarity(a, b, canvas, sqrt) == Similarity(b, a, canvas, sqrt)
  {
    if HasNumericFields(a) && HasNumericFields(b) {
      assert CentreDistanceSquared(a, b) == CentreDistanceSquared(b, a);
    }
  }

  lemma DivAtMostOne(p: real, q: real)
    requires 0.0 <= p <= q && 0.0 < q
    ensures 0.0 <= p / q <= 1.0
  {
  }

  /** The score lies in [0, 1] when the distance is at most the diagonal and both areas are positive. */
  lemma ScoreInUnitRange(distance: real, diagonal: real, area1: real, area2: real)
    requires 0.0 <= distance <= diagonal && 0.0 < diagonal
    requires 0.0 < area1 && 0.0 < area2
    ensures 0.0 <= Score(distance, diagonal, area1, area2) <= 1.0
  {
    DivAtMostOne(distance, diagonal);
    DivAtMostOne(Min(area1, area2), Max(area1, area2));
  }

  /** One axis: the centres of two spans inside [0, size] are at most `size` apart. */
  lemma CentreOffsetBound(p1: real, len1: real, p2: real, len2: real, size: real)
    requires 0.0 <= p1 && 0.0 < len1 && p1 + len1 <= size
    requires 0.0 <= p2 && 0.0 < len2 && p2 + len2 <= size
    ensures -size <= (p1 + len1 / 2.0) - (p2 + len2 / 2.0) <= size
    ensures 0.0 < size
  {
  }

  lemma DistanceBound(dx: real, dy: real, w: real, h: real)
    requires -w <= dx <= w && -h <= dy <= h
    ensures 0.0 <= dx * dx + dy * dy <= w * w + h * h
  {
    SquareBelow(dx, w);
    SquareBelow(dy, h);
    SquareNonNegative(dx);
    SquareNonNegative(dy);
  }

  /** The centres of two boxes inside the canvas are no further apart than its diagonal. */
  lemma CentresWithinDiagonal(a: Box, b: Box, canvas: Canvas)
    requires InsideCanvas(a, canvas) && InsideCanvas(b, canvas)
    ensures 0.0 <= CentreDistanceSquared(a, b) <= DiagonalSquared(canvas)
    ensures 0.0 < DiagonalSquared(canvas)
  {
    var w, h := canvas.width as real, canvas.height as real;
    CentreOffsetBound(Coord(a, "x"), Coord(a, "width"), Coord(b, "x"), Coord(b, "width"), w);
    CentreOffsetBound(Coord(a, "y"), Coord(a, "height"), Coord(b, "y"), Coord(b, "height"), h);
    DistanceBound(CentreX(a) - CentreX(b), CentreY(a) - CentreY(b), w, h);
    DiagonalPositive(canvas);
  }

  /** Two boxes that both pass the validator score between 0 and 1. */
  lemma SimilarityOfValidBoxesInUnitRange(a: Box, b: Box, canvas: Canvas, cfg: Thresholds, sqrt: real -> real)
    requires IsSquareRoot(sqrt)
    requires IsValidHumanCoordinate(a, canvas, cfg) && IsValidHumanCoordinate(b, canvas, cfg)
    ensures 0.0 <= Similarity(a, b, canvas, sqrt) <= 1.0
  {
    ValidInCanvas(a, canvas, cfg);
    ValidInCanvas(b, canvas, cfg);
    CentresWithinDiagonal(a, b, canvas);
    var dd := CentreDistanceSquared(a, b);
    SqrtMonotone(sqrt, dd, DiagonalSquared(canvas));
    SqrtPositive(sqrt, DiagonalSquared(canvas));
    assert 0.0 < Area(a) && 0.0 < Area(b) by {
      MulRightStrict(0.0, Coord(a, "width"), Coord(a, "height"));
      MulRightStrict(0.0, Coord(b, "width"), Coord(b, "height"));
    }
    ScoreInUnitRange(sqrt(dd), sqrt(DiagonalSquared(canvas)), Area(a), Area(b));
  }
}
