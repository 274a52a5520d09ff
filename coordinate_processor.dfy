/**
 * `CoordinateProcessor`: the object the detection loop keeps across frames.
 * Its fields are the canvas size (overwritten by the caller every frame), the
 * boxes returned last time and the count of frames without detections. Its
 * methods update those fields in place; each is specified by the value-level
 * step of the `Tracker` module, whose properties are proved there.
 */
module Processor {
  import opened Wrappers
  import opened JsonValues
  import opened Geometry
  import opened Tracker
  import opened ResponseParser

  class CoordinateProcessor {
    var canvasWidth: int
    var canvasHeight: int
    var previousHumans: seq<Box>
    var noHumanCounter: int
    /** The configuration constants the module reads. */
    const cfg: Thresholds
    /** `math.sqrt`. */
    const sqrt: real -> real

    /**
     * Every remembered box holds four numbers, and the counter is never negative.
     * The methods accept any state, as the program does; this is an invariant
     * they establish and preserve, not one they rely on.
     */
    ghost predicate Valid()
      reads this
    {
      0 <= noHumanCounter && forall h :: h in previousHumans ==> HasNumericFields(h)
    }

    function CanvasSize(): Canvas
      reads this
    {
      Canvas(canvasWidth, canvasHeight)
    }

    function State(): TrackState
      reads this
    {
      TrackState(previousHumans, noHumanCounter)
    }

    constructor(width: int, height: int, cfg: Thresholds, sqrt: real -> real)
      ensures canvasWidth == width && canvasHeight == height
      ensures previousHumans == [] && noHumanCounter == 0
      ensures this.cfg == cfg && this.sqrt == sqrt
      ensures Valid()
    {
      canvasWidth := width;
      canvasHeight := height;
      previousHumans := [];
      noHumanCounter := 0;
      this.cfg := cfg;
      this.sqrt := sqrt;
    }

    /** `find_most_similar_human`: the loop over the candidates, then the threshold test. */
    method FindMostSimilarHuman(human: Box, candidates: seq<Box>) returns (r: Option<Box>)
      ensures r == MostSimilar(human, candidates, CanvasSize(), cfg.similarityThreshold, sqrt)
    {
      var maxSimilarity := 0.0;
      var mostSimilar: Option<Box> := None;
      for i := 0 to |candidates|
        invariant (maxSimilarity, mostSimilar) == BestMatch(human, candidates[..i], CanvasSize(), sqrt)
      {
        var similarity := Similarity(human, candidates[i], CanvasSize(), sqrt);
        assert candidates[..i + 1][..i] == candidates[..i];
        if similarity > maxSimilarity {
          maxSimilarity := similarity;
          mostSimilar := Some(candidates[i]);
        }
      }
      assert candidates[..|candidates|] == candidates;
      r := if maxSimilarity > cfg.similarityThreshold then mostSimilar else None;
    }

    /**
     * `smooth_human_coordinates`: the new remembered boxes, the counter and the
     * returned list are those of one `Step`; the processor stays valid when
     * every detection fed in holds four numbers.
     */
    method SmoothHumanCoordinates(current: seq<Box>) returns (out: seq<Box>)
      modifies this`previousHumans, this`noHumanCounter
      ensures (State(), out) == Step(old(State()), current, CanvasSize(), cfg, sqrt)
      ensures old(Valid()) && (forall h :: h in current ==> HasNumericFields(h)) ==> Valid()
    {
      if Valid() && forall h :: h in current ==> HasNumericFields(h) {
        StepKeepsNumeric(State(), current, CanvasSize(), cfg, sqrt);
      }
      if current == [] {
        noHumanCounter := noHumanCounter + 1;
        if noHumanCounter >= cfg.maxNoHumanCount {
          previousHumans := [];
          return [];
        } else {
          return previousHumans;
        }
      }
      noHumanCounter := 0;
      if previousHumans == [] {
        previousHumans := current;
        return current;
      }
      var previous := previousHumans;
      var smoothed: seq<Box> := [];
      for i := 0 to |current|
        invariant smoothed == SmoothAll(current[..i], previous, CanvasSize(), cfg, sqrt)
        invariant previousHumans == previous && noHumanCounter == 0
      {
        // a matched dict is never empty, so its truth test is the same as `is not None`
        var similar := FindMostSimilarHuman(current[i], previous);
        if similar.Some? {
          PositiveSimilarityNumeric(current[i], similar.value, CanvasSize(), sqrt);
          smoothed := smoothed + [SmoothedBox(current[i], similar.value, cfg.smoothingWeight)];
        } else {
          smoothed := smoothed + [current[i]];
        }
      }
      assert current[..|current|] == current;
      previousHumans := smoothed;
      out := smoothed;
    }

    /**
     * `process_humans`: parse the reply, keep the sane boxes, smooth them.
     * A valid processor stays valid whatever the reply.
     */
    method ProcessHumans(response: string, decode: string -> Decoded) returns (out: seq<Box>)
      modifies this`previousHumans, this`noHumanCounter
      ensures (State(), out)
              == Step(old(State()), KeepValid(Parse(response, decode), CanvasSize(), cfg), CanvasSize(), cfg, sqrt)
      ensures old(Valid()) ==> Valid()
    {
      var raw := ParseHumanActivityResponse(response, decode);
      var valid := KeepValid(raw, CanvasSize(), cfg);
      KeepValidSpec(raw, CanvasSize(), cfg);
      out := SmoothHumanCoordinates(valid);
    }

    /** `reset`: forget the remembered boxes and the empty-frame count. */
    method Reset()
      modifies this`previousHumans, this`noHumanCounter
      ensures previousHumans == [] && noHumanCounter == 0
      ensures Valid()
    {
      previousHumans := [];
      noHumanCounter := 0;
    }
  }
}
