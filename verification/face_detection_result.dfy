// One detected face (`FaceDetectionResult`): its box, detector confidence,
// landmarks, size, angle and optional quality metrics, with the checks made
// at construction and the quality figures derived from them.

module FaceDetectionResult {
  import opened Errors
  import opened PyMath
  import opened Point2D
  import opened BoundingBox

  /** The quality metric names a face may carry. */
  const MetricNames: set<string> := {"sharpness", "brightness", "contrast", "symmetry"}

  /** Per-metric weights of the overall score, in the order they are summed. */
  const QualityWeights: seq<(string, real)> :=
    [("sharpness", 0.3), ("brightness", 0.2), ("contrast", 0.2), ("symmetry", 0.3)]

  /** Per-metric thresholds of the high-quality test, in iteration order. */
  const QualityThresholds: seq<(string, real)> :=
    [("sharpness", 0.6), ("brightness", 0.4), ("contrast", 0.5), ("symmetry", 0.6)]

  /** Landmark indices read as eyes (left eye then right eye) on a full mesh. */
  const EyeIndices: seq<nat> :=
    [33, 7, 163, 144, 145, 153, 154, 155, 133, 173, 157, 158, 159, 160, 161, 246,
     362, 382, 381, 380, 374, 373, 390, 249, 263, 466, 388, 387, 386, 385, 384, 398]

  /** Landmark indices read as the mouth on a full mesh. */
  const MouthIndices: seq<nat> := [61, 84, 17, 314, 405, 320, 307, 375, 321, 308, 324, 318]

  /** Number of landmarks of a full face mesh. */
  const FullMeshSize: nat := 468

  datatype Face = Face(
    box: Box,
    confidence: real,
    landmarks: seq<Point>,
    faceSize: real,
    faceAngle: real,
    metrics: map<string, real>)

  predicate LandmarksNormalised(landmarks: seq<Point>)
  {
    forall i :: 0 <= i < |landmarks| ==> IsWithinNormalizedBounds(landmarks[i])
  }

  predicate MetricsValid(metrics: map<string, real>)
  {
    forall k :: k in metrics ==> k in MetricNames && 0.0 <= metrics[k] <= 1.0
  }

  /** What construction guarantees of every face. */
  predicate ValidFace(f: Face)
  {
    Valid(f.box) && 0.5 <= f.confidence <= 1.0 && 0.01 <= f.faceSize <= 1.0
    && LandmarksNormalised(f.landmarks) && MetricsValid(f.metrics)
  }

  /** `FaceDetectionResult(...)` with its `__post_init__` checks, all of which
      raise ValueError: confidence in [0, 1] and at least 0.5, face size in
      [0, 1] and at least 0.01, every landmark in the unit square, every
      metric a known name with a value in [0, 1]. */
  function New(box: Box, confidence: real, landmarks: seq<Point>, faceSize: real,
               faceAngle: real, metrics: map<string, real>): (r: Result<Face>)
    requires Valid(box)
    ensures r.Ok? <==> 0.5 <= confidence <= 1.0 && 0.01 <= faceSize <= 1.0
                       && LandmarksNormalised(landmarks) && MetricsValid(metrics)
    ensures r.Ok? ==> ValidFace(r.value)
    ensures r.Ok? ==> r.value == Face(box, confidence, landmarks, faceSize, faceAngle, metrics)
    ensures r.Err? ==> r.error == ValueError
  {
    if !(0.0 <= confidence <= 1.0) then Err(ValueError)
    else if confidence < 0.5 then Err(ValueError)
    else if !(0.0 <= faceSize <= 1.0) then Err(ValueError)
    else if faceSize < 0.01 then Err(ValueError)
    else if !LandmarksNormalised(landmarks) then Err(ValueError)
    else if exists k :: k in metrics && k !in MetricNames then Err(ValueError)
    else if exists k :: k in metrics && !(0.0 <= metrics[k] <= 1.0) then Err(ValueError)
    else Ok(Face(box, confidence, landmarks, faceSize, faceAngle, metrics))
  }

  /** `face_center`: the centre of the box, inside the unit square. */
  function FaceCenter(f: Face): (c: Point)
    requires ValidFace(f)
    ensures IsWithinNormalizedBounds(c) && ContainsPoint(f.box, c)
  {
    CenterInside(f.box);
    Center(f.box)
  }

  // ---------------------------------------------------------------------
  // Overall quality score

  /** Sum of weight·value over the listed metrics the face carries. */
  function WeightedSum(metrics: map<string, real>, weights: seq<(string, real)>): real
  {
    if weights == [] then 0.0
    else
      var (name, w) := weights[|weights| - 1];
      WeightedSum(metrics, weights[..|weights| - 1])
        + (if name in metrics then metrics[name] * w else 0.0)
  }

  /** Sum of the weights of the listed metrics the face carries. */
  function PresentWeight(metrics: map<string, real>, weights: seq<(string, real)>): real
  {
    if weights == [] then 0.0
    else
      var (name, w) := weights[|weights| - 1];
      PresentWeight(metrics, weights[..|weights| - 1]) + (if name in metrics then w else 0.0)
  }

  /** The overall score: the confidence when no metric is present, otherwise
      0.7 times the weighted mean of the present metrics plus 0.3 times the
      confidence. */
  function QualityScore(f: Face): real
  {
    if |f.metrics| == 0 then f.confidence
    else if PresentWeight(f.metrics, QualityWeights) == 0.0 then f.confidence
    else
      (WeightedSum(f.metrics, QualityWeights) / PresentWeight(f.metrics, QualityWeights)) * 0.7
      + f.confidence * 0.3
  }

  /** `overall_quality_score`, accumulating the weighted sum and the total
      weight metric by metric. */
  method OverallQualityScore(f: Face) returns (score: real)
    ensures score == QualityScore(f)
  {
    if |f.metrics| == 0 {
      return f.confidence;
    }
    var weightedSum := 0.0;
    var totalWeight := 0.0;
    var i := 0;
    while i < |QualityWeights|
      invariant 0 <= i <= |QualityWeights|
      invariant weightedSum == WeightedSum(f.metrics, QualityWeights[..i])
      invariant totalWeight == PresentWeight(f.metrics, QualityWeights[..i])
    {
      var (name, w) := QualityWeights[i];
      assert QualityWeights[..i + 1][..i] == QualityWeights[..i];
      if name in f.metrics {
        weightedSum := weightedSum + f.metrics[name] * w;
        totalWeight := totalWeight + w;
      }
      i := i + 1;
    }
    assert QualityWeights[..i] == QualityWeights;
    if totalWeight == 0.0 {
      return f.confidence;
    }
    score := (weightedSum / totalWeight) * 0.7 + f.confidence * 0.3;
  }

  /** With non-negative weights and metric values in [0, 1], the weighted sum
      lies between 0 and the total present weight. */
  lemma {:induction false} WeightedSumBounds(metrics: map<string, real>, weights: seq<(string, real)>)
    requires MetricsValid(metrics)
    requires forall i :: 0 <= i < |weights| ==> weights[i].1 >= 0.0
    ensures 0.0 <= WeightedSum(metrics, weights) <= PresentWeight(metrics, weights)
    ensures PresentWeight(metrics, weights) >= 0.0
    decreases |weights|
  {
    if weights != [] {
      var init := weights[..|weights| - 1];
      var (name, w) := weights[|weights| - 1];
      assert forall i :: 0 <= i < |init| ==> init[i] == weights[i];
      WeightedSumBounds(metrics, init);
      assert w >= 0.0;
      if name in metrics {
        WeightedTermLe(metrics[name], w);
        assert WeightedSum(metrics, weights) == WeightedSum(metrics, init) + metrics[name] * w;
        assert PresentWeight(metrics, weights) == PresentWeight(metrics, init) + w;
      } else {
        assert WeightedSum(metrics, weights) == WeightedSum(metrics, init);
        assert PresentWeight(metrics, weights) == PresentWeight(metrics, init);
      }
    }
  }

  lemma WeightedTermLe(v: real, w: real)
    requires 0.0 <= v <= 1.0 && w >= 0.0
    ensures 0.0 <= v * w <= w
  {
  }

  /** The overall score of a valid face is in [0, 1]; without metrics it is
      the confidence. */
  lemma QualityScoreInUnit(f: Face)
    requires ValidFace(f)
    ensures 0.0 <= QualityScore(f) <= 1.0
    ensures |f.metrics| == 0 ==> QualityScore(f) == f.confidence
  {
    if |f.metrics| > 0 && PresentWeight(f.metrics, QualityWeights) != 0.0 {
      WeightedSumBounds(f.metrics, QualityWeights);
      var m := WeightedSum(f.metrics, QualityWeights) / PresentWeight(f.metrics, QualityWeights);
      assert 0.0 <= m <= 1.0;
      BlendInUnit(m, f.confidence);
    }
  }

  /** 0.7·m + 0.3·c of two values in [0, 1] is in [0, 1]. */
  lemma BlendInUnit(m: real, c: real)
    requires 0.0 <= m <= 1.0 && 0.0 <= c <= 1.0
    ensures 0.0 <= m * 0.7 + c * 0.3 <= 1.0
  {
  }

  // ---------------------------------------------------------------------
  // High-quality test

  /** The values of the listed metrics that reach their thresholds, in order. */
  function PassingValues(metrics: map<string, real>, thresholds: seq<(string, real)>): (vs: seq<real>)
    ensures |vs| <= |thresholds|
  {
    if thresholds == [] then []
    else
      var (name, t) := thresholds[|thresholds| - 1];
      PassingValues(metrics, thresholds[..|thresholds| - 1])
        + (if name in metrics && metrics[name] >= t then [metrics[name]] else [])
  }

  /** High quality: some metric present, the mean of those that reach their
      thresholds at least 0.7, and the confidence at least 0.7. */
  predicate HighQuality(f: Face)
  {
    var passing := PassingValues(f.metrics, QualityThresholds);
    |f.metrics| > 0 && |passing| > 0
    && Mean(passing) >= 0.7 && f.confidence >= 0.7
  }

  /** `is_high_quality`, summing the passing values and counting them. */
  method IsHighQuality(f: Face) returns (high: bool)
    ensures high == HighQuality(f)
  {
    if |f.metrics| == 0 {
      return false;
    }
    var totalScore := 0.0;
    var totalWeight := 0.0;
    var i := 0;
    while i < |QualityThresholds|
      invariant 0 <= i <= |QualityThresholds|
      invariant totalScore == Sum(PassingValues(f.metrics, QualityThresholds[..i]))
      invariant totalWeight == |PassingValues(f.metrics, QualityThresholds[..i])| as real
    {
      var (name, t) := QualityThresholds[i];
      PassingValuesStep(f.metrics, QualityThresholds, i);
      if name in f.metrics {
        var value := f.metrics[name];
        if value >= t {
          totalScore := totalScore + value;
          totalWeight := totalWeight + 1.0;
        }
      }
      i := i + 1;
    }
    assert QualityThresholds[..i] == QualityThresholds;
    if totalWeight == 0.0 {
      return false;
    }
    high := totalScore / totalWeight >= 0.7 && f.confidence >= 0.7;
  }

  /** One more threshold adds its metric's value when it passes; the sum and
      count of the passing values grow accordingly. */
  lemma PassingValuesStep(metrics: map<string, real>, thresholds: seq<(string, real)>, i: int)
    requires 0 <= i < |thresholds|
    ensures var before := PassingValues(metrics, thresholds[..i]);
            var after := PassingValues(metrics, thresholds[..i + 1]);
            var (name, t) := thresholds[i];
            if name in metrics && metrics[name] >= t
            then Sum(after) == Sum(before) + metrics[name] && |after| == |before| + 1
            else after == before
  {
    var before := PassingValues(metrics, thresholds[..i]);
    var after := PassingValues(metrics, thresholds[..i + 1]);
    assert thresholds[..i + 1][..i] == thresholds[..i];
    var (name, t) := thresholds[i];
    if name in metrics && metrics[name] >= t {
      assert after == before + [metrics[name]];
      assert after[..|after| - 1] == before;
    } else {
      assert after == before + [];
    }
  }

  /** Every passing value is the value of a carried metric. */
  lemma {:induction false} PassingValuesAreMetrics(metrics: map<string, real>, thresholds: seq<(string, real)>, j: int)
    requires 0 <= j < |PassingValues(metrics, thresholds)|
    ensures exists k :: k in metrics && metrics[k] == PassingValues(metrics, thresholds)[j]
    decreases |thresholds|
  {
    var init := PassingValues(metrics, thresholds[..|thresholds| - 1]);
    if j < |init| {
      PassingValuesAreMetrics(metrics, thresholds[..|thresholds| - 1], j);
    } else {
      var name := thresholds[|thresholds| - 1].0;
      assert name in metrics && metrics[name] == PassingValues(metrics, thresholds)[j];
    }
  }

  /** A high-quality face has confidence at least 0.7 and carries a metric
      of value at least 0.7; a face without metrics, or with no metric at
      its threshold, is never high quality. */
  lemma HighQualityWitness(f: Face)
    ensures HighQuality(f) ==> f.confidence >= 0.7
    ensures HighQuality(f) ==> exists k :: k in f.metrics && f.metrics[k] >= 0.7
    ensures |f.metrics| == 0 ==> !HighQuality(f)
    ensures PassingValues(f.metrics, QualityThresholds) == [] ==> !HighQuality(f)
  {
    if HighQuality(f) {
      var passing := PassingValues(f.metrics, QualityThresholds);
      SomeAtLeastMean(passing, 0.7);
      var j :| 0 <= j < |passing| && passing[j] >= 0.7;
      PassingValuesAreMetrics(f.metrics, QualityThresholds, j);
    }
  }

  // ---------------------------------------------------------------------
  // Landmarks

  /** `landmark_count`. */
  function LandmarkCount(f: Face): nat { |f.landmarks| }

  /** `has_sufficient_landmarks`: at least five landmarks. */
  predicate HasSufficientLandmarks(f: Face) { LandmarkCount(f) >= 5 }

  /** The landmarks at the listed indices that exist, in index-list order. */
  function Picked(landmarks: seq<Point>, indices: seq<nat>): seq<Point>
  {
    if indices == [] then []
    else
      var idx := indices[|indices| - 1];
      Picked(landmarks, indices[..|indices| - 1])
        + (if idx < |landmarks| then [landmarks[idx]] else [])
  }

  /** When every index exists, exactly the indexed landmarks are picked. */
  lemma {:induction false} PickedAllPresent(landmarks: seq<Point>, indices: seq<nat>)
    requires forall i :: 0 <= i < |indices| ==> indices[i] < |landmarks|
    ensures |Picked(landmarks, indices)| == |indices|
    ensures forall i :: 0 <= i < |indices| ==> Picked(landmarks, indices)[i] == landmarks[indices[i]]
    decreases |indices|
  {
    if indices != [] {
      PickedAllPresent(landmarks, indices[..|indices| - 1]);
    }
  }

  /** Copies the landmarks at the listed indices that exist. */
  method PickLandmarks(landmarks: seq<Point>, indices: seq<nat>) returns (picked: seq<Point>)
    ensures picked == Picked(landmarks, indices)
  {
    picked := [];
    var i := 0;
    while i < |indices|
      invariant 0 <= i <= |indices|
      invariant picked == Picked(landmarks, indices[..i])
    {
      assert indices[..i + 1][..i] == indices[..i];
      if indices[i] < |landmarks| {
        picked := picked + [landmarks[indices[i]]];
      }
      i := i + 1;
    }
    assert indices[..i] == indices;
  }

  /** Eye landmarks: on a partial mesh the first four (none if fewer than
      four), on a full mesh the eye indices. */
  function EyeLandmarksOf(f: Face): seq<Point>
  {
    if |f.landmarks| < FullMeshSize then
      (if |f.landmarks| >= 4 then f.landmarks[..4] else [])
    else Picked(f.landmarks, EyeIndices)
  }

  /** Mouth landmarks: on a partial mesh the last four (none if fewer than
      four), on a full mesh the mouth indices. */
  function MouthLandmarksOf(f: Face): seq<Point>
  {
    if |f.landmarks| < FullMeshSize then
      (if |f.landmarks| >= 4 then f.landmarks[|f.landmarks| - 4..] else [])
    else Picked(f.landmarks, MouthIndices)
  }

  /** `get_eye_landmarks`. */
  method GetEyeLandmarks(f: Face) returns (eyes: seq<Point>)
    ensures eyes == EyeLandmarksOf(f)
  {
    if |f.landmarks| < FullMeshSize {
      eyes := if |f.landmarks| >= 4 then f.landmarks[..4] else [];
    } else {
      eyes := PickLandmarks(f.landmarks, EyeIndices);
    }
  }

  /** `get_mouth_landmarks`. */
  method GetMouthLandmarks(f: Face) returns (mouth: seq<Point>)
    ensures mouth == MouthLandmarksOf(f)
  {
    if |f.landmarks| < FullMeshSize {
      mouth := if |f.landmarks| >= 4 then f.landmarks[|f.landmarks| - 4..] else [];
    } else {
      mouth := PickLandmarks(f.landmarks, MouthIndices);
    }
  }

  /** On a full mesh every eye and mouth index exists, so the eyes are the 32
      indexed landmarks and the mouth the 12; on a partial mesh they are the
      first and the last four, or nothing below four landmarks. */
  lemma LandmarkSlices(f: Face)
    ensures |f.landmarks| < FullMeshSize && |f.landmarks| >= 4 ==>
      EyeLandmarksOf(f) == f.landmarks[..4] && MouthLandmarksOf(f) == f.landmarks[|f.landmarks| - 4..]
    ensures |f.landmarks| < 4 ==> EyeLandmarksOf(f) == [] && MouthLandmarksOf(f) == []
    ensures |f.landmarks| >= FullMeshSize ==>
      |EyeLandmarksOf(f)| == 32 && |MouthLandmarksOf(f)| == 12
      && (forall i :: 0 <= i < 32 ==> EyeLandmarksOf(f)[i] == f.landmarks[EyeIndices[i]])
      && (forall i :: 0 <= i < 12 ==> MouthLandmarksOf(f)[i] == f.landmarks[MouthIndices[i]])
  {
    if |f.landmarks| >= FullMeshSize {
      PickedAllPresent(f.landmarks, EyeIndices);
      PickedAllPresent(f.landmarks, MouthIndices);
    }
  }

  // ---------------------------------------------------------------------
  // Symmetry

  /** The score of the pair (landmarks[i], landmarks[i+1]): one minus the
      relative difference of their horizontal distances from the centre
      line, or nothing when both lie on it. */
  function PairScore(l: Point, r: Point, cx: real): seq<real>
  {
    var ld := Abs(l.x - cx);
    var rd := Abs(r.x - cx);
    if ld + rd > 0.0 then [1.0 - Abs(ld - rd) / (ld + rd)] else []
  }

  /** Scores of the pairs starting at the even indices below `bound`. */
  function PairScores(landmarks: seq<Point>, cx: real, bound: nat): seq<real>
  {
    if bound == 0 then []
    else
      var i := bound - 1;
      PairScores(landmarks, cx, i)
        + (if i % 2 == 0 && i + 1 < |landmarks| then PairScore(landmarks[i], landmarks[i + 1], cx) else [])
  }

  /** An odd index starts no pair. */
  lemma PairScoresSkipOdd(landmarks: seq<Point>, cx: real, j: nat)
    requires j % 2 == 1
    ensures PairScores(landmarks, cx, j + 1) == PairScores(landmarks, cx, j)
  {
    assert PairScores(landmarks, cx, j + 1) == PairScores(landmarks, cx, j) + [];
  }

  /** The symmetry fallback: the 'symmetry' metric, or 0.5. */
  function SymmetryFallback(f: Face): real
  {
    if "symmetry" in f.metrics then f.metrics["symmetry"] else 0.5
  }

  /** Face symmetry: the fallback below ten landmarks or when no pair among
      the first twenty landmarks has a score, otherwise the mean pair score. */
  function Symmetry(f: Face): real
  {
    if |f.landmarks| < 10 then SymmetryFallback(f)
    else
      var scores := PairScores(f.landmarks, Center(f.box).x, MinInt(|f.landmarks|, 20));
      if scores == [] then SymmetryFallback(f) else Mean(scores)
  }

  /** `calculate_face_symmetry`, collecting the pair scores in a loop over
      the even indices. */
  method CalculateFaceSymmetry(f: Face) returns (symmetry: real)
    ensures symmetry == Symmetry(f)
  {
    if |f.landmarks| < 10 {
      return SymmetryFallback(f);
    }
    var cx := Center(f.box).x;
    var bound := MinInt(|f.landmarks|, 20);
    var scores: seq<real> := [];
    var i := 0;
    ghost var pairs := 0;
    while i < bound
      invariant 0 <= i && i == 2 * pairs
      invariant i <= bound + 1
      invariant scores == PairScores(f.landmarks, cx, MinInt(i, bound))
    {
      if i + 1 < |f.landmarks| {
        var left := f.landmarks[i];
        var right := f.landmarks[i + 1];
        var ld := Abs(left.x - cx);
        var rd := Abs(right.x - cx);
        if ld + rd > 0.0 {
          scores := scores + [1.0 - Abs(ld - rd) / (ld + rd)];
        }
      }
      assert PairScores(f.landmarks, cx, i + 1) == scores;
      PairScoresSkipOdd(f.landmarks, cx, i + 1);
      i, pairs := i + 2, pairs + 1;
    }
    if scores == [] {
      return SymmetryFallback(f);
    }
    symmetry := Sum(scores) / |scores| as real;
  }

  /** Every pair score is in [0, 1]. */
  lemma PairScoreInUnit(l: Point, r: Point, cx: real)
    ensures forall j :: 0 <= j < |PairScore(l, r, cx)| ==> 0.0 <= PairScore(l, r, cx)[j] <= 1.0
  {
    var ld := Abs(l.x - cx);
    var rd := Abs(r.x - cx);
    if ld + rd > 0.0 {
      assert Abs(ld - rd) <= ld + rd;
      DivAtMostOne(Abs(ld - rd), ld + rd);
    }
  }

  lemma {:induction false} PairScoresInUnit(landmarks: seq<Point>, cx: real, bound: nat)
    ensures forall j :: 0 <= j < |PairScores(landmarks, cx, bound)| ==> 0.0 <= PairScores(landmarks, cx, bound)[j] <= 1.0
    decreases bound
  {
    if bound > 0 {
      var i := bound - 1;
      PairScoresInUnit(landmarks, cx, i);
      if i % 2 == 0 && i + 1 < |landmarks| {
        PairScoreInUnit(landmarks[i], landmarks[i + 1], cx);
      }
    }
  }

  /** The symmetry of a valid face is in [0, 1], and below ten landmarks it
      is the 'symmetry' metric, or 0.5 without one. */
  lemma SymmetryInUnit(f: Face)
    requires ValidFace(f)
    ensures 0.0 <= Symmetry(f) <= 1.0
    ensures |f.landmarks| < 10 ==>
      Symmetry(f) == (if "symmetry" in f.metrics then f.metrics["symmetry"] else 0.5)
  {
    if |f.landmarks| >= 10 {
      var scores := PairScores(f.landmarks, Center(f.box).x, MinInt(|f.landmarks|, 20));
      if scores != [] {
        PairScoresInUnit(f.landmarks, Center(f.box).x, MinInt(|f.landmarks|, 20));
        MeanBounds(scores, 0.0, 1.0);
      }
    }
  }

  /** `is_frontal_face(threshold)`; the source's default threshold is 0.5. */
  predicate IsFrontalFace(f: Face, threshold: real)
  {
    Abs(f.faceAngle) <= threshold
  }

  const DefaultFrontalThreshold: real := 0.5

  /** A face is frontal exactly when its angle lies within ±threshold, so
      a larger threshold accepts every face a smaller one does. */
  lemma FrontalWithinThreshold(f: Face, t: real, u: real)
    ensures IsFrontalFace(f, t) <==> -t <= f.faceAngle <= t
    ensures t <= u && IsFrontalFace(f, t) ==> IsFrontalFace(f, u)
  {
  }
}
