// The diversity selector (`DiversitySelector`): per-frame diversity scores
// from three pairwise-distance views (ORB descriptors, colour histograms,
// face positions), the blend of diversity with quality, and the selection
// of `count` frames through clustering of the best candidates. The feature
// extractors, `pairwise_distances`, `cv2.compareHist` and KMeans are
// oracles: the model receives the distance or correlation matrices they
// produce (none when the computation raised) and the cluster labels (none
// when clustering raised).

module DiversitySelector {
  import opened Errors
  import opened PyMath
  import opened Ordering
  import opened Frame

  type Matrix = seq<seq<real>>

  /** An n-by-n matrix, as `pairwise_distances` returns for n vectors. */
  predicate Square(m: Matrix, n: nat)
  {
    |m| == n && forall i :: 0 <= i < n ==> |m[i]| == n
  }

  /** `[v] * n`. */
  function Constant(n: nat, v: real): (s: seq<real>)
    ensures |s| == n && forall i :: 0 <= i < n ==> s[i] == v
  {
    seq(n, _ => v)
  }

  /** `np.concatenate([row[:i], row[i+1:]])`: the row without entry i. */
  function Others(row: seq<real>, i: nat): (o: seq<real>)
    requires i < |row|
    ensures |o| == |row| - 1
    ensures forall j :: 0 <= j < i ==> o[j] == row[j]
    ensures forall j :: i <= j < |o| ==> o[j] == row[j + 1]
  {
    row[..i] + row[i + 1..]
  }

  /** The mean distance from frame i to the other frames. */
  function MeanDistance(m: Matrix, i: nat): real
    requires |m| >= 2 && i < |m| && |m[i]| == |m|
  {
    Mean(Others(m[i], i))
  }

  // ---------------------------------------------------------------------
  // Feature (ORB) diversity

  function FeatureScore(m: Matrix, i: nat): real
    requires |m| >= 2 && i < |m| && |m[i]| == |m|
  {
    Clamp(MeanDistance(m, i), 0.0, 1.0)
  }

  /** `_calculate_feature_diversity` on the cosine-distance matrix of the
      descriptors: all 1.0 below two frames, all 0.5 when the computation
      raised, otherwise each frame's mean distance to the others clamped to
      [0, 1]. */
  function FeatureDiversity(distances: Option<Matrix>, n: nat): (ds: seq<real>)
    requires distances.Some? ==> Square(distances.value, n)
    ensures |ds| == n
    ensures forall i :: 0 <= i < n ==> 0.0 <= ds[i] <= 1.0
  {
    if n < 2 then Constant(n, 1.0)
    else if distances.None? then Constant(n, 0.5)
    else seq(n, i requires 0 <= i < n => FeatureScore(distances.value, i))
  }

  /** The loop of `_calculate_feature_diversity`. */
  method FeatureDiversityScores(distances: Option<Matrix>, n: nat) returns (ds: seq<real>)
    requires distances.Some? ==> Square(distances.value, n)
    ensures ds == FeatureDiversity(distances, n)
  {
    if n < 2 {
      return Constant(n, 1.0);
    }
    if distances.None? {
      return Constant(n, 0.5);
    }
    var m := distances.value;
    ds := [];
    var i := 0;
    while i < n
      invariant 0 <= i <= n && |ds| == i
      invariant forall k :: 0 <= k < i ==> ds[k] == FeatureScore(m, k)
    {
      ds := ds + [FeatureScore(m, i)];
      i := i + 1;
    }
  }

  /** Distances already in [0, 1] (cosine distances of non-negative
      descriptors) pass the clamp unchanged: the score is the plain mean
      distance to the other frames. */
  lemma FeatureDiversityIsMeanDistance(m: Matrix, i: nat)
    requires |m| >= 2 && Square(m, |m|) && i < |m|
    requires forall j :: 0 <= j < |m| && j != i ==> 0.0 <= m[i][j] <= 1.0
    ensures FeatureDiversity(Some(m), |m|)[i] == MeanDistance(m, i)
  {
    var o := Others(m[i], i);
    forall j | 0 <= j < |o|
      ensures 0.0 <= o[j] <= 1.0
    {
      if j >= i {
        assert o[j] == m[i][j + 1];
      }
    }
    MeanBounds(o, 0.0, 1.0);
  }

  // ---------------------------------------------------------------------
  // Colour-histogram diversity

  /** `1.0 - max(0.0, correlation)`. */
  function Distance(correlation: real): real
  {
    1.0 - Max(0.0, correlation)
  }

  /** The distances of a correlation row. */
  function DistanceRow(row: seq<real>): (d: seq<real>)
    ensures |d| == |row| && forall j :: 0 <= j < |row| ==> d[j] == Distance(row[j])
  {
    seq(|row|, j requires 0 <= j < |row| => Distance(row[j]))
  }

  /** `total_distance` after the inner loop has seen the first j entries of
      row i: the distances to every frame but i itself, left to right. */
  function DistanceSumExcept(row: seq<real>, i: nat, j: nat): real
    requires j <= |row|
  {
    if j == 0 then 0.0
    else DistanceSumExcept(row, i, j - 1) + (if j - 1 != i then Distance(row[j - 1]) else 0.0)
  }

  function HistogramScore(c: Matrix, i: nat): real
    requires |c| >= 2 && i < |c| && |c[i]| == |c|
  {
    Clamp(DistanceSumExcept(c[i], i, |c|) / (|c| - 1) as real, 0.0, 1.0)
  }

  /** `_calculate_histogram_diversity` on the matrix of `compareHist`
      correlations: all 1.0 below two frames, all 0.5 when a comparison
      raised, otherwise the average distance to the other frames clamped to
      [0, 1]. */
  function HistogramDiversity(correlations: Option<Matrix>, n: nat): (ds: seq<real>)
    requires correlations.Some? ==> Square(correlations.value, n)
    ensures |ds| == n
    ensures forall i :: 0 <= i < n ==> 0.0 <= ds[i] <= 1.0
  {
    if n < 2 then Constant(n, 1.0)
    else if correlations.None? then Constant(n, 0.5)
    else seq(n, i requires 0 <= i < n => HistogramScore(correlations.value, i))
  }

  /** The nested loops of `_calculate_histogram_diversity`. */
  method HistogramDiversityScores(correlations: Option<Matrix>, n: nat) returns (ds: seq<real>)
    requires correlations.Some? ==> Square(correlations.value, n)
    ensures ds == HistogramDiversity(correlations, n)
  {
    if n < 2 {
      return Constant(n, 1.0);
    }
    if correlations.None? {
      return Constant(n, 0.5);
    }
    var c := correlations.value;
    ds := [];
    var i := 0;
    while i < n
      invariant 0 <= i <= n && |ds| == i
      invariant forall k :: 0 <= k < i ==> ds[k] == HistogramScore(c, k)
    {
      var total := 0.0;
      var count := 0;
      var j := 0;
      while j < n
        invariant 0 <= j <= n
        invariant total == DistanceSumExcept(c[i], i, j)
        invariant count == if j > i then j - 1 else j
      {
        if i != j {
          total := total + Distance(c[i][j]);
          count := count + 1;
        }
        j := j + 1;
      }
      ds := ds + [Clamp(total / count as real, 0.0, 1.0)];
      i := i + 1;
    }
  }

  /** Summing while skipping entry i is summing the row without entry i. */
  lemma {:induction false} DistanceSumExceptIsSum(row: seq<real>, i: nat, j: nat)
    requires i < |row| && j <= |row|
    ensures j <= i ==> DistanceSumExcept(row, i, j) == Sum(DistanceRow(row)[..j])
    ensures j > i ==> DistanceSumExcept(row, i, j) == Sum(Others(DistanceRow(row), i)[..j - 1])
  {
    var d := DistanceRow(row);
    if j > 0 {
      DistanceSumExceptIsSum(row, i, j - 1);
      if j <= i {
        assert d[..j][..j - 1] == d[..j - 1];
      } else if j - 1 == i {
        assert Others(d, i)[..j - 1] == d[..i];
      } else {
        var o := Others(d, i);
        assert o[..j - 1][..j - 2] == o[..j - 2];
        assert o[j - 2] == d[j - 1];
      }
    }
  }

  /** The matrix of distances `1 - max(0, correlation)`. */
  function DistanceMatrix(c: Matrix): (d: Matrix)
    ensures |d| == |c| && forall i :: 0 <= i < |c| ==> d[i] == DistanceRow(c[i])
  {
    seq(|c|, i requires 0 <= i < |c| => DistanceRow(c[i]))
  }

  /** The histogram loops compute what the feature diversity computes on the
      matrix of distances: each frame's mean distance to the others. */
  lemma HistogramIsMeanOfDistances(c: Matrix)
    requires |c| >= 2 && Square(c, |c|)
    ensures HistogramDiversity(Some(c), |c|) == FeatureDiversity(Some(DistanceMatrix(c)), |c|)
  {
    var n := |c|;
    var d := DistanceMatrix(c);
    forall i | 0 <= i < n
      ensures HistogramDiversity(Some(c), n)[i] == FeatureDiversity(Some(d), n)[i]
    {
      HistogramScoreIsFeatureScore(c, d, i);
    }
  }

  lemma HistogramScoreIsFeatureScore(c: Matrix, d: Matrix, i: nat)
    requires |c| >= 2 && Square(c, |c|) && i < |c| && d == DistanceMatrix(c)
    ensures HistogramScore(c, i) == FeatureScore(d, i)
  {
    var n := |c|;
    DistanceSumExceptIsSum(c[i], i, n);
    assert Others(d[i], i)[..n - 1] == Others(d[i], i);
  }

  // ---------------------------------------------------------------------
  // Face-position diversity

  /** `np.sqrt(2.0)`, the diagonal of the unit square, as a double. */
  const MaxDistance: real := 1.4142135623730951

  function FaceScore(m: Matrix, i: nat): real
    requires |m| >= 2 && i < |m| && |m[i]| == |m|
  {
    Min(1.0, MeanDistance(m, i) / MaxDistance)
  }

  /** `_calculate_face_position_diversity` on the Euclidean distance matrix
      of the face-position vectors: all 1.0 below two frames, all 0.5 when
      the computation raised, otherwise the mean distance to the others
      over the unit diagonal, capped at 1 (and not clamped below). */
  function FacePositionDiversity(distances: Option<Matrix>, n: nat): (ds: seq<real>)
    requires distances.Some? ==> Square(distances.value, n)
    ensures |ds| == n
    ensures forall i :: 0 <= i < n ==> ds[i] <= 1.0
  {
    if n < 2 then Constant(n, 1.0)
    else if distances.None? then Constant(n, 0.5)
    else seq(n, i requires 0 <= i < n => FaceScore(distances.value, i))
  }

  /** The loop of `_calculate_face_position_diversity`. */
  method FacePositionDiversityScores(distances: Option<Matrix>, n: nat) returns (ds: seq<real>)
    requires distances.Some? ==> Square(distances.value, n)
    ensures ds == FacePositionDiversity(distances, n)
  {
    if n < 2 {
      return Constant(n, 1.0);
    }
    if distances.None? {
      return Constant(n, 0.5);
    }
    var m := distances.value;
    ds := [];
    var i := 0;
    while i < n
      invariant 0 <= i <= n && |ds| == i
      invariant forall k :: 0 <= k < i ==> ds[k] == FaceScore(m, k)
    {
      ds := ds + [FaceScore(m, i)];
      i := i + 1;
    }
  }

  /** Euclidean distances are non-negative, and then every face-position
      score lies in [0, 1]; a frame whose face sits where every other
      frame's does scores 0. */
  lemma FacePositionInUnit(m: Matrix, i: nat)
    requires |m| >= 2 && Square(m, |m|) && i < |m|
    requires forall j :: 0 <= j < |m| ==> 0.0 <= m[i][j]
    ensures 0.0 <= FacePositionDiversity(Some(m), |m|)[i] <= 1.0
    ensures (forall j :: 0 <= j < |m| ==> m[i][j] == 0.0) ==> FacePositionDiversity(Some(m), |m|)[i] == 0.0
  {
    var o := Others(m[i], i);
    var top := Max(1.0, MaxOf(o));
    forall j | 0 <= j < |o|
      ensures 0.0 <= o[j] <= top
    {
      if j >= i {
        assert o[j] == m[i][j + 1];
      }
      MaxOfBounds(o, j);
    }
    MeanBounds(o, 0.0, top);
    if forall j :: 0 <= j < |m| ==> m[i][j] == 0.0 {
      forall j | 0 <= j < |o|
        ensures 0.0 <= o[j] <= 0.0
      {
        if j >= i {
          assert o[j] == m[i][j + 1];
        }
      }
      MeanBounds(o, 0.0, 0.0);
    }
  }

  /** The largest entry of a non-empty sequence. */
  function MaxOf(s: seq<real>): real
    requires |s| > 0
  {
    if |s| == 1 then s[0] else Max(MaxOf(s[..|s| - 1]), s[|s| - 1])
  }

  lemma {:induction false} MaxOfBounds(s: seq<real>, j: nat)
    requires j < |s|
    ensures s[j] <= MaxOf(s)
    decreases |s|
  {
    if |s| > 1 && j < |s| - 1 {
      MaxOfBounds(s[..|s| - 1], j);
    }
  }

  // ---------------------------------------------------------------------
  // The combined diversity score

  /** The fixed weights of the three views: 0.4 ORB, 0.3 colour, 0.3 face. */
  function Blend(orb: real, color: real, face: real): real
  {
    orb * 0.4 + color * 0.3 + face * 0.3
  }

  /** `calculate_diversity_scores`: all 1.0 below two frames, otherwise the
      blend of the three views per frame, clamped to [0, 1]. */
  function DiversityScores(n: nat, orb: Option<Matrix>, hist: Option<Matrix>, face: Option<Matrix>): (ds: seq<real>)
    requires orb.Some? ==> Square(orb.value, n)
    requires hist.Some? ==> Square(hist.value, n)
    requires face.Some? ==> Square(face.value, n)
    ensures |ds| == n
    ensures forall i :: 0 <= i < n ==> 0.0 <= ds[i] <= 1.0
  {
    if n < 2 then Constant(n, 1.0)
    else
      var o := FeatureDiversity(orb, n);
      var c := HistogramDiversity(hist, n);
      var f := FacePositionDiversity(face, n);
      seq(n, i requires 0 <= i < n => Clamp(Blend(o[i], c[i], f[i]), 0.0, 1.0))
  }

  /** The blending loop of `calculate_diversity_scores`. The `except`
      branch raising `DiversityCalculationError` is not reachable: each view
      catches its own failures. */
  method CalculateDiversityScores(frames: seq<Frame>, orb: Option<Matrix>, hist: Option<Matrix>,
                                  face: Option<Matrix>) returns (ds: seq<real>)
    requires orb.Some? ==> Square(orb.value, |frames|)
    requires hist.Some? ==> Square(hist.value, |frames|)
    requires face.Some? ==> Square(face.value, |frames|)
    ensures ds == DiversityScores(|frames|, orb, hist, face)
  {
    var n := |frames|;
    if n < 2 {
      return Constant(n, 1.0);
    }
    var o := FeatureDiversityScores(orb, n);
    var c := HistogramDiversityScores(hist, n);
    var f := FacePositionDiversityScores(face, n);
    ds := [];
    var i := 0;
    while i < n
      invariant 0 <= i <= n && |ds| == i
      invariant forall k :: 0 <= k < i ==> ds[k] == Clamp(Blend(o[k], c[k], f[k]), 0.0, 1.0)
    {
      ds := ds + [Clamp(Blend(o[i], c[i], f[i]), 0.0, 1.0)];
      i := i + 1;
    }
  }

  /** The weights sum to 1, so with non-negative face distances the blend of
      the three views already lies in [0, 1] and the clamp changes nothing. */
  lemma BlendNeedsNoClamp(n: nat, orb: Option<Matrix>, hist: Option<Matrix>, face: Option<Matrix>, i: nat)
    requires n >= 2 && i < n
    requires orb.Some? ==> Square(orb.value, n)
    requires hist.Some? ==> Square(hist.value, n)
    requires face.Some? ==> Square(face.value, n)
    requires face.Some? ==> forall j :: 0 <= j < n ==> 0.0 <= face.value[i][j]
    ensures DiversityScores(n, orb, hist, face)[i]
         == Blend(FeatureDiversity(orb, n)[i], HistogramDiversity(hist, n)[i], FacePositionDiversity(face, n)[i])
  {
    if face.Some? {
      FacePositionInUnit(face.value, i);
    }
  }

  // ---------------------------------------------------------------------
  // Diversity and quality

  /** The frames' quality scores, as `frame.quality_score` reads them. */
  function Qualities(frames: seq<Frame>): (qs: seq<real>)
    reads frames
    ensures |qs| == |frames|
  {
    seq(|frames|, i requires 0 <= i < |frames| reads frames => frames[i].qualityScore)
  }

  /** The total score of each frame: `diversity * w + quality * (1 - w)`. */
  function Combined(ds: seq<real>, qs: seq<real>, w: real): (keys: seq<real>)
    requires |qs| == |ds|
    ensures |keys| == |ds|
  {
    seq(|ds|, i requires 0 <= i < |ds| => Mix(ds[i], qs[i], w))
  }

  /** With a weight in [0, 1] each total lies between the frame's diversity
      and its quality; weight 1 ranks by diversity alone and weight 0 by
      quality alone. */
  lemma CombinedBetween(ds: seq<real>, qs: seq<real>, w: real)
    requires |qs| == |ds| && 0.0 <= w <= 1.0
    ensures forall i :: 0 <= i < |ds| ==>
              Min(ds[i], qs[i]) <= Combined(ds, qs, w)[i] <= Max(ds[i], qs[i])
    ensures w == 1.0 ==> Combined(ds, qs, w) == ds
    ensures w == 0.0 ==> Combined(ds, qs, w) == qs
  {
    forall i | 0 <= i < |ds|
      ensures Min(ds[i], qs[i]) <= Combined(ds, qs, w)[i] <= Max(ds[i], qs[i])
      ensures w == 1.0 ==> Combined(ds, qs, w)[i] == ds[i]
      ensures w == 0.0 ==> Combined(ds, qs, w)[i] == qs[i]
    {
      MixBetween(ds[i], qs[i], w);
    }
  }

  /** The loop of `select_diverse_frames` that pairs each frame with its
      total score. */
  method CombinedScores(frames: seq<Frame>, ds: seq<real>, w: real) returns (keys: seq<real>)
    requires |ds| == |frames|
    ensures keys == Combined(ds, Qualities(frames), w)
  {
    keys := [];
    var i := 0;
    while i < |frames|
      invariant 0 <= i <= |frames| && |keys| == i
      invariant forall k :: 0 <= k < i ==> keys[k] == Mix(ds[k], frames[k].qualityScore, w)
    {
      keys := keys + [Mix(ds[i], frames[i].qualityScore, w)];
      i := i + 1;
    }
  }

  // ---------------------------------------------------------------------
  // Ranking

  /** One entry of `combined_scores`: `(total_score, i, frame)`. */
  datatype Scored = Scored(score: real, index: nat, frame: Frame)

  /** `combined_scores` after `sort(key=lambda x: x[0], reverse=True)`: the
      frames by descending total, ties in their original order. */
  function ScoredFrames(frames: seq<Frame>, keys: seq<real>): (sf: seq<Scored>)
    requires |keys| == |frames|
    ensures |sf| == |frames|
    ensures forall k :: 0 <= k < |sf| ==>
              sf[k].index < |frames| && sf[k].frame == frames[sf[k].index] && sf[k].score == keys[sf[k].index]
  {
    var order := Sorted(keys);
    seq(|frames|, k requires 0 <= k < |frames| => Scored(keys[order[k]], order[k], frames[order[k]]))
  }

  /** The ranking is a stable descending sort: totals do not increase,
      equal totals keep the frames' order, and every frame appears exactly
      once. */
  lemma ScoredFramesSorted(frames: seq<Frame>, keys: seq<real>)
    requires |keys| == |frames|
    ensures var sf := ScoredFrames(frames, keys);
            forall k1, k2 :: 0 <= k1 < k2 < |sf| ==> sf[k1].score >= sf[k2].score
    ensures var sf := ScoredFrames(frames, keys);
            forall k1, k2 :: 0 <= k1 < k2 < |sf| && sf[k1].score == sf[k2].score ==> sf[k1].index < sf[k2].index
    ensures var sf := ScoredFrames(frames, keys);
            forall k1, k2 :: 0 <= k1 < k2 < |sf| ==> sf[k1].index != sf[k2].index
    ensures forall q :: 0 <= q < |frames| ==> q in Indices(ScoredFrames(frames, keys))
  {
    var sf := ScoredFrames(frames, keys);
    var order := Sorted(keys);
    SortDescendingIsStableSort(keys, |keys|);
    SortMembers(keys, |keys|);
    assert forall k :: 0 <= k < |sf| ==> sf[k].index == order[k];
    assert Indices(sf) == order;
  }

  /** The original positions along the ranking. */
  function Indices(sf: seq<Scored>): (ix: seq<nat>)
    ensures |ix| == |sf| && forall k :: 0 <= k < |sf| ==> ix[k] == sf[k].index
  {
    seq(|sf|, k requires 0 <= k < |sf| => sf[k].index)
  }

  /** `min(len(scored_frames), count * 2)`. */
  function CandidateCount(n: nat, count: int): nat
    requires count >= 1
  {
    if n <= 2 * count then n else 2 * count
  }

  /** `[scored_frames[i][2] for i in range(k)]`. */
  function CandidateFrames(sf: seq<Scored>, k: nat): (cs: seq<Frame>)
    requires k <= |sf|
    ensures |cs| == k && forall p :: 0 <= p < k ==> cs[p] == sf[p].frame
  {
    seq(k, p requires 0 <= p < k => sf[p].frame)
  }

  /** The candidates are the best-ranked frames: no frame left out has a
      higher total than any candidate. */
  lemma CandidatesAreBest(frames: seq<Frame>, keys: seq<real>, k: nat)
    requires |keys| == |frames| && k <= |frames|
    ensures var sf := ScoredFrames(frames, keys);
            forall p, q :: 0 <= p < k && 0 <= q < |frames| && (forall j :: 0 <= j < k ==> sf[j].index != q)
              ==> sf[p].score >= keys[q]
  {
    var sf := ScoredFrames(frames, keys);
    var t := Top(keys, k);
    TopIsBest(keys, k);
    assert |t| == k;
    forall p, q | 0 <= p < k && 0 <= q < |frames| && (forall j :: 0 <= j < k ==> sf[j].index != q)
      ensures sf[p].score >= keys[q]
    {
      forall j | 0 <= j < k
        ensures t[j] != q
      {
        assert sf[j].index == t[j];
      }
      assert sf[p].index == t[p];
    }
  }

  // ---------------------------------------------------------------------
  // Cluster representatives

  /** The score each candidate is judged by inside its cluster: its own
      total, `scored_frames[idx][0]`. */
  function OwnScores(sf: seq<Scored>, k: nat): (ss: seq<real>)
    requires k <= |sf|
    ensures |ss| == k && forall p :: 0 <= p < k ==> ss[p] == sf[p].score
  {
    seq(k, p requires 0 <= p < k => sf[p].score)
  }

  predicate WellIndexed(sf: seq<Scored>)
  {
    forall k :: 0 <= k < |sf| ==> sf[k].index < |sf|
  }

  /** The score as line 415 reads it: `scored_frames[candidate_indices[idx]][0]`,
      the entry of the ranking at the frame's original position, which is
      the total of some other frame. */
  function AsWrittenScores(sf: seq<Scored>, k: nat): (ss: seq<real>)
    requires k <= |sf| && WellIndexed(sf)
    ensures |ss| == k && forall p :: 0 <= p < k ==> ss[p] == sf[sf[p].index].score
  {
    seq(k, p requires 0 <= p < k => sf[sf[p].index].score)
  }

  /** The inner loop over cluster `cid` after the first k candidates:
      `best_idx_in_cluster`, replaced whenever a member of the cluster
      scores strictly above the best so far (starting from -1.0). */
  function BestIn(scores: seq<real>, labels: seq<int>, cid: int, k: nat): (b: Option<nat>)
    requires |labels| == |scores| && k <= |scores|
    ensures b.Some? ==> b.value < k && labels[b.value] == cid
  {
    if k == 0 then None
    else
      var b := BestIn(scores, labels, cid, k - 1);
      var best := if b.Some? then scores[b.value] else -1.0;
      if labels[k - 1] == cid && scores[k - 1] > best then Some(k - 1) else b
  }

  /** The representative of a cluster is its first best-scoring member; a
      cluster has one exactly when a member scores above -1. */
  lemma {:induction false} BestInIsFirstMax(scores: seq<real>, labels: seq<int>, cid: int, k: nat)
    requires |labels| == |scores| && k <= |scores|
    ensures BestIn(scores, labels, cid, k).Some? <==>
              exists j :: 0 <= j < k && labels[j] == cid && scores[j] > -1.0
    ensures var b := BestIn(scores, labels, cid, k);
            b.Some? ==> (scores[b.value] > -1.0
                         && (forall j :: 0 <= j < k && labels[j] == cid ==> scores[j] <= scores[b.value])
                         && (forall j :: 0 <= j < b.value && labels[j] == cid ==> scores[j] < scores[b.value]))
  {
    if k > 0 {
      BestInIsFirstMax(scores, labels, cid, k - 1);
    }
  }

  /** The representatives of clusters 0..c-1 in cluster order. */
  function Representatives(scores: seq<real>, labels: seq<int>, c: nat): (reps: seq<nat>)
    requires |labels| == |scores|
    ensures |reps| <= c && Within(reps, |scores|)
  {
    if c == 0 then []
    else
      var reps := Representatives(scores, labels, c - 1);
      match BestIn(scores, labels, c - 1, |scores|)
      case Some(b) => reps + [b]
      case None => reps
  }

  /** Every entry of `ps` is below `bound`. */
  predicate Within(ps: seq<nat>, bound: nat)
  {
    forall i :: 0 <= i < |ps| ==> ps[i] < bound
  }

  /** No position occurs twice. */
  predicate Distinct(ps: seq<nat>)
  {
    forall i, j :: 0 <= i < j < |ps| ==> ps[i] != ps[j]
  }

  /** One representative per non-empty cluster, in cluster order: each is
      its cluster's best, clusters appear in increasing order (so no
      candidate twice), and every cluster with a member scoring above -1 is
      represented. */
  lemma {:induction false} RepresentativesExact(scores: seq<real>, labels: seq<int>, c: nat)
    requires |labels| == |scores|
    ensures var reps := Representatives(scores, labels, c);
            forall i :: 0 <= i < |reps| ==>
              0 <= labels[reps[i]] < c && BestIn(scores, labels, labels[reps[i]], |scores|) == Some(reps[i])
    ensures var reps := Representatives(scores, labels, c);
            forall i, j :: 0 <= i < j < |reps| ==> labels[reps[i]] < labels[reps[j]]
    ensures var reps := Representatives(scores, labels, c);
            forall cid :: 0 <= cid < c && BestIn(scores, labels, cid, |scores|).Some? ==>
              BestIn(scores, labels, cid, |scores|).value in reps
    ensures Distinct(Representatives(scores, labels, c))
  {
    if c > 0 {
      RepresentativesExact(scores, labels, c - 1);
    }
  }

  /** The loops of `_select_with_clustering` that pick one frame per
      cluster, judging each candidate by its own total. */
  method ClusterRepresentatives(scores: seq<real>, labels: seq<int>, nClusters: nat) returns (reps: seq<nat>)
    requires |labels| == |scores|
    ensures reps == Representatives(scores, labels, nClusters)
  {
    reps := [];
    var cid := 0;
    while cid < nClusters
      invariant 0 <= cid <= nClusters
      invariant reps == Representatives(scores, labels, cid)
    {
      var best: Option<nat> := None;
      var bestScore := -1.0;
      var idx := 0;
      while idx < |scores|
        invariant 0 <= idx <= |scores|
        invariant best == BestIn(scores, labels, cid, idx)
        invariant bestScore == if best.Some? then scores[best.value] else -1.0
      {
        if labels[idx] == cid && scores[idx] > bestScore {
          best := Some(idx);
          bestScore := scores[idx];
        }
        idx := idx + 1;
      }
      if best.Some? {
        reps := reps + [best.value];
      }
      cid := cid + 1;
    }
  }

  // ---------------------------------------------------------------------
  // Filling up to `count`

  /** `candidate in selected_frames`: some chosen candidate equals the
      frame (`Frame.__eq__`: same video file and frame number). */
  predicate Listed(cands: seq<Frame>, sel: seq<nat>, f: Frame)
    requires Within(sel, |cands|)
  {
    |sel| > 0 && (cands[sel[|sel| - 1]].SameFrame(f) || Listed(cands, sel[..|sel| - 1], f))
  }

  /** A frame is listed exactly when some chosen candidate equals it. */
  lemma {:induction false} ListedExact(cands: seq<Frame>, sel: seq<nat>, f: Frame)
    requires Within(sel, |cands|)
    ensures Listed(cands, sel, f) <==> exists i :: 0 <= i < |sel| && cands[sel[i]].SameFrame(f)
  {
    if |sel| > 0 {
      ListedExact(cands, sel[..|sel| - 1], f);
      assert forall i :: 0 <= i < |sel| - 1 ==> sel[..|sel| - 1][i] == sel[i];
    }
  }

  /** One pass of the inner `for candidate in candidates` loop over the
      first k candidates: each candidate not yet chosen is appended, and the
      pass breaks once `count` frames are chosen. */
  function Pass(cands: seq<Frame>, sel: seq<nat>, count: int, k: nat): (r: seq<nat>)
    requires k <= |cands| && Within(sel, |cands|)
    ensures Within(r, |cands|)
  {
    if k == 0 then sel
    else
      var s := Pass(cands, sel, count, k - 1);
      if |s| >= count || Listed(cands, s, cands[k - 1]) then s else s + [k - 1]
  }

  /** A pass keeps what was chosen, appends at most up to `count`, and
      appends nothing to a full selection. */
  lemma {:induction false} PassKeeps(cands: seq<Frame>, sel: seq<nat>, count: int, k: nat)
    requires k <= |cands| && Within(sel, |cands|)
    ensures var r := Pass(cands, sel, count, k);
            |sel| <= |r| && r[..|sel|] == sel
            && (|sel| < count ==> |r| <= count)
            && (|sel| >= count ==> r == sel)
  {
    if k > 0 {
      PassKeeps(cands, sel, count, k - 1);
      var s := Pass(cands, sel, count, k - 1);
      if !(|s| >= count || Listed(cands, s, cands[k - 1])) {
        assert (s + [k - 1])[..|sel|] == s[..|sel|];
      }
    }
  }

  /** The entries of `r` from position `from` on are below k and in
      increasing order. */
  predicate AppendedInOrder(r: seq<nat>, from: nat, k: nat)
  {
    && (forall j :: from <= j < |r| ==> r[j] < k)
    && (forall i, j :: from <= i < j < |r| ==> r[i] < r[j])
  }

  /** Each entry of `r` from position `from` on equals none before it. */
  predicate AppendedNew(cands: seq<Frame>, r: seq<nat>, from: nat)
    requires Within(r, |cands|)
  {
    forall i, j :: 0 <= i < j < |r| && from <= j ==> !cands[r[i]].SameFrame(cands[r[j]])
  }

  /** A pass appends candidates in candidate (and so score) order. */
  lemma {:induction false} PassAppendsInOrder(cands: seq<Frame>, sel: seq<nat>, count: int, k: nat)
    requires k <= |cands| && Within(sel, |cands|)
    ensures AppendedInOrder(Pass(cands, sel, count, k), |sel|, k)
  {
    if k > 0 {
      PassAppendsInOrder(cands, sel, count, k - 1);
      var s := Pass(cands, sel, count, k - 1);
      if !(|s| >= count || Listed(cands, s, cands[k - 1])) {
        var r := s + [k - 1];
        forall i, j | |sel| <= i < j < |r|
          ensures r[i] < r[j]
        {
          assert r[i] == s[i];
        }
      }
    }
  }

  /** A pass appends only candidates equal to none chosen before them. */
  lemma {:induction false} PassAppendsNew(cands: seq<Frame>, sel: seq<nat>, count: int, k: nat)
    requires k <= |cands| && Within(sel, |cands|)
    ensures AppendedNew(cands, Pass(cands, sel, count, k), |sel|)
  {
    if k > 0 {
      PassAppendsNew(cands, sel, count, k - 1);
      var s := Pass(cands, sel, count, k - 1);
      if !(|s| >= count || Listed(cands, s, cands[k - 1])) {
        var r := s + [k - 1];
        ListedExact(cands, s, cands[k - 1]);
        forall i, j | 0 <= i < j < |r| && |sel| <= j
          ensures !cands[r[i]].SameFrame(cands[r[j]])
        {
          assert r[i] == s[i];
        }
      }
    }
  }

  /** A pass that ends short of `count` leaves every candidate it saw equal
      to a chosen one. */
  lemma {:induction false} PassComplete(cands: seq<Frame>, sel: seq<nat>, count: int, k: nat)
    requires k <= |cands| && Within(sel, |cands|)
    ensures |Pass(cands, sel, count, k)| < count ==>
              forall p :: 0 <= p < k ==> Listed(cands, Pass(cands, sel, count, k), cands[p])
  {
    if k > 0 {
      PassComplete(cands, sel, count, k - 1);
      var s := Pass(cands, sel, count, k - 1);
      var r := Pass(cands, sel, count, k);
      if |r| < count && r != s {
        assert r == s + [k - 1];
        forall p | 0 <= p < k
          ensures Listed(cands, r, cands[p])
        {
          ListedExtend(cands, s, k - 1, cands[p]);
          if p == k - 1 {
            cands[p].SameFrameIsEquivalence(cands[p], cands[p]);
          }
        }
      }
    }
  }

  /** Appending a position lists its frame and keeps what was listed. */
  lemma ListedExtend(cands: seq<Frame>, sel: seq<nat>, x: nat, f: Frame)
    requires Within(sel, |cands|) && x < |cands|
    ensures Listed(cands, sel + [x], f) <==> cands[x].SameFrame(f) || Listed(cands, sel, f)
  {
    assert (sel + [x])[..|sel|] == sel;
  }

  /** Once `count` frames are chosen the rest of the pass changes nothing
      (the `break`). */
  lemma {:induction false} PassSettled(cands: seq<Frame>, sel: seq<nat>, count: int, k: nat, k': nat)
    requires k <= k' <= |cands| && Within(sel, |cands|)
    requires |Pass(cands, sel, count, k)| >= count
    ensures Pass(cands, sel, count, k') == Pass(cands, sel, count, k)
    decreases k' - k
  {
    if k < k' {
      PassSettled(cands, sel, count, k, k' - 1);
    }
  }

  /** A pass over a selection that is full, or that already lists every
      candidate, appends nothing. */
  lemma {:induction false} PassNoop(cands: seq<Frame>, sel: seq<nat>, count: int, k: nat)
    requires k <= |cands| && Within(sel, |cands|)
    requires |sel| >= count || forall p :: 0 <= p < |cands| ==> Listed(cands, sel, cands[p])
    ensures Pass(cands, sel, count, k) == sel
  {
    if k > 0 {
      PassNoop(cands, sel, count, k - 1);
    }
  }

  /** The condition of `while len(selected) < count and len(selected) <
      len(candidates)`. */
  predicate Continues(sel: seq<nat>, count: int, candidateCount: nat)
  {
    |sel| < count && |sel| < candidateCount
  }

  /** The fill as intended: a single pass when the representatives fall
      short of `count`. */
  function Fill(cands: seq<Frame>, sel: seq<nat>, count: int): seq<nat>
    requires Within(sel, |cands|)
  {
    if Continues(sel, count, |cands|) then Pass(cands, sel, count, |cands|) else sel
  }

  /** The `while` loop of lines 425-430 as written, after at most `passes`
      iterations. */
  function FillAsWritten(cands: seq<Frame>, sel: seq<nat>, count: int, passes: nat): seq<nat>
    requires Within(sel, |cands|)
    decreases passes
  {
    if passes == 0 || !Continues(sel, count, |cands|) then sel
    else FillAsWritten(cands, Pass(cands, sel, count, |cands|), count, passes - 1)
  }

  /** A selection that a pass leaves unchanged stays unchanged by the loop. */
  lemma {:induction false} FillAsWrittenFixed(cands: seq<Frame>, sel: seq<nat>, count: int, passes: nat)
    requires Within(sel, |cands|) && Pass(cands, sel, count, |cands|) == sel
    ensures FillAsWritten(cands, sel, count, passes) == sel
  {
    if passes > 0 && Continues(sel, count, |cands|) {
      FillAsWrittenFixed(cands, sel, count, passes - 1);
    }
  }

  /** Whenever the `while` loop exits it has computed the single pass; but
      if the guard still holds after the first pass it holds after every
      later one: the loop never exits. */
  lemma FillAsWrittenIsFillOrDiverges(cands: seq<Frame>, sel: seq<nat>, count: int, passes: nat)
    requires Within(sel, |cands|) && passes >= 1
    ensures FillAsWritten(cands, sel, count, passes) == Fill(cands, sel, count)
    ensures Continues(sel, count, |cands|) && Continues(Fill(cands, sel, count), count, |cands|) ==>
              Continues(FillAsWritten(cands, sel, count, passes), count, |cands|)
  {
    if Continues(sel, count, |cands|) {
      var r := Pass(cands, sel, count, |cands|);
      PassKeeps(cands, sel, count, |cands|);
      PassComplete(cands, sel, count, |cands|);
      PassNoop(cands, r, count, |cands|);
      FillAsWrittenFixed(cands, r, count, passes - 1);
    }
  }

  /** The fill of `_select_with_clustering` as intended: one pass over the
      candidates, appending those not yet chosen until `count` is reached. */
  method FillPass(cands: seq<Frame>, sel: seq<nat>, count: int) returns (r: seq<nat>)
    requires Within(sel, |cands|)
    ensures r == Fill(cands, sel, count)
  {
    r := sel;
    if |r| < count && |r| < |cands| {
      var k := 0;
      while k < |cands|
        invariant 0 <= k <= |cands|
        invariant r == Pass(cands, sel, count, k) && |r| < count
      {
        if !Listed(cands, r, cands[k]) {
          r := r + [k];
          if |r| >= count {
            PassSettled(cands, sel, count, k + 1, |cands|);
            return;
          }
        }
        k := k + 1;
      }
    }
  }

  // ---------------------------------------------------------------------
  // Selection

  /** The positions chosen among the candidates: the cluster
      representatives, then the fill, cut to `count`. With more candidates
      than `count` there are `count` clusters. */
  function Chosen(cands: seq<Frame>, scores: seq<real>, labels: seq<int>, count: int): (c: seq<nat>)
    requires |scores| == |cands| && |labels| == |cands| && count >= 1
  {
    var nClusters := if count <= |cands| then count else |cands|;
    SliceTo(Fill(cands, Representatives(scores, labels, nClusters), count), count)
  }

  /** What the clustering selection guarantees: at most `count` positions,
      none twice; the representatives come first; each later position is
      a frame equal to none before it, in score order; and it falls short
      of `count` only when every candidate equals a chosen frame. */
  lemma ChosenFacts(cands: seq<Frame>, scores: seq<real>, labels: seq<int>, count: int)
    requires |scores| == |cands| && |labels| == |cands| && 1 <= count < |cands|
    ensures var c := Chosen(cands, scores, labels, count);
            |c| <= count && Within(c, |cands|) && Distinct(c)
    ensures var c := Chosen(cands, scores, labels, count);
            var reps := Representatives(scores, labels, count);
            |reps| <= |c| && c[..|reps|] == reps
            && (forall i, j :: 0 <= i < j < |c| && |reps| <= j ==> !cands[c[i]].SameFrame(cands[c[j]]))
            && (forall i, j :: |reps| <= i < j < |c| ==> c[i] < c[j])
    ensures var c := Chosen(cands, scores, labels, count);
            |c| < count ==> forall p :: 0 <= p < |cands| ==> Listed(cands, c, cands[p])
  {
    var reps := Representatives(scores, labels, count);
    var f := Fill(cands, reps, count);
    var go := Continues(reps, count, |cands|);
    assert |reps| <= |f| <= count && f[..|reps|] == reps by {
      if go {
        PassKeeps(cands, reps, count, |cands|);
      }
    }
    assert Chosen(cands, scores, labels, count) == f;
    assert AppendedInOrder(f, |reps|, |cands|) by {
      if go {
        PassAppendsInOrder(cands, reps, count, |cands|);
      }
    }
    assert AppendedNew(cands, f, |reps|) by {
      if go {
        PassAppendsNew(cands, reps, count, |cands|);
      }
    }
    assert |f| < count ==> forall p :: 0 <= p < |cands| ==> Listed(cands, f, cands[p]) by {
      if go {
        PassComplete(cands, reps, count, |cands|);
      }
    }
    assert Distinct(reps) by {
      RepresentativesExact(scores, labels, count);
    }
    forall i, j | 0 <= i < j < |f|
      ensures f[i] != f[j]
    {
      if j >= |reps| {
        cands[f[i]].SameFrameIsEquivalence(cands[f[i]], cands[f[i]]);
      } else {
        assert f[i] == reps[i] && f[j] == reps[j];
      }
    }
  }

  /** The positions among the ranking that `_select_with_clustering`
      returns once there are more frames than `count`: the chosen
      candidates, or, when clustering raised, the first `count` by score
      (`min(count, len(scored_frames))` is `count` here). The source's
      further early returns (`len(candidates) <= count`, `count >=
      len(features_matrix)`) cannot fire once there are more frames than
      `count`, since there are then more candidates too. */
  function SelectedPositions(sf: seq<Scored>, count: int, labels: Option<seq<int>>): seq<nat>
    requires 1 <= count < |sf|
    requires labels.Some? ==> |labels.value| == CandidateCount(|sf|, count)
  {
    var cc := CandidateCount(|sf|, count);
    if labels.None? then Range(count)
    else Chosen(CandidateFrames(sf, cc), OwnScores(sf, cc), labels.value, count)
  }

  lemma SelectedPositionsFacts(sf: seq<Scored>, count: int, labels: Option<seq<int>>)
    requires 1 <= count < |sf|
    requires labels.Some? ==> |labels.value| == CandidateCount(|sf|, count)
    ensures var ps := SelectedPositions(sf, count, labels);
            |ps| <= count && Within(ps, CandidateCount(|sf|, count)) && Distinct(ps)
    ensures labels.None? ==> SelectedPositions(sf, count, labels) == Range(count)
  {
    var cc := CandidateCount(|sf|, count);
    if labels.Some? {
      ChosenFacts(CandidateFrames(sf, cc), OwnScores(sf, cc), labels.value, count);
    }
  }

  /** `_select_with_clustering`: every frame when there are at most
      `count`, otherwise the frames at the selected positions of the
      ranking. */
  function ClusterSelection(frames: seq<Frame>, sf: seq<Scored>, count: int, labels: Option<seq<int>>): seq<Frame>
    requires |sf| == |frames| && count >= 1
    requires labels.Some? ==> |labels.value| == CandidateCount(|sf|, count)
  {
    if |frames| <= count then frames
    else
      SelectedPositionsFacts(sf, count, labels);
      At(CandidateFrames(sf, CandidateCount(|sf|, count)), SelectedPositions(sf, count, labels))
  }

  /** `_select_with_clustering`, with the cluster score taken as each
      candidate's own total and the fill as a single pass. */
  method SelectWithClustering(frames: seq<Frame>, sf: seq<Scored>, count: int, labels: Option<seq<int>>)
      returns (selected: seq<Frame>)
    requires |sf| == |frames| && count >= 1
    requires labels.Some? ==> |labels.value| == CandidateCount(|sf|, count)
    ensures selected == ClusterSelection(frames, sf, count, labels)
  {
    if |frames| <= count {
      return frames;
    }
    var cc := CandidateCount(|sf|, count);
    var candidates := CandidateFrames(sf, cc);
    if labels.None? {
      return CandidateFrames(sf, count);
    }
    var reps := ClusterRepresentatives(OwnScores(sf, cc), labels.value, count);
    var filled := FillPass(candidates, reps, count);
    selected := At(candidates, SliceTo(filled, count));
  }

  /** The original positions of the frames at the given ranking positions. */
  function OriginalPositions(sf: seq<Scored>, ps: seq<nat>): (qs: seq<nat>)
    requires Within(ps, |sf|)
    ensures |qs| == |ps| && forall i :: 0 <= i < |ps| ==> qs[i] == sf[ps[i]].index
  {
    seq(|ps|, i requires 0 <= i < |ps| => sf[ps[i]].index)
  }

  /** With more frames than `count`, the selection is at most `count`
      distinct frames of the input, each ranked at least as high as every
      frame that did not make the candidate list; when clustering raised it
      is exactly the `count` best by total. */
  lemma SelectionFromBestCandidates(frames: seq<Frame>, keys: seq<real>, count: int, labels: Option<seq<int>>)
    requires |keys| == |frames| && 1 <= count < |frames|
    requires labels.Some? ==> |labels.value| == CandidateCount(|frames|, count)
    ensures var sf := ScoredFrames(frames, keys);
            var qs := OriginalPositions(sf, SelectedPositions(sf, count, labels));
            ClusterSelection(frames, sf, count, labels) == At(frames, qs) && |qs| <= count && Distinct(qs)
    ensures var sf := ScoredFrames(frames, keys);
            var cc := CandidateCount(|frames|, count);
            var qs := OriginalPositions(sf, SelectedPositions(sf, count, labels));
            forall i, r :: 0 <= i < |qs| && 0 <= r < |frames| && (forall j :: 0 <= j < cc ==> sf[j].index != r)
              ==> keys[qs[i]] >= keys[r]
    ensures labels.None? ==>
              var sf := ScoredFrames(frames, keys);
              OriginalPositions(sf, SelectedPositions(sf, count, labels)) == Top(keys, count)
  {
    var sf := ScoredFrames(frames, keys);
    var cc := CandidateCount(|frames|, count);
    var ps := SelectedPositions(sf, count, labels);
    SelectedPositionsFacts(sf, count, labels);
    ScoredFramesSorted(frames, keys);
    CandidatesAreBest(frames, keys, cc);
    var qs := OriginalPositions(sf, ps);
    assert ClusterSelection(frames, sf, count, labels) == At(frames, qs);
    forall i, j | 0 <= i < j < |qs|
      ensures qs[i] != qs[j]
    {
      if ps[i] < ps[j] {
        assert sf[ps[i]].index != sf[ps[j]].index;
      } else {
        assert sf[ps[j]].index != sf[ps[i]].index;
      }
    }
    if labels.None? {
      assert Top(keys, count) == Sorted(keys)[..count];
    }
  }

  /** `select_diverse_frames`: the argument checks in the source's order,
      every frame when there are at most `count`, otherwise the clustering
      selection over the frames ranked by `diversity * w + quality * (1 -
      w)`. */
  method SelectDiverseFrames(frames: seq<Frame>, count: int, weight: real,
                             orb: Option<Matrix>, hist: Option<Matrix>, face: Option<Matrix>,
                             labels: Option<seq<int>>) returns (r: Result<seq<Frame>>)
    requires orb.Some? ==> Square(orb.value, |frames|)
    requires hist.Some? ==> Square(hist.value, |frames|)
    requires face.Some? ==> Square(face.value, |frames|)
    requires count >= 1 && labels.Some? ==> |labels.value| == CandidateCount(|frames|, count)
    ensures count <= 0 ==> r == Err(InvalidCountError)
    ensures count > 0 && !(0.0 <= weight <= 1.0) ==> r == Err(InvalidWeightError)
    ensures count > 0 && 0.0 <= weight <= 1.0 && |frames| == 0 ==> r == Err(InsufficientFramesError)
    ensures r.Ok? <==> count > 0 && 0.0 <= weight <= 1.0 && |frames| > 0
    ensures r.Ok? && |frames| <= count ==> r.value == frames
    ensures r.Ok? && |frames| > count ==>
              var keys := Combined(DiversityScores(|frames|, orb, hist, face), Qualities(frames), weight);
              r.value == ClusterSelection(frames, ScoredFrames(frames, keys), count, labels)
  {
    if count <= 0 {
      return Err(InvalidCountError);
    }
    if !(0.0 <= weight <= 1.0) {
      return Err(InvalidWeightError);
    }
    if |frames| == 0 {
      return Err(InsufficientFramesError);
    }
    if |frames| <= count {
      return Ok(frames);
    }
    var ds := CalculateDiversityScores(frames, orb, hist, face);
    var keys := CombinedScores(frames, ds, weight);
    var selected := SelectWithClustering(frames, ScoredFrames(frames, keys), count, labels);
    return Ok(selected);
  }

  // ---------------------------------------------------------------------
  // Defects of `_select_with_clustering` as written

  /** With one cluster the intended choice is the best-ranked candidate. */
  lemma SingleClusterPicksBest(sf: seq<Scored>, k: nat, labels: seq<int>)
    requires 1 <= k <= |sf| && |labels| == k
    requires forall p :: 0 <= p < k ==> labels[p] == 0
    requires forall k1, k2 :: 0 <= k1 < k2 < |sf| ==> sf[k1].score >= sf[k2].score
    requires sf[0].score > -1.0
    ensures Representatives(OwnScores(sf, k), labels, 1) == [0]
  {
    var scores := OwnScores(sf, k);
    BestInIsFirstMax(scores, labels, 0, k);
    var b := BestIn(scores, labels, 0, k);
    assert b.Some? by {
      assert labels[0] == 0 && scores[0] > -1.0;
    }
    if b.value > 0 {
      assert false;
    }
  }

  /** Line 415 reads the ranking at the frame's original position instead
      of the candidate's: three frames totalling 0.5, 0.9 and 0.1 with
      `count` 1 (one cluster) make the loop keep frame 0 (total 0.5) where
      the best-ranked frame 1 (total 0.9) is intended. */
  lemma WrittenLookupPicksWorse(a: Frame, b: Frame, c: Frame)
    ensures var sf := ScoredFrames([a, b, c], [0.5, 0.9, 0.1]);
            sf[0] == Scored(0.9, 1, b) && sf[1] == Scored(0.5, 0, a)
            && Representatives(AsWrittenScores(sf, 2), [0, 0], 1) == [1]
            && Representatives(OwnScores(sf, 2), [0, 0], 1) == [0]
  {
    var keys := [0.5, 0.9, 0.1];
    assert SortDescending(keys, 1) == [0];
    assert SortDescending(keys, 2) == [1, 0];
    assert SortDescending(keys, 3) == [1, 0, 2];
    var sf := ScoredFrames([a, b, c], keys);
    var asWritten := AsWrittenScores(sf, 2);
    var own := OwnScores(sf, 2);
    assert asWritten == [0.5, 0.9];
    assert BestIn(asWritten, [0, 0], 0, 1) == Some(0);
    assert own == [0.9, 0.5];
    assert BestIn(own, [0, 0], 0, 1) == Some(0);
    assert BestIn(own, [0, 0], 0, 2) == Some(0);
  }

  /** The fill loop of lines 425-430 never ends on three candidates that
      are the same frame (same file and frame number) when KMeans puts them
      in one cluster and leaves the second empty, as it does for identical
      feature vectors: one representative, `count` 2, and no candidate the
      pass may add. */
  lemma FillLoopNeverEnds(a: Frame, b: Frame, c: Frame, passes: nat)
    requires a.SameFrame(b) && a.SameFrame(c)
    ensures Representatives([0.9, 0.5, 0.1], [0, 0, 0], 2) == [0]
    ensures Continues(FillAsWritten([a, b, c], [0], 2, passes), 2, 3)
  {
    var cands := [a, b, c];
    a.SameFrameIsEquivalence(a, a);
    assert forall p :: 0 <= p < 3 ==> Listed(cands, [0], cands[p]);
    PassNoop(cands, [0], 2, 3);
    FillAsWrittenFixed(cands, [0], 2, passes);
  }
}
