// The face detection service (`FaceDetector`): turning the detector's raw
// boxes into validated faces, the minimum-size filter, the batch run with
// its error-rate rule, the selection of frames that show a face, the
// primary face, the quality score, the setters' range checks and the
// landmark estimate. The detector network itself is an oracle: for each
// frame the model receives what `face_detection.process` reported (or that
// it raised), and for each detection the statistics of the face region.

module FaceDetector {
  import opened Errors
  import opened PyMath
  import opened Point2D
  import opened BoundingBox
  import opened FaceDetectionResult
  import opened Frame

  /** The constructor's defaults. */
  const DefaultDetectionConfidence: real := 0.5
  const DefaultMinFaceSize: real := 0.01

  /** The statistics `_calculate_face_quality_metrics` measures on the face
      region: Laplacian variance, mean and standard deviation of the grey
      image, and the left/right template correlation (none when the region
      is at most one pixel wide). `Unmeasured` is an empty region or a
      failed measurement. */
  datatype Region =
    | Unmeasured
    | Measured(laplacianVariance: real, meanGray: real, stdGray: real, correlation: Option<real>)

  /** One detection as the detector reports it: the relative box, the score
      and the region statistics. */
  datatype Detection = Detection(xmin: real, ymin: real, width: real, height: real,
                                 score: real, region: Region)

  /** What `face_detection.process` yields for one image. */
  datatype DetectorOutput = Raised | Detections(ds: seq<Detection>)

  // ---------------------------------------------------------------------
  // From detections to faces

  /** `_calculate_face_quality_metrics`: the four metrics, each clamped to
      [0, 1], or 0.5 for each when the region cannot be measured. */
  function FaceMetrics(r: Region): (m: map<string, real>)
    ensures m.Keys == MetricNames && MetricsValid(m)
    ensures r.Unmeasured? ==> forall k :: k in m ==> m[k] == 0.5
    ensures r.Measured? && r.correlation.None? ==> m["symmetry"] == 0.5
  {
    if r.Unmeasured? then
      map["sharpness" := 0.5, "brightness" := 0.5, "contrast" := 0.5, "symmetry" := 0.5]
    else
      var symmetry := if r.correlation.Some? then Max(0.0, r.correlation.value) else 0.5;
      map["sharpness" := Clamp(Min(1.0, r.laplacianVariance / 1000.0), 0.0, 1.0),
          "brightness" := Clamp(r.meanGray / 255.0, 0.0, 1.0),
          "contrast" := Clamp(Min(1.0, r.stdGray / 255.0), 0.0, 1.0),
          "symmetry" := Clamp(symmetry, 0.0, 1.0)]
  }

  /** `_extract_simple_landmarks`: left eye, right eye, nose, left and right
      mouth corner, placed from the box's centre and size. */
  function SimpleLandmarks(b: Box): (ps: seq<Point>)
    ensures |ps| == 5
    ensures ps[2] == Center(b)
    ensures ps[0].y == ps[1].y && ps[0].x + ps[1].x == 2.0 * Center(b).x
    ensures ps[3].y == ps[4].y && ps[3].x + ps[4].x == 2.0 * Center(b).x
    ensures ps[0].x < ps[1].x <==> b.width > 0.0
  {
    var c := Center(b);
    [Point(c.x - b.width * 0.2, c.y - b.height * 0.1),
     Point(c.x + b.width * 0.2, c.y - b.height * 0.1),
     Point(c.x, c.y),
     Point(c.x - b.width * 0.15, c.y + b.height * 0.2),
     Point(c.x + b.width * 0.15, c.y + b.height * 0.2)]
  }

  /** The estimated landmarks of a valid box lie inside the box, so inside
      the unit square. */
  lemma SimpleLandmarksInside(b: Box)
    requires Valid(b)
    ensures forall i :: 0 <= i < 5 ==> ContainsPoint(b, SimpleLandmarks(b)[i])
    ensures LandmarksNormalised(SimpleLandmarks(b))
  {
    var ps := SimpleLandmarks(b);
    forall i | 0 <= i < 5
      ensures ContainsPoint(b, ps[i]) && IsWithinNormalizedBounds(ps[i])
    {
    }
  }

  /** `_create_face_result_from_detection`: the box, a result of confidence
      `score[0]`, size the box's area, the estimated landmarks, angle 0 and
      the region metrics. Any failure is a FaceDetectionError. */
  function FaceFromDetection(d: Detection): (r: Result<Face>)
    ensures r.Err? ==> r.error == FaceDetectionError
  {
    var box := BoundingBox.New(d.xmin, d.ymin, d.width, d.height);
    if box.Err? then Err(FaceDetectionError)
    else
      var b := box.value;
      var face := FaceDetectionResult.New(b, d.score, SimpleLandmarks(b), Area(b), 0.0, FaceMetrics(d.region));
      if face.Err? then Err(FaceDetectionError) else face
  }

  /** A detection yields a face exactly when its box is valid, its score is
      at least 0.5 and its area at least 0.01; the face is then valid and
      carries the detection's box, score and area, angle 0, the estimated
      landmarks and the region metrics. */
  lemma FaceFromDetectionExact(d: Detection)
    ensures var r := FaceFromDetection(d);
            r.Ok? <==> Valid(Box(d.xmin, d.ymin, d.width, d.height))
                       && 0.5 <= d.score <= 1.0 && d.width * d.height >= 0.01
    ensures var r := FaceFromDetection(d);
            r.Ok? ==> ValidFace(r.value) && r.value.confidence == d.score
                      && r.value.box == Box(d.xmin, d.ymin, d.width, d.height)
                      && r.value.faceSize == Area(r.value.box) && r.value.faceAngle == 0.0
                      && r.value.landmarks == SimpleLandmarks(r.value.box)
                      && r.value.metrics == FaceMetrics(d.region)
  {
    var b := Box(d.xmin, d.ymin, d.width, d.height);
    if Valid(b) {
      CenterInside(b);
      SimpleLandmarksInside(b);
    }
  }

  /** The result built from each detection, in detection order. */
  function Built(ds: seq<Detection>): (rs: seq<Result<Face>>)
    ensures |rs| == |ds| && forall i :: 0 <= i < |ds| ==> rs[i] == FaceFromDetection(ds[i])
  {
    seq(|ds|, i requires 0 <= i < |ds| => FaceFromDetection(ds[i]))
  }

  /** The faces of the built results that reach `minSize`, in order. */
  function Survivors(rs: seq<Result<Face>>, minSize: real): seq<Face>
  {
    if rs == [] then []
    else
      var last := rs[|rs| - 1];
      Survivors(rs[..|rs| - 1], minSize)
        + (if last.Ok? && last.value.faceSize >= minSize then [last.value] else [])
  }

  /** The faces `detect_faces` keeps, in detection order: those whose
      result could be built and whose size reaches `minSize`. */
  function Kept(ds: seq<Detection>, minSize: real): seq<Face>
  {
    Survivors(Built(ds), minSize)
  }

  /** A face survives exactly when some result is that face at a size of
      at least `minSize`. */
  lemma {:induction false} SurvivorsExact(rs: seq<Result<Face>>, minSize: real, f: Face)
    ensures f in Survivors(rs, minSize) <==>
            exists i :: 0 <= i < |rs| && rs[i] == Ok(f) && f.faceSize >= minSize
  {
    if rs != [] {
      var n := |rs| - 1;
      var init := rs[..n];
      SurvivorsExact(init, minSize, f);
      if exists i :: 0 <= i < |rs| && rs[i] == Ok(f) && f.faceSize >= minSize {
        var i :| 0 <= i < |rs| && rs[i] == Ok(f) && f.faceSize >= minSize;
        if i < n {
          assert init[i] == rs[i];
        }
      }
    }
  }

  /** A face is kept exactly when some detection yields it at a size of at
      least `minSize`; every kept face is valid and at least that size. */
  lemma KeptExact(ds: seq<Detection>, minSize: real, f: Face)
    ensures f in Kept(ds, minSize) <==>
            exists i :: 0 <= i < |ds| && FaceFromDetection(ds[i]) == Ok(f) && f.faceSize >= minSize
    ensures f in Kept(ds, minSize) ==> ValidFace(f) && f.faceSize >= minSize
  {
    var rs := Built(ds);
    SurvivorsExact(rs, minSize, f);
    if f in Kept(ds, minSize) {
      var i :| 0 <= i < |rs| && rs[i] == Ok(f) && f.faceSize >= minSize;
      FaceFromDetectionExact(ds[i]);
    }
  }

  /** What `detect_faces` does with one frame: a missing third axis (the
      image is not three-dimensional) raises IndexError inside the guarded
      block and comes out as FaceDetectionError, another channel count is
      InvalidFrameError, a failing detector is FaceDetectionError, and
      otherwise the kept faces. */
  function Outcome(frame: Frame, out: DetectorOutput, minSize: real): Result<seq<Face>>
  {
    if |frame.shape| < 3 then Err(FaceDetectionError)
    else if frame.shape[2] != 3 then Err(InvalidFrameError)
    else if out.Raised? then Err(FaceDetectionError)
    else Ok(Kept(out.ds, minSize))
  }

  /** Detection on a frame succeeds exactly for a three-channel image and a
      detector that answered, giving the kept faces; it fails with one of
      the two detection errors. */
  lemma OutcomeCases(frame: Frame, out: DetectorOutput, minSize: real)
    ensures var r := Outcome(frame, out, minSize);
            (r.Ok? <==> |frame.shape| >= 3 && frame.shape[2] == 3 && out.Detections?)
            && (r.Ok? ==> r.value == Kept(out.ds, minSize))
            && (r.Err? ==> r.error == FaceDetectionError || r.error == InvalidFrameError)
  {
  }

  /** `detect_faces` including its first check: a missing frame is
      InvalidFrameError. */
  function DetectFacesOutcome(frame: Option<Frame>, out: DetectorOutput, minSize: real): Result<seq<Face>>
  {
    if frame.None? then Err(InvalidFrameError) else Outcome(frame.value, out, minSize)
  }

  // ---------------------------------------------------------------------
  // Batches

  /** The per-frame lists `detect_faces_batch` collects for the first n
      frames: the faces found, or an empty list where detection failed. */
  function BatchResults(frames: seq<Frame>, outs: seq<DetectorOutput>, minSize: real, n: nat): (rs: seq<seq<Face>>)
    requires |outs| == |frames| && n <= |frames|
    ensures |rs| == n
  {
    if n == 0 then []
    else BatchResults(frames, outs, minSize, n - 1) + [Listed(Outcome(frames[n - 1], outs[n - 1], minSize))]
  }

  /** Entry i of the batch is frame i's faces, or empty where its
      detection failed. */
  lemma {:induction false} BatchResultsEntry(frames: seq<Frame>, outs: seq<DetectorOutput>, minSize: real,
                                             n: nat, i: nat)
    requires |outs| == |frames| && i < n <= |frames|
    ensures BatchResults(frames, outs, minSize, n)[i] == Listed(Outcome(frames[i], outs[i], minSize))
  {
    if i < n - 1 {
      BatchResultsEntry(frames, outs, minSize, n - 1, i);
    }
  }

  /** The list a batch records for one frame: its faces, or [] on failure. */
  function Listed(o: Result<seq<Face>>): seq<Face>
  {
    if o.Ok? then o.value else []
  }

  /** The number of the first n frames whose detection failed. */
  function ErrorCount(frames: seq<Frame>, outs: seq<DetectorOutput>, minSize: real, n: nat): (c: nat)
    requires |outs| == |frames| && n <= |frames|
    ensures c <= n
  {
    if n == 0 then 0
    else ErrorCount(frames, outs, minSize, n - 1) + (if Outcome(frames[n - 1], outs[n - 1], minSize).Err? then 1 else 0)
  }

  /** The error-rate rule: the batch fails when more than half of the
      frames failed, i.e. when `error_count / len(frames) > 0.5`. */
  predicate TooManyErrors(errors: nat, n: nat)
  {
    n > 0 && errors as real / n as real > 0.5
  }

  /** The rate test is the integer test 2·errors > n. */
  lemma TooManyErrorsIsMajority(errors: nat, n: nat)
    requires n > 0
    ensures TooManyErrors(errors, n) <==> 2 * errors > n
  {
    var q := errors as real / n as real;
    assert q * n as real == errors as real;
    if 2 * errors > n {
      if q <= 0.5 {
        MulMonotone(q, 0.5, n as real);
      }
    } else if q > 0.5 {
      MulStrict(0.5, q, n as real);
    }
  }

  /** The faces each frame holds after the first n detections of a batch:
      a frame whose detection succeeded holds the faces of its last
      successful detection; the others are not in the map. */
  function FacesAfter(frames: seq<Frame>, outs: seq<DetectorOutput>, minSize: real, n: nat): map<Frame, seq<Face>>
    requires |outs| == |frames| && n <= |frames|
  {
    if n == 0 then map[]
    else
      var prev := FacesAfter(frames, outs, minSize, n - 1);
      var o := Outcome(frames[n - 1], outs[n - 1], minSize);
      if o.Ok? then prev[frames[n - 1] := o.value] else prev
  }

  /** A frame is in the map exactly when one of its detections among the
      first n succeeded. */
  lemma {:induction false} FacesAfterDomain(frames: seq<Frame>, outs: seq<DetectorOutput>, minSize: real,
                                            n: nat, f: Frame)
    requires |outs| == |frames| && n <= |frames|
    ensures f in FacesAfter(frames, outs, minSize, n) <==>
            exists i :: 0 <= i < n && frames[i] == f && Outcome(f, outs[i], minSize).Ok?
  {
    if n > 0 {
      FacesAfterDomain(frames, outs, minSize, n - 1, f);
    }
  }

  /** The first n frames that `filter_frames_with_faces` keeps: those whose
      batch list is not empty, in order. */
  function WithFaces(frames: seq<Frame>, results: seq<seq<Face>>, n: nat): seq<Frame>
    requires |results| == |frames| && n <= |frames|
  {
    if n == 0 then []
    else WithFaces(frames, results, n - 1) + (if results[n - 1] != [] then [frames[n - 1]] else [])
  }

  /** A frame is kept exactly when one of its positions has a non-empty
      list; the kept frames are never more than the input. */
  lemma {:induction false} WithFacesExact(frames: seq<Frame>, results: seq<seq<Face>>, n: nat, f: Frame)
    requires |results| == |frames| && n <= |frames|
    ensures f in WithFaces(frames, results, n) <==>
            exists i :: 0 <= i < n && frames[i] == f && results[i] != []
    ensures |WithFaces(frames, results, n)| <= n
  {
    if n > 0 {
      WithFacesExact(frames, results, n - 1, f);
    }
  }

  // ---------------------------------------------------------------------
  // Primary face

  /** The key `get_primary_face` maximises: confidence times size. */
  function Prominences(faces: seq<Face>): (ks: seq<real>)
    ensures |ks| == |faces| && forall i :: 0 <= i < |faces| ==> ks[i] == faces[i].confidence * faces[i].faceSize
  {
    seq(|faces|, i requires 0 <= i < |faces| => faces[i].confidence * faces[i].faceSize)
  }

  /** `max(faces, key=confidence·size)`, or none for no faces: the first of
      the faces with the highest key. */
  function MostProminent(faces: seq<Face>): (r: Option<Face>)
    ensures r.None? <==> faces == []
    ensures r.Some? ==> var ks := Prominences(faces);
                        exists i :: 0 <= i < |faces| && faces[i] == r.value
                          && (forall j :: 0 <= j < |faces| ==> ks[j] <= ks[i])
                          && (forall j :: 0 <= j < i ==> ks[j] < ks[i])
  {
    if faces == [] then None else Some(faces[FirstMaxIndex(Prominences(faces))])
  }

  // ---------------------------------------------------------------------
  // Landmarks

  /** `get_face_landmarks`: a missing result is LandmarkExtractionError; a
      result with landmarks gives a copy of them, one without gives the
      five estimated points. */
  function FaceLandmarks(face: Option<Face>): (r: Result<seq<Point>>)
    ensures r.Err? <==> face.None?
    ensures r.Err? ==> r.error == LandmarkExtractionError
    ensures r.Ok? && face.value.landmarks != [] ==> r.value == face.value.landmarks
    ensures r.Ok? && face.value.landmarks == [] ==> |r.value| == 5 && r.value[2] == Center(face.value.box)
    ensures r.Ok? && Valid(face.value.box) && LandmarksNormalised(face.value.landmarks) ==>
              LandmarksNormalised(r.value)
  {
    if face.None? then Err(LandmarkExtractionError)
    else if face.value.landmarks != [] then Ok(face.value.landmarks)
    else
      var b := face.value.box;
      if Valid(b) then SimpleLandmarksInside(b); Ok(SimpleLandmarks(b))
      else Ok(SimpleLandmarks(b))
  }

  // ---------------------------------------------------------------------
  // The service

  class FaceDetector {
    /** The confidence handed to the detector. */
    var detectionConfidence: real
    /** Faces below this share of the image are dropped. */
    var minFaceSize: real

    /** `__init__`: the values are stored unchecked. */
    constructor(detectionConfidence: real, minFaceSize: real)
      ensures this.detectionConfidence == detectionConfidence && this.minFaceSize == minFaceSize
    {
      this.detectionConfidence := detectionConfidence;
      this.minFaceSize := minFaceSize;
    }

    /** Both settings are in [0, 1], as the setters demand. */
    predicate InRange()
      reads this`detectionConfidence, this`minFaceSize
    {
      0.0 <= detectionConfidence <= 1.0 && 0.0 <= minFaceSize <= 1.0
    }

    /** `detect_faces`: a missing frame is InvalidFrameError; otherwise the
        frame's `Outcome`, and on success the kept faces are stored on the
        frame. */
    method DetectFaces(frame: Option<Frame>, out: DetectorOutput) returns (r: Result<seq<Face>>)
      modifies (if frame.Some? then {frame.value} else {})`faces
      ensures r == DetectFacesOutcome(frame, out, minFaceSize)
      ensures r.Ok? ==> frame.value.faces == r.value
      ensures r.Err? && frame.Some? ==> frame.value.faces == old(frame.value.faces)
    {
      if frame.None? {
        return Err(InvalidFrameError);
      }
      r := Detect(frame.value, out);
    }

    /** The body of `detect_faces` on a present frame: the detections are
        turned into faces one by one and those large enough are kept. */
    method Detect(frame: Frame, out: DetectorOutput) returns (r: Result<seq<Face>>)
      modifies frame`faces
      ensures r == Outcome(frame, out, minFaceSize)
      ensures r.Ok? ==> frame.faces == r.value
      ensures r.Err? ==> frame.faces == old(frame.faces)
    {
      if |frame.shape| < 3 {
        return Err(FaceDetectionError);
      }
      if frame.shape[2] != 3 {
        return Err(InvalidFrameError);
      }
      if out.Raised? {
        return Err(FaceDetectionError);
      }
      var ds := out.ds;
      var faces: seq<Face> := [];
      var i := 0;
      while i < |ds|
        invariant 0 <= i <= |ds|
        invariant faces == Survivors(Built(ds)[..i], minFaceSize)
      {
        assert Built(ds)[..i + 1][..i] == Built(ds)[..i];
        var face := FaceFromDetection(ds[i]);
        if face.Ok? && face.value.faceSize >= minFaceSize {
          faces := faces + [face.value];
        }
        i := i + 1;
      }
      assert Built(ds)[..i] == Built(ds);
      frame.faces := faces;
      return Ok(faces);
    }

    /** `detect_faces_batch`: an empty batch gives []; otherwise one list
        per frame (empty where detection failed), and BatchProcessingError
        when more than half of the frames failed. Every frame whose
        detection succeeded holds the faces of its last detection. */
    method DetectFacesBatch(frames: seq<Frame>, outs: seq<DetectorOutput>) returns (r: Result<seq<seq<Face>>>)
      requires |outs| == |frames|
      modifies frames`faces
      ensures frames == [] ==> r == Ok([])
      ensures r.Err? <==> TooManyErrors(ErrorCount(frames, outs, minFaceSize, |frames|), |frames|)
      ensures r.Err? ==> r.error == BatchProcessingError
      ensures r.Ok? ==> r.value == BatchResults(frames, outs, minFaceSize, |frames|)
      ensures var m := FacesAfter(frames, outs, minFaceSize, |frames|);
              forall f :: f in frames ==> f.faces == if f in m then m[f] else old(f.faces)
    {
      if frames == [] {
        return Ok([]);
      }
      var results, errors := DetectAll(frames, outs);
      if TooManyErrors(errors, |frames|) {
        return Err(BatchProcessingError);
      }
      return Ok(results);
    }

    /** The loop of `detect_faces_batch`: each frame's detection in turn,
        collecting the per-frame lists and counting the failures. */
    method DetectAll(frames: seq<Frame>, outs: seq<DetectorOutput>) returns (results: seq<seq<Face>>, errors: nat)
      requires |outs| == |frames|
      modifies frames`faces
      ensures results == BatchResults(frames, outs, minFaceSize, |frames|)
      ensures errors == ErrorCount(frames, outs, minFaceSize, |frames|)
      ensures var m := FacesAfter(frames, outs, minFaceSize, |frames|);
              forall f :: f in frames ==> f.faces == if f in m then m[f] else old(f.faces)
    {
      results, errors := [], 0;
      var i := 0;
      while i < |frames|
        invariant 0 <= i <= |frames|
        invariant results == BatchResults(frames, outs, minFaceSize, i)
        invariant errors == ErrorCount(frames, outs, minFaceSize, i)
        invariant var m := FacesAfter(frames, outs, minFaceSize, i);
                  forall f :: f in frames ==> f.faces == if f in m then m[f] else old(f.faces)
      {
        ghost var m := FacesAfter(frames, outs, minFaceSize, i);
        var faces := Detect(frames[i], outs[i]);
        results := results + [Listed(faces)];
        assert ErrorCount(frames, outs, minFaceSize, i + 1) == errors + if faces.Err? then 1 else 0;
        if faces.Err? {
          errors := errors + 1;
        }
        assert FacesAfter(frames, outs, minFaceSize, i + 1)
               == if faces.Ok? then m[frames[i] := faces.value] else m;
        i := i + 1;
      }
    }

    /** `filter_frames_with_faces`: [] for no frames; otherwise the frames
        whose batch list is not empty, in order. A failing batch is
        re-raised as FaceDetectionError. */
    method FilterFramesWithFaces(frames: seq<Frame>, outs: seq<DetectorOutput>) returns (r: Result<seq<Frame>>)
      requires |outs| == |frames|
      modifies frames`faces
      ensures frames == [] ==> r == Ok([])
      ensures r.Err? <==> TooManyErrors(ErrorCount(frames, outs, minFaceSize, |frames|), |frames|)
      ensures r.Err? ==> r.error == FaceDetectionError
      ensures r.Ok? ==> r.value == WithFaces(frames, BatchResults(frames, outs, minFaceSize, |frames|), |frames|)
      ensures var m := FacesAfter(frames, outs, minFaceSize, |frames|);
              forall f :: f in frames ==> f.faces == if f in m then m[f] else old(f.faces)
    {
      if frames == [] {
        return Ok([]);
      }
      var batch := DetectFacesBatch(frames, outs);
      if batch.Err? {
        return Err(FaceDetectionError);
      }
      var kept := ZipKeep(frames, batch.value);
      return Ok(kept);
    }

    /** The loop of `filter_frames_with_faces` over the frames zipped with
        their lists. */
    static method ZipKeep(frames: seq<Frame>, results: seq<seq<Face>>) returns (kept: seq<Frame>)
      requires |results| == |frames|
      ensures kept == WithFaces(frames, results, |frames|)
    {
      kept := [];
      var i := 0;
      while i < |frames|
        invariant 0 <= i <= |frames|
        invariant kept == WithFaces(frames, results, i)
      {
        if results[i] != [] {
          kept := kept + [frames[i]];
        }
        i := i + 1;
      }
    }

    /** `get_primary_face`: none when detection fails or finds no face;
        otherwise the face of highest confidence × size. */
    method GetPrimaryFace(frame: Option<Frame>, out: DetectorOutput) returns (r: Option<Face>)
      modifies (if frame.Some? then {frame.value} else {})`faces
      ensures var d := DetectFacesOutcome(frame, out, minFaceSize);
              r == if d.Ok? then MostProminent(d.value) else None
      ensures var d := DetectFacesOutcome(frame, out, minFaceSize);
              d.Ok? ==> frame.value.faces == d.value
      ensures DetectFacesOutcome(frame, out, minFaceSize).Err? && frame.Some? ==> frame.value.faces == old(frame.value.faces)
    {
      var faces := DetectFaces(frame, out);
      if faces.Err? || faces.value == [] {
        return None;
      }
      return MostProminent(faces.value);
    }

    /** `calculate_face_quality`: a missing face or frame is
        InvalidFaceDataError; otherwise the same score as the result's
        `overall_quality_score`, which lies in [0, 1] for a valid face. */
    method CalculateFaceQuality(face: Option<Face>, frame: Option<Frame>) returns (r: Result<real>)
      ensures r.Err? <==> face.None? || frame.None?
      ensures r.Err? ==> r.error == InvalidFaceDataError
      ensures r.Ok? ==> r.value == QualityScore(face.value)
      ensures r.Ok? && ValidFace(face.value) ==> 0.0 <= r.value <= 1.0
      ensures r.Ok? && face.value.metrics == map[] ==> r.value == face.value.confidence
    {
      if face.None? || frame.None? {
        return Err(InvalidFaceDataError);
      }
      var score := OverallQualityScore(face.value);
      if ValidFace(face.value) {
        QualityScoreInUnit(face.value);
      }
      return Ok(score);
    }

    /** `set_detection_confidence`: a value outside [0, 1] is
        InvalidConfidenceError and changes nothing; otherwise it is stored. */
    method SetDetectionConfidence(confidence: real) returns (failure: Option<ErrorKind>)
      modifies this`detectionConfidence
      ensures failure.Some? <==> !(0.0 <= confidence <= 1.0)
      ensures failure.Some? ==> failure.value == InvalidConfidenceError
                                && detectionConfidence == old(detectionConfidence)
      ensures failure.None? ==> detectionConfidence == confidence
      ensures old(InRange()) ==> InRange()
    {
      if !(0.0 <= confidence <= 1.0) {
        return Some(InvalidConfidenceError);
      }
      detectionConfidence := confidence;
      return None;
    }

    /** `set_min_face_size`: a value outside [0, 1] is InvalidSizeRatioError
        and changes nothing; otherwise it is stored. */
    method SetMinFaceSize(minSize: real) returns (failure: Option<ErrorKind>)
      modifies this`minFaceSize
      ensures failure.Some? <==> !(0.0 <= minSize <= 1.0)
      ensures failure.Some? ==> failure.value == InvalidSizeRatioError && minFaceSize == old(minFaceSize)
      ensures failure.None? ==> minFaceSize == minSize
      ensures old(InRange()) ==> InRange()
    {
      if !(0.0 <= minSize <= 1.0) {
        return Some(InvalidSizeRatioError);
      }
      minFaceSize := minSize;
      return None;
    }
  }
}
