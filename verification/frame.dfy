// One decoded frame of a video (`Frame`): position in the video, image shape,
// detected faces, scene and quality scores, and metadata. The pixels are not
// modelled; the three statistics the quality score is computed from are
// given as `PixelStats`.

module Frame {
  import opened Errors
  import opened PyMath
  import opened Point2D
  import opened BoundingBox
  import opened FaceDetectionResult
  import opened VideoFile

  /** What the image computations yield: the mean and standard deviation of
      the BT.709 grey levels (0-255) and the variance of their Laplacian. */
  datatype PixelStats = PixelStats(meanGray: real, stdGray: real, laplacianVariance: real)

  /** Statistics any 8-bit RGB image can have. */
  predicate PlausibleStats(s: PixelStats)
  {
    0.0 <= s.meanGray <= 255.0 && s.stdGray >= 0.0 && s.laplacianVariance >= 0.0
  }

  /** `calculate_brightness`: mean grey level scaled to [0, 1]. */
  function Brightness(s: PixelStats): real { s.meanGray / 255.0 }

  /** `calculate_contrast`: grey-level deviation scaled by 255, at most 1. */
  function Contrast(s: PixelStats): real { Min(1.0, s.stdGray / 255.0) }

  /** `calculate_sharpness`: Laplacian variance scaled by 1000, at most 1. */
  function Sharpness(s: PixelStats): real { Min(1.0, s.laplacianVariance / 1000.0) }

  /** The frame quality blend: 20% brightness, 30% contrast, 50% sharpness. */
  function QualityBlend(brightness: real, contrast: real, sharpness: real): real
  {
    brightness * 0.2 + contrast * 0.3 + sharpness * 0.5
  }

  /** The blend of three values in [0, 1] is in [0, 1] and does not decrease
      when any of them grows. */
  lemma QualityBlendBounds(b: real, c: real, s: real, b': real, c': real, s': real)
    requires 0.0 <= b <= 1.0 && 0.0 <= c <= 1.0 && 0.0 <= s <= 1.0
    ensures 0.0 <= QualityBlend(b, c, s) <= 1.0
    ensures b <= b' && c <= c' && s <= s' ==> QualityBlend(b, c, s) <= QualityBlend(b', c', s')
  {
  }

  /** For plausible statistics every measure is in [0, 1]. */
  lemma MeasuresInUnit(s: PixelStats)
    requires PlausibleStats(s)
    ensures 0.0 <= Brightness(s) <= 1.0 && 0.0 <= Contrast(s) <= 1.0 && 0.0 <= Sharpness(s) <= 1.0
    ensures 0.0 <= QualityBlend(Brightness(s), Contrast(s), Sharpness(s)) <= 1.0
  {
    QualityBlendBounds(Brightness(s), Contrast(s), Sharpness(s), 1.0, 1.0, 1.0);
  }

  /** The first failing construction check, in the source's order: frame
      number non-negative and below the video's frame count when that is
      known, timestamp non-negative and within the duration when that is
      known, a three-dimensional image with three channels, scene and
      quality scores in [0, 1]. Every failure is a ValueError. */
  function FrameRejection(totalFrames: int, duration: real, frameNumber: int, timestamp: real,
                          shape: seq<int>, sceneScore: real, qualityScore: real): (r: Option<ErrorKind>)
    ensures r.None? <==> (0 <= frameNumber && (totalFrames > 0 ==> frameNumber < totalFrames)
                          && 0.0 <= timestamp && (duration > 0.0 ==> timestamp <= duration)
                          && |shape| == 3 && shape[2] == 3
                          && 0.0 <= sceneScore <= 1.0 && 0.0 <= qualityScore <= 1.0)
    ensures r.Some? ==> r.value == ValueError
  {
    if frameNumber < 0 then Some(ValueError)
    else if totalFrames > 0 && frameNumber >= totalFrames then Some(ValueError)
    else if timestamp < 0.0 then Some(ValueError)
    else if duration > 0.0 && timestamp > duration then Some(ValueError)
    else if |shape| != 3 then Some(ValueError)
    else if shape[2] != 3 then Some(ValueError)
    else if !(0.0 <= sceneScore <= 1.0) then Some(ValueError)
    else if !(0.0 <= qualityScore <= 1.0) then Some(ValueError)
    else None
  }

  // ---------------------------------------------------------------------
  // Face lists

  function Confidences(faces: seq<Face>): (ks: seq<real>)
    ensures |ks| == |faces| && forall i :: 0 <= i < |faces| ==> ks[i] == faces[i].confidence
  {
    seq(|faces|, i requires 0 <= i < |faces| => faces[i].confidence)
  }

  function FaceSizes(faces: seq<Face>): (ks: seq<real>)
    ensures |ks| == |faces| && forall i :: 0 <= i < |faces| ==> ks[i] == faces[i].faceSize
  {
    seq(|faces|, i requires 0 <= i < |faces| => faces[i].faceSize)
  }

  /** `max(faces, key=confidence)`, or none for no faces: the first face of
      highest confidence. */
  function MostConfident(faces: seq<Face>): (r: Option<Face>)
    ensures r.None? <==> faces == []
    ensures r.Some? ==> exists i :: 0 <= i < |faces| && faces[i] == r.value
                          && (forall j :: 0 <= j < |faces| ==> faces[j].confidence <= r.value.confidence)
                          && (forall j :: 0 <= j < i ==> faces[j].confidence < r.value.confidence)
  {
    if faces == [] then None else Some(faces[FirstMaxIndex(Confidences(faces))])
  }

  /** `max(faces, key=face_size)`, or none: the first face of largest size. */
  function Largest(faces: seq<Face>): (r: Option<Face>)
    ensures r.None? <==> faces == []
    ensures r.Some? ==> exists i :: 0 <= i < |faces| && faces[i] == r.value
                          && (forall j :: 0 <= j < |faces| ==> faces[j].faceSize <= r.value.faceSize)
                          && (forall j :: 0 <= j < i ==> faces[j].faceSize < r.value.faceSize)
  {
    if faces == [] then None else Some(faces[FirstMaxIndex(FaceSizes(faces))])
  }

  /** The faces of confidence at least `minConfidence`, in order. */
  function WithConfidence(faces: seq<Face>, minConfidence: real): seq<Face>
  {
    if faces == [] then []
    else WithConfidence(faces[..|faces| - 1], minConfidence)
         + (if faces[|faces| - 1].confidence >= minConfidence then [faces[|faces| - 1]] else [])
  }

  /** The faces of size at least `minSize`, in order. */
  function WithSize(faces: seq<Face>, minSize: real): seq<Face>
  {
    if faces == [] then []
    else WithSize(faces[..|faces| - 1], minSize)
         + (if faces[|faces| - 1].faceSize >= minSize then [faces[|faces| - 1]] else [])
  }

  /** The high-quality faces, in order. */
  function HighQualityFaces(faces: seq<Face>): seq<Face>
  {
    if faces == [] then []
    else HighQualityFaces(faces[..|faces| - 1])
         + (if HighQuality(faces[|faces| - 1]) then [faces[|faces| - 1]] else [])
  }

  /** The faces whose centre is within `maxDistance` of the image centre
      (0.5, 0.5); the distance is compared squared. */
  function CenteredFaces(faces: seq<Face>, maxDistance: real): seq<Face>
  {
    if faces == [] then []
    else CenteredFaces(faces[..|faces| - 1], maxDistance)
         + (if WithinDistanceOfCentre(faces[|faces| - 1], maxDistance) then [faces[|faces| - 1]] else [])
  }

  /** `distance_from_center(Point2D(0.5, 0.5)) <= maxDistance`. */
  predicate WithinDistanceOfCentre(f: Face, maxDistance: real)
  {
    var c := Center(f.box);
    var dx := c.x - 0.5;
    var dy := c.y - 0.5;
    maxDistance >= 0.0 && dx * dx + dy * dy <= maxDistance * maxDistance
  }

  /** The confidence filter keeps exactly the faces meeting the threshold,
      and every face when all meet it. */
  lemma {:induction false} WithConfidenceExact(faces: seq<Face>, minConfidence: real)
    ensures forall f :: f in WithConfidence(faces, minConfidence) <==> f in faces && f.confidence >= minConfidence
    ensures (forall i :: 0 <= i < |faces| ==> faces[i].confidence >= minConfidence)
            ==> WithConfidence(faces, minConfidence) == faces
    decreases |faces|
  {
    if faces != [] {
      WithConfidenceExact(faces[..|faces| - 1], minConfidence);
      assert faces == faces[..|faces| - 1] + [faces[|faces| - 1]];
    }
  }

  /** The confidence filter keeps the faces' order: filtering a
      concatenation filters each part. */
  lemma {:induction false} WithConfidenceOrder(faces: seq<Face>, more: seq<Face>, minConfidence: real)
    ensures WithConfidence(faces + more, minConfidence)
            == WithConfidence(faces, minConfidence) + WithConfidence(more, minConfidence)
    decreases |more|
  {
    if more != [] {
      var all := faces + more;
      assert all[..|all| - 1] == faces + more[..|more| - 1];
      WithConfidenceOrder(faces, more[..|more| - 1], minConfidence);
    } else {
      assert faces + more == faces;
    }
  }

  /** The size filter keeps exactly the faces meeting the threshold. */
  lemma {:induction false} WithSizeExact(faces: seq<Face>, minSize: real)
    ensures forall f :: f in WithSize(faces, minSize) <==> f in faces && f.faceSize >= minSize
    decreases |faces|
  {
    if faces != [] {
      WithSizeExact(faces[..|faces| - 1], minSize);
      assert faces == faces[..|faces| - 1] + [faces[|faces| - 1]];
    }
  }

  /** The size filter keeps the faces' order. */
  lemma {:induction false} WithSizeOrder(faces: seq<Face>, more: seq<Face>, minSize: real)
    ensures WithSize(faces + more, minSize) == WithSize(faces, minSize) + WithSize(more, minSize)
    decreases |more|
  {
    if more != [] {
      var all := faces + more;
      assert all[..|all| - 1] == faces + more[..|more| - 1];
      WithSizeOrder(faces, more[..|more| - 1], minSize);
    } else {
      assert faces + more == faces;
    }
  }

  /** The high-quality filter keeps exactly the high-quality faces. */
  lemma {:induction false} HighQualityFacesExact(faces: seq<Face>)
    ensures forall f :: f in HighQualityFaces(faces) <==> f in faces && HighQuality(f)
    decreases |faces|
  {
    if faces != [] {
      HighQualityFacesExact(faces[..|faces| - 1]);
      assert faces == faces[..|faces| - 1] + [faces[|faces| - 1]];
    }
  }

  /** The centred-face filter keeps exactly the faces near the centre. */
  lemma {:induction false} CenteredFacesExact(faces: seq<Face>, maxDistance: real)
    ensures forall f :: f in CenteredFaces(faces, maxDistance) <==> f in faces && WithinDistanceOfCentre(f, maxDistance)
    decreases |faces|
  {
    if faces != [] {
      CenteredFacesExact(faces[..|faces| - 1], maxDistance);
      assert faces == faces[..|faces| - 1] + [faces[|faces| - 1]];
    }
  }

  /** `cv2.cvtColor(image, COLOR_BGR2RGB)` on the image's shape: a
      non-empty image of three or four channels comes back with three
      (the fourth, alpha, is dropped); OpenCV refuses any other shape
      (a two-dimensional or single-channel image, an empty one) with
      cv2.error. */
  function BgrToRgbShape(shape: seq<int>): Option<seq<int>>
  {
    if |shape| == 3 && shape[0] > 0 && shape[1] > 0 && (shape[2] == 3 || shape[2] == 4)
    then Some([shape[0], shape[1], 3])
    else None
  }

  /** With the rotation recorded on the video (90, 180 or 270 degrees), the
      shape of the rotated image: a quarter turn swaps height and width. */
  function RotatedShape(shape: seq<int>, rotation: Option<Meta>): (s: seq<int>)
    ensures |s| == |shape|
  {
    if |shape| >= 2 && rotation.Some? && rotation.value.MInt?
       && (rotation.value.i == 90 || rotation.value.i == 270)
    then [shape[1], shape[0]] + shape[2..]
    else shape
  }

  // ---------------------------------------------------------------------
  // The entity

  class Frame {
    const video: VideoFile
    const frameNumber: int
    const timestamp: real
    /** `image_data.shape`: (height, width, channels). */
    const shape: seq<int>
    var faces: seq<Face>
    var sceneScore: real
    var qualityScore: real
    var metadata: map<string, Meta>

    constructor(video: VideoFile, frameNumber: int, timestamp: real, shape: seq<int>,
                faces: seq<Face>, sceneScore: real, qualityScore: real)
      ensures this.video == video && this.frameNumber == frameNumber && this.timestamp == timestamp
      ensures this.shape == shape && this.faces == faces
      ensures this.sceneScore == sceneScore && this.qualityScore == qualityScore
      ensures metadata == map[]
    {
      this.video := video;
      this.frameNumber := frameNumber;
      this.timestamp := timestamp;
      this.shape := shape;
      this.faces := faces;
      this.sceneScore := sceneScore;
      this.qualityScore := qualityScore;
      metadata := map[];
    }

    /** The image is a three-channel (height, width, channels) array. */
    predicate ImageShaped() { |shape| == 3 && shape[2] == 3 }

    function Height(): int requires ImageShaped() { shape[0] }
    function Width(): int requires ImageShaped() { shape[1] }

    /** `aspect_ratio`: width / height, 0 unless the height is positive. */
    function AspectRatio(): (r: real)
      requires ImageShaped()
      ensures Height() <= 0 ==> r == 0.0
      ensures Height() > 0 ==> r * Height() as real == Width() as real
    {
      if Height() > 0 then Width() as real / Height() as real else 0.0
    }

    function PixelCount(): int requires ImageShaped() { Width() * Height() }

    /** `estimated_processing_time`: 0.1 s per 1920x1080 frame area,
        at least 0.01 s. */
    function EstimatedProcessingTime(): (t: real)
      requires ImageShaped()
      ensures t >= 0.01
      ensures t >= (PixelCount() as real / (1920.0 * 1080.0)) * 0.1
    {
      Max(0.01, (PixelCount() as real / (1920.0 * 1080.0)) * 0.1)
    }

    predicate HasFaces() reads this { |faces| > 0 }

    function FaceCount(): nat reads this { |faces| }

    lemma HasFacesIffCount()
      ensures HasFaces() <==> FaceCount() > 0
    {
    }

    /** `primary_face`. */
    function PrimaryFace(): Option<Face> reads this { MostConfident(faces) }

    /** `largest_face`. */
    function LargestFace(): Option<Face> reads this { Largest(faces) }

    /** `get_face_by_confidence(min_confidence)`; the default is 0.5. */
    function FacesByConfidence(minConfidence: real): seq<Face> reads this
    {
      WithConfidence(faces, minConfidence)
    }

    /** `get_face_by_size(min_size)`; the default is 0.01. */
    function FacesBySize(minSize: real): seq<Face> reads this { WithSize(faces, minSize) }

    /** `high_quality_faces`. */
    function GetHighQualityFaces(): seq<Face> reads this { HighQualityFaces(faces) }

    /** `get_centered_faces(max_distance)`; the default is 0.3. */
    function CenteredFacesWithin(maxDistance: real): seq<Face> reads this
    {
      CenteredFaces(faces, maxDistance)
    }

    /** `is_scene_change`: scene score at least 0.3. */
    predicate IsSceneChange() reads this { sceneScore >= 0.3 }

    /** `is_high_quality`: quality score at least 0.7. */
    predicate IsHighQuality() reads this { qualityScore >= 0.7 }

    /** `update_quality_metrics`: the blended score from the image
        statistics, and the three measures recorded in the metadata. */
    method UpdateQualityMetrics(stats: PixelStats)
      modifies this`qualityScore, this`metadata
      ensures qualityScore == QualityBlend(Brightness(stats), Contrast(stats), Sharpness(stats))
      ensures metadata == old(metadata)["brightness" := MReal(Brightness(stats))]
                                       ["contrast" := MReal(Contrast(stats))]
                                       ["sharpness" := MReal(Sharpness(stats))]
      ensures PlausibleStats(stats) ==> 0.0 <= qualityScore <= 1.0
    {
      var brightness := Brightness(stats);
      var contrast := Contrast(stats);
      var sharpness := Sharpness(stats);
      qualityScore := brightness * 0.2 + contrast * 0.3 + sharpness * 0.5;
      metadata := metadata["brightness" := MReal(brightness)]["contrast" := MReal(contrast)]
                          ["sharpness" := MReal(sharpness)];
      if PlausibleStats(stats) {
        MeasuresInUnit(stats);
      }
    }

    /** `add_metadata`. */
    method AddMetadata(key: string, value: Meta)
      modifies this`metadata
      ensures metadata == old(metadata)[key := value]
    {
      metadata := metadata[key := value];
    }

    /** `__eq__`: the same video file and the same frame number. */
    predicate SameFrame(other: Frame)
    {
      video.SameFile(other.video) && frameNumber == other.frameNumber
    }

    /** `__hash__` hashes (file path, frame number), so equal frames hash
        alike; equality is an equivalence. */
    lemma SameFrameIsEquivalence(b: Frame, c: Frame)
      ensures SameFrame(this)
      ensures SameFrame(b) ==> b.SameFrame(this)
      ensures SameFrame(b) && b.SameFrame(c) ==> SameFrame(c)
      ensures SameFrame(b) ==> (video.filePath, frameNumber) == (b.video.filePath, b.frameNumber)
    {
    }
  }

  /** `Frame(...)`: the construction checks against the video's current
      frame count and duration, then a new frame. */
  method NewFrame(video: VideoFile, frameNumber: int, timestamp: real, shape: seq<int>,
                  faces: seq<Face>, sceneScore: real, qualityScore: real) returns (r: Result<Frame>)
    ensures var rejection := FrameRejection(video.totalFrames, video.duration, frameNumber, timestamp,
                                            shape, sceneScore, qualityScore);
            (r.Ok? <==> rejection.None?) && (r.Err? ==> r.error == ValueError)
    ensures r.Ok? ==> fresh(r.value) && r.value.video == video && r.value.frameNumber == frameNumber
                      && r.value.timestamp == timestamp && r.value.shape == shape
                      && r.value.faces == faces && r.value.ImageShaped()
                      && r.value.sceneScore == sceneScore && r.value.qualityScore == qualityScore
                      && r.value.metadata == map[]
  {
    var rejection := FrameRejection(video.totalFrames, video.duration, frameNumber, timestamp,
                                    shape, sceneScore, qualityScore);
    if rejection.Some? {
      return Err(rejection.value);
    }
    var f := new Frame(video, frameNumber, timestamp, shape, faces, sceneScore, qualityScore);
    return Ok(f);
  }

  /** `Frame.create_from_opencv`: the BGR image is converted to RGB (a
      shape OpenCV cannot convert raises cv2.error), turned by the rotation
      the video records, and the frame is built with no faces and zero
      scores. */
  method CreateFromOpenCV(video: VideoFile, frameNumber: int, timestamp: real, decodedShape: seq<int>)
    returns (r: Result<Frame>)
    ensures r == Err(CvError)
            <==> !(|decodedShape| == 3 && decodedShape[0] > 0 && decodedShape[1] > 0
                   && (decodedShape[2] == 3 || decodedShape[2] == 4))
    ensures BgrToRgbShape(decodedShape).Some? ==>
            var shape := RotatedShape(BgrToRgbShape(decodedShape).value, video.GetMetadata("rotation", None));
            (shape == [decodedShape[0], decodedShape[1], 3] || shape == [decodedShape[1], decodedShape[0], 3])
            && (r.Ok? <==> FrameRejection(video.totalFrames, video.duration, frameNumber, timestamp,
                                          shape, 0.0, 0.0).None?)
            && (r.Err? ==> r.error == ValueError)
            && (r.Ok? ==> fresh(r.value) && r.value.shape == shape && r.value.faces == []
                          && r.value.video == video && r.value.frameNumber == frameNumber
                          && r.value.timestamp == timestamp && r.value.sceneScore == 0.0
                          && r.value.qualityScore == 0.0 && r.value.metadata == map[])
  {
    var converted := BgrToRgbShape(decodedShape);
    if converted.None? {
      return Err(CvError);
    }
    var shape := RotatedShape(converted.value, video.GetMetadata("rotation", None));
    r := NewFrame(video, frameNumber, timestamp, shape, [], 0.0, 0.0);
  }
}
