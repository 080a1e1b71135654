// The video service (`services/video_processor.py`): opening a video and
// reading its stream properties, rotation and codec; sampling frames at a
// fixed interval through a bounded buffer; choosing scene changes from
// histogram differences; and the frame quality score.
//
// OpenCV and ffprobe are oracles given as parameters: what the capture
// reports (`Capture`), what ffprobe prints, the shape of the image decoded at
// each position (`read`), the grey-level statistics of each decoded image
// (`stats`) and the histogram correlations of consecutive frames.

module VideoProcessor {
  import opened Errors
  import opened PyMath
  import opened Text
  import opened VideoFile
  import opened Frame
  import Ordering

  /** What an opened `cv2.VideoCapture` reports: frame rate, frame count,
      frame width and height, and the FOURCC code, all as floats. */
  datatype Capture = Capture(fps: real, frameCount: real, width: real, height: real, fourcc: real)

  // ---------------------------------------------------------------------
  // Rotation and codec

  /** The rotations a video may record. */
  predicate RightAngle(v: int) { v == 0 || v == 90 || v == 180 || v == 270 }

  /** `_get_video_rotation`: ffprobe's output (None when it cannot run),
      stripped; empty text means no tag; otherwise an integer reduced modulo
      360 that counts only when it is a right angle. */
  function ProbeRotation(output: Option<string>): (r: Option<int>)
    ensures r.Some? ==> RightAngle(r.value)
    ensures output.None? || Strip(output.value) == [] ==> r.None?
  {
    if output.None? then None
    else
      var text := Strip(output.value);
      if text == [] then None
      else
        var v := ParseInt(text);
        if v.None? then None
        else if RightAngle(v.value % 360) then Some(v.value % 360)
        else None
  }

  /** An angle printed as a decimal integer with white space around it is
      read back reduced modulo 360, when that is a right angle. */
  lemma ProbeRotationReadsPrinted(v: int, pre: string, post: string)
    requires IsBlank(pre) && IsBlank(post)
    ensures ProbeRotation(Some(pre + FormatInt(v, 1) + post))
            == if RightAngle(v % 360) then Some(v % 360) else None
  {
    var s := FormatInt(v, 1);
    ParseFormatted(v);
    StripSurrounded(pre, s, post);
    var out := pre + s + post;
    assert Strip(out) == s;
    assert ParseInt(Strip(out)) == Some(v);
  }

  /** The low `k` bytes of `code`, low first, as characters:
      `chr((code >> 8 * i) & 0xFF)` for i below k. */
  function Bytes(code: int, k: nat): (s: string)
    ensures |s| == k
    ensures forall i :: 0 <= i < k ==> s[i] as int < 256
    decreases k
  {
    if k == 0 then [] else [(code % 256) as char] + Bytes(code / 256, k - 1)
  }

  /** The codec name recorded by `load_video`: the four bytes of the
      truncated FOURCC code. */
  function CodecName(fourcc: real): (s: string)
    ensures |s| == 4
  {
    Bytes(Trunc(fourcc), 4)
  }

  /** The code whose bytes, low first, are the characters of `s`. */
  function Pack(s: string): (code: int)
    requires forall i :: 0 <= i < |s| ==> s[i] as int < 256
    ensures code >= 0
  {
    if s == [] then 0 else s[0] as int + 256 * Pack(s[1..])
  }

  /** Unpacking a packed name gives the name back. */
  lemma {:induction false} BytesOfPack(s: string)
    requires forall i :: 0 <= i < |s| ==> s[i] as int < 256
    ensures Bytes(Pack(s), |s|) == s
  {
    if s != [] {
      var c := s[0] as int;
      var rest := Pack(s[1..]);
      assert (c + 256 * rest) % 256 == c && (c + 256 * rest) / 256 == rest;
      BytesOfPack(s[1..]);
      assert Bytes(Pack(s), |s|) == [(c as char)] + s[1..];
    }
  }

  /** A FOURCC code reported as the float of the packed name reads back as
      that name. */
  lemma CodecNameOfPacked(name: string)
    requires |name| == 4 && forall i :: 0 <= i < 4 ==> name[i] as int < 256
    ensures CodecName(Pack(name) as real) == name
  {
    var n := Pack(name);
    assert Trunc(n as real) == n;
    BytesOfPack(name);
  }

  // ---------------------------------------------------------------------
  // Loading

  /** Width and height as displayed: a quarter turn swaps them. */
  function DisplaySize(c: Capture, rotation: Option<int>): (int, int)
  {
    if rotation == Some(90) || rotation == Some(270) then (Trunc(c.height), Trunc(c.width))
    else (Trunc(c.width), Trunc(c.height))
  }

  /** The metadata `load_video` records: the rotation when there is one, then
      the codec name. */
  function LoadMetadata(c: Capture, rotation: Option<int>): map<string, Meta>
  {
    (if rotation.Some? then map["rotation" := MInt(rotation.value)] else map[])
      ["codec" := MStr(CodecName(c.fourcc))]
  }

  /** The error `load_video` raises for an opened capture, if any: a
      non-positive rate, frame count or displayed side is
      CorruptedVideoError; a failed property check becomes
      VideoProcessingError. */
  function StreamRejection(c: Capture, rotation: Option<int>): (r: Option<ErrorKind>)
    ensures r.None? <==> var (w, h) := DisplaySize(c, rotation);
                         c.fps > 0.0 && Trunc(c.frameCount) > 0
                         && PropertiesAcceptable(Trunc(c.frameCount) as real / c.fps, c.fps, w, h)
    ensures r.Some? ==> r.value == CorruptedVideoError || r.value == VideoProcessingError
  {
    var (w, h) := DisplaySize(c, rotation);
    var count := Trunc(c.frameCount);
    if c.fps <= 0.0 || count <= 0 || w <= 0 || h <= 0 then Some(CorruptedVideoError)
    else if PropertyRejection(count as real / c.fps, c.fps, w, h).Some? then Some(VideoProcessingError)
    else None
  }

  /** The error `load_video` raises, if any, in its order: a missing file
      re-raises FileNotFoundError and any other failed basic check becomes
      VideoProcessingError; a capture that does not open is
      CorruptedVideoError; then `StreamRejection`. */
  function LoadRejection(path: string, fs: FileStat, capture: Option<Capture>, probe: Option<string>)
    : (r: Option<ErrorKind>)
    ensures r.None? <==> BasicRejection(path, 0, fs).None? && capture.Some?
                         && StreamRejection(capture.value, ProbeRotation(probe)).None?
    ensures r == Some(FileNotFoundError) <==> !fs.present
  {
    if BasicRejection(path, 0, fs).Some? then
      Some(if fs.present then VideoProcessingError else FileNotFoundError)
    else if capture.None? then Some(CorruptedVideoError)
    else StreamRejection(capture.value, ProbeRotation(probe))
  }

  /** A rejected load raises one of the three kinds `load_video` lets out. */
  lemma LoadRejectionKinds(path: string, fs: FileStat, capture: Option<Capture>, probe: Option<string>)
    ensures var r := LoadRejection(path, fs, capture, probe);
            r.Some? ==> r.value in {FileNotFoundError, CorruptedVideoError, VideoProcessingError}
    ensures capture.None? && fs.present ==> LoadRejection(path, fs, capture, probe).Some?
  {
  }

  /** `_max_buffer_size`. */
  const MaxBufferSize: nat := 100

  /** The buffer check before each frame: a full buffer is emptied. */
  function Room(buffer: seq<int>): (r: seq<int>)
  {
    if |buffer| >= MaxBufferSize then [] else buffer
  }

  /** After making room and adding one image the buffer holds at most
      `MaxBufferSize` images, ends with the new one, and keeps the old ones
      when there was room. */
  lemma BufferStaysBounded(buffer: seq<int>, n: int)
    ensures |Room(buffer) + [n]| <= MaxBufferSize
    ensures (Room(buffer) + [n])[|Room(buffer)|] == n
    ensures |buffer| < MaxBufferSize ==> Room(buffer) + [n] == buffer + [n]
    ensures |buffer| >= MaxBufferSize ==> Room(buffer) + [n] == [n]
  {
  }

  // ---------------------------------------------------------------------
  // Sampling step

  /** `int(video_file.fps * interval_seconds)`: the step as written. */
  function RawStep(fps: real, interval: real): int
  {
    Trunc(fps * interval)
  }

  /** The position the sampling loop reaches after `k` advances of `step`
      from 0 (`current_frame_number += frame_interval`). */
  function Position(step: int, k: nat): int
  {
    if k == 0 then 0 else Position(step, k - 1) + step
  }

  /** The k-th position is k steps. */
  lemma {:induction false} PositionIsMultiple(step: int, k: nat)
    ensures Position(step, k) == k * step
  {
    if k > 0 {
      PositionIsMultiple(step, k - 1);
      assert k * step == (k - 1) * step + step;
    }
  }

  /** As written, a rate times interval below one frame gives step 0: the
      position stays 0, so for a video with frames the exit test
      `current_frame_number >= total_frames` never holds and, while frame 0
      decodes, the loop yields frame 0 forever. */
  lemma {:induction false} ZeroStepNeverExits(fps: real, interval: real, totalFrames: int, k: nat)
    requires 0.0 <= fps * interval < 1.0 && totalFrames > 0
    ensures RawStep(fps, interval) == 0
    ensures Position(RawStep(fps, interval), k) == 0 < totalFrames
  {
    if k > 0 {
      ZeroStepNeverExits(fps, interval, totalFrames, k - 1);
    }
  }

  /** The step the model's sampling loop advances by: the written step, or
      one frame when the written step is zero. */
  function SamplingStep(fps: real, interval: real): int
  {
    if RawStep(fps, interval) == 0 then 1 else RawStep(fps, interval)
  }

  /** The step never stays put, agrees with the written one whenever that
      moves, and for a non-negative rate moves forward by at least one
      frame, so the positions k * step reach any frame count. */
  lemma SamplingStepAdvances(fps: real, interval: real, totalFrames: nat)
    ensures SamplingStep(fps, interval) != 0
    ensures RawStep(fps, interval) != 0 ==> SamplingStep(fps, interval) == RawStep(fps, interval)
    ensures fps * interval >= 0.0 ==> SamplingStep(fps, interval) >= 1
    ensures fps * interval >= 0.0 ==> totalFrames * SamplingStep(fps, interval) >= totalFrames
  {
    var step := SamplingStep(fps, interval);
    if fps * interval >= 0.0 {
      assert step >= 1;
      assert totalFrames * step == totalFrames + totalFrames * (step - 1);
    }
  }

  /** What remains of the sampling loop: frames before the end for a forward
      step; for a backward step, at most the one pass at position 0. */
  function Remaining(step: int, totalFrames: int, position: int): nat
  {
    if step > 0 then (if position < totalFrames then totalFrames - position else 0)
    else if position >= 0 then 1 else 0
  }

  /** `video.get_metadata('rotation')`. */
  function RecordedRotation(metadata: map<string, Meta>): Option<Meta>
  {
    if "rotation" in metadata then Some(metadata["rotation"]) else None
  }

  /** What sampling reads of a video: its rate, frame count, duration and
      recorded rotation. */
  datatype Stream = Stream(fps: real, totalFrames: int, duration: real, rotation: Option<Meta>)

  function StreamOf(video: VideoFile): Stream
    reads video`fps, video`totalFrames, video`duration, video`metadata
  {
    Stream(video.fps, video.totalFrames, video.duration, RecordedRotation(video.metadata))
  }

  /** `f` is the frame of `video` (read as `s`) sampled at position `p`: a
      frame at that number and time, shaped as the decoded image converted
      to RGB and turned by the recorded rotation, without faces, its quality
      from the image statistics. */
  predicate Sampled(f: Frame, video: VideoFile, s: Stream, p: int,
                    read: int -> Option<seq<int>>, stats: int -> PixelStats)
    reads f
  {
    read(p).Some? && s.fps != 0.0
    && f.video == video && f.frameNumber == p && f.timestamp == p as real / s.fps
    && BgrToRgbShape(read(p).value).Some?
    && f.shape == RotatedShape(BgrToRgbShape(read(p).value).value, s.rotation)
    && f.faces == [] && f.sceneScore == 0.0
    && f.qualityScore == QualityBlend(Brightness(stats(p)), Contrast(stats(p)), Sharpness(stats(p)))
  }

  /** The frames are the samples at positions 0, step, 2 * step, ..., and
      every position after the first is below the frame count. */
  predicate SampledRun(frames: seq<Frame>, video: VideoFile, s: Stream, step: int,
                       read: int -> Option<seq<int>>, stats: int -> PixelStats)
    reads frames
  {
    (forall i :: 0 <= i < |frames| ==> Sampled(frames[i], video, s, Position(step, i), read, stats))
    && (forall i :: 0 < i < |frames| ==> frames[i].frameNumber < s.totalFrames)
  }

  /** A run extends by the sample at the next position, when that position
      is below the frame count or is the first. */
  lemma SampledRunGrows(frames: seq<Frame>, f: Frame, video: VideoFile, s: Stream, step: int,
                        read: int -> Option<seq<int>>, stats: int -> PixelStats)
    requires SampledRun(frames, video, s, step, read, stats)
    requires Sampled(f, video, s, Position(step, |frames|), read, stats)
    requires |frames| > 0 ==> Position(step, |frames|) < s.totalFrames
    ensures SampledRun(frames + [f], video, s, step, read, stats)
  {
    var run := frames + [f];
    assert forall i :: 0 <= i < |frames| ==> run[i] == frames[i];
  }

  /** One sample of the loop body of `extract_frames` at position `p`: the
      timestamp p / fps, the frame built from the decoded image, its quality
      metrics updated. */
  method Sample(video: VideoFile, p: int, read: int -> Option<seq<int>>, stats: int -> PixelStats)
    returns (r: Result<Frame>)
    requires read(p).Some?
    ensures r.Ok? <==> !SampleFails(StreamOf(video), p, read(p).value)
    ensures r.Err? && video.fps == 0.0 ==> r.error == ZeroDivisionError
    ensures r.Err? && video.fps != 0.0 ==>
              r.error == if BgrToRgbShape(read(p).value).None? then CvError else ValueError
    ensures r.Ok? ==> fresh(r.value) && Sampled(r.value, video, StreamOf(video), p, read, stats)
    ensures r.Ok? ==> 0 <= p && (video.totalFrames > 0 ==> p < video.totalFrames)
  {
    if video.fps == 0.0 {
      return Err(ZeroDivisionError);
    }
    var created := CreateFromOpenCV(video, p, p as real / video.fps, read(p).value);
    if created.Err? {
      return Err(created.error);
    }
    var frame := created.value;
    frame.UpdateQualityMetrics(stats(p));
    return Ok(frame);
  }

  /** Why the sampling loop stopped after `count` samples, the next
      position being `p`: not failed exactly when the image at p does
      not decode or p has reached the frame count; a failure is a sample at
      p that raised. */
  predicate StoppedAt(s: Stream, p: int, count: nat, failed: bool, read: int -> Option<seq<int>>)
  {
    (!failed <==> read(p).None? || (count > 0 && p >= s.totalFrames))
    && (failed ==> read(p).Some? && SampleFails(s, p, read(p).value))
  }

  /** One pass of the sampling loop at position `p`: nothing when the image
      does not decode; otherwise the buffer is made room in and the sample
      taken, and a successful sample's image is buffered. */
  method Visit(video: VideoFile, p: int, read: int -> Option<seq<int>>, stats: int -> PixelStats,
               buffer: seq<int>)
    returns (outcome: Option<Result<Frame>>, buffer': seq<int>)
    ensures outcome.None? <==> read(p).None?
    ensures outcome.None? ==> buffer' == buffer
    ensures outcome.Some? ==> buffer' == Room(buffer) + (if outcome.value.Ok? then [p] else [])
    ensures outcome.Some? ==> |buffer'| <= MaxBufferSize
    ensures outcome.Some? ==> (outcome.value.Ok? <==> !SampleFails(StreamOf(video), p, read(p).value))
    ensures outcome.Some? && outcome.value.Err? && video.fps == 0.0 ==> outcome.value.error == ZeroDivisionError
    ensures outcome.Some? && outcome.value.Err? && video.fps != 0.0 ==>
              outcome.value.error == if BgrToRgbShape(read(p).value).None? then CvError else ValueError
    ensures outcome.Some? && outcome.value.Ok? ==>
              var f := outcome.value.value;
              fresh(f) && Sampled(f, video, StreamOf(video), p, read, stats)
              && 0 <= p && (video.totalFrames > 0 ==> p < video.totalFrames)
  {
    if read(p).None? {
      return None, buffer;
    }
    buffer' := Room(buffer);
    var sample := Sample(video, p, read, stats);
    if sample.Ok? {
      BufferStaysBounded(buffer, p);
      buffer' := buffer' + [p];
    }
    outcome := Some(sample);
  }

  /** Why sampling at position `p` raised: a zero rate (the timestamp
      divides by it), an image OpenCV cannot convert to RGB, or a frame the
      construction checks reject. */
  predicate SampleFails(s: Stream, p: int, shape: seq<int>)
  {
    s.fps == 0.0
    || BgrToRgbShape(shape).None?
    || FrameRejection(s.totalFrames, s.duration, p, p as real / s.fps,
                      RotatedShape(BgrToRgbShape(shape).value, s.rotation), 0.0, 0.0).Some?
  }

  // ---------------------------------------------------------------------
  // Histograms and quality

  /** `_calculate_histogram_difference`: one minus the mean of the hue,
      saturation and value histogram correlations (a negative mean counting
      as 0), kept in [0, 1]; 0 when the histograms cannot be computed. */
  function HistogramDifference(correlations: Option<(real, real, real)>): (d: real)
    ensures 0.0 <= d <= 1.0
  {
    if correlations.None? then 0.0
    else
      var (h, s, v) := correlations.value;
      Clamp(1.0 - Max(0.0, (h + s + v) / 3.0), 0.0, 1.0)
  }

  /** Identical histograms (correlation 1) differ by 0, uncorrelated or
      anti-correlated ones by 1, and in between the difference is one minus
      the mean correlation. */
  lemma HistogramDifferenceMeaning(h: real, s: real, v: real)
    ensures var m := (h + s + v) / 3.0;
            var d := HistogramDifference(Some((h, s, v)));
            (m <= 0.0 ==> d == 1.0) && (0.0 <= m <= 1.0 ==> d == 1.0 - m) && (m >= 1.0 ==> d == 0.0)
  {
  }

  /** The frames `detect_scene_changes` keeps among the first `n`: the first
      one, then each later one whose difference from its predecessor reaches
      the threshold, in order. */
  function SceneChangePositions(correlations: nat -> Option<(real, real, real)>, threshold: real, n: nat)
    : (p: seq<nat>)
    requires n >= 1
    ensures |p| >= 1 && p[0] == 0
    ensures forall i :: 0 <= i < |p| ==> p[i] < n
  {
    if n == 1 then [0]
    else SceneChangePositions(correlations, threshold, n - 1)
         + (if HistogramDifference(correlations(n - 1)) >= threshold then [n - 1] else [])
  }

  /** The positions of `p` strictly increase. */
  predicate Increasing(p: seq<nat>)
  {
    forall a, b :: 0 <= a < b < |p| ==> p[a] < p[b]
  }

  /** The kept positions increase, and a position is kept exactly when it is
      the first or its difference reaches the threshold. */
  lemma {:induction false} SceneChangePositionsExact(correlations: nat -> Option<(real, real, real)>,
                                                     threshold: real, n: nat)
    requires n >= 1
    ensures Increasing(SceneChangePositions(correlations, threshold, n))
    ensures forall i: nat :: i in SceneChangePositions(correlations, threshold, n)
                             <==> i == 0 || (i < n && HistogramDifference(correlations(i)) >= threshold)
  {
    if n > 1 {
      SceneChangePositionsExact(correlations, threshold, n - 1);
      var q := SceneChangePositions(correlations, threshold, n - 1);
      var p := SceneChangePositions(correlations, threshold, n);
      var extra := if HistogramDifference(correlations(n - 1)) >= threshold then [n - 1] else [];
      assert p == q + extra;
      forall a, b | 0 <= a < b < |p|
        ensures p[a] < p[b]
      {
        assert p[a] == q[a];
        if b < |q| {
          assert p[b] == q[b] && q[a] < q[b];
        } else {
          assert p[b] == n - 1 && q[a] < n - 1;
        }
      }
      forall i: nat
        ensures i in p <==> i in q || i in extra
      {
        if i in p {
          var k :| 0 <= k < |p| && p[k] == i;
          if k < |q| { assert q[k] == i; } else { assert extra[k - |q|] == i; }
        }
        if i in q {
          var k :| 0 <= k < |q| && q[k] == i;
          assert p[k] == i;
        }
        if i in extra {
          assert p[|q|] == i;
        }
      }
    }
  }

  /** The scene scores the loop over `frames[1..n]` leaves behind, by frame
      object: each frame's difference from its predecessor, a frame listed
      twice keeping the score written last. */
  function SceneScores(frames: seq<Frame>, correlations: nat -> Option<(real, real, real)>, n: nat)
    : (m: map<Frame, real>)
    requires 1 <= n <= |frames|
    ensures forall f :: f in m ==> 0.0 <= m[f] <= 1.0
  {
    if n == 1 then map[]
    else SceneScores(frames, correlations, n - 1)[frames[n - 1] := HistogramDifference(correlations(n - 1))]
  }

  /** The scored frames are those at positions 1..n-1. */
  lemma {:induction false} SceneScoresDomain(frames: seq<Frame>, correlations: nat -> Option<(real, real, real)>,
                                             n: nat, f: Frame)
    requires 1 <= n <= |frames|
    ensures f in SceneScores(frames, correlations, n) <==> f in frames[1..n]
  {
    if n > 1 {
      SceneScoresDomain(frames, correlations, n - 1, f);
      assert frames[1..n] == frames[1..n - 1] + [frames[n - 1]];
    }
  }

  /** The frame at a position not repeated later holds that position's
      difference. */
  lemma {:induction false} SceneScoresLastWins(frames: seq<Frame>, correlations: nat -> Option<(real, real, real)>,
                                               n: nat)
    requires 1 <= n <= |frames|
    ensures forall k :: 1 <= k < n && (forall j :: k < j < n ==> frames[j] != frames[k])
                        ==> frames[k] in SceneScores(frames, correlations, n)
                            && SceneScores(frames, correlations, n)[frames[k]] == HistogramDifference(correlations(k))
  {
    if n > 1 {
      SceneScoresLastWins(frames, correlations, n - 1);
    }
  }

  /** `detect_scene_changes` as written: after the threshold check the body
      ends, so a valid threshold returns Python's None, never a list. */
  function DetectSceneChangesAsWritten(frames: seq<Frame>, threshold: real): (r: Result<Option<seq<Frame>>>)
    ensures r.Err? <==> !(0.0 <= threshold <= 1.0)
  {
    if !(0.0 <= threshold <= 1.0) then Err(InvalidThresholdError) else Ok(None)
  }

  /** With a valid threshold the written method gives no list at all, while
      the documented result always holds at least the first frame. */
  lemma SceneChangesAsWrittenLoseFirstFrame(frames: seq<Frame>, threshold: real,
                                            correlations: nat -> Option<(real, real, real)>)
    requires 0.0 <= threshold <= 1.0 && |frames| >= 2
    ensures DetectSceneChangesAsWritten(frames, threshold) == Ok(None)
    ensures |SceneChangePositions(correlations, threshold, |frames|)| >= 1
  {
  }

  /** What `calculate_quality_score` sees of `frame.image_data`: none, an
      image the grey conversion fails on, or the statistics of its grey
      levels. */
  datatype ImageData = Missing | Unconvertible | Decoded(stats: PixelStats)

  /** `_calculate_brightness_quality`: full marks for a mean brightness from
      0.3 to 0.7, falling linearly to 0 towards black and towards white. */
  function BrightnessQuality(b: real): real
  {
    if 0.3 <= b <= 0.7 then 1.0 else if b < 0.3 then b / 0.3 else (1.0 - b) / 0.3
  }

  /** Brightness quality is 1 exactly on the middle band, in [0, 1] for a
      brightness in [0, 1], rising up to the band and falling after it. */
  lemma BrightnessQualityShape(b: real, b': real)
    ensures BrightnessQuality(b) == 1.0 <==> 0.3 <= b <= 0.7
    ensures 0.0 <= b <= 1.0 ==> 0.0 <= BrightnessQuality(b) <= 1.0
    ensures b <= b' <= 0.7 ==> BrightnessQuality(b) <= BrightnessQuality(b')
    ensures 0.3 <= b <= b' ==> BrightnessQuality(b') <= BrightnessQuality(b)
  {
  }

  /** `_calculate_contrast_quality`: the grey deviation scaled by 255, full
      marks from 0.1 on. */
  function ContrastQuality(s: PixelStats): real
  {
    Min(1.0, s.stdGray / 255.0 / 0.1)
  }

  /** The three measures the score blends; each falls back to 0.5 when the
      grey conversion fails. */
  function QualityMeasures(image: ImageData): (real, real, real)
    requires !image.Missing?
  {
    if image.Unconvertible? then (0.5, 0.5, 0.5)
    else (BrightnessQuality(Brightness(image.stats)), ContrastQuality(image.stats), Sharpness(image.stats))
  }

  /** `calculate_quality_score`'s result: the blend kept in [0, 1]. */
  function QualityScore(image: ImageData): (q: real)
    requires !image.Missing?
    ensures 0.0 <= q <= 1.0
  {
    var (b, c, s) := QualityMeasures(image);
    Clamp(QualityBlend(b, c, s), 0.0, 1.0)
  }

  /** For an image any 8-bit frame can have the measures are in [0, 1], so
      the clamp changes nothing; an unconvertible image scores 0.5. */
  lemma QualityScoreUnclamped(image: ImageData)
    requires image.Unconvertible? || (image.Decoded? && PlausibleStats(image.stats))
    ensures var (b, c, s) := QualityMeasures(image);
            0.0 <= b <= 1.0 && 0.0 <= c <= 1.0 && 0.0 <= s <= 1.0
            && QualityScore(image) == QualityBlend(b, c, s)
    ensures image.Unconvertible? ==> QualityScore(image) == 0.5
  {
    var (b, c, s) := QualityMeasures(image);
    if image.Decoded? {
      MeasuresInUnit(image.stats);
      BrightnessQualityShape(Brightness(image.stats), 0.0);
    }
    QualityBlendBounds(b, c, s, 1.0, 1.0, 1.0);
  }

  /** `VideoFile(file_path=path)` as `load_video` calls it: a missing file
      raises FileNotFoundError, any other failed basic check is caught and
      raised as VideoProcessingError. */
  method OpenVideoFile(path: string, fs: FileStat) returns (r: Result<VideoFile>)
    ensures r.Err? <==> BasicRejection(path, 0, fs).Some?
    ensures r.Err? ==> r.error == (if fs.present then VideoProcessingError else FileNotFoundError)
    ensures r.Ok? ==> fresh(r.value) && r.value.filePath == path && r.value.fileName == Name(path)
                      && r.value.totalFrames == 0 && r.value.metadata == map[]
  {
    var video := new VideoFile(path, "", 0);
    var init := video.PostInit(fs);
    if init.Err? {
      assert init.error == FileNotFoundError <==> !fs.present;
      return Err(if init.error == FileNotFoundError then FileNotFoundError else VideoProcessingError);
    }
    return Ok(video);
  }

  /** The properties `load_video` reads from the capture and ffprobe: the
      truncated frame count, the displayed size and the rotation. */
  method ReadStream(c: Capture, probe: Option<string>) returns (frameCount: int, width: int, height: int,
                                                                rotation: Option<int>)
    ensures rotation == ProbeRotation(probe) && frameCount == Trunc(c.frameCount)
    ensures (width, height) == DisplaySize(c, rotation)
  {
    frameCount := Trunc(c.frameCount);
    width := Trunc(c.width);
    height := Trunc(c.height);
    rotation := ProbeRotation(probe);
    if rotation == Some(90) || rotation == Some(270) {
      width, height := height, width;
    }
  }

  /** The stream properties `load_video` stores: rate, displayed size,
      frame count, duration = frames / rate, and the rotation (when known)
      and codec in the metadata. */
  method RecordStream(video: VideoFile, c: Capture, frameCount: int, width: int, height: int,
                      rotation: Option<int>)
    requires c.fps > 0.0
    modifies video`fps, video`width, video`height, video`totalFrames, video`duration, video`metadata
    ensures video.fps == c.fps && video.width == width && video.height == height
    ensures video.totalFrames == frameCount && video.duration == frameCount as real / c.fps
    ensures video.metadata == (if rotation.Some? then old(video.metadata)["rotation" := MInt(rotation.value)]
                               else old(video.metadata))["codec" := MStr(CodecName(c.fourcc))]
  {
    video.fps := c.fps;
    video.width := width;
    video.height := height;
    video.totalFrames := frameCount;
    video.duration := frameCount as real / c.fps;
    if rotation.Some? {
      video.AddMetadata("rotation", MInt(rotation.value));
    }
    video.AddMetadata("codec", MStr(CodecName(c.fourcc)));
  }

  // ---------------------------------------------------------------------
  // The service

  class VideoProcessor {
    /** `_frame_buffer`: the positions of the images held. */
    var frameBuffer: seq<int>

    constructor()
      ensures frameBuffer == []
    {
      frameBuffer := [];
    }

    /** `load_video`: the error raised is `LoadRejection`'s; a loaded video
        is VALID and carries the capture's rate and frame count, the
        displayed size, duration = frames / rate, and the rotation and codec
        in its metadata. */
    method LoadVideo(path: string, fs: FileStat, capture: Option<Capture>, probe: Option<string>)
      returns (r: Result<VideoFile>)
      ensures r.Err? <==> LoadRejection(path, fs, capture, probe).Some?
      ensures r.Err? ==> r.error == LoadRejection(path, fs, capture, probe).value
      ensures r.Ok? ==> var v := r.value; var c := capture.value;
                        fresh(v) && v.filePath == path && v.fileName == Name(path)
                        && v.fps == c.fps && v.totalFrames == Trunc(c.frameCount)
                        && (v.width, v.height) == DisplaySize(c, ProbeRotation(probe))
                        && v.duration == v.totalFrames as real / v.fps
                        && v.status == Valid && v.isValid && v.errorMessage == None
                        && v.metadata == LoadMetadata(c, ProbeRotation(probe))
    {
      var file := OpenVideoFile(path, fs);
      if file.Err? {
        return Err(file.error);
      }
      if capture.None? {
        return Err(CorruptedVideoError);
      }
      var video := file.value;
      var failure := LoadStream(video, capture.value, probe);
      if failure.Some? {
        return Err(failure.value);
      }
      return Ok(video);
    }

    /** The stream part of `load_video` on the opened file: the properties
        read from the capture and ffprobe are checked, recorded and
        validated; the error is `StreamRejection`. */
    static method LoadStream(video: VideoFile, c: Capture, probe: Option<string>) returns (failure: Option<ErrorKind>)
      requires video.totalFrames == 0 && video.metadata == map[]
      modifies video`fps, video`width, video`height, video`totalFrames, video`duration, video`metadata,
               video`isValid, video`status, video`errorMessage
      ensures failure == StreamRejection(c, ProbeRotation(probe))
      ensures failure.None? ==> video.fps == c.fps && video.totalFrames == Trunc(c.frameCount)
                                && (video.width, video.height) == DisplaySize(c, ProbeRotation(probe))
                                && video.duration == video.totalFrames as real / video.fps
                                && video.status == Valid && video.isValid && video.errorMessage == None
                                && video.metadata == LoadMetadata(c, ProbeRotation(probe))
    {
      ghost var expected := StreamRejection(c, ProbeRotation(probe));
      var frameCount, width, height, rotation := ReadStream(c, probe);
      if c.fps <= 0.0 || frameCount <= 0 || width <= 0 || height <= 0 {
        return Some(CorruptedVideoError);
      }
      RecordStream(video, c, frameCount, width, height, rotation);
      var checked := video.ValidateVideoProperties();
      if checked.Err? {
        return Some(VideoProcessingError);
      }
      return None;
    }

    /** `validate_video_file`: whether the video loads. */
    method ValidateVideoFile(path: string, fs: FileStat, capture: Option<Capture>, probe: Option<string>)
      returns (valid: bool)
      ensures valid <==> LoadRejection(path, fs, capture, probe).None?
    {
      var r := LoadVideo(path, fs, capture, probe);
      valid := r.Ok? && r.value.isValid;
    }

    /** `extract_frames`, with the generator run to its end: the frames are
        the samples at positions 0, step, 2 * step, ... of the video; the
        loop ends when an image does not decode, when the next position
        reaches the frame count, or when sampling raises, which fails the
        video. The buffer is empty afterwards. */
    method ExtractFrames(video: VideoFile, interval: real, isOpened: bool,
                         read: int -> Option<seq<int>>, stats: int -> PixelStats)
      returns (frames: seq<Frame>, error: Option<ErrorKind>)
      modifies this`frameBuffer, video`status, video`errorMessage, video`isValid
      ensures interval <= 0.0 ==>
                error == Some(ValueError) && frames == [] && unchanged(this) && unchanged(video)
      ensures interval > 0.0 && !isOpened ==>
                error == Some(VideoProcessingError) && frames == [] && unchanged(this) && unchanged(video)
      ensures interval > 0.0 && isOpened ==> frameBuffer == []
      ensures interval > 0.0 && isOpened && old(video.status) != Valid ==>
                error == Some(VideoProcessingError) && frames == [] && video.status == Failed
      ensures forall i :: 0 <= i < |frames| ==> fresh(frames[i])
      ensures SampledRun(frames, video, StreamOf(video), SamplingStep(video.fps, interval), read, stats)
      ensures interval > 0.0 && isOpened && old(video.status) == Valid ==>
                var p := Position(SamplingStep(video.fps, interval), |frames|);
                StoppedAt(StreamOf(video), p, |frames|, error.Some?, read)
                && (error.None? ==> video.status == Completed)
                && (error.Some? ==> error == Some(VideoProcessingError) && video.status == Failed)
    {
      if interval <= 0.0 {
        return [], Some(ValueError);
      }
      if !isOpened {
        return [], Some(VideoProcessingError);
      }
      frames, error := ExtractOpened(video, SamplingStep(video.fps, interval), read, stats);
    }

    /** The part of `extract_frames` after the capture has opened: only a
        VALID video starts processing; a run that ends without failure
        completes it, a failure (or a refused start) fails it and raises
        VideoProcessingError; the buffer is emptied in every case. */
    method ExtractOpened(video: VideoFile, step: int, read: int -> Option<seq<int>>, stats: int -> PixelStats)
      returns (frames: seq<Frame>, error: Option<ErrorKind>)
      requires step != 0
      modifies this`frameBuffer, video`status, video`errorMessage, video`isValid
      ensures frameBuffer == []
      ensures old(video.status) != Valid ==> error == Some(VideoProcessingError) && frames == [] && video.status == Failed
      ensures forall i :: 0 <= i < |frames| ==> fresh(frames[i])
      ensures SampledRun(frames, video, StreamOf(video), step, read, stats)
      ensures old(video.status) == Valid ==>
                StoppedAt(StreamOf(video), Position(step, |frames|), |frames|, error.Some?, read)
                && (error.None? ==> video.status == Completed)
                && (error.Some? ==> error == Some(VideoProcessingError) && video.status == Failed)
    {
      var started := video.StartProcessing();
      if started.Err? {
        video.FailProcessing(ClassName(started.error));
        frameBuffer := [];
        return [], Some(VideoProcessingError);
      }
      var failure;
      frames, failure := SampleAll(video, step, read, stats);
      ghost var s := StreamOf(video);
      error := Conclude(video, failure);
      assert StreamOf(video) == s;
      frameBuffer := [];
    }

    /** The end of a started run: a run without failure completes the
        video, a failure fails it with the failure's class name and raises
        VideoProcessingError. */
    method Conclude(video: VideoFile, failure: Option<ErrorKind>) returns (error: Option<ErrorKind>)
      requires video.status == Processing
      modifies video`status, video`errorMessage, video`isValid
      ensures failure.None? ==> error.None? && video.status == Completed
      ensures failure.Some? ==> error == Some(VideoProcessingError) && video.status == Failed
                                && video.errorMessage == Some(Message(ClassName(failure.value)))
    {
      if failure.None? {
        var done := video.CompleteProcessing();
        assert done.Ok?;
        error := None;
      } else {
        video.FailProcessing(ClassName(failure.value));
        error := Some(VideoProcessingError);
      }
    }

    /** The sampling loop of `extract_frames` for a given step: read the
        image at the current position (stop when there is none), make room
        in the buffer, sample, buffer the image, advance, and stop once the
        position reaches the frame count. A failure is the exception a
        sample raised. The buffer never holds more than `MaxBufferSize`
        images; the loop works on a copy that is stored back when it ends. */
    method SampleAll(video: VideoFile, step: int, read: int -> Option<seq<int>>, stats: int -> PixelStats)
      returns (frames: seq<Frame>, failure: Option<ErrorKind>)
      requires step != 0
      modifies this`frameBuffer
      ensures |frames| > 0 ==> |frameBuffer| <= MaxBufferSize
      ensures forall i :: 0 <= i < |frames| ==> fresh(frames[i])
      ensures SampledRun(frames, video, StreamOf(video), step, read, stats)
      ensures StoppedAt(StreamOf(video), Position(step, |frames|), |frames|, failure.Some?, read)
    {
      frames := [];
      failure := None;
      var current := 0;
      var buffer := frameBuffer;
      var going := true;
      ghost var stream := StreamOf(video);
      while going
        invariant current == Position(step, |frames|)
        invariant step < 0 ==> current <= 0
        invariant |frames| > 0 ==> |buffer| <= MaxBufferSize
        invariant forall i :: 0 <= i < |frames| ==> fresh(frames[i])
        invariant StreamOf(video) == stream
        invariant SampledRun(frames, video, stream, step, read, stats)
        invariant going ==> failure.None? && (|frames| > 0 ==> current < stream.totalFrames)
        invariant !going ==> StoppedAt(stream, current, |frames|, failure.Some?, read)
        decreases going, Remaining(step, stream.totalFrames, current)
      {
        var outcome;
        outcome, buffer := Visit(video, current, read, stats, buffer);
        if outcome.None? {
          going := false;
        } else if outcome.value.Err? {
          failure := Some(outcome.value.error);
          going := false;
        } else {
          var frame := outcome.value.value;
          SampledRunGrows(frames, frame, video, stream, step, read, stats);
          frames := frames + [frame];
          current := current + step;
          going := current < video.totalFrames;
        }
      }
      frameBuffer := buffer;
    }

    /** `detect_scene_changes` as documented: a threshold outside [0, 1] is
        InvalidThresholdError; fewer than two frames come back as they are;
        otherwise each frame after the first gets its difference from its
        predecessor as scene score and the result is the frames at
        `SceneChangePositions`. */
    method DetectSceneChanges(frames: seq<Frame>, threshold: real,
                              correlations: nat -> Option<(real, real, real)>)
      returns (r: Result<seq<Frame>>)
      modifies frames
      ensures r.Err? <==> !(0.0 <= threshold <= 1.0)
      ensures r.Err? ==> r.error == InvalidThresholdError
      ensures r.Ok? && |frames| < 2 ==> r.value == frames
      ensures r.Ok? && |frames| >= 2 ==>
                r.value == Ordering.At(frames, SceneChangePositions(correlations, threshold, |frames|))
                && var scores := SceneScores(frames, correlations, |frames|);
                   (forall f :: f in scores ==> f.sceneScore == scores[f])
                   && (forall f :: f in frames && f !in scores ==> f.sceneScore == old(f.sceneScore))
      ensures r.Err? || |frames| < 2 ==> forall f :: f in frames ==> f.sceneScore == old(f.sceneScore)
      ensures forall f :: f in frames ==> f.faces == old(f.faces) && f.qualityScore == old(f.qualityScore)
                                          && f.metadata == old(f.metadata)
    {
      if !(0.0 <= threshold <= 1.0) {
        return Err(InvalidThresholdError);
      }
      if |frames| < 2 {
        return Ok(frames);
      }
      var kept := [frames[0]];
      ghost var positions: seq<nat> := [0];
      var i := 1;
      while i < |frames|
        invariant 1 <= i <= |frames|
        invariant positions == SceneChangePositions(correlations, threshold, i)
        invariant kept == Ordering.At(frames, positions)
        invariant forall f :: f in SceneScores(frames, correlations, i) ==> f.sceneScore == SceneScores(frames, correlations, i)[f]
        invariant forall f :: f in frames && f !in SceneScores(frames, correlations, i) ==> f.sceneScore == old(f.sceneScore)
        invariant forall f :: f in frames ==> f.faces == old(f.faces) && f.qualityScore == old(f.qualityScore)
                                              && f.metadata == old(f.metadata)
      {
        var score := ScoreFrame(frames, correlations, i, frames[i]);
        if score >= threshold {
          kept := kept + [frames[i]];
          positions := positions + [i];
        }
        i := i + 1;
      }
      return Ok(kept);
    }

    /** The scene score write of the loop at position i: the frame there gets
        its difference from its predecessor, and the scores written so far
        are `SceneScores` up to and including i. */
    static method ScoreFrame(frames: seq<Frame>, correlations: nat -> Option<(real, real, real)>, i: nat,
                             frame: Frame)
      returns (score: real)
      requires 1 <= i < |frames| && frame == frames[i]
      requires forall f :: f in SceneScores(frames, correlations, i) ==> f.sceneScore == SceneScores(frames, correlations, i)[f]
      modifies frame`sceneScore
      ensures score == HistogramDifference(correlations(i)) && frame.sceneScore == score
      ensures forall f :: f in SceneScores(frames, correlations, i + 1) ==> f.sceneScore == SceneScores(frames, correlations, i + 1)[f]
      ensures SceneScores(frames, correlations, i + 1) == SceneScores(frames, correlations, i)[frame := score]
    {
      score := HistogramDifference(correlations(i));
      ghost var scored := SceneScores(frames, correlations, i);
      label before:
      frame.sceneScore := score;
      assert SceneScores(frames, correlations, i + 1) == scored[frames[i] := score];
      forall f | f in scored && f != frames[i]
        ensures f.sceneScore == scored[f]
      {
        SceneScoresDomain(frames, correlations, i, f);
        assert f.sceneScore == old@before(f.sceneScore);
      }
    }

    /** `calculate_quality_score`: a missing frame or image is
        InvalidFrameDataError; otherwise the three measures are recorded in
        the frame's metadata and the score is `QualityScore`. */
    method CalculateQualityScore(frame: Option<Frame>, image: ImageData) returns (r: Result<real>)
      modifies if frame.Some? then {frame.value} else {}
      ensures r.Err? <==> frame.None? || image.Missing?
      ensures r.Err? ==> r.error == InvalidFrameDataError
      ensures r.Err? && frame.Some? ==> unchanged(frame.value)
      ensures r.Ok? ==> r.value == QualityScore(image)
      ensures r.Ok? ==> var (b, c, s) := QualityMeasures(image);
                        var f := frame.value;
                        f.metadata == old(f.metadata)["brightness_score" := MReal(b)]
                                                     ["contrast_score" := MReal(c)]
                                                     ["sharpness_score" := MReal(s)]
                        && f.qualityScore == old(f.qualityScore) && f.sceneScore == old(f.sceneScore)
                        && f.faces == old(f.faces)
    {
      if frame.None? || image.Missing? {
        return Err(InvalidFrameDataError);
      }
      var (b, c, s) := QualityMeasures(image);
      var f := frame.value;
      f.AddMetadata("brightness_score", MReal(b));
      f.AddMetadata("contrast_score", MReal(c));
      f.AddMetadata("sharpness_score", MReal(s));
      return Ok(Clamp(QualityBlend(b, c, s), 0.0, 1.0));
    }

    /** `cleanup`: the buffer is emptied. */
    method Cleanup()
      modifies this`frameBuffer
      ensures frameBuffer == []
    {
      frameBuffer := [];
    }
  }
}
