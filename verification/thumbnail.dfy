// A generated thumbnail (`Thumbnail`): the frame and settings it was made
// from, the shape of its pixel buffer, its diversity and total scores, where
// it is saved, whether the user selected it, and metadata. Pixels are not
// modelled: the image statistics its measures come from are given as
// `ImageStats`, the file system as the set of paths that exist, and the
// outcome of an image write, read or resize as a parameter.

module Thumbnail {
  import opened Errors
  import opened PyMath
  import opened FaceDetectionResult
  import opened VideoFile
  import opened Frame
  import opened UserSettings

  /** The statistics of a thumbnail image: those of its BT.709 grey levels
      and the standard deviation of each colour channel (0-255). */
  datatype ImageStats = ImageStats(gray: PixelStats, redStd: real, greenStd: real, blueStd: real)

  /** Statistics any 8-bit RGB image can have. */
  predicate PlausibleImage(s: ImageStats)
  {
    PlausibleStats(s.gray) && s.redStd >= 0.0 && s.greenStd >= 0.0 && s.blueStd >= 0.0
  }

  /** `calculate_color_richness`: the mean channel deviation scaled by 255,
      at most 1. */
  function ColorRichness(s: ImageStats): (r: real)
    ensures r <= 1.0
    ensures PlausibleImage(s) ==> 0.0 <= r
  {
    Min(1.0, ((s.redStd + s.greenStd + s.blueStd) / 3.0) / 255.0)
  }

  /** The quality half of the total score: 20% brightness, 30% contrast,
      20% colour richness and 30% of the frame's own quality score. */
  function ImageQuality(brightness: real, contrast: real, richness: real, frameQuality: real): real
  {
    (brightness * 0.2 + contrast * 0.3 + richness * 0.2) + frameQuality * 0.3
  }

  /** The score `update_quality_metrics` computes: the diversity score
      weighted by the settings' diversity weight, the image quality by the
      rest. */
  function TotalScore(diversity: real, weight: real, quality: real): real
  {
    Mix(diversity, quality, weight)
  }

  /** With every input in [0, 1] the total score is in [0, 1], between the
      diversity score and the image quality. */
  lemma TotalScoreInUnit(diversity: real, weight: real, b: real, c: real, r: real, q: real)
    requires 0.0 <= diversity <= 1.0 && 0.0 <= weight <= 1.0
    requires 0.0 <= b <= 1.0 && 0.0 <= c <= 1.0 && 0.0 <= r <= 1.0 && 0.0 <= q <= 1.0
    ensures 0.0 <= ImageQuality(b, c, r, q) <= 1.0
    ensures Min(diversity, ImageQuality(b, c, r, q)) <= TotalScore(diversity, weight, ImageQuality(b, c, r, q))
    ensures TotalScore(diversity, weight, ImageQuality(b, c, r, q)) <= Max(diversity, ImageQuality(b, c, r, q))
    ensures 0.0 <= TotalScore(diversity, weight, ImageQuality(b, c, r, q)) <= 1.0
  {
    MixBetween(diversity, ImageQuality(b, c, r, q), weight);
  }

  // ---------------------------------------------------------------------
  // Construction checks and categories

  /** The first failing construction check, in the source's order: a
      three-dimensional buffer, three channels, both scores in [0, 1]. A
      size that differs from the settings is only reported, never refused,
      so the settings take no part here. */
  function ConstructionFailure(shape: seq<int>, diversityScore: real, totalScore: real): (r: Option<ErrorKind>)
    ensures r.None? <==> (|shape| == 3 && shape[2] == 3 && 0.0 <= diversityScore <= 1.0
                          && 0.0 <= totalScore <= 1.0)
    ensures r.Some? ==> r.value == ValueError
  {
    if |shape| != 3 then Some(ValueError)
    else if shape[2] != 3 then Some(ValueError)
    else if !(0.0 <= diversityScore <= 1.0) then Some(ValueError)
    else if !(0.0 <= totalScore <= 1.0) then Some(ValueError)
    else None
  }

  /** The band of a score: 3 from 0.8, 2 from 0.6, 1 from 0.4, else 0. */
  function Band(score: real): (b: nat)
    ensures b <= 3
  {
    if score >= 0.8 then 3 else if score >= 0.6 then 2 else if score >= 0.4 then 1 else 0
  }

  /** A higher score never falls in a lower band, and each band is exactly
      the scores between its thresholds. */
  lemma BandMonotone(s: real, s': real)
    requires s <= s'
    ensures Band(s) <= Band(s')
    ensures Band(s) == 3 <==> s >= 0.8
    ensures Band(s) == 0 <==> s < 0.4
  {
  }

  const QualityCategories: seq<string> := ["Poor", "Fair", "Good", "Excellent"]
  const DiversityCategories: seq<string> := ["Similar", "Moderately Diverse", "Diverse", "Highly Diverse"]

  /** `quality_category`. */
  function QualityCategory(totalScore: real): string
  {
    QualityCategories[Band(totalScore)]
  }

  /** `diversity_category`. */
  function DiversityCategory(diversityScore: real): string
  {
    DiversityCategories[Band(diversityScore)]
  }

  /** The category names are distinct, so a category tells the band back. */
  lemma CategoriesDetermineBand(s: real, s': real)
    ensures QualityCategory(s) == QualityCategory(s') <==> Band(s) == Band(s')
    ensures DiversityCategory(s) == DiversityCategory(s') <==> Band(s) == Band(s')
    ensures QualityCategory(s) == "Excellent" <==> s >= 0.8
    ensures DiversityCategory(s) == "Similar" <==> s < 0.4
  {
  }

  // ---------------------------------------------------------------------
  // The entity

  class Thumbnail {
    const sourceFrame: Frame
    const userSettings: UserSettings
    /** `image_data.shape`: (height, width, channels). */
    var shape: seq<int>
    var diversityScore: real
    var totalScore: real
    var filePath: Option<string>
    var isSelected: bool
    var metadata: map<string, Meta>

    constructor(sourceFrame: Frame, userSettings: UserSettings, shape: seq<int>,
                diversityScore: real, totalScore: real, filePath: Option<string>,
                isSelected: bool, metadata: map<string, Meta>)
      ensures this.sourceFrame == sourceFrame && this.userSettings == userSettings
      ensures this.shape == shape && this.diversityScore == diversityScore
      ensures this.totalScore == totalScore && this.filePath == filePath
      ensures this.isSelected == isSelected && this.metadata == metadata
    {
      this.sourceFrame := sourceFrame;
      this.userSettings := userSettings;
      this.shape := shape;
      this.diversityScore := diversityScore;
      this.totalScore := totalScore;
      this.filePath := filePath;
      this.isSelected := isSelected;
      this.metadata := metadata;
    }

    /** A three-channel (height, width, channels) buffer. */
    predicate Shaped() reads this`shape { |shape| == 3 && shape[2] == 3 }

    function Height(): int reads this`shape requires Shaped() { shape[0] }
    function Width(): int reads this`shape requires Shaped() { shape[1] }
    function Channels(): int reads this`shape requires Shaped() { shape[2] }

    /** `aspect_ratio`: width / height, 0 unless the height is positive. */
    function AspectRatio(): (r: real)
      reads this`shape
      requires Shaped()
      ensures Height() <= 0 ==> r == 0.0
      ensures Height() > 0 ==> r * Height() as real == Width() as real
    {
      if Height() > 0 then Width() as real / Height() as real else 0.0
    }

    function PixelCount(): int reads this`shape requires Shaped() { Width() * Height() }

    predicate IsLandscape() reads this`shape requires Shaped() { Width() > Height() }
    predicate IsPortrait() reads this`shape requires Shaped() { Height() > Width() }
    predicate IsSquare() reads this`shape requires Shaped() { Width() == Height() }

    /** Exactly one of landscape, portrait and square holds. */
    lemma ExactlyOneOrientation()
      requires Shaped()
      ensures IsLandscape() || IsPortrait() || IsSquare()
      ensures !(IsLandscape() && IsPortrait()) && !(IsLandscape() && IsSquare())
      ensures !(IsPortrait() && IsSquare())
    {
    }

    /** `file_name`. */
    function FileName(): (n: Option<string>)
      reads this`filePath
      ensures n.Some? <==> filePath.Some?
      ensures n.Some? ==> '/' !in n.value
    {
      if filePath.Some? then Some(Name(filePath.value)) else None
    }

    /** `is_saved`: a path is recorded and that file exists. */
    predicate IsSaved(existing: set<string>) reads this`filePath
    {
      filePath.Some? && filePath.value in existing
    }

    /** The quality of the frame's primary face, 0 without faces. */
    function FaceQuality(): real
      reads sourceFrame
    {
      if sourceFrame.HasFaces() then QualityScore(sourceFrame.PrimaryFace().value) else 0.0
    }

    /** The path `save` writes to without an explicit one: the settings'
        file name for index 0 at the frame's timestamp, in the output
        directory. */
    function DefaultPath(): string
    {
      JoinPath(userSettings.settings.outputDirectory,
               OutputFilename(userSettings.settings, 0, Some(sourceFrame.timestamp)))
    }

    /** `update_quality_metrics`: the three image measures and the face
        quality recorded in the metadata, and the total score recomputed
        from them and the frame's quality score. */
    method UpdateQualityMetrics(stats: ImageStats)
      modifies this`metadata, this`totalScore
      ensures metadata == old(metadata)["brightness" := MReal(Brightness(stats.gray))]
                                       ["contrast" := MReal(Contrast(stats.gray))]
                                       ["color_richness" := MReal(ColorRichness(stats))]
                                       ["face_quality" := MReal(FaceQuality())]
      ensures totalScore == TotalScore(diversityScore, userSettings.settings.diversityWeight,
                                       ImageQuality(Brightness(stats.gray), Contrast(stats.gray),
                                                    ColorRichness(stats), sourceFrame.qualityScore))
      ensures (PlausibleImage(stats) && 0.0 <= diversityScore <= 1.0
               && 0.0 <= userSettings.settings.diversityWeight <= 1.0
               && 0.0 <= sourceFrame.qualityScore <= 1.0) ==> 0.0 <= totalScore <= 1.0
    {
      var brightness := Brightness(stats.gray);
      var contrast := Contrast(stats.gray);
      var richness := ColorRichness(stats);
      metadata := metadata["brightness" := MReal(brightness)]["contrast" := MReal(contrast)]
                          ["color_richness" := MReal(richness)]["face_quality" := MReal(FaceQuality())];
      var weight := userSettings.settings.diversityWeight;
      var quality := ImageQuality(brightness, contrast, richness, sourceFrame.qualityScore);
      totalScore := TotalScore(diversityScore, weight, quality);
      if PlausibleImage(stats) && 0.0 <= diversityScore <= 1.0 && 0.0 <= weight <= 1.0
         && 0.0 <= sourceFrame.qualityScore <= 1.0 {
        MeasuresInUnit(stats.gray);
        TotalScoreInUnit(diversityScore, weight, brightness, contrast, richness, sourceFrame.qualityScore);
      }
    }

    /** `save(output_path, overwrite)`: written to the explicit path, else
        to the recorded one, else to the default one; refused without a
        write when that file exists and overwriting is off; the path is
        recorded only when the write succeeds (`written`). */
    method Save(outputPath: Option<string>, overwrite: bool, existing: set<string>, written: bool)
      returns (saved: bool)
      modifies this`filePath
      ensures var (ok, path) := SaveOutcome(outputPath, old(filePath), DefaultPath(), overwrite,
                                             existing, written);
              saved == ok && filePath == path
    {
      var path := SavePath(outputPath, filePath, DefaultPath());
      if path in existing && !overwrite {
        return false;
      }
      if written {
        filePath := Some(path);
        return true;
      }
      return false;
    }

    /** `load_from_file(path)`: fails for a missing file or an unreadable
        image (`decoded` is none); otherwise the buffer becomes the decoded
        (height, width) image in three channels and the path is recorded. */
    method LoadFromFile(path: string, existing: set<string>, decoded: Option<(int, int)>)
      returns (loaded: bool)
      modifies this
      ensures loaded <==> path in existing && decoded.Some?
      ensures loaded ==> shape == [decoded.value.0, decoded.value.1, 3] && filePath == Some(path)
      ensures !loaded ==> shape == old(shape) && filePath == old(filePath)
      ensures loaded ==> Shaped()
      ensures diversityScore == old(diversityScore) && totalScore == old(totalScore)
      ensures isSelected == old(isSelected) && metadata == old(metadata)
    {
      if path !in existing {
        return false;
      }
      if decoded.None? {
        return false;
      }
      shape := [decoded.value.0, decoded.value.1, 3];
      filePath := Some(path);
      return true;
    }

    /** `delete_file`: removes a saved file and forgets its path; false when
        nothing is saved or the removal fails (`unlinked`). */
    method DeleteFile(existing: set<string>, unlinked: bool) returns (deleted: bool)
      modifies this
      ensures deleted <==> old(IsSaved(existing)) && unlinked
      ensures deleted ==> filePath == None
      ensures !deleted ==> filePath == old(filePath)
      ensures shape == old(shape) && diversityScore == old(diversityScore)
      ensures totalScore == old(totalScore) && isSelected == old(isSelected)
      ensures metadata == old(metadata)
    {
      if filePath.Some? && filePath.value in existing && unlinked {
        filePath := None;
        return true;
      }
      return false;
    }

    /** `copy`: a new thumbnail sharing the frame and settings, with the
        same buffer shape, scores, path, selection and metadata; building it
        repeats the construction checks. */
    method Copy() returns (r: Result<Thumbnail>)
      ensures r.Ok? <==> ConstructionFailure(shape, diversityScore, totalScore).None?
      ensures r.Err? ==> r.error == ValueError
      ensures r.Ok? ==> fresh(r.value) && r.value.SameContents(this)
    {
      r := NewThumbnail(sourceFrame, userSettings, shape, diversityScore, totalScore,
                        filePath, isSelected, metadata);
    }

    /** Every field equal to those of `other`. */
    predicate SameContents(other: Thumbnail)
      reads this, other
    {
      sourceFrame == other.sourceFrame && userSettings == other.userSettings
      && shape == other.shape && diversityScore == other.diversityScore
      && totalScore == other.totalScore && filePath == other.filePath
      && isSelected == other.isSelected && metadata == other.metadata
    }

    /** `resize(new_width, new_height)`: a copy at the new size, unsaved,
        with scores and selection kept; the thumbnail itself when the image
        resize fails (`resized`, and OpenCV refuses a non-positive size) or
        the copy is refused. */
    method Resize(newWidth: int, newHeight: int, resized: bool) returns (t: Thumbnail)
      requires Shaped()
      ensures t == this <==> !(resized && newWidth > 0 && newHeight > 0
                              && 0.0 <= diversityScore <= 1.0 && 0.0 <= totalScore <= 1.0)
      ensures t != this ==> fresh(t) && t.Shaped() && t.Width() == newWidth && t.Height() == newHeight
      ensures t != this ==> t.filePath == None && t.diversityScore == diversityScore
                            && t.totalScore == totalScore && t.isSelected == isSelected
                            && t.sourceFrame == sourceFrame && t.userSettings == userSettings
                            && t.metadata == metadata
    {
      if !(resized && newWidth > 0 && newHeight > 0) {
        return this;
      }
      var c := Copy();
      if c.Err? {
        return this;
      }
      t := c.value;
      t.shape := [newHeight, newWidth, shape[2]];
      t.filePath := None;
    }

    /** `add_metadata`. */
    method AddMetadata(key: string, value: Meta)
      modifies this
      ensures metadata == old(metadata)[key := value]
      ensures shape == old(shape) && diversityScore == old(diversityScore)
      ensures totalScore == old(totalScore) && filePath == old(filePath)
      ensures isSelected == old(isSelected)
    {
      metadata := metadata[key := value];
    }

    /** `get_metadata(key, default)`. */
    function GetMetadata(key: string, default: Option<Meta>): (v: Option<Meta>)
      reads this
      ensures key in metadata ==> v == Some(metadata[key])
      ensures key !in metadata ==> v == default
    {
      if key in metadata then Some(metadata[key]) else default
    }

    /** `__eq__`: the same source frame and the same width and height. */
    predicate SameThumbnail(other: Thumbnail)
      reads this, other
      requires Shaped() && other.Shaped()
    {
      sourceFrame.SameFrame(other.sourceFrame) && Width() == other.Width() && Height() == other.Height()
    }

    /** `__lt__`: a thumbnail sorts before another of lower total score. */
    predicate SortsBefore(other: Thumbnail)
      reads this, other
    {
      totalScore > other.totalScore
    }
  }

  /** The path `save` uses: the explicit one, else the recorded one, else the
      default one. */
  function SavePath(outputPath: Option<string>, filePath: Option<string>, default: string): string
  {
    if outputPath.Some? then outputPath.value
    else if filePath.Some? then filePath.value
    else default
  }

  /** Whether `save` succeeds and the path recorded afterwards. */
  function SaveOutcome(outputPath: Option<string>, filePath: Option<string>, default: string,
                       overwrite: bool, existing: set<string>, written: bool): (bool, Option<string>)
  {
    var path := SavePath(outputPath, filePath, default);
    if path in existing && !overwrite then (false, filePath)
    else if written then (true, Some(path))
    else (false, filePath)
  }

  /** A save never clobbers without `overwrite`: once a save has succeeded,
      saving again to the recorded path without overwriting is refused, and
      the recorded path stays. A failed save keeps the recorded path. */
  lemma SaveDoesNotClobber(outputPath: Option<string>, filePath: Option<string>, default: string,
                           overwrite: bool, existing: set<string>, written: bool, again: bool)
    ensures var (ok, path) := SaveOutcome(outputPath, filePath, default, overwrite, existing, written);
            ok ==> path == Some(SavePath(outputPath, filePath, default))
                   && SaveOutcome(None, path, default, false, existing + {path.value}, again) == (false, path)
    ensures var (ok, path) := SaveOutcome(outputPath, filePath, default, overwrite, existing, written);
            !ok ==> path == filePath
    ensures var (ok, _) := SaveOutcome(outputPath, filePath, default, overwrite, existing, written);
            ok <==> written && (SavePath(outputPath, filePath, default) !in existing || overwrite)
  {
  }

  /** Two thumbnails of the same frame and size are equal, and thumbnail
      equality is an equivalence that agrees with the hash of (frame, width,
      height). */
  lemma SameThumbnailIsEquivalence(a: Thumbnail, b: Thumbnail, c: Thumbnail)
    requires a.Shaped() && b.Shaped() && c.Shaped()
    ensures a.SameThumbnail(a)
    ensures a.SameThumbnail(b) ==> b.SameThumbnail(a)
    ensures a.SameThumbnail(b) && b.SameThumbnail(c) ==> a.SameThumbnail(c)
    ensures a.SameThumbnail(b) ==>
              (a.sourceFrame.video.filePath, a.sourceFrame.frameNumber, a.Width(), a.Height())
              == (b.sourceFrame.video.filePath, b.sourceFrame.frameNumber, b.Width(), b.Height())
  {
  }

  /** Sorting by `<` orders by descending total score: a strict order, and
      two thumbnails neither of which sorts before the other score alike. */
  lemma SortsBeforeIsDescending(a: Thumbnail, b: Thumbnail, c: Thumbnail)
    ensures !a.SortsBefore(a)
    ensures a.SortsBefore(b) ==> !b.SortsBefore(a)
    ensures a.SortsBefore(b) && b.SortsBefore(c) ==> a.SortsBefore(c)
    ensures !a.SortsBefore(b) && !b.SortsBefore(a) ==> a.totalScore == b.totalScore
  {
  }

  /** `Thumbnail(...)`: the construction checks, then a new thumbnail. */
  method NewThumbnail(sourceFrame: Frame, userSettings: UserSettings, shape: seq<int>,
                      diversityScore: real, totalScore: real, filePath: Option<string>,
                      isSelected: bool, metadata: map<string, Meta>) returns (r: Result<Thumbnail>)
    ensures r.Ok? <==> ConstructionFailure(shape, diversityScore, totalScore).None?
    ensures r.Err? ==> r.error == ValueError
    ensures r.Ok? ==> fresh(r.value) && r.value.Shaped()
                      && r.value.sourceFrame == sourceFrame && r.value.userSettings == userSettings
                      && r.value.shape == shape && r.value.diversityScore == diversityScore
                      && r.value.totalScore == totalScore && r.value.filePath == filePath
                      && r.value.isSelected == isSelected && r.value.metadata == metadata
  {
    var rejection := ConstructionFailure(shape, diversityScore, totalScore);
    if rejection.Some? {
      return Err(rejection.value);
    }
    var t := new Thumbnail(sourceFrame, userSettings, shape, diversityScore, totalScore,
                           filePath, isSelected, metadata);
    return Ok(t);
  }

  /** The most channels an OpenCV matrix holds (`CV_CN_MAX`). */
  const MaxChannels := 512

  /** The shape `cv2.resize` gives a non-empty image resized to nh × nw: a
      two-dimensional image, or one of at most `MaxChannels` channels
      (a single channel coming back two-dimensional); OpenCV refuses any
      other shape. */
  function CvResizedShape(shape: seq<int>, nh: int, nw: int): Option<seq<int>>
  {
    if |shape| == 2 then Some([nh, nw])
    else if |shape| == 3 && 1 <= shape[2] <= MaxChannels then
      Some(if shape[2] == 1 then [nh, nw] else [nh, nw, shape[2]])
    else None
  }

  /** `create_from_frame` calls `cv2.resize` when either dimension differs
      from the output size. */
  predicate NeedsResize(shape: seq<int>, outputWidth: int, outputHeight: int)
    requires |shape| >= 2
  {
    shape[1] != outputWidth || shape[0] != outputHeight
  }

  /** `cv2.resize` raises `cv2.error` on an empty source image, on an
      empty target size and on a shape it does not take. */
  predicate ResizeRefused(shape: seq<int>, outputWidth: int, outputHeight: int)
    requires |shape| >= 2
  {
    NeedsResize(shape, outputWidth, outputHeight)
    && (shape[0] <= 0 || shape[1] <= 0 || outputWidth <= 0 || outputHeight <= 0
        || CvResizedShape(shape, outputHeight, outputWidth).None?)
  }

  /** The buffer `create_from_frame` builds from: the given image or the
      frame's, resized to the output size when either dimension differs. */
  function TargetShape(shape: seq<int>, outputWidth: int, outputHeight: int): (s: seq<int>)
    requires |shape| >= 2 && !ResizeRefused(shape, outputWidth, outputHeight)
    ensures |s| >= 2 && s[0] == outputHeight && s[1] == outputWidth
    ensures |shape| == 3 && shape[2] != 1 ==> s == [outputHeight, outputWidth, shape[2]]
    ensures |shape| == 2 || (|shape| == 3 && shape[2] == 1) ==>
              s == if NeedsResize(shape, outputWidth, outputHeight) then [outputHeight, outputWidth] else shape
  {
    if NeedsResize(shape, outputWidth, outputHeight) then CvResizedShape(shape, outputHeight, outputWidth).value
    else shape
  }

  /** An image of four dimensions that needs resizing is refused by OpenCV,
      and a one-channel image comes back without its channel axis. */
  lemma ResizeAxesAtConstruction()
    ensures ResizeRefused([2, 2, 3, 1], 1920, 1080)
    ensures !ResizeRefused([2, 2, 1], 1920, 1080) && TargetShape([2, 2, 1], 1920, 1080) == [1080, 1920]
  {
  }

  /** `Thumbnail.create_from_frame`: the image (the frame's unless one is
      given) at the output size, zero scores, then the quality measures. */
  method CreateFromFrame(sourceFrame: Frame, userSettings: UserSettings, image: Option<seq<int>>,
                         stats: ImageStats) returns (r: Result<Thumbnail>)
    ensures var given := if image.Some? then image.value else sourceFrame.shape;
            var ow, oh := userSettings.settings.outputWidth, userSettings.settings.outputHeight;
            (r.Ok? <==> |given| == 3 && given[2] == 3 && !ResizeRefused(given, ow, oh))
            && (|given| < 2 ==> r == Err(IndexError))
            && (|given| >= 2 && ResizeRefused(given, ow, oh) ==> r == Err(CvError))
            && (|given| >= 2 && !ResizeRefused(given, ow, oh) && r.Err? ==> r.error == ValueError)
    ensures r.Ok? ==> fresh(r.value) && r.value.Shaped()
                      && r.value.Width() == userSettings.settings.outputWidth
                      && r.value.Height() == userSettings.settings.outputHeight
    ensures r.Ok? ==> r.value.sourceFrame == sourceFrame && r.value.userSettings == userSettings
                      && r.value.diversityScore == 0.0 && r.value.filePath == None && !r.value.isSelected
    ensures r.Ok? ==> r.value.totalScore
                      == (1.0 - userSettings.settings.diversityWeight)
                         * ImageQuality(Brightness(stats.gray), Contrast(stats.gray), ColorRichness(stats),
                                        sourceFrame.qualityScore)
  {
    r := ResizedThumbnail(sourceFrame, userSettings, if image.Some? then image.value else sourceFrame.shape);
    if r.Ok? {
      r.value.UpdateQualityMetrics(stats);
    }
  }

  /** The thumbnail `create_from_frame` builds before measuring it: the
      image resized to the output size, with zero scores. Too few
      dimensions fail at the shape lookup, a refused resize with
      `cv2.error`, and a buffer that is not three-channel at construction. */
  method ResizedThumbnail(sourceFrame: Frame, userSettings: UserSettings, given: seq<int>)
    returns (r: Result<Thumbnail>)
    ensures var ow, oh := userSettings.settings.outputWidth, userSettings.settings.outputHeight;
            (r.Ok? <==> |given| == 3 && given[2] == 3 && !ResizeRefused(given, ow, oh))
            && (|given| < 2 ==> r == Err(IndexError))
            && (|given| >= 2 && ResizeRefused(given, ow, oh) ==> r == Err(CvError))
            && (|given| >= 2 && !ResizeRefused(given, ow, oh) && r.Err? ==> r.error == ValueError)
    ensures r.Ok? ==> fresh(r.value) && r.value.Shaped()
                      && r.value.Width() == userSettings.settings.outputWidth
                      && r.value.Height() == userSettings.settings.outputHeight
                      && r.value.sourceFrame == sourceFrame && r.value.userSettings == userSettings
                      && r.value.diversityScore == 0.0 && r.value.filePath == None && !r.value.isSelected
  {
    if |given| < 2 {
      return Err(IndexError);
    }
    if ResizeRefused(given, userSettings.settings.outputWidth, userSettings.settings.outputHeight) {
      return Err(CvError);
    }
    var shape := TargetShape(given, userSettings.settings.outputWidth, userSettings.settings.outputHeight);
    r := NewThumbnail(sourceFrame, userSettings, shape, 0.0, 0.0, None, false, map[]);
  }
}
