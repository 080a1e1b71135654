// The user's extraction settings (`UserSettings`): range checks made at
// construction, the derived properties, output file names, the face-size
// preference and the presets.
//
// As written, the output-settings check ends by reading an `orientation`
// attribute the class does not define, so construction can only fail; the
// `...AsWritten` members keep that behaviour, the rest of the model uses
// the check without that step. The `portrait_mode` preset is also written
// with an `orientation` keyword the class does not accept; the corrected
// presets leave it out.

module UserSettings {
  import opened Errors
  import opened PyMath
  import opened Text
  import VideoFile

  datatype FaceSizePreference = Large | Medium | Small | Balanced

  /** The thumbnail orientations the settings module declares. */
  datatype ThumbnailOrientation = Landscape | Portrait | Auto

  /** The settings values (the dataclass fields). */
  datatype Settings = Settings(
    outputWidth: int,
    outputHeight: int,
    thumbnailCount: int,
    outputDirectory: string,
    fileNamePrefix: string,
    outputFormat: string,
    qualityThreshold: real,
    diversityWeight: real,
    faceSizePreference: FaceSizePreference,
    frameInterval: real,
    sceneChangeThreshold: real,
    faceConfidenceThreshold: real)

  /** The defaults; the output directory defaults to `Downloads` under the
      user's home directory, which is given. */
  function Defaults(home: string): Settings
  {
    Settings(1920, 1080, 5, home + "/Downloads", "thumbnail", "PNG", 0.7, 0.8, Balanced, 1.0, 0.3, 0.5)
  }

  const MinOutputSize: int := 240
  const MaxOutputSize: int := 4096
  const MaxThumbnailCount: int := 20
  const InvalidPrefixChars: string := "<>:\"/\\|?*"

  // ---------------------------------------------------------------------
  // Validation

  /** The output checks up to the thumbnail count, in the source's order. */
  function OutputRejection(s: Settings): (r: Option<ErrorKind>)
    ensures r.None? <==> (MinOutputSize <= s.outputWidth <= MaxOutputSize
                          && MinOutputSize <= s.outputHeight <= MaxOutputSize
                          && 1 <= s.thumbnailCount <= MaxThumbnailCount)
    ensures r.Some? ==> r.value == ValueError
  {
    if s.outputWidth <= 0 then Some(ValueError)
    else if s.outputHeight <= 0 then Some(ValueError)
    else if s.outputWidth < MinOutputSize || s.outputWidth > MaxOutputSize then Some(ValueError)
    else if s.outputHeight < MinOutputSize || s.outputHeight > MaxOutputSize then Some(ValueError)
    else if s.thumbnailCount <= 0 then Some(ValueError)
    else if s.thumbnailCount > MaxThumbnailCount then Some(ValueError)
    else None
  }

  /** `_validate_output_settings` as written: after the checks above it
      reads `self.orientation`, an attribute no instance has. */
  function OutputRejectionAsWritten(s: Settings): (r: Option<ErrorKind>)
  {
    if OutputRejection(s).Some? then OutputRejection(s) else Some(AttributeError)
  }

  predicate HasInvalidChar(prefix: string)
  {
    exists i :: 0 <= i < |prefix| && prefix[i] in InvalidPrefixChars
  }

  /** `_validate_file_settings`: a non-blank prefix without any of
      `< > : " / \ | ? *`, and the PNG format in any letter case. */
  function FileRejection(s: Settings): (r: Option<ErrorKind>)
    ensures r.None? <==> (!IsBlank(s.fileNamePrefix) && !HasInvalidChar(s.fileNamePrefix)
                          && EqualsIgnoringCase(s.outputFormat, "png"))
    ensures r.Some? ==> r.value == ValueError
  {
    if IsBlank(s.fileNamePrefix) then Some(ValueError)
    else if HasInvalidChar(s.fileNamePrefix) then Some(ValueError)
    else if !EqualsIgnoringCase(s.outputFormat, "png") then Some(ValueError)
    else None
  }

  /** `_validate_quality_settings`. */
  function QualityRejection(s: Settings): (r: Option<ErrorKind>)
    ensures r.None? <==> (0.0 <= s.qualityThreshold <= 1.0 && 0.0 <= s.diversityWeight <= 1.0)
    ensures r.Some? ==> r.value == ValueError
  {
    if !(0.0 <= s.qualityThreshold <= 1.0) then Some(ValueError)
    else if !(0.0 <= s.diversityWeight <= 1.0) then Some(ValueError)
    else None
  }

  /** `_validate_processing_settings`. */
  function ProcessingRejection(s: Settings): (r: Option<ErrorKind>)
    ensures r.None? <==> (0.0 < s.frameInterval <= 10.0 && 0.0 <= s.sceneChangeThreshold <= 1.0
                          && 0.0 <= s.faceConfidenceThreshold <= 1.0)
    ensures r.Some? ==> r.value == ValueError
  {
    if s.frameInterval <= 0.0 then Some(ValueError)
    else if s.frameInterval > 10.0 then Some(ValueError)
    else if !(0.0 <= s.sceneChangeThreshold <= 1.0) then Some(ValueError)
    else if !(0.0 <= s.faceConfidenceThreshold <= 1.0) then Some(ValueError)
    else None
  }

  function FirstOf(a: Option<ErrorKind>, b: Option<ErrorKind>): Option<ErrorKind>
  {
    if a.Some? then a else b
  }

  /** All checks in order, without the orientation step. */
  function Rejection(s: Settings): Option<ErrorKind>
  {
    FirstOf(OutputRejection(s), FirstOf(FileRejection(s), FirstOf(QualityRejection(s), ProcessingRejection(s))))
  }

  /** All checks in order as written. */
  function RejectionAsWritten(s: Settings): Option<ErrorKind>
  {
    FirstOf(OutputRejectionAsWritten(s), FirstOf(FileRejection(s), FirstOf(QualityRejection(s), ProcessingRejection(s))))
  }

  /** Settings that pass every check. */
  predicate ValidSettings(s: Settings)
  {
    MinOutputSize <= s.outputWidth <= MaxOutputSize && MinOutputSize <= s.outputHeight <= MaxOutputSize
    && 1 <= s.thumbnailCount <= MaxThumbnailCount
    && !IsBlank(s.fileNamePrefix) && !HasInvalidChar(s.fileNamePrefix)
    && EqualsIgnoringCase(s.outputFormat, "png")
    && 0.0 <= s.qualityThreshold <= 1.0 && 0.0 <= s.diversityWeight <= 1.0
    && 0.0 < s.frameInterval <= 10.0 && 0.0 <= s.sceneChangeThreshold <= 1.0
    && 0.0 <= s.faceConfidenceThreshold <= 1.0
  }

  /** Without the orientation step the checks accept exactly the valid
      settings, and every failure is a ValueError. */
  lemma RejectionIffInvalid(s: Settings)
    ensures Rejection(s).None? <==> ValidSettings(s)
    ensures Rejection(s).Some? ==> Rejection(s).value == ValueError
  {
  }

  /** As written no settings pass: whatever fails first, and AttributeError
      for settings that pass every range check. */
  lemma ConstructionAlwaysFailsAsWritten(s: Settings)
    ensures RejectionAsWritten(s).Some?
    ensures ValidSettings(s) ==> RejectionAsWritten(s) == Some(AttributeError)
    ensures !ValidSettings(s) ==> (RejectionAsWritten(s) == Some(ValueError)
                                   || RejectionAsWritten(s) == Some(AttributeError))
  {
  }

  // ---------------------------------------------------------------------
  // Derived properties

  /** `is_portrait_output`: narrower than tall. */
  predicate IsPortraitOutput(s: Settings) { s.outputWidth < s.outputHeight }

  /** `is_landscape_output`: wider than tall. */
  predicate IsLandscapeOutput(s: Settings) { s.outputWidth > s.outputHeight }

  /** The two orientations exclude each other and a square size is neither. */
  lemma OrientationExclusive(s: Settings)
    ensures !(IsPortraitOutput(s) && IsLandscapeOutput(s))
    ensures !IsPortraitOutput(s) && !IsLandscapeOutput(s) <==> s.outputWidth == s.outputHeight
  {
  }

  /** `aspect_ratio`. */
  function AspectRatio(s: Settings): (r: real)
    requires s.outputHeight > 0
    ensures r * s.outputHeight as real == s.outputWidth as real
  {
    s.outputWidth as real / s.outputHeight as real
  }

  /** `resolution_category`: 4K, FHD, HD, otherwise SD. */
  function ResolutionCategory(s: Settings): string
  {
    if s.outputWidth >= 3840 && s.outputHeight >= 2160 then "4K"
    else if s.outputWidth >= 1920 && s.outputHeight >= 1080 then "FHD"
    else if s.outputWidth >= 1280 && s.outputHeight >= 720 then "HD"
    else "SD"
  }

  /** The categories are nested: a size meeting a higher one's minimum meets
      every lower one's, and the category is the highest whose minimum both
      sides meet. */
  lemma ResolutionCategoriesNested(s: Settings)
    ensures ResolutionCategory(s) == "4K" <==> s.outputWidth >= 3840 && s.outputHeight >= 2160
    ensures ResolutionCategory(s) == "FHD" <==>
      (s.outputWidth >= 1920 && s.outputHeight >= 1080) && !(s.outputWidth >= 3840 && s.outputHeight >= 2160)
    ensures ResolutionCategory(s) == "SD" <==> !(s.outputWidth >= 1280 && s.outputHeight >= 720)
  {
  }

  /** `estimated_file_size_mb`: 3 bytes per pixel at a 0.7 PNG ratio. */
  function EstimatedFileSizeMb(s: Settings): real
  {
    ((s.outputWidth * s.outputHeight) as real * 3.0 * 0.7) / (1024.0 * 1024.0)
  }

  /** `total_estimated_file_size_mb`. */
  function TotalEstimatedFileSizeMb(s: Settings): real
  {
    EstimatedFileSizeMb(s) * s.thumbnailCount as real
  }

  /** `get_output_filename(index, timestamp)`: `prefix_III_MMmSSs.png` with
      whole minutes and seconds of the timestamp, or `prefix_III.png`
      without one. */
  function OutputFilename(s: Settings, index: int, timestamp: Option<real>): string
  {
    s.fileNamePrefix + "_" + FormatInt(index, 3) + NameSuffix(timestamp)
  }

  /** What follows the index: `_MMmSSs.png` or `.png`. */
  function NameSuffix(timestamp: Option<real>): (t: string)
    ensures |t| > 0 && (t[0] == '_' || t[0] == '.')
  {
    if timestamp.Some? then
      var (m, sec) := VideoFile.MinutesSeconds(timestamp.value);
      "_" + FormatInt(m, 2) + "m" + FormatInt(sec, 2) + "s.png"
    else
      ".png"
  }

  /** The minutes and seconds of a timestamp read back from the name's
      suffix, which ends in "s.png". */
  lemma SuffixReadsBack(t: real)
    requires t >= 0.0
    ensures var (m, sec) := VideoFile.MinutesSeconds(t);
            var suffix := NameSuffix(Some(t));
            m >= 0 && suffix[0] == '_'
            && ReadNat(suffix[1..]) == (m, "m" + FormatInt(sec, 2) + "s.png")
            && ReadNat(FormatInt(sec, 2) + "s.png") == (sec, "s.png")
  {
    var (m, sec) := VideoFile.MinutesSeconds(t);
    assert m >= 0 by {
      VideoFile.DurationFormattedReadsBack(t);
    }
    ClockReadsBack(m, sec);
  }

  /** Zero-padded minutes and seconds between '_', 'm' and "s.png" read
      back. */
  lemma ClockReadsBack(m: nat, sec: nat)
    ensures var suffix := "_" + FormatInt(m, 2) + "m" + FormatInt(sec, 2) + "s.png";
            ReadNat(suffix[1..]) == (m, "m" + FormatInt(sec, 2) + "s.png")
            && ReadNat(FormatInt(sec, 2) + "s.png") == (sec, "s.png")
  {
    var fm, fs := FormatInt(m, 2), FormatInt(sec, 2);
    var rest := "m" + fs + "s.png";
    var suffix := "_" + fm + "m" + fs + "s.png";
    assert ReadNat(suffix[1..]) == (m, rest) by {
      assert suffix[1..] == fm + rest by {
        assert suffix == "_" + (fm + rest);
      }
      ReadFormatted(m, 2, rest);
    }
    ReadFormatted(sec, 2, "s.png");
  }

  /** The name starts with the prefix and '_', and the index reads back
      from the text after them, followed by the suffix. */
  lemma IndexReadsBack(s: Settings, index: nat, timestamp: Option<real>)
    ensures var name := OutputFilename(s, index, timestamp);
            var p := |s.fileNamePrefix| + 1;
            |name| > p && name[..p] == s.fileNamePrefix + "_"
            && ReadNat(name[p..]) == (index, NameSuffix(timestamp))
  {
    NumberedReadsBack(s.fileNamePrefix + "_", index, NameSuffix(timestamp));
  }

  /** A three-digit-padded index between a head and a tail that starts
      with a non-digit reads back after the head. */
  lemma NumberedReadsBack(head: string, index: nat, tail: string)
    requires tail == [] || !IsDigit(tail[0])
    ensures var name := head + FormatInt(index, 3) + tail;
            |name| >= |head| && name[..|head|] == head
            && ReadNat(name[|head|..]) == (index, tail)
  {
    var name := head + FormatInt(index, 3) + tail;
    assert name == head + (FormatInt(index, 3) + tail);
    ReadFormatted(index, 3, tail);
    assert name[|head|..] == FormatInt(index, 3) + tail;
  }

  /** Different non-negative indices give different file names. */
  lemma OutputFilenamesDistinct(s: Settings, i: nat, j: nat, timestamp: Option<real>)
    requires i != j
    ensures OutputFilename(s, i, timestamp) != OutputFilename(s, j, timestamp)
  {
    IndexReadsBack(s, i, timestamp);
    IndexReadsBack(s, j, timestamp);
    assert ReadNat(OutputFilename(s, i, timestamp)[|s.fileNamePrefix| + 1..]).0 == i;
  }

  /** `apply_face_size_filter(min_size)`. */
  function ApplyFaceSizeFilter(s: Settings, minSize: real): real
  {
    match s.faceSizePreference
    case Large => minSize * 2.0
    case Medium => minSize * 1.5
    case Small => minSize * 0.5
    case Balanced => minSize
  }

  /** For a positive size the adjusted minimum grows with the preference
      from SMALL through BALANCED and MEDIUM to LARGE. */
  lemma FaceSizeFilterOrdered(s: Settings, minSize: real)
    requires minSize > 0.0
    ensures s.faceSizePreference == Small ==> ApplyFaceSizeFilter(s, minSize) < minSize
    ensures s.faceSizePreference == Balanced ==> ApplyFaceSizeFilter(s, minSize) == minSize
    ensures s.faceSizePreference == Medium ==> minSize < ApplyFaceSizeFilter(s, minSize) < 2.0 * minSize
    ensures s.faceSizePreference == Large ==> ApplyFaceSizeFilter(s, minSize) == 2.0 * minSize
  {
  }

  /** `get_diversity_config`. */
  function DiversityConfig(s: Settings): (c: map<string, real>)
    ensures c.Keys == {"diversity_weight", "quality_weight", "face_weight", "scene_weight",
                       "color_weight", "composition_weight"}
    ensures c["diversity_weight"] + c["quality_weight"] == 1.0
    ensures c["face_weight"] + c["scene_weight"] + c["color_weight"] + c["composition_weight"] == 1.0
    ensures ValidSettings(s) ==> 0.0 <= c["quality_weight"] <= 1.0
  {
    map["diversity_weight" := s.diversityWeight, "quality_weight" := 1.0 - s.diversityWeight,
        "face_weight" := 0.3, "scene_weight" := 0.2, "color_weight" := 0.2, "composition_weight" := 0.3]
  }

  // ---------------------------------------------------------------------
  // Presets

  /** The presets `create_preset` knows. */
  datatype Preset = HighQuality | FastGeneration | HighDiversity | PortraitMode

  /** The preset a name selects, if any. */
  function PresetNamed(name: string): (p: Option<Preset>)
    ensures p.Some? <==> name in {"high_quality", "fast_generation", "high_diversity", "portrait_mode"}
    ensures p == Some(PortraitMode) <==> name == "portrait_mode"
  {
    if name == "high_quality" then Some(HighQuality)
    else if name == "fast_generation" then Some(FastGeneration)
    else if name == "high_diversity" then Some(HighDiversity)
    else if name == "portrait_mode" then Some(PortraitMode)
    else None
  }

  /** The preset values, with the other fields at their defaults. */
  function PresetValues(p: Preset, home: string): Settings
  {
    var d := Defaults(home);
    match p
    case HighQuality =>
      d.(outputWidth := 1920, outputHeight := 1080, thumbnailCount := 5, qualityThreshold := 0.8,
         diversityWeight := 0.7, faceSizePreference := Large)
    case FastGeneration =>
      d.(outputWidth := 1280, outputHeight := 720, thumbnailCount := 3, qualityThreshold := 0.6,
         diversityWeight := 0.9, frameInterval := 2.0)
    case HighDiversity =>
      d.(outputWidth := 1920, outputHeight := 1080, thumbnailCount := 8, qualityThreshold := 0.6,
         diversityWeight := 0.9, faceSizePreference := Balanced)
    case PortraitMode =>
      d.(outputWidth := 1080, outputHeight := 1920, thumbnailCount := 4, qualityThreshold := 0.7,
         diversityWeight := 0.8)
  }

  /** The default prefix and format pass the file checks. */
  lemma DefaultFileSettingsValid()
    ensures !IsBlank("thumbnail") && !HasInvalidChar("thumbnail") && EqualsIgnoringCase("PNG", "png")
  {
    assert !IsSpace("thumbnail"[0]);
  }

  /** Every preset passes every check, and only the portrait preset is
      narrower than tall. */
  lemma PresetsValid(p: Preset, home: string)
    ensures ValidSettings(PresetValues(p, home))
    ensures IsPortraitOutput(PresetValues(p, home)) <==> p == PortraitMode
  {
    DefaultFileSettingsValid();
  }

  /** `create_preset(name)` corrected: the named preset, ValueError for
      other names. The portrait preset is portrait through its sizes; the
      `orientation` keyword it is written with is dropped. */
  function CreatePreset(name: string, home: string): (r: Result<Settings>)
    ensures r.Err? <==> name !in {"high_quality", "fast_generation", "high_diversity", "portrait_mode"}
    ensures r.Err? ==> r.error == ValueError
    ensures r.Ok? ==> ValidSettings(r.value)
    ensures r.Ok? ==> (IsPortraitOutput(r.value) <==> name == "portrait_mode")
  {
    var p := PresetNamed(name);
    if p.None? then Err(ValueError)
    else
      PresetsValid(p.value, home);
      Ok(PresetValues(p.value, home))
  }

  /** `create_preset` as written: building the table of presets constructs
      the `high_quality` settings first, which raises AttributeError, so
      every call fails with it, whatever the name. */
  function CreatePresetAsWritten(name: string, home: string): (r: Result<Settings>)
  {
    var failure := RejectionAsWritten(PresetValues(HighQuality, home));
    if failure.Some? then Err(failure.value)
    else if PresetNamed(name).None? then Err(ValueError)
    else Ok(PresetValues(PresetNamed(name).value, home))
  }

  /** Every call of the written `create_preset` fails with AttributeError. */
  lemma CreatePresetAlwaysFailsAsWritten(name: string, home: string)
    ensures CreatePresetAsWritten(name, home) == Err(AttributeError)
  {
    PresetsValid(HighQuality, home);
    ConstructionAlwaysFailsAsWritten(PresetValues(HighQuality, home));
  }

  /** Building one entry of the table of presets once the checks no longer
      read `orientation`: the `portrait_mode` entry passes an `orientation`
      keyword the class does not declare, which raises TypeError before
      any check runs; the other entries run the checks. */
  function BuildPresetAsWritten(p: Preset, home: string): Option<ErrorKind>
  {
    if p == PortraitMode then Some(TypeError) else Rejection(PresetValues(p, home))
  }

  /** `create_preset` with the checks corrected but the table as written:
      all four entries are built, in order, before the name is looked up. */
  function CreatePresetKeywordAsWritten(name: string, home: string): (r: Result<Settings>)
  {
    var failure := FirstOf(BuildPresetAsWritten(HighQuality, home),
                   FirstOf(BuildPresetAsWritten(FastGeneration, home),
                   FirstOf(BuildPresetAsWritten(HighDiversity, home), BuildPresetAsWritten(PortraitMode, home))));
    if failure.Some? then Err(failure.value)
    else if PresetNamed(name).None? then Err(ValueError)
    else Ok(PresetValues(PresetNamed(name).value, home))
  }

  /** Even with the checks corrected, every call of the written
      `create_preset` fails, with TypeError, whatever the name: the first
      three entries pass and the fourth cannot be built. */
  lemma CreatePresetFailsWithTypeError(name: string, home: string)
    ensures CreatePresetKeywordAsWritten(name, home) == Err(TypeError)
  {
    PresetsValid(HighQuality, home);
    PresetsValid(FastGeneration, home);
    PresetsValid(HighDiversity, home);
    RejectionIffInvalid(PresetValues(HighQuality, home));
    RejectionIffInvalid(PresetValues(FastGeneration, home));
    RejectionIffInvalid(PresetValues(HighDiversity, home));
  }

  // ---------------------------------------------------------------------
  // The entity

  class UserSettings {
    const settings: Settings
    var customSettings: map<string, VideoFile.Meta>

    constructor(settings: Settings)
      ensures this.settings == settings && customSettings == map[]
    {
      this.settings := settings;
      customSettings := map[];
    }

    /** `add_custom_setting`. */
    method AddCustomSetting(key: string, value: VideoFile.Meta)
      modifies this
      ensures customSettings == old(customSettings)[key := value]
    {
      customSettings := customSettings[key := value];
    }

    /** `get_custom_setting(key, default)`. */
    function GetCustomSetting(key: string, default: Option<VideoFile.Meta>): Option<VideoFile.Meta>
      reads this
    {
      if key in customSettings then Some(customSettings[key]) else default
    }
  }

  /** `UserSettings(...)` with the validation the model uses: a ValueError
      for the first failing check, otherwise new settings without custom
      entries. */
  method NewUserSettings(s: Settings) returns (r: Result<UserSettings>)
    ensures r.Ok? <==> ValidSettings(s)
    ensures r.Err? ==> r.error == ValueError
    ensures r.Ok? ==> fresh(r.value) && r.value.settings == s && r.value.customSettings == map[]
  {
    RejectionIffInvalid(s);
    var failure := Rejection(s);
    if failure.Some? {
      return Err(failure.value);
    }
    var u := new UserSettings(s);
    return Ok(u);
  }
}
