// A video file being processed (`VideoFile`): the checks made when it is
// opened and when its stream properties are known, and the status machine
//   CREATED -> VALIDATING -> VALID | INVALID,  VALID -> PROCESSING -> COMPLETED,
//   any -> FAILED,  reset -> VALID | INVALID.
// The file system is an oracle (`FileStat`); path resolution is not modelled,
// the path is taken as already absolute.

module VideoFile {
  import opened Errors
  import opened PyMath
  import opened Text

  datatype Status = Created | Validating | Valid | Invalid | Processing | Completed | Failed

  /** What the file system reports for the path. */
  datatype FileStat = FileStat(present: bool, isFile: bool, size: nat)

  /** Why validation rejected a file; stands for the text of the raised
      exception, which the source stores as the error message. */
  datatype Rejection =
    | FileMissing | NotAFile | NotMp4 | FileTooLarge | EmptyFile
    | BadDuration | BadFps | BadWidth | BadHeight
    | TooShort | ResolutionTooLow | ResolutionTooHigh | FpsOutOfRange

  datatype ErrorMessage = Message(text: string) | Rejected(reason: Rejection)

  /** A metadata value: the core stores integers (rotation), reals (scores)
      and strings (codec names). */
  datatype Meta = MInt(i: int) | MReal(r: real) | MStr(s: string)

  /** The exception class each rejection raises. */
  function RejectionKind(r: Rejection): ErrorKind
  {
    if r == FileMissing then FileNotFoundError else ValueError
  }

  const MaxFileSize: int := 2 * 1024 * 1024 * 1024
  const MinDuration: real := 10.0
  const MinResolution: int := 240
  const MaxResolution: int := 4096

  // ---------------------------------------------------------------------
  // Paths

  /** Index of the last `c` in `s`, or -1. */
  function RFind(s: string, c: char): (i: int)
    ensures -1 <= i < |s|
    ensures i >= 0 ==> s[i] == c
    ensures forall k :: i < k < |s| ==> s[k] != c
  {
    if s == [] then -1
    else if s[|s| - 1] == c then |s| - 1
    else RFind(s[..|s| - 1], c)
  }

  /** `Path.name`: the text after the last '/'. */
  function Name(path: string): (n: string)
    ensures '/' !in n
  {
    path[RFind(path, '/') + 1..]
  }

  /** `Path.suffix`: from the last '.' of the name, provided that dot is
      neither the first nor the last character; otherwise empty. */
  function Suffix(name: string): string
  {
    var i := RFind(name, '.');
    if 0 < i < |name| - 1 then name[i..] else ""
  }

  /** `path.suffix.lower() == '.mp4'`. */
  predicate IsMp4Path(path: string)
  {
    EqualsIgnoringCase(Suffix(Name(path)), ".mp4")
  }

  lemma {:induction false} RFindAppend(a: string, b: string, c: char)
    ensures c in b ==> RFind(a + b, c) == |a| + RFind(b, c)
    ensures c !in b ==> RFind(a + b, c) == RFind(a, c)
  {
    if c in b {
      var j := RFind(b, c);
      assert (a + b)[|a| + j] == c;
      assert (a + b)[|a| + j + 1..] == b[j + 1..];
    } else if c in a {
      var j := RFind(a, c);
      assert (a + b)[j] == c;
      assert (a + b)[j + 1..] == a[j + 1..] + b;
    } else {
      assert c !in a + b;
    }
  }

  /** A file `stem + ext` in any directory, where the stem is non-empty and
      neither part holds another dot or slash, has suffix `ext`; so it is
      accepted exactly when `ext` is ".mp4" in any letter case. */
  lemma Mp4Suffix(dir: string, stem: string, ext: string)
    requires |stem| > 0 && '.' !in stem && '/' !in stem
    requires |ext| >= 2 && ext[0] == '.' && '.' !in ext[1..] && '/' !in ext
    ensures Suffix(Name(dir + "/" + stem + ext)) == ext
    ensures IsMp4Path(dir + "/" + stem + ext) <==> EqualsIgnoringCase(ext, ".mp4")
  {
    NameOfFileInDir(dir, stem + ext);
    assert dir + "/" + stem + ext == dir + "/" + (stem + ext);
    SuffixOfStemAndExtension(stem, ext);
  }

  lemma NameOfFileInDir(dir: string, file: string)
    requires '/' !in file
    ensures Name(dir + "/" + file) == file
  {
    RFindAppend(dir + "/", file, '/');
    RFindAppend(dir, "/", '/');
    assert (dir + "/" + file)[|dir| + 1..] == file;
  }

  /** `directory / name` for a relative name: the name alone under an empty
      directory, no second '/' after a directory that ends with one. */
  function JoinPath(dir: string, name: string): string
  {
    if dir == [] then name
    else if dir[|dir| - 1] == '/' then dir + name
    else dir + "/" + name
  }

  /** The name of a joined path is the name joined. */
  lemma NameOfJoin(dir: string, name: string)
    requires '/' !in name
    ensures Name(JoinPath(dir, name)) == name
  {
    if dir == [] {
    } else if dir[|dir| - 1] == '/' {
      RFindAppend(dir, name, '/');
      assert (dir + name)[|dir|..] == name;
    } else {
      NameOfFileInDir(dir, name);
    }
  }

  lemma SuffixOfStemAndExtension(stem: string, ext: string)
    requires |stem| > 0 && '.' !in stem
    requires |ext| >= 2 && ext[0] == '.' && '.' !in ext[1..]
    ensures Suffix(stem + ext) == ext
  {
    assert ext == "." + ext[1..];
    RFindAppend(".", ext[1..], '.');
    assert '.' in ext;
    RFindAppend(stem, ext, '.');
    assert (stem + ext)[|stem|..] == ext;
  }

  // ---------------------------------------------------------------------
  // Validation rules

  /** The file name used: the one given, or else the path's name. */
  function DefaultFileName(given: string, path: string): string
  {
    if given == "" then Name(path) else given
  }

  /** The file size after the basic check: a size of 0 is read from disk. */
  function SizeAfterCheck(size: int, fs: FileStat): int
  {
    if size == 0 then fs.size else size
  }

  /** The first failing basic check, in the source's order: existence,
      regular file, `.mp4` suffix, size at most 2 GiB, non-zero size. */
  function BasicRejection(path: string, size: int, fs: FileStat): (r: Option<Rejection>)
    ensures r.None? <==> (fs.present && fs.isFile && IsMp4Path(path)
                          && SizeAfterCheck(size, fs) != 0 && SizeAfterCheck(size, fs) <= MaxFileSize)
    ensures r == Some(FileMissing) <==> !fs.present
  {
    if !fs.present then Some(FileMissing)
    else if !fs.isFile then Some(NotAFile)
    else if !IsMp4Path(path) then Some(NotMp4)
    else if SizeAfterCheck(size, fs) > MaxFileSize then Some(FileTooLarge)
    else if SizeAfterCheck(size, fs) == 0 then Some(EmptyFile)
    else None
  }

  /** The stream properties a video needs: at least ten seconds, both sides
      from 240 to 4096 pixels, 1 to 120 frames per second. */
  predicate PropertiesAcceptable(duration: real, fps: real, width: int, height: int)
  {
    duration >= MinDuration && 1.0 <= fps <= 120.0
    && MinResolution <= width <= MaxResolution && MinResolution <= height <= MaxResolution
  }

  /** The first failing property check, in the source's order. */
  function PropertyRejection(duration: real, fps: real, width: int, height: int): (r: Option<Rejection>)
    ensures r.None? <==> PropertiesAcceptable(duration, fps, width, height)
  {
    if duration <= 0.0 then Some(BadDuration)
    else if fps <= 0.0 then Some(BadFps)
    else if width <= 0 then Some(BadWidth)
    else if height <= 0 then Some(BadHeight)
    else if duration < MinDuration then Some(TooShort)
    else if width < MinResolution || height < MinResolution then Some(ResolutionTooLow)
    else if width > MaxResolution || height > MaxResolution then Some(ResolutionTooHigh)
    else if !(1.0 <= fps <= 120.0) then Some(FpsOutOfRange)
    else None
  }

  /** The frame count a stream of this length and rate should have. */
  function ExpectedFrames(duration: real, fps: real): int
  {
    Trunc(duration * fps)
  }

  // ---------------------------------------------------------------------
  // Pure properties

  /** `aspect_ratio`: width / height, 0 for a zero height. */
  function AspectRatio(width: int, height: int): (r: real)
    ensures height == 0 ==> r == 0.0
    ensures height != 0 ==> r * height as real == width as real
  {
    if height == 0 then 0.0 else width as real / height as real
  }

  /** `resolution_category`. */
  function ResolutionCategory(width: int, height: int): string
  {
    if width >= 3840 && height >= 2160 then "4K"
    else if width >= 1920 && height >= 1080 then "FHD"
    else if width >= 1280 && height >= 720 then "HD"
    else if width >= 640 && height >= 480 then "SD"
    else "Low"
  }

  /** Position of a category from "Low" (0) to "4K" (4). */
  function CategoryRank(category: string): nat
  {
    if category == "4K" then 4
    else if category == "FHD" then 3
    else if category == "HD" then 2
    else if category == "SD" then 1
    else 0
  }

  /** A category is reached exactly when both sides meet its minimum, and a
      video at least as large in both directions is never in a lower one. */
  lemma ResolutionCategoryMonotone(w: int, h: int, w': int, h': int)
    requires w <= w' && h <= h'
    ensures CategoryRank(ResolutionCategory(w, h)) <= CategoryRank(ResolutionCategory(w', h'))
    ensures ResolutionCategory(w, h) == "4K" <==> w >= 3840 && h >= 2160
    ensures ResolutionCategory(w, h) == "Low" <==> !(w >= 640 && h >= 480)
  {
  }

  predicate IsLandscape(width: int, height: int) { width > height }

  predicate IsPortrait(width: int, height: int) { height > width }

  lemma OrientationExclusive(width: int, height: int)
    ensures !(IsLandscape(width, height) && IsPortrait(width, height))
    ensures !IsLandscape(width, height) && !IsPortrait(width, height) <==> width == height
  {
  }

  /** Whole minutes and remaining whole seconds of a duration. */
  function MinutesSeconds(duration: real): (ms: (int, int))
    ensures 0 <= ms.1 < 60
  {
    var m := FloorDiv(duration, 60.0);
    var s := Trunc(FloorMod(duration, 60.0));
    (m, s)
  }

  /** `duration_formatted`: "MM:SS", each part zero-padded to two digits. */
  function DurationFormatted(duration: real): string
  {
    var (m, s) := MinutesSeconds(duration);
    FormatInt(m, 2) + ":" + FormatInt(s, 2)
  }

  /** For a non-negative duration the text reads back as minutes, ':' and
      seconds, whose total lies within one second below the duration. */
  lemma DurationFormattedReadsBack(duration: real)
    requires duration >= 0.0
    ensures var text := DurationFormatted(duration);
            var (m, rest) := ReadNat(text);
            |rest| >= 3 && rest[0] == ':' && ReadNat(rest[1..]) == (MinutesSeconds(duration).1, "")
            && m == MinutesSeconds(duration).0
            && (m * 60) as real + MinutesSeconds(duration).1 as real <= duration
            && duration < (m * 60) as real + MinutesSeconds(duration).1 as real + 1.0
  {
    var (m, s) := MinutesSeconds(duration);
    var md := FloorMod(duration, 60.0);
    assert duration == m as real * 60.0 + md;
    assert m >= 0 by {
      if m < 0 { MulMonotone(m as real + 1.0, 0.0, 60.0); }
    }
    var tail := ":" + FormatInt(s, 2);
    assert DurationFormatted(duration) == FormatInt(m, 2) + tail;
    ReadFormatted(m, 2, tail);
    assert tail[1..] == FormatInt(s, 2) + "";
    ReadFormatted(s, 2, "");
    assert |FormatInt(s, 2)| >= 2;
  }

  /** `estimated_processing_time`: three seconds per minute of video, scaled
      by 2 for 4K, 1.5 for FHD, 1.2 for HD. */
  function EstimatedProcessingTime(duration: real, width: int, height: int): real
  {
    var category := ResolutionCategory(width, height);
    var factor := if category == "4K" then 2.0 else if category == "FHD" then 1.5
                  else if category == "HD" then 1.2 else 1.0;
    (duration / 60.0) * 3.0 * factor
  }

  /** The estimate is between 3 and 6 seconds per minute of video. */
  lemma EstimateBounds(duration: real, width: int, height: int)
    requires duration >= 0.0
    ensures duration / 20.0 <= EstimatedProcessingTime(duration, width, height) <= duration / 10.0
  {
  }

  // ---------------------------------------------------------------------
  // The entity

  class VideoFile {
    const filePath: string
    var fileName: string
    var fileSize: int
    var duration: real
    var fps: real
    var width: int
    var height: int
    var totalFrames: int
    var isValid: bool
    var status: Status
    var errorMessage: Option<ErrorMessage>
    var metadata: map<string, Meta>

    /** The dataclass fields as given, before `__post_init__`. */
    constructor(filePath: string, fileName: string, fileSize: int)
      ensures this.filePath == filePath && this.fileName == fileName && this.fileSize == fileSize
      ensures duration == 0.0 && fps == 0.0 && width == 0 && height == 0 && totalFrames == 0
      ensures !isValid && status == Created && errorMessage == None && metadata == map[]
    {
      this.filePath := filePath;
      this.fileName := fileName;
      this.fileSize := fileSize;
      duration := 0.0;
      fps := 0.0;
      width := 0;
      height := 0;
      totalFrames := 0;
      isValid := false;
      status := Created;
      errorMessage := None;
      metadata := map[];
    }

    /** A failed check leaves the file INVALID, not valid, with the reason. */
    predicate RejectedFor(reason: Rejection)
      reads this
    {
      status == Invalid && !isValid && errorMessage == Some(Rejected(reason))
    }

    /** `_validate_basic_properties`: a size of 0 is read from the file
        system once the suffix has passed; any failure marks the file
        INVALID and raises. */
    method ValidateBasicProperties(fs: FileStat) returns (r: Result<()>)
      modifies this`fileSize, this`isValid, this`status, this`errorMessage
      ensures r.Ok? <==> BasicRejection(filePath, old(fileSize), fs).None?
      ensures r.Err? ==> r.error == RejectionKind(BasicRejection(filePath, old(fileSize), fs).value)
      ensures r.Err? ==> RejectedFor(BasicRejection(filePath, old(fileSize), fs).value)
      ensures fileSize == (if fs.present && fs.isFile && IsMp4Path(filePath)
                           then SizeAfterCheck(old(fileSize), fs) else old(fileSize))
      ensures r.Ok? ==> status == old(status) && isValid == old(isValid) && errorMessage == old(errorMessage)
    {
      ghost var expected := BasicRejection(filePath, fileSize, fs);
      var rejection: Option<Rejection> := None;
      var mp4 := IsMp4Path(filePath);
      if !fs.present {
        rejection := Some(FileMissing);
      } else if !fs.isFile {
        rejection := Some(NotAFile);
      } else if !mp4 {
        rejection := Some(NotMp4);
      } else {
        if fileSize == 0 {
          fileSize := fs.size;
        }
        if fileSize > MaxFileSize {
          rejection := Some(FileTooLarge);
        } else if fileSize == 0 {
          rejection := Some(EmptyFile);
        }
      }
      assert rejection == expected;
      if rejection.Some? {
        errorMessage := Some(Rejected(rejection.value));
        isValid := false;
        status := Invalid;
        return Err(RejectionKind(rejection.value));
      }
      return Ok(());
    }

    /** `__post_init__`: default the file name to the path's name, run the
        basic checks, then move CREATED to VALIDATING. */
    method PostInit(fs: FileStat) returns (r: Result<()>)
      modifies this`fileName, this`fileSize, this`isValid, this`status, this`errorMessage
      requires status == Created
      ensures fileName == DefaultFileName(old(fileName), filePath)
      ensures r.Ok? <==> BasicRejection(filePath, old(fileSize), fs).None?
      ensures r.Err? ==> r.error == RejectionKind(BasicRejection(filePath, old(fileSize), fs).value)
      ensures r.Err? ==> RejectedFor(BasicRejection(filePath, old(fileSize), fs).value)
      ensures r.Ok? ==> status == Validating && isValid == old(isValid) && errorMessage == old(errorMessage)
    {
      fileName := DefaultFileName(fileName, filePath);
      r := ValidateBasicProperties(fs);
      if r.Ok? && status == Created {
        status := Validating;
      }
    }

    /** `validate_video_properties`: on success the file is VALID, valid,
        without error message, and a zero frame count is filled in from
        duration and rate; on failure it is INVALID and the error raised is
        a ValueError. */
    method ValidateVideoProperties() returns (r: Result<()>)
      modifies this`totalFrames, this`isValid, this`status, this`errorMessage
      ensures var rejection := PropertyRejection(duration, fps, width, height);
              (r.Ok? <==> rejection.None?)
              && (r.Err? ==> r.error == ValueError && RejectedFor(rejection.value))
      ensures r.Ok? ==> status == Valid && isValid && errorMessage == None
      ensures r.Ok? ==> totalFrames == (if old(totalFrames) == 0 then ExpectedFrames(duration, fps)
                                        else old(totalFrames))
      ensures r.Err? ==> totalFrames == old(totalFrames)
    {
      var rejection := PropertyRejection(duration, fps, width, height);
      if rejection.Some? {
        errorMessage := Some(Rejected(rejection.value));
        isValid := false;
        status := Invalid;
        return Err(ValueError);
      }
      if totalFrames == 0 {
        totalFrames := ExpectedFrames(duration, fps);
      }
      isValid := true;
      status := Valid;
      errorMessage := None;
      return Ok(());
    }

    /** `start_processing`: only a VALID file starts; otherwise ValueError
        and nothing changes. */
    method StartProcessing() returns (r: Result<()>)
      modifies this`status
      ensures r.Ok? <==> old(status) == Valid
      ensures r.Ok? ==> status == Processing
      ensures r.Err? ==> r.error == ValueError && status == old(status)
    {
      if status != Valid {
        return Err(ValueError);
      }
      status := Processing;
      return Ok(());
    }

    /** `complete_processing`: only a PROCESSING file completes. */
    method CompleteProcessing() returns (r: Result<()>)
      modifies this`status
      ensures r.Ok? <==> old(status) == Processing
      ensures r.Ok? ==> status == Completed
      ensures r.Err? ==> r.error == ValueError && status == old(status)
    {
      if status != Processing {
        return Err(ValueError);
      }
      status := Completed;
      return Ok(());
    }

    /** `fail_processing`: from any status to FAILED, recording the message. */
    method FailProcessing(message: string)
      modifies this`status, this`errorMessage, this`isValid
      ensures status == Failed && !isValid && errorMessage == Some(Message(message))
    {
      status := Failed;
      errorMessage := Some(Message(message));
      isValid := false;
    }

    /** `reset_status`: back to VALID or INVALID according to `is_valid`. */
    method ResetStatus()
      modifies this`status, this`errorMessage
      ensures status == (if isValid then Valid else Invalid) && errorMessage == None
    {
      if isValid {
        status := Valid;
      } else {
        status := Invalid;
      }
      errorMessage := None;
    }

    /** `add_metadata`: sets one entry, leaving the others. */
    method AddMetadata(key: string, value: Meta)
      modifies this`metadata
      ensures metadata == old(metadata)[key := value]
    {
      metadata := metadata[key := value];
    }

    /** `get_metadata(key, default)`. */
    function GetMetadata(key: string, default: Option<Meta>): (v: Option<Meta>)
      reads this
      ensures key in metadata ==> v == Some(metadata[key])
      ensures key !in metadata ==> v == default
    {
      if key in metadata then Some(metadata[key]) else default
    }

    /** `__eq__`: two video files are equal when their paths are. */
    predicate SameFile(other: VideoFile)
    {
      filePath == other.filePath
    }
  }

  /** `VideoFile.from_file_path(path)`: construct, then (with `validate`)
      fill in the placeholder properties 30 s, 24 fps, 1920x1080, 720
      frames and validate them, which always succeeds. */
  method FromFilePath(path: string, validate: bool, fs: FileStat) returns (v: VideoFile, r: Result<()>)
    ensures fresh(v) && v.filePath == path && v.fileName == Name(path)
    ensures r.Ok? <==> BasicRejection(path, 0, fs).None?
    ensures r.Err? ==> r.error == RejectionKind(BasicRejection(path, 0, fs).value) && v.status == Invalid
    ensures r.Ok? && validate ==> v.status == Valid && v.isValid && v.totalFrames == 720
    ensures r.Ok? && validate ==> v.duration == 30.0 && v.fps == 24.0 && v.width == 1920 && v.height == 1080
    ensures r.Ok? && !validate ==> v.status == Validating
  {
    v := new VideoFile(path, "", 0);
    r := v.PostInit(fs);
    if r.Err? || !validate {
      return;
    }
    v.duration := 30.0;
    v.fps := 24.0;
    v.width := 1920;
    v.height := 1080;
    v.totalFrames := ExpectedFrames(30.0, 24.0);
    assert v.totalFrames == 720;
    r := v.ValidateVideoProperties();
  }
}
