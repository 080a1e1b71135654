// The application settings record and the object that holds it: defaults,
// lookup and update by field name, reset, range validation, loading from
// the JSON settings file (only the record's own fields are taken from it)
// and saving back. The file's contents are given to the model as values;
// whether a write succeeds is a parameter.

module Config {

  import opened Errors

  /** A setting's value: what JSON or a caller can hand over. */
  datatype Value = Text(s: string) | Int(i: int) | Float(r: real) | Bool(b: bool) | Null

  /** Python truthiness of a value. */
  predicate Truthy(v: Value)
  {
    match v
    case Text(s) => s != ""
    case Int(i) => i != 0
    case Float(r) => r != 0.0
    case Bool(b) => b
    case Null => false
  }

  /** The number a value compares as; strings and None cannot be compared
      with a number (TypeError). A bool compares as 0 or 1. */
  function NumberOf(v: Value): Option<real>
  {
    match v
    case Int(i) => Some(i as real)
    case Float(r) => Some(r)
    case Bool(b) => Some(if b then 1.0 else 0.0)
    case _ => None
  }

  // ---------------------------------------------------------------------
  // The record

  /** The fields of `AppConfig`. */
  datatype Field =
    | AppName | AppVersion | Language
    | DefaultThumbnailCount | DefaultOutputWidth | DefaultOutputHeight
    | DefaultQualityThreshold | DefaultDiversityWeight
    | DefaultOutputDirectory | TempDirectory | LogDirectory
    | MaxFrameBufferSize | MaxConcurrentJobs | ProcessingTimeoutSeconds
    | FaceDetectionConfidence | MinFaceSize
    | WindowWidth | WindowHeight | ShowDebugInfo | AutoSaveSettings
    | LogLevel | LogToFile | LogRotationDays

  /** The attribute name of a field. */
  function Name(f: Field): string
  {
    match f
    case AppName => "app_name"
    case AppVersion => "app_version"
    case Language => "language"
    case DefaultThumbnailCount => "default_thumbnail_count"
    case DefaultOutputWidth => "default_output_width"
    case DefaultOutputHeight => "default_output_height"
    case DefaultQualityThreshold => "default_quality_threshold"
    case DefaultDiversityWeight => "default_diversity_weight"
    case DefaultOutputDirectory => "default_output_directory"
    case TempDirectory => "temp_directory"
    case LogDirectory => "log_directory"
    case MaxFrameBufferSize => "max_frame_buffer_size"
    case MaxConcurrentJobs => "max_concurrent_jobs"
    case ProcessingTimeoutSeconds => "processing_timeout_seconds"
    case FaceDetectionConfidence => "face_detection_confidence"
    case MinFaceSize => "min_face_size"
    case WindowWidth => "window_width"
    case WindowHeight => "window_height"
    case ShowDebugInfo => "show_debug_info"
    case AutoSaveSettings => "auto_save_settings"
    case LogLevel => "log_level"
    case LogToFile => "log_to_file"
    case LogRotationDays => "log_rotation_days"
  }

  /** The length of a name and its last but one letter, which tell the
      field names apart. */
  function Signature(key: string): (int, char)
  {
    (|key|, if |key| >= 2 then key[|key| - 2] else ' ')
  }

  /** The only field whose name can have a given signature. */
  function FieldOfSignature(n: int, c: char): Option<Field>
  {
    match n
    case 8 => if c == 'm' then Some(AppName) else if c == 'g' then Some(Language) else None
    case 9 => if c == 'e' then Some(LogLevel) else None
    case 11 => if c == 'o' then Some(AppVersion) else if c == 'l' then Some(LogToFile) else None
    case 12 => if c == 't' then Some(WindowWidth) else None
    case 13 => if c == 'r' then Some(LogDirectory) else if c == 'z' then Some(MinFaceSize) else if c == 'h' then Some(WindowHeight) else None
    case 14 => if c == 'r' then Some(TempDirectory) else None
    case 15 => if c == 'f' then Some(ShowDebugInfo) else None
    case 17 => if c == 'y' then Some(LogRotationDays) else None
    case 18 => if c == 'g' then Some(AutoSaveSettings) else None
    case 19 => if c == 'b' then Some(MaxConcurrentJobs) else None
    case 20 => if c == 't' then Some(DefaultOutputWidth) else None
    case 21 => if c == 'h' then Some(DefaultOutputHeight) else if c == 'z' then Some(MaxFrameBufferSize) else None
    case 23 => if c == 'n' then Some(DefaultThumbnailCount) else None
    case 24 => if c == 'h' then Some(DefaultDiversityWeight) else if c == 'r' then Some(DefaultOutputDirectory) else None
    case 25 => if c == 'l' then Some(DefaultQualityThreshold) else if c == 'c' then Some(FaceDetectionConfidence) else None
    case 26 => if c == 'd' then Some(ProcessingTimeoutSeconds) else None
    case _ => None
  }

  /** `hasattr(config, key)`: the field a key names, if any. */
  function FieldNamed(key: string): (f: Option<Field>)
    ensures f.Some? ==> Name(f.value) == key
  {
    var candidate := FieldOfSignature(Signature(key).0, Signature(key).1);
    if candidate.Some? && Name(candidate.value) == key then candidate else None
  }

  lemma NamesLookUpA()
    ensures FieldNamed(Name(AppName)) == Some(AppName)
    ensures FieldNamed(Name(AppVersion)) == Some(AppVersion)
    ensures FieldNamed(Name(Language)) == Some(Language)
    ensures FieldNamed(Name(DefaultThumbnailCount)) == Some(DefaultThumbnailCount)
  {
  }

  lemma NamesLookUpB()
    ensures FieldNamed(Name(DefaultOutputWidth)) == Some(DefaultOutputWidth)
    ensures FieldNamed(Name(DefaultOutputHeight)) == Some(DefaultOutputHeight)
    ensures FieldNamed(Name(DefaultQualityThreshold)) == Some(DefaultQualityThreshold)
    ensures FieldNamed(Name(DefaultDiversityWeight)) == Some(DefaultDiversityWeight)
  {
  }

  lemma NamesLookUpC()
    ensures FieldNamed(Name(DefaultOutputDirectory)) == Some(DefaultOutputDirectory)
    ensures FieldNamed(Name(TempDirectory)) == Some(TempDirectory)
    ensures FieldNamed(Name(LogDirectory)) == Some(LogDirectory)
    ensures FieldNamed(Name(MaxFrameBufferSize)) == Some(MaxFrameBufferSize)
  {
  }

  lemma NamesLookUpD()
    ensures FieldNamed(Name(MaxConcurrentJobs)) == Some(MaxConcurrentJobs)
    ensures FieldNamed(Name(ProcessingTimeoutSeconds)) == Some(ProcessingTimeoutSeconds)
    ensures FieldNamed(Name(FaceDetectionConfidence)) == Some(FaceDetectionConfidence)
    ensures FieldNamed(Name(MinFaceSize)) == Some(MinFaceSize)
  {
  }

  lemma NamesLookUpE()
    ensures FieldNamed(Name(WindowWidth)) == Some(WindowWidth)
    ensures FieldNamed(Name(WindowHeight)) == Some(WindowHeight)
    ensures FieldNamed(Name(ShowDebugInfo)) == Some(ShowDebugInfo)
    ensures FieldNamed(Name(AutoSaveSettings)) == Some(AutoSaveSettings)
  {
  }

  lemma NamesLookUpF()
    ensures FieldNamed(Name(LogLevel)) == Some(LogLevel)
    ensures FieldNamed(Name(LogToFile)) == Some(LogToFile)
    ensures FieldNamed(Name(LogRotationDays)) == Some(LogRotationDays)
  {
  }

  /** Every field's name looks up that field, so a key names at most one
      field and every field can be reached by its name. */
  lemma NameRoundTrip(f: Field)
    ensures FieldNamed(Name(f)) == Some(f)
  {
    NamesLookUpA();
    NamesLookUpB();
    NamesLookUpC();
    NamesLookUpD();
    NamesLookUpE();
    NamesLookUpF();
  }

  /** Every field's name looks up that field. */
  lemma NamesKnown()
    ensures forall f :: FieldNamed(Name(f)) == Some(f)
  {
    forall f ensures FieldNamed(Name(f)) == Some(f) {
      NameRoundTrip(f);
    }
  }

  /** No two fields share a name. */
  lemma NamesInjective()
    ensures forall f, g :: Name(f) == Name(g) ==> f == g
  {
    NamesKnown();
  }

  /** A record holds a value for every field. */
  predicate Complete(c: map<Field, Value>)
  {
    forall f: Field :: f in c
  }

  /** The default of each `AppConfig` field. */
  function Default(f: Field): Value
  {
    match f
    case AppName => Text("動画サムネイル抽出")
    case AppVersion => Text("1.0.0")
    case Language => Text("ja")
    case DefaultThumbnailCount => Int(5)
    case DefaultOutputWidth => Int(1920)
    case DefaultOutputHeight => Int(1080)
    case DefaultQualityThreshold => Float(0.7)
    case DefaultDiversityWeight => Float(0.8)
    case DefaultOutputDirectory => Text("")
    case TempDirectory => Text("")
    case LogDirectory => Text("")
    case MaxFrameBufferSize => Int(100)
    case MaxConcurrentJobs => Int(1)
    case ProcessingTimeoutSeconds => Int(300)
    case FaceDetectionConfidence => Float(0.5)
    case MinFaceSize => Float(0.01)
    case WindowWidth => Int(1200)
    case WindowHeight => Int(800)
    case ShowDebugInfo => Bool(false)
    case AutoSaveSettings => Bool(true)
    case LogLevel => Text("INFO")
    case LogToFile => Bool(true)
    case LogRotationDays => Int(7)
  }

  /** `AppConfig()`: every field at its default. */
  function Defaults(): (d: map<Field, Value>)
    ensures Complete(d) && forall f :: d[f] == Default(f)
  {
    map f: Field | true :: Default(f)
  }

  /** `asdict(config)`: the record keyed by field names. */
  function AsDict(c: map<Field, Value>): map<string, Value>
  {
    NamesInjective();
    map f | f in c :: Name(f) := c[f]
  }

  /** The record after applying the pairs of a loaded JSON object: a key
      that names a field replaces that field's value, any other key is
      ignored. */
  function Overlay(c: map<Field, Value>, data: map<string, Value>): map<Field, Value>
  {
    map f | f in c :: if Name(f) in data then data[Name(f)] else c[f]
  }

  /** Loading keeps every field, takes the loaded value of each field whose
      name is a key, keeps the others, and is blind to keys that name no
      field. */
  lemma OverlayOnlyFields(c: map<Field, Value>, data: map<string, Value>, extra: string, v: Value)
    requires Complete(c) && FieldNamed(extra).None?
    ensures Complete(Overlay(c, data))
    ensures forall f :: Name(f) in data ==> Overlay(c, data)[f] == data[Name(f)]
    ensures forall f :: Name(f) !in data ==> Overlay(c, data)[f] == c[f]
    ensures Overlay(c, data[extra := v]) == Overlay(c, data)
  {
    forall f ensures Name(f) != extra {
      NameRoundTrip(f);
    }
  }

  /** Loading a saved record gives that record back, whatever it started
      from. */
  lemma LoadAfterSave(c: map<Field, Value>, start: map<Field, Value>)
    requires Complete(c) && Complete(start)
    ensures Overlay(start, AsDict(c)) == c
  {
    forall f ensures Name(f) in AsDict(c) && AsDict(c)[Name(f)] == c[f] {
      forall g | Name(g) == Name(f) ensures g == f {
        NameRoundTrip(f);
        NameRoundTrip(g);
      }
    }
  }

  // ---------------------------------------------------------------------
  // Validation

  /** The findings `validate_config` can report, one per check, and the
      message it appends when a check raises. */
  datatype Issue =
    | CountOutOfRange | WidthOutOfRange | HeightOutOfRange
    | QualityOutOfRange | DiversityOutOfRange | ConfidenceOutOfRange | FaceSizeOutOfRange
    | OutputDirectoryMissing | UnknownLogLevel | CheckRaised

  /** `lo <= v <= hi` for a value that compares as a number. */
  predicate InRange(v: Value, lo: real, hi: real)
  {
    NumberOf(v).Some? && lo <= NumberOf(v).value <= hi
  }

  const LogLevels: seq<string> := ["DEBUG", "INFO", "WARNING", "ERROR", "CRITICAL"]

  /** The checks on a ranged field. */
  predicate Ranged(e: Issue)
  {
    e.CountOutOfRange? || e.WidthOutOfRange? || e.HeightOutOfRange? || e.QualityOutOfRange?
    || e.DiversityOutOfRange? || e.ConfidenceOutOfRange? || e.FaceSizeOutOfRange?
  }

  /** The position of a check in `validate_config`. */
  function Order(e: Issue): nat
  {
    match e
    case CountOutOfRange => 0
    case WidthOutOfRange => 1
    case HeightOutOfRange => 2
    case QualityOutOfRange => 3
    case DiversityOutOfRange => 4
    case ConfidenceOutOfRange => 5
    case FaceSizeOutOfRange => 6
    case OutputDirectoryMissing => 7
    case UnknownLogLevel => 8
    case CheckRaised => 9
  }

  /** The field a ranged check reads and its bounds. */
  function RangeOf(e: Issue): (Field, real, real)
    requires Ranged(e)
  {
    match e
    case CountOutOfRange => (DefaultThumbnailCount, 1.0, 20.0)
    case WidthOutOfRange => (DefaultOutputWidth, 240.0, 4096.0)
    case HeightOutOfRange => (DefaultOutputHeight, 240.0, 4096.0)
    case QualityOutOfRange => (DefaultQualityThreshold, 0.0, 1.0)
    case DiversityOutOfRange => (DefaultDiversityWeight, 0.0, 1.0)
    case ConfidenceOutOfRange => (FaceDetectionConfidence, 0.0, 1.0)
    case FaceSizeOutOfRange => (MinFaceSize, 0.0, 1.0)
  }

  /** Whether a check reports its finding on the record: a ranged field
      outside its bounds, a non-empty output directory that does not
      exist, or a log level that is none of the five names. */
  predicate Fails(c: map<Field, Value>, present: string -> bool, e: Issue)
    requires Complete(c)
  {
    if Ranged(e) then !InRange(c[RangeOf(e).0], RangeOf(e).1, RangeOf(e).2)
    else if e == OutputDirectoryMissing then
      var d := c[DefaultOutputDirectory];
      Truthy(d) && d.Text? && !present(d.s)
    else if e == UnknownLogLevel then !(c[LogLevel].Text? && c[LogLevel].s in LogLevels)
    else false
  }

  /** The ranged checks in the order `validate_config` makes them. */
  const RangeChecks: seq<Issue> := [
    CountOutOfRange, WidthOutOfRange, HeightOutOfRange, QualityOutOfRange,
    DiversityOutOfRange, ConfidenceOutOfRange, FaceSizeOutOfRange
  ]

  lemma RangeChecksOrdered()
    ensures |RangeChecks| == 7
    ensures forall i :: 0 <= i < 7 ==> Ranged(RangeChecks[i]) && Order(RangeChecks[i]) == i
    ensures forall e :: Ranged(e) ==> Order(e) < 7 && RangeChecks[Order(e)] == e
  {
  }

  /** The findings of the first `n` ranged checks when none raises. */
  function RangeFindings(c: map<Field, Value>, present: string -> bool, n: nat): seq<Issue>
    requires Complete(c) && n <= |RangeChecks|
  {
    if n == 0 then []
    else
      var e := RangeChecks[n - 1];
      RangeFindings(c, present, n - 1) + if Fails(c, present, e) then [e] else []
  }

  /** The first `n` ranged checks report exactly those among them that
      fail. */
  lemma {:induction false} RangeFindingsMembers(c: map<Field, Value>, present: string -> bool, n: nat)
    requires Complete(c) && n <= |RangeChecks|
    ensures forall e :: e in RangeFindings(c, present, n) <==> Ranged(e) && Order(e) < n && Fails(c, present, e)
  {
    RangeChecksOrdered();
    if n > 0 {
      RangeFindingsMembers(c, present, n - 1);
    }
  }

  /** Every ranged field compares as a number. */
  predicate Numeric(c: map<Field, Value>)
    requires Complete(c)
  {
    NumberOf(c[DefaultThumbnailCount]).Some? && NumberOf(c[DefaultOutputWidth]).Some?
    && NumberOf(c[DefaultOutputHeight]).Some? && NumberOf(c[DefaultQualityThreshold]).Some?
    && NumberOf(c[DefaultDiversityWeight]).Some? && NumberOf(c[FaceDetectionConfidence]).Some?
    && NumberOf(c[MinFaceSize]).Some?
  }

  /** Whether validating the record raises: a ranged field that does not
      compare as a number, or a non-empty output directory that is not a
      path string. */
  predicate Raises(c: map<Field, Value>)
    requires Complete(c)
  {
    !Numeric(c) || (Truthy(c[DefaultOutputDirectory]) && !c[DefaultOutputDirectory].Text?)
  }

  /** The record is valid: every ranged field within its bounds, the output
      directory empty or existing, the log level one of the five names. */
  predicate ConfigValid(c: map<Field, Value>, present: string -> bool)
    requires Complete(c)
  {
    InRange(c[DefaultThumbnailCount], 1.0, 20.0)
    && InRange(c[DefaultOutputWidth], 240.0, 4096.0)
    && InRange(c[DefaultOutputHeight], 240.0, 4096.0)
    && InRange(c[DefaultQualityThreshold], 0.0, 1.0)
    && InRange(c[DefaultDiversityWeight], 0.0, 1.0)
    && InRange(c[FaceDetectionConfidence], 0.0, 1.0)
    && InRange(c[MinFaceSize], 0.0, 1.0)
    && (Truthy(c[DefaultOutputDirectory]) ==>
          c[DefaultOutputDirectory].Text? && present(c[DefaultOutputDirectory].s))
    && c[LogLevel].Text? && c[LogLevel].s in LogLevels
  }

  /** The record is valid exactly when validating it neither raises nor
      reports a finding. */
  lemma ValidIffNoFinding(c: map<Field, Value>, present: string -> bool)
    requires Complete(c)
    ensures ConfigValid(c, present) <==> !Raises(c) && forall e :: !Fails(c, present, e)
  {
    if ConfigValid(c, present) {
      forall e | Ranged(e) ensures InRange(c[RangeOf(e).0], RangeOf(e).1, RangeOf(e).2) {
      }
    } else if !InRange(c[DefaultThumbnailCount], 1.0, 20.0) {
      assert Fails(c, present, CountOutOfRange);
    } else if !InRange(c[DefaultOutputWidth], 240.0, 4096.0) {
      assert Fails(c, present, WidthOutOfRange);
    } else if !InRange(c[DefaultOutputHeight], 240.0, 4096.0) {
      assert Fails(c, present, HeightOutOfRange);
    } else if !InRange(c[DefaultQualityThreshold], 0.0, 1.0) {
      assert Fails(c, present, QualityOutOfRange);
    } else if !InRange(c[DefaultDiversityWeight], 0.0, 1.0) {
      assert Fails(c, present, DiversityOutOfRange);
    } else if !InRange(c[FaceDetectionConfidence], 0.0, 1.0) {
      assert Fails(c, present, ConfidenceOutOfRange);
    } else if !InRange(c[MinFaceSize], 0.0, 1.0) {
      assert Fails(c, present, FaceSizeOutOfRange);
    } else if !(c[LogLevel].Text? && c[LogLevel].s in LogLevels) {
      assert Fails(c, present, UnknownLogLevel);
    } else if !c[DefaultOutputDirectory].Text? {
      assert Raises(c);
    } else {
      assert Fails(c, present, OutputDirectoryMissing);
    }
  }

  /** The defaults pass validation, whatever exists on disk. */
  lemma DefaultsValid(present: string -> bool)
    ensures ConfigValid(Defaults(), present) && !Raises(Defaults())
  {
    var d := Defaults();
    assert d[LogLevel] == Text(LogLevels[1]);
  }

  /** A ranged check that raises makes validation raise and the record
      invalid. */
  lemma RaiseIsFinal(c: map<Field, Value>, present: string -> bool, e: Issue)
    requires Complete(c) && Ranged(e) && NumberOf(c[RangeOf(e).0]).None?
    ensures Raises(c) && !ConfigValid(c, present)
  {
  }

  /** When no check raises, validation succeeds exactly when nothing was
      found. */
  lemma NoRaiseFindings(c: map<Field, Value>, present: string -> bool, errors: seq<Issue>)
    requires Complete(c) && Numeric(c)
    requires var d := c[DefaultOutputDirectory]; !Truthy(d) || d.Text?
    requires forall e :: e in errors <==> Fails(c, present, e)
    ensures !Raises(c) && (errors == [] <==> ConfigValid(c, present))
    ensures errors == [] || errors[|errors| - 1] != CheckRaised
  {
    ValidIffNoFinding(c, present);
    assert !Fails(c, present, CheckRaised);
    if errors != [] {
      assert errors[|errors| - 1] in errors;
    }
  }

  // ---------------------------------------------------------------------
  // The settings file

  /** What the settings file holds: nothing, something that does not load
      as a JSON object, or an object. */
  datatype Stored = Missing | Unreadable | Parsed(data: map<string, Value>)

  /** `Config`: the record (`_config`) and the settings file at
      `config_path`. */
  class Config {
    const configPath: string
    var values: map<Field, Value>
    var file: Stored

    /** The record holds every `AppConfig` field. */
    predicate Valid()
      reads this
    {
      Complete(values)
    }

    /** `Config(config_path)`: the defaults, overlaid with the file's
        object when there is one; a missing file is created holding the
        defaults when the write succeeds; a file that does not load leaves
        the defaults. */
    constructor (configPath: string, stored: Stored, writeOk: bool)
      ensures Valid() && this.configPath == configPath
      ensures values == if stored.Parsed? then Overlay(Defaults(), stored.data) else Defaults()
      ensures file == if stored.Missing? && writeOk then Parsed(AsDict(Defaults())) else stored
    {
      this.configPath := configPath;
      values := Defaults();
      file := stored;
      new;
      if stored.Parsed? {
        ApplyLoaded(stored.data);
      } else if stored.Missing? {
        var _ := Save(writeOk);
      }
    }

    /** The loop of `_load_config`: each pair of the loaded object whose
        key names a field replaces that field's value. */
    method ApplyLoaded(data: map<string, Value>)
      requires Valid()
      modifies this`values
      ensures Valid() && values == Overlay(old(values), data)
    {
      NamesKnown();
      var keys := data.Keys;
      while keys != {}
        invariant keys <= data.Keys && Valid()
        invariant forall f :: values[f] ==
                               if Name(f) in data && Name(f) !in keys then data[Name(f)] else old(values)[f]
        decreases keys
      {
        var k :| k in keys;
        var named := FieldNamed(k);
        if named.Some? {
          values := values[named.value := data[k]];
        }
        keys := keys - {k};
      }
    }

    /** `save()`: writes the record to the file when the write succeeds
        and reports whether it did. */
    method Save(writeOk: bool) returns (saved: bool)
      modifies this`file
      ensures saved == writeOk
      ensures file == if writeOk then Parsed(AsDict(values)) else old(file)
    {
      if writeOk {
        file := Parsed(AsDict(values));
      }
      return writeOk;
    }

    /** `get(key, default)`: the value of the field the key names, or the
        caller's default for a key that names no field. */
    function Get(key: string, default: Value): (v: Value)
      requires Valid()
      reads this
      ensures forall f :: Name(f) == key ==> v == values[f]
      ensures FieldNamed(key).None? ==> v == default
    {
      NamesKnown();
      match FieldNamed(key)
      case Some(f) => values[f]
      case None => default
    }

    /** `set(key, value, save_immediately)`: a key that names no field is
        refused and nothing changes; a field takes the value whatever its
        type, and the record is saved only when both save_immediately and
        the (new) auto_save_settings are set, the result then being the
        save's. */
    method Set(key: string, value: Value, saveImmediately: bool, writeOk: bool) returns (r: bool)
      requires Valid()
      modifies this
      ensures Valid()
      ensures FieldNamed(key).None? ==> !r && values == old(values) && file == old(file)
      ensures FieldNamed(key).Some? ==>
                values == old(values)[FieldNamed(key).value := value] && Get(key, Null) == value
      ensures FieldNamed(key).Some? ==>
                var saving := saveImmediately && Truthy(values[AutoSaveSettings]);
                r == (!saving || writeOk)
                && file == if saving && writeOk then Parsed(AsDict(values)) else old(file)
    {
      match FieldNamed(key)
      case None =>
        return false;
      case Some(f) =>
        values := values[f := value];
        if saveImmediately && Truthy(values[AutoSaveSettings]) {
          r := Save(writeOk);
          return;
        }
        return true;
    }

    /** `get_all()`: the record as a dictionary keyed by field name. */
    function GetAll(): (all: map<string, Value>)
      requires Valid()
      reads this
      ensures forall k :: k in all <==> FieldNamed(k).Some?
      ensures forall f :: Name(f) in all && all[Name(f)] == values[f]
    {
      NamesKnown();
      AsDict(values)
    }

    /** `reset_to_defaults()`: every field back to its default, then saved;
        the result is the save's. */
    method ResetToDefaults(writeOk: bool) returns (r: bool)
      modifies this
      ensures Valid() && values == Defaults()
      ensures r == writeOk && file == if writeOk then Parsed(AsDict(Defaults())) else old(file)
    {
      values := Defaults();
      r := Save(writeOk);
    }

    /** One ranged check of `validate_config`: a field that does not
        compare as a number raises and the raise's message is appended;
        otherwise the finding is appended when the field is out of range.
        `errors` holds the findings of the ranged checks before this one. */
    method CheckRange(e: Issue, present: string -> bool, errors: seq<Issue>)
      returns (raised: bool, errors': seq<Issue>)
      requires Valid() && Ranged(e) && Order(e) < |RangeChecks|
      requires errors == RangeFindings(values, present, Order(e))
      ensures raised <==> NumberOf(values[RangeOf(e).0]).None?
      ensures raised ==> errors' == errors + [CheckRaised]
      ensures !raised ==> errors' == RangeFindings(values, present, Order(e) + 1)
    {
      RangeChecksOrdered();
      var (field, lo, hi) := RangeOf(e);
      var n := NumberOf(values[field]);
      if n.None? {
        return true, errors + [CheckRaised];
      }
      if !(lo <= n.value <= hi) {
        return false, errors + [e];
      }
      return false, errors;
    }

    /** `validate_config()`: the checks in order, each appending its
        finding; a check that raises ends validation with the findings so
        far and the raise's message. The result is (no findings, findings);
        `present` says which paths exist. */
    method ValidateConfig(present: string -> bool) returns (ok: bool, errors: seq<Issue>)
      requires Valid()
      ensures ok <==> errors == []
      ensures ok <==> ConfigValid(values, present)
      ensures Raises(values) <==> errors != [] && errors[|errors| - 1] == CheckRaised
      ensures !Raises(values) ==> forall e :: e in errors <==> Fails(values, present, e)
    {
      var raised;
      raised, errors := CheckRanges(present);
      if raised {
        return false, errors;
      }
      ok, errors := CheckPaths(present, errors);
    }

    /** The ranged checks of `validate_config`, in order; the first that
        raises ends them. */
    method CheckRanges(present: string -> bool) returns (raised: bool, errors: seq<Issue>)
      requires Valid()
      ensures raised <==> !Numeric(values)
      ensures raised ==> errors != [] && errors[|errors| - 1] == CheckRaised
      ensures !raised ==> forall e :: e in errors <==> Ranged(e) && Fails(values, present, e)
    {
      errors := [];
      raised, errors := CheckRange(CountOutOfRange, present, errors);
      if raised { return; }
      raised, errors := CheckRange(WidthOutOfRange, present, errors);
      if raised { return; }
      raised, errors := CheckRange(HeightOutOfRange, present, errors);
      if raised { return; }
      raised, errors := CheckRange(QualityOutOfRange, present, errors);
      if raised { return; }
      raised, errors := CheckRange(DiversityOutOfRange, present, errors);
      if raised { return; }
      raised, errors := CheckRange(ConfidenceOutOfRange, present, errors);
      if raised { return; }
      raised, errors := CheckRange(FaceSizeOutOfRange, present, errors);
      if raised { return; }
      RangeFindingsMembers(values, present, |RangeChecks|);
    }

    /** The checks of `validate_config` after the ranged ones: a non-empty
        output directory must exist (a value that is not a path raises),
        and the log level must be one of the five names. `errors` holds the
        findings of the ranged checks. */
    method CheckPaths(present: string -> bool, errors: seq<Issue>)
      returns (ok: bool, errors': seq<Issue>)
      requires Valid() && Numeric(values)
      requires forall e :: e in errors <==> Ranged(e) && Fails(values, present, e)
      ensures ok <==> errors' == []
      ensures ok <==> ConfigValid(values, present)
      ensures Raises(values) <==> errors' != [] && errors'[|errors'| - 1] == CheckRaised
      ensures !Raises(values) ==> forall e :: e in errors' <==> Fails(values, present, e)
    {
      errors' := errors;
      var dir := values[DefaultOutputDirectory];
      if Truthy(dir) {
        if !dir.Text? {
          ValidIffNoFinding(values, present);
          return false, errors' + [CheckRaised];
        }
        if !present(dir.s) {
          errors' := errors' + [OutputDirectoryMissing];
        }
      }
      var level := values[LogLevel];
      if !(level.Text? && level.s in LogLevels) {
        errors' := errors' + [UnknownLogLevel];
      }
      NoRaiseFindings(values, present, errors');
      return errors' == [], errors';
    }
  }
}
