// The exception hierarchy of the extractor, the default code/message
// mapping of its base class, and the helpers that turn an exception into a
// log record or a user-facing text.

module Errors {

  datatype Option<T> = None | Some(value: T)

  /** The value of a computation that either returns or raises. */
  datatype Result<T> = Ok(value: T) | Err(error: ErrorKind)
  {
    predicate IsFailure() { Err? }
    function PropagateFailure<U>(): Result<U> requires Err? { Err(error) }
    function Extract(): T requires Ok? { value }
  }

  /** Every exception class the core raises: the custom hierarchy first,
      then the Python built-ins it raises directly and the error OpenCV
      raises (`cv2.error`, outside both hierarchies). */
  datatype ErrorKind =
    | ThumbnailExtractionError
    // video
    | VideoProcessingError | InvalidVideoFormatError | CorruptedVideoError
    | UnsupportedCodecError | InsufficientMemoryError | VideoTooShortError
    | VideoTooLargeError
    // face detection
    | FaceDetectionError | NoFacesDetectedError | InvalidFrameError
    | BatchProcessingError | InvalidFaceDataError | InvalidConfidenceError
    | InvalidSizeRatioError | LandmarkExtractionError
    // thumbnail generation
    | ThumbnailGenerationError | InsufficientFramesError | InvalidSettingsError
    | DiversityCalculationError | InvalidCountError | InvalidWeightError
    | InvalidResolutionError | ImageResizeError | InvalidDimensionsError
    | InvalidOrientationError | CropError
    // files
    | FileSaveError | BatchSaveError | DirectoryError | DiskSpaceError
    | FilePermissionError
    // jobs
    | JobCreationError | JobExecutionError | JobCancellationError | JobTimeoutError
    // GUI
    | GUIError | GUIInitializationError | GUICleanupError | InvalidVideoError
    | InvalidProgressError | ThumbnailDisplayError | SelectionError | DialogError
    | SettingsDialogError | ValidationError | GridDisplayError
    // settings and validation
    | InvalidThresholdError | InvalidFrameDataError
    // Python built-ins, and OpenCV's `cv2.error`
    | ValueError | TypeError | AttributeError | FileNotFoundError
    | ZeroDivisionError | MemoryError | OSError | IndexError | CvError

  /** A class outside the custom hierarchy. */
  predicate IsBuiltin(k: ErrorKind)
  {
    k.ValueError? || k.TypeError? || k.AttributeError? || k.FileNotFoundError?
    || k.ZeroDivisionError? || k.MemoryError? || k.OSError? || k.IndexError?
    || k.CvError?
  }

  /** The class itself followed by its base classes up to the root of the
      custom hierarchy (a built-in has only itself). */
  function Lineage(k: ErrorKind): (l: seq<ErrorKind>)
    ensures |l| >= 1 && l[0] == k
  {
    match k
    case ThumbnailExtractionError => [k]
    case VideoProcessingError | FaceDetectionError | ThumbnailGenerationError
      | FileSaveError | DirectoryError | JobCreationError | JobExecutionError
      | JobCancellationError | GUIError | ValidationError
      | InvalidThresholdError | InvalidFrameDataError => [k, ThumbnailExtractionError]
    case InvalidVideoFormatError | CorruptedVideoError | UnsupportedCodecError
      | InsufficientMemoryError | VideoTooShortError | VideoTooLargeError =>
      [k, VideoProcessingError, ThumbnailExtractionError]
    case NoFacesDetectedError | InvalidFrameError | BatchProcessingError
      | InvalidFaceDataError | InvalidConfidenceError | InvalidSizeRatioError
      | LandmarkExtractionError => [k, FaceDetectionError, ThumbnailExtractionError]
    case InsufficientFramesError | InvalidSettingsError | DiversityCalculationError
      | InvalidCountError | InvalidWeightError | InvalidResolutionError
      | ImageResizeError | InvalidDimensionsError | InvalidOrientationError
      | CropError => [k, ThumbnailGenerationError, ThumbnailExtractionError]
    case BatchSaveError | DiskSpaceError | FilePermissionError =>
      [k, FileSaveError, ThumbnailExtractionError]
    case JobTimeoutError => [k, JobExecutionError, ThumbnailExtractionError]
    case GUIInitializationError | GUICleanupError | InvalidVideoError
      | InvalidProgressError | ThumbnailDisplayError | SelectionError
      | DialogError | GridDisplayError => [k, GUIError, ThumbnailExtractionError]
    case SettingsDialogError => [k, DialogError, GUIError, ThumbnailExtractionError]
    case ValueError | TypeError | AttributeError | FileNotFoundError
      | ZeroDivisionError | MemoryError | OSError | IndexError | CvError => [k]
  }

  /** `isinstance(error, ancestor)` restricted to the classes above. */
  predicate IsA(k: ErrorKind, ancestor: ErrorKind)
  {
    ancestor in Lineage(k)
  }

  /** A class of the extractor's own hierarchy. */
  predicate IsDomain(k: ErrorKind)
  {
    IsA(k, ThumbnailExtractionError)
  }

  /** Every class that is not a built-in descends from the base class, and no
      built-in does. */
  lemma DomainIffNotBuiltin(k: ErrorKind)
    ensures IsDomain(k) <==> !IsBuiltin(k)
  {
  }

  /** The three disk-related failures are file-save failures. */
  lemma SaveFailuresAreFileSaveErrors()
    ensures IsA(BatchSaveError, FileSaveError)
    ensures IsA(DiskSpaceError, FileSaveError)
    ensures IsA(FilePermissionError, FileSaveError)
    ensures !IsA(DirectoryError, FileSaveError)
  {
  }

  /** `type(e).__name__`. */
  function ClassName(k: ErrorKind): string
  {
    match k
    case ThumbnailExtractionError => "ThumbnailExtractionError"
    case VideoProcessingError => "VideoProcessingError"
    case InvalidVideoFormatError => "InvalidVideoFormatError"
    case CorruptedVideoError => "CorruptedVideoError"
    case UnsupportedCodecError => "UnsupportedCodecError"
    case InsufficientMemoryError => "InsufficientMemoryError"
    case VideoTooShortError => "VideoTooShortError"
    case VideoTooLargeError => "VideoTooLargeError"
    case FaceDetectionError => "FaceDetectionError"
    case NoFacesDetectedError => "NoFacesDetectedError"
    case InvalidFrameError => "InvalidFrameError"
    case BatchProcessingError => "BatchProcessingError"
    case InvalidFaceDataError => "InvalidFaceDataError"
    case InvalidConfidenceError => "InvalidConfidenceError"
    case InvalidSizeRatioError => "InvalidSizeRatioError"
    case LandmarkExtractionError => "LandmarkExtractionError"
    case ThumbnailGenerationError => "ThumbnailGenerationError"
    case InsufficientFramesError => "InsufficientFramesError"
    case InvalidSettingsError => "InvalidSettingsError"
    case DiversityCalculationError => "DiversityCalculationError"
    case InvalidCountError => "InvalidCountError"
    case InvalidWeightError => "InvalidWeightError"
    case InvalidResolutionError => "InvalidResolutionError"
    case ImageResizeError => "ImageResizeError"
    case InvalidDimensionsError => "InvalidDimensionsError"
    case InvalidOrientationError => "InvalidOrientationError"
    case CropError => "CropError"
    case FileSaveError => "FileSaveError"
    case BatchSaveError => "BatchSaveError"
    case DirectoryError => "DirectoryError"
    case DiskSpaceError => "DiskSpaceError"
    case FilePermissionError => "FilePermissionError"
    case JobCreationError => "JobCreationError"
    case JobExecutionError => "JobExecutionError"
    case JobCancellationError => "JobCancellationError"
    case JobTimeoutError => "JobTimeoutError"
    case GUIError => "GUIError"
    case GUIInitializationError => "GUIInitializationError"
    case GUICleanupError => "GUICleanupError"
    case InvalidVideoError => "InvalidVideoError"
    case InvalidProgressError => "InvalidProgressError"
    case ThumbnailDisplayError => "ThumbnailDisplayError"
    case SelectionError => "SelectionError"
    case DialogError => "DialogError"
    case SettingsDialogError => "SettingsDialogError"
    case ValidationError => "ValidationError"
    case GridDisplayError => "GridDisplayError"
    case InvalidThresholdError => "InvalidThresholdError"
    case InvalidFrameDataError => "InvalidFrameDataError"
    case ValueError => "ValueError"
    case TypeError => "TypeError"
    case AttributeError => "AttributeError"
    case FileNotFoundError => "FileNotFoundError"
    case ZeroDivisionError => "ZeroDivisionError"
    case MemoryError => "MemoryError"
    case OSError => "OSError"
    case IndexError => "IndexError"
    case CvError => "error"
  }

  /** The text `_generate_user_message` gives for each custom class. */
  function DefaultUserMessage(k: ErrorKind): string
  {
    match k
    case VideoProcessingError => "動画ファイルの処理中にエラーが発生しました。ファイルが破損していないか確認してください。"
    case InvalidVideoFormatError => "この動画形式はサポートされていません。MP4形式の動画ファイルをご使用ください。"
    case CorruptedVideoError => "動画ファイルが破損している可能性があります。別の動画ファイルをお試しください。"
    case UnsupportedCodecError => "この動画のコーデックはサポートされていません。一般的なMP4形式で再エンコードしてください。"
    case InsufficientMemoryError => "メモリが不足しています。他のアプリケーションを終了するか、より小さな動画ファイルをお試しください。"
    case VideoTooShortError => "動画が短すぎます（最低10秒必要）。より長い動画をご使用ください。"
    case VideoTooLargeError => "動画ファイルが大きすぎます（最大2GB）。より小さなファイルをご使用ください。"
    case FaceDetectionError => "顔検出中にエラーが発生しました。"
    case NoFacesDetectedError => "この動画からキャラクターの顔を検出できませんでした。顔が写っている動画をご使用ください。"
    case InvalidFrameError => "動画フレームが無効です。動画ファイルが正しく読み込まれていない可能性があります。"
    case BatchProcessingError => "複数フレームの顔検出中にエラーが発生しました。"
    case InvalidFaceDataError => "顔検出データが無効です。"
    case InvalidConfidenceError => "顔検出の信頼度設定が無効です。0.0から1.0の範囲で設定してください。"
    case InvalidSizeRatioError => "顔サイズの比率設定が無効です。0.0から1.0の範囲で設定してください。"
    case LandmarkExtractionError => "顔のランドマーク抽出中にエラーが発生しました。"
    case ThumbnailGenerationError => "サムネイル生成中にエラーが発生しました。"
    case InsufficientFramesError => "サムネイル生成に十分なフレームがありません。より長い動画を使用するか、抽出枚数を減らしてください。"
    case InvalidSettingsError => "サムネイル生成の設定が無効です。設定内容を確認してください。"
    case DiversityCalculationError => "フレーム多様性の計算中にエラーが発生しました。"
    case InvalidCountError => "サムネイル生成枚数が無効です。1以上の数値を設定してください。"
    case InvalidWeightError => "多様性の重み設定が無効です。0.0から1.0の範囲で設定してください。"
    case InvalidResolutionError => "サムネイルの解像度設定が無効です。240p以上4K以下の解像度を設定してください。"
    case ImageResizeError => "画像のリサイズ中にエラーが発生しました。"
    case InvalidDimensionsError => "画像の寸法が無効です。正の値を設定してください。"
    case InvalidOrientationError => "サムネイルの向き設定が無効です。'landscape'、'portrait'、または'auto'を選択してください。"
    case CropError => "画像の切り抜き中にエラーが発生しました。"
    case FileSaveError => "ファイルの保存中にエラーが発生しました。保存先フォルダの書き込み権限を確認してください。"
    case BatchSaveError => "複数ファイルの保存中にエラーが発生しました。ディスク容量と書き込み権限を確認してください。"
    case DirectoryError => "指定されたフォルダにアクセスできません。フォルダが存在し、書き込み権限があることを確認してください。"
    case DiskSpaceError => "ディスク容量が不足しています。空き容量を確保してから再度お試しください。"
    case FilePermissionError => "ファイルへの書き込み権限がありません。管理者権限で実行するか、別のフォルダを選択してください。"
    case JobCreationError => "処理ジョブの作成中にエラーが発生しました。設定内容を確認してください。"
    case JobExecutionError => "処理の実行中にエラーが発生しました。"
    case JobCancellationError => "処理のキャンセル中にエラーが発生しました。"
    case JobTimeoutError => "処理がタイムアウトしました。より小さな動画ファイルを使用するか、サムネイル枚数を減らしてください。"
    case GUIError => "アプリケーションの表示中にエラーが発生しました。"
    case GUIInitializationError => "アプリケーションの初期化中にエラーが発生しました。アプリケーションを再起動してください。"
    case GUICleanupError => "アプリケーションの終了処理中にエラーが発生しました。"
    case InvalidVideoError => "選択された動画ファイルが無効です。正しいMP4ファイルを選択してください。"
    case InvalidProgressError => "進捗情報が無効です。"
    case ThumbnailDisplayError => "サムネイルの表示中にエラーが発生しました。"
    case SelectionError => "サムネイルの選択中にエラーが発生しました。"
    case DialogError => "ダイアログの表示中にエラーが発生しました。"
    case SettingsDialogError => "設定ダイアログの表示中にエラーが発生しました。"
    case ValidationError => "入力内容に誤りがあります。設定を確認してください。"
    case GridDisplayError => "グリッド表示中にエラーが発生しました。"
    case InvalidThresholdError => "閾値の設定が無効です。0.0から1.0の範囲で設定してください。"
    case InvalidFrameDataError => "フレームデータが無効です。動画ファイルを確認してください。"
    case _ => BaseUserMessage
  }

  const BaseUserMessage: string := "処理中にエラーが発生しました。しばらく経ってから再度お試しください。"
  const UnexpectedUserMessage: string := "システムエラーが発生しました。管理者にお問い合わせください。"
  const GenericUserText: string := "予期しないエラーが発生しました。アプリケーションを再起動してお試しください。"

  /** A value stored in an error's `details` dictionary or a log record. */
  datatype Value = Str(s: string) | Dict(entries: map<string, Value>)

  /** An instance of a custom exception class. */
  datatype DomainError = DomainError(
    kind: ErrorKind,
    message: string,
    errorCode: string,
    details: map<string, Value>,
    userMessage: string)

  /** Any exception that reaches the helpers: a custom one, or a built-in
      carrying only its `str()` text. */
  datatype Exception = Domain(err: DomainError) | Builtin(kind: ErrorKind, text: string)

  /** `ThumbnailExtractionError.__init__` (shared by every subclass): a
      missing or empty code, details or user message falls back to the class
      name, an empty dictionary and the class's default text. */
  function NewError(kind: ErrorKind, message: string, errorCode: Option<string>,
                    details: Option<map<string, Value>>, userMessage: Option<string>): (e: DomainError)
    requires IsDomain(kind)
    ensures e.kind == kind && e.message == message
    ensures errorCode.None? || errorCode.value == "" ==> e.errorCode == ClassName(kind)
    ensures errorCode.Some? && errorCode.value != "" ==> e.errorCode == errorCode.value
    ensures details.None? ==> e.details == map[]
    ensures details.Some? ==> e.details == details.value
    ensures userMessage.None? || userMessage.value == "" ==> e.userMessage == DefaultUserMessage(kind)
    ensures userMessage.Some? && userMessage.value != "" ==> e.userMessage == userMessage.value
  {
    DomainError(
      kind, message,
      if errorCode.Some? && errorCode.value != "" then errorCode.value else ClassName(kind),
      if details.Some? && details.value != map[] then details.value else map[],
      if userMessage.Some? && userMessage.value != "" then userMessage.value else DefaultUserMessage(kind))
  }

  /** `to_dict`: exactly four keys mirroring the fields. */
  function ToDict(e: DomainError): (d: map<string, Value>)
    ensures d.Keys == {"error_code", "message", "user_message", "details"}
    ensures d["error_code"] == Str(e.errorCode) && d["message"] == Str(e.message)
    ensures d["user_message"] == Str(e.userMessage) && d["details"] == Dict(e.details)
  {
    map["error_code" := Str(e.errorCode), "message" := Str(e.message),
        "user_message" := Str(e.userMessage), "details" := Dict(e.details)]
  }

  /** `str(error)`: the message for a custom error, the text otherwise. */
  function Text(x: Exception): string
  {
    match x
    case Domain(e) => e.message
    case Builtin(_, t) => t
  }

  function TypeName(x: Exception): string
  {
    match x
    case Domain(e) => ClassName(e.kind)
    case Builtin(k, _) => ClassName(k)
  }

  /** `handle_error`: the log record of an exception. */
  function HandleError(x: Exception, context: Option<string>): (d: map<string, Value>)
    ensures {"error_code", "message", "user_message", "details"} <= d.Keys
    ensures d.Keys <= {"error_code", "message", "user_message", "details", "context"}
    ensures x.Domain? ==> d["error_code"] == Str(x.err.errorCode) && d["message"] == Str(x.err.message)
    ensures x.Domain? ==> d["user_message"] == Str(x.err.userMessage) && d["details"] == Dict(x.err.details)
    ensures x.Builtin? ==> d["error_code"] == Str("UnexpectedError") && d["message"] == Str(x.text)
    ensures x.Builtin? ==> d["user_message"] == Str(UnexpectedUserMessage)
    ensures x.Builtin? ==> d["details"] == Dict(map["error_type" := Str(ClassName(x.kind))])
    ensures ("context" in d) <==> (context.Some? && context.value != "")
    ensures "context" in d ==> d["context"] == Str(context.value)
  {
    var info := match x
      case Domain(e) => ToDict(e)
      case Builtin(k, t) =>
        map["error_code" := Str("UnexpectedError"), "message" := Str(t),
            "user_message" := Str(UnexpectedUserMessage),
            "details" := Dict(map["error_type" := Str(ClassName(k))])];
    if context.Some? && context.value != "" then info["context" := Str(context.value)] else info
  }

  /** `create_user_friendly_error`: a base-class error that keeps the original
      exception's type and text under `details["original_error"]`. */
  function UserFriendlyError(original: Exception, userMessage: string, errorCode: Option<string>,
                             details: Option<map<string, Value>>): (e: DomainError)
    ensures e.kind == ThumbnailExtractionError && e.message == Text(original)
    ensures errorCode.None? || errorCode.value == "" ==> e.errorCode == "GeneralError"
    ensures errorCode.Some? && errorCode.value != "" ==> e.errorCode == errorCode.value
    ensures "original_error" in e.details
    ensures e.details["original_error"]
            == Dict(map["type" := Str(TypeName(original)), "message" := Str(Text(original))])
    ensures details.Some? ==> forall key :: key in details.value && key != "original_error" ==>
              key in e.details && e.details[key] == details.value[key]
    ensures e.details.Keys == (if details.Some? then details.value.Keys else {}) + {"original_error"}
    ensures userMessage != "" ==> e.userMessage == userMessage
    ensures userMessage == "" ==> e.userMessage == DefaultUserMessage(ThumbnailExtractionError)
  {
    var base := if details.Some? then details.value else map[];
    var withOriginal := base["original_error" :=
      Dict(map["type" := Str(TypeName(original)), "message" := Str(Text(original))])];
    var code := if errorCode.Some? && errorCode.value != "" then errorCode.value else "GeneralError";
    NewError(ThumbnailExtractionError, Text(original), Some(code), Some(withOriginal), Some(userMessage))
  }

  /** `format_error_for_user`. */
  function UserText(x: Exception): (s: string)
    ensures x.Domain? ==> s == x.err.userMessage
    ensures x.Builtin? ==> s == GenericUserText
  {
    match x
    case Domain(e) => e.userMessage
    case Builtin(_, _) => GenericUserText
  }

  /** `format_error_for_log`: "[code] message" built from the log record. */
  function LogLine(x: Exception, context: Option<string>): (s: string)
    ensures x.Domain? ==> s == "[" + x.err.errorCode + "] " + x.err.message
    ensures x.Builtin? ==> s == "[UnexpectedError] " + x.text
  {
    var info := HandleError(x, context);
    var code := info["error_code"];
    var msg := info["message"];
    "[" + (if code.Str? then code.s else "") + "] " + (if msg.Str? then msg.s else "")
  }
}
