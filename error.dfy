/**
 * `src/error.rs`: native status codes become `Ok(())` or an `Error` carrying its kind, a
 * message and, when asked for, the SDK's last-error record; Rust-side failures get the
 * kind `Rust`.
 */
module Errors {
  import opened Prelude
  import opened Native
  import opened Decimal
  import opened Fmt
  import opened WideString

  datatype ErrorType =
    | Success | NoImpl | WrongUsage | InvalidParameter | ModuleLoadFailed | MemoryFailed
    | ServiceFailed | Uninitialized | Unauthorized | NoRecordingInProgress | TranscoderNotFound
    | VideoNotReady | NoPermission | Unknown | OtherSdkInstanceRunning | InternalError
    | NoAudioDeviceIsFound | NoVideoDeviceIsFound | TooFrequentCall | FailAssignUserPrivilege
    | MeetingNotSupportedFeature | MeetingNotShareSender | MeetingYouHaveNoShare
    | MeetingViewTypeParameterIsWrong | MeetingAnnotationIsOff | SettingOsNotSupported
    | EmailLoginIsDisabled | HardwareNotMetForVb | Undocumented | Rust

  /** The position of a kind in the declaration of `ErrorType`. */
  function KindOrdinal(t: ErrorType): nat {
    match t
    case Success => 0
    case NoImpl => 1
    case WrongUsage => 2
    case InvalidParameter => 3
    case ModuleLoadFailed => 4
    case MemoryFailed => 5
    case ServiceFailed => 6
    case Uninitialized => 7
    case Unauthorized => 8
    case NoRecordingInProgress => 9
    case TranscoderNotFound => 10
    case VideoNotReady => 11
    case NoPermission => 12
    case Unknown => 13
    case OtherSdkInstanceRunning => 14
    case InternalError => 15
    case NoAudioDeviceIsFound => 16
    case NoVideoDeviceIsFound => 17
    case TooFrequentCall => 18
    case FailAssignUserPrivilege => 19
    case MeetingNotSupportedFeature => 20
    case MeetingNotShareSender => 21
    case MeetingYouHaveNoShare => 22
    case MeetingViewTypeParameterIsWrong => 23
    case MeetingAnnotationIsOff => 24
    case SettingOsNotSupported => 25
    case EmailLoginIsDisabled => 26
    case HardwareNotMetForVb => 27
    case Undocumented => 28
    case Rust => 29
  }

  /**
   * The kind declared at position `i`, the inverse of `KindOrdinal`. The first 28 are the kinds
   * of the named arms of `map_err_type`, position for position with `SdkErrorTable`.
   */
  function KindAt(i: nat): (t: ErrorType)
    requires i < 30
    ensures KindOrdinal(t) == i
  {
    if i < 15 then KindAtLow(i) else KindAtHigh(i)
  }

  function KindAtLow(i: nat): (t: ErrorType)
    requires i < 15
    ensures KindOrdinal(t) == i
  {
    match i
    case 0 => Success
    case 1 => NoImpl
    case 2 => WrongUsage
    case 3 => InvalidParameter
    case 4 => ModuleLoadFailed
    case 5 => MemoryFailed
    case 6 => ServiceFailed
    case 7 => Uninitialized
    case 8 => Unauthorized
    case 9 => NoRecordingInProgress
    case 10 => TranscoderNotFound
    case 11 => VideoNotReady
    case 12 => NoPermission
    case 13 => Unknown
    case _ => OtherSdkInstanceRunning
  }

  function KindAtHigh(i: nat): (t: ErrorType)
    requires 15 <= i < 30
    ensures KindOrdinal(t) == i
  {
    match i
    case 15 => InternalError
    case 16 => NoAudioDeviceIsFound
    case 17 => NoVideoDeviceIsFound
    case 18 => TooFrequentCall
    case 19 => FailAssignUserPrivilege
    case 20 => MeetingNotSupportedFeature
    case 21 => MeetingNotShareSender
    case 22 => MeetingYouHaveNoShare
    case 23 => MeetingViewTypeParameterIsWrong
    case 24 => MeetingAnnotationIsOff
    case 25 => SettingOsNotSupported
    case 26 => EmailLoginIsDisabled
    case 27 => HardwareNotMetForVb
    case 28 => Undocumented
    case _ => Rust
  }

  /** The message of each named arm, in the same order. */
  const NamedErrorMessages: seq<string> := [
    "Success",
    "This feature is currently invalid",
    "Incorrect usage of the feature",
    "Wrong parameter",
    "Loading module failed",
    "No memory is allocated",
    "Internal service error",
    "Not initialized before the usage",
    "Not authorized before the usage",
    "No recording in process",
    "Transcoder module is not found",
    "The video service is not ready",
    "No permission",
    "Unknown error",
    "The other instance of the SDK is in process",
    "SDK internal error",
    "No audio device found",
    "No video device found",
    "API calls too frequently",
    "<User can't be assigned with new privilege",
    "The current meeting doesn't support the feature",
    "The current user is not the presenter",
    "There is no sharing",
    "Incorrect ViewType parameters",
    "Annotation is disabled",
    "Current OS doesn't support the setting",
    "Email login is disabled",
    "Computer doesn't meet the minimum requirements to use virtual background feature"]

  /** `#[derive(Debug)]` on `ErrorType`: the variant's name. */
  function ErrorTypeName(t: ErrorType): string {
    match t
    case Success => "Success"
    case NoImpl => "NoImpl"
    case WrongUsage => "WrongUsage"
    case InvalidParameter => "InvalidParameter"
    case ModuleLoadFailed => "ModuleLoadFailed"
    case MemoryFailed => "MemoryFailed"
    case ServiceFailed => "ServiceFailed"
    case Uninitialized => "Uninitialized"
    case Unauthorized => "Unauthorized"
    case NoRecordingInProgress => "NoRecordingInProgress"
    case TranscoderNotFound => "TranscoderNotFound"
    case VideoNotReady => "VideoNotReady"
    case NoPermission => "NoPermission"
    case Unknown => "Unknown"
    case OtherSdkInstanceRunning => "OtherSdkInstanceRunning"
    case InternalError => "InternalError"
    case NoAudioDeviceIsFound => "NoAudioDeviceIsFound"
    case NoVideoDeviceIsFound => "NoVideoDeviceIsFound"
    case TooFrequentCall => "TooFrequentCall"
    case FailAssignUserPrivilege => "FailAssignUserPrivilege"
    case MeetingNotSupportedFeature => "MeetingNotSupportedFeature"
    case MeetingNotShareSender => "MeetingNotShareSender"
    case MeetingYouHaveNoShare => "MeetingYouHaveNoShare"
    case MeetingViewTypeParameterIsWrong => "MeetingViewTypeParameterIsWrong"
    case MeetingAnnotationIsOff => "MeetingAnnotationIsOff"
    case SettingOsNotSupported => "SettingOsNotSupported"
    case EmailLoginIsDisabled => "EmailLoginIsDisabled"
    case HardwareNotMetForVb => "HardwareNotMetForVb"
    case Undocumented => "Undocumented"
    case Rust => "Rust"
  }

  datatype ErrorDetail = ErrorDetail(category: string, code: u64, description: string)

  datatype Error = Error(errType: ErrorType, message: string, detail: Option<ErrorDetail>)

  /** A call that either returns or panics; every panic here is an `unwrap` of an `Error`. */
  datatype Completion<+T> = Normal(value: T) | Panic(cause: Error)

  /** `Result::unwrap` */
  function Unwrap<T>(r: Result<T, Error>): (c: Completion<T>)
    ensures c.Normal? <==> r.Ok?
    ensures r.Ok? ==> c.value == r.value
    ensures r.Err? ==> c.cause == r.error
  {
    match r
    case Ok(v) => Normal(v)
    case Err(e) => Panic(e)
  }

  const UndocumentedPrefix := "Undocumented SDKError "

  /** `map_err_type`: the first arm whose constant equals `code`, else `Undocumented`. */
  function MapErrType(codes: SdkErrorTable, code: i32): (r: (ErrorType, string))
    ensures r.0 != Rust
    ensures r.0 == Undocumented <==> code !in codes
    ensures r.0 == Success <==> code == codes[0]
    ensures code !in codes ==> r.1 == UndocumentedPrefix + IntToDecimal(code as int)
  {
    if code in codes then
      var i := IndexOf(codes, code);
      (KindAt(i), NamedErrorMessages[i])
    else
      (Undocumented, UndocumentedPrefix + IntToDecimal(code as int))
  }

  /** `get_last_error`'s category `match` on the last-error type. */
  const LastErrorCategories: seq<string> := [
    "No error",
    "Auth (verification)",
    "Login",
    "Meeting (associated error)",
    "System (associated error with SDK bottom layer)"]

  const UnknownCategory := "Unknown LastErrorType"

  function LastErrorCategory(types: LastErrorTypeTable, errorType: i32): (category: string)
    ensures category == UnknownCategory <==> errorType !in types
  {
    if errorType in types then LastErrorCategories[IndexOf(types, errorType)] else UnknownCategory
  }

  /**
   * `get_last_error`, given what `ZOOMSDK_GetZoomLastError` points at (`None` for null):
   * the category, the code as is, and the description read as a wide string.
   */
  function GetLastError(k: Consts, last: Option<LastErrorRecord>): (d: Option<ErrorDetail>)
    ensures d.Some? <==> last.Some?
    ensures d.Some? ==> d.value.code == last.value.code
    ensures d.Some? ==> d.value.category == LastErrorCategory(k.lastErrorTypes, last.value.errorType)
    ensures d.Some? ==> d.value.description == U16ToString(last.value.description)
  {
    match last
    case None => None
    case Some(rec) =>
      Some(ErrorDetail(LastErrorCategory(k.lastErrorTypes, rec.errorType), rec.code, U16ToString(rec.description)))
  }

  /** `Error::new`: the mapped kind and message, and the last error only when asked for. */
  function NewError(k: Consts, code: i32, withDetail: bool, last: Option<LastErrorRecord>): (e: Error)
    ensures e.errType != Rust
    ensures (e.errType, e.message) == MapErrType(k.sdkErrors, code)
    ensures !withDetail ==> e.detail == None
    ensures withDetail ==> e.detail == GetLastError(k, last)
  {
    var (errType, message) := MapErrType(k.sdkErrors, code);
    Error(errType, message, if withDetail then GetLastError(k, last) else None)
  }

  /** `Error::new_rust` */
  function NewRust(message: string): (e: Error)
    ensures e.errType == Rust && e.message == message && e.detail == None
  {
    Error(Rust, message, None)
  }

  /** `err_wrap` on a native status. */
  function ErrWrap(k: Consts, status: i32, withDetail: bool, last: Option<LastErrorRecord>): (r: Result<(), Error>)
    ensures r.Ok? <==> status == k.Success()
    ensures r.Err? ==> r.error == NewError(k, status, withDetail, last)
    ensures r.Err? ==> r.error.errType != Success && r.error.errType != Rust
  {
    if status == k.Success() then Ok(()) else Err(NewError(k, status, withDetail, last))
  }

  /** `Debug` of `ErrorDetail` (derived). */
  function DetailDebug(d: ErrorDetail): string {
    DebugStruct("ErrorDetail", [
      ("category", DebugStr(d.category)),
      ("code", NatToDecimal(d.code as nat)),
      ("description", DebugStr(d.description))])
  }

  /** `impl Display for Error` */
  function Display(e: Error): string {
    DebugStruct("zoom_sdk::Error",
      [("type", ErrorTypeName(e.errType)), ("message", DebugStr(e.message))]
      + match e.detail
        case Some(d) => [("detail", DetailDebug(d))]
        case None => [])
  }

  // ---- Lemmas ----

  /** Each named constant maps to its own kind and message, given distinct constants. */
  lemma MapErrTypeNamed(codes: SdkErrorTable, i: nat)
    requires Pairwise(codes) && i < |codes|
    ensures MapErrType(codes, codes[i]) == (KindAt(i), NamedErrorMessages[i])
  {
    IndexOfDistinct(codes, i);
  }

  /** The named kinds are all different, and none of them is `Undocumented` or `Rust`. */
  lemma NamedErrorTypesDistinct(i: nat, j: nat)
    requires i < j < 28
    ensures KindAt(i) != KindAt(j)
    ensures KindAt(i) != Undocumented && KindAt(i) != Rust
  {
  }

  /** Distinct constants give distinct kinds: the mapping loses no information on named codes. */
  lemma MapErrTypeInjective(codes: SdkErrorTable, a: i32, b: i32)
    requires Pairwise(codes) && a in codes && b in codes && a != b
    ensures MapErrType(codes, a).0 != MapErrType(codes, b).0
  {
    var i, j := IndexOf(codes, a), IndexOf(codes, b);
    if i < j {
      NamedErrorTypesDistinct(i, j);
    } else {
      NamedErrorTypesDistinct(j, i);
    }
  }

  /** An undocumented code can be read back from its message. */
  lemma UndocumentedCodeRecoverable(codes: SdkErrorTable, code: i32)
    requires code !in codes
    ensures var m := MapErrType(codes, code).1;
      |m| > |UndocumentedPrefix| && m[..|UndocumentedPrefix|] == UndocumentedPrefix
      && IsDecimal(m[|UndocumentedPrefix|..]) && ParseDecimal(m[|UndocumentedPrefix|..]) == code as int
  {
    var m := MapErrType(codes, code).1;
    assert m[|UndocumentedPrefix|..] == IntToDecimal(code as int);
    IntToDecimalRoundTrip(code as int);
  }

  /** Each known last-error type gets its own category text. */
  lemma LastErrorCategoryNamed(types: LastErrorTypeTable, i: nat)
    requires Pairwise(types) && i < |types|
    ensures LastErrorCategory(types, types[i]) == LastErrorCategories[i]
  {
    IndexOfDistinct(types, i);
  }

  /** Without a detail, `Display` writes the type and the quoted message. */
  lemma DisplayWithoutDetail(e: Error)
    requires e.detail.None?
    ensures Display(e) == "zoom_sdk::Error { type: " + ErrorTypeName(e.errType) + ", message: " + DebugStr(e.message) + " }"
  {
    var t, q := ErrorTypeName(e.errType), DebugStr(e.message);
    assert [("type", t), ("message", q)] + [] == [("type", t), ("message", q)];
    DebugStructTwo("zoom_sdk::Error", ("type", t), ("message", q));
    ErrorFieldLiterals();
  }

  /** With a detail, `Display` adds it as a third field. */
  lemma DisplayWithDetail(e: Error)
    requires e.detail.Some?
    ensures Display(e) == "zoom_sdk::Error { type: " + ErrorTypeName(e.errType) + ", message: " + DebugStr(e.message)
      + ", detail: " + DetailDebug(e.detail.value) + " }"
  {
    var t, q, d := ErrorTypeName(e.errType), DebugStr(e.message), DetailDebug(e.detail.value);
    assert [("type", t), ("message", q)] + [("detail", d)] == [("type", t), ("message", q), ("detail", d)];
    ErrorStructThree(t, q, d);
  }

  lemma ErrorStructThree(t: string, q: string, d: string)
    ensures DebugStruct("zoom_sdk::Error", [("type", t), ("message", q), ("detail", d)])
      == "zoom_sdk::Error { type: " + t + ", message: " + q + ", detail: " + d + " }"
  {
    DebugStructThree("zoom_sdk::Error", ("type", t), ("message", q), ("detail", d));
    ErrorFieldLiterals();
  }

  /** The field headers of `zoom_sdk::Error`, as `DebugStruct` assembles them. */
  lemma ErrorFieldLiterals()
    ensures "zoom_sdk::Error" + " { " + "type" + ": " == "zoom_sdk::Error { type: "
    ensures ", " + "message" + ": " == ", message: "
    ensures ", " + "detail" + ": " == ", detail: "
  {
  }

  /** A message without quotes, backslashes or control characters is printed verbatim. */
  lemma DisplayPlainMessage(e: Error)
    requires e.detail == None
    requires forall i :: 0 <= i < |e.message| ==> !IsEscaped(e.message[i])
    ensures Display(e) == "zoom_sdk::Error { type: " + ErrorTypeName(e.errType) + ", message: \"" + e.message + "\" }"
  {
    DisplayWithoutDetail(e);
    DebugStrPlain(e.message);
  }

  /** A Rust-side error with such a message prints as `zoom_sdk::Error { type: Rust, message: "…" }`. */
  lemma DisplayRustMessage(m: string)
    requires forall i :: 0 <= i < |m| ==> !IsEscaped(m[i])
    ensures Display(NewRust(m)) == "zoom_sdk::Error { type: Rust, message: \"" + m + "\" }"
  {
    DisplayPlainMessage(NewRust(m));
  }
}
