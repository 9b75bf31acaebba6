/**
 * The closed-source native SDK, seen from the wrapper: raw pointers, the records the
 * wrapper fills in, the enumeration constants it matches on, and a stand-in object that
 * records every call made to it and answers with a status chosen by the environment.
 */
module Native {
  import opened Prelude

  /** An opaque pointer to a native interface instance: only null-ness and identity matter. */
  datatype RawPtr = NullPtr | Addr(addr: nat)

  /**
   * A `*const u16`: null, or the address of the first of `units` (the memory from the
   * pointer onwards, as far as the model needs it).
   */
  datatype WidePtr = NullWide | Wide(units: seq<u16>)

  /** A pointer that is null or points at a NUL-terminated wide string, which is what is read through it. */
  type WideStr = p: WidePtr | p.NullWide? || 0 in p.units witness NullWide

  /**
   * Tables of enumeration constants, each in the order of the source's match arms.
   * The vendor header that fixes their values is not part of this model.
   */
  // SDKERR_SUCCESS, SDKERR_NO_IMPL, SDKERR_WRONG_USEAGE, …, SDKERR_HARDWARE_NOT_MEET_FOR_VB
  type SdkErrorTable = s: seq<i32> | |s| == 28 witness seq(28, i => 0)
  // LastErrorType_None, _Auth, _Login, _Meeting, _System
  type LastErrorTypeTable = s: seq<i32> | |s| == 5 witness seq(5, i => 0)
  // AUTHRET_SUCCESS, AUTHRET_KEYORSECRETEMPTY, …, AUTHRET_CLIENT_INCOMPATIBLE
  type AuthResultTable = s: seq<i32> | |s| == 11 witness seq(11, i => 0)

  datatype Consts = Consts(
    sdkErrors: SdkErrorTable,
    lastErrorTypes: LastErrorTypeTable,
    authResults: AuthResultTable,
    loginTypeEmail: i32)
  {
    /** `ZOOMSDK_SDKError_SDKERR_SUCCESS` */
    function Success(): i32 {
      sdkErrors[0]
    }

    /** What the lemmas assume of the header: no two constants of one enumeration coincide. */
    predicate Distinct() {
      Pairwise(sdkErrors) && Pairwise(lastErrorTypes) && Pairwise(authResults)
    }
  }

  predicate Pairwise<T(==)>(s: seq<T>) {
    forall i, j :: 0 <= i < j < |s| ==> s[i] != s[j]
  }

  /** The first position holding `x`: a `match` picks the first arm whose constant equals the scrutinee. */
  function IndexOf<T(==)>(s: seq<T>, x: T): (i: nat)
    requires x in s
    ensures i < |s| && s[i] == x
    ensures forall j :: 0 <= j < i ==> s[j] != x
  {
    if s[0] == x then 0 else 1 + IndexOf(s[1..], x)
  }

  /** With distinct entries, the first position of `s[i]` is `i`. */
  lemma IndexOfDistinct<T>(s: seq<T>, i: nat)
    requires Pairwise(s) && i < |s|
    ensures IndexOf(s, s[i]) == i
  {
  }

  /** The trampolines whose addresses the wrapper hands to the native side. */
  datatype Trampoline = OnAuthenticationReturn | OnLoginReturn

  /** `ZOOMSDK_CAuthServiceEvent`: the context pointer and the two callback slots. */
  datatype CAuthServiceEvent = CAuthServiceEvent(
    callbackData: object,
    authenticationReturn: Option<Trampoline>,
    loginReturn: Option<Trampoline>)

  /** `ZOOMSDK_InitParam`, restricted to the fields the builder can set. */
  datatype InitParamRecord = InitParamRecord(
    strWebDomain: WidePtr,
    strBrandingName: WidePtr,
    strSupportUrl: WidePtr,
    hResInstance: RawPtr,
    uiWindowIconSmallID: u32,
    uiWindowIconBigID: u32,
    emLanguageID: i32,
    enableGenerateDump: bool,
    enableLogByDefault: bool,
    uiLogFileSize: u32)

  /** `ZOOMSDK_AuthParam` */
  datatype AuthParam = AuthParam(appKey: WidePtr, appSecret: WidePtr)

  /** `ZOOMSDK_LoginParam` with its `emailLogin` union member. */
  datatype LoginParam = LoginParam(loginType: i32, rememberMe: bool, userName: WidePtr, password: WidePtr)

  /** What `ZOOMSDK_GetZoomLastError` points at when it is not null. */
  datatype LastErrorRecord = LastErrorRecord(errorType: i32, code: u64, description: WideStr)

  /** One call into the native library, with the arguments the wrapper passed. */
  datatype Call =
    | InitSDK(param: InitParamRecord)
    | CleanUPSDK
    | CreateAuthService
    | DestroyAuthService(service: RawPtr)
    | AuthSetEvent(service: RawPtr, event: CAuthServiceEvent)
    | AuthSDKAuthParam(service: RawPtr, auth: AuthParam)
    | AuthLogin(service: RawPtr, login: LoginParam)
    | CreateMeetingService
    | DestroyMeetingService(service: RawPtr)
    | HandleZoomWebUriProtocolAction(service: RawPtr, uri: WidePtr)

  /** The native side's answer to one call: its status, and the last-error record it leaves behind. */
  datatype Reply = Reply(status: i32, lastError: Option<LastErrorRecord>)

  /** The native library as an oracle: it logs what it is asked and answers as told. */
  class Native {
    const k: Consts
    var calls: seq<Call>
    var lastError: Option<LastErrorRecord>

    constructor (k: Consts)
      ensures this.k == k && calls == [] && lastError == None
    {
      this.k := k;
      calls := [];
      lastError := None;
    }

    method Invoke(call: Call, reply: Reply) returns (status: i32)
      modifies this
      ensures calls == old(calls) + [call]
      ensures lastError == reply.lastError && status == reply.status
    {
      calls := calls + [call];
      lastError := reply.lastError;
      status := reply.status;
    }
  }
}
