/**
 * `src/lib.rs`: the `InitParam` builder, the process-wide `INITIALIZED` flag that allows one
 * live `Sdk` at a time, and the `Sdk` clean-up lifecycle. The UTF-16 helpers of the same file
 * are in module `WideString`.
 */
module ZoomSdk {
  import opened Prelude
  import opened Native
  import opened WideString
  import opened Errors
  import opened Fmt
  import Auth

  datatype SdkLanguageId =
    | Unknown | English | ChineseSimplified | ChineseTraditional | Japanese | Spanish | German
    | French | Portuguese | Russian | Korean | Vietnamese | Italian

  /** The variants in declaration order. */
  const LanguageIds: seq<SdkLanguageId> := [
    SdkLanguageId.Unknown, English, ChineseSimplified, ChineseTraditional, Japanese, Spanish, German,
    French, Portuguese, Russian, Korean, Vietnamese, Italian]

  /** `em_language_id as i32`: `Unknown = 0`, then one more per variant. */
  function Discriminant(l: SdkLanguageId): (d: i32)
    ensures 0 <= d <= 12
  {
    match l
    case Unknown => 0
    case English => 1
    case ChineseSimplified => 2
    case ChineseTraditional => 3
    case Japanese => 4
    case Spanish => 5
    case German => 6
    case French => 7
    case Portuguese => 8
    case Russian => 9
    case Korean => 10
    case Vietnamese => 11
    case Italian => 12
  }

  /** The discriminants run 0 to 12 in declaration order, so no two variants share one. */
  lemma DiscriminantsInOrder()
    ensures |LanguageIds| == 13
    ensures forall l: SdkLanguageId :: l in LanguageIds
    ensures forall i :: 0 <= i < |LanguageIds| ==> Discriminant(LanguageIds[i]) as int == i
  {
    forall l: SdkLanguageId ensures l in LanguageIds {
      assert LanguageIds[Discriminant(l)] == l;
    }
  }

  lemma DiscriminantInjective(a: SdkLanguageId, b: SdkLanguageId)
    ensures Discriminant(a) == Discriminant(b) <==> a == b
  {
  }

  /**
   * `option_str_encode_nul_wide`: with text, encodes it, keeps the vector in the cache and
   * points at it; without, writes a null pointer and leaves the cache alone.
   */
  method OptionStrEncodeNulWide(cache: Option<seq<u16>>, from: Option<string>)
    returns (newCache: Option<seq<u16>>, to: WidePtr)
    ensures from.None? ==> newCache == cache && to == NullWide
    ensures from.Some? ==> newCache == Some(StrToU16Vec(from.value)) && to == Wide(newCache.value)
    ensures from.Some? ==> 0 in to.units && U16ToString(to) == TextBeforeNul(from.value)
  {
    match from
    case None =>
      newCache, to := cache, NullWide;
    case Some(s) =>
      var vec := StrToU16Vec(s);
      StrToU16VecRoundTrip(s);
      newCache, to := Some(vec), Wide(vec);
  }

  /**
   * A string field of the native record is null, still what the native default put there,
   * or points at the builder's own cached vector, which ends in NUL.
   */
  predicate Backs(cache: Option<seq<u16>>, ptr: WidePtr, default: WidePtr) {
    ptr.NullWide? || ptr == default || (cache.Some? && ptr == Wide(cache.value) && 0 in cache.value)
  }

  function WidePtrOf(s: Option<string>): WidePtr {
    if s.Some? then Wide(StrToU16Vec(s.value)) else NullWide
  }

  function CacheAfter(cache: Option<seq<u16>>, s: Option<string>): Option<seq<u16>> {
    if s.Some? then Some(StrToU16Vec(s.value)) else cache
  }

  const DefaultWebDomain := "https://zoom.us"
  const OnlyOneSdk := "Only one Sdk can exist at a time"

  /** The `InitParam` builder: the native record and the caches its string fields point into. */
  class InitParam {
    /** What `ZOOMSDK_InitParam_Default` returned. */
    const defaults: InitParamRecord
    var param: InitParamRecord
    var webDomain: Option<seq<u16>>
    var brandingName: Option<seq<u16>>
    var supportUrl: Option<seq<u16>>

    /** No string field dangles: each is null, the native default, or backed by its cache. */
    ghost predicate Valid()
      reads this
    {
      Backs(webDomain, param.strWebDomain, defaults.strWebDomain)
      && Backs(brandingName, param.strBrandingName, defaults.strBrandingName)
      && Backs(supportUrl, param.strSupportUrl, defaults.strSupportUrl)
    }

    /** `InitParam::new`: the native defaults, with the web domain set to `https://zoom.us`. */
    constructor (defaults: InitParamRecord)
      ensures Valid()
      ensures this.defaults == defaults
      ensures param == defaults.(strWebDomain := Wide(StrToU16Vec(DefaultWebDomain)))
      ensures webDomain == Some(StrToU16Vec(DefaultWebDomain)) && brandingName == None && supportUrl == None
    {
      this.defaults := defaults;
      param := defaults;
      webDomain := None;
      brandingName := None;
      supportUrl := None;
      new;
      WebDomain(Some(DefaultWebDomain));
    }

    method WebDomain(s: Option<string>)
      requires Valid()
      modifies this
      ensures Valid()
      ensures param == old(param).(strWebDomain := WidePtrOf(s))
      ensures webDomain == CacheAfter(old(webDomain), s)
      ensures brandingName == old(brandingName) && supportUrl == old(supportUrl)
    {
      var ptr;
      webDomain, ptr := OptionStrEncodeNulWide(webDomain, s);
      param := param.(strWebDomain := ptr);
    }

    method BrandingName(s: Option<string>)
      requires Valid()
      modifies this
      ensures Valid()
      ensures param == old(param).(strBrandingName := WidePtrOf(s))
      ensures brandingName == CacheAfter(old(brandingName), s)
      ensures webDomain == old(webDomain) && supportUrl == old(supportUrl)
    {
      var ptr;
      brandingName, ptr := OptionStrEncodeNulWide(brandingName, s);
      param := param.(strBrandingName := ptr);
    }

    method SupportUrl(s: Option<string>)
      requires Valid()
      modifies this
      ensures Valid()
      ensures param == old(param).(strSupportUrl := WidePtrOf(s))
      ensures supportUrl == CacheAfter(old(supportUrl), s)
      ensures webDomain == old(webDomain) && brandingName == old(brandingName)
    {
      var ptr;
      supportUrl, ptr := OptionStrEncodeNulWide(supportUrl, s);
      param := param.(strSupportUrl := ptr);
    }

    method ResInstance(h: RawPtr)
      requires Valid()
      modifies this
      ensures Valid()
      ensures param == old(param).(hResInstance := h)
      ensures webDomain == old(webDomain) && brandingName == old(brandingName) && supportUrl == old(supportUrl)
    {
      param := param.(hResInstance := h);
    }

    method UiWindowIconSmallId(id: u32)
      requires Valid()
      modifies this
      ensures Valid()
      ensures param == old(param).(uiWindowIconSmallID := id)
      ensures webDomain == old(webDomain) && brandingName == old(brandingName) && supportUrl == old(supportUrl)
    {
      param := param.(uiWindowIconSmallID := id);
    }

    method UiWindowIconBigId(id: u32)
      requires Valid()
      modifies this
      ensures Valid()
      ensures param == old(param).(uiWindowIconBigID := id)
      ensures webDomain == old(webDomain) && brandingName == old(brandingName) && supportUrl == old(supportUrl)
    {
      param := param.(uiWindowIconBigID := id);
    }

    method EmLanguageId(l: SdkLanguageId)
      requires Valid()
      modifies this
      ensures Valid()
      ensures param == old(param).(emLanguageID := Discriminant(l))
      ensures webDomain == old(webDomain) && brandingName == old(brandingName) && supportUrl == old(supportUrl)
    {
      param := param.(emLanguageID := Discriminant(l));
    }

    method EnableGenerateDump(b: bool)
      requires Valid()
      modifies this
      ensures Valid()
      ensures param == old(param).(enableGenerateDump := b)
      ensures webDomain == old(webDomain) && brandingName == old(brandingName) && supportUrl == old(supportUrl)
    {
      param := param.(enableGenerateDump := b);
    }

    method EnableLogByDefault(b: bool)
      requires Valid()
      modifies this
      ensures Valid()
      ensures param == old(param).(enableLogByDefault := b)
      ensures webDomain == old(webDomain) && brandingName == old(brandingName) && supportUrl == old(supportUrl)
    {
      param := param.(enableLogByDefault := b);
    }

    method UiLogFileSize(size: u32)
      requires Valid()
      modifies this
      ensures Valid()
      ensures param == old(param).(uiLogFileSize := size)
      ensures webDomain == old(webDomain) && brandingName == old(brandingName) && supportUrl == old(supportUrl)
    {
      param := param.(uiLogFileSize := size);
    }

    /**
     * `init_sdk`: refuses when the flag is already set, without touching the native side;
     * otherwise sets the flag before calling `InitSDK`, and leaves it set even when that fails.
     */
    method InitSdk(globals: SdkGlobals, native: Native, reply: Reply) returns (r: Result<Sdk, Error>)
      modifies globals, native
      ensures old(globals.OneLive()) ==> globals.OneLive()
      ensures globals.initialized
      ensures old(globals.initialized) ==> r == Err(NewRust(OnlyOneSdk)) && native.calls == old(native.calls)
      ensures !old(globals.initialized) ==> native.calls == old(native.calls) + [InitSDK(param)]
      ensures r.Ok? <==> !old(globals.initialized) && reply.status == native.k.Success()
      ensures !old(globals.initialized) && r.Err? ==> r.error == NewError(native.k, reply.status, true, reply.lastError)
      ensures r.Ok? ==>
        fresh(r.value) && r.value.globals == globals && r.value.native == native
        && globals.live == old(globals.live) + {r.value}
      ensures r.Err? ==> globals.live == old(globals.live)
    {
      var wasSet := globals.initialized;
      globals.initialized := true;
      if wasSet {
        return Err(NewRust(OnlyOneSdk));
      }
      var status := native.Invoke(InitSDK(param), reply);
      var w := ErrWrap(native.k, status, true, reply.lastError);
      if w.Err? {
        return Err(w.error);
      }
      var sdk := new Sdk(globals, native);
      globals.live := globals.live + {sdk};
      r := Ok(sdk);
    }
  }

  /** The `INITIALIZED` flag, and (ghost) the `Sdk` values currently alive. */
  class SdkGlobals {
    var initialized: bool
    ghost var live: set<Sdk>

    constructor ()
      ensures !initialized && live == {}
    {
      initialized := false;
      live := {};
    }

    /** What the flag is for: at most one live `Sdk`, and only while the flag is set. */
    ghost predicate OneLive()
      reads this
    {
      (live != {} ==> initialized) && forall a, b :: a in live && b in live ==> a == b
    }
  }

  /** An initialized SDK; dropping or cleaning it up runs `CleanUPSDK`. */
  class Sdk {
    const globals: SdkGlobals
    const native: Native

    constructor (globals: SdkGlobals, native: Native)
      ensures this.globals == globals && this.native == native
    {
      this.globals := globals;
      this.native := native;
    }

    /** `clean_up_internal` as written: clears the flag whatever `CleanUPSDK` returns. */
    method CleanUpInternalAsWritten(reply: Reply) returns (r: Result<(), Error>)
      modifies globals, native
      ensures native.calls == old(native.calls) + [CleanUPSDK]
      ensures r == ErrWrap(native.k, reply.status, true, reply.lastError)
      ensures !globals.initialized && globals.live == old(globals.live)
    {
      var status := native.Invoke(CleanUPSDK, reply);
      r := ErrWrap(native.k, status, true, reply.lastError);
      globals.initialized := false;
    }

    /**
     * `clean_up_internal`, corrected: clears the flag only when `CleanUPSDK` succeeded, since
     * after a failure the `Sdk` is still alive (returned by `clean_up`).
     */
    method CleanUpInternal(reply: Reply) returns (r: Result<(), Error>)
      modifies globals, native
      ensures native.calls == old(native.calls) + [CleanUPSDK]
      ensures r == ErrWrap(native.k, reply.status, true, reply.lastError)
      ensures globals.initialized == (old(globals.initialized) && r.Err?)
      ensures globals.live == old(globals.live)
    {
      var status := native.Invoke(CleanUPSDK, reply);
      r := ErrWrap(native.k, status, true, reply.lastError);
      if r.Ok? {
        globals.initialized := false;
      }
    }

    /**
     * `impl Drop for Sdk`: runs `clean_up_internal` as written and panics on failure; the flag
     * is cleared and the value is gone either way. Dropped while it was the only live `Sdk`,
     * it leaves none alive; after the failed clean-up of `TwoLiveSdksAsWritten` another stays.
     */
    method Drop(reply: Reply) returns (c: Completion<()>)
      requires this in globals.live
      modifies globals, native
      ensures native.calls == old(native.calls) + [CleanUPSDK]
      ensures c == Unwrap(ErrWrap(native.k, reply.status, true, reply.lastError))
      ensures c.Panic? <==> reply.status != native.k.Success()
      ensures !globals.initialized
      ensures globals.live == old(globals.live) - {this}
      ensures old(globals.OneLive()) ==> globals.OneLive() && globals.live == {}
    {
      var r := CleanUpInternalAsWritten(reply);
      globals.live := globals.live - {this};
      c := Unwrap(r);
    }

    /**
     * `clean_up` as written. On failure the error and the `Sdk` come back. On success the
     * consumed `self` is dropped at the end of the call, so `Drop` runs `CleanUPSDK` a second
     * time (`second` is its reply) and panics if that one fails.
     */
    method CleanUpAsWritten(first: Reply, second: Reply) returns (c: Completion<Result<(), (Error, Sdk)>>)
      requires this in globals.live
      modifies globals, native
      ensures first.status != native.k.Success() ==>
        c == Normal(Err((NewError(native.k, first.status, true, first.lastError), this)))
        && native.calls == old(native.calls) + [CleanUPSDK]
        && globals.live == old(globals.live)
      ensures first.status == native.k.Success() ==>
        native.calls == old(native.calls) + [CleanUPSDK, CleanUPSDK]
        && c == (if second.status == native.k.Success() then Normal(Ok(()))
                 else Panic(NewError(native.k, second.status, true, second.lastError)))
        && globals.live == old(globals.live) - {this}
      ensures !globals.initialized
    {
      var r := CleanUpInternalAsWritten(first);
      if r.Err? {
        return Normal(Err((r.error, this)));
      }
      var again := CleanUpInternalAsWritten(second);
      globals.live := globals.live - {this};
      if again.Err? {
        return Panic(again.error);
      }
      c := Normal(Ok(()));
    }

    /**
     * `clean_up`, corrected: `CleanUPSDK` runs exactly once, the consumed `Sdk` is not dropped
     * a second time, and a failed clean-up keeps the flag set for the `Sdk` it hands back.
     */
    method CleanUp(reply: Reply) returns (r: Result<(), (Error, Sdk)>)
      requires globals.OneLive() && this in globals.live
      modifies globals, native
      ensures globals.OneLive()
      ensures native.calls == old(native.calls) + [CleanUPSDK]
      ensures r.Ok? <==> reply.status == native.k.Success()
      ensures r.Ok? ==> !globals.initialized && globals.live == {}
      ensures r.Err? ==>
        r.error == (NewError(native.k, reply.status, true, reply.lastError), this)
        && globals.initialized && globals.live == old(globals.live)
    {
      var w := CleanUpInternal(reply);
      if w.Err? {
        return Err((w.error, this));
      }
      globals.live := globals.live - {this};
      r := Ok(());
    }

    /** `create_auth_service` */
    method CreateAuthService(create: Reply, created: RawPtr, setEvent: Reply)
      returns (r: Result<Auth.AuthService, Error>)
      modifies native
      ensures |native.calls| == |old(native.calls)| + if create.status == native.k.Success() && created.Addr? then 2 else 1
      ensures native.calls[..|old(native.calls)| + 1] == old(native.calls) + [Call.CreateAuthService]
      ensures create.status == native.k.Success() && created.Addr? ==>
        native.calls[|old(native.calls)| + 1].AuthSetEvent? && native.calls[|old(native.calls)| + 1].service == created
      ensures create.status != native.k.Success() ==> r == Err(NewError(native.k, create.status, true, create.lastError))
      ensures create.status == native.k.Success() && created.NullPtr? ==>
        r == Err(NewRust("ZOOMSDK_CreateAuthService returned null"))
      ensures create.status == native.k.Success() && created.Addr? && r.Err? ==>
        r.error == NewError(native.k, setEvent.status, true, setEvent.lastError)
      ensures r.Ok? <==> create.status == native.k.Success() && created.Addr? && setEvent.status == native.k.Success()
      ensures r.Ok? ==> fresh(r.value) && r.value.inner == created && r.value.native == native && !r.value.destroyed
    {
      r := Auth.AuthService.New(native, create, created, setEvent);
    }
  }

  /** The refusal's message needs no escaping. */
  lemma OnlyOneSdkPlain()
    ensures forall i :: 0 <= i < |OnlyOneSdk| ==> !IsEscaped(OnlyOneSdk[i])
  {
  }

  /** The exact text `init_sdk`'s refusal prints, as the crate's own test pins it. */
  lemma OnlyOneSdkDisplay()
    ensures Display(NewRust(OnlyOneSdk)) == "zoom_sdk::Error { type: Rust, message: \"" + OnlyOneSdk + "\" }"
  {
    OnlyOneSdkPlain();
    DisplayRustMessage(OnlyOneSdk);
  }

  /**
   * With `clean_up` as written, a successful clean-up calls `CleanUPSDK` twice although
   * `clean_up_internal` must only be called once.
   */
  method DoubleCleanUpAsWritten(k: Consts, builder: InitParam) returns (native: Native)
    ensures native.calls == [InitSDK(builder.param), CleanUPSDK, CleanUPSDK]
  {
    var globals := new SdkGlobals();
    native := new Native(k);
    var r := builder.InitSdk(globals, native, Reply(k.Success(), None));
    var c := r.value.CleanUpAsWritten(Reply(k.Success(), None), Reply(k.Success(), None));
  }

  /** With the corrected `clean_up`, the same sequence calls `CleanUPSDK` once. */
  method SingleCleanUp(k: Consts, builder: InitParam) returns (native: Native)
    ensures native.calls == [InitSDK(builder.param), CleanUPSDK]
  {
    var globals := new SdkGlobals();
    native := new Native(k);
    var r := builder.InitSdk(globals, native, Reply(k.Success(), None));
    var c := r.value.CleanUp(Reply(k.Success(), None));
  }

  /**
   * With `clean_up_internal` as written, a failed clean-up hands the `Sdk` back but clears the
   * flag, so a second `init_sdk` succeeds and two `Sdk` values are alive at once.
   */
  method TwoLiveSdksAsWritten(k: Consts, builder: InitParam, failure: i32) returns (globals: SdkGlobals, first: Sdk, second: Sdk)
    requires failure != k.Success()
    ensures first in globals.live && second in globals.live && first != second
  {
    globals := new SdkGlobals();
    var native := new Native(k);
    var r1 := builder.InitSdk(globals, native, Reply(k.Success(), None));
    first := r1.value;
    var c := first.CleanUpAsWritten(Reply(failure, None), Reply(k.Success(), None));
    var r2 := builder.InitSdk(globals, native, Reply(k.Success(), None));
    second := r2.value;
  }

  /**
   * With the corrected `clean_up`, the same failed clean-up keeps the flag set, and the second
   * `init_sdk` is refused with the "only one" error.
   */
  method FailedCleanUpKeepsFlag(k: Consts, builder: InitParam, failure: i32) returns (globals: SdkGlobals, first: Sdk, second: Result<Sdk, Error>)
    requires failure != k.Success()
    ensures globals.live == {first} && globals.initialized
    ensures second == Err(NewRust(OnlyOneSdk))
  {
    globals := new SdkGlobals();
    var native := new Native(k);
    var r1 := builder.InitSdk(globals, native, Reply(k.Success(), None));
    first := r1.value;
    var c := first.CleanUp(Reply(failure, None));
    second := builder.InitSdk(globals, native, Reply(k.Success(), None));
  }

  /**
   * `TwoLiveSdksAsWritten` followed to the end of the scope, where Rust drops both values:
   * each drop runs `CleanUPSDK` once more, although the SDK was cleaned up already.
   */
  method TwoLiveSdksDroppedAsWritten(k: Consts, builder: InitParam, failure: i32) returns (native: Native)
    requires failure != k.Success()
    ensures native.calls == [InitSDK(builder.param), CleanUPSDK, InitSDK(builder.param), CleanUPSDK, CleanUPSDK]
  {
    var globals := new SdkGlobals();
    native := new Native(k);
    var ok := Reply(k.Success(), None);
    var r1 := builder.InitSdk(globals, native, ok);
    var first := r1.value;
    var c := first.CleanUpAsWritten(Reply(failure, None), ok);
    var r2 := builder.InitSdk(globals, native, ok);
    var second := r2.value;
    var d2 := second.Drop(ok);
    var d1 := first.Drop(ok);
  }

  /**
   * The first half of the crate's `zoom_init_again` test: `sdk1` is initialized, its auth
   * service is a temporary destroyed at once, a second `init_sdk` is refused while `sdk1` is
   * live, and `clean_up` as written makes two `CleanUPSDK` calls.
   */
  method InitAgainFirstSdk(k: Consts, builder: InitParam) returns (globals: SdkGlobals, refusal: Error, native: Native)
    ensures fresh(globals) && fresh(native) && native.k == k
    ensures !globals.initialized && globals.live == {}
    ensures refusal == NewRust(OnlyOneSdk)
    ensures |native.calls| == 6
    ensures native.calls[0] == InitSDK(builder.param) && native.calls[1] == CreateAuthService
    ensures native.calls[2].AuthSetEvent? && native.calls[2].service == Addr(1)
    ensures native.calls[3..] == [DestroyAuthService(Addr(1)), CleanUPSDK, CleanUPSDK]
  {
    globals := new SdkGlobals();
    native := new Native(k);
    var ok := Reply(k.Success(), None);
    var sdk1 := builder.InitSdk(globals, native, ok);
    var service := sdk1.value.CreateAuthService(ok, Addr(1), ok);
    ghost var register := native.calls[2];
    var c := service.value.Drop(ok);
    var refused := builder.InitSdk(globals, native, ok);
    refusal := refused.error;
    var cleaned := sdk1.value.CleanUpAsWritten(ok, ok);
    assert native.calls == [InitSDK(builder.param), CreateAuthService, register, DestroyAuthService(Addr(1)), CleanUPSDK, CleanUPSDK];
  }

  /**
   * The test's `sdk2` until its service is gone: `sdk2` is initialized once the flag is clear,
   * and its auth service is again a temporary destroyed at once.
   */
  method InitAgainSecondSdk(globals: SdkGlobals, native: Native, builder: InitParam) returns (sdk2: Sdk)
    requires !globals.initialized
    modifies globals, native
    ensures sdk2 in globals.live && sdk2.globals == globals && sdk2.native == native
    ensures |native.calls| == |old(native.calls)| + 4
    ensures native.calls[..|old(native.calls)| + 2] == old(native.calls) + [InitSDK(builder.param), CreateAuthService]
    ensures native.calls[|old(native.calls)| + 2].AuthSetEvent? && native.calls[|old(native.calls)| + 2].service == Addr(2)
    ensures native.calls[|old(native.calls)| + 3] == DestroyAuthService(Addr(2))
  {
    var ok := Reply(native.k.Success(), None);
    var r := builder.InitSdk(globals, native, ok);
    sdk2 := r.value;
    ghost var before := native.calls;
    var service := sdk2.CreateAuthService(ok, Addr(2), ok);
    ghost var register := native.calls[|before| + 1];
    var c := service.value.Drop(ok);
    assert native.calls == before + [CreateAuthService, register, DestroyAuthService(Addr(2))];
  }

  /**
   * The end of the test: `clean_up_internal` runs on `sdk2`, the next `create_auth_service`
   * fails with the native side's `failure`, and `sdk2` is dropped at the end of the scope,
   * which runs `CleanUPSDK` once more.
   */
  method InitAgainLateCalls(sdk2: Sdk, failure: i32) returns (late: Result<Auth.AuthService, Error>, dropped: Completion<()>)
    requires sdk2 in sdk2.globals.live && failure != sdk2.native.k.Success()
    modifies sdk2.globals, sdk2.native
    ensures late == Err(NewError(sdk2.native.k, failure, true, None))
    ensures dropped == Normal(())
    ensures sdk2.native.calls == old(sdk2.native.calls) + [CleanUPSDK, CreateAuthService, CleanUPSDK]
  {
    var ok := Reply(sdk2.native.k.Success(), None);
    var r := sdk2.CleanUpInternalAsWritten(ok);
    late := sdk2.CreateAuthService(Reply(failure, None), Addr(3), ok);
    dropped := sdk2.Drop(ok);
  }

  /**
   * The crate's `zoom_init_again` test from its first `init_sdk` to the end of its scope.
   * Every native call succeeds except the `CreateAuthService` made after `clean_up_internal`,
   * whose status is `failure`, as the test's `unwrap_err` expects. The refusal's printed text
   * is `OnlyOneSdkDisplay`.
   */
  method InitAgainScenario(k: Consts, builder: InitParam, failure: i32)
    returns (refusal: Error, late: Result<Auth.AuthService, Error>, dropped: Completion<()>, native: Native)
    requires failure != k.Success()
    ensures refusal == NewRust(OnlyOneSdk)
    ensures late == Err(NewError(k, failure, true, None))
    ensures dropped == Normal(())
    ensures |native.calls| == 13
    ensures native.calls[0] == InitSDK(builder.param) && native.calls[1] == CreateAuthService
    ensures native.calls[2].AuthSetEvent? && native.calls[2].service == Addr(1)
    ensures native.calls[3..8] == [DestroyAuthService(Addr(1)), CleanUPSDK, CleanUPSDK, InitSDK(builder.param), CreateAuthService]
    ensures native.calls[8].AuthSetEvent? && native.calls[8].service == Addr(2)
    ensures native.calls[9..] == [DestroyAuthService(Addr(2)), CleanUPSDK, CreateAuthService, CleanUPSDK]
  {
    var globals;
    globals, refusal, native := InitAgainFirstSdk(k, builder);
    ghost var register1 := native.calls[2];
    ghost var first := native.calls;
    assert first == [InitSDK(builder.param), CreateAuthService, register1, DestroyAuthService(Addr(1)), CleanUPSDK, CleanUPSDK];
    var sdk2 := InitAgainSecondSdk(globals, native, builder);
    ghost var register2 := native.calls[8];
    ghost var second := native.calls;
    assert second == first + [InitSDK(builder.param), CreateAuthService, register2, DestroyAuthService(Addr(2))];
    late, dropped := InitAgainLateCalls(sdk2, failure);
    assert native.calls == second + [CleanUPSDK, CreateAuthService, CleanUPSDK];
  }
}
