/**
 * `src/auth.rs`: the authentication service handle, the record of closures whose address is
 * the native callback context, the two callback trampolines, and the `AuthResult` mapping.
 */
module Auth {
  import opened Prelude
  import opened Native
  import opened WideString
  import opened Errors

  datatype AuthResult =
    | Success | KeyOrSecretEmpty | KeyOrSecretWrong | AccountNotSupport | AccountNotEnableSdk
    | Unknown | ServiceBuzy | None | OverTime | NetworkIssue | ClientIncompatible
    | Unmapped(raw: i32)

  /** The named variants, position for position with `AuthResultTable`. */
  const NamedAuthResults: seq<AuthResult> := [
    AuthResult.Success, KeyOrSecretEmpty, KeyOrSecretWrong, AccountNotSupport, AccountNotEnableSdk,
    AuthResult.Unknown, ServiceBuzy, AuthResult.None, OverTime, NetworkIssue, ClientIncompatible]

  /** `map_auth_result`: the first arm whose constant equals `result`, else `Unmapped(result)`. */
  function MapAuthResult(table: AuthResultTable, result: i32): (r: AuthResult)
    ensures r.Unmapped? <==> result !in table
    ensures r.Unmapped? ==> r.raw == result
    ensures !r.Unmapped? ==> r in NamedAuthResults
  {
    if result in table then NamedAuthResults[IndexOf(table, result)] else Unmapped(result)
  }

  const UnknownAuthResult := "Unknown AuthResult"

  /** `map_auth_result_description`, which is also what `Display` writes. */
  function Description(r: AuthResult): (d: string)
    ensures r.Unmapped? <==> d == UnknownAuthResult
  {
    match r
    case Success => "Authentication is successful"
    case KeyOrSecretEmpty => "The key or secret to authenticate is empty"
    case KeyOrSecretWrong => "The key or secret to authenticate is wrong"
    case AccountNotSupport => "The user account does not support"
    case AccountNotEnableSdk => "The user account is not enabled for SDK"
    case Unknown => "Unknown error"
    case ServiceBuzy => "Service is busy"
    case None => "Initial status"
    case OverTime => "Time out"
    case NetworkIssue => "Network issues"
    case ClientIncompatible => "Account does not support this SDK version"
    case Unmapped(_) => UnknownAuthResult
  }

  /** Each named constant maps to its own variant, given distinct constants. */
  lemma MapAuthResultNamed(table: AuthResultTable, i: nat)
    requires Pairwise(table) && i < |table|
    ensures MapAuthResult(table, table[i]) == NamedAuthResults[i]
  {
    IndexOfDistinct(table, i);
  }

  /** Every variant but `Unmapped` comes from exactly one constant: the mapping is a bijection onto them. */
  lemma MapAuthResultOnto(table: AuthResultTable, r: AuthResult)
    requires Pairwise(table) && !r.Unmapped?
    ensures exists i :: 0 <= i < |table| && MapAuthResult(table, table[i]) == r
  {
    assert r in NamedAuthResults by {
      match r
      case Unmapped(_) =>
      case _ =>
    }
    var i :| 0 <= i < |NamedAuthResults| && NamedAuthResults[i] == r;
    MapAuthResultNamed(table, i);
  }

  /** The doc comment on each named variant. */
  function DocComment(r: AuthResult): string
    requires !r.Unmapped?
  {
    match r
    case Success => "Authentication is successful."
    case KeyOrSecretEmpty => "The key or secret to authenticate is empty."
    case KeyOrSecretWrong => "The key or secret to authenticate is wrong."
    case AccountNotSupport => "The user account does not support."
    case AccountNotEnableSdk => "The user account is not enabled for SDK."
    case Unknown => "Unknown error."
    case ServiceBuzy => "Service is busy."
    case None => "Initial status."
    case OverTime => "Time out."
    case NetworkIssue => "Network issues."
    case ClientIncompatible => "Account does not support this SDK version."
  }

  /** A named variant's description is its doc comment without the closing period. */
  lemma DescriptionIsDocComment(r: AuthResult)
    requires !r.Unmapped?
    ensures Description(r) + "." == DocComment(r)
  {
  }

  /** Different named variants are described differently, so the text identifies the variant. */
  lemma DescriptionInjective(a: AuthResult, b: AuthResult)
    requires !a.Unmapped? && !b.Unmapped?
    ensures Description(a) == Description(b) <==> a == b
  {
    var da, db := Description(a), Description(b);
    if da == db {
      assert |da| == |db| && da[0] == db[0] && da[|da| - 2] == db[|db| - 2];
    }
  }

  /** The closures `set_event` installs, and what calling them has done so far. */
  class Events {
    /** Lines the `authentication_return` closure has printed (`auth ret {}`). */
    var printed: seq<string>
    /** Arguments the `authentication_return` closure has been called with. */
    ghost var authenticationReturns: seq<AuthResult>
    /** Calls of the (empty) `login_return` closure. */
    ghost var loginReturns: nat

    constructor ()
      ensures printed == [] && authenticationReturns == [] && loginReturns == 0
    {
      printed := [];
      authenticationReturns := [];
      loginReturns := 0;
    }
  }

  /** The context handed to `SetEvent`: the record's address and both trampolines. */
  function CallbackEvent(events: Events): CAuthServiceEvent {
    CAuthServiceEvent(events, Some(OnAuthenticationReturn), Some(OnLoginReturn))
  }

  /** `on_authentication_return`: the native status goes through `map_auth_result` to the closure, once. */
  method AuthenticationReturned(table: AuthResultTable, data: Events, res: i32)
    modifies data
    ensures data.authenticationReturns == old(data.authenticationReturns) + [MapAuthResult(table, res)]
    ensures data.printed == old(data.printed) + ["auth ret " + Description(MapAuthResult(table, res))]
    ensures data.loginReturns == old(data.loginReturns)
  {
    var r := MapAuthResult(table, res);
    data.authenticationReturns := data.authenticationReturns + [r];
    data.printed := data.printed + ["auth ret " + Description(r)];
  }

  /** `on_login_return`: the closure runs once; the status and account info are ignored. */
  method LoginReturned(data: Events, ret: i32, info: RawPtr)
    modifies data
    ensures data.loginReturns == old(data.loginReturns) + 1
    ensures data.printed == old(data.printed)
    ensures data.authenticationReturns == old(data.authenticationReturns)
  {
    data.loginReturns := data.loginReturns + 1;
  }

  /**
   * `set_event`: allocates the closure record and registers its address with the service;
   * the record is returned only when the native side accepts it. `events` is the record
   * whose address was registered, whatever the outcome.
   */
  method SetEvent(native: Native, inner: RawPtr, reply: Reply) returns (r: Result<Events, Error>, events: Events)
    modifies native
    ensures fresh(events) && events.printed == [] && events.authenticationReturns == [] && events.loginReturns == 0
    ensures native.calls == old(native.calls) + [AuthSetEvent(inner, CallbackEvent(events))]
    ensures r.Ok? <==> reply.status == native.k.Success()
    ensures r.Ok? ==> r.value == events
    ensures r.Err? ==> r.error == NewError(native.k, reply.status, true, reply.lastError)
  {
    events := new Events();
    var status := native.Invoke(AuthSetEvent(inner, CallbackEvent(events)), reply);
    var w := ErrWrap(native.k, status, true, reply.lastError);
    if w.Err? {
      return Err(w.error), events;
    }
    r := Ok(events);
  }

  /** `AuthService`: the native handle and the closure record registered with it. */
  class AuthService {
    const native: Native
    const inner: RawPtr
    const events: Events
    /** Whether `Drop` has run. */
    var destroyed: bool

    constructor (native: Native, inner: RawPtr, events: Events)
      ensures this.native == native && this.inner == inner && this.events == events && !destroyed
    {
      this.native := native;
      this.inner := inner;
      this.events := events;
      destroyed := false;
    }

    /**
     * `AuthService::new`: create, check the status, then null, then register the events.
     * `created` is the pointer the native side writes back.
     */
    static method New(native: Native, create: Reply, created: RawPtr, setEvent: Reply)
      returns (r: Result<AuthService, Error>)
      modifies native
      ensures create.status != native.k.Success() ==>
        r == Err(NewError(native.k, create.status, true, create.lastError))
        && native.calls == old(native.calls) + [CreateAuthService]
      ensures create.status == native.k.Success() && created.NullPtr? ==>
        r == Err(NewRust("ZOOMSDK_CreateAuthService returned null"))
        && native.calls == old(native.calls) + [CreateAuthService]
      ensures create.status == native.k.Success() && created.Addr? ==>
        |native.calls| == |old(native.calls)| + 2
        && native.calls[..|old(native.calls)| + 1] == old(native.calls) + [CreateAuthService]
        && native.calls[|old(native.calls)|].CreateAuthService?
        && native.calls[|old(native.calls)| + 1].AuthSetEvent?
        && native.calls[|old(native.calls)| + 1].service == created
        && (r.Ok? <==> setEvent.status == native.k.Success())
        && (r.Err? ==> r.error == NewError(native.k, setEvent.status, true, setEvent.lastError))
      ensures r.Ok? ==>
        fresh(r.value) && fresh(r.value.events) && r.value.native == native && r.value.inner == created
        && created.Addr? && !r.value.destroyed
        && native.calls[|native.calls| - 1] == AuthSetEvent(created, CallbackEvent(r.value.events))
        && r.value.events.printed == [] && r.value.events.authenticationReturns == []
        && r.value.events.loginReturns == 0
    {
      var status := native.Invoke(CreateAuthService, create);
      var w := ErrWrap(native.k, status, true, create.lastError);
      if w.Err? {
        return Err(w.error);
      }
      if created.NullPtr? {
        return Err(NewRust("ZOOMSDK_CreateAuthService returned null"));
      }
      var e, registered := SetEvent(native, created, setEvent);
      if e.Err? {
        return Err(e.error);
      }
      var service := new AuthService(native, created, e.value);
      r := Ok(service);
    }

    /**
     * `sdk_auth`, with the values of `ZOOM_SDK_KEY` and `ZOOM_SDK_SECRET` as parameters: both
     * go to the native side NUL-terminated, and read back as the text before any NUL.
     */
    method SdkAuth(appKey: string, appSecret: string, reply: Reply) returns (r: Result<(), Error>)
      modifies native
      ensures native.calls ==
        old(native.calls) + [AuthSDKAuthParam(inner, AuthParam(Wide(StrToU16Vec(appKey)), Wide(StrToU16Vec(appSecret))))]
      ensures U16ToString(Wide(StrToU16Vec(appKey))) == TextBeforeNul(appKey)
      ensures U16ToString(Wide(StrToU16Vec(appSecret))) == TextBeforeNul(appSecret)
      ensures r == ErrWrap(native.k, reply.status, true, reply.lastError)
    {
      StrToU16VecRoundTrip(appKey);
      StrToU16VecRoundTrip(appSecret);
      var param := AuthParam(Wide(StrToU16Vec(appKey)), Wide(StrToU16Vec(appSecret)));
      var status := native.Invoke(AuthSDKAuthParam(inner, param), reply);
      r := ErrWrap(native.k, status, true, reply.lastError);
    }

    /**
     * `login`, with the values of `ZOOM_LOGIN_USER` and `ZOOM_LOGIN_PASS` as parameters: an
     * e-mail login that asks to be remembered.
     */
    method Login(userName: string, password: string, reply: Reply) returns (r: Result<(), Error>)
      modifies native
      ensures native.calls == old(native.calls) + [AuthLogin(inner,
        LoginParam(native.k.loginTypeEmail, true, Wide(StrToU16Vec(userName)), Wide(StrToU16Vec(password))))]
      ensures U16ToString(Wide(StrToU16Vec(userName))) == TextBeforeNul(userName)
      ensures U16ToString(Wide(StrToU16Vec(password))) == TextBeforeNul(password)
      ensures r == ErrWrap(native.k, reply.status, true, reply.lastError)
    {
      StrToU16VecRoundTrip(userName);
      StrToU16VecRoundTrip(password);
      var param := LoginParam(native.k.loginTypeEmail, true, Wide(StrToU16Vec(userName)), Wide(StrToU16Vec(password)));
      var status := native.Invoke(AuthLogin(inner, param), reply);
      r := ErrWrap(native.k, status, true, reply.lastError);
    }

    /** `Drop`: destroys the native handle, once, and panics when that fails. */
    method Drop(reply: Reply) returns (c: Completion<()>)
      requires !destroyed
      modifies this, native
      ensures destroyed
      ensures native.calls == old(native.calls) + [DestroyAuthService(inner)]
      ensures c.Panic? <==> reply.status != native.k.Success()
      ensures c == Unwrap(ErrWrap(native.k, reply.status, true, reply.lastError))
    {
      var status := native.Invoke(DestroyAuthService(inner), reply);
      destroyed := true;
      c := Unwrap(ErrWrap(native.k, status, true, reply.lastError));
    }
  }
}
