/** `src/meeting.rs`: the meeting service handle and its one marshalled call. */
module Meeting {
  import opened Prelude
  import opened Native
  import opened WideString
  import opened Errors
  import opened Fmt

  class MeetingService {
    const native: Native
    const inner: RawPtr
    /** Whether `Drop` has run. */
    var destroyed: bool

    constructor (native: Native, inner: RawPtr)
      ensures this.native == native && this.inner == inner && !destroyed
    {
      this.native := native;
      this.inner := inner;
      destroyed := false;
    }

    /**
     * `MeetingService::new`: create, check the status, then null.
     * `created` is the pointer the native side writes back.
     */
    static method New(native: Native, create: Reply, created: RawPtr) returns (r: Result<MeetingService, Error>)
      modifies native
      ensures native.calls == old(native.calls) + [CreateMeetingService]
      ensures create.status != native.k.Success() ==>
        r == Err(NewError(native.k, create.status, true, create.lastError))
      ensures create.status == native.k.Success() && created.NullPtr? ==>
        r == Err(NewRust("ZOOMSDK_CreateMeetingService returned null"))
      ensures r.Ok? <==> create.status == native.k.Success() && created.Addr?
      ensures r.Ok? ==> fresh(r.value) && r.value.native == native && r.value.inner == created && !r.value.destroyed
    {
      var status := native.Invoke(CreateMeetingService, create);
      var w := ErrWrap(native.k, status, true, create.lastError);
      if w.Err? {
        return Err(w.error);
      }
      if created.NullPtr? {
        return Err(NewRust("ZOOMSDK_CreateMeetingService returned null"));
      }
      var service := new MeetingService(native, created);
      r := Ok(service);
    }

    /**
     * `handle_zoom_web_uri_protocol_action`: the URI goes to the native side NUL-terminated
     * (so it reads back as the text before any NUL), and the status is wrapped.
     */
    method HandleZoomWebUriProtocolAction(uri: string, reply: Reply) returns (r: Result<(), Error>)
      modifies native
      ensures native.calls == old(native.calls) + [Call.HandleZoomWebUriProtocolAction(inner, Wide(StrToU16Vec(uri)))]
      ensures U16ToString(Wide(StrToU16Vec(uri))) == TextBeforeNul(uri)
      ensures r.Ok? <==> reply.status == native.k.Success()
      ensures r == ErrWrap(native.k, reply.status, true, reply.lastError)
    {
      StrToU16VecRoundTrip(uri);
      var status := native.Invoke(Call.HandleZoomWebUriProtocolAction(inner, Wide(StrToU16Vec(uri))), reply);
      r := ErrWrap(native.k, status, true, reply.lastError);
    }

    /** `Drop`: destroys the native handle, once, and panics when that fails. */
    method Drop(reply: Reply) returns (c: Completion<()>)
      requires !destroyed
      modifies this, native
      ensures destroyed
      ensures native.calls == old(native.calls) + [DestroyMeetingService(inner)]
      ensures c.Panic? <==> reply.status != native.k.Success()
      ensures c == Unwrap(ErrWrap(native.k, reply.status, true, reply.lastError))
    {
      var status := native.Invoke(DestroyMeetingService(inner), reply);
      destroyed := true;
      c := Unwrap(ErrWrap(native.k, status, true, reply.lastError));
    }
  }

  /** `impl Debug for MeetingService`: the struct name and no fields, whatever the service holds. */
  function Debug(m: MeetingService): (text: string)
    ensures text == "zoom_sdk::MeetingService"
  {
    DebugStruct("zoom_sdk::MeetingService", [])
  }
}
