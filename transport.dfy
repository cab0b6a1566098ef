/** The two result envelopes that cross the C boundary, their success and error
    constructors, and what a C caller reads out of them. */
module Transport {
  import opened Wrappers
  import opened CStrings
  import opened Records

  /** A `*mut c_char`: null, or a buffer `CString::into_raw` handed out at `addr`
      together with the bytes it holds (a `CString` is never written afterwards). */
  datatype CharPtr = Null | Owned(addr: nat, bytes: seq<byte>)

  /** A `*mut Inotify`: null, or a boxed session at `addr`. */
  datatype SessionPtr = NullSession | Boxed(addr: nat)

  /** `INotifyC`, the handle a caller holds. */
  datatype Handle = Handle(ptr: SessionPtr)

  /** A `*mut [INotifyCEvent]`: null, or a boxed slice with its elements. */
  datatype EventArray = NullArray | BoxedSlice(items: seq<CEvent>)

  /** `ResultINotifyEventCTransport`. */
  datatype EventTransport = EventTransport(
    isOk: bool, errMsg: CharPtr, errLen: int, eventArray: EventArray, eventLen: int)

  /** `ResultINotifyCTransport`. */
  datatype HandleTransport = HandleTransport(
    isOk: bool, errMsg: CharPtr, errLen: int, inotify: Handle)

  /** The error fields agree with the tag: `is_ok` exactly when `err_msg` is null, a length of
      zero then, and otherwise a C string whose length `err_len` states (as a `c_int`). */
  predicate ErrorFieldsAgree(isOk: bool, errMsg: CharPtr, errLen: int) {
    && (isOk <==> errMsg.Null?)
    && (errMsg.Null? ==> errLen == 0)
    && (errMsg.Owned? ==> IsCString(errMsg.bytes) && errLen == AsCInt(|CStr(errMsg.bytes)|))
  }

  /** A well-formed event envelope: the array is never null, `event_len` counts it,
      and a failure carries an empty array. */
  predicate ValidEvents(t: EventTransport) {
    && ErrorFieldsAgree(t.isOk, t.errMsg, t.errLen)
    && t.eventArray.BoxedSlice?
    && t.eventLen == AsCInt(|t.eventArray.items|)
    && (!t.isOk ==> t.eventArray.items == [])
  }

  /** A well-formed handle envelope: the handle is non-null exactly on success. */
  predicate ValidHandle(t: HandleTransport) {
    && ErrorFieldsAgree(t.isOk, t.errMsg, t.errLen)
    && (t.isOk <==> t.inotify.ptr.Boxed?)
  }

  /** A handle envelope owns exactly one allocation: the session or the error string. */
  lemma HandleOwnsOneAllocation(t: HandleTransport)
    requires ValidHandle(t)
    ensures t.errMsg.Owned? <==> !t.inotify.ptr.Boxed?
  {
  }

  /** What a caller that branches on `is_ok` gets out of an envelope. */
  datatype Received<+T> = Delivered(value: T) | Failed(message: seq<byte>)

  function EventsView(t: EventTransport): Received<seq<CEvent>>
    requires ValidEvents(t)
  {
    if t.isOk then Delivered(t.eventArray.items) else Failed(CStr(t.errMsg.bytes))
  }

  function HandleView(t: HandleTransport): Received<nat>
    requires ValidHandle(t)
  {
    if t.isOk then Delivered(t.inotify.ptr.addr) else Failed(CStr(t.errMsg.bytes))
  }

  /** `ResultINotifyEventCTransport::new`: a success holding exactly `events`, in order. */
  function NewEvents(events: seq<CEvent>): (t: EventTransport)
    ensures ValidEvents(t) && t.isOk
    ensures EventsView(t) == Delivered(events)
    ensures |events| <= CIntMax ==> t.eventLen == |events|
  {
    EventTransport(true, Null, 0, BoxedSlice(events), AsCInt(|events|))
  }

  /** `ResultINotifyEventCTransport::new_err`, with the string placed at `at`; `CString::new`
      panics on a NUL, which is excluded. */
  function NewEventsErr(msg: string, at: nat): (t: EventTransport)
    requires '\0' !in msg
    ensures ValidEvents(t) && !t.isOk
    ensures t.errMsg.Owned? && t.errMsg.addr == at
    ensures EventsView(t) == Failed(Utf8(msg))
    ensures t.errLen == AsCInt(|Utf8(msg)|)
    ensures t.eventArray == BoxedSlice([]) && t.eventLen == 0
    ensures CStringNew(msg) == Some(t.errMsg.bytes)
  {
    CStringBuffer(msg);
    EventTransport(false, Owned(at, CStringBytes(msg)), AsCInt(|Utf8(msg)|), BoxedSlice([]), 0)
  }

  /** `ResultINotifyCTransport::new`, with the session boxed at `at`. */
  function NewHandle(at: nat): (t: HandleTransport)
    ensures ValidHandle(t) && t.isOk
    ensures HandleView(t) == Delivered(at)
  {
    HandleTransport(true, Null, 0, Handle(Boxed(at)))
  }

  /** `ResultINotifyCTransport::new_err`, with the string placed at `at`. */
  function NewHandleErr(msg: string, at: nat): (t: HandleTransport)
    requires '\0' !in msg
    ensures ValidHandle(t) && !t.isOk
    ensures t.errMsg.Owned? && t.errMsg.addr == at
    ensures HandleView(t) == Failed(Utf8(msg))
    ensures t.errLen == AsCInt(|Utf8(msg)|)
    ensures t.inotify.ptr == NullSession
    ensures CStringNew(msg) == Some(t.errMsg.bytes)
  {
    CStringBuffer(msg);
    HandleTransport(false, Owned(at, CStringBytes(msg)), AsCInt(|Utf8(msg)|), Handle(NullSession))
  }

  /** An empty batch is a success, distinct from every failure. */
  lemma EmptyBatchIsNotAnError(msg: string, at: nat)
    requires '\0' !in msg
    ensures NewEvents([]).isOk && NewEvents([]) != NewEventsErr(msg, at)
  {
  }
}
