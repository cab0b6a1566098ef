/** The four `extern "C"` entry points, as transitions of the allocations this crate
    hands across the boundary: boxed sessions and `CString` error buffers. */
module Ffi {
  import opened Wrappers
  import opened Inotify
  import opened CStrings
  import opened Records
  import opened Transport

  /** The five ways an entry point fails, each reported with its own message. */
  datatype Failure = PathIsNull | InitFailed | WatchFailed | HandleIsNull | ReadFailed

  /** The message an error envelope carries; none holds a NUL, so `CString::new(msg).unwrap()`
      never panics on them. */
  function Message(f: Failure): (m: string)
    ensures '\0' !in m
  {
    match f
    case PathIsNull => "Nullptr passed as path"
    case InitFailed => "Failed to initialize inotify"
    case WatchFailed => "Failed to watch directory"
    case HandleIsNull => "Inotify instance is a nullptr."
    case ReadFailed => "Error while reading events from inotify"
  }

  /** The mask `inotify_init` registers: `CREATE | MODIFY | DELETE`. */
  const WatchedMask: WatchMask := {WatchCreate, WatchModify, WatchDelete}

  /** The `c_path` argument: null, or a C string whose bytes decode to `text` (so `text` has no NUL). */
  datatype PathArg = NullPath | CPath(text: NulFree)

  /** The process heap as far as this crate's boundary allocations go. */
  class Heap {
    /** Live `Box<Inotify>` allocations, by address. */
    ghost var sessions: map<nat, Session>
    /** Live `CString` buffers handed out in error envelopes, by address. */
    ghost var errors: set<nat>
    /** The allocator: every address below `next` has been handed out, none is reused. */
    var next: nat

    ghost predicate Valid()
      reads this
    {
      && (forall a :: a in sessions ==> a < next)
      && (forall a :: a in errors ==> a < next)
      && sessions.Keys !! errors
    }

    constructor ()
      ensures Valid() && sessions == map[] && errors == {}
    {
      sessions := map[];
      errors := {};
      next := 0;
    }

    /** A fresh address from the allocator. */
    method Allocate() returns (a: nat)
      requires Valid()
      modifies this`next
      ensures Valid() && a == old(next) && next == a + 1
    {
      a := next;
      next := next + 1;
    }

    /** `new_err` of the handle envelope: the message's `CString` becomes live. */
    method HandleError(msg: string) returns (r: HandleTransport)
      requires Valid() && '\0' !in msg
      modifies this
      ensures Valid()
      ensures r == NewHandleErr(msg, old(next)) && next == old(next) + 1
      ensures sessions == old(sessions) && errors == old(errors) + {old(next)}
    {
      var a := Allocate();
      errors := errors + {a};
      r := NewHandleErr(msg, a);
    }

    /** `new_err` of the event envelope: the message's `CString` becomes live. */
    method EventsError(msg: string) returns (r: EventTransport)
      requires Valid() && '\0' !in msg
      modifies this
      ensures Valid()
      ensures r == NewEventsErr(msg, old(next)) && next == old(next) + 1
      ensures sessions == old(sessions) && errors == old(errors) + {old(next)}
    {
      var a := Allocate();
      errors := errors + {a};
      r := NewEventsErr(msg, a);
    }

    /** `inotify_init(c_path)`, with the outcomes of `Inotify::init` (a descriptor) and of
        `add_watch` (a watch descriptor) given. A failure returns an error envelope and
        boxes nothing; a success boxes the watching session and returns its handle. */
    method Init(cPath: PathArg, init: IoResult<int>, watch: IoResult<int>) returns (r: HandleTransport)
      requires Valid()
      modifies this
      ensures Valid() && ValidHandle(r)
      ensures old(next) <= next
      ensures r.errMsg.Owned? ==> r.errMsg.addr in errors
      ensures r.inotify.ptr.Boxed? ==> r.inotify.ptr.addr in sessions
      ensures cPath.NullPath? ==>
        r == NewHandleErr(Message(PathIsNull), old(next))
        && sessions == old(sessions) && errors == old(errors) + {old(next)}
      ensures cPath.CPath? && init.IoError? ==>
        r == NewHandleErr(Message(InitFailed), old(next))
        && sessions == old(sessions) && errors == old(errors) + {old(next)}
      ensures cPath.CPath? && init.Ok? && watch.IoError? ==>
        r == NewHandleErr(Message(WatchFailed), old(next))
        && sessions == old(sessions) && errors == old(errors) + {old(next)}
      ensures cPath.CPath? && init.Ok? && watch.Ok? ==>
        r == NewHandle(old(next)) && errors == old(errors)
        && sessions == old(sessions)[old(next) := Session(init.value, [Watch(watch.value, cPath.text, WatchedMask)])]
    {
      if cPath.NullPath? {
        r := HandleError(Message(PathIsNull));
        return;
      }
      if init.Ok? {
        var session := Session(init.value, []);
        if watch.IoError? {
          // the unboxed session is dropped on return
          r := HandleError(Message(WatchFailed));
          return;
        }
        session := session.(watches := session.watches + [Watch(watch.value, cPath.text, WatchedMask)]);
        assert session.watches == [Watch(watch.value, cPath.text, WatchedMask)];
        var a := Allocate();
        sessions := sessions[a := session];
        r := NewHandle(a);
        return;
      }
      r := HandleError(Message(InitFailed));
    }

    /** `inotify_read_blocking(inotify_c)`, with the outcome of `read_events_blocking` given.
        A non-null handle must point at a live box: `Box::from_raw` takes it back and the
        session is freed when the call returns, on the error path as well. */
    method ReadBlocking(h: Handle, read: IoResult<seq<Event<OsName>>>) returns (r: EventTransport)
      requires Valid()
      requires h.ptr.Boxed? ==> h.ptr.addr in sessions
      requires h.ptr.Boxed? && read.Ok? ==> forall e :: e in Filter(read.value) ==> Decodable(e)
      modifies this
      ensures Valid() && ValidEvents(r)
      ensures old(next) <= next
      ensures r.errMsg.Owned? ==> r.errMsg.addr in errors
      ensures h.ptr.NullSession? ==>
        r == NewEventsErr(Message(HandleIsNull), old(next))
        && sessions == old(sessions) && errors == old(errors) + {old(next)}
      ensures h.ptr.Boxed? ==> sessions == old(sessions) - {h.ptr.addr} && h.ptr.addr !in sessions
      ensures h.ptr.Boxed? && read.IoError? ==>
        r == NewEventsErr(Message(ReadFailed), old(next)) && errors == old(errors) + {old(next)}
      ensures h.ptr.Boxed? && read.Ok? ==>
        r == NewEvents(ReadBatch(read.value)) && errors == old(errors)
    {
      if h.ptr.NullSession? {
        r := EventsError(Message(HandleIsNull));
        return;
      }
      var box := h.ptr.addr;
      if read.IoError? {
        r := EventsError(Message(ReadFailed));
      } else {
        r := NewEvents(ReadBatch(read.value));
      }
      // the reclaimed box goes out of scope
      sessions := sessions - {box};
    }

    /** `inotify_destroy(inotify_c)`: dropping a raw pointer value frees nothing,
        so every session stays live. */
    method Destroy(h: Handle)
      requires Valid()
      ensures Valid() && sessions == old(sessions) && errors == old(errors) && next == old(next)
    {
      if h.ptr.NullSession? {
        return;
      }
    }

    /** `inotify_destroy_error(err)`: reclaims and frees exactly that `CString`, which must be live. */
    method DestroyError(err: CharPtr)
      requires Valid()
      requires err.Owned? ==> err.addr in errors
      modifies this
      ensures Valid() && sessions == old(sessions) && next == old(next)
      ensures errors == if err.Null? then old(errors) else old(errors) - {err.addr}
    {
      if err.Null? {
        return;
      }
      errors := errors - {err.addr};
    }
  }

  /** A caller's full round: create, read once, destroy the consumed handle, create and read
      again, and free the message of a failed create. Every allocation is released except the
      event arrays. */
  method ReadOnceLifecycle(path: NulFree, fd: int, wd: int, events: seq<Event<OsName>>)
    requires forall e :: e in Filter(events) ==> Decodable(e)
  {
    var heap := new Heap();
    var created := heap.Init(CPath(path), Ok(fd), Ok(wd));
    var at := created.inotify.ptr.addr;
    assert heap.sessions[at].watches == [Watch(wd, path, WatchedMask)];
    var batch := heap.ReadBlocking(created.inotify, Ok(events));
    assert EventsView(batch) == Delivered(ReadBatch(events));
    assert heap.sessions == map[];
    heap.Destroy(created.inotify);
    var again := heap.Init(CPath(path), Ok(fd), Ok(wd));
    assert created.inotify.ptr.addr !in heap.sessions;   // the consumed address is not handed out again
    batch := heap.ReadBlocking(again.inotify, Ok([]));
    var failed := heap.Init(NullPath, Ok(fd), Ok(wd));
    assert !failed.isOk && failed.inotify.ptr.NullSession?;
    heap.DestroyError(failed.errMsg);
    assert heap.sessions == map[] && heap.errors == {};
  }

  /** Create then destroy without a read: the boxed session outlives `inotify_destroy`. */
  method DestroyLeaksSession(path: NulFree, fd: int, wd: int)
  {
    var heap := new Heap();
    var created := heap.Init(CPath(path), Ok(fd), Ok(wd));
    heap.Destroy(created.inotify);
    heap.Destroy(created.inotify);
    assert created.inotify.ptr.addr in heap.sessions;
  }
}
