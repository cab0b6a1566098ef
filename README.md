# crusty-notify: the C boundary of an inotify wrapper, in Dafny

crusty-notify is a small Rust crate. It exposes Linux inotify to C callers through four
`extern "C"` functions:

- `inotify_init` creates a watch handle;
- `inotify_read_blocking` blocks until events arrive and returns them as an array;
- `inotify_destroy` and `inotify_destroy_error` let the caller give memory back.

Every result crosses the boundary in one of two tagged structs. Each has an `is_ok` flag, an
error string and its length, and a payload: a boxed `Inotify` session, or an event array
with its count.

This project models that protocol.

- `wrappers.dfy` holds `Option` and the shape of an I/O result.
- `inotify.dfy` holds the parts of the external `inotify` crate the protocol uses. Event and
  watch masks are sets of flags, and bitflags `!` and `contains` are modelled on those sets.
  It also models events, sessions and watches.
- `cstrings.dfy` holds the byte-level facts:
  - the `as c_int` cast, including 32-bit wrap-around;
  - the UTF-8 bytes of a Rust `&str`, whose `len()` is the byte count;
  - the buffer `CString::new` builds, and what a C reader sees through the pointer.
- `records.dfy` holds the C enum and record, both `From` conversions, and the read path's
  filter, map and collect chain.
- `transport.dfy` holds the two envelopes:
  - their well-formedness predicates, which tie `is_ok`, `err_msg`, `err_len`, the payload
    pointer and `event_len` together;
  - the four constructors;
  - what a caller that branches on `is_ok` receives.
- `ffi.dfy` holds a `Heap` class. Its ghost state is the map of live boxed sessions and the
  set of live error strings. Its methods are the four entry points. Each method states which
  allocations it creates and releases, and which envelope it returns. The allocator only moves
  forward, so an address is never handed out twice. Two client methods at the end show a full
  round (create, read, destroy, create and read again, free the error) and the leak that
  `inotify_destroy` leaves.

The calls into the operating system are parameters of the entry points. This covers the
outcome of `Inotify::init` (a descriptor or an error), of `add_watch` (a watch descriptor or
an error) and of `read_events_blocking` (an event sequence or an error).

Several behaviours of the code are easy to misread. The model follows the code:

- An empty path is not rejected. Only a null path is.
- The read filter is `e.mask.contains(!ISDIR | CREATE | MODIFY | DELETE)`. Bitflags truncates
  the complement to the known flags, so the filter keeps an event only when its mask holds
  every known flag except ISDIR (`Records.KeptIff`).
  - Events carrying just CREATE, DELETE or MODIFY are therefore dropped
    (`Records.SingleKindDropped`).
  - Every record that a read does deliver has kind UNHANDLED (`Records.ReadBatchUnhandled`).
- The read path does not use the `"none"` default. It unwraps the name and decodes it as
  UTF-8, which panics when the name is missing or not UTF-8. That panic is excluded by the
  precondition of `ReadBlocking`.
- `inotify_read_blocking` takes back the boxed session with `Box::from_raw` on every path
  where the handle is non-null. The session is freed when the call returns, after a failed
  read as well. The handle is dangling afterwards, so a second read on it does not meet the
  precondition.
- `inotify_destroy` drops only the raw pointer value and releases nothing.

## Model

| member | source | states |
|---|---|---|
| `Inotify.Not` | src/lib.rs:173 | bitflags `!m` holds exactly the known flags that `m` lacks |
| `Inotify.Contains` | src/lib.rs:172 | bitflags `m.contains(other)`, computed as `m & other == other`, holds exactly when every flag of `other` is set in `m` |
| `CStrings.AsCInt` | src/lib.rs:62 | `n as c_int` lies in the 32-bit signed range, agrees with `n` modulo 2^32, and equals `n` when `n` fits |
| `CStrings.EncodeChar` | src/lib.rs:70 | a character takes 1 to 4 UTF-8 bytes, exactly 1 for ASCII, and contains a zero byte only if it is NUL |
| `CStrings.Utf8` | src/lib.rs:70 | the byte length `msg.len()` is between the character count and four times it |
| `CStrings.Utf8HasNul` | src/lib.rs:69 | the bytes of a string contain a NUL exactly when the string contains the NUL character |
| `CStrings.CStr` | src/lib.rs:25 | a C reader of `err_msg` sees a NUL-free prefix of the buffer |
| `CStrings.CStrStopsAtNul` | src/lib.rs:69 | reading a C string stops at its first NUL, whatever follows it |
| `CStrings.CStrOfCString` | src/lib.rs:69 | a well-formed C string buffer reads back as everything but its terminator |
| `CStrings.CStringNew` | src/lib.rs:69 | `CString::new(s)` succeeds exactly when `s` has no NUL, and its buffer is a C string that reads back as the bytes of `s` |
| `CStrings.CStringBuffer` | src/lib.rs:92 | the buffer built for a NUL-free message is a C string whose text is the message's bytes |
| `Records.FromEventMask` | src/lib.rs:103-112 | CREATE, DELETE, MODIFY each come from exactly the single-flag mask of that name; every other mask is UNHANDLED |
| `Records.HandledKindRoundTrip` | src/lib.rs:105-108 | a mask that gets a handled kind is exactly the one flag of that kind |
| `Records.KindRoundTrip` | src/lib.rs:105-108 | the one-flag mask of a handled kind translates back to that kind |
| `Records.CombinedMaskUnhandled` | src/lib.rs:109 | any mask with two distinct flags, for example CREATE with ISDIR, is UNHANDLED |
| `Records.FromEvent` | src/lib.rs:116-123 | the record keeps the event's name if present, otherwise `"none"`, and translates the mask |
| `Records.NoNameIsAmbiguous` | src/lib.rs:119 | an event without a name and one named `"none"` give the same record |
| `Records.Kept` | src/lib.rs:171-175 | the filter closure keeps an event only if its mask contains the whole filter mask, so a kept mask holds CREATE, MODIFY and DELETE |
| `Records.KeptIff` | src/lib.rs:171-175 | the read filter keeps an event exactly when its mask holds every known flag other than ISDIR |
| `Records.KeptEventUnhandled` | src/lib.rs:171-181 | every event the filter keeps maps to UNHANDLED |
| `Records.SingleKindDropped` | src/lib.rs:171-175 | an event whose mask is just CREATE, DELETE or MODIFY never passes the filter |
| `Records.ReadRecord` | src/lib.rs:176-182 | the read path's record holds the decoded name and the translated kind |
| `Records.ReadRecordAgreesWithFromEvent` | src/lib.rs:178-181 | when a name is present, the read path builds the same record as `From<Event<String>>` |
| `Records.Filter` | src/lib.rs:169-175 | the filtered batch is no longer than the input, and holds only input events that pass the filter |
| `Records.FilterComplete` | src/lib.rs:171-175 | every input event that passes the filter is in the filtered batch |
| `Records.FilterAppend` | src/lib.rs:169-175 | filtering commutes with concatenation, so arrival order is kept |
| `Records.FilterKeepsAll` | src/lib.rs:171-175 | a batch whose events all pass comes through unchanged |
| `Records.MapRecords` | src/lib.rs:176-183 | mapping keeps the count and turns position i into the record of kept event i |
| `Records.ReadBatch` | src/lib.rs:169-183 | the collected vector holds, in order, one record for each kept event and nothing else |
| `Records.ReadBatchUnhandled` | src/lib.rs:169-183 | every record a read can deliver has kind UNHANDLED |
| `Transport.HandleOwnsOneAllocation` | src/lib.rs:77-98 | a handle envelope owns exactly one of a session and an error string |
| `Transport.NewEvents` | src/lib.rs:55-64 | success batch: well-formed, `is_ok`, null error with length 0, a non-null array of exactly the given events in order, and `event_len` equal to their count when it fits a `c_int` |
| `Transport.NewEventsErr` | src/lib.rs:66-74 | error batch: well-formed, not ok, a non-null C string reading back as the bytes of `msg`, `err_len` its byte length as a `c_int`, an empty non-null array, `event_len` 0; the buffer is exactly what `CString::new(msg)` yields |
| `Transport.NewHandle` | src/lib.rs:78-87 | success handle: well-formed, `is_ok`, null error with length 0, and a non-null handle at the box's address |
| `Transport.NewHandleErr` | src/lib.rs:89-98 | error handle: well-formed, not ok, a non-null C string reading back as the bytes of `msg`, `err_len` its byte length, and a null handle; the buffer is exactly what `CString::new(msg)` yields |
| `Transport.EmptyBatchIsNotAnError` | src/lib.rs:55-74 | an empty batch is a success and differs from every error envelope |
| `Ffi.Message` | src/lib.rs:130-166 | none of the five error messages contains a NUL, so building its `CString` cannot panic |
| `Ffi.Heap.HandleError` | src/lib.rs:92 | a handle error envelope makes exactly one new error string live at the next address, advances the allocator by one and touches no session |
| `Ffi.Heap.EventsError` | src/lib.rs:69 | a batch error envelope makes exactly one new error string live at the next address, advances the allocator by one and touches no session |
| `Ffi.Heap.Init` | src/lib.rs:128-150 | null path, session open failure and `add_watch` failure each return their error envelope, allocate only that error string and box no session; otherwise one session, watching the path with CREATE, MODIFY and DELETE, is boxed and returned; the allocator never moves back |
| `Ffi.Heap.ReadBlocking` | src/lib.rs:154-186 | a null handle gives the null-handle error without touching sessions; a non-null handle's live session is reclaimed and freed on every path; a read failure gives the read error; otherwise a success batch of the filtered, mapped events; the allocator never moves back |
| `Ffi.Heap.Destroy` | src/lib.rs:190-197 | for null and non-null handles alike, no session and no error string is released and no address is handed out |
| `Ffi.Heap.DestroyError` | src/lib.rs:200-208 | null does nothing; otherwise exactly that live error string is released and nothing else; the allocator does not move |

## Left out

- `Inotify::init`, `add_watch` and `read_events_blocking` belong to the external `inotify`
  crate and the kernel. Their outcomes are parameters, and their parsing of the kernel's
  byte buffer is not modelled.
- The blocking wait and the 4096-byte stack buffer (src/lib.rs:162) are not modelled.
  The read yields an event sequence or an error.
- `Ffi.Heap.ReadBlocking`: the read's outcome is a parameter of its own. The model does not
  tie it to the session being read.
- String decoding panics are excluded, not modelled. `into_string().unwrap()` on the path is
  excluded by the type `PathArg`. `name.unwrap().to_str().unwrap()` is excluded by the
  `Decodable` precondition. `CString::new(msg).unwrap()` is excluded by the no-NUL
  precondition.
- `CString::from_raw(c_path)` (src/lib.rs:133) takes over the caller's path buffer and frees
  it when `inotify_init` returns. The model tracks only the crate's own allocations, so it
  does not record this.
- Event arrays (`Box::into_raw` at src/lib.rs:61 and src/lib.rs:71) are values in the model,
  not tracked allocations. No entry point ever frees one.
- A boxed session is freed when it is dropped. The model records that as leaving the live map.
  Closing its file descriptor is not modelled separately. On the `add_watch` failure path the
  session is dropped before it is ever boxed, so the live map never contains it.
- `From<Inotify> for INotifyC` (src/lib.rs:44-50) is called by no entry point. It boxes a
  session the same way `Transport.NewHandle` does.
- The `#[repr(C)]` layout and the representation of raw pointers are replaced by abstract
  addresses. Addresses come from a counter and are never reused.
- The header files hold no logic. `include/crusty-notify.h` declares the four entry points.
  `include/rinotify.h` is a stale declaration with other signatures: `inotify_destroy` takes a
  result struct (rinotify.h:20), `inotify_read_blocking` returns `void` (rinotify.h:27), and
  there is no `inotify_destroy_error`.
- The crate has no concurrency, so none is modelled.
