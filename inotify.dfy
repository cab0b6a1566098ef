/** The vocabulary of the external `inotify` crate as the crate under study uses it:
    the flag sets `EventMask` and `WatchMask`, an event as handed out by
    `read_events_blocking`, and the kernel session that `Inotify::init` opens. */
module Inotify {
  import opened Wrappers

  /** The named flags of `inotify::EventMask`; a mask is the set of flags whose bits are set. */
  datatype EventFlag =
    | Access | Attrib | CloseWrite | CloseNoWrite | Create | Delete | DeleteSelf | Modify
    | MoveSelf | MovedFrom | MovedTo | Open | Ignored | IsDir | QOverflow | Unmount

  type EventMask = set<EventFlag>

  /** `EventMask::all()`: every flag the bitflags type knows. */
  const AllEventFlags: EventMask :=
    {Access, Attrib, CloseWrite, CloseNoWrite, Create, Delete, DeleteSelf, Modify,
     MoveSelf, MovedFrom, MovedTo, Open, Ignored, IsDir, QOverflow, Unmount}

  lemma AllEventFlagsComplete()
    ensures forall f: EventFlag :: f in AllEventFlags
  {
    forall f: EventFlag ensures f in AllEventFlags {
      match f
      case Access =>       case Attrib =>    case CloseWrite => case CloseNoWrite =>
      case Create =>       case Delete =>    case DeleteSelf => case Modify =>
      case MoveSelf =>     case MovedFrom => case MovedTo =>    case Open =>
      case Ignored =>      case IsDir =>     case QOverflow =>  case Unmount =>
    }
  }

  /** Bitflags `!m`: the complement is truncated to the known flags, so it holds
      exactly the flags that `m` lacks. */
  function Not(m: EventMask): (r: EventMask)
    ensures forall f :: f in r <==> f !in m
  {
    AllEventFlagsComplete();
    AllEventFlags - m
  }

  /** Bitflags `m.contains(other)`, defined as `m & other == other`: every flag of `other` is set in `m`. */
  predicate Contains(m: EventMask, other: EventMask)
    ensures Contains(m, other) <==> forall f :: f in other ==> f in m
  {
    m * other == other
  }

  /** The named flags of `inotify::WatchMask` that register interest in a kind of change. */
  datatype WatchFlag =
    | WatchAccess | WatchAttrib | WatchCloseWrite | WatchCloseNoWrite | WatchCreate | WatchDelete
    | WatchDeleteSelf | WatchModify | WatchMoveSelf | WatchMovedFrom | WatchMovedTo | WatchOpen

  type WatchMask = set<WatchFlag>

  /** One registration made by `add_watch`: the descriptor the kernel returned, the path and the mask. */
  datatype Watch = Watch(wd: int, path: string, mask: WatchMask)

  /** An `Inotify` value: the file descriptor `Inotify::init` opened and the watches added to it. */
  datatype Session = Session(fd: int, watches: seq<Watch>)

  /** The name an event carries, as an `&OsStr`: either it decodes as UTF-8 text or `to_str` fails. */
  datatype OsName = Text(text: string) | NotUnicode

  /** `inotify::Event<N>`: the watch it belongs to, its mask, the rename cookie and an optional name. */
  datatype Event<N> = Event(wd: int, mask: EventMask, cookie: nat, name: Option<N>)
}
