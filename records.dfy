/** The C-side event types (`INotifyCEventMask`, `INotifyCEvent`), the two `From`
    conversions, and the filter/map/collect chain of the blocking read. */
module Records {
  import opened Wrappers
  import opened Inotify

  /** `INotifyCEventMask`, the `#[repr(C)]` enum a caller receives. */
  datatype CEventMask = CREATE | DELETE | MODIFY | UNHANDLED

  /** `INotifyCEvent`: a name and a kind. */
  datatype CEvent = CEvent(name: string, mask: CEventMask)

  /** `From<EventMask>`: the match compares whole masks, so only a mask that is exactly one
      of the three single flags gets a kind of its own; every other mask is UNHANDLED. */
  function FromEventMask(m: EventMask): (k: CEventMask)
    ensures k == CREATE <==> m == {Create}
    ensures k == DELETE <==> m == {Delete}
    ensures k == MODIFY <==> m == {Modify}
    ensures k == UNHANDLED <==> m !in {{Create}, {Delete}, {Modify}}
  {
    if m == {Create} then CREATE
    else if m == {Delete} then DELETE
    else if m == {Modify} then MODIFY
    else UNHANDLED
  }

  /** The mask a handled kind is translated from. */
  function KindFlag(k: CEventMask): EventFlag
    requires k != UNHANDLED
  {
    match k
    case CREATE => Create
    case DELETE => Delete
    case MODIFY => Modify
  }

  /** A handled kind determines its mask, and that mask translates back to the kind. */
  lemma HandledKindRoundTrip(m: EventMask)
    requires FromEventMask(m) != UNHANDLED
    ensures m == {KindFlag(FromEventMask(m))}
  {
  }

  lemma KindRoundTrip(k: CEventMask)
    requires k != UNHANDLED
    ensures FromEventMask({KindFlag(k)}) == k
  {
  }

  /** A mask with more than one flag, such as CREATE together with ISDIR, is UNHANDLED. */
  lemma CombinedMaskUnhandled(m: EventMask, f: EventFlag, g: EventFlag)
    requires f in m && g in m && f != g
    ensures FromEventMask(m) == UNHANDLED
  {
  }

  /** The name `From<Event<String>>` puts in place of a missing one. */
  const NoName: string := "none"

  /** `From<Event<String>>`: the name if there is one, otherwise "none", and the translated kind. */
  function FromEvent(e: Event<string>): (r: CEvent)
    ensures r.mask == FromEventMask(e.mask)
    ensures e.name.Some? ==> r.name == e.name.value
    ensures e.name.None? ==> r.name == NoName
  {
    CEvent(match e.name case Some(n) => n case None => NoName, FromEventMask(e.mask))
  }

  /** The sentinel is not distinguishable from an entry that is really called "none". */
  lemma NoNameIsAmbiguous(wd: int, mask: EventMask, cookie: nat)
    ensures FromEvent(Event(wd, mask, cookie, None)) == FromEvent(Event(wd, mask, cookie, Some(NoName)))
  {
  }

  // ---- The read path (filter, map, collect) ----

  /** The filter mask `!ISDIR | CREATE | MODIFY | DELETE`. */
  const ReadFilter: EventMask := Not({IsDir}) + {Create, Modify, Delete}

  /** The filter closure: the event's mask contains every flag of `ReadFilter`. */
  predicate Kept<N>(e: Event<N>)
    ensures Kept(e) ==> Create in e.mask && Modify in e.mask && Delete in e.mask
  {
    Contains(e.mask, ReadFilter)
  }

  /** Because the complement spans every known flag, the filter keeps an event exactly
      when its mask holds every flag other than ISDIR. */
  lemma KeptIff<N>(e: Event<N>)
    ensures Kept(e) <==> forall f: EventFlag :: f != IsDir ==> f in e.mask
  {
    assert forall f :: f in ReadFilter <==> f != IsDir;
  }

  /** An event the filter keeps always maps to UNHANDLED: its mask holds at least CREATE and MODIFY. */
  lemma KeptEventUnhandled<N>(e: Event<N>)
    requires Kept(e)
    ensures FromEventMask(e.mask) == UNHANDLED
  {
    KeptIff(e);
    CombinedMaskUnhandled(e.mask, Create, Modify);
  }

  /** Events carrying exactly one of the three watched kinds never pass the filter. */
  lemma SingleKindDropped<N>(e: Event<N>)
    requires e.mask == {Create} || e.mask == {Delete} || e.mask == {Modify}
    ensures !Kept(e)
  {
    if Kept(e) {
      KeptEventUnhandled(e);
    }
  }

  /** The map closure may unwrap the name and decode it: it panics otherwise. */
  predicate Decodable(e: Event<OsName>) {
    e.name.Some? && e.name.value.Text?
  }

  /** The map closure: the decoded name and the translated kind. */
  function ReadRecord(e: Event<OsName>): (r: CEvent)
    requires Decodable(e)
    ensures r.name == e.name.value.text
    ensures r.mask == FromEventMask(e.mask)
  {
    CEvent(e.name.value.text, FromEventMask(e.mask))
  }

  /** Where a name is present the read path builds the same record as `From<Event<String>>`. */
  lemma ReadRecordAgreesWithFromEvent(e: Event<OsName>)
    requires Decodable(e)
    ensures ReadRecord(e) == FromEvent(Event(e.wd, e.mask, e.cookie, Some(e.name.value.text)))
  {
  }

  /** `.filter(...)`: the events the filter keeps, in arrival order. */
  function Filter(s: seq<Event<OsName>>): (r: seq<Event<OsName>>)
    ensures |r| <= |s|
    ensures forall e :: e in r ==> e in s && Kept(e)
  {
    if s == [] then []
    else if Kept(s[0]) then [s[0]] + Filter(s[1..])
    else Filter(s[1..])
  }

  /** Nothing the filter accepts is lost. */
  lemma {:induction false} FilterComplete(s: seq<Event<OsName>>, e: Event<OsName>)
    requires e in s && Kept(e)
    ensures e in Filter(s)
  {
    if s[0] != e {
      FilterComplete(s[1..], e);
    }
  }

  /** Filtering commutes with concatenation, so arrival order is preserved. */
  lemma {:induction false} FilterAppend(a: seq<Event<OsName>>, b: seq<Event<OsName>>)
    ensures Filter(a + b) == Filter(a) + Filter(b)
  {
    if a == [] {
      assert a + b == b;
    } else {
      assert (a + b)[0] == a[0];
      assert (a + b)[1..] == a[1..] + b;
      FilterAppend(a[1..], b);
    }
  }

  /** A batch where every event passes comes through unchanged. */
  lemma {:induction false} FilterKeepsAll(s: seq<Event<OsName>>)
    requires forall e :: e in s ==> Kept(e)
    ensures Filter(s) == s
  {
    if s != [] {
      FilterKeepsAll(s[1..]);
    }
  }

  /** `.map(...)` on the kept events. */
  function MapRecords(kept: seq<Event<OsName>>): (r: seq<CEvent>)
    requires forall e :: e in kept ==> Decodable(e)
    ensures |r| == |kept|
    ensures forall i :: 0 <= i < |kept| ==> r[i] == ReadRecord(kept[i])
  {
    if kept == [] then [] else [ReadRecord(kept[0])] + MapRecords(kept[1..])
  }

  /** The whole chain, collected into a vector. */
  function ReadBatch(s: seq<Event<OsName>>): (r: seq<CEvent>)
    requires forall e :: e in Filter(s) ==> Decodable(e)
    ensures |r| == |Filter(s)|
    ensures forall i :: 0 <= i < |r| ==> r[i] == ReadRecord(Filter(s)[i])
  {
    MapRecords(Filter(s))
  }

  /** Every record the read path delivers has kind UNHANDLED. */
  lemma ReadBatchUnhandled(s: seq<Event<OsName>>)
    requires forall e :: e in Filter(s) ==> Decodable(e)
    ensures forall r :: r in ReadBatch(s) ==> r.mask == UNHANDLED
  {
    var b := ReadBatch(s);
    forall r | r in b ensures r.mask == UNHANDLED {
      var i :| 0 <= i < |b| && b[i] == r;
      KeptEventUnhandled(Filter(s)[i]);
    }
  }
}
