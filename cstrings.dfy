/** Byte-level facts the boundary relies on: the `as c_int` cast, the UTF-8 bytes of a Rust
    `&str` (whose `len()` counts them), and the NUL-terminated buffer `CString` hands out. */
module CStrings {
  import opened Wrappers

  newtype byte = x: int | 0 <= x < 256

  const CIntModulus: int := 0x1_0000_0000
  const CIntMax: int := 0x7FFF_FFFF

  /** `n as c_int` for a `usize` `n`: keep the low 32 bits and read them as two's complement. */
  function AsCInt(n: nat): (r: int)
    ensures -CIntMax - 1 <= r <= CIntMax
    ensures (n - r) % CIntModulus == 0
    ensures n <= CIntMax ==> r == n
  {
    var low := n % CIntModulus;
    if low <= CIntMax then low else low - CIntModulus
  }

  /** The UTF-8 encoding of one Unicode scalar value. */
  function EncodeChar(c: char): (r: seq<byte>)
    ensures 1 <= |r| <= 4
    ensures |r| == 1 <==> c as int < 0x80
    ensures 0 in r <==> c == '\0'
  {
    var n := c as int;
    if n < 0x80 then
      [n as byte]
    else if n < 0x800 then
      [(0xC0 + n / 0x40) as byte, (0x80 + n % 0x40) as byte]
    else if n < 0x1_0000 then
      [(0xE0 + n / 0x1000) as byte, (0x80 + n / 0x40 % 0x40) as byte, (0x80 + n % 0x40) as byte]
    else
      [(0xF0 + n / 0x4_0000) as byte, (0x80 + n / 0x1000 % 0x40) as byte,
       (0x80 + n / 0x40 % 0x40) as byte, (0x80 + n % 0x40) as byte]
  }

  /** The bytes of a Rust string; `s.len()` is `|Utf8(s)|`. */
  function Utf8(s: string): (r: seq<byte>)
    ensures |s| <= |r| <= 4 * |s|
  {
    if s == [] then [] else EncodeChar(s[0]) + Utf8(s[1..])
  }

  /** A string holds a NUL byte exactly when it holds the character NUL. */
  lemma {:induction false} Utf8HasNul(s: string)
    ensures 0 in Utf8(s) <==> '\0' in s
  {
    if s != [] {
      Utf8HasNul(s[1..]);
      assert s == [s[0]] + s[1..];
    }
  }

  /** Text that a C string can carry: it holds no NUL. */
  type NulFree = s: string | '\0' !in s

  /** A buffer as `CString::into_raw` leaves it: one NUL, at the very end. */
  predicate IsCString(b: seq<byte>) {
    |b| > 0 && b[|b| - 1] == 0 && 0 !in b[..|b| - 1]
  }

  /** What a C caller reads through a `char*`: the bytes before the first NUL (`strlen` of them). */
  function CStr(b: seq<byte>): (r: seq<byte>)
    ensures 0 !in r
    ensures r <= b
  {
    if b == [] || b[0] == 0 then [] else [b[0]] + CStr(b[1..])
  }

  /** Reading stops at the first NUL, whatever follows it. */
  lemma {:induction false} CStrStopsAtNul(p: seq<byte>, rest: seq<byte>)
    requires 0 !in p
    ensures CStr(p + [0] + rest) == p
  {
    if p != [] {
      assert (p + [0] + rest)[1..] == p[1..] + [0] + rest;
      CStrStopsAtNul(p[1..], rest);
    }
  }

  /** The text of a C string buffer is everything but its terminator. */
  lemma CStrOfCString(b: seq<byte>)
    requires IsCString(b)
    ensures CStr(b) == b[..|b| - 1]
  {
    assert b == b[..|b| - 1] + [0] + [];
    CStrStopsAtNul(b[..|b| - 1], []);
  }

  /** The buffer a `CString` holds for `s`: its bytes and a terminating NUL. */
  function CStringBytes(s: string): seq<byte> {
    Utf8(s) + [0]
  }

  /** `CString::new(s)`: fails when the bytes of `s` hold a NUL, otherwise a buffer that
      a C reader sees as exactly the bytes of `s`. */
  function CStringNew(s: string): (r: Option<seq<byte>>)
    ensures r.Some? <==> '\0' !in s
    ensures r.Some? ==> r.value == CStringBytes(s)
    ensures r.Some? ==> IsCString(r.value) && CStr(r.value) == Utf8(s)
  {
    if '\0' in s then
      None
    else
      CStringBuffer(s);
      Some(CStringBytes(s))
  }

  /** The buffer of a NUL-free string is a C string that reads back as that string. */
  lemma CStringBuffer(s: string)
    requires '\0' !in s
    ensures IsCString(CStringBytes(s)) && CStr(CStringBytes(s)) == Utf8(s)
  {
    Utf8HasNul(s);
    var bytes := Utf8(s);
    assert (bytes + [0])[..|bytes|] == bytes;
    CStrStopsAtNul(bytes, []);
    assert bytes + [0] + [] == bytes + [0];
  }
}
