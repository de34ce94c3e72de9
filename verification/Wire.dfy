/** Little-endian integers on the wire, and the frame header both ends agree on. */
module Wire {
  import opened Codes

  type byte = b: int | 0 <= b < 256

  function U16(v: nat): (r: seq<byte>)
    ensures |r| == 2
  {
    [v % 256, v / 256 % 256]
  }

  function U32(v: nat): (r: seq<byte>)
    ensures |r| == 4
  {
    [v % 256, v / 0x100 % 256, v / 0x1_0000 % 256, v / 0x100_0000 % 256]
  }

  function U64(v: nat): (r: seq<byte>)
    ensures |r| == 8
  {
    U32(v % 0x1_0000_0000) + U32(v / 0x1_0000_0000)
  }

  function ReadU16(s: seq<byte>, i: nat): (r: nat)
    requires i + 2 <= |s|
    ensures r < 0x1_0000
  {
    s[i] as int + 0x100 * s[i + 1] as int
  }

  function ReadU32(s: seq<byte>, i: nat): (r: nat)
    requires i + 4 <= |s|
    ensures r < 0x1_0000_0000
  {
    s[i] as int + 0x100 * s[i + 1] as int + 0x1_0000 * s[i + 2] as int + 0x100_0000 * s[i + 3] as int
  }

  function ReadU64(s: seq<byte>, i: nat): (r: nat)
    requires i + 8 <= |s|
    ensures r < 0x1_0000_0000_0000_0000
  {
    ReadU32(s, i) + 0x1_0000_0000 * ReadU32(s, i + 4)
  }

  /** A field reads back as the value it was written from. */
  lemma U16Reads(v: nat, s: seq<byte>, i: nat)
    requires v < 0x1_0000 && i + 2 <= |s| && s[i..i + 2] == U16(v)
    ensures ReadU16(s, i) == v
  {
    assert s[i] == U16(v)[0] && s[i + 1] == U16(v)[1];
  }

  lemma U32Reads(v: nat, s: seq<byte>, i: nat)
    requires v < 0x1_0000_0000 && i + 4 <= |s| && s[i..i + 4] == U32(v)
    ensures ReadU32(s, i) == v
  {
    var w := s[i..i + 4];
    assert s[i] == w[0] && s[i + 1] == w[1] && s[i + 2] == w[2] && s[i + 3] == w[3];
    var a, b, c := v / 0x100, v / 0x1_0000, v / 0x100_0000;
    assert b == a / 256 && c == b / 256 && c < 256;
    assert v == v % 256 + 256 * a && a == a % 256 + 256 * b && b == b % 256 + 256 * c;
  }

  lemma U64Reads(v: nat, s: seq<byte>, i: nat)
    requires v < 0x1_0000_0000_0000_0000 && i + 8 <= |s| && s[i..i + 8] == U64(v)
    ensures ReadU64(s, i) == v
  {
    var w := s[i..i + 8];
    assert s[i..i + 4] == w[..4] && s[i + 4..i + 8] == w[4..];
    assert w[..4] == U32(v % 0x1_0000_0000) && w[4..] == U32(v / 0x1_0000_0000);
    U32Reads(v % 0x1_0000_0000, s, i);
    U32Reads(v / 0x1_0000_0000, s, i + 4);
  }

  /** And its bytes are the ones its value is written as. */
  lemma U16Writes(s: seq<byte>, i: nat)
    requires i + 2 <= |s|
    ensures U16(ReadU16(s, i)) == s[i..i + 2]
  {
    var v := ReadU16(s, i);
    assert v / 256 == s[i + 1] && v % 256 == s[i];
    assert s[i..i + 2] == [s[i], s[i + 1]];
  }

  lemma U32Writes(s: seq<byte>, i: nat)
    requires i + 4 <= |s|
    ensures U32(ReadU32(s, i)) == s[i..i + 4]
  {
    var v := ReadU32(s, i);
    var b: nat, c: nat, d: nat := s[i + 1], s[i + 2], s[i + 3];
    assert v / 0x100 == b + 0x100 * c + 0x1_0000 * d && v % 0x100 == s[i];
    assert v / 0x1_0000 == c + 0x100 * d && v / 0x100_0000 == d;
    assert s[i..i + 4] == [s[i], s[i + 1], s[i + 2], s[i + 3]];
  }

  lemma U64Writes(s: seq<byte>, i: nat)
    requires i + 8 <= |s|
    ensures U64(ReadU64(s, i)) == s[i..i + 8]
  {
    var a, b := ReadU32(s, i), ReadU32(s, i + 4);
    U32Writes(s, i);
    U32Writes(s, i + 4);
    assert ReadU64(s, i) % 0x1_0000_0000 == a && ReadU64(s, i) / 0x1_0000_0000 == b;
    assert s[i..i + 8] == s[i..i + 4] + s[i + 4..i + 8];
  }

  // ---------------------------------------------------------------- records

  /** A record is its fields one after the other. */
  function Join(fields: seq<seq<byte>>): seq<byte> {
    if fields == [] then [] else Join(fields[..|fields| - 1]) + fields[|fields| - 1]
  }

  /** The offsets at which the fields start, and where the record ends. */
  predicate LaidOut(fields: seq<seq<byte>>, offsets: seq<nat>) {
    && |offsets| == |fields| + 1 && offsets[0] == 0
    && forall i :: 0 <= i < |fields| ==> offsets[i + 1] == offsets[i] + |fields[i]|
  }

  lemma {:induction false} JoinSize(fields: seq<seq<byte>>, offsets: seq<nat>)
    requires LaidOut(fields, offsets)
    ensures |Join(fields)| == offsets[|fields|]
    decreases |fields|
  {
    var n := |fields| - 1;
    if n >= 0 {
      JoinSize(fields[..n], offsets[..n + 1]);
    }
  }

  /** Each field is found at its offset. */
  lemma {:induction false} FieldAt(fields: seq<seq<byte>>, offsets: seq<nat>, i: nat)
    requires LaidOut(fields, offsets) && i < |fields|
    ensures |Join(fields)| == offsets[|fields|] && offsets[i + 1] <= offsets[|fields|]
    ensures Join(fields)[offsets[i]..offsets[i + 1]] == fields[i]
    decreases |fields|
  {
    var n := |fields| - 1;
    JoinSize(fields, offsets);
    JoinSize(fields[..n], offsets[..n + 1]);
    if i < n {
      FieldAt(fields[..n], offsets[..n + 1], i);
      var prefix := Join(fields[..n]);
      assert Join(fields)[..|prefix|] == prefix;
    }
  }

  predicate Holds(s: seq<byte>, at: nat, field: seq<byte>) { at + |field| <= |s| && s[at..at + |field|] == field }

  /** Bytes that have every field at its offset are the record. */
  lemma {:induction false} JoinIs(s: seq<byte>, fields: seq<seq<byte>>, offsets: seq<nat>, n: nat)
    requires LaidOut(fields, offsets) && n <= |fields| && offsets[n] <= |s|
    requires forall i :: 0 <= i < n ==> Holds(s, offsets[i], fields[i])
    ensures s[..offsets[n]] == Join(fields[..n])
    decreases n
  {
    if n > 0 {
      var a, b := offsets[n - 1], offsets[n - 1 + 1];
      assert Holds(s, a, fields[n - 1]) && b == a + |fields[n - 1]|;
      JoinIs(s, fields, offsets, n - 1);
      assert fields[..n][..n - 1] == fields[..n - 1];
      assert s[..b] == s[..a] + s[a..b];
    }
  }

  // ---------------------------------------------------------------- buffers

  predicate Apart(at: nat, n: nat, other: nat, m: nat) { at + n <= other || other + m <= at }

  /** Nothing but n bytes at an offset changed. */
  predicate Only(before: seq<byte>, after: seq<byte>, at: nat, n: nat) {
    |after| == |before| && forall j :: 0 <= j < |before| && !(at <= j < at + n) ==> after[j] == before[j]
  }

  /** What a write at an offset does to a buffer: its bytes are there, and every field that
      does not overlap them is still where it was. */
  ghost predicate Wrote(before: seq<byte>, after: seq<byte>, at: nat, bytes: seq<byte>) {
    && Holds(after, at, bytes) && Only(before, after, at, |bytes|)
    && forall other, field :: Apart(at, |bytes|, other, |field|) && Holds(before, other, field) ==>
         Holds(after, other, field)
  }

  lemma OnlyThere(before: seq<byte>, after: seq<byte>, at: nat, bytes: seq<byte>)
    requires Holds(after, at, bytes) && Only(before, after, at, |bytes|)
    ensures Wrote(before, after, at, bytes)
  {
    forall other: nat, field: seq<byte> | Apart(at, |bytes|, other, |field|) && Holds(before, other, field)
      ensures Holds(after, other, field)
    {
      assert after[other..other + |field|] == before[other..other + |field|];
    }
  }

  /** Copies bytes into a buffer at an offset. */
  method PutBytes(out: array<byte>, at: nat, bytes: seq<byte>)
    requires at + |bytes| <= out.Length
    modifies out
    ensures Wrote(old(out[..]), out[..], at, bytes)
  {
    ghost var was := out[..];
    var i := 0;
    while i < |bytes|
      invariant i <= |bytes| && out[at..at + i] == bytes[..i]
      invariant Only(was, out[..], at, i)
    {
      out[at + i] := bytes[i];
      i := i + 1;
    }
    assert out[..][at..at + |bytes|] == out[at..at + |bytes|];
    OnlyThere(was, out[..], at, bytes);
  }

  /** The low bytes of a number, least significant first. */
  function Bytes(v: nat, count: nat): (r: seq<byte>)
    ensures |r| == count
  {
    if count == 0 then [] else [v % 256] + Bytes(v / 256, count - 1)
  }

  lemma BytesAre(v: nat)
    ensures Bytes(v, 2) == U16(v) && Bytes(v, 4) == U32(v)
  {
    assert v / 0x1_0000 == v / 256 / 256 && v / 0x100_0000 == v / 256 / 256 / 256;
    assert Bytes(v, 2) == [v % 256] + Bytes(v / 256, 1);
    assert Bytes(v / 256, 1) == [v / 256 % 256] + Bytes(v / 256 / 256, 0);
    assert Bytes(v, 4) == [v % 256] + Bytes(v / 256, 3);
    assert Bytes(v / 256, 3) == [v / 256 % 256] + Bytes(v / 256 / 256, 2);
    assert Bytes(v / 256 / 256, 2) == [v / 256 / 256 % 256] + Bytes(v / 256 / 256 / 256, 1);
    assert Bytes(v / 256 / 256 / 256, 1) == [v / 256 / 256 / 256 % 256] + Bytes(v / 256 / 256 / 256 / 256, 0);
  }

  lemma LongBytesAre(v: nat)
    ensures Bytes(v, 8) == U64(v)
  {
    var low, high := v % 0x1_0000_0000, v / 0x1_0000_0000;
    var a, b, c, d := v / 256, v / 256 / 256, v / 256 / 256 / 256, v / 256 / 256 / 256 / 256;
    var e, f, g := low / 256, low / 256 / 256, low / 256 / 256 / 256;
    assert a == 0x100_0000 * high + e && v % 256 == low % 256;
    assert b == 0x1_0000 * high + f && a % 256 == e % 256;
    assert c == 0x100 * high + g && b % 256 == f % 256;
    assert d == high && c % 256 == g % 256;
    BytesAre(low);
    BytesAre(high);
    LowBytes(v);
    LowBytes(low);
  }

  lemma LowBytes(v: nat)
    ensures Bytes(v, 8) == [v % 256, v / 256 % 256, v / 256 / 256 % 256, v / 256 / 256 / 256 % 256]
            + Bytes(v / 256 / 256 / 256 / 256, 4)
    ensures Bytes(v, 4) == [v % 256, v / 256 % 256, v / 256 / 256 % 256, v / 256 / 256 / 256 % 256]
  {
    var a, b, c, d := v / 256, v / 256 / 256, v / 256 / 256 / 256, v / 256 / 256 / 256 / 256;
    assert Bytes(v, 8) == [v % 256] + Bytes(a, 7) && Bytes(a, 7) == [a % 256] + Bytes(b, 6);
    assert Bytes(b, 6) == [b % 256] + Bytes(c, 5) && Bytes(c, 5) == [c % 256] + Bytes(d, 4);
    assert Bytes(v, 4) == [v % 256] + Bytes(a, 3) && Bytes(a, 3) == [a % 256] + Bytes(b, 2);
    assert Bytes(b, 2) == [b % 256] + Bytes(c, 1) && Bytes(c, 1) == [c % 256] + Bytes(d, 0);
  }

  /** Writes a number byte by byte, shifting it down. */
  method PutNumber(out: array<byte>, at: nat, v: nat, count: nat)
    requires at + count <= out.Length
    modifies out
    ensures Wrote(old(out[..]), out[..], at, Bytes(v, count))
  {
    ghost var was := out[..];
    var i, rest := 0, v;
    while i < count
      invariant i <= count && out[at..at + i] + Bytes(rest, count - i) == Bytes(v, count)
      invariant Only(was, out[..], at, i)
    {
      ghost var done, left := out[at..at + i], Bytes(rest, count - i);
      out[at + i] := rest % 256;
      assert out[at..at + i + 1] == done + [left[0]];
      assert done + [left[0]] + left[1..] == done + left;
      rest := rest / 256;
      i := i + 1;
    }
    assert out[..][at..at + count] == out[at..at + count] == Bytes(v, count);
    OnlyThere(was, out[..], at, Bytes(v, count));
  }

  method PutU16(out: array<byte>, at: nat, v: nat)
    requires at + 2 <= out.Length
    modifies out
    ensures Wrote(old(out[..]), out[..], at, U16(v))
  {
    PutNumber(out, at, v, 2);
    BytesAre(v);
  }

  method PutU32(out: array<byte>, at: nat, v: nat)
    requires at + 4 <= out.Length
    modifies out
    ensures Wrote(old(out[..]), out[..], at, U32(v))
  {
    PutNumber(out, at, v, 4);
    BytesAre(v);
  }

  method PutU64(out: array<byte>, at: nat, v: nat)
    requires at + 8 <= out.Length
    modifies out
    ensures Wrote(old(out[..]), out[..], at, U64(v))
  {
    PutNumber(out, at, v, 8);
    LongBytesAre(v);
  }

  function Zeros(n: nat): (r: seq<byte>)
    ensures |r| == n
  {
    seq(n, _ => 0)
  }

  /** Zeroes the first n bytes. */
  method Clear(out: array<byte>, n: nat)
    requires n <= out.Length
    modifies out
    ensures out[..n] == Zeros(n)
    ensures forall j :: n <= j < out.Length ==> out[j] == old(out[j])
  {
    var i := 0;
    while i < n
      invariant i <= n && out[..i] == Zeros(i) && forall j :: i <= j < out.Length ==> out[j] == old(out[j])
    {
      out[i] := 0;
      i := i + 1;
    }
  }

  lemma HoldsJoin(s: seq<byte>, at: nat, a: seq<byte>, b: seq<byte>)
    requires Holds(s, at, a) && Holds(s, at + |a|, b)
    ensures Holds(s, at, a + b)
  {}

  lemma HoldsTail(s: seq<byte>, at: nat, n: nat, k: nat)
    requires k <= n && Holds(s, at, Zeros(n))
    ensures Holds(s, at + k, Zeros(n - k))
  {
    assert s[at + k..at + n] == s[at..at + n][k..];
  }

  /** Where a buffer is zero it holds the zero fields. */
  lemma ZeroHolds(s: seq<byte>, n: nat, at: nat)
    requires n <= |s| && s[..n] == Zeros(n)
    ensures at + 4 <= n ==> Holds(s, at, U32(0))
    ensures at + 8 <= n ==> Holds(s, at, U64(0))
    ensures at <= n ==> Holds(s, at, Zeros(n - at))
  {
    assert forall j :: 0 <= j < n ==> s[j] == s[..n][j] == 0;
    assert U32(0) == [0, 0, 0, 0] && U64(0) == U32(0) + U32(0);
  }

  // ---------------------------------------------------------------- the header

  const HEADER := 24
  const MAX_PAYLOAD := 65536 - 24
  const MAGIC: seq<byte> := [0x4B, 0x53, 0x49, 0x50]
  const MAJOR := 3
  const MINOR := 0

  datatype Header = Header(major: nat, minor: nat, opcode: nat, flags: nat, size: nat, id: nat)

  predicate Encodable(h: Header) {
    && h.major < 0x1_0000 && h.minor < 0x1_0000 && h.opcode < 0x1_0000 && h.flags < 0x1_0000
    && h.size < 0x1_0000_0000 && h.id < 0x1_0000_0000_0000_0000
  }

  function HeaderFields(h: Header): seq<seq<byte>> {
    [MAGIC, U16(h.major), U16(h.minor), U16(h.opcode), U16(h.flags), U32(h.size), U64(h.id)]
  }

  const HEADER_LAYOUT: seq<nat> := [0, 4, 6, 8, 10, 12, 16, 24]

  function EncodeHeader(h: Header): seq<byte> { Join(HeaderFields(h)) }

  function DecodeHeader(s: seq<byte>): Option<Header>
    requires |s| == HEADER
  {
    if s[..4] != MAGIC then None
    else Some(Header(ReadU16(s, 4), ReadU16(s, 6), ReadU16(s, 8), ReadU16(s, 10), ReadU32(s, 12), ReadU64(s, 16)))
  }

  lemma HeaderSize(h: Header)
    ensures LaidOut(HeaderFields(h), HEADER_LAYOUT) && |EncodeHeader(h)| == HEADER
  {
    hide U16, U32, U64;
    JoinSize(HeaderFields(h), HEADER_LAYOUT);
  }

  /** The peer decodes the header that was encoded. */
  lemma HeaderRoundTrip(h: Header)
    requires Encodable(h)
    ensures |EncodeHeader(h)| == HEADER && DecodeHeader(EncodeHeader(h)) == Some(h)
  {
    hide U16, U32, U64, ReadU16, ReadU32, ReadU64, Join;
    var s, f := EncodeHeader(h), HeaderFields(h);
    HeaderSize(h);
    FieldAt(f, HEADER_LAYOUT, 0);
    FieldAt(f, HEADER_LAYOUT, 1); U16Reads(h.major, s, 4);
    FieldAt(f, HEADER_LAYOUT, 2); U16Reads(h.minor, s, 6);
    FieldAt(f, HEADER_LAYOUT, 3); U16Reads(h.opcode, s, 8);
    FieldAt(f, HEADER_LAYOUT, 4); U16Reads(h.flags, s, 10);
    FieldAt(f, HEADER_LAYOUT, 5); U32Reads(h.size, s, 12);
    FieldAt(f, HEADER_LAYOUT, 6); U64Reads(h.id, s, 16);
  }

  /** And only an encoding of that header decodes to it. */
  lemma HeaderCanonical(s: seq<byte>)
    requires |s| == HEADER && DecodeHeader(s).Some?
    ensures Encodable(DecodeHeader(s).value) && EncodeHeader(DecodeHeader(s).value) == s
  {
    hide U16, U32, U64, ReadU16, ReadU32, ReadU64, Join;
    var h := DecodeHeader(s).value;
    U16Writes(s, 4); U16Writes(s, 6); U16Writes(s, 8); U16Writes(s, 10); U32Writes(s, 12); U64Writes(s, 16);
    var f := HeaderFields(h);
    HeaderSize(h);
    JoinIs(s, f, HEADER_LAYOUT, |f|);
    assert f[..|f|] == f;
  }
}
