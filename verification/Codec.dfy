/** The byte codec of connection data: little-endian numbers, strings and byte blocks, written
    by appending to a buffer and read by advancing a position. A string is its bytes. */
module Codec {
  import opened Bits

  const STRING_BUFFER_MAX_LENGTH := 65535

  type int32 = x: int | -0x8000_0000 <= x < 0x8000_0000
  type int64 = x: int | -0x8000_0000_0000_0000 <= x < 0x8000_0000_0000_0000

  datatype Error = Truncated | StringSize

  /** The outcome of one read and the position after it. */
  datatype Read<T> = Fail(error: Error, pos: nat) | Done(value: T, pos: nat) {
    predicate IsFailure() { Fail? }

    function PropagateFailure<U>(): Read<U>
      requires IsFailure()
    {
      Fail(error, pos)
    }

    function Extract(): (T, nat)
      requires !IsFailure()
    {
      (value, pos)
    }
  }

  // --------------------------------------------------------------------- number encoding

  lemma {:induction false} Powers()
    ensures Pow256(1) == 0x100 && Pow256(2) == 0x1_0000 && Pow256(4) == 0x1_0000_0000
    ensures Pow256(8) == 0x1_0000_0000_0000_0000
  {
    assert Pow256(3) == 0x100_0000 && Pow256(5) == 0x100_0000_0000;
    assert Pow256(6) == 0x1_0000_0000_0000 && Pow256(7) == 0x100_0000_0000_0000;
  }

  /** v is in the range of signed numbers of k bytes. */
  predicate InRange(v: int, k: nat) { 0 <= 2 * v + Pow256(k) < 2 * Pow256(k) }

  /** Conversion between signed and unsigned numbers of k bytes. */
  function Unsigned(v: int, k: nat): nat
    requires InRange(v, k)
  {
    if v >= 0 then v else v + Pow256(k)
  }

  function Signed(u: nat, k: nat): int { if 2 * u < Pow256(k) then u else u - Pow256(k) }

  lemma {:induction false} SignedRoundTrip(v: int, k: nat)
    requires InRange(v, k)
    ensures Unsigned(v, k) < Pow256(k) && Signed(Unsigned(v, k), k) == v
  {
    hide Pow256;
  }

  lemma {:induction false} IntRanges()
    ensures forall v: int32 :: InRange(v, 4)
    ensures forall v: int64 :: InRange(v, 8)
  {
    hide Pow256;
    Powers();
  }

  // --------------------------------------------------------------------------- encodings

  function EncodeInt32(v: int32): seq<byte> {
    IntRanges();
    LittleEndian(Unsigned(v, 4), 4)
  }

  function EncodeInt64(v: int64): seq<byte> {
    IntRanges();
    LittleEndian(Unsigned(v, 8), 8)
  }

  /** A conversion of an unbounded length to int32. */
  function ToInt32(n: nat): int32 {
    Powers();
    Signed(n % Pow256(4), 4)
  }

  function EncodeBlock(v: seq<byte>): seq<byte> { EncodeInt32(ToInt32(|v|)) + v }

  /** Strings too long for a 16-bit size are written as the empty string. */
  function EncodeString(v: seq<byte>): seq<byte> {
    if |v| == 0 || |v| >= STRING_BUFFER_MAX_LENGTH then LittleEndian(0, 2) else LittleEndian(|v| + 1, 2) + v
  }

  class Writer {
    var buf: seq<byte>

    constructor (data: seq<byte>)
      ensures buf == data
    {
      buf := data;
    }

    method PutByte(v: byte)
      modifies this
      ensures buf == old(buf) + [v]
    {
      buf := buf + [v];
    }

    method PutBool(v: bool)
      modifies this
      ensures buf == old(buf) + [if v then 1 else 0]
    {
      if v {
        PutByte(1);
        return;
      }
      PutByte(0);
    }

    method PutUint16(v: nat)
      requires v < 65536
      modifies this
      ensures buf == old(buf) + LittleEndian(v, 2)
    {
      buf := buf + LittleEndian(v, 2);
    }

    method PutInt32(v: int32)
      modifies this
      ensures buf == old(buf) + EncodeInt32(v)
    {
      IntRanges();
      buf := buf + LittleEndian(Unsigned(v, 4), 4);
    }

    method PutInt64(v: int64)
      modifies this
      ensures buf == old(buf) + EncodeInt64(v)
    {
      IntRanges();
      buf := buf + LittleEndian(Unsigned(v, 8), 8);
    }

    method PutRaw(v: seq<byte>)
      modifies this
      ensures buf == old(buf) + v
    {
      buf := buf + v;
    }

    method PutBytesWithLength(v: seq<byte>)
      modifies this
      ensures buf == old(buf) + EncodeBlock(v)
    {
      hide EncodeInt32, ToInt32;
      PutInt32(ToInt32(|v|));
      PutRaw(v);
    }

    method PutString(v: seq<byte>)
      modifies this
      ensures buf == old(buf) + EncodeString(v)
    {
      hide LittleEndian;
      if v == [] {
        PutUint16(0);
        return;
      }
      if |v| >= STRING_BUFFER_MAX_LENGTH {
        PutUint16(0);
        return;
      }
      PutUint16(|v| + 1);
      PutRaw(v);
    }
  }

  // ----------------------------------------------------------------------------- reading

  function ReadRaw(buf: seq<byte>, pos: nat, n: int): (r: Read<seq<byte>>)
    requires pos <= |buf|
    ensures pos <= r.pos <= |buf| && (r.Done? ==> |r.value| == n)
  {
    if n < 0 || |buf| - pos < n then Fail(Truncated, pos) else Done(buf[pos..pos + n], pos + n)
  }

  function ReadByte(buf: seq<byte>, pos: nat): (r: Read<byte>)
    requires pos <= |buf|
    ensures pos <= r.pos <= |buf|
  {
    var (b, p) :- ReadRaw(buf, pos, 1);
    Done(b[0], p)
  }

  function ReadBool(buf: seq<byte>, pos: nat): (r: Read<bool>)
    requires pos <= |buf|
    ensures pos <= r.pos <= |buf|
  {
    var (b, p) :- ReadByte(buf, pos);
    Done(b != 0, p)
  }

  function ReadUint16(buf: seq<byte>, pos: nat): (r: Read<nat>)
    requires pos <= |buf|
    ensures pos <= r.pos <= |buf|
  {
    var (b, p) :- ReadRaw(buf, pos, 2);
    Done(FromLittleEndian(b), p)
  }

  function ReadInt32(buf: seq<byte>, pos: nat): (r: Read<int32>)
    requires pos <= |buf|
    ensures pos <= r.pos <= |buf|
  {
    var (b, p) :- ReadRaw(buf, pos, 4);
    Powers();
    Done(Signed(FromLittleEndian(b), 4), p)
  }

  function ReadInt64(buf: seq<byte>, pos: nat): (r: Read<int64>)
    requires pos <= |buf|
    ensures pos <= r.pos <= |buf|
  {
    var (b, p) :- ReadRaw(buf, pos, 8);
    Powers();
    Done(Signed(FromLittleEndian(b), 8), p)
  }

  function ReadBlock(buf: seq<byte>, pos: nat): (r: Read<seq<byte>>)
    requires pos <= |buf|
    ensures pos <= r.pos <= |buf|
  {
    var (n, p) :- ReadInt32(buf, pos);
    if n < 0 then Fail(Truncated, p) else ReadRaw(buf, p, n)
  }

  function ReadString(buf: seq<byte>, pos: nat): (r: Read<seq<byte>>)
    requires pos <= |buf|
    ensures pos <= r.pos <= |buf|
  {
    var (size, p) :- ReadUint16(buf, pos);
    if size == 0 then Done([], p)
    else if size - 1 >= STRING_BUFFER_MAX_LENGTH then Fail(StringSize, p)
    else ReadRaw(buf, p, size - 1)
  }

  class Reader {
    const buf: seq<byte>
    var pos: nat

    ghost predicate Valid()
      reads this
    {
      pos <= |buf|
    }

    constructor (data: seq<byte>)
      ensures Valid() && buf == data && pos == 0
    {
      buf := data;
      pos := 0;
    }

    method Take(n: int) returns (r: Read<seq<byte>>)
      requires Valid()
      modifies this
      ensures Valid() && r == ReadRaw(buf, old(pos), n) && r.pos == pos
    {
      if n < 0 || |buf| - pos < n {
        return Fail(Truncated, pos);
      }
      var out := buf[pos..pos + n];
      pos := pos + n;
      return Done(out, pos);
    }

    method Byte() returns (r: Read<byte>)
      requires Valid()
      modifies this
      ensures Valid() && r == ReadByte(buf, old(pos)) && r.pos == pos
    {
      var b := Take(1);
      if b.Fail? {
        return Fail(b.error, pos);
      }
      return Done(b.value[0], pos);
    }

    method Bool() returns (r: Read<bool>)
      requires Valid()
      modifies this
      ensures Valid() && r == ReadBool(buf, old(pos)) && r.pos == pos
    {
      var b := Byte();
      if b.Fail? {
        return Fail(b.error, pos);
      }
      return Done(b.value != 0, pos);
    }

    method Uint16() returns (r: Read<nat>)
      requires Valid()
      modifies this
      ensures Valid() && r == ReadUint16(buf, old(pos)) && r.pos == pos
    {
      hide FromLittleEndian;
      var b := Take(2);
      if b.Fail? {
        return Fail(b.error, pos);
      }
      return Done(FromLittleEndian(b.value), pos);
    }

    method Int32() returns (r: Read<int32>)
      requires Valid()
      modifies this
      ensures Valid() && r == ReadInt32(buf, old(pos)) && r.pos == pos
    {
      hide FromLittleEndian, Pow256;
      var b := Take(4);
      if b.Fail? {
        return Fail(b.error, pos);
      }
      Powers();
      return Done(Signed(FromLittleEndian(b.value), 4), pos);
    }

    method Int64() returns (r: Read<int64>)
      requires Valid()
      modifies this
      ensures Valid() && r == ReadInt64(buf, old(pos)) && r.pos == pos
    {
      hide FromLittleEndian, Pow256;
      var b := Take(8);
      if b.Fail? {
        return Fail(b.error, pos);
      }
      Powers();
      return Done(Signed(FromLittleEndian(b.value), 8), pos);
    }

    method BytesWithLength() returns (r: Read<seq<byte>>)
      requires Valid()
      modifies this
      ensures Valid() && r == ReadBlock(buf, old(pos)) && r.pos == pos
    {
      hide ReadInt32, ReadRaw;
      var n := Int32();
      if n.Fail? {
        return Fail(n.error, pos);
      }
      if n.value < 0 {
        return Fail(Truncated, pos);
      }
      r := Take(n.value);
    }

    method String() returns (r: Read<seq<byte>>)
      requires Valid()
      modifies this
      ensures Valid() && r == ReadString(buf, old(pos)) && r.pos == pos
    {
      hide ReadUint16, ReadRaw;
      var size := Uint16();
      if size.Fail? {
        return Fail(size.error, pos);
      }
      if size.value == 0 {
        return Done([], pos);
      }
      if size.value - 1 >= STRING_BUFFER_MAX_LENGTH {
        return Fail(StringSize, pos);
      }
      r := Take(size.value - 1);
    }
  }

  // ---------------------------------------------------------------- reading back writing

  /** `bytes` stands at position pos of buf. */
  predicate At(buf: seq<byte>, pos: nat, bytes: seq<byte>) {
    pos + |bytes| <= |buf| && buf[pos..pos + |bytes|] == bytes
  }

  lemma {:induction false} AtParts(buf: seq<byte>, pos: nat, a: seq<byte>, b: seq<byte>)
    requires At(buf, pos, a + b)
    ensures At(buf, pos, a) && At(buf, pos + |a|, b)
  {
    assert buf[pos..pos + |a + b|][..|a|] == a && buf[pos..pos + |a + b|][|a|..] == b;
  }

  lemma {:induction false} ReadsRaw(buf: seq<byte>, pos: nat, v: seq<byte>)
    requires At(buf, pos, v)
    ensures ReadRaw(buf, pos, |v|) == Done(v, pos + |v|)
  {}

  lemma {:induction false} ReadsByte(buf: seq<byte>, pos: nat, v: byte)
    requires At(buf, pos, [v])
    ensures ReadByte(buf, pos) == Done(v, pos + 1)
  {
    ReadsRaw(buf, pos, [v]);
  }

  lemma {:induction false} ReadsBool(buf: seq<byte>, pos: nat, v: bool)
    requires At(buf, pos, [if v then 1 else 0])
    ensures ReadBool(buf, pos) == Done(v, pos + 1)
  {
    ReadsByte(buf, pos, if v then 1 else 0);
  }

  lemma {:induction false} ReadsUint16(buf: seq<byte>, pos: nat, v: nat)
    requires v < 65536 && At(buf, pos, LittleEndian(v, 2))
    ensures ReadUint16(buf, pos) == Done(v, pos + 2)
  {
    hide LittleEndian, FromLittleEndian, At;
    Powers();
    ReadsRaw(buf, pos, LittleEndian(v, 2));
    LittleEndianRoundTrip(v, 2);
  }

  lemma {:induction false} ReadsInt32(buf: seq<byte>, pos: nat, v: int32)
    requires At(buf, pos, EncodeInt32(v))
    ensures ReadInt32(buf, pos) == Done(v, pos + 4)
  {
    hide LittleEndian, FromLittleEndian, At, Pow256, Signed, Unsigned;
    IntRanges();
    Powers();
    ReadsRaw(buf, pos, EncodeInt32(v));
    SignedRoundTrip(v, 4);
    LittleEndianRoundTrip(Unsigned(v, 4), 4);
  }

  lemma {:induction false} ReadsInt64(buf: seq<byte>, pos: nat, v: int64)
    requires At(buf, pos, EncodeInt64(v))
    ensures ReadInt64(buf, pos) == Done(v, pos + 8)
  {
    hide LittleEndian, FromLittleEndian, At, Pow256, Signed, Unsigned;
    IntRanges();
    Powers();
    ReadsRaw(buf, pos, EncodeInt64(v));
    SignedRoundTrip(v, 8);
    LittleEndianRoundTrip(Unsigned(v, 8), 8);
  }

  lemma {:induction false} ToInt32Exact(n: nat)
    ensures ToInt32(n) == n <==> n < 0x8000_0000
  {
    hide Pow256;
    Powers();
  }

  /** A block reads back, with nothing of it left, if its length fits an int32. */
  lemma {:induction false} ReadsBlock(buf: seq<byte>, pos: nat, v: seq<byte>)
    requires |v| < 0x8000_0000 && At(buf, pos, EncodeBlock(v))
    ensures ReadBlock(buf, pos) == Done(v, pos + 4 + |v|)
  {
    hide EncodeInt32, ToInt32, At, ReadInt32, ReadRaw;
    AtParts(buf, pos, EncodeInt32(ToInt32(|v|)), v);
    ToInt32Exact(|v|);
    Int32Size(ToInt32(|v|));
    ReadsInt32(buf, pos, |v|);
    ReadsRaw(buf, pos + 4, v);
  }

  lemma {:induction false} Int32Size(v: int32)
    ensures |EncodeInt32(v)| == 4
  {}

  /** Exactly the strings shorter than 65535 bytes read back; longer ones read as empty. */
  lemma {:induction false} ReadsString(buf: seq<byte>, pos: nat, v: seq<byte>)
    requires At(buf, pos, EncodeString(v))
    ensures ReadString(buf, pos) == Done(if |v| < STRING_BUFFER_MAX_LENGTH then v else [], pos + |EncodeString(v)|)
    ensures ReadString(buf, pos) == Done(v, pos + |EncodeString(v)|) <==> |v| < STRING_BUFFER_MAX_LENGTH
  {
    hide LittleEndian, At, ReadUint16, ReadRaw;
    if 0 < |v| < STRING_BUFFER_MAX_LENGTH {
      AtParts(buf, pos, LittleEndian(|v| + 1, 2), v);
      ReadsUint16(buf, pos, |v| + 1);
      ReadsRaw(buf, pos + 2, v);
    } else {
      ReadsUint16(buf, pos, 0);
    }
  }

  // ------------------------------------------------------------ what exactly is readable

  lemma {:induction false} LittleEndianInverse(bytes: seq<byte>)
    ensures LittleEndian(FromLittleEndian(bytes), |bytes|) == bytes
  {
    if bytes != [] { LittleEndianInverse(bytes[1..]); }
  }

  lemma {:induction false} UnsignedInverse(u: nat, k: nat)
    requires u < Pow256(k)
    ensures InRange(Signed(u, k), k) && Unsigned(Signed(u, k), k) == u
  {
    hide Pow256;
  }

  /** A bool is any byte, true unless it is zero. */
  lemma {:induction false} BoolExactly(buf: seq<byte>, pos: nat, v: bool, end: nat)
    requires pos <= |buf|
    ensures ReadBool(buf, pos) == Done(v, end) <==> end == pos + 1 <= |buf| && (v <==> buf[pos] != 0)
  {}

  /** A number reads as v exactly from its encoding. */
  lemma {:induction false} Int32Exactly(buf: seq<byte>, pos: nat, v: int32, end: nat)
    requires pos <= |buf|
    ensures ReadInt32(buf, pos) == Done(v, end) <==> end == pos + 4 && At(buf, pos, EncodeInt32(v))
  {
    hide LittleEndian, FromLittleEndian, Pow256, Signed, Unsigned;
    Int32Size(v);
    if At(buf, pos, EncodeInt32(v)) { ReadsInt32(buf, pos, v); }
    if pos + 4 <= |buf| {
      Powers();
      LittleEndianInverse(buf[pos..pos + 4]);
      UnsignedInverse(FromLittleEndian(buf[pos..pos + 4]), 4);
    }
  }

  lemma {:induction false} Int64Exactly(buf: seq<byte>, pos: nat, v: int64, end: nat)
    requires pos <= |buf|
    ensures |EncodeInt64(v)| == 8
    ensures ReadInt64(buf, pos) == Done(v, end) <==> end == pos + 8 && At(buf, pos, EncodeInt64(v))
  {
    hide LittleEndian, FromLittleEndian, Pow256, Signed, Unsigned;
    if At(buf, pos, EncodeInt64(v)) { ReadsInt64(buf, pos, v); }
    if pos + 8 <= |buf| {
      Powers();
      LittleEndianInverse(buf[pos..pos + 8]);
      UnsignedInverse(FromLittleEndian(buf[pos..pos + 8]), 8);
    }
  }

  /** A block is its length, which is not negative, and so many bytes. */
  lemma {:induction false} BlockExactly(buf: seq<byte>, pos: nat, v: seq<byte>, end: nat)
    requires pos <= |buf|
    ensures ReadBlock(buf, pos) == Done(v, end)
            <==> |v| < 0x8000_0000 && end == pos + 4 + |v| && At(buf, pos, EncodeBlock(v))
  {
    hide EncodeInt32, ToInt32, ReadInt32;
    if |v| < 0x8000_0000 && At(buf, pos, EncodeBlock(v)) { ReadsBlock(buf, pos, v); }
    var n := ReadInt32(buf, pos);
    if n.Done? && ReadBlock(buf, pos) == Done(v, end) {
      Int32Exactly(buf, pos, n.value, n.pos);
      Int32Size(n.value);
      ToInt32Exact(|v|);
      AtJoin(buf, pos, EncodeInt32(n.value), v);
    }
  }

  lemma {:induction false} AtJoin(buf: seq<byte>, pos: nat, a: seq<byte>, b: seq<byte>)
    requires At(buf, pos, a) && At(buf, pos + |a|, b)
    ensures At(buf, pos, a + b)
  {
    assert buf[pos..pos + |a + b|] == buf[pos..pos + |a|] + buf[pos + |a|..pos + |a + b|];
  }

  /** A string is its length plus one and its bytes; the empty one may also be a zero alone. */
  predicate IsString(bytes: seq<byte>, v: seq<byte>) {
    && |bytes| >= 2
    && ((v == [] && bytes == [0, 0])
        || (FromLittleEndian(bytes[..2]) == |v| + 1 && bytes[2..] == v))
  }

  lemma {:induction false} StringExactly(buf: seq<byte>, pos: nat, v: seq<byte>, end: nat)
    requires pos <= |buf|
    ensures ReadString(buf, pos) == Done(v, end) <==> pos <= end <= |buf| && IsString(buf[pos..end], v)
  {
    hide FromLittleEndian, Pow256;
    Powers();
    if pos + 2 <= |buf| {
      var bytes := buf[pos..pos + 2];
      ZeroBytes(bytes);
      if pos + 2 <= end <= |buf| {
        assert buf[pos..end][..2] == bytes && buf[pos..end][2..] == buf[pos + 2..end];
      }
    }
  }

  lemma {:induction false} ZeroBytes(bytes: seq<byte>)
    requires |bytes| == 2
    ensures FromLittleEndian(bytes) < 65536
    ensures FromLittleEndian(bytes) == 0 <==> bytes == [0, 0]
  {
    Powers();
    assert bytes[1..][1..] == [];
    assert FromLittleEndian(bytes[1..]) == bytes[1] as nat;
  }

  // --------------------------------------------------------------------- longer buffers

  lemma {:induction false} RawStable(buf: seq<byte>, more: seq<byte>, pos: nat, n: int)
    requires pos <= |buf|
    ensures ReadRaw(buf, pos, n).Done? ==> ReadRaw(buf + more, pos, n) == ReadRaw(buf, pos, n)
  {
    if 0 <= n <= |buf| - pos { assert (buf + more)[pos..pos + n] == buf[pos..pos + n]; }
  }

  lemma {:induction false} ByteStable(buf: seq<byte>, more: seq<byte>, pos: nat)
    requires pos <= |buf|
    ensures ReadByte(buf, pos).Done? ==> ReadByte(buf + more, pos) == ReadByte(buf, pos)
    ensures ReadBool(buf, pos).Done? ==> ReadBool(buf + more, pos) == ReadBool(buf, pos)
  {
    RawStable(buf, more, pos, 1);
  }

  lemma {:induction false} Int64Stable(buf: seq<byte>, more: seq<byte>, pos: nat)
    requires pos <= |buf|
    ensures ReadInt64(buf, pos).Done? ==> ReadInt64(buf + more, pos) == ReadInt64(buf, pos)
  {
    hide FromLittleEndian, ReadRaw;
    RawStable(buf, more, pos, 8);
  }

  lemma {:induction false} BlockStable(buf: seq<byte>, more: seq<byte>, pos: nat)
    requires pos <= |buf|
    ensures ReadBlock(buf, pos).Done? ==> ReadBlock(buf + more, pos) == ReadBlock(buf, pos)
  {
    hide FromLittleEndian, ReadRaw, Signed;
    RawStable(buf, more, pos, 4);
    var n := ReadInt32(buf, pos);
    if n.Done? { RawStable(buf, more, n.pos, n.value); }
  }

  lemma {:induction false} StringStable(buf: seq<byte>, more: seq<byte>, pos: nat)
    requires pos <= |buf|
    ensures ReadString(buf, pos).Done? ==> ReadString(buf + more, pos) == ReadString(buf, pos)
  {
    hide FromLittleEndian, ReadRaw;
    RawStable(buf, more, pos, 2);
    var n := ReadUint16(buf, pos);
    if n.Done? { RawStable(buf, more, n.pos, n.value - 1); }
  }
}
