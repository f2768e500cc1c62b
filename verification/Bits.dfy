/** Bytes, bitwise operators on natural numbers and little-endian 16-bit fields.

    A bitwise operator works digit by digit on the binary expansion of its operands, so
    every fact about masks below is an induction over binary digits. */
module Bits {

  newtype byte = x: int | 0 <= x < 256

  function Pow2(k: nat): (p: nat)
    ensures p >= 1
  {
    if k == 0 then 1 else 2 * Pow2(k - 1)
  }

  /** The k-th binary digit of x. */
  predicate Bit(x: nat, k: nat) {
    if k == 0 then x % 2 == 1 else Bit(x / 2, k - 1)
  }

  /** x & y */
  function And(x: nat, y: nat): (r: nat)
    ensures r <= x && r <= y
  {
    if x == 0 || y == 0 then 0
    else (if x % 2 == 1 && y % 2 == 1 then 1 else 0) + 2 * And(x / 2, y / 2)
  }

  /** x | y */
  function Or(x: nat, y: nat): (r: nat) {
    if x == 0 then y
    else (if x % 2 == 1 || y % 2 == 1 then 1 else 0) + 2 * Or(x / 2, y / 2)
  }

  /** x &^ y, the digits of x that y does not have. */
  function AndNot(x: nat, y: nat): (r: nat)
    ensures r <= x
  {
    if x == 0 then 0
    else (if x % 2 == 1 && y % 2 == 0 then 1 else 0) + 2 * AndNot(x / 2, y / 2)
  }

  lemma {:induction false} BitOfZero(k: nat)
    ensures !Bit(0, k)
  {
    if k > 0 { BitOfZero(k - 1); }
  }

  lemma {:induction false} BitOfPow2(k: nat, j: nat)
    ensures Bit(Pow2(k), j) <==> j == k
  {
    if k == 0 {
      if j > 0 { BitOfZero(j - 1); }
    } else if j > 0 {
      BitOfPow2(k - 1, j - 1);
    }
  }

  /** Testing a digit with a one-digit mask. */
  lemma {:induction false} AndPow2(x: nat, k: nat)
    ensures And(x, Pow2(k)) != 0 <==> Bit(x, k)
  {
    if x == 0 {
      BitOfZero(k);
    } else if k > 0 {
      AndPow2(x / 2, k - 1);
    }
  }

  lemma {:induction false} OrBit(x: nat, y: nat, j: nat)
    ensures Bit(Or(x, y), j) <==> Bit(x, j) || Bit(y, j)
  {
    if x == 0 {
      BitOfZero(j);
    } else if j > 0 {
      OrBit(x / 2, y / 2, j - 1);
    }
  }

  lemma {:induction false} AndNotBit(x: nat, y: nat, j: nat)
    ensures Bit(AndNot(x, y), j) <==> Bit(x, j) && !Bit(y, j)
  {
    if x == 0 {
      BitOfZero(j);
    } else if j > 0 {
      AndNotBit(x / 2, y / 2, j - 1);
    }
  }

  /** Below 2^k the operators never produce a carry. */
  lemma {:induction false} OrBound(x: nat, y: nat, k: nat)
    requires x < Pow2(k) && y < Pow2(k)
    ensures Or(x, y) < Pow2(k)
  {
    if x != 0 && k > 0 { OrBound(x / 2, y / 2, k - 1); }
  }

  // --------------------------------------------------------------- little-endian numbers

  function Pow256(k: nat): (p: nat)
    ensures p >= 1
  {
    if k == 0 then 1 else 256 * Pow256(k - 1)
  }

  /** The low k bytes of v, lowest first. */
  function LittleEndian(v: nat, k: nat): (bytes: seq<byte>)
    ensures |bytes| == k
  {
    if k == 0 then [] else [(v % 256) as byte] + LittleEndian(v / 256, k - 1)
  }

  function FromLittleEndian(bytes: seq<byte>): (v: nat)
    ensures v < Pow256(|bytes|)
  {
    if bytes == [] then 0 else bytes[0] as nat + 256 * FromLittleEndian(bytes[1..])
  }

  lemma {:induction false} LittleEndianRoundTrip(v: nat, k: nat)
    requires v < Pow256(k)
    ensures FromLittleEndian(LittleEndian(v, k)) == v
  {
    if k > 0 {
      LittleEndianRoundTrip(v / 256, k - 1);
      assert LittleEndian(v, k)[1..] == LittleEndian(v / 256, k - 1);
    }
  }

  /** The two bytes of a 16-bit field. */
  function Uint16(lo: byte, hi: byte): (v: nat)
    ensures v < 65536
  {
    assert Pow256(2) == 65536;
    FromLittleEndian([lo, hi])
  }

  function LowByte(v: nat): byte { (v % 256) as byte }

  function HighByte(v: nat): byte { (v / 256 % 256) as byte }

  lemma {:induction false} Uint16Value(lo: byte, hi: byte)
    ensures Uint16(lo, hi) == lo as nat + 256 * (hi as nat)
    ensures LowByte(Uint16(lo, hi)) == lo && HighByte(Uint16(lo, hi)) == hi
  {
    assert [lo, hi][1..] == [hi] && [hi][1..] == [];
    assert FromLittleEndian([hi]) == hi as nat;
  }

  lemma {:induction false} Uint16RoundTrip(v: nat)
    requires v < 65536
    ensures Uint16(LowByte(v), HighByte(v)) == v
  {
    Uint16Value(LowByte(v), HighByte(v));
  }

  // ----------------------------------------------------------------------------- buffers

  method CopyInto(target: array<byte>, pos: nat, source: seq<byte>)
    requires pos + |source| <= target.Length
    modifies target
    ensures target[..pos + |source|] == old(target[..pos]) + source
  {
    forall j | 0 <= j < |source| {
      target[pos + j] := source[j];
    }
  }
}
