/** Circular sequence numbers: the arithmetic behind every comparison of the channels. */
module Sequences {

  const MAX_SEQUENCE := 32768
  const HALF_MAX_SEQUENCE := 16384
  const WINDOW_SIZE := 64

  /** The truncated remainder: it takes the sign of a. */
  function TruncatedMod(a: int, m: int): int
    requires m > 0
  {
    if a >= 0 then a % m else -((-a) % m)
  }

  function RelativeSequence(number: int, expected: int): int {
    TruncatedMod(number - expected + MAX_SEQUENCE + HALF_MAX_SEQUENCE, MAX_SEQUENCE) - HALF_MAX_SEQUENCE
  }

  /** The wire form of an unbounded number. */
  function Wire(n: int): (w: nat)
    ensures w < MAX_SEQUENCE
  {
    n % MAX_SEQUENCE
  }

  /** The slot of a 64-entry circular buffer a number lives in. */
  function Slot(n: int): (s: nat)
    ensures s < WINDOW_SIZE
  {
    n % WINDOW_SIZE
  }

  /** What a wire number means to a party that stands at `base`: the congruent number
      within half a cycle of it. */
  function Reconstruct(base: int, wire: int): int {
    base + RelativeSequence(wire, Wire(base))
  }

  /** Relative distances of wire numbers are exact precisely within half a cycle. */
  lemma {:induction false} RelativeExact(a: int, b: int)
    ensures RelativeSequence(Wire(a), Wire(b)) == a - b
            <==> -HALF_MAX_SEQUENCE <= a - b < HALF_MAX_SEQUENCE
  {}

  lemma {:induction false} RelativeRange(a: int, w: int)
    requires 0 <= w < 2 * MAX_SEQUENCE
    ensures -HALF_MAX_SEQUENCE <= RelativeSequence(w, Wire(a)) < HALF_MAX_SEQUENCE
    ensures Wire(a + RelativeSequence(w, Wire(a))) == Wire(w)
  {}

  /** A wire number at relative distance d behind w is the wire form of w - d. */
  lemma {:induction false} WireBehind(w: int, wire: int)
    requires 0 <= wire < MAX_SEQUENCE
    ensures Wire(w - RelativeSequence(Wire(w), wire)) == wire
  {}

  /** Full description, also beyond half a cycle: a number is always read back as the
      congruent one nearest to the reader. */
  lemma {:induction false} ReconstructWire(base: int, n: int)
    ensures var m := Reconstruct(base, Wire(n));
            && Wire(m) == Wire(n)
            && (m - n) % MAX_SEQUENCE == 0
            && -HALF_MAX_SEQUENCE <= m - base < HALF_MAX_SEQUENCE
            && (m == n <==> -HALF_MAX_SEQUENCE <= n - base < HALF_MAX_SEQUENCE)
  {}

  lemma {:induction false} WireStep(n: int)
    ensures Wire(n + 1) == (Wire(n) + 1) % MAX_SEQUENCE
  {}

  lemma {:induction false} SlotOfWire(n: int)
    ensures Wire(n) % WINDOW_SIZE == Slot(n)
  {}

  /** Two different numbers within one window never share a slot. */
  lemma {:induction false} SlotsDiffer(a: int, b: int)
    requires -WINDOW_SIZE < a - b < WINDOW_SIZE && a != b
    ensures Slot(a) != Slot(b)
  {
    assert a == 64 * (a / 64) + a % 64 && b == 64 * (b / 64) + b % 64;
  }

  lemma {:induction false} SlotPeriod(a: int)
    ensures Slot(a + WINDOW_SIZE) == Slot(a)
  {}
}
