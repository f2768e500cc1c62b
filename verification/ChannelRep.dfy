/** How the circular buffers and the acknowledgement bitmap of a channel represent windows
    of unbounded numbers. Everything here is about the contents of the buffers at one moment;
    the class ReliableChannel applies it to its arrays. */
module ChannelRep {
  import opened Bits
  import opened Sequences
  import opened Packets
  import opened ReliableModel
  import opened Options

  /** One entry of the pending buffer; an acknowledged entry keeps its time stamp. */
  datatype PendingSlot = PendingSlot(pkt: Option<ChannelPacket>, timeStamp: int, isSent: bool)

  const ACK_PACKET_SIZE := CHANNELED_HEADER_SIZE + (WINDOW_SIZE - 1) / 8 + 2

  // ----------------------------------------------------------------- pending packets

  predicate Holds(s: PendingSlot, pending: map<nat, Pending>, n: nat) {
    if n in pending then s == PendingSlot(Some(pending[n].pkt), pending[n].timeStamp, pending[n].isSent)
    else s.pkt == None
  }

  /** The 64 slots hold the pending packets numbered from w on. */
  ghost predicate PendingRep(slots: seq<PendingSlot>, w: nat, pending: map<nat, Pending>) {
    && |slots| == WINDOW_SIZE
    && forall n: nat {:trigger Slot(n)} :: w <= n < w + WINDOW_SIZE ==> Holds(slots[Slot(n)], pending, n)
  }

  /** Writing the slot of one number leaves the others alone. */
  lemma {:induction false} PutSlot(slots: seq<PendingSlot>, w: nat, pending: map<nat, Pending>, n: nat, s: PendingSlot,
                                   changed: map<nat, Pending>)
    requires PendingRep(slots, w, pending) && w <= n < w + WINDOW_SIZE && Holds(s, changed, n)
    requires forall m :: m != n ==> (m in changed <==> m in pending) && (m in pending ==> changed[m] == pending[m])
    ensures PendingRep(slots[Slot(n) := s], w, changed)
  {
    forall m: nat | w <= m < w + WINDOW_SIZE
      ensures Holds(slots[Slot(n) := s][Slot(m)], changed, m)
    {
      if m != n { SlotsDiffer(m, n); }
    }
  }

  /** The window start may pass numbers that are no longer pending. */
  lemma {:induction false} MoveStart(slots: seq<PendingSlot>, w: nat, v: nat, pending: map<nat, Pending>)
    requires PendingRep(slots, w, pending) && w <= v <= w + WINDOW_SIZE
    requires forall n :: n in pending ==> v <= n < w + WINDOW_SIZE
    ensures PendingRep(slots, v, pending)
  {
    forall n: nat | v <= n < v + WINDOW_SIZE
      ensures Holds(slots[Slot(n)], pending, n)
    {
      if n >= w + WINDOW_SIZE { SlotPeriod(n - WINDOW_SIZE); }
    }
  }

  lemma {:induction false} AdvanceUnique(w: nat, limit: nat, slots: set<nat>, r: nat)
    requires w <= r <= limit
    requires forall n: nat {:trigger Slot(n)} :: w <= n < r ==> Slot(n) in slots
    requires r < limit ==> Slot(r) !in slots
    ensures Advance(w, limit, slots) == r
  {
    var a := Advance(w, limit, slots);
    assert a < r ==> Slot(a) in slots;
    assert r < a ==> Slot(r) in slots;
  }

  // ------------------------------------------------------------ acknowledgement bitmap

  predicate AckBit(data: seq<byte>, k: nat)
    requires |data| == ACK_PACKET_SIZE && k < WINDOW_SIZE
  {
    And(data[CHANNELED_HEADER_SIZE + k / 8] as nat, Pow2(k % 8)) != 0
  }

  function WithAckBit(data: seq<byte>, k: nat): (r: seq<byte>)
    requires |data| == ACK_PACKET_SIZE && k < WINDOW_SIZE
    ensures |r| == |data|
  {
    var i := CHANNELED_HEADER_SIZE + k / 8;
    SmallOr(data[i], k % 8);
    data[i := Or(data[i] as nat, Pow2(k % 8)) as byte]
  }

  function WithoutAckBit(data: seq<byte>, k: nat): (r: seq<byte>)
    requires |data| == ACK_PACKET_SIZE && k < WINDOW_SIZE
    ensures |r| == |data|
  {
    var i := CHANNELED_HEADER_SIZE + k / 8;
    data[i := AndNot(data[i] as nat, Pow2(k % 8)) as byte]
  }

  lemma {:induction false} SmallOr(b: byte, k: nat)
    requires k < 8
    ensures Or(b as nat, Pow2(k)) < 256
  {
    assert Pow2(8) == 256;
    Pow2Grows(k, 8);
    OrBound(b as nat, Pow2(k), 8);
  }

  lemma {:induction false} Pow2Grows(j: nat, k: nat)
    requires j < k
    ensures Pow2(j) < Pow2(k)
    decreases k
  {
    if j < k - 1 { Pow2Grows(j, k - 1); }
  }

  lemma {:induction false} AckBitChanged(data: seq<byte>, k: nat, j: nat)
    requires |data| == ACK_PACKET_SIZE && k < WINDOW_SIZE && j < WINDOW_SIZE
    ensures AckBit(WithAckBit(data, k), j) <==> j == k || AckBit(data, j)
    ensures AckBit(WithoutAckBit(data, k), j) <==> j != k && AckBit(data, j)
  {
    if j / 8 == k / 8 {
      var b := data[CHANNELED_HEADER_SIZE + k / 8] as nat;
      var m := Pow2(k % 8);
      AndPow2(b, j % 8);
      AndPow2(Or(b, m), j % 8);
      AndPow2(AndNot(b, m), j % 8);
      OrBit(b, m, j % 8);
      AndNotBit(b, m, j % 8);
      BitOfPow2(k % 8, j % 8);
    }
  }

  /** The slots an acknowledgement packet reports. */
  function SlotBits(data: seq<byte>): set<nat>
    requires |data| == ACK_PACKET_SIZE
  {
    set k: nat | k < WINDOW_SIZE && AckBit(data, k)
  }

  /** The bitmap says which of the 64 numbers from w on are in `got`. */
  ghost predicate AckRep(data: seq<byte>, w: nat, got: set<nat>) {
    && |data| == ACK_PACKET_SIZE
    && forall n: nat {:trigger Slot(n)} :: w <= n < w + WINDOW_SIZE ==> (AckBit(data, Slot(n)) <==> n in got)
  }

  lemma {:induction false} MarkReceived(data: seq<byte>, w: nat, got: set<nat>, n: nat)
    requires AckRep(data, w, got) && w <= n < w + WINDOW_SIZE
    ensures AckRep(WithAckBit(data, Slot(n)), w, got + {n})
  {
    forall m: nat | w <= m < w + WINDOW_SIZE
      ensures AckBit(WithAckBit(data, Slot(n)), Slot(m)) <==> m in got + {n}
    {
      AckBitChanged(data, Slot(n), Slot(m));
      if m != n { SlotsDiffer(m, n); }
    }
  }

  /** Sliding by one: the bit of the number that leaves becomes the bit of the one that enters. */
  lemma {:induction false} SlideOne(data: seq<byte>, w: nat, got: set<nat>)
    requires AckRep(data, w, got) && w + WINDOW_SIZE !in got
    ensures AckRep(WithoutAckBit(data, Slot(w)), w + 1, got)
  {
    forall m: nat | w + 1 <= m < w + 1 + WINDOW_SIZE
      ensures AckBit(WithoutAckBit(data, Slot(w)), Slot(m)) <==> m in got
    {
      AckBitChanged(data, Slot(w), Slot(m));
      if m == w + WINDOW_SIZE { SlotPeriod(w); } else { SlotsDiffer(m, w); }
    }
  }

  /** The bitmap of an honest receiver carries exactly the slots of its acknowledgement. */
  lemma {:induction false} BitmapIsAck(data: seq<byte>, a: Ack)
    requires AckRep(data, a.start, a.got)
    ensures SlotBits(data) == AckSlots(a)
  {
    forall k: nat | k < WINDOW_SIZE
      ensures k in SlotBits(data) <==> k in AckSlots(a)
    {
      var n := a.start + (k - a.start) % WINDOW_SIZE;
      SlotReached(a.start, k);
      AckSlotExact(a, n);
    }
    assert forall k :: k in AckSlots(a) ==> k < WINDOW_SIZE;
  }

  lemma {:induction false} SlotReached(w: nat, k: nat)
    requires k < WINDOW_SIZE
    ensures Slot(w + (k - w) % WINDOW_SIZE) == k
  {}

  // ------------------------------------------------------------------- held packets

  /** The 64 slots hold the received packets numbered from w on. */
  ghost predicate HeldRep(slots: seq<Option<ChannelPacket>>, w: nat, store: map<nat, ChannelPacket>) {
    && |slots| == WINDOW_SIZE
    && forall n: nat {:trigger Slot(n)} :: w <= n < w + WINDOW_SIZE ==>
         slots[Slot(n)] == if n in store then Some(store[n]) else None
  }

  lemma {:induction false} HoldPacket(slots: seq<Option<ChannelPacket>>, w: nat, store: map<nat, ChannelPacket>,
                                      n: nat, p: ChannelPacket)
    requires HeldRep(slots, w, store) && w <= n < w + WINDOW_SIZE
    ensures |slots| == WINDOW_SIZE && HeldRep(slots[Slot(n) := Some(p)], w, store[n := p])
  {
    var held := slots[Slot(n) := Some(p)];
    forall m: nat | w <= m < w + WINDOW_SIZE
      ensures held[Slot(m)] == if m in store[n := p] then Some(store[n := p][m]) else None
    {
      if m != n { SlotsDiffer(m, n); }
    }
  }

  /** Emptying the slot of w makes room for the number one window further. */
  lemma {:induction false} ReleaseFirst(slots: seq<Option<ChannelPacket>>, w: nat, store: map<nat, ChannelPacket>)
    requires HeldRep(slots, w, store) && w + WINDOW_SIZE !in store
    ensures HeldRep(slots[Slot(w) := None], w + 1, store)
  {
    var held := slots[Slot(w) := None];
    forall m: nat | w + 1 <= m < w + 1 + WINDOW_SIZE
      ensures held[Slot(m)] == if m in store then Some(store[m]) else None
    {
      if m == w + WINDOW_SIZE { SlotPeriod(w); } else { SlotsDiffer(m, w); }
    }
  }

  ghost predicate EarlyRep(slots: seq<bool>, w: nat, got: set<nat>) {
    && |slots| == WINDOW_SIZE
    && forall n: nat {:trigger Slot(n)} :: w <= n < w + WINDOW_SIZE ==> (slots[Slot(n)] <==> n in got)
  }

  lemma {:induction false} MarkEarly(slots: seq<bool>, w: nat, got: set<nat>, n: nat)
    requires EarlyRep(slots, w, got) && w <= n < w + WINDOW_SIZE
    ensures |slots| == WINDOW_SIZE && EarlyRep(slots[Slot(n) := true], w, got + {n})
  {
    forall m: nat | w <= m < w + WINDOW_SIZE
      ensures slots[Slot(n) := true][Slot(m)] <==> m in got + {n}
    {
      if m != n { SlotsDiffer(m, n); }
    }
  }

  lemma {:induction false} PassEarly(slots: seq<bool>, w: nat, got: set<nat>)
    requires EarlyRep(slots, w, got) && w + WINDOW_SIZE !in got
    ensures EarlyRep(slots[Slot(w) := false], w + 1, got)
  {
    forall m: nat | w + 1 <= m < w + 1 + WINDOW_SIZE
      ensures slots[Slot(w) := false][Slot(m)] <==> m in got
    {
      if m == w + WINDOW_SIZE { SlotPeriod(w); } else { SlotsDiffer(m, w); }
    }
  }
}
