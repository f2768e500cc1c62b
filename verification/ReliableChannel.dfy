/** The reliable channel as it is implemented: modular counters, 64-slot circular buffers and
    a bit-packed acknowledgement packet, all updated in place.

    The ghost fields `snd` and `rcv` are the same channel over unbounded numbers. `Valid` ties
    the two together, and every method is proved to do to the ghost state exactly what the
    corresponding function of ReliableModel says, for every packet that can arrive. */
module ReliableChannels {
  import opened Bits
  import opened Sequences
  import opened Packets
  import opened ReliableModel
  import opened ChannelRep
  import opened Options

  class ReliableChannel {
    const id: byte
    const ordered: bool
    var outgoing: seq<ChannelPacket>
    const outgoingAcks: array<byte>
    const pendingPackets: array<PendingSlot>
    const receivedPackets: array<Option<ChannelPacket>>
    const earlyReceived: array<bool>
    var localSequence: int
    var remoteSequence: int
    var localWindow: int
    var remoteWindow: int
    var mustSendAcks: bool

    ghost var snd: Sender
    ghost var rcv: Receiver

    ghost predicate ValidSender()
      reads this, pendingPackets
    {
      && SenderOk(snd)
      && outgoing == snd.outgoing
      && localWindow == Wire(snd.window) && localSequence == Wire(snd.next)
      && PendingRep(pendingPackets[..], snd.window, snd.pending)
    }

    ghost predicate ValidReceiver()
      reads this, outgoingAcks, receivedPackets, earlyReceived
    {
      && ReceiverOk(rcv, ordered)
      && remoteWindow == Wire(rcv.window) && remoteSequence == Wire(rcv.next)
      && mustSendAcks == rcv.ackDue
      && AckHeader(outgoingAcks[..], rcv.window)
      && AckRep(outgoingAcks[..], rcv.window, rcv.store.Keys)
      && (ordered ==> HeldRep(receivedPackets[..], rcv.next + 1, rcv.store))
      && (!ordered ==> EarlyRep(earlyReceived[..], rcv.next + 1, rcv.store.Keys))
    }

    ghost predicate AckHeader(data: seq<byte>, window: nat) {
      && |data| == ACK_PACKET_SIZE
      && Packet(data).Property() == PROP_ACK && !Packet(data).IsFragmented()
      && Packet(data).Sequence() == Wire(window) && Packet(data).ChannelID() == id as nat
    }

    ghost predicate Valid()
      reads this, outgoingAcks, pendingPackets, receivedPackets, earlyReceived
    {
      ValidSender() && ValidReceiver()
    }

    constructor (id: byte, ordered: bool)
      ensures Valid() && fresh(outgoingAcks) && fresh(pendingPackets) && fresh(receivedPackets) && fresh(earlyReceived)
      ensures this.id == id && this.ordered == ordered
      ensures snd == EMPTY_SENDER && rcv == EMPTY_RECEIVER
    {
      hide AckHeader, AckRep, PendingRep, HeldRep, EarlyRep, ReceiverOk, Wire;
      this.id, this.ordered := id, ordered;
      outgoing := [];
      localSequence, remoteSequence, localWindow, remoteWindow := 0, 0, 0, 0;
      mustSendAcks := false;
      snd, rcv := EMPTY_SENDER, EMPTY_RECEIVER;
      pendingPackets := new PendingSlot[WINDOW_SIZE](_ => PendingSlot(None, 0, false));
      receivedPackets := new Option<ChannelPacket>[WINDOW_SIZE](_ => None);
      earlyReceived := new bool[WINDOW_SIZE](_ => false);
      outgoingAcks := new byte[ACK_PACKET_SIZE](i => if i == 0 then PROP_ACK as byte else if i == 3 then id else 0);
      new;
      InitialAck(outgoingAcks[..]);
      EmptyBuffers(pendingPackets[..], receivedPackets[..], earlyReceived[..]);
    }

    lemma {:induction false} EmptyBuffers(slots: seq<PendingSlot>, held: seq<Option<ChannelPacket>>, early: seq<bool>)
      requires |slots| == |held| == |early| == WINDOW_SIZE
      requires forall k :: 0 <= k < WINDOW_SIZE ==> slots[k].pkt == None && held[k] == None && !early[k]
      ensures PendingRep(slots, 0, map[]) && HeldRep(held, 1, map[]) && Wire(0) == 0
      ensures EMPTY_RECEIVER.store.Keys == {} && EarlyRep(early, 1, {}) && ReceiverOk(EMPTY_RECEIVER, ordered)
    {}

    lemma {:induction false} InitialAck(data: seq<byte>)
      requires |data| == ACK_PACKET_SIZE
      requires forall i :: 0 <= i < |data| ==> data[i] == if i == 0 then PROP_ACK as byte else if i == 3 then id else 0
      ensures AckHeader(data, 0) && AckRep(data, 0, {})
    {}

    method Enqueue(p: ChannelPacket)
      requires Valid()
      modifies this`outgoing, this`snd
      ensures Valid() && snd == old(snd).(outgoing := old(snd).outgoing + [p])
    {
      outgoing := outgoing + [p];
      snd := snd.(outgoing := outgoing);
    }

    // ---------------------------------------------------------------------- sending

    /** Any packet with the Ack property, honest or not. */
    method ProcessAck(p: ChannelPacket)
      requires Valid()
      modifies this`localWindow, this`snd, pendingPackets
      ensures Valid()
      ensures snd == if p.Size() == ACK_PACKET_SIZE
                     then AckArrives(old(snd), p.Sequence(), SlotBits(p.data)) else old(snd)
    {
      hide Wire, Slot, RelativeSequence, PendingRep, Unacked, AckArrives, SlotBits;
      if p.Size() != outgoingAcks.Length {
        return;
      }
      var ackWindowStart := p.Sequence();
      var windowRel := RelativeSequence(localWindow, ackWindowStart);
      if ackWindowStart >= MAX_SEQUENCE || windowRel < 0 {
        AckRefused(snd, ackWindowStart, SlotBits(p.data));
        return;
      }
      if windowRel >= WINDOW_SIZE {
        AckRefused(snd, ackWindowStart, SlotBits(p.data));
        return;
      }
      ghost var s := snd;
      ghost var w := ReadAckBits(p, ackWindowStart);
      snd := AckArrives(s, ackWindowStart, SlotBits(p.data));
      AckFinished(pendingPackets[..], s, ackWindowStart, SlotBits(p.data), w);
    }

    /** The loop over the bits of an accepted acknowledgement; w is the number that the window
        starts with afterwards. */
    method ReadAckBits(p: ChannelPacket, ackWindowStart: nat) returns (ghost w: nat)
      requires ValidSender() && |p.data| == ACK_PACKET_SIZE && AckAccepted(snd, ackWindowStart)
      modifies this`localWindow, pendingPackets
      ensures var limit, bits := AckLimit(snd, ackWindowStart), SlotBits(p.data);
              && snd.window <= w <= limit && localWindow == Wire(w)
              && (forall n: nat {:trigger Slot(n)} :: snd.window <= n < w ==> Slot(n) in bits)
              && (w < limit ==> Slot(w) !in bits)
              && PendingRep(pendingPackets[..], snd.window, Unacked(snd.pending, limit, bits))
    {
      hide Wire, Slot, RelativeSequence, PendingRep, Unacked, SlotBits;
      ghost var s := snd;
      ghost var limit := AckLimit(s, ackWindowStart);
      ghost var bits := SlotBits(p.data);
      ghost var m := s.window;
      w := s.window;
      UnackedNone(s, bits);
      var pendingSeq := localWindow;
      while pendingSeq != localSequence
        invariant s.window <= w <= m <= limit
        invariant pendingSeq == Wire(m) && localWindow == Wire(w)
        invariant forall n: nat {:trigger Slot(n)} :: s.window <= n < w ==> Slot(n) in bits
        invariant w < m ==> Slot(w) !in bits
        invariant PendingRep(pendingPackets[..], s.window, Unacked(s.pending, m, bits))
        decreases limit - m
      {
        WindowDistance(m, s, ackWindowStart);
        if RelativeSequence(pendingSeq, ackWindowStart) >= WINDOW_SIZE {
          break;
        }
        var idx := pendingSeq % WINDOW_SIZE;
        var currentByte := CHANNELED_HEADER_SIZE + idx / 8;
        var currentBit := idx % 8;
        SlotOfWire(m);
        WireStep(m);
        UnackedStep(pendingPackets[..], s, m, bits);
        SlotBitsExact(p.data, Slot(m));
        if And(p.data[currentByte] as nat, Pow2(currentBit)) == 0 {
          m := m + 1;
          pendingSeq := (pendingSeq + 1) % MAX_SEQUENCE;
          continue;
        }
        WiresDiffer(w, m);
        if pendingSeq == localWindow {
          localWindow := (localWindow + 1) % MAX_SEQUENCE;
          w := w + 1;
        }
        pendingPackets[idx] := pendingPackets[idx].(pkt := None);
        m := m + 1;
        pendingSeq := (pendingSeq + 1) % MAX_SEQUENCE;
      }
      WiresDiffer(m, s.next);
    }

    /** The pending packets that an acknowledgement leaves when it has been read up to m. */
    ghost function Unacked(pending: map<nat, Pending>, m: nat, bits: set<nat>): map<nat, Pending> {
      map n | n in pending && !(n < m && Slot(n) in bits) :: pending[n]
    }

    lemma {:induction false} SlotBitsExact(data: seq<byte>, k: nat)
      requires |data| == ACK_PACKET_SIZE && k < WINDOW_SIZE
      ensures k in SlotBits(data) <==> AckBit(data, k)
    {}

    lemma {:induction false} AckRefused(s: Sender, ackWindowStart: nat, bits: set<nat>)
      requires SenderOk(s) && !AckAccepted(s, ackWindowStart)
      ensures AckArrives(s, ackWindowStart, bits) == s
    {}

    lemma {:induction false} UnackedNone(s: Sender, bits: set<nat>)
      requires SenderOk(s)
      ensures Unacked(s.pending, s.window, bits) == s.pending
    {}

    /** Reading one more bit either changes nothing or empties one slot. */
    lemma {:induction false} UnackedStep(slots: seq<PendingSlot>, s: Sender, m: nat, bits: set<nat>)
      requires SenderOk(s) && s.window <= m < s.next
      requires PendingRep(slots, s.window, Unacked(s.pending, m, bits))
      ensures |slots| == WINDOW_SIZE
      ensures Slot(m) !in bits ==> PendingRep(slots, s.window, Unacked(s.pending, m + 1, bits))
      ensures Slot(m) in bits ==>
                PendingRep(slots[Slot(m) := slots[Slot(m)].(pkt := None)], s.window, Unacked(s.pending, m + 1, bits))
    {
      hide Slot, Wire;
      if Slot(m) in bits {
        PutSlot(slots, s.window, Unacked(s.pending, m, bits), m, slots[Slot(m)].(pkt := None),
                Unacked(s.pending, m + 1, bits));
      } else {
        assert Unacked(s.pending, m, bits) == Unacked(s.pending, m + 1, bits);
      }
    }

    lemma {:induction false} AckFinished(slots: seq<PendingSlot>, s: Sender, ackWindowStart: nat, bits: set<nat>,
                                         w: nat)
      requires SenderOk(s) && AckAccepted(s, ackWindowStart) && s.window <= w <= AckLimit(s, ackWindowStart)
      requires forall n: nat {:trigger Slot(n)} :: s.window <= n < w ==> Slot(n) in bits
      requires w < AckLimit(s, ackWindowStart) ==> Slot(w) !in bits
      requires PendingRep(slots, s.window, Unacked(s.pending, AckLimit(s, ackWindowStart), bits))
      ensures var t := AckArrives(s, ackWindowStart, bits);
              t.window == w && t.next == s.next && t.outgoing == s.outgoing && PendingRep(slots, w, t.pending)
    {
      hide Slot, Wire, RelativeSequence;
      AdvanceUnique(s.window, AckLimit(s, ackWindowStart), bits, w);
      var t := AckArrives(s, ackWindowStart, bits);
      assert t.pending == Unacked(s.pending, AckLimit(s, ackWindowStart), bits);
      MoveStart(slots, s.window, w, t.pending);
    }

    lemma {:induction false} WindowDistance(m: nat, s: Sender, ackWindowStart: nat)
      requires SenderOk(s) && AckAccepted(s, ackWindowStart) && s.window <= m <= AckLimit(s, ackWindowStart)
      ensures RelativeSequence(Wire(m), ackWindowStart)
              == m - s.window + RelativeSequence(Wire(s.window), ackWindowStart)
      ensures m < s.next ==>
                (RelativeSequence(Wire(m), ackWindowStart) >= WINDOW_SIZE <==> m == AckLimit(s, ackWindowStart))
    {
      hide Wire, RelativeSequence;
      var d := RelativeSequence(Wire(s.window), ackWindowStart);
      WireBehind(s.window, ackWindowStart);
      RelativeExact(m, s.window - d);
    }

    lemma {:induction false} WiresDiffer(a: nat, b: nat)
      requires a <= b <= a + WINDOW_SIZE
      ensures Wire(a) == Wire(b) <==> a == b
    {}

    /** One send tick: the acknowledgement owed, then the packets that are due. */
    method SendNextPackets(now: int, delay: int) returns (more: bool, sent: seq<ChannelPacket>)
      requires Valid()
      modifies this`mustSendAcks, this`rcv, this`outgoing, this`localSequence, this`snd, pendingPackets
      ensures Valid()
      ensures snd == SendTick(old(snd), id, now, delay) && rcv == old(rcv).(ackDue := false)
      ensures sent == (if old(rcv).ackDue then [Packet(outgoingAcks[..])] else [])
                      + TickPackets(old(snd), id, now, delay)
      ensures more <==> snd.pending != map[] || outgoing != []
    {
      hide ReceiverOk, AckRep, HeldRep, EarlyRep, PendingRep, DuePackets, FillSome, TouchAll, Wire;
      AckDueIsFree(rcv);
      sent := [];
      if mustSendAcks {
        mustSendAcks := false;
        sent := [Packet(outgoingAcks[..])];
      }
      rcv := rcv.(ackDue := false);
      FillWindow();
      var hasPending, resent := ResendPending(now, delay);
      sent := sent + resent;
      more := hasPending || mustSendAcks || |outgoing| > 0;
    }

    /** The acknowledgement this channel sends is the unbounded one, seen through the wire: the
        other side's ProcessAck reads it as AckArrives with the same start and slots. */
    lemma {:induction false} OwnAckOnWire()
      requires ValidReceiver()
      ensures var a, p := AckOf(rcv), Packet(outgoingAcks[..]);
              && p.Size() == ACK_PACKET_SIZE && p.Verify() && p.Property() == PROP_ACK
              && p.Sequence() == Wire(a.start) && SlotBits(p.data) == AckSlots(a)
    {
      hide Wire, Slot, ReceiverOk;
      BitmapIsAck(outgoingAcks[..], AckOf(rcv));
    }

    lemma {:induction false} AckDueIsFree(r: Receiver)
      requires ReceiverOk(r, ordered)
      ensures ReceiverOk(r.(ackDue := false), ordered)
    {}

    method FillWindow()
      requires ValidSender()
      modifies this`outgoing, this`localSequence, this`snd, pendingPackets
      ensures ValidSender() && snd == Fill(old(snd), id)
    {
      hide Wire, Slot, RelativeSequence, PendingRep, FillSome, Stamp;
      ghost var s, k := snd, 0;
      FillNone(s);
      while |outgoing| > 0
        invariant k <= Room(s) && outgoing == s.outgoing[k..] && localSequence == Wire(s.next + k)
        invariant PendingRep(pendingPackets[..], s.window, FillSome(s, k, id).pending)
        decreases |outgoing|
      {
        RelativeExact(s.next + k, s.window);
        if RelativeSequence(localSequence, localWindow) >= WINDOW_SIZE {
          break;
        }
        FillStep(pendingPackets[..], s, k);
        SlotOfWire(s.next + k);
        WireStep(s.next + k);
        var p := outgoing[0];
        outgoing := outgoing[1..];
        p := NumberPacket(p, s.next + k);
        pendingPackets[localSequence % WINDOW_SIZE] := PendingSlot(Some(p), 0, false);
        localSequence := (localSequence + 1) % MAX_SEQUENCE;
        k := k + 1;
      }
      assert k == Room(s);
      snd := Fill(s, id);
      FillShape(s, k);
    }

    /** The packet gets its number and the channel id in place. */
    method NumberPacket(p: ChannelPacket, ghost n: nat) returns (q: ChannelPacket)
      requires localSequence == Wire(n)
      ensures q == Stamp(p, n, id)
    {
      q := p.SetSequence(localSequence);
      q := q.SetChannelID(id);
    }

    lemma {:induction false} FillShape(s: Sender, k: nat)
      requires SenderOk(s) && k <= Room(s)
      ensures var f := FillSome(s, k, id);
              SenderOk(f) && f.window == s.window && f.next == s.next + k && f.outgoing == s.outgoing[k..]
    {}

    lemma {:induction false} FillNone(s: Sender)
      requires SenderOk(s)
      ensures FillSome(s, 0, id) == s
    {
      assert FillSome(s, 0, id).pending == s.pending;
    }

    lemma {:induction false} FillStep(slots: seq<PendingSlot>, s: Sender, k: nat)
      requires SenderOk(s) && k < Room(s)
      requires PendingRep(slots, s.window, FillSome(s, k, id).pending)
      ensures |slots| == WINDOW_SIZE
      ensures PendingRep(slots[Slot(s.next + k) := PendingSlot(Some(Stamp(s.outgoing[k], s.next + k, id)), 0, false)],
                         s.window, FillSome(s, k + 1, id).pending)
    {
      hide Slot, Stamp, FillSome;
      var n := s.next + k;
      FillMore(s, k);
      PutSlot(slots, s.window, FillSome(s, k, id).pending, n,
              PendingSlot(Some(Stamp(s.outgoing[k], n, id)), 0, false), FillSome(s, k + 1, id).pending);
    }

    lemma {:induction false} FillMore(s: Sender, k: nat)
      requires SenderOk(s) && k < Room(s)
      ensures var n := s.next + k; var before, after := FillSome(s, k, id).pending, FillSome(s, k + 1, id).pending;
              && after.Keys == before.Keys + {n} && after[n] == Pending(Stamp(s.outgoing[k], n, id), 0, false)
              && (forall m :: m in before && m != n ==> after[m] == before[m])
              && (forall m :: m in before ==> s.window <= m < n) && s.window <= n < s.window + WINDOW_SIZE
    {
      hide Stamp, SenderOk, FillSome;
      FillKeys(s, k);
      FillKeys(s, k + 1);
      FillEntries(s, k);
    }

    lemma {:induction false} FillEntries(s: Sender, k: nat)
      requires SenderOk(s) && k < Room(s)
      ensures var n := s.next + k; var before, after := FillSome(s, k, id).pending, FillSome(s, k + 1, id).pending;
              && n in after && after[n] == Pending(Stamp(s.outgoing[k], n, id), 0, false)
              && (forall m :: m in before && m in after && m != n ==> after[m] == before[m])
    {
      hide Stamp, SenderOk;
      assert FillSome(s, k + 1, id).pending[s.next + k] == Fresh(s.outgoing, s.next, s.next + k, id);
    }

    lemma {:induction false} FillKeys(s: Sender, k: nat)
      requires SenderOk(s) && k <= Room(s)
      ensures forall m :: m in FillSome(s, k, id).pending <==> m in s.pending || s.next <= m < s.next + k
      ensures forall m :: m in s.pending ==> s.window <= m < s.next
      ensures s.window <= s.next && s.next + k <= s.window + WINDOW_SIZE
    {
      hide Stamp;
    }

    method ResendPending(now: int, delay: int) returns (hasPending: bool, sent: seq<ChannelPacket>)
      requires ValidSender()
      modifies this`snd, pendingPackets
      ensures ValidSender()
      ensures snd == old(snd).(pending := TouchAll(old(snd).pending, now, delay))
      ensures sent == DuePackets(old(snd).pending, snd.window, snd.next, now, delay)
      ensures hasPending <==> snd.pending != map[]
    {
      hide Wire, Slot, PendingRep, TouchSome;
      ghost var s, m := snd, snd.window;
      TouchNone(s, now, delay);
      hasPending, sent := false, [];
      var pendingSeq := localWindow;
      while pendingSeq != localSequence
        invariant s.window <= m <= s.next && pendingSeq == Wire(m)
        invariant PendingRep(pendingPackets[..], s.window, TouchSome(s.pending, m, now, delay))
        invariant sent == DuePackets(s.pending, s.window, m, now, delay)
        invariant hasPending <==> exists n :: n in s.pending && n < m
        decreases s.next - m
      {
        WiresDiffer(m, s.next);
        SlotOfWire(m);
        WireStep(m);
        TouchStep(pendingPackets[..], s, m, now, delay);
        var held, packets := TrySend(pendingSeq % WINDOW_SIZE, now, delay);
        if held {
          hasPending := true;
        }
        sent := sent + packets;
        m := m + 1;
        pendingSeq := (pendingSeq + 1) % MAX_SEQUENCE;
      }
      WiresDiffer(m, s.next);
      TouchDone(s, now, delay);
      snd := s.(pending := TouchAll(s.pending, now, delay));
      assert hasPending <==> exists n :: n in s.pending;
      assert forall n :: n in s.pending <==> n in snd.pending;
    }

    method TrySend(idx: nat, now: int, delay: int) returns (held: bool, sent: seq<ChannelPacket>)
      requires idx < pendingPackets.Length
      modifies pendingPackets
      ensures held <==> old(pendingPackets[idx]).pkt.Some?
      ensures pendingPackets[..] == old(pendingPackets[..])[idx := SlotSent(old(pendingPackets[idx]), now, delay)]
      ensures sent == if Sends(old(pendingPackets[idx]), now, delay) then [old(pendingPackets[idx]).pkt.value] else []
    {
      var slot := pendingPackets[idx];
      if slot.pkt == None {
        return false, [];
      }
      if slot.isSent {
        if now - slot.timeStamp < delay {
          return true, [];
        }
      }
      pendingPackets[idx] := slot.(timeStamp := now, isSent := true);
      return true, [slot.pkt.value];
    }

    static predicate Sends(s: PendingSlot, now: int, delay: int) {
      s.pkt.Some? && (!s.isSent || now - s.timeStamp >= delay)
    }

    static function SlotSent(s: PendingSlot, now: int, delay: int): PendingSlot {
      if Sends(s, now, delay) then s.(timeStamp := now, isSent := true) else s
    }

    /** The pending packets when those numbered below m have been looked at. */
    ghost function TouchSome(pending: map<nat, Pending>, m: nat, now: int, delay: int): map<nat, Pending> {
      map n | n in pending :: if n < m then Touch(pending[n], now, delay) else pending[n]
    }

    lemma {:induction false} TouchNone(s: Sender, now: int, delay: int)
      requires SenderOk(s)
      ensures TouchSome(s.pending, s.window, now, delay) == s.pending
    {}

    lemma {:induction false} TouchDone(s: Sender, now: int, delay: int)
      requires SenderOk(s)
      ensures TouchSome(s.pending, s.next, now, delay) == TouchAll(s.pending, now, delay)
    {}

    lemma {:induction false} TouchStep(slots: seq<PendingSlot>, s: Sender, m: nat, now: int, delay: int)
      requires SenderOk(s) && s.window <= m < s.next
      requires PendingRep(slots, s.window, TouchSome(s.pending, m, now, delay))
      ensures |slots| == WINDOW_SIZE
      ensures var slot := slots[Slot(m)];
              && (slot.pkt.Some? <==> m in s.pending)
              && (Sends(slot, now, delay) <==> m in s.pending && Due(s.pending[m], now, delay))
              && (m in s.pending ==> slot.pkt == Some(s.pending[m].pkt))
              && PendingRep(slots[Slot(m) := SlotSent(slot, now, delay)], s.window,
                            TouchSome(s.pending, m + 1, now, delay))
    {
      hide Slot;
      var slot := slots[Slot(m)];
      assert Holds(slot, TouchSome(s.pending, m, now, delay), m);
      PutSlot(slots, s.window, TouchSome(s.pending, m, now, delay), m,
              SlotSent(slot, now, delay), TouchSome(s.pending, m + 1, now, delay));
    }

    // -------------------------------------------------------------------- receiving

    /** The packets a receiver handed over on its way from r to q. */
    ghost function HandedOver(r: Receiver, q: Receiver): seq<ChannelPacket>
      requires r.log <= q.log && forall n :: n in q.log ==> n in q.store
    {
      Packets(q.log[|r.log|..], q.store)
    }

    static ghost function Packets(numbers: seq<nat>, store: map<nat, ChannelPacket>): seq<ChannelPacket>
      requires forall n :: n in numbers ==> n in store
    {
      seq(|numbers|, k requires 0 <= k < |numbers| => assert numbers[k] in numbers; store[numbers[k]])
    }

    /** The number a packet is read as. */
    ghost function NumberOf(p: ChannelPacket): int
      reads this
    {
      Reconstruct(rcv.window, p.Sequence())
    }

    ghost predicate IsReceivable(p: ChannelPacket)
      reads this
    {
      p.Sequence() < MAX_SEQUENCE && Receivable(rcv, NumberOf(p))
    }

    /** Whatever arrives, the channel does what the unbounded receiver does with it; `wake`
        says that the channel asked to be queued for sending, `released` is what it handed
        over, `processed` that the packet was new. */
    method ProcessPacket(p: ChannelPacket) returns (processed: bool, wake: bool, released: seq<ChannelPacket>)
      requires Valid()
      modifies this`localWindow, this`snd, this`mustSendAcks, this`remoteWindow, this`remoteSequence, this`rcv
      modifies pendingPackets, outgoingAcks, receivedPackets, earlyReceived
      ensures Valid()
      ensures p.Property() == PROP_ACK ==>
                && rcv == old(rcv) && !processed && !wake && released == []
                && snd == if p.Size() == ACK_PACKET_SIZE
                          then AckArrives(old(snd), p.Sequence(), SlotBits(p.data)) else old(snd)
      ensures p.Property() != PROP_ACK ==>
                && snd == old(snd) && rcv == PacketArrives(old(rcv), ordered, p)
                && (wake <==> old(IsReceivable(p)))
                && (processed <==> rcv.store != old(rcv.store))
                && old(rcv).log <= rcv.log && (forall n :: n in rcv.log ==> n in rcv.store)
                && released == HandedOver(old(rcv), rcv)
    {
      hide ReceiverOk, AckHeader, AckRep, HeldRep, EarlyRep, PendingRep, SenderOk, Receivable, PacketArrives,
        Reconstruct, RelativeSequence, Wire, AckArrives, Packets;
      if p.Property() == PROP_ACK {
        ProcessAck(p);
        return false, false, [];
      }
      ArrivalFacts(rcv, p);
      var seqNumber := p.Sequence();
      var relate := RelativeSequence(seqNumber, remoteWindow);
      var relateSeq := RelativeSequence(seqNumber, remoteSequence);
      if seqNumber >= MAX_SEQUENCE {
        return false, false, [];
      }
      if relateSeq > WINDOW_SIZE {
        return false, false, [];
      }
      if relate < 0 || relate >= 2 * WINDOW_SIZE {
        return false, false, [];
      }
      processed, released := TakePacket(p, relate, rcv.window + relate);
      wake := true;
    }

    lemma {:induction false} ArrivalFacts(r: Receiver, p: ChannelPacket)
      requires ReceiverOk(r, ordered)
      ensures var n := Reconstruct(r.window, p.Sequence());
              && n == r.window + RelativeSequence(p.Sequence(), Wire(r.window))
              && (p.Sequence() < MAX_SEQUENCE ==>
                    && Wire(n) == p.Sequence()
                    && (Receivable(r, n) <==> RelativeSequence(p.Sequence(), Wire(r.next)) <= WINDOW_SIZE
                                              && 0 <= n - r.window < 2 * WINDOW_SIZE))
              && (p.Sequence() < MAX_SEQUENCE && Receivable(r, n) ==>
                    PacketArrives(r, ordered, p) == Store(r, ordered, n, p))
              && (!(p.Sequence() < MAX_SEQUENCE && Receivable(r, n)) ==> PacketArrives(r, ordered, p) == r)
              && HandedOver(r, r) == [] && (forall m :: m in r.log ==> m in r.store)
    {
      ReadTwice(r.window, r.next, p.Sequence());
      hide Wire, RelativeSequence, Store;
    }

    /** Reading a number against the window and against the next expected number agrees
        wherever it can be received. */
    lemma {:induction false} ReadTwice(window: nat, next: nat, wire: nat)
      requires window <= next + 1 && next <= window + WINDOW_SIZE && wire < 65536
      ensures var n := Reconstruct(window, wire);
              wire < MAX_SEQUENCE ==>
                && Wire(n) == wire
                && (0 <= n - window < 2 * WINDOW_SIZE ==> RelativeSequence(wire, Wire(next)) == n - next)
    {
      hide Wire, RelativeSequence;
      if wire < MAX_SEQUENCE {
        RelativeRange(window, wire);
        WireOfWire(wire);
        RelativeExact(Reconstruct(window, wire), next);
      }
    }

    lemma {:induction false} WireOfWire(wire: nat)
      requires wire < MAX_SEQUENCE
      ensures Wire(wire) == wire
    {}

    /** A packet within reach, under its true number n. */
    method TakePacket(p: ChannelPacket, relate: int, ghost n: nat)
      returns (processed: bool, released: seq<ChannelPacket>)
      requires Valid() && Receivable(rcv, n) && relate == n - rcv.window && p.Sequence() == Wire(n)
      modifies this`mustSendAcks, this`remoteWindow, this`remoteSequence, this`rcv
      modifies outgoingAcks, receivedPackets, earlyReceived
      ensures Valid() && rcv == Store(old(rcv), ordered, n, p)
      ensures processed <==> n !in old(rcv).store
      ensures old(rcv).log <= rcv.log && (forall m :: m in rcv.log ==> m in rcv.store)
      ensures released == HandedOver(old(rcv), rcv)
    {
      hide ReceiverOk, AckHeader, AckRep, HeldRep, EarlyRep, PendingRep, SenderOk, Store, Wire, Packets, Mex,
        Receivable, NewFacts, HandedOver;
      ghost var r, v := rcv, SlideTo(rcv.window, n);
      StoreFacts(r, n, p);
      if relate >= WINDOW_SIZE {
        WireSum(r.window, relate - WINDOW_SIZE + 1);
        SlideWindow((remoteWindow + relate - WINDOW_SIZE + 1) % MAX_SEQUENCE, v);
      }
      mustSendAcks := true;
      processed, released := RecordPacket(p, r, v, n);
      rcv := Store(r, ordered, n, p);
    }

    /** The bit of packet n tells whether a copy of it was taken before. */
    method RecordPacket(p: ChannelPacket, ghost r: Receiver, ghost v: nat, ghost n: nat)
      returns (processed: bool, released: seq<ChannelPacket>)
      requires ReceiverOk(r, ordered) && Receivable(r, n) && v == SlideTo(r.window, n)
      requires p.Sequence() == Wire(n) && remoteSequence == Wire(r.next)
      requires AckHeader(outgoingAcks[..], v) && AckRep(outgoingAcks[..], v, r.store.Keys)
      requires ordered ==> HeldRep(receivedPackets[..], r.next + 1, r.store)
      requires !ordered ==> EarlyRep(earlyReceived[..], r.next + 1, r.store.Keys)
      modifies this`remoteSequence, outgoingAcks, receivedPackets, earlyReceived
      ensures var q := Store(r, ordered, n, p);
              && remoteSequence == Wire(q.next)
              && AckHeader(outgoingAcks[..], v) && AckRep(outgoingAcks[..], v, q.store.Keys)
              && (ordered ==> HeldRep(receivedPackets[..], q.next + 1, q.store))
              && (!ordered ==> EarlyRep(earlyReceived[..], q.next + 1, q.store.Keys))
              && r.log <= q.log && (forall m :: m in q.log ==> m in q.store)
              && released == HandedOver(r, q)
      ensures processed <==> n !in r.store
    {
      hide ReceiverOk, AckHeader, AckRep, HeldRep, EarlyRep, Store, Wire, Slot, Packets, Mex, WithAckBit, AckBit,
        Receivable, NewFacts, HandedOver;
      ghost var q := Store(r, ordered, n, p);
      StoreFacts(r, n, p);
      SlotOfWire(n);
      var ackIdx := p.Sequence() % WINDOW_SIZE;
      AckBitIs(outgoingAcks[..], v, r.store.Keys, n);
      if AckBit(outgoingAcks[..], ackIdx) {
        NothingHeld(q, n);
        assert q.log[|r.log|..] == [];
        return false, [];
      }
      MarkAck(ackIdx, v, n);
      released := TakeNew(p, ackIdx, r, n);
      return true, released;
    }

    /** The first copy of packet n: deliver it or hold it. */
    method TakeNew(p: ChannelPacket, ackIdx: nat, ghost r: Receiver, ghost n: nat)
      returns (released: seq<ChannelPacket>)
      requires ReceiverOk(r, ordered) && Receivable(r, n) && n !in r.store
      requires p.Sequence() == Wire(n) && ackIdx == Slot(n) && remoteSequence == Wire(r.next)
      requires ordered ==> HeldRep(receivedPackets[..], r.next + 1, r.store)
      requires !ordered ==> EarlyRep(earlyReceived[..], r.next + 1, r.store.Keys)
      modifies this`remoteSequence, receivedPackets, earlyReceived
      ensures var q := Store(r, ordered, n, p);
              && remoteSequence == Wire(q.next)
              && (ordered ==> HeldRep(receivedPackets[..], q.next + 1, q.store))
              && (!ordered ==> EarlyRep(earlyReceived[..], q.next + 1, q.store.Keys))
              && r.log <= q.log && (forall m :: m in q.log ==> m in q.store)
              && released == HandedOver(r, q)
    {
      hide ReceiverOk, HeldRep, EarlyRep, Store, Wire, Slot, Packets, Mex, Receivable;
      StoreFacts(r, n, p);
      ghost var q := Store(r, ordered, n, p);
      if p.Sequence() == remoteSequence {
        released := Deliver(p, r, n);
        assert q.log[|r.log|..] == if ordered then Range(n, q.next) else [n];
        return;
      }
      NothingHeld(q, n);
      if ordered {
        HoldPacket(receivedPackets[..], r.next + 1, r.store, n, p);
        receivedPackets[ackIdx] := Some(p);
        assert q.log[|r.log|..] == [];
        return [];
      }
      MarkEarly(earlyReceived[..], r.next + 1, r.store.Keys, n);
      earlyReceived[ackIdx] := true;
      assert q.log[|r.log|..] == [n];
      return [p];
    }

    lemma {:induction false} NothingHeld(q: Receiver, n: nat)
      requires n in q.store
      ensures Packets([], q.store) == [] && Packets([n], q.store) == [q.store[n]]
    {}

    lemma {:induction false} WireSum(n: nat, d: nat)
      ensures (Wire(n) + d) % MAX_SEQUENCE == Wire(n + d)
    {}

    lemma {:induction false} AckBitIs(data: seq<byte>, v: nat, got: set<nat>, n: nat)
      requires AckRep(data, v, got) && v <= n < v + WINDOW_SIZE
      ensures |data| == ACK_PACKET_SIZE && (AckBit(data, Slot(n)) <==> n in got)
    {}

    /** What Store does, case by case. */
    lemma {:induction false} StoreFacts(r: Receiver, n: nat, p: ChannelPacket)
      requires ReceiverOk(r, ordered) && Receivable(r, n)
      ensures var v, q := SlideTo(r.window, n), Store(r, ordered, n, p);
              && ReceiverOk(q, ordered) && q.window == v && q.ackDue && r.log <= q.log
              && r.window <= v <= n < v + WINDOW_SIZE && v <= r.window + WINDOW_SIZE
              && (forall m :: m in r.store ==> m < r.window + WINDOW_SIZE)
              && (forall m :: m in q.log ==> m in q.store)
              && HandedOver(r, q) == Packets(q.log[|r.log|..], q.store)
              && (Wire(n) == Wire(r.next) <==> n == r.next)
              && (n in r.store ==> q.store == r.store && q.next == r.next && q.log == r.log)
      ensures n !in r.store ==> NewFacts(r, n, p) && Store(r, ordered, n, p).store.Keys == r.store.Keys + {n}
      ensures n == r.next ==> n !in r.store
    {
      hide Mex, Packets, Wire;
      StoreKeepsOk(r, ordered, n, p);
      NearWires(n, r.next);
      if n !in r.store { StoreNew(r, n, p); }
    }

    ghost predicate NewFacts(r: Receiver, n: nat, p: ChannelPacket) {
      var q := Store(r, ordered, n, p);
      && q.store == r.store[n := p] && q.store.Keys == r.store.Keys + {n}
      && (n != r.next ==>
            r.next < n <= r.next + WINDOW_SIZE && q.next == r.next && q.log == if ordered then r.log else r.log + [n])
      && (n == r.next ==>
            && q.next == Mex(q.store.Keys, n + 1)
            && q.log == r.log + (if ordered then Range(n, q.next) else [n])
            && forall m :: m in q.store ==> m < n + WINDOW_SIZE)
    }

    lemma {:induction false} StoreNew(r: Receiver, n: nat, p: ChannelPacket)
      requires ReceiverOk(r, ordered) && Receivable(r, n) && n !in r.store
      ensures NewFacts(r, n, p)
    {
      hide Mex;
    }

    lemma {:induction false} NearWires(a: nat, b: nat)
      requires -2 * WINDOW_SIZE <= a - b <= 2 * WINDOW_SIZE
      ensures Wire(a) == Wire(b) <==> a == b
    {}

    /** The window start moves to v; the bits of the numbers that leave are cleared. */
    method SlideWindow(newWindowStart: nat, ghost v: nat)
      requires remoteWindow == Wire(rcv.window) && newWindowStart == Wire(v)
      requires rcv.window <= v <= rcv.window + WINDOW_SIZE
      requires AckHeader(outgoingAcks[..], rcv.window) && AckRep(outgoingAcks[..], rcv.window, rcv.store.Keys)
      requires forall m :: m in rcv.store ==> m < rcv.window + WINDOW_SIZE
      modifies this`remoteWindow, outgoingAcks
      ensures remoteWindow == Wire(v)
      ensures AckHeader(outgoingAcks[..], v) && AckRep(outgoingAcks[..], v, rcv.store.Keys)
    {
      hide Wire, Slot, AckHeader, AckRep, WithoutAckBit;
      SetAckSequence(newWindowStart, v);
      ghost var w := rcv.window;
      while remoteWindow != newWindowStart
        invariant rcv.window <= w <= v && remoteWindow == Wire(w)
        invariant AckHeader(outgoingAcks[..], v) && AckRep(outgoingAcks[..], w, rcv.store.Keys)
        decreases v - w
      {
        WiresDiffer(w, v);
        SlotOfWire(w);
        WireStep(w);
        SlideOne(outgoingAcks[..], w, rcv.store.Keys);
        ClearAck(remoteWindow % WINDOW_SIZE, v);
        remoteWindow := (remoteWindow + 1) % MAX_SEQUENCE;
        w := w + 1;
      }
      WiresDiffer(w, v);
    }

    method SetAckSequence(newWindowStart: nat, ghost v: nat)
      requires newWindowStart == Wire(v)
      requires AckHeader(outgoingAcks[..], rcv.window) && AckRep(outgoingAcks[..], rcv.window, rcv.store.Keys)
      modifies outgoingAcks
      ensures AckHeader(outgoingAcks[..], v) && AckRep(outgoingAcks[..], rcv.window, rcv.store.Keys)
    {
      Uint16RoundTrip(newWindowStart);
      outgoingAcks[1], outgoingAcks[2] := LowByte(newWindowStart), HighByte(newWindowStart);
      SameBits(old(outgoingAcks[..]), outgoingAcks[..]);
    }

    lemma {:induction false} SameBits(a: seq<byte>, b: seq<byte>)
      requires |a| == |b| == ACK_PACKET_SIZE && forall i :: 4 <= i < |a| ==> a[i] == b[i]
      ensures forall k: nat :: k < WINDOW_SIZE ==> (AckBit(a, k) <==> AckBit(b, k))
    {}

    /** data[4 + k/8] &^= 1 << (k % 8) */
    method ClearAck(k: nat, ghost v: nat)
      requires k < WINDOW_SIZE && AckHeader(outgoingAcks[..], v)
      modifies outgoingAcks
      ensures AckHeader(outgoingAcks[..], v)
      ensures outgoingAcks[..] == WithoutAckBit(old(outgoingAcks[..]), k)
    {
      var i := CHANNELED_HEADER_SIZE + k / 8;
      outgoingAcks[i] := AndNot(outgoingAcks[i] as nat, Pow2(k % 8)) as byte;
    }

    /** data[4 + k/8] |= 1 << (k % 8) */
    method MarkAck(k: nat, ghost v: nat, ghost n: nat)
      requires k == Slot(n) && v <= n < v + WINDOW_SIZE
      requires AckHeader(outgoingAcks[..], v) && exists got :: AckRep(outgoingAcks[..], v, got)
      modifies outgoingAcks
      ensures AckHeader(outgoingAcks[..], v)
      ensures forall got :: old(AckRep(outgoingAcks[..], v, got)) ==> AckRep(outgoingAcks[..], v, got + {n})
    {
      var i := CHANNELED_HEADER_SIZE + k / 8;
      SmallOr(outgoingAcks[i], k % 8);
      outgoingAcks[i] := Or(outgoingAcks[i] as nat, Pow2(k % 8)) as byte;
      assert outgoingAcks[..] == WithAckBit(old(outgoingAcks[..]), k);
      forall got | old(AckRep(outgoingAcks[..], v, got))
        ensures AckRep(outgoingAcks[..], v, got + {n})
      {
        MarkReceived(old(outgoingAcks[..]), v, got, n);
      }
    }

    /** The packet everyone waits for: hand it over with all that was held behind it. */
    method Deliver(p: ChannelPacket, ghost r: Receiver, ghost n: nat) returns (released: seq<ChannelPacket>)
      requires remoteSequence == Wire(n) && n !in r.store && forall m :: m in r.store ==> m < n + WINDOW_SIZE
      requires ordered ==> HeldRep(receivedPackets[..], n + 1, r.store)
      requires !ordered ==> EarlyRep(earlyReceived[..], n + 1, r.store.Keys)
      modifies this`remoteSequence, receivedPackets, earlyReceived
      ensures var store := r.store[n := p];
              var next := Mex(store.Keys, n + 1);
              && remoteSequence == Wire(next)
              && (ordered ==> HeldRep(receivedPackets[..], next + 1, store))
              && (ordered ==> released == Packets(Range(n, next), store))
              && (!ordered ==> EarlyRep(earlyReceived[..], next + 1, store.Keys) && released == Packets([n], store))
    {
      hide Wire, Slot, Mex;
      ghost var store, k := r.store[n := p], n + 1;
      ghost var next := Mex(store.Keys, n + 1);
      WireStep(n);
      released := [p];
      remoteSequence := (remoteSequence + 1) % MAX_SEQUENCE;
      if ordered {
        assert HeldRep(receivedPackets[..], k, store);
        var held := DrainHeld(store, k);
        released := released + held;
      } else {
        assert EarlyRep(earlyReceived[..], k, store.Keys);
        DrainEarly(store.Keys, k);
      }
    }

    method DrainHeld(ghost store: map<nat, ChannelPacket>, ghost first: nat) returns (released: seq<ChannelPacket>)
      requires remoteSequence == Wire(first) && HeldRep(receivedPackets[..], first, store)
      requires forall m :: m in store ==> m < first + WINDOW_SIZE
      modifies this`remoteSequence, receivedPackets
      ensures var next := Mex(store.Keys, first);
              && remoteSequence == Wire(next) && HeldRep(receivedPackets[..], next + 1, store)
              && released == Packets(Range(first, next), store)
    {
      hide Wire, Slot, Mex;
      ghost var k := first;
      released := [];
      while true
        invariant first <= k <= first + WINDOW_SIZE && remoteSequence == Wire(k)
        invariant HeldRep(receivedPackets[..], k, store)
        invariant forall m :: first <= m < k ==> m in store
        invariant released == Packets(Range(first, k), store)
        decreases first + WINDOW_SIZE - k
      {
        SlotOfWire(k);
        WireStep(k);
        var idx := remoteSequence % WINDOW_SIZE;
        ReleaseFirst(receivedPackets[..], k, store);
        var held := receivedPackets[idx];
        if held == None {
          assert receivedPackets[..] == receivedPackets[..][idx := None];
          break;
        }
        receivedPackets[idx] := None;
        released := released + [held.value];
        remoteSequence := (remoteSequence + 1) % MAX_SEQUENCE;
        k := k + 1;
      }
      MexUnique(store.Keys, first, k);
    }

    method DrainEarly(ghost got: set<nat>, ghost first: nat)
      requires remoteSequence == Wire(first) && EarlyRep(earlyReceived[..], first, got)
      requires forall m :: m in got ==> m < first + WINDOW_SIZE
      modifies this`remoteSequence, earlyReceived
      ensures var next := Mex(got, first);
              remoteSequence == Wire(next) && EarlyRep(earlyReceived[..], next + 1, got)
    {
      hide Wire, Slot, Mex;
      ghost var k := first;
      SlotOfWire(k);
      while earlyReceived[remoteSequence % WINDOW_SIZE]
        invariant first <= k <= first + WINDOW_SIZE && remoteSequence == Wire(k) && Wire(k) % WINDOW_SIZE == Slot(k)
        invariant EarlyRep(earlyReceived[..], k, got)
        invariant forall m :: first <= m < k ==> m in got
        decreases first + WINDOW_SIZE - k
      {
        WireStep(k);
        SlotOfWire(k + 1);
        PassEarly(earlyReceived[..], k, got);
        earlyReceived[remoteSequence % WINDOW_SIZE] := false;
        remoteSequence := (remoteSequence + 1) % MAX_SEQUENCE;
        k := k + 1;
      }
      PassEarly(earlyReceived[..], k, got);
      assert earlyReceived[..] == earlyReceived[..][Slot(k) := false];
      MexUnique(got, first, k);
    }
  }
}
