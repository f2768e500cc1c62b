/** The age bounds of the protocol are the best possible: in runs of the protocol, one number
    more makes a data copy or an acknowledgement be taken for another. */
module ReliableBounds {
  import opened Bits
  import opened Sequences
  import opened Packets
  import opened ReliableModel
  import opened ReliableProtocol
  import opened ReliableLiveness

  /** Everything queued has been sent, received and acknowledged, one packet after the other;
      the acknowledgement of the first packet alone is still under way. */
  ghost predicate InStep(c: Net, packets: seq<ChannelPacket>) {
    && c.enqueued == packets && c.snd.window == c.snd.next == c.rcv.next == |packets| && c.snd.outgoing == []
    && c.rcv.window == (if |packets| < WINDOW_SIZE then 0 else |packets| - WINDOW_SIZE)
    && (forall n :: n in c.rcv.store ==> n < |packets|)
    && (forall n: nat :: n < |packets| ==> n in c.data && n in c.rcv.store)
    && (packets != [] ==> Ack(0, {0}) in c.acks)
  }

  lemma {:induction false} InStepReached(packets: seq<ChannelPacket>, ordered: bool, id: byte) returns (c: Net)
    ensures Reachable(c, ordered, id) && Inv(c, ordered, id) && InStep(c, packets)
  {
    hide Reachable, Inv, Step;
    if packets == [] {
      c := INITIAL;
      InitialReachable(ordered, id);
      InitialInv(ordered, id);
    } else {
      var last := |packets| - 1;
      var before := InStepReached(packets[..last], ordered, id);
      c := OneMore(before, packets[..last], packets[last], ordered, id);
      assert packets == packets[..last] + [packets[last]];
    }
  }

  /** One more packet is queued, sent, received and acknowledged. */
  lemma {:induction false} OneMore(c: Net, packets: seq<ChannelPacket>, p: ChannelPacket, ordered: bool, id: byte)
    returns (g: Net)
    requires Reachable(c, ordered, id) && Inv(c, ordered, id) && InStep(c, packets)
    ensures Reachable(g, ordered, id) && Inv(g, ordered, id) && InStep(g, packets + [p])
  {
    hide Reachable, Inv, Step;
    var d := OneSent(c, packets, p, ordered, id);
    var e := OneReceived(d, packets, p, ordered, id);
    AllInStore(e);
    AckDrains(e, ordered, id);
    ReachableStep(e, ReceiverTicks, ordered, id);
    var f := Step(e, ReceiverTicks, ordered, id);
    ReachableStep(f, ReliableProtocol.AckArrives(AckOf(e.rcv)), ordered, id);
    g := Step(f, ReliableProtocol.AckArrives(AckOf(e.rcv)), ordered, id);
    AckStepsKeep(e, ordered, id);
    if packets == [] { assert AckOf(e.rcv) == Ack(0, {0}); }
  }

  /** Sending and reading an acknowledgement touches nothing else. */
  lemma {:induction false} AckStepsKeep(e: Net, ordered: bool, id: byte)
    requires SenderOk(e.snd) && e.rcv.ackDue
    ensures var f := Step(e, ReceiverTicks, ordered, id);
            && f.snd == e.snd && f.data == e.data && f.enqueued == e.enqueued && f.acks == e.acks + {AckOf(e.rcv)}
            && f.rcv.window == e.rcv.window && f.rcv.next == e.rcv.next && f.rcv.store == e.rcv.store
            && forall a: Ack :: Enabled(f, ReliableProtocol.AckArrives(a)) ==>
                 var g := Step(f, ReliableProtocol.AckArrives(a), ordered, id);
                 g.rcv == f.rcv && g.data == f.data && g.acks == f.acks && g.enqueued == f.enqueued
  {
    hide ReliableModel.AckArrives, AckSlots;
  }

  /** The packet is on the wire. */
  ghost predicate JustSent(c: Net, packets: seq<ChannelPacket>, p: ChannelPacket) {
    && c.enqueued == packets + [p] && c.snd.next == |packets| + 1 && c.snd.window == c.rcv.next == |packets|
    && c.snd.outgoing == []
    && c.rcv.window == (if |packets| < WINDOW_SIZE then 0 else |packets| - WINDOW_SIZE)
    && (forall n :: n in c.rcv.store ==> n < |packets|)
    && (forall n: nat :: n < |packets| ==> n in c.data && n in c.rcv.store)
    && |packets| in c.data && (packets != [] ==> Ack(0, {0}) in c.acks)
  }

  lemma {:induction false} OneSent(c: Net, packets: seq<ChannelPacket>, p: ChannelPacket, ordered: bool, id: byte)
    returns (e: Net)
    requires Reachable(c, ordered, id) && Inv(c, ordered, id) && InStep(c, packets)
    ensures Reachable(e, ordered, id) && Inv(e, ordered, id) && JustSent(e, packets, p)
    ensures |packets| in e.snd.pending
  {
    hide Reachable, Inv, Stamp, Step;
    ReachableStep(c, Enqueue(p), ordered, id);
    var d := Step(c, Enqueue(p), ordered, id);
    ReachableStep(d, SenderTicks(0, 0), ordered, id);
    e := Step(d, SenderTicks(0, 0), ordered, id);
    ReachableInv(e, ordered, id);
    TickedInStep(c, packets, p, ordered, id);
  }

  lemma {:induction false} TickedInStep(c: Net, packets: seq<ChannelPacket>, p: ChannelPacket, ordered: bool, id: byte)
    requires SenderOk(c.snd) && InStep(c, packets)
    ensures var d := Step(c, Enqueue(p), ordered, id); var e := Step(d, SenderTicks(0, 0), ordered, id);
            JustSent(e, packets, p) && |packets| in e.snd.pending
  {
    hide Stamp, SendTick, Fill;
    TickOne(c.snd, p, id);
  }

  /** A sender with an empty window numbers, holds and sends the one packet queued. */
  lemma {:induction false} TickOne(s: Sender, p: ChannelPacket, id: byte)
    requires SenderOk(s) && s.window == s.next && s.outgoing == []
    ensures var queued := s.(outgoing := s.outgoing + [p]); var f := Fill(queued, id);
            && f.window == s.window && f.next == s.next + 1 && f.outgoing == []
            && s.next in f.pending && s.next in SentNow(f, 0, 0)
    ensures var queued := s.(outgoing := s.outgoing + [p]); var t := SendTick(queued, id, 0, 0);
            t.window == s.window && t.next == s.next + 1 && t.outgoing == [] && s.next in t.pending
  {
    hide Stamp;
    var queued := s.(outgoing := s.outgoing + [p]);
    assert queued.outgoing == [p];
    assert Fill(queued, id).pending[s.next] == Fresh([p], s.next, s.next, id);
  }

  lemma {:induction false} OneReceived(d: Net, packets: seq<ChannelPacket>, p: ChannelPacket, ordered: bool, id: byte)
    returns (e: Net)
    requires Reachable(d, ordered, id) && Inv(d, ordered, id) && JustSent(d, packets, p)
    ensures Reachable(e, ordered, id) && Inv(e, ordered, id) && e.rcv.ackDue
    ensures e.enqueued == packets + [p] && e.snd == d.snd && e.data == d.data && e.acks == d.acks
    ensures var m := |packets|;
            && e.rcv.window == (if m + 1 < WINDOW_SIZE then 0 else m + 1 - WINDOW_SIZE)
            && e.rcv.next == m + 1 && e.rcv.store.Keys == d.rcv.store.Keys + {m}
  {
    hide Reachable, Inv;
    var m := |packets|;
    ReachableStep(d, DataArrives(m), ordered, id);
    CopyReadRight(d, ordered, id, m);
    e := Step(d, DataArrives(m), ordered, id);
    ReachableInv(e, ordered, id);
    InOrderStore(d.rcv, ordered, m, d.data[m]);
  }

  lemma {:induction false} InOrderStore(r: Receiver, ordered: bool, m: nat, p: ChannelPacket)
    requires r.next == m && (forall n :: n in r.store ==> n < m)
    ensures var q := Store(r, ordered, m, p);
            && q.window == SlideTo(r.window, m) && q.next == m + 1 && q.store == r.store[m := p] && q.ackDue
            && q.log == r.log + [m]
  {
    assert m + 1 !in r.store[m := p].Keys && m !in r.store;
    assert Range(m, m + 1) == [m];
  }

  lemma {:induction false} AllInStore(e: Net)
    requires e.snd.next == e.rcv.next && (forall n: nat :: n < e.rcv.next ==> n in e.rcv.store)
    ensures forall n: nat :: n < e.snd.next ==> n in e.rcv.store
  {}

  // ------------------------------------------------------------------- one number too old

  /** Half a cycle on, the wire number of packet 0 is read as 32768. */
  lemma {:induction false} ZeroReadAs(window: nat)
    requires HALF_MAX_SEQUENCE < window <= MAX_SEQUENCE
    ensures Wire(0) == 0 && Reconstruct(window, Wire(0)) == MAX_SEQUENCE
  {
    ReconstructWire(window, 0);
  }

  /** The first packet of a run in step, sent once more. */
  lemma {:induction false} FirstPacketAgain(c: Net, packets: seq<ChannelPacket>, ordered: bool, id: byte)
    requires Inv(c, ordered, id) && InStep(c, packets) && |packets| > HALF_MAX_SEQUENCE + WINDOW_SIZE
    requires |packets| <= MAX_SEQUENCE && MAX_SEQUENCE - c.rcv.window < 2 * WINDOW_SIZE
    ensures 0 in c.data && c.data[0] == Stamp(packets[0], 0, id)
    ensures PacketArrives(c.rcv, ordered, c.data[0]) == Store(c.rcv, ordered, MAX_SEQUENCE, c.data[0])
    ensures MAX_SEQUENCE !in c.rcv.store
  {
    hide Stamp, Wire, Reconstruct, Store, SenderOk, ReceiverOk, AckChain, Cleared, Windows;
    assert Carries(c.enqueued, 0, c.data[0], id);
    StampFields(packets[0], 0, id);
    ZeroReadAs(c.rcv.window);
  }

  lemma {:induction false} StoreKeeps(r: Receiver, ordered: bool, n: nat, p: ChannelPacket)
    requires n !in r.store
    ensures n in Store(r, ordered, n, p).store && Store(r, ordered, n, p).store[n] == p
    ensures n == r.next && n + 1 !in r.store ==> Store(r, ordered, n, p).log == r.log + [n]
  {
    if n == r.next && n + 1 !in r.store {
      assert Range(n, n + 1) == [n] && n + 1 !in r.store[n := p].Keys;
    }
  }

  /** The bound on data is the best possible: there is a run in which a copy of packet 0 that
      is one number older is kept for packet 32768, which was never even queued. */
  lemma {:induction false} DataBoundTight(packets: seq<ChannelPacket>, ordered: bool, id: byte) returns (c: Net)
    requires |packets| == MAX_DATA_AGE + 1 + WINDOW_SIZE
    ensures Reachable(c, ordered, id) && c.enqueued == packets && |packets| < MAX_SEQUENCE
    ensures 0 in c.data && c.rcv.window - 0 == MAX_DATA_AGE + 1
    ensures var q := PacketArrives(c.rcv, ordered, c.data[0]);
            MAX_SEQUENCE in q.store && q.store[MAX_SEQUENCE] == c.data[0]
  {
    hide Reachable, Inv, PacketArrives, Store;
    c := InStepReached(packets, ordered, id);
    FirstPacketAgain(c, packets, ordered, id);
    StoreKeeps(c.rcv, ordered, MAX_SEQUENCE, c.data[0]);
  }

  /** After a whole cycle such a copy is delivered on the spot: there is a run in which the
      first packet is handed over a second time, as packet 32768, which was never queued. */
  lemma {:induction false} StaleCopyBreaksOrder(packets: seq<ChannelPacket>, ordered: bool, id: byte) returns (c: Net)
    requires |packets| == MAX_SEQUENCE
    ensures Reachable(c, ordered, id) && c.enqueued == packets && 0 in c.data && 0 in c.rcv.log
    ensures var q := PacketArrives(c.rcv, ordered, c.data[0]);
            && q.log == c.rcv.log + [MAX_SEQUENCE]
            && MAX_SEQUENCE in q.store && q.store[MAX_SEQUENCE] == Stamp(packets[0], 0, id)
  {
    hide Reachable, Inv, PacketArrives, Store, Stamp;
    c := InStepReached(packets, ordered, id);
    FirstPacketAgain(c, packets, ordered, id);
    StoreKeeps(c.rcv, ordered, MAX_SEQUENCE, c.data[0]);
    FirstDelivered(c, ordered, id);
  }

  lemma {:induction false} FirstDelivered(c: Net, ordered: bool, id: byte)
    requires Inv(c, ordered, id) && c.rcv.next > 0
    ensures 0 in c.rcv.log
  {
    hide SenderOk, Contents, AckChain, Cleared, Windows;
    if ordered { assert c.rcv.log[0] == 0; }
  }

  /** The bound on acknowledgements is the best possible: there is a run in which one that is
      exactly a cycle old makes the sender forget a packet the receiver does not have. */
  lemma {:induction false} AckBoundTight(packets: seq<ChannelPacket>, p: ChannelPacket, ordered: bool, id: byte)
    returns (c: Net, a: Ack)
    requires |packets| == MAX_SEQUENCE
    ensures Reachable(c, ordered, id) && a in c.acks && c.snd.window - a.start == MAX_SEQUENCE
    ensures SenderOk(c.snd) && MAX_SEQUENCE in c.snd.pending && MAX_SEQUENCE !in c.rcv.store
    ensures MAX_SEQUENCE !in ReliableModel.AckArrives(c.snd, Wire(a.start), AckSlots(a)).pending
  {
    hide Reachable, Inv, AckSlots, ReliableModel.AckArrives;
    var before := InStepReached(packets, ordered, id);
    c := OneSent(before, packets, p, ordered, id);
    a := Ack(0, {0});
    SenderIsOk(c, ordered, id);
    OldAckForgets(c.snd);
  }

  lemma {:induction false} OldAckForgets(s: Sender)
    requires SenderOk(s) && s.window == MAX_SEQUENCE && s.next == MAX_SEQUENCE + 1
    ensures MAX_SEQUENCE !in ReliableModel.AckArrives(s, Wire(0), AckSlots(Ack(0, {0}))).pending
  {
    assert 0 in {0} && Slot(0) == 0 && Slot(MAX_SEQUENCE) == 0 && Wire(0) == 0 && Wire(MAX_SEQUENCE) == 0;
    assert Slot(0) in AckSlots(Ack(0, {0}));
  }
}
