/** Sequenced channels: late packets are dropped instead of waited for. The reliable variant
    repeats its newest packet, and only that one, until it is acknowledged. */
module Sequenced {
  import opened Bits
  import opened Sequences
  import opened Packets
  import opened Options

  /** What sending puts on a sequenced channel: never a fragment. */
  type SinglePacket = p: ChannelPacket | !p.IsFragmented() && p.Property() == PROP_CHANNELED
    witness Packet([1, 0, 0, 0])

  // --------------------------------------------------------------------- the wire level

  /** The sending side of a channel. */
  datatype Out = Out(localSequence: nat, last: Option<SinglePacket>, lastSendTime: int, outgoing: seq<SinglePacket>)

  /** The receiving side. */
  datatype In = In(remoteSeq: nat, mustSendAck: bool)

  lemma {:induction false} StampSingle(p: SinglePacket, n: nat, id: byte)
    ensures var q := Stamp(p, n, id); !q.IsFragmented() && q.Property() == PROP_CHANNELED && q.Sequence() == Wire(n)
  {
    hide Stamp, Wire;
    StampFields(p, n, id);
  }

  function Number(p: SinglePacket, n: nat, id: byte): SinglePacket {
    StampSingle(p, n, id);
    Stamp(p, n, id)
  }

  lemma {:induction false} NumberSequence(p: SinglePacket, n: nat, id: byte)
    ensures Number(p, n, id).Sequence() == Wire(n)
  {
    hide Stamp, Wire;
    StampSingle(p, n, id);
  }

  /** All of a queue, numbered after n. */
  function AllNumbered(queue: seq<SinglePacket>, n: nat, id: byte): (r: seq<SinglePacket>)
    ensures |r| == |queue|
  {
    seq(|queue|, i requires 0 <= i < |queue| => Number(queue[i], n + 1 + i, id))
  }

  lemma {:induction false} AllNumberedAt(queue: seq<SinglePacket>, n: nat, k: nat, id: byte)
    requires k < |queue|
    ensures AllNumbered(queue, n, id)[k] == Number(queue[k], n + 1 + k, id)
  {
    hide Number;
  }

  function OutTick(o: Out, id: byte, reliable: bool, now: int, later: int, delay: int): (Out, seq<SinglePacket>) {
    if o.outgoing != [] then
      var sent := AllNumbered(o.outgoing, o.localSequence, id);
      (Out(Wire(o.localSequence + |sent|), if reliable then Some(sent[|sent| - 1]) else o.last,
           if reliable then later else o.lastSendTime, []), sent)
    else if reliable && o.last.Some? && now - o.lastSendTime >= delay then
      (o.(lastSendTime := now), [o.last.value])
    else (o, [])
  }

  function OutAck(o: Out, reliable: bool, wire: nat): Out {
    if reliable && o.last.Some? && wire == o.last.value.Sequence() then o.(last := None) else o
  }

  predicate Newer(wire: nat, remoteSeq: nat) {
    wire < MAX_SEQUENCE && RelativeSequence(wire, remoteSeq) > 0
  }

  function InData(i: In, reliable: bool, wire: nat): In {
    In(if Newer(wire, i.remoteSeq) then wire else i.remoteSeq, i.mustSendAck || reliable)
  }

  /** The acknowledgement of a channel. */
  function AckPacket(id: byte, wire: nat): (p: ChannelPacket)
    requires wire < 65536
    ensures |p.data| == CHANNELED_HEADER_SIZE && p.Sequence() == wire
  {
    NewPacket(PROP_ACK, []).SetChannelID(id).SetSequence(wire)
  }

  /** It is read by the other side as an acknowledgement of this number on this channel. */
  lemma {:induction false} AckPacketReads(id: byte, wire: nat)
    requires wire < 65536
    ensures var p := AckPacket(id, wire);
            p.Verify() && p.Property() == PROP_ACK && !p.IsFragmented() && p.ChannelID() == id as nat
  {
    var p := AckPacket(id, wire);
    assert p.data[3..][0] == p.data[3];
  }

  lemma {:induction false} AckPacketUpdated(id: byte, was: nat, wire: nat)
    requires was < 65536 && wire < 65536
    ensures AckPacket(id, was).SetSequence(wire) == AckPacket(id, wire)
  {
    var p := NewPacket(PROP_ACK, []).SetChannelID(id);
    assert p.SetSequence(was).SetSequence(wire).data == p.SetSequence(wire).data;
  }

  class SequencedChannel {
    const id: byte
    const reliable: bool
    var outgoing: seq<SinglePacket>
    var localSequence: nat
    var remoteSeq: nat
    var lastPacket: Option<SinglePacket>
    var lastSendTime: int
    var ackPacket: ChannelPacket
    var mustSendAck: bool

    function Sending(): Out
      reads this
    {
      Out(localSequence, lastPacket, lastSendTime, outgoing)
    }

    function Receiving(): In
      reads this
    {
      In(remoteSeq, mustSendAck)
    }

    ghost predicate Valid()
      reads this
    {
      && localSequence < MAX_SEQUENCE && remoteSeq < MAX_SEQUENCE && (!reliable ==> lastPacket == None)
      && ackPacket == AckPacket(id, ackPacket.Sequence())
    }

    constructor (id: byte, reliable: bool)
      ensures Valid() && this.id == id && this.reliable == reliable
      ensures Sending() == Out(0, None, 0, []) && Receiving() == In(0, false)
    {
      this.id, this.reliable := id, reliable;
      outgoing, localSequence, remoteSeq, lastPacket, lastSendTime, mustSendAck := [], 0, 0, None, 0, false;
      ackPacket := AckPacket(id, 0);
    }

    method Enqueue(p: SinglePacket)
      requires Valid()
      modifies this`outgoing
      ensures Valid() && Sending() == old(Sending()).(outgoing := old(outgoing) + [p])
    {
      outgoing := outgoing + [p];
    }

    /** `now` and `later` are the two readings of the clock. */
    method SendNextPackets(now: int, later: int, delay: int)
      returns (more: bool, sent: seq<SinglePacket>, ack: Option<ChannelPacket>)
      requires Valid() && delay >= 0
      modifies this
      ensures Valid() && (Sending(), sent) == OutTick(old(Sending()), id, reliable, now, later, delay)
      ensures ack == if reliable && old(mustSendAck) then Some(AckPacket(id, remoteSeq)) else None
      ensures Receiving() == In(old(remoteSeq), old(mustSendAck) && !reliable)
      ensures more <==> lastPacket.Some?
    {
      hide Stamp, Wire, Number, AckPacket;
      sent := [];
      if reliable && outgoing == [] {
        if lastPacket.Some? && now - lastSendTime >= delay {
          lastSendTime := now;
          sent := [lastPacket.value];
        }
      } else {
        sent := Drain(later);
      }
      ack := None;
      if reliable && mustSendAck {
        mustSendAck := false;
        AckPacketUpdated(id, ackPacket.Sequence(), remoteSeq);
        ackPacket := ackPacket.SetSequence(remoteSeq);
        ack := Some(ackPacket);
      }
      more := lastPacket.Some?;
    }

    /** Everything queued is numbered and sent; a reliable channel keeps the last packet. */
    method Drain(later: int) returns (sent: seq<SinglePacket>)
      requires Valid() && (reliable ==> outgoing != [])
      modifies this`outgoing, this`localSequence, this`lastPacket, this`lastSendTime
      ensures Valid() && sent == AllNumbered(old(outgoing), old(localSequence), id)
      ensures localSequence == if old(outgoing) == [] then old(localSequence) else Wire(old(localSequence) + |sent|)
      ensures lastPacket == if reliable then Some(sent[|sent| - 1]) else old(lastPacket)
      ensures lastSendTime == if reliable then later else old(lastSendTime)
      ensures outgoing == []
    {
      hide Wire, Number, AllNumbered;
      sent := [];
      ghost var all := AllNumbered(outgoing, localSequence, id);
      while outgoing != []
        invariant |sent| <= |old(outgoing)| && outgoing == old(outgoing)[|sent|..]
        invariant sent == all[..|sent|] && |all| == |old(outgoing)|
        invariant localSequence == if sent == [] then old(localSequence) else Wire(old(localSequence) + |sent|)
        invariant localSequence < MAX_SEQUENCE
        invariant lastPacket == if reliable && outgoing == [] then Some(all[|all| - 1]) else old(lastPacket)
        invariant lastSendTime == if reliable && outgoing == [] then later else old(lastSendTime)
      {
        ghost var k := |sent|;
        ghost var was := old(localSequence);
        WireSum(was, k);
        AllNumberedAt(old(outgoing), was, k, id);
        var p := outgoing[0];
        outgoing := outgoing[1..];
        localSequence := (localSequence + 1) % MAX_SEQUENCE;
        SameStamp(p, localSequence, was + 1 + k, id);
        p := Number(p, localSequence, id);
        assert p == all[k];
        sent := sent + [p];
        if reliable && outgoing == [] {
          lastSendTime := later;
          lastPacket := Some(p);
        }
      }
    }

    /** Any packet: an acknowledgement, or data that is delivered if it is newer. */
    method ProcessPacket(p: ChannelPacket) returns (delivered: bool, wake: bool)
      requires Valid()
      modifies this`lastPacket, this`remoteSeq, this`mustSendAck
      ensures Valid()
      ensures Sending() == if !p.IsFragmented() && p.Property() == PROP_ACK
                           then OutAck(old(Sending()), reliable, p.Sequence()) else old(Sending())
      ensures Receiving() == if !p.IsFragmented() && p.Property() != PROP_ACK
                             then InData(old(Receiving()), reliable, p.Sequence()) else old(Receiving())
      ensures delivered <==> !p.IsFragmented() && p.Property() != PROP_ACK && Newer(p.Sequence(), old(remoteSeq))
      ensures wake <==> !p.IsFragmented() && p.Property() != PROP_ACK && reliable
    {
      hide RelativeSequence;
      if p.IsFragmented() {
        return false, false;
      }
      if p.Property() == PROP_ACK {
        if reliable && lastPacket.Some? && p.Sequence() == lastPacket.value.Sequence() {
          lastPacket := None;
        }
        return false, false;
      }
      var relative := RelativeSequence(p.Sequence(), remoteSeq);
      delivered := false;
      if p.Sequence() < MAX_SEQUENCE && relative > 0 {
        remoteSeq := p.Sequence();
        delivered := true;
      }
      if reliable {
        mustSendAck := true;
      }
      wake := reliable;
    }
  }

  lemma {:induction false} WireSum(n: nat, k: nat)
    ensures (Wire(n + k) + 1) % MAX_SEQUENCE == Wire(n + 1 + k) && Wire(Wire(n + 1 + k)) == Wire(n + 1 + k)
    ensures n < MAX_SEQUENCE ==> Wire(n) == n
  {}

  /** Only the wire form of a number shows in a packet. */
  lemma {:induction false} SameStamp(p: SinglePacket, a: nat, b: nat, id: byte)
    requires Wire(a) == Wire(b)
    ensures Number(p, a, id) == Number(p, b, id)
  {
    hide Wire;
  }

  // ----------------------------------------------------------------- reading numbers

  /** Exactly which packets are taken for newer: those less than half a cycle ahead. */
  lemma {:induction false} NewerExactly(n: nat, got: nat)
    ensures Newer(Wire(n), Wire(got)) <==> 1 <= (n - got) % MAX_SEQUENCE < HALF_MAX_SEQUENCE
    ensures n <= got <= n + HALF_MAX_SEQUENCE ==> !Newer(Wire(n), Wire(got))
  {}

  /** One number further back an old packet passes for a new one. */
  lemma {:induction false} StalePasses(n: nat)
    ensures Newer(Wire(n), Wire(n + HALF_MAX_SEQUENCE + 1))
  {}

  // --------------------------------------------------------------------- the protocol

  /** One sender, one receiver, everything ever sent. `enqueued` are the packets given to the
      channel, number n being the n-th of them; `log` lists the numbers delivered. */
  datatype Net = Net(out: Out, inc: In, enqueued: seq<SinglePacket>, sent: nat, got: nat, log: seq<nat>,
                     data: map<nat, SinglePacket>, acks: set<nat>)

  datatype Event =
    | Enqueue(p: SinglePacket)
    | SenderTicks(now: int, later: int, delay: int)
    | DataArrives(n: nat)
    | ReceiverTicks
    | AckArrives(a: nat)

  const INITIAL := Net(Out(0, None, 0, []), In(0, false), [], 0, 0, [], map[], {})

  /** Only what was sent arrives. */
  predicate Genuine(c: Net, e: Event) {
    match e
    case DataArrives(n) => n in c.data
    case AckArrives(a) => a in c.acks
    case _ => true
  }

  /** Copies may be lost, repeated and reordered; they are at most half a cycle old, and
      acknowledgements less than a cycle. */
  predicate Enabled(c: Net, e: Event) {
    && Genuine(c, e)
    && (e.DataArrives? ==> c.got - e.n <= HALF_MAX_SEQUENCE)
    && (e.AckArrives? ==> c.sent - e.a < MAX_SEQUENCE)
  }

  /** The number of the first packet that a tick sends: the next one, or with nothing queued the
      newest again. */
  function FirstSent(c: Net): nat { if c.out.outgoing == [] then c.sent else c.sent + 1 }

  /** The packets as the network takes them, numbered from `first` on. */
  function OnWire(ps: seq<SinglePacket>, first: nat): map<nat, SinglePacket> {
    map n: nat | first <= n < first + |ps| :: Numbered(ps, first, n)
  }

  function Numbered(ps: seq<SinglePacket>, first: nat, n: nat): SinglePacket
    requires first <= n < first + |ps|
  {
    ps[n - first]
  }

  function Step(c: Net, e: Event, reliable: bool, id: byte): Net
    requires Genuine(c, e)
  {
    match e
    case Enqueue(p) =>
      c.(out := c.out.(outgoing := c.out.outgoing + [p]), enqueued := c.enqueued + [p])
    case SenderTicks(now, later, delay) =>
      var (out, ps) := OutTick(c.out, id, reliable, now, later, delay);
      c.(out := out, sent := c.sent + |c.out.outgoing|, data := c.data + OnWire(ps, FirstSent(c)))
    case DataArrives(n) =>
      var newer := Newer(c.data[n].Sequence(), c.inc.remoteSeq);
      c.(inc := InData(c.inc, reliable, c.data[n].Sequence()),
         got := if newer then n else c.got, log := if newer then c.log + [n] else c.log)
    case ReceiverTicks =>
      if reliable && c.inc.mustSendAck then c.(inc := c.inc.(mustSendAck := false), acks := c.acks + {c.got}) else c
    case AckArrives(a) =>
      c.(out := OutAck(c.out, reliable, Wire(a)))
  }

  ghost predicate Run(cs: seq<Net>, es: seq<Event>, reliable: bool, id: byte) {
    && |cs| == |es| + 1 && cs[0] == INITIAL
    && forall i :: 0 <= i < |es| ==> Enabled(cs[i], es[i]) && cs[i + 1] == Step(cs[i], es[i], reliable, id)
  }

  ghost predicate Increasing(log: seq<nat>) {
    forall i, j :: 0 <= i < j < |log| ==> log[i] < log[j]
  }

  ghost predicate SenderInv(c: Net, reliable: bool, id: byte) {
    && c.sent <= |c.enqueued| && c.out.outgoing == c.enqueued[c.sent..] && c.out.localSequence == Wire(c.sent)
    && (c.out.last.Some? ==> reliable && c.sent >= 1 && c.out.last.value == Number(c.enqueued[c.sent - 1], c.sent, id))
    && (forall n :: n in c.data ==> 1 <= n <= c.sent && c.data[n] == Number(c.enqueued[n - 1], n, id))
    && (forall n: nat :: 1 <= n <= c.sent ==> n in c.data)
  }

  ghost predicate ReceiverInv(c: Net) {
    && c.inc.remoteSeq == Wire(c.got) && c.got <= c.sent
    && c.got == (if c.log == [] then 0 else c.log[|c.log| - 1])
    && Increasing(c.log)
    && (forall n :: n in c.log ==> 1 <= n && n in c.data)
    && forall a :: a in c.acks ==> a <= c.got
  }

  /** The newest packet is forgotten only after it has been delivered. */
  ghost predicate NewestKept(c: Net, reliable: bool) {
    reliable && c.out.last.None? && c.sent > 0 ==> c.sent in c.log
  }

  ghost predicate Inv(c: Net, reliable: bool, id: byte) {
    SenderInv(c, reliable, id) && ReceiverInv(c) && NewestKept(c, reliable)
  }

  lemma {:induction false} EnqueueKeepsInv(c: Net, p: SinglePacket, reliable: bool, id: byte)
    requires Inv(c, reliable, id)
    ensures Inv(Step(c, Enqueue(p), reliable, id), reliable, id)
  {
    hide Number, Wire;
    var d := Step(c, Enqueue(p), reliable, id);
    assert forall n :: 0 <= n < |c.enqueued| ==> d.enqueued[n] == c.enqueued[n];
  }

  lemma {:induction false} TickKeepsInv(c: Net, reliable: bool, id: byte, now: int, later: int, delay: int)
    requires Inv(c, reliable, id)
    ensures Inv(Step(c, SenderTicks(now, later, delay), reliable, id), reliable, id)
  {
    hide Number, Wire, AllNumbered, Increasing;
    TickSender(c, reliable, id, now, later, delay);
    TickData(c, reliable, id, now, later, delay);
  }

  lemma {:induction false} TickSender(c: Net, reliable: bool, id: byte, now: int, later: int, delay: int)
    requires SenderInv(c, reliable, id)
    ensures var d := Step(c, SenderTicks(now, later, delay), reliable, id);
            && SenderInv(d, reliable, id)
            && (c.out.last.Some? && reliable ==> d.out.last.Some?)
            && (d.sent > c.sent && reliable ==> d.out.last.Some?)
  {
    hide Number, Wire, OutTick, Step;
    TickShape(c, reliable, id, now, later, delay);
    TickData(c, reliable, id, now, later, delay);
    TickOut(c.out, c.enqueued, c.sent, reliable, id, now, later, delay);
  }

  /** The queue goes out, and its last packet is the newest from then on. */
  lemma {:induction false} TickOut(o: Out, enqueued: seq<SinglePacket>, sent: nat, reliable: bool, id: byte,
                                   now: int, later: int, delay: int)
    requires sent <= |enqueued| && o.outgoing == enqueued[sent..] && o.localSequence == Wire(sent)
    ensures var r := OutTick(o, id, reliable, now, later, delay).0;
            && r.outgoing == [] && r.localSequence == Wire(|enqueued|)
            && (o.outgoing == [] ==> r.last == o.last)
            && (o.outgoing != [] ==>
                  r.last == if reliable then Some(Number(enqueued[|enqueued| - 1], |enqueued|, id)) else o.last)
  {
    hide Number, Wire, AllNumbered;
    if o.outgoing != [] {
      LocalSum(sent, |o.outgoing|);
      LastOfAllNumbered(o.outgoing, o.localSequence, sent, id);
    }
  }

  lemma {:induction false} LastOfAllNumbered(queue: seq<SinglePacket>, local: nat, sent: nat, id: byte)
    requires queue != [] && local == Wire(sent)
    ensures |AllNumbered(queue, local, id)| == |queue|
    ensures AllNumbered(queue, local, id)[|queue| - 1] == Number(queue[|queue| - 1], sent + |queue|, id)
  {
    hide Number, Wire;
    LocalSum(sent, |queue|);
    SameStamp(queue[|queue| - 1], local + |queue|, sent + |queue|, id);
  }

  lemma {:induction false} TickData(c: Net, reliable: bool, id: byte, now: int, later: int, delay: int)
    requires SenderInv(c, reliable, id)
    ensures var d := Step(c, SenderTicks(now, later, delay), reliable, id);
            forall n :: n in d.data ==> 1 <= n <= d.sent && d.data[n] == Number(c.enqueued[n - 1], n, id)
    ensures forall n :: n in c.data ==> n in Step(c, SenderTicks(now, later, delay), reliable, id).data
    ensures var d := Step(c, SenderTicks(now, later, delay), reliable, id);
            forall n: nat :: 1 <= n <= d.sent ==> n in d.data
  {
    hide Step, Number, SenderInv;
    SentInside(c, reliable, id, now, later, delay);
    var d := Step(c, SenderTicks(now, later, delay), reliable, id);
    forall n: nat
      ensures n in d.data ==> 1 <= n <= d.sent && d.data[n] == Number(c.enqueued[n - 1], n, id)
      ensures 1 <= n <= d.sent ==> n in d.data
      ensures n in c.data ==> n in d.data
    {
      TickHolds(c, reliable, id, now, later, delay, n);
    }
  }

  lemma {:induction false} SentInside(c: Net, reliable: bool, id: byte, now: int, later: int, delay: int)
    requires SenderInv(c, reliable, id)
    ensures Step(c, SenderTicks(now, later, delay), reliable, id).sent <= |c.enqueued|
  {
    hide OutTick;
  }

  /** What a tick leaves under number n. */
  ghost predicate TickedRight(c: Net, d: Net, id: byte, n: nat) {
    && (n in d.data ==> 1 <= n <= d.sent && n <= |c.enqueued| && d.data[n] == Number(c.enqueued[n - 1], n, id))
    && (1 <= n <= d.sent ==> n in d.data)
    && (n in c.data ==> n in d.data)
  }

  lemma {:induction false} TickHolds(c: Net, reliable: bool, id: byte, now: int, later: int, delay: int, n: nat)
    requires SenderInv(c, reliable, id)
    ensures TickedRight(c, Step(c, SenderTicks(now, later, delay), reliable, id), id, n)
  {
    hide Number, Wire, OutTick, OnWire, Step;
    TickSends(c, reliable, id, now, later, delay);
    TickShape(c, reliable, id, now, later, delay);
    WireHolds(c.data, OutTick(c.out, id, reliable, now, later, delay).1, FirstSent(c), n);
  }

  lemma {:induction false} TickShape(c: Net, reliable: bool, id: byte, now: int, later: int, delay: int)
    ensures var d := Step(c, SenderTicks(now, later, delay), reliable, id);
            var (out, ps) := OutTick(c.out, id, reliable, now, later, delay);
            && d.out == out && d.sent == c.sent + |c.out.outgoing| && d.enqueued == c.enqueued
            && d.data == c.data + OnWire(ps, FirstSent(c))
  {
    hide OutTick, OnWire;
  }

  lemma {:induction false} WireHolds(data: map<nat, SinglePacket>, ps: seq<SinglePacket>, first: nat, n: nat)
    ensures var after := data + OnWire(ps, first);
            && (n in after <==> n in data || first <= n < first + |ps|)
            && (n in after ==> after[n] == if first <= n < first + |ps| then ps[n - first] else data[n])
  {}

  /** Everything queued is sent, each packet under its own number; with nothing queued it is the
      newest packet or nothing. */
  lemma {:induction false} TickSends(c: Net, reliable: bool, id: byte, now: int, later: int, delay: int)
    requires SenderInv(c, reliable, id)
    ensures var ps := OutTick(c.out, id, reliable, now, later, delay).1;
            && (c.out.outgoing != [] ==> |ps| == |c.out.outgoing|)
            && (c.out.outgoing == [] ==> |ps| <= 1 && (ps != [] ==> c.sent >= 1))
            && FirstSent(c) + |ps| <= |c.enqueued| + 1
            && forall i :: 0 <= i < |ps| ==> ps[i] == Number(c.enqueued[FirstSent(c) - 1 + i], FirstSent(c) + i, id)
  {
    hide Number, Wire, AllNumbered;
    var ps := OutTick(c.out, id, reliable, now, later, delay).1;
    if c.out.outgoing != [] {
      forall i | 0 <= i < |ps|
        ensures ps[i] == Number(c.enqueued[c.sent + i], c.sent + 1 + i, id)
      {
        AllNumberedAt(c.out.outgoing, c.out.localSequence, i, id);
        LocalSum(c.sent, 1 + i);
        SameStamp(c.enqueued[c.sent + i], c.out.localSequence + 1 + i, c.sent + 1 + i, id);
      }
    }
  }

  lemma {:induction false} LocalSum(n: nat, k: nat)
    ensures Wire(Wire(n) + k) == Wire(n + k)
  {}

  lemma {:induction false} DataKeepsInv(c: Net, reliable: bool, id: byte, n: nat)
    requires Inv(c, reliable, id) && Enabled(c, DataArrives(n))
    ensures Inv(Step(c, DataArrives(n), reliable, id), reliable, id)
  {
    hide SenderInv, ReceiverInv, Newer;
    DataKeepsOrder(c, reliable, id, n);
  }

  lemma {:induction false} DataKeepsOrder(c: Net, reliable: bool, id: byte, n: nat)
    requires SenderInv(c, reliable, id) && ReceiverInv(c) && Enabled(c, DataArrives(n))
    ensures var d := Step(c, DataArrives(n), reliable, id); SenderInv(d, reliable, id) && ReceiverInv(d)
  {
    hide Number, Wire, Newer, Increasing, Step;
    DataOutcome(c, reliable, id, n);
    GrowLog(c.log, n);
  }

  /** A copy is delivered if and only if it reads as newer, and then it is. */
  lemma {:induction false} DataOutcome(c: Net, reliable: bool, id: byte, n: nat)
    requires SenderInv(c, reliable, id) && ReceiverInv(c) && Enabled(c, DataArrives(n))
    ensures var d := Step(c, DataArrives(n), reliable, id);
            && c == d.(inc := c.inc, got := c.got, log := c.log)
            && (Newer(Wire(n), Wire(c.got)) ==>
                  c.got < n && d.got == n && d.log == c.log + [n] && d.inc.remoteSeq == Wire(n))
            && (!Newer(Wire(n), Wire(c.got)) ==> d.got == c.got && d.log == c.log && d.inc.remoteSeq == c.inc.remoteSeq)
  {
    hide Number, Wire, Newer, Increasing;
    NumberSequence(c.enqueued[n - 1], n, id);
    NewerExactly(n, c.got);
  }

  lemma {:induction false} GrowLog(log: seq<nat>, n: nat)
    ensures Increasing(log) && (log != [] ==> log[|log| - 1] < n) ==> Increasing(log + [n])
  {}

  lemma {:induction false} AckKeepsInv(c: Net, reliable: bool, id: byte, a: nat)
    requires Inv(c, reliable, id) && Enabled(c, AckArrives(a))
    ensures Inv(Step(c, AckArrives(a), reliable, id), reliable, id)
  {
    hide Number, Wire;
    if c.out.last.Some? {
      NumberSequence(c.enqueued[c.sent - 1], c.sent, id);
      WireInjective(a, c.sent);
    }
  }

  lemma {:induction false} WireInjective(a: nat, b: nat)
    requires a <= b < a + MAX_SEQUENCE
    ensures Wire(a) == Wire(b) <==> a == b
  {}

  lemma {:induction false} StepKeepsInv(c: Net, e: Event, reliable: bool, id: byte)
    requires Inv(c, reliable, id) && Enabled(c, e)
    ensures Inv(Step(c, e, reliable, id), reliable, id)
  {
    hide Number, Wire, Newer;
    match e
    case Enqueue(p) => EnqueueKeepsInv(c, p, reliable, id);
    case SenderTicks(now, later, delay) => TickKeepsInv(c, reliable, id, now, later, delay);
    case DataArrives(n) => DataKeepsInv(c, reliable, id, n);
    case ReceiverTicks =>
    case AckArrives(a) => AckKeepsInv(c, reliable, id, a);
  }

  lemma {:induction false} RunKeepsInv(cs: seq<Net>, es: seq<Event>, reliable: bool, id: byte, i: nat)
    requires Run(cs, es, reliable, id) && i < |cs|
    ensures Inv(cs[i], reliable, id)
  {
    hide Step, Enabled;
    if i == 0 {
    } else {
      RunKeepsInv(cs, es, reliable, id, i - 1);
      StepKeepsInv(cs[i - 1], es[i - 1], reliable, id);
    }
  }

  // ----------------------------------------------------------------------- theorems

  /** In every run what is delivered is a strictly increasing selection of what was sent,
      each packet as it was given to the channel. */
  lemma {:induction false} SequencedDelivery(cs: seq<Net>, es: seq<Event>, reliable: bool, id: byte, i: nat)
    requires Run(cs, es, reliable, id) && i < |cs|
    ensures Increasing(cs[i].log)
    ensures forall n :: n in cs[i].log ==>
              1 <= n <= |cs[i].enqueued| && n in cs[i].data && cs[i].data[n] == Number(cs[i].enqueued[n - 1], n, id)
  {
    hide Number, Wire;
    RunKeepsInv(cs, es, reliable, id, i);
  }

  /** A reliable channel holds its newest packet until the receiver has delivered it. */
  lemma {:induction false} NewestUntilDelivered(cs: seq<Net>, es: seq<Event>, id: byte, i: nat)
    requires Run(cs, es, true, id) && i < |cs|
    ensures var c := cs[i];
            && c.sent <= |c.enqueued|
            && (c.sent > 0 ==> if c.out.last.Some? then c.out.last.value == Number(c.enqueued[c.sent - 1], c.sent, id)
                               else c.sent in c.log)
  {
    hide Number, Wire;
    RunKeepsInv(cs, es, true, id, i);
  }

  // --------------------------------------------------------------------- lossless rounds

  /** The sender and the receiver are in order; whether the sender still holds what it should is
      left open. */
  ghost predicate Sound(c: Net, id: byte) {
    SenderInv(c, true, id) && ReceiverInv(c)
  }

  /** Nothing new to send, and the newest packet unacknowledged. */
  predicate Waiting(c: Net) {
    c.out.last.Some? && c.out.outgoing == []
  }

  /** How far the receiver is behind the newest packet. */
  function Behind(c: Net): int { c.sent - c.got }

  /** The receiver has the newest packet, or is behind it by less than half a cycle and any
      number of whole ones. */
  predicate GetsThrough(c: Net) {
    Behind(c) == 0 || (Behind(c) > 0 && 1 <= Behind(c) % MAX_SEQUENCE < HALF_MAX_SEQUENCE)
  }

  /** The receiver is behind by whole cycles, so that its acknowledgement is the one that the
      newest packet waits for. */
  predicate IsMistaken(c: Net) {
    Behind(c) > 0 && Behind(c) % MAX_SEQUENCE == 0
  }

  /** A lossless round: the delay elapsed, the newest packet is repeated and arrives, the
      receiver ticks, its acknowledgement arrives. */
  ghost function Round(c: Net, id: byte, now: int, delay: int): (d: Net)
    requires Sound(c, id) && Waiting(c) && now - c.out.lastSendTime >= delay
    ensures Sound(d, id)
  {
    RoundIsGenuine(c, id, now, delay);
    var ticked := Step(c, SenderTicks(now, now, delay), true, id);
    var arrived := Step(ticked, DataArrives(c.sent), true, id);
    var acked := Step(arrived, ReceiverTicks, true, id);
    Step(acked, AckArrives(acked.got), true, id)
  }

  /** Its four events can happen one after the other. */
  lemma {:induction false} RoundIsGenuine(c: Net, id: byte, now: int, delay: int)
    requires Sound(c, id) && Waiting(c)
    ensures var ticked := Step(c, SenderTicks(now, now, delay), true, id);
            && Enabled(ticked, DataArrives(c.sent))
            && var arrived := Step(ticked, DataArrives(c.sent), true, id);
               var acked := Step(arrived, ReceiverTicks, true, id);
               Genuine(acked, AckArrives(acked.got)) && Sound(Step(acked, AckArrives(acked.got), true, id), id)
  {
    hide Number, Wire, Newer, Increasing, SenderInv, ReceiverInv;
    var ticked := Step(c, SenderTicks(now, now, delay), true, id);
    TickIsSound(c, id, now, delay);
    SentIsThere(c, id);
    DataKeepsOrder(ticked, true, id, c.sent);
    var arrived := Step(ticked, DataArrives(c.sent), true, id);
    var acked := Step(arrived, ReceiverTicks, true, id);
    RestIsSound(arrived, id);
  }

  lemma {:induction false} TickIsSound(c: Net, id: byte, now: int, delay: int)
    requires Sound(c, id)
    ensures var d := Step(c, SenderTicks(now, now, delay), true, id); Sound(d, id) && d.data.Keys >= c.data.Keys
  {
    hide Number, Wire, AllNumbered, Increasing, OutTick;
    TickSender(c, true, id, now, now, delay);
    TickData(c, true, id, now, now, delay);
  }

  lemma {:induction false} RestIsSound(c: Net, id: byte)
    requires Sound(c, id) && c.inc.mustSendAck
    ensures var d := Step(c, ReceiverTicks, true, id);
            Genuine(d, AckArrives(d.got)) && Sound(Step(d, AckArrives(d.got), true, id), id)
  {
    hide Number, Wire, Increasing;
  }

  lemma {:induction false} SentIsThere(c: Net, id: byte)
    requires Sound(c, id) && c.out.last.Some?
    ensures c.sent in c.data && c.got <= c.sent && forall n: nat :: 1 <= n <= c.sent ==> n in c.data
  {
    hide Number, Wire, Increasing;
  }

  /** Exactly what a lossless round does, from wherever the receiver is. It delivers and
      acknowledges the newest packet; or the receiver's own acknowledgement is mistaken for the
      one of the newest packet, which is forgotten without having been delivered; or everything
      stays as it was. */
  lemma {:induction false} RoundClears(c: Net, id: byte, now: int, delay: int)
    requires Sound(c, id) && Waiting(c) && now - c.out.lastSendTime >= delay
    ensures var d := Round(c, id, now, delay);
            && OutTick(c.out, id, true, now, now, delay).1 == [c.data[c.sent]]
            && d.sent == c.sent && d.out.outgoing == [] && d.out.lastSendTime == now
            && (c.sent in d.log <==> GetsThrough(c))
            && (d.out.last.None? <==> GetsThrough(c) || IsMistaken(c))
            && (GetsThrough(c) ==> d.got == c.sent)
            && (!GetsThrough(c) ==> d.got == c.got && d.log == c.log)
            && (d.out.last.Some? ==> d.out.last == c.out.last)
  {
    hide Number, Wire, Newer, SenderInv, ReceiverInv;
    NewestRead(c, id);
  }

  /** How the receiver reads the newest packet. */
  lemma {:induction false} NewestRead(c: Net, id: byte)
    requires Sound(c, id) && Waiting(c)
    ensures c.sent in c.data && c.out.last.value == c.data[c.sent] && c.data[c.sent].Sequence() == Wire(c.sent)
    ensures c.inc.remoteSeq == Wire(c.got) && c.got <= c.sent && (c.sent in c.log <==> c.got == c.sent)
    ensures Newer(Wire(c.sent), c.inc.remoteSeq) <==> Behind(c) > 0 && GetsThrough(c)
    ensures Wire(c.sent) == Wire(c.got) <==> c.sent == c.got || IsMistaken(c)
  {
    hide Number, Wire, Newer, Increasing;
    NumberSequence(c.enqueued[c.sent - 1], c.sent, id);
    NewerExactly(c.sent, c.got);
    WiresEqual(c.sent, c.got);
    LastIn(c.log);
    AboveLog(c.log, c.sent);
  }

  lemma {:induction false} AboveLog(log: seq<nat>, n: nat)
    requires Increasing(log)
    ensures log != [] && log[|log| - 1] < n ==> n !in log
  {
    assert forall i :: 0 <= i < |log| ==> log[i] <= log[|log| - 1];
  }

  /** A sequence of lossless rounds, each after its delay. */
  ghost predicate Rounds(cs: seq<Net>, times: seq<(int, int)>, id: byte) {
    && |cs| == |times| + 1
    && forall i :: 0 <= i < |times| ==>
         && Sound(cs[i], id) && Waiting(cs[i]) && times[i].0 - cs[i].out.lastSendTime >= times[i].1
         && cs[i + 1] == Round(cs[i], id, times[i].0, times[i].1)
  }

  /** Where one lossless round does neither, no number of them does. */
  lemma {:induction false} RoundsNeverClear(cs: seq<Net>, times: seq<(int, int)>, id: byte, i: nat)
    requires Rounds(cs, times, id) && i < |cs|
    requires Waiting(cs[0]) && !GetsThrough(cs[0]) && !IsMistaken(cs[0])
    ensures Waiting(cs[i]) && cs[i].out.last == cs[0].out.last && cs[i].sent == cs[0].sent
    ensures cs[i].got == cs[0].got && cs[i].log == cs[0].log
  {
    hide Sound, Round;
    if i > 0 {
      RoundsNeverClear(cs, times, id, i - 1);
      RoundClears(cs[i - 1], id, times[i - 1].0, times[i - 1].1);
    }
  }

  ghost predicate SequencedReachable(c: Net, reliable: bool, id: byte) {
    exists cs, es :: Run(cs, es, reliable, id) && cs[|es|] == c
  }

  lemma {:induction false} ReachableStep(c: Net, e: Event, reliable: bool, id: byte)
    requires SequencedReachable(c, reliable, id) && Enabled(c, e)
    ensures SequencedReachable(Step(c, e, reliable, id), reliable, id)
  {
    hide Step;
    var cs, es :| Run(cs, es, reliable, id) && cs[|es|] == c;
    var d := Step(c, e, reliable, id);
    assert Run(cs + [d], es + [e], reliable, id);
  }

  /** Such states are reached: k packets that are queued and sent together, and all lost, leave
      the receiver k further behind. */
  lemma {:induction false} SendMore(c: Net, k: nat, p: SinglePacket, id: byte) returns (d: Net)
    requires SequencedReachable(c, true, id) && c.out.outgoing == [] && k > 0
    ensures SequencedReachable(d, true, id) && Inv(d, true, id) && Waiting(d)
    ensures d.sent == c.sent + k && d.got == c.got && d.log == c.log && d.inc == c.inc && d.acks == c.acks
    ensures d.out.lastSendTime == 0
  {
    hide Number, Wire, Inv, SequencedReachable, Step;
    var q := QueueMore(c, k, p, id);
    ReachableStep(q, SenderTicks(0, 0, 0), true, id);
    d := Step(q, SenderTicks(0, 0, 0), true, id);
    ReachableInv(d, true, id);
    TickedAll(q, id);
  }

  lemma {:induction false} TickedAll(q: Net, id: byte)
    requires q.out.outgoing != []
    ensures var d := Step(q, SenderTicks(0, 0, 0), true, id);
            && d.sent == q.sent + |q.out.outgoing| && Waiting(d)
            && d.got == q.got && d.log == q.log && d.inc == q.inc && d.acks == q.acks && d.out.lastSendTime == 0
  {
    hide Number, Wire;
  }

  lemma {:induction false} QueueMore(c: Net, k: nat, p: SinglePacket, id: byte) returns (d: Net)
    requires SequencedReachable(c, true, id)
    ensures SequencedReachable(d, true, id) && |d.out.outgoing| == |c.out.outgoing| + k
    ensures d.sent == c.sent && d.got == c.got && d.log == c.log && d.inc == c.inc && d.acks == c.acks
  {
    hide SequencedReachable;
    if k == 0 {
      d := c;
    } else {
      var before := QueueMore(c, k - 1, p, id);
      ReachableStep(before, Enqueue(p), true, id);
      d := Step(before, Enqueue(p), true, id);
    }
  }

  /** The first k packets are queued together and all lost. */
  lemma {:induction false} AllLost(k: nat, p: SinglePacket, id: byte) returns (c: Net)
    requires k > 0
    ensures SequencedReachable(c, true, id) && Inv(c, true, id) && Waiting(c) && c.sent == k && c.got == 0
    ensures c.log == [] && c.inc == In(0, false) && c.acks == {} && c.out.lastSendTime == 0
  {
    hide SequencedReachable, Inv;
    InitialReachable(true, id);
    c := SendMore(INITIAL, k, p, id);
  }

  lemma {:induction false} InitialReachable(reliable: bool, id: byte)
    ensures SequencedReachable(INITIAL, reliable, id)
  {
    assert Run([INITIAL], [], reliable, id) && [INITIAL][0] == INITIAL;
  }

  lemma {:induction false} ReachableInv(c: Net, reliable: bool, id: byte)
    requires SequencedReachable(c, reliable, id)
    ensures Inv(c, reliable, id)
  {
    hide Step, Inv;
    var cs, es :| Run(cs, es, reliable, id) && cs[|es|] == c;
    RunKeepsInv(cs, es, reliable, id, |es|);
  }

  /** There are runs after which lossless rounds never get the newest packet through. */
  lemma {:induction false} StuckForGood(p: SinglePacket, id: byte) returns (c: Net)
    ensures SequencedReachable(c, true, id) && Waiting(c) && Behind(c) == HALF_MAX_SEQUENCE && c.sent !in c.log
    ensures forall cs: seq<Net>, times, i: nat :: Rounds(cs, times, id) && cs[0] == c && i < |cs| ==>
              cs[i].out.last == c.out.last && cs[i].sent !in cs[i].log
  {
    hide SequencedReachable, Round;
    c := AllLost(HALF_MAX_SEQUENCE, p, id);
    forall cs: seq<Net>, times, i: nat | Rounds(cs, times, id) && cs[0] == c && i < |cs|
      ensures cs[i].out.last == c.out.last && cs[i].sent !in cs[i].log
    {
      RoundsNeverClear(cs, times, id, i);
    }
  }

  /** And there are runs that leave the receiver more than a cycle behind, after which a single
      lossless round, within the age bounds, gets the newest packet through. */
  lemma {:induction false} FarRound(p: SinglePacket, id: byte, now: int, delay: int) returns (c: Net)
    requires now >= delay
    ensures SequencedReachable(c, true, id) && Sound(c, id) && Waiting(c) && Behind(c) == MAX_SEQUENCE + 1
    ensures now - c.out.lastSendTime >= delay
    ensures var d := Round(c, id, now, delay); SequencedReachable(d, true, id) && d.out.last.None? && c.sent in d.log
  {
    hide SequencedReachable, Inv, SenderInv, ReceiverInv, Round;
    c := AllLost(MAX_SEQUENCE + 1, p, id);
    InvIsSound(c, id);
    RoundClears(c, id, now, delay);
    RoundReached(c, id, now, delay);
  }

  lemma {:induction false} InvIsSound(c: Net, id: byte)
    requires Inv(c, true, id)
    ensures Sound(c, id)
  {
    hide SenderInv, ReceiverInv;
  }

  /** A round that gets through is a stretch of a run. */
  lemma {:induction false} RoundReached(c: Net, id: byte, now: int, delay: int)
    requires Sound(c, id) && Waiting(c) && now - c.out.lastSendTime >= delay
    requires SequencedReachable(c, true, id) && (GetsThrough(c) || Behind(c) < MAX_SEQUENCE)
    ensures SequencedReachable(Round(c, id, now, delay), true, id)
  {
    hide SequencedReachable, SenderInv, ReceiverInv, Number, Wire, Newer, Step;
    RoundIsGenuine(c, id, now, delay);
    var ticked := Step(c, SenderTicks(now, now, delay), true, id);
    TickedWaiting(c, id, now, delay);
    ReachableStep(c, SenderTicks(now, now, delay), true, id);
    ReachableStep(ticked, DataArrives(c.sent), true, id);
    var arrived := Step(ticked, DataArrives(c.sent), true, id);
    NewestRead(ticked, id);
    DataOutcome(ticked, true, id, c.sent);
    ReachableStep(arrived, ReceiverTicks, true, id);
    var acked := Step(arrived, ReceiverTicks, true, id);
    ReceiverSends(arrived, id);
    ReachableStep(acked, AckArrives(acked.got), true, id);
  }

  lemma {:induction false} ReceiverSends(c: Net, id: byte)
    ensures var d := Step(c, ReceiverTicks, true, id); d.got == c.got && d.sent == c.sent
  {}

  /** The sender waits as before after repeating its newest packet. */
  lemma {:induction false} TickedWaiting(c: Net, id: byte, now: int, delay: int)
    requires Sound(c, id) && Waiting(c)
    ensures var d := Step(c, SenderTicks(now, now, delay), true, id);
            && Sound(d, id) && Waiting(d) && d.sent == c.sent
            && d.got == c.got && d.log == c.log && d.inc == c.inc && d.acks == c.acks
  {
    hide Number, Wire, SenderInv, ReceiverInv, AllNumbered;
    TickIsSound(c, id, now, delay);
  }

  /** The bound on acknowledgements is the best possible: there is a run in which one that is
      exactly a cycle old makes the sender forget a packet that was not delivered. */
  lemma {:induction false} AckOneCycle(p: SinglePacket, id: byte) returns (c: Net)
    ensures SequencedReachable(c, true, id) && 0 in c.acks && c.sent - 0 == MAX_SEQUENCE && c.sent !in c.log
    ensures c.out.last.Some? && Step(c, AckArrives(0), true, id).out.last.None?
  {
    hide SequencedReachable, Inv, SenderInv, ReceiverInv, Number, Wire, Newer, OutTick;
    var lost := AllLost(MAX_SEQUENCE, p, id);
    InvIsSound(lost, id);
    NewestRead(lost, id);
    ReachableStep(lost, DataArrives(lost.sent), true, id);
    var arrived := Step(lost, DataArrives(lost.sent), true, id);
    ReachableStep(arrived, ReceiverTicks, true, id);
    c := Step(arrived, ReceiverTicks, true, id);
  }

  /** So is the bound on data: there is a run in which a copy that is one number older is
      delivered a second time, out of order. */
  lemma {:induction false} DataOneOlder(p: SinglePacket, id: byte) returns (c: Net)
    ensures SequencedReachable(c, true, id) && 1 in c.data && c.got - 1 == HALF_MAX_SEQUENCE + 1
    ensures var d := Step(c, DataArrives(1), true, id); d.log == c.log + [1] && !Increasing(d.log)
  {
    hide SequencedReachable, Inv, Number, Wire, Newer, OutTick;
    InitialReachable(true, id);
    var a := Caught(INITIAL, HALF_MAX_SEQUENCE - 1, p, id);
    c := Caught(a, 3, p, id);
    ReachableInv(c, true, id);
    OldCopyPasses(c, id);
  }

  /** k packets are sent and the last of them arrives. */
  lemma {:induction false} Caught(c: Net, k: nat, p: SinglePacket, id: byte) returns (d: Net)
    requires SequencedReachable(c, true, id) && c.out.outgoing == [] && c.got == c.sent && 0 < k < HALF_MAX_SEQUENCE
    ensures SequencedReachable(d, true, id) && d.out.outgoing == [] && d.got == d.sent == c.sent + k
  {
    hide SequencedReachable, Inv, SenderInv, ReceiverInv, Number, Wire, Newer;
    var sent := SendMore(c, k, p, id);
    InvIsSound(sent, id);
    NewestRead(sent, id);
    ReachableStep(sent, DataArrives(sent.sent), true, id);
    d := Step(sent, DataArrives(sent.sent), true, id);
  }

  lemma {:induction false} OldCopyPasses(c: Net, id: byte)
    requires Inv(c, true, id) && c.got == c.sent == HALF_MAX_SEQUENCE + 2
    ensures 1 in c.data
    ensures var d := Step(c, DataArrives(1), true, id); d.log == c.log + [1] && !Increasing(d.log)
  {
    hide Number, Wire, Newer;
    NumberSequence(c.enqueued[0], 1, id);
    StalePasses(1);
    var log := c.log + [1];
    assert log[|c.log| - 1] > log[|c.log|];
  }

  lemma {:induction false} LastIn(log: seq<nat>)
    ensures log != [] ==> log[|log| - 1] in log
  {}

  /** What does help is an older copy that was only delayed: it may bring the receiver near
      enough for the next round. */
  lemma {:induction false} OlderCopyHelps(c: Net, id: byte, n: nat, now: int, delay: int)
    requires Sound(c, id) && Waiting(c) && now - c.out.lastSendTime >= delay
    requires c.got < n < c.got + HALF_MAX_SEQUENCE && c.sent - HALF_MAX_SEQUENCE < n < c.sent
    ensures Enabled(c, DataArrives(n))
    ensures var d := Step(c, DataArrives(n), true, id);
            && Sound(d, id) && Waiting(d) && d.out.lastSendTime == c.out.lastSendTime
            && Round(d, id, now, delay).out.last.None? && c.sent in Round(d, id, now, delay).log
  {
    hide Number, Wire, Newer, Increasing, Round, Step, GetsThrough, IsMistaken, SenderInv, ReceiverInv;
    SentIsThere(c, id);
    var d := Step(c, DataArrives(n), true, id);
    NearIsRead(n, c.got);
    DataOutcome(c, true, id, n);
    DataKeepsOrder(c, true, id, n);
    NearGetsThrough(d);
    RoundClears(d, id, now, delay);
  }

  lemma {:induction false} NearIsRead(n: nat, got: nat)
    requires got < n < got + HALF_MAX_SEQUENCE
    ensures Newer(Wire(n), Wire(got))
  {
    hide Wire, Newer;
    NewerExactly(n, got);
  }

  lemma {:induction false} NearGetsThrough(c: Net)
    requires 0 < Behind(c) < HALF_MAX_SEQUENCE
    ensures GetsThrough(c) && !IsMistaken(c)
  {}

  lemma {:induction false} WiresEqual(a: nat, b: nat)
    ensures Wire(a) == Wire(b) <==> (a - b) % MAX_SEQUENCE == 0
    ensures 0 <= a - b < MAX_SEQUENCE ==> (a - b) % MAX_SEQUENCE == a - b
  {}
}
