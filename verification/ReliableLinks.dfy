/** Two peers and one reliable channel between them: whatever the peers do, with all their other
    channels, the channel goes through a run of the protocol. Everything proved about such runs
    holds of the peers. */
module ReliableLinks {
  import opened Bits
  import opened Sequences
  import opened Packets
  import opened Options
  import opened ReliableModel
  import opened ChannelRep
  import opened SendQueues
  import opened Emissions
  import Hops
  import Protocol = ReliableProtocol
  import Timing = ReliableTiming

  /** The two peers, what peer a was given to send on the channel, and what of it, and of the
      reports of peer b, is on its way. The other direction is like this one. */
  datatype Joint = Joint(a: Sched, b: Sched, enqueued: seq<ChannelPacket>, data: map<nat, ChannelPacket>,
                         acks: set<Ack>)

  /** Anything that happens at one of the peers by itself, a copy of packet n that reaches peer b,
      or a packet with a report that reaches peer a. */
  datatype Happening =
    | AtA(e: Event)
    | AtB(e: Event)
    | DataToB(n: nat)
    | ReportToA(ack: Ack, p: ChannelPacket)

  function SndOf(s: Sched, id: byte): Sender {
    if ChannelAt(s, id).Reliable? then ChannelAt(s, id).snd else EMPTY_SENDER
  }

  function RcvOf(s: Sched, id: byte): Receiver {
    if ChannelAt(s, id).Reliable? then ChannelAt(s, id).rcv else EMPTY_RECEIVER
  }

  /** The channel as the protocol sees it. */
  function NetOf(l: Joint, id: byte): Protocol.Net {
    Protocol.Net(SndOf(l.a, id), RcvOf(l.b, id), l.enqueued, l.data, l.acks)
  }

  /** The packet brings this report. */
  ghost predicate Brings(p: ChannelPacket, ack: Ack) {
    && p.Property() == PROP_ACK && p.Size() == ACK_PACKET_SIZE
    && p.Sequence() == Wire(ack.start) && SlotBits(p.data) == AckSlots(ack)
  }

  /** The network loses, repeats and reorders, within the age bounds. What the channel carries the
      other way is arbitrary. */
  ghost predicate CanHappen(l: Joint, h: Happening, id: byte) {
    match h
    case AtA(e) => Enabled(l.a, e) && ((e.Arrives? || e.Send?) && e.id == id ==> IsData(e.p))
    case AtB(e) => Enabled(l.b, e) && (e.Arrives? && e.id == id ==> !IsData(e.p))
    case DataToB(n) => Protocol.Enabled(NetOf(l, id), Protocol.DataArrives(n))
    case ReportToA(ack, p) => Protocol.Enabled(NetOf(l, id), Protocol.AckArrives(ack)) && Brings(p, ack)
  }

  /** The packets in the window of a sender that are among those sent. */
  function Posted(snd: Sender, es: seq<Emission>): map<nat, ChannelPacket> {
    map n | n in snd.pending && Data(snd.pending[n].pkt) in es :: snd.pending[n].pkt
  }

  function Reported(es: seq<Emission>, id: byte): set<Ack> {
    set e | e in es && e.Report? && e.id == id :: e.ack
  }

  function NextAtA(l: Joint, e: Event, id: byte): Joint {
    var a := Step(l.a, e);
    match e
    case Send(on, p) => l.(a := a, enqueued := if on == id then l.enqueued + [p] else l.enqueued)
    case Update(clocks) => l.(a := a, data := l.data + Posted(SndOf(a, id), UpdateEmits(l.a, clocks)))
    case Arrives(_, _) => l.(a := a)
  }

  function NextAtB(l: Joint, e: Event, id: byte): Joint {
    var b := Step(l.b, e);
    l.(b := b, acks := if e.Update? then l.acks + Reported(UpdateEmits(l.b, e.clocks), id) else l.acks)
  }

  ghost function NextJoint(l: Joint, h: Happening, id: byte): Joint
    requires CanHappen(l, h, id)
  {
    match h
    case AtA(e) => NextAtA(l, e, id)
    case AtB(e) => NextAtB(l, e, id)
    case DataToB(n) => l.(b := Step(l.b, Arrives(id, l.data[n])))
    case ReportToA(_, p) => l.(a := Step(l.a, Arrives(id, p)))
  }

  /** The channel can exist on both sides, both peers are in order, and what was queued is data. */
  ghost predicate JointOk(l: Joint, id: byte) {
    && QueueOk(l.a) && MarkedOk(l.a) && QueueOk(l.b) && MarkedOk(l.b)
    && Hops.IsReliable(id) && id as nat < l.a.count && id as nat < l.b.count
    && forall p :: p in l.enqueued ==> IsData(p)
  }

  // ------------------------------------------------------------------- one channel's share

  lemma {:induction false} IsReliableChannel(s: Sched, id: byte)
    requires MarkedOk(s) && Hops.IsReliable(id)
    ensures ChannelAt(s, id).Reliable? && ChannelAt(s, id).ordered == Hops.IsOrdered(id)
    ensures ChannelAt(s, id) == Reliable(Hops.IsOrdered(id), SndOf(s, id), RcvOf(s, id))
  {
    if id in s.channels { assert Marked(s.channels[id], id); }
  }

  /** An empty sender ignores every report. */
  lemma {:induction false} NothingToAcknowledge(wireStart: nat, slots: set<nat>)
    ensures AckArrives(EMPTY_SENDER, wireStart, slots) == EMPTY_SENDER
  {}

  /** What a step of a peer does to the sending side of the channel. */
  lemma {:induction false} SenderLaw(s: Sched, e: Event, id: byte)
    requires QueueOk(s) && MarkedOk(s) && Enabled(s, e) && id as nat < s.count && Hops.IsReliable(id)
    ensures var snd, after := SndOf(s, id), SndOf(Step(s, e), id); var i := PlaceOf(s.sendQueue, id);
            && SenderOk(snd)
            && (e.Send? ==> after == if e.id == id then snd.(outgoing := snd.outgoing + [e.p]) else snd)
            && (e.Arrives? && (e.id != id || IsData(e.p)) ==> after == snd)
            && (e.Arrives? && e.id == id && !IsData(e.p) ==>
                  after == if e.p.Size() != ACK_PACKET_SIZE then snd
                           else AckArrives(snd, e.p.Sequence(), SlotBits(e.p.data)))
            && (e.Update? ==>
                  after == if i < |s.sendQueue| then SendTick(snd, id, e.clocks[i].now, e.clocks[i].delay) else snd)
  {
    hide PacketArrives, AckArrives, SlotBits, SendTick, PlaceOf, QueueOk, MarkedOk;
    ChannelSteps(s, e, id);
    IsReliableChannel(s, id);
    StepMarked(s, e);
    IsReliableChannel(Step(s, e), id);
    if e.Arrives? && id !in s.channels && e.p.Size() == ACK_PACKET_SIZE {
      NothingToAcknowledge(e.p.Sequence(), SlotBits(e.p.data));
    }
  }

  /** And to the receiving side. */
  lemma {:induction false} ReceiverLaw(s: Sched, e: Event, id: byte)
    requires QueueOk(s) && MarkedOk(s) && Enabled(s, e) && id as nat < s.count && Hops.IsReliable(id)
    ensures var rcv, after := RcvOf(s, id), RcvOf(Step(s, e), id); var i := PlaceOf(s.sendQueue, id);
            && (e.Send? ==> after == rcv)
            && (e.Arrives? && (e.id != id || !IsData(e.p)) ==> after == rcv)
            && (e.Arrives? && e.id == id && IsData(e.p) ==> after == PacketArrives(rcv, Hops.IsOrdered(id), e.p))
            && (e.Update? ==> after == if i < |s.sendQueue| then rcv.(ackDue := false) else rcv)
  {
    hide PacketArrives, AckArrives, SlotBits, SendTick, PlaceOf, QueueOk, MarkedOk;
    ChannelSteps(s, e, id);
    IsReliableChannel(s, id);
    StepMarked(s, e);
    IsReliableChannel(Step(s, e), id);
  }

  // ----------------------------------------------------------------- what an update sends

  lemma {:induction false} SentHere(s: Sched, clocks: seq<Clock>, id: byte)
    requires QueueOk(s) && MarkedOk(s) && |clocks| == |s.sendQueue| && id as nat < s.count && Hops.IsReliable(id)
    ensures var i := PlaceOf(s.sendQueue, id);
            && SenderOk(SndOf(s, id))
            && OnChannel(UpdateEmits(s, clocks), id)
               == if i == |s.sendQueue| then []
                  else (if RcvOf(s, id).ackDue then [Report(id, AckOf(RcvOf(s, id)))] else [])
                       + AllData(TickPackets(SndOf(s, id), id, clocks[i].now, clocks[i].delay))
  {
    hide TickPackets, PlaceOf, MarkedOk, UpdateEmits, OnChannel, HasWork, NoRepeats;
    assert clocks[..|clocks|] == clocks;
    SentOnChannel(s, clocks, |clocks|, id);
    SenderLaw(s, Update(clocks), id);
    IsReliableChannel(s, id);
  }

  lemma {:induction false} InAllData(ps: seq<ChannelPacket>, p: ChannelPacket)
    ensures Data(p) in AllData(ps) <==> p in ps
    ensures forall e :: e in AllData(ps) ==> e.Data?
  {
    if p in ps {
      var i :| 0 <= i < |ps| && ps[i] == p;
      assert AllData(ps)[i] == Data(p);
    }
  }

  /** Of the window of peer a, exactly the packets that are due are sent. */
  lemma {:induction false} PostedIsDue(l: Joint, clocks: seq<Clock>, id: byte)
    requires JointOk(l, id) && Protocol.Inv(NetOf(l, id), Hops.IsOrdered(id), id) && |clocks| == |l.a.sendQueue|
    ensures var i, snd := PlaceOf(l.a.sendQueue, id), SndOf(l.a, id);
            && SenderOk(snd)
            && Posted(SndOf(Step(l.a, Update(clocks)), id), UpdateEmits(l.a, clocks))
               == if i == |l.a.sendQueue| then map[]
                  else Protocol.SentNow(Fill(snd, id), clocks[i].now, clocks[i].delay)
  {
    hide Protocol.Inv, PlaceOf, UpdateEmits, OnChannel, QueueOk, Step, Fill, DuePackets, Due;
    SentHere(l.a, clocks, id);
    SenderLaw(l.a, Update(clocks), id);
    var i, after := PlaceOf(l.a.sendQueue, id), SndOf(Step(l.a, Update(clocks)), id);
    forall n | n in after.pending
      ensures Data(after.pending[n].pkt) in UpdateEmits(l.a, clocks)
              <==> i < |l.a.sendQueue| && Due(Fill(SndOf(l.a, id), id).pending[n], clocks[i].now, clocks[i].delay)
    {
      PostedOne(l, clocks, id, n);
    }
  }

  lemma {:induction false} PostedOne(l: Joint, clocks: seq<Clock>, id: byte, n: nat)
    requires JointOk(l, id) && Protocol.Inv(NetOf(l, id), Hops.IsOrdered(id), id) && |clocks| == |l.a.sendQueue|
    requires n in SndOf(Step(l.a, Update(clocks)), id).pending
    ensures var i, snd := PlaceOf(l.a.sendQueue, id), SndOf(l.a, id);
            var p := SndOf(Step(l.a, Update(clocks)), id).pending[n].pkt;
            && SenderOk(snd) && (i < |l.a.sendQueue| ==> n in Fill(snd, id).pending)
            && (Data(p) in UpdateEmits(l.a, clocks)
                <==> i < |l.a.sendQueue| && Due(Fill(snd, id).pending[n], clocks[i].now, clocks[i].delay))
  {
    hide Protocol.Inv, PlaceOf, UpdateEmits, OnChannel, QueueOk, Step, Fill, DuePackets, Due;
    SentHere(l.a, clocks, id);
    SenderLaw(l.a, Update(clocks), id);
    var i, snd := PlaceOf(l.a.sendQueue, id), SndOf(l.a, id);
    var p := SndOf(Step(l.a, Update(clocks)), id).pending[n].pkt;
    PacketIsMarked(l.a, clocks, id, n);
    InOnChannel(UpdateEmits(l.a, clocks), id, Data(p));
    if i < |l.a.sendQueue| {
      var now, delay, f := clocks[i].now, clocks[i].delay, Fill(snd, id);
      InAllData(TickPackets(snd, id, now, delay), p);
      Protocol.TickKeepsInv(NetOf(l, id), Hops.IsOrdered(id), id, now, delay);
      Timing.DueByNumber(Protocol.Step(NetOf(l, id), Protocol.SenderTicks(now, delay), Hops.IsOrdered(id), id), f,
                         Hops.IsOrdered(id), id, now, delay, n);
    }
  }

  lemma {:induction false} PacketIsMarked(s: Sched, clocks: seq<Clock>, id: byte, n: nat)
    requires QueueOk(s) && MarkedOk(s) && |clocks| == |s.sendQueue| && Hops.IsReliable(id)
    requires n in SndOf(Step(s, Update(clocks)), id).pending
    ensures SndOf(Step(s, Update(clocks)), id).pending[n].pkt.ChannelID() == id as nat
  {
    hide QueueOk, Step;
    StepMarked(s, Update(clocks));
    var t := Step(s, Update(clocks));
    if id in t.channels { assert Marked(t.channels[id], id); }
  }

  /** Peer b sends the report it owes, and no other. */
  lemma {:induction false} ReportedIsOwed(s: Sched, clocks: seq<Clock>, id: byte)
    requires QueueOk(s) && MarkedOk(s) && |clocks| == |s.sendQueue| && id as nat < s.count && Hops.IsReliable(id)
    ensures Reported(UpdateEmits(s, clocks), id)
            == if PlaceOf(s.sendQueue, id) < |s.sendQueue| && RcvOf(s, id).ackDue then {AckOf(RcvOf(s, id))} else {}
  {
    hide PlaceOf, UpdateEmits, OnChannel, QueueOk, MarkedOk, TickPackets;
    SentHere(s, clocks, id);
    var es, i := UpdateEmits(s, clocks), PlaceOf(s.sendQueue, id);
    forall ack: Ack
      ensures Report(id, ack) in es
              <==> i < |s.sendQueue| && RcvOf(s, id).ackDue && ack == AckOf(RcvOf(s, id))
    {
      InOnChannel(es, id, Report(id, ack));
      if i < |s.sendQueue| {
        InAllData(TickPackets(SndOf(s, id), id, clocks[i].now, clocks[i].delay), NewPacket(PROP_ACK, []));
      }
    }
    forall ack: Ack
      ensures ack in Reported(es, id) <==> Report(id, ack) in es
    {}
  }

  // ------------------------------------------------------------------------ the refinement

  /** What the protocol does when this happens. */
  function Act(l: Joint, h: Happening, id: byte): Option<Protocol.Event> {
    match h
    case AtA(Send(on, p)) => if on == id then Some(Protocol.Enqueue(p)) else None
    case AtA(Update(clocks)) =>
      var i := PlaceOf(l.a.sendQueue, id);
      if i < |l.a.sendQueue| && i < |clocks| then Some(Protocol.SenderTicks(clocks[i].now, clocks[i].delay)) else None
    case AtB(Update(_)) => if PlaceOf(l.b.sendQueue, id) < |l.b.sendQueue| then Some(Protocol.ReceiverTicks) else None
    case DataToB(n) => Some(Protocol.DataArrives(n))
    case ReportToA(ack, _) => Some(Protocol.AckArrives(ack))
    case _ => None
  }

  /** Whatever happens, the channel makes exactly this step of the protocol. */
  ghost predicate Simulates(l: Joint, h: Happening, id: byte)
    requires CanHappen(l, h, id)
  {
    var c, d := NetOf(l, id), NetOf(NextJoint(l, h, id), id);
    match Act(l, h, id)
    case Some(act) =>
      SenderOk(c.snd) && Protocol.Enabled(c, act) && d == Protocol.Step(c, act, Hops.IsOrdered(id), id)
    case None => d == c
  }

  lemma {:induction false} AtAExactly(l: Joint, e: Event, id: byte)
    requires JointOk(l, id) && Protocol.Inv(NetOf(l, id), Hops.IsOrdered(id), id) && CanHappen(l, AtA(e), id)
    ensures Simulates(l, AtA(e), id)
  {
    hide Protocol.Inv, QueueOk, MarkedOk, Step, Protocol.Step, Act, Simulates, NetOf, Enabled;
    match e
    case Update(clocks) => AtAUpdates(l, clocks, id);
    case _ => AtAOtherwise(l, e, id);
  }

  lemma {:induction false} AtAOtherwise(l: Joint, e: Event, id: byte)
    requires JointOk(l, id) && Protocol.Inv(NetOf(l, id), Hops.IsOrdered(id), id) && CanHappen(l, AtA(e), id)
    requires !e.Update?
    ensures Simulates(l, AtA(e), id)
  {
    hide Protocol.Inv, PlaceOf, QueueOk, MarkedOk, Step, SendTick, AckArrives, PacketArrives;
    SenderLaw(l.a, e, id);
  }

  lemma {:induction false} AtAUpdates(l: Joint, clocks: seq<Clock>, id: byte)
    requires JointOk(l, id) && Protocol.Inv(NetOf(l, id), Hops.IsOrdered(id), id)
    requires CanHappen(l, AtA(Update(clocks)), id)
    ensures Simulates(l, AtA(Update(clocks)), id)
  {
    hide Protocol.Inv, PlaceOf, UpdateEmits, Posted, QueueOk, MarkedOk, Step, SendTick, Fill, Due;
    SenderLaw(l.a, Update(clocks), id);
    PostedIsDue(l, clocks, id);
    assert l.data + map[] == l.data;
  }

  lemma {:induction false} AtBExactly(l: Joint, e: Event, id: byte)
    requires JointOk(l, id) && Protocol.Inv(NetOf(l, id), Hops.IsOrdered(id), id) && CanHappen(l, AtB(e), id)
    ensures Simulates(l, AtB(e), id)
  {
    hide Protocol.Inv, PlaceOf, UpdateEmits, Reported, QueueOk, MarkedOk, Step, SendTick, AckArrives, PacketArrives;
    ReceiverLaw(l.b, e, id);
    Protocol.SenderIsOk(NetOf(l, id), Hops.IsOrdered(id), id);
    if e.Update? { ReportedIsOwed(l.b, e.clocks, id); }
  }

  lemma {:induction false} CopiesAreData(l: Joint, n: nat, id: byte)
    requires JointOk(l, id) && Protocol.Inv(NetOf(l, id), Hops.IsOrdered(id), id) && n in l.data
    ensures IsData(l.data[n])
  {
    hide QueueOk, MarkedOk, Stamp;
    assert Protocol.Carries(l.enqueued, n, l.data[n], id);
    StampFields(l.enqueued[n], n, id);
    assert l.enqueued[n] in l.enqueued;
  }

  lemma {:induction false} StepExactly(l: Joint, h: Happening, id: byte)
    requires JointOk(l, id) && Protocol.Inv(NetOf(l, id), Hops.IsOrdered(id), id) && CanHappen(l, h, id)
    ensures Simulates(l, h, id)
  {
    hide Protocol.Inv, PlaceOf, QueueOk, MarkedOk, Step, SendTick, AckArrives, PacketArrives, NextAtA, NextAtB;
    Protocol.SenderIsOk(NetOf(l, id), Hops.IsOrdered(id), id);
    match h
    case AtA(e) => AtAExactly(l, e, id);
    case AtB(e) => AtBExactly(l, e, id);
    case DataToB(n) =>
      CopiesAreData(l, n, id);
      ReceiverLaw(l.b, Arrives(id, l.data[n]), id);
    case ReportToA(ack, p) =>
      SenderLaw(l.a, Arrives(id, p), id);
  }

  ghost predicate JointRun(ls: seq<Joint>, hs: seq<Happening>, id: byte) {
    && |ls| == |hs| + 1 && ls[0] == Joint(Initial(ls[0].a.count), Initial(ls[0].b.count), [], map[], {})
    && Hops.IsReliable(id) && id as nat < ls[0].a.count && id as nat < ls[0].b.count
    && forall i :: 0 <= i < |hs| ==> CanHappen(ls[i], hs[i], id) && ls[i + 1] == NextJoint(ls[i], hs[i], id)
  }

  lemma {:induction false} JointStaysOk(l: Joint, h: Happening, id: byte)
    requires JointOk(l, id) && Protocol.Inv(NetOf(l, id), Hops.IsOrdered(id), id) && CanHappen(l, h, id)
    ensures JointOk(NextJoint(l, h, id), id)
  {
    hide Protocol.Inv, QueueOk, MarkedOk, Step, UpdateEmits, Posted, Reported;
    match h
    case AtA(e) => PeerStaysOk(l.a, e);
    case AtB(e) => PeerStaysOk(l.b, e);
    case DataToB(n) => PeerStaysOk(l.b, Arrives(id, l.data[n]));
    case ReportToA(_, p) => PeerStaysOk(l.a, Arrives(id, p));
  }

  lemma {:induction false} JointStart(l: Joint, id: byte)
    requires l == Joint(Initial(l.a.count), Initial(l.b.count), [], map[], {})
    requires Hops.IsReliable(id) && id as nat < l.a.count && id as nat < l.b.count
    ensures JointOk(l, id) && NetOf(l, id) == Protocol.INITIAL
  {}

  /** In every run of two peers, whatever their other channels do, each reliable channel is in a
      state that its protocol can reach, and every step is one of the protocol's or none. */
  lemma {:induction false} ChannelRefines(ls: seq<Joint>, hs: seq<Happening>, id: byte, i: nat)
    requires JointRun(ls, hs, id) && i < |ls|
    ensures JointOk(ls[i], id) && Protocol.Reachable(NetOf(ls[i], id), Hops.IsOrdered(id), id)
    ensures i < |hs| ==> CanHappen(ls[i], hs[i], id) && Simulates(ls[i], hs[i], id)
  {
    hide Protocol.Reachable, Protocol.Inv, Protocol.Step, JointOk, NextJoint, CanHappen, NetOf, Act;
    if i == 0 {
      JointStart(ls[0], id);
      Protocol.InitialReachable(Hops.IsOrdered(id), id);
    } else {
      ChannelRefines(ls, hs, id, i - 1);
      var c := NetOf(ls[i - 1], id);
      Protocol.ReachableInv(c, Hops.IsOrdered(id), id);
      JointStaysOk(ls[i - 1], hs[i - 1], id);
      if act: Protocol.Event :| Act(ls[i - 1], hs[i - 1], id) == Some(act) {
        Protocol.ReachableStep(c, act, Hops.IsOrdered(id), id);
      }
    }
    if i < |hs| {
      Protocol.ReachableInv(NetOf(ls[i], id), Hops.IsOrdered(id), id);
      StepExactly(ls[i], hs[i], id);
    }
  }

  /** After an update a channel waits for the next one exactly if something is queued on it or not
      yet acknowledged. */
  lemma {:induction false} DrainedLeavesQueue(s: Sched, clocks: seq<Clock>, id: byte)
    requires QueueOk(s) && MarkedOk(s) && |clocks| == |s.sendQueue| && id in s.channels && Hops.IsReliable(id)
    ensures var t := Step(s, Update(clocks));
            id in t.sendQueue <==> SndOf(t, id).outgoing != [] || SndOf(t, id).pending != map[]
  {
    hide MarkedOk, Step, NoRepeats, PlaceOf, SendTick, ChanOk, HasWork;
    var t := Step(s, Update(clocks));
    PeerStaysOk(s, Update(clocks));
    UpdateVisitsEach(s, clocks);
    IsReliableChannel(t, id);
    ReceiverLaw(s, Update(clocks), id);
    IsReliableChannel(s, id);
    WorkOf(s.channels[id]);
    WorkOf(t.channels[id]);
  }

  lemma {:induction false} WorkOf(ch: Chan)
    requires ch.Reliable?
    ensures HasWork(ch) <==> ch.snd.outgoing != [] || ch.snd.pending != map[] || ch.rcv.ackDue
  {}
}
