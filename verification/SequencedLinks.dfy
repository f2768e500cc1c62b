/** Two peers and one sequenced channel between them: whatever the peers do, with all their other
    channels, the channel goes through a run of its protocol. */
module SequencedLinks {
  import opened Bits
  import opened Sequences
  import opened Packets
  import opened Options
  import opened SendQueues
  import opened Emissions
  import Hops
  import Sequenced

  type SinglePacket = Sequenced.SinglePacket

  /** The two peers and, for the channel, what peer a was given to send, how much of it has left,
      what peer b has delivered, and what is on its way. The other direction is like this one. */
  datatype Pairing = Pairing(a: Sched, b: Sched, enqueued: seq<SinglePacket>, sent: nat, got: nat, log: seq<nat>,
                             data: map<nat, SinglePacket>, acks: set<nat>)

  datatype Happening =
    | AtA(e: Event)
    | AtB(e: Event)
    | DataToB(n: nat)
    | AckToA(n: nat, p: ChannelPacket)

  predicate IsRepeating(id: byte) { id % 4 == 3 }

  function OutOf(s: Sched, id: byte): Sequenced.Out {
    if ChannelAt(s, id).Latest? then ChannelAt(s, id).out else Sequenced.Out(0, None, 0, [])
  }

  function InOf(s: Sched, id: byte): Sequenced.In {
    if ChannelAt(s, id).Latest? then ChannelAt(s, id).inc else Sequenced.In(0, false)
  }

  /** The channel as its protocol sees it. */
  function NetOf(l: Pairing, id: byte): Sequenced.Net {
    Sequenced.Net(OutOf(l.a, id), InOf(l.b, id), l.enqueued, l.sent, l.got, l.log, l.data, l.acks)
  }

  predicate IsSingle(e: Emission) { e.Data? && !e.p.IsFragmented() && e.p.Property() == PROP_CHANNELED }

  /** The data among what is sent. */
  function Singles(es: seq<Emission>): seq<SinglePacket> {
    if es == [] then [] else Singles(es[..|es| - 1]) + if IsSingle(es[|es| - 1]) then [es[|es| - 1].p] else []
  }

  /** The acknowledgement of packet n is among it. */
  ghost predicate Acknowledges(es: seq<Emission>, n: nat) {
    exists p: ChannelPacket :: Data(p) in es && IsAck(p, n)
  }

  predicate IsAck(p: ChannelPacket, n: nat) {
    p.Property() == PROP_ACK && !p.IsFragmented() && p.Sequence() == Wire(n)
  }

  /** The network loses, repeats and reorders, within the age bounds; what the channel carries the
      other way is arbitrary. */
  predicate CanHappen(l: Pairing, h: Happening, id: byte) {
    match h
    case AtA(Send(on, p)) => on as nat < l.a.count ==> Takes(ChannelAt(l.a, on), p)
    case AtA(Arrives(on, p)) => on == id ==> IsData(p)
    case AtA(Update(clocks)) => |clocks| == |l.a.sendQueue|
    case AtB(Send(on, p)) => on as nat < l.b.count ==> Takes(ChannelAt(l.b, on), p)
    case AtB(Arrives(on, p)) => on == id ==> !IsData(p)
    case AtB(Update(clocks)) => |clocks| == |l.b.sendQueue|
    case DataToB(n) => Sequenced.Enabled(NetOf(l, id), Sequenced.DataArrives(n))
    case AckToA(n, p) => Sequenced.Enabled(NetOf(l, id), Sequenced.AckArrives(n)) && IsAck(p, n)
  }

  function Less(a: nat, b: nat): nat { if b <= a then a - b else 0 }

  function NextAtA(l: Pairing, e: Event, id: byte): Pairing {
    var a := Step(l.a, e);
    match e
    case Send(on, p) =>
      l.(a := a, enqueued := if on == id && Takes(ChannelAt(l.a, id), p) && ChannelAt(l.a, id).Latest?
                             then l.enqueued + [p] else l.enqueued)
    case Update(clocks) =>
      var c := NetOf(l, id);
      l.(a := a, sent := Less(l.sent + |c.out.outgoing|, |OutOf(a, id).outgoing|),
         data := l.data + Sequenced.OnWire(Singles(OnChannel(UpdateEmits(l.a, clocks), id)), Sequenced.FirstSent(c)))
    case Arrives(_, _) => l.(a := a)
  }

  ghost function NextAtB(l: Pairing, e: Event, id: byte): Pairing {
    var b := Step(l.b, e);
    l.(b := b, acks := if e.Update? && Acknowledges(OnChannel(UpdateEmits(l.b, e.clocks), id), l.got)
                       then l.acks + {l.got} else l.acks)
  }

  /** A copy is delivered exactly if the receiver moves on to its number. */
  function NextWithData(l: Pairing, n: nat, id: byte): Pairing
    requires n in l.data
  {
    var b := Step(l.b, Arrives(id, l.data[n]));
    if InOf(b, id).remoteSeq != InOf(l.b, id).remoteSeq then l.(b := b, got := n, log := l.log + [n]) else l.(b := b)
  }

  ghost function NextPairing(l: Pairing, h: Happening, id: byte): Pairing
    requires CanHappen(l, h, id)
  {
    match h
    case AtA(e) => NextAtA(l, e, id)
    case AtB(e) => NextAtB(l, e, id)
    case DataToB(n) => NextWithData(l, n, id)
    case AckToA(_, p) => l.(a := Step(l.a, Arrives(id, p)))
  }

  ghost predicate PairingOk(l: Pairing, id: byte) {
    && QueueOk(l.a) && MarkedOk(l.a) && QueueOk(l.b) && MarkedOk(l.b)
    && !Hops.IsReliable(id) && id as nat < l.a.count && id as nat < l.b.count
  }

  // ------------------------------------------------------------------- one channel's share

  lemma {:induction false} IsLatestChannel(s: Sched, id: byte)
    requires MarkedOk(s) && !Hops.IsReliable(id)
    ensures ChannelAt(s, id) == Latest(IsRepeating(id), OutOf(s, id), InOf(s, id))
  {
    if id in s.channels { assert Marked(s.channels[id], id); }
  }

  /** What a step of a peer does to the sending side of the channel. */
  lemma {:induction false} OutSteps(s: Sched, e: Event, id: byte)
    requires QueueOk(s) && MarkedOk(s) && Enabled(s, e) && id as nat < s.count && !Hops.IsReliable(id)
    ensures var out, after := OutOf(s, id), OutOf(Step(s, e), id); var i := PlaceOf(s.sendQueue, id);
            && (e.Send? && e.id == id ==>
                  Takes(ChannelAt(s, id), e.p) && after == out.(outgoing := out.outgoing + [e.p]))
            && (e.Send? && e.id != id ==> after == out)
            && (e.Arrives? && (e.id != id || IsData(e.p)) ==> after == out)
            && (e.Arrives? && e.id == id && !IsData(e.p) ==>
                  after == if e.p.IsFragmented() then out
                           else Sequenced.OutAck(out, IsRepeating(id), e.p.Sequence()))
            && (e.Update? ==>
                  after == if i == |s.sendQueue| then out
                           else Sequenced.OutTick(out, id, IsRepeating(id), e.clocks[i].now, e.clocks[i].later,
                                                  e.clocks[i].delay).0)
  {
    hide Sequenced.OutTick, PlaceOf, QueueOk, MarkedOk, Step;
    ChannelSteps(s, e, id);
    IsLatestChannel(s, id);
    StepMarked(s, e);
    IsLatestChannel(Step(s, e), id);
  }

  /** And to the receiving side. */
  lemma {:induction false} InSteps(s: Sched, e: Event, id: byte)
    requires QueueOk(s) && MarkedOk(s) && Enabled(s, e) && id as nat < s.count && !Hops.IsReliable(id)
    ensures var inc, after := InOf(s, id), InOf(Step(s, e), id); var i := PlaceOf(s.sendQueue, id);
            && (e.Send? ==> after == inc)
            && (e.Arrives? && (e.id != id || !IsData(e.p) || e.p.IsFragmented()) ==> after == inc)
            && (e.Arrives? && e.id == id && IsData(e.p) && !e.p.IsFragmented() ==>
                  after == Sequenced.InData(inc, IsRepeating(id), e.p.Sequence()))
            && (e.Update? ==> after == if i < |s.sendQueue| && IsRepeating(id) then inc.(mustSendAck := false) else inc)
  {
    hide Sequenced.OutTick, Sequenced.Newer, PlaceOf, QueueOk, MarkedOk, Step;
    ChannelSteps(s, e, id);
    IsLatestChannel(s, id);
    StepMarked(s, e);
    IsLatestChannel(Step(s, e), id);
  }

  // ----------------------------------------------------------------- what an update sends

  lemma {:induction false} SentHere(s: Sched, clocks: seq<Clock>, id: byte)
    requires QueueOk(s) && MarkedOk(s) && |clocks| == |s.sendQueue| && id as nat < s.count && !Hops.IsReliable(id)
    ensures InOf(s, id).remoteSeq < MAX_SEQUENCE
    ensures var i := PlaceOf(s.sendQueue, id);
            OnChannel(UpdateEmits(s, clocks), id)
            == if i == |s.sendQueue| then []
               else AllData(Sequenced.OutTick(OutOf(s, id), id, IsRepeating(id), clocks[i].now, clocks[i].later,
                                              clocks[i].delay).1)
                    + if IsRepeating(id) && InOf(s, id).mustSendAck
                      then [Data(Sequenced.AckPacket(id, InOf(s, id).remoteSeq))] else []
  {
    hide Sequenced.OutTick, Sequenced.AckPacket, PlaceOf, MarkedOk, UpdateEmits, OnChannel, HasWork, NoRepeats;
    assert clocks[..|clocks|] == clocks;
    SentOnChannel(s, clocks, |clocks|, id);
    IsLatestChannel(s, id);
    ChannelSteps(s, Update(clocks), id);
  }

  lemma {:induction false} SinglesOfData(ps: seq<SinglePacket>, rest: seq<Emission>)
    requires |rest| <= 1 && forall e :: e in rest ==> !IsSingle(e)
    ensures Singles(AllData(ps) + rest) == ps
    decreases |ps| + |rest|
  {
    var all := AllData(ps) + rest;
    if rest != [] {
      assert all[..|all| - 1] == AllData(ps) + [];
      SinglesOfData(ps, []);
      assert AllData(ps) + [] == AllData(ps);
    } else if ps != [] {
      assert all[..|all| - 1] == AllData(ps[..|ps| - 1]) + [];
      SinglesOfData(ps[..|ps| - 1], []);
      assert all[|all| - 1] == Data(ps[|ps| - 1]);
    }
  }

  /** What peer a sends on the channel is what its tick sends. */
  lemma {:induction false} SinglesAreTick(s: Sched, clocks: seq<Clock>, id: byte)
    requires QueueOk(s) && MarkedOk(s) && |clocks| == |s.sendQueue| && id as nat < s.count && !Hops.IsReliable(id)
    ensures var i := PlaceOf(s.sendQueue, id);
            Singles(OnChannel(UpdateEmits(s, clocks), id))
            == if i == |s.sendQueue| then []
               else Sequenced.OutTick(OutOf(s, id), id, IsRepeating(id), clocks[i].now, clocks[i].later,
                                      clocks[i].delay).1
  {
    hide Sequenced.OutTick, Sequenced.AckPacket, PlaceOf, MarkedOk, QueueOk, UpdateEmits, OnChannel;
    SentHere(s, clocks, id);
    var i, inc := PlaceOf(s.sendQueue, id), InOf(s, id);
    if i < |s.sendQueue| {
      Sequenced.AckPacketReads(id, inc.remoteSeq);
      var ps := Sequenced.OutTick(OutOf(s, id), id, IsRepeating(id), clocks[i].now, clocks[i].later, clocks[i].delay).1;
      var ack := Data(Sequenced.AckPacket(id, inc.remoteSeq));
      SinglesOfData(ps, if IsRepeating(id) && inc.mustSendAck then [ack] else []);
    }
  }

  /** Peer b acknowledges what it got if it owes that, and nothing else. */
  lemma {:induction false} AcknowledgesOwed(s: Sched, clocks: seq<Clock>, id: byte, got: nat)
    requires QueueOk(s) && MarkedOk(s) && |clocks| == |s.sendQueue| && id as nat < s.count && !Hops.IsReliable(id)
    requires InOf(s, id).remoteSeq == Wire(got)
    ensures Acknowledges(OnChannel(UpdateEmits(s, clocks), id), got)
            <==> PlaceOf(s.sendQueue, id) < |s.sendQueue| && IsRepeating(id) && InOf(s, id).mustSendAck
  {
    hide Sequenced.OutTick, Sequenced.AckPacket, PlaceOf, MarkedOk, QueueOk, UpdateEmits, OnChannel, Wire;
    SentHere(s, clocks, id);
    var es, i, inc := OnChannel(UpdateEmits(s, clocks), id), PlaceOf(s.sendQueue, id), InOf(s, id);
    if i < |s.sendQueue| {
      var ack := Sequenced.AckPacket(id, inc.remoteSeq);
      Sequenced.AckPacketReads(id, inc.remoteSeq);
      var ps := Sequenced.OutTick(OutOf(s, id), id, IsRepeating(id), clocks[i].now, clocks[i].later, clocks[i].delay).1;
      if IsRepeating(id) && inc.mustSendAck {
        assert es[|es| - 1] == Data(ack) && IsAck(ack, got);
      } else {
        assert es == AllData(ps);
      }
    }
  }

  // ------------------------------------------------------------------------ the refinement

  /** What the protocol does when this happens. */
  function Act(l: Pairing, h: Happening, id: byte): Option<Sequenced.Event>
    requires h.AtA? && h.e.Send? && h.e.id == id ==> !h.e.p.IsFragmented() && h.e.p.Property() == PROP_CHANNELED
  {
    match h
    case AtA(Send(on, p)) => if on == id then Some(Sequenced.Enqueue(p)) else None
    case AtA(Update(clocks)) =>
      var i := PlaceOf(l.a.sendQueue, id);
      if i < |l.a.sendQueue| && i < |clocks|
      then Some(Sequenced.SenderTicks(clocks[i].now, clocks[i].later, clocks[i].delay)) else None
    case AtB(Update(_)) => if PlaceOf(l.b.sendQueue, id) < |l.b.sendQueue| then Some(Sequenced.ReceiverTicks) else None
    case DataToB(n) => Some(Sequenced.DataArrives(n))
    case AckToA(n, _) => Some(Sequenced.AckArrives(n))
    case _ => None
  }

  /** Whatever happens, the channel makes exactly this step of its protocol. */
  ghost predicate Simulates(l: Pairing, h: Happening, id: byte)
    requires CanHappen(l, h, id)
  {
    && (h.AtA? && h.e.Send? && h.e.id == id ==> !h.e.p.IsFragmented() && h.e.p.Property() == PROP_CHANNELED)
    && var c, d := NetOf(l, id), NetOf(NextPairing(l, h, id), id);
       match Act(l, h, id)
       case Some(act) => Sequenced.Enabled(c, act) && d == Sequenced.Step(c, act, IsRepeating(id), id)
       case None => d == c
  }

  lemma {:induction false} AtAUpdates(l: Pairing, clocks: seq<Clock>, id: byte)
    requires PairingOk(l, id) && CanHappen(l, AtA(Update(clocks)), id)
    ensures Simulates(l, AtA(Update(clocks)), id)
  {
    hide PlaceOf, UpdateEmits, OnChannel, Singles, QueueOk, MarkedOk, Step, Sequenced.OnWire, Sequenced.Number, Wire;
    OutSteps(l.a, Update(clocks), id);
    SinglesAreTick(l.a, clocks, id);
    NothingOnWire(l.data, Sequenced.FirstSent(NetOf(l, id)));
  }

  lemma {:induction false} NothingOnWire(data: map<nat, SinglePacket>, first: nat)
    ensures data + Sequenced.OnWire([], first) == data
  {}

  lemma {:induction false} AtAOtherwise(l: Pairing, e: Event, id: byte)
    requires PairingOk(l, id) && CanHappen(l, AtA(e), id) && !e.Update?
    ensures Simulates(l, AtA(e), id)
  {
    hide PlaceOf, QueueOk, MarkedOk, Step, Sequenced.OutTick, Sequenced.OutAck;
    OutSteps(l.a, e, id);
    IsLatestChannel(l.a, id);
  }

  lemma {:induction false} AtBExactly(l: Pairing, e: Event, id: byte)
    requires PairingOk(l, id) && CanHappen(l, AtB(e), id) && InOf(l.b, id).remoteSeq == Wire(l.got)
    ensures Simulates(l, AtB(e), id)
  {
    hide PlaceOf, UpdateEmits, OnChannel, Acknowledges, QueueOk, MarkedOk, Step, Wire;
    InSteps(l.b, e, id);
    if e.Update? { AcknowledgesOwed(l.b, e.clocks, id, l.got); }
  }

  lemma {:induction false} DataExactly(l: Pairing, n: nat, id: byte)
    requires PairingOk(l, id) && CanHappen(l, DataToB(n), id)
    ensures Simulates(l, DataToB(n), id)
  {
    hide PlaceOf, QueueOk, MarkedOk, Step;
    InSteps(l.b, Arrives(id, l.data[n]), id);
    NewerIsOther(l.data[n].Sequence(), InOf(l.b, id).remoteSeq);
  }

  lemma {:induction false} NewerIsOther(wire: nat, remoteSeq: nat)
    ensures Sequenced.Newer(wire, remoteSeq) ==> wire != remoteSeq
  {}

  lemma {:induction false} AckExactly(l: Pairing, n: nat, p: ChannelPacket, id: byte)
    requires PairingOk(l, id) && CanHappen(l, AckToA(n, p), id)
    ensures Simulates(l, AckToA(n, p), id)
  {
    hide PlaceOf, QueueOk, MarkedOk, Step, Sequenced.OutTick, Wire;
    OutSteps(l.a, Arrives(id, p), id);
  }

  lemma {:induction false} StepExactly(l: Pairing, h: Happening, id: byte)
    requires PairingOk(l, id) && CanHappen(l, h, id) && InOf(l.b, id).remoteSeq == Wire(l.got)
    ensures Simulates(l, h, id)
  {
    hide PairingOk, CanHappen, Simulates, Step, Wire;
    match h
    case AtA(e) =>
      if e.Update? { AtAUpdates(l, e.clocks, id); } else { AtAOtherwise(l, e, id); }
    case AtB(e) => AtBExactly(l, e, id);
    case DataToB(n) => DataExactly(l, n, id);
    case AckToA(n, p) => AckExactly(l, n, p, id);
  }

  ghost predicate PairingRun(ls: seq<Pairing>, hs: seq<Happening>, id: byte) {
    && |ls| == |hs| + 1
    && ls[0] == Pairing(Initial(ls[0].a.count), Initial(ls[0].b.count), [], 0, 0, [], map[], {})
    && !Hops.IsReliable(id) && id as nat < ls[0].a.count && id as nat < ls[0].b.count
    && forall i :: 0 <= i < |hs| ==> CanHappen(ls[i], hs[i], id) && ls[i + 1] == NextPairing(ls[i], hs[i], id)
  }

  lemma {:induction false} PairingStart(l: Pairing, id: byte)
    requires l == Pairing(Initial(l.a.count), Initial(l.b.count), [], 0, 0, [], map[], {})
    requires !Hops.IsReliable(id) && id as nat < l.a.count && id as nat < l.b.count
    ensures PairingOk(l, id) && NetOf(l, id) == Sequenced.INITIAL
  {}

  lemma {:induction false} PairingStaysOk(l: Pairing, h: Happening, id: byte)
    requires PairingOk(l, id) && CanHappen(l, h, id)
    ensures PairingOk(NextPairing(l, h, id), id)
  {
    hide QueueOk, MarkedOk, Step, UpdateEmits, OnChannel, Singles, Acknowledges;
    match h
    case AtA(e) => PeerStaysOk(l.a, e);
    case AtB(e) => PeerStaysOk(l.b, e);
    case DataToB(n) => PeerStaysOk(l.b, Arrives(id, l.data[n]));
    case AckToA(_, p) => PeerStaysOk(l.a, Arrives(id, p));
  }

  /** In every run of two peers, whatever their other channels do, each sequenced channel is in a
      state that its protocol can reach, and every step is one of the protocol's or none. */
  lemma {:induction false} ChannelRefines(ls: seq<Pairing>, hs: seq<Happening>, id: byte, i: nat)
    requires PairingRun(ls, hs, id) && i < |ls|
    ensures PairingOk(ls[i], id) && Sequenced.SequencedReachable(NetOf(ls[i], id), IsRepeating(id), id)
    ensures i < |hs| ==> CanHappen(ls[i], hs[i], id) && Simulates(ls[i], hs[i], id)
  {
    hide Sequenced.SequencedReachable, Sequenced.SenderInv, Sequenced.Step, PairingOk, NextPairing, CanHappen, Act;
    if i == 0 {
      PairingStart(ls[0], id);
      Sequenced.InitialReachable(IsRepeating(id), id);
    } else {
      ChannelRefines(ls, hs, id, i - 1);
      PairingStaysOk(ls[i - 1], hs[i - 1], id);
      if act: Sequenced.Event :| Act(ls[i - 1], hs[i - 1], id) == Some(act) {
        Sequenced.ReachableStep(NetOf(ls[i - 1], id), act, IsRepeating(id), id);
      }
    }
    if i < |hs| {
      Sequenced.ReachableInv(NetOf(ls[i], id), IsRepeating(id), id);
      StepExactly(ls[i], hs[i], id);
    }
  }
}
