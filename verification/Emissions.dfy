/** What a peer sends is told apart by channel: every packet carries the id of the channel that
    sent it, so what is sent on a channel is exactly what that channel sends. */
module Emissions {
  import opened Bits
  import opened Sequences
  import opened Packets
  import opened Options
  import opened ReliableModel
  import opened ChannelRep
  import opened SendQueues
  import Hops
  import Sequenced

  /** The channel an emission belongs to, as the other side reads it. */
  function ChannelOf(e: Emission): nat {
    match e
    case Data(p) => p.ChannelID()
    case Report(id, _) => id as nat
  }

  /** The kind of a channel is part of its id, and all it keeps for sending carries that id. */
  ghost predicate Marked(ch: Chan, id: byte) {
    match ch
    case Reliable(ordered, snd, _) =>
      && Hops.IsReliable(id) && (ordered <==> Hops.IsOrdered(id))
      && forall n :: n in snd.pending ==> snd.pending[n].pkt.ChannelID() == id as nat
    case Latest(reliable, out, _) =>
      && !Hops.IsReliable(id) && (reliable <==> id % 4 == 3)
      && (out.last.Some? ==> out.last.value.ChannelID() == id as nat)
  }

  ghost predicate MarkedOk(s: Sched) {
    forall id :: id in s.channels ==> Marked(s.channels[id], id)
  }

  // ---------------------------------------------------------------------- one channel

  lemma {:induction false} NewIsMarked(id: byte)
    ensures Marked(NewChannel(id), id)
  {}

  lemma {:induction false} WithPacketMarked(ch: Chan, id: byte, p: ChannelPacket)
    requires ChanOk(ch) && Takes(ch, p) && Marked(ch, id)
    ensures Marked(WithPacket(ch, p), id)
  {}

  lemma {:induction false} HearMarked(ch: Chan, id: byte, p: ChannelPacket)
    requires ChanOk(ch) && Marked(ch, id)
    ensures Marked(Hear(ch, p).0, id)
  {
    hide Reconstruct, PacketArrives, SlotBits, Advance;
  }

  lemma {:induction false} NumberedId(p: Sequenced.SinglePacket, n: nat, id: byte)
    ensures Sequenced.Number(p, n, id).ChannelID() == id as nat
  {
    hide Wire, Stamp;
    StampFields(p, n, id);
  }

  lemma {:induction false} TickMarked(s: Sender, id: byte, now: int, delay: int)
    requires SenderOk(s) && forall n :: n in s.pending ==> s.pending[n].pkt.ChannelID() == id as nat
    ensures forall n :: n in SendTick(s, id, now, delay).pending ==>
                      SendTick(s, id, now, delay).pending[n].pkt.ChannelID() == id as nat
    ensures forall p :: p in TickPackets(s, id, now, delay) ==> p.ChannelID() == id as nat
  {
    hide Stamp, DuePackets;
    var f := Fill(s, id);
    forall n | n in f.pending
      ensures f.pending[n].pkt.ChannelID() == id as nat
    {
      if n !in s.pending {
        assert f.pending[n] == Fresh(s.outgoing, s.next, n, id);
        StampFields(s.outgoing[n - s.next], n, id);
      }
    }
    forall p | p in TickPackets(s, id, now, delay)
      ensures p.ChannelID() == id as nat
    {
      DueIsSent(f.pending, f.window, f.next, now, delay, p);
    }
  }

  lemma {:induction false} OutTickMarked(o: Sequenced.Out, id: byte, reliable: bool, c: Clock)
    requires o.last.Some? ==> o.last.value.ChannelID() == id as nat
    ensures var (after, ps) := Sequenced.OutTick(o, id, reliable, c.now, c.later, c.delay);
            && (after.last.Some? ==> after.last.value.ChannelID() == id as nat)
            && forall p :: p in ps ==> p.ChannelID() == id as nat
  {
    hide Sequenced.Number, Sequenced.AllNumbered, Wire;
    var all := Sequenced.AllNumbered(o.outgoing, o.localSequence, id);
    forall i | 0 <= i < |all|
      ensures all[i].ChannelID() == id as nat
    {
      Sequenced.AllNumberedAt(o.outgoing, o.localSequence, i, id);
      NumberedId(o.outgoing[i], o.localSequence + 1 + i, id);
    }
  }

  lemma {:induction false} VisitMarked(ch: Chan, id: byte, c: Clock)
    requires ChanOk(ch) && Marked(ch, id)
    ensures Marked(Visit(ch, id, c).0, id)
    ensures forall e :: e in VisitSends(ch, id, c) ==> ChannelOf(e) == id as nat
  {
    hide SendTick, TickPackets, Sequenced.OutTick, Sequenced.AckPacket;
    match ch
    case Reliable(_, snd, _) => TickMarked(snd, id, c.now, c.delay);
    case Latest(reliable, out, inc) =>
      OutTickMarked(out, id, reliable, c);
      Sequenced.AckPacketReads(id, inc.remoteSeq);
  }

  // ------------------------------------------------------------------------- one update

  /** What is sent on a channel. */
  function OnChannel(es: seq<Emission>, id: byte): seq<Emission> {
    if es == [] then []
    else OnChannel(es[..|es| - 1], id) + if ChannelOf(es[|es| - 1]) == id as nat then [es[|es| - 1]] else []
  }

  lemma {:induction false} OnChannelConcat(a: seq<Emission>, b: seq<Emission>, id: byte)
    ensures OnChannel(a + b, id) == OnChannel(a, id) + OnChannel(b, id)
    decreases |b|
  {
    if b == [] {
      assert a + b == a;
    } else {
      var last := |b| - 1;
      OnChannelConcat(a, b[..last], id);
      assert (a + b)[..|a + b| - 1] == a + b[..last] && (a + b)[|a + b| - 1] == b[last];
    }
  }

  lemma {:induction false} OnChannelAll(es: seq<Emission>, id: byte, own: byte)
    requires forall e :: e in es ==> ChannelOf(e) == own as nat
    ensures OnChannel(es, id) == if own == id then es else []
    decreases |es|
  {
    if es != [] {
      OnChannelAll(es[..|es| - 1], id, own);
      assert es[|es| - 1] in es;
    }
  }

  lemma {:induction false} InOnChannel(es: seq<Emission>, id: byte, e: Emission)
    ensures e in OnChannel(es, id) <==> e in es && ChannelOf(e) == id as nat
  {
    if es != [] {
      InOnChannel(es[..|es| - 1], id, e);
      assert e in es <==> e in es[..|es| - 1] || e == es[|es| - 1];
    }
  }

  /** What the channel at position i of the queue sends in an update. */
  function SentFrom(s: Sched, clocks: seq<Clock>, i: nat): seq<Emission>
    requires i < |clocks| && i < |s.sendQueue|
  {
    SendsAt(s, s.sendQueue[i], clocks[i])
  }

  /** The position of a channel in the queue, or its length. */
  function PlaceOf(q: seq<byte>, id: byte): (i: nat)
    ensures i <= |q| && (i < |q| ==> q[i] == id) && (id in q ==> i < |q|)
  {
    if q == [] then 0
    else
      var i := PlaceOf(q[..|q| - 1], id);
      if i < |q| - 1 then i else if q[|q| - 1] == id then |q| - 1 else |q|
  }

  /** An update sends on each channel exactly what that channel sends. */
  lemma {:induction false} SentOnChannel(s: Sched, clocks: seq<Clock>, k: nat, id: byte)
    requires QueueOk(s) && MarkedOk(s) && k <= |clocks| && k <= |s.sendQueue|
    ensures var i := PlaceOf(s.sendQueue, id);
            OnChannel(UpdateEmits(s, clocks[..k]), id) == if i < k then SentFrom(s, clocks, i) else []
  {
    hide VisitSends, ChanOk, HasWork, Marked, PlaceOf;
    if k == 0 {
      assert clocks[..0] == [];
    } else {
      var own := s.sendQueue[k - 1];
      SentOnChannel(s, clocks, k - 1, id);
      assert clocks[..k][..k - 1] == clocks[..k - 1];
      VisitMarked(s.channels[own], own, clocks[k - 1]);
      OnChannelConcat(UpdateEmits(s, clocks[..k - 1]), SentFrom(s, clocks, k - 1), id);
      OnChannelAll(SentFrom(s, clocks, k - 1), id, own);
      OnePlace(s.sendQueue, id, k - 1);
    }
  }

  lemma {:induction false} OnePlace(q: seq<byte>, id: byte, k: nat)
    requires NoRepeats(q) && k < |q|
    ensures PlaceOf(q, id) == k <==> q[k] == id
  {
    hide PlaceOf;
  }

  lemma {:induction false} StepMarked(s: Sched, e: Event)
    requires QueueOk(s) && MarkedOk(s) && Enabled(s, e)
    ensures MarkedOk(Step(s, e))
  {
    hide Marked, Hear, WithPacket, Visit, NewChannel, ChanOk, HasWork, NoRepeats;
    match e
    case Send(id, p) =>
      NewIsMarked(id);
      if id as nat < s.count { WithPacketMarked(ChannelAt(s, id), id, p); }
    case Arrives(id, p) =>
      NewIsMarked(id);
      if ChanOk(ChannelAt(s, id)) { HearMarked(ChannelAt(s, id), id, p); }
    case Update(clocks) =>
      UpdateVisitsEach(s, clocks);
      forall id | id in s.channels
        ensures Marked(Step(s, e).channels[id], id)
      {
        VisitedMarked(s, clocks, id);
      }
  }

  lemma {:induction false} VisitedMarked(s: Sched, clocks: seq<Clock>, id: byte)
    requires QueueOk(s) && MarkedOk(s) && |clocks| == |s.sendQueue| && id in s.channels
    ensures id in Step(s, Update(clocks)).channels && Marked(Step(s, Update(clocks)).channels[id], id)
  {
    hide Marked, Visit, ChanOk, HasWork, NoRepeats, Visits;
    UpdateVisitsEach(s, clocks);
    var i := PlaceOf(s.sendQueue, id);
    if i < |s.sendQueue| {
      VisitMarked(s.channels[id], id, clocks[i]);
    }
  }

  /** In every run, what a peer keeps and sends on a channel carries the id of that channel. */
  lemma {:induction false} AlwaysMarked(ss: seq<Sched>, es: seq<Event>, i: nat)
    requires Run(ss, es) && i < |ss|
    ensures QueueOk(ss[i]) && MarkedOk(ss[i])
  {
    hide QueueOk, Step, Enabled, Marked;
    NoLostWakeUp(ss, es, i);
    if i > 0 {
      AlwaysMarked(ss, es, i - 1);
      StepMarked(ss[i - 1], es[i - 1]);
    }
  }

  // ------------------------------------------------------------------- one channel's share

  /** What a step of a peer does to one of its channels. */
  ghost predicate ChannelLaw(s: Sched, t: Sched, e: Event, id: byte)
    requires ChanOk(ChannelAt(s, id))
  {
    var ch := ChannelAt(s, id);
    match e
    case Send(on, p) =>
      Takes(ch, p) || on != id ==> ChannelAt(t, id) == if on == id then WithPacket(ch, p) else ch
    case Arrives(on, p) =>
      ChannelAt(t, id) == if on == id && (id in s.channels || IsData(p)) then Hear(ch, p).0 else ch
    case Update(clocks) =>
      var i := PlaceOf(s.sendQueue, id);
      i < |s.sendQueue| ==> i < |clocks| && ChannelAt(t, id) == Visit(ch, id, clocks[i]).0
  }

  lemma {:induction false} ChannelSteps(s: Sched, e: Event, id: byte)
    requires QueueOk(s) && Enabled(s, e) && id as nat < s.count
    ensures ChanOk(ChannelAt(s, id)) && ChannelLaw(s, Step(s, e), e, id)
    ensures e.Update? && PlaceOf(s.sendQueue, id) == |s.sendQueue| ==> ChannelAt(Step(s, e), id) == ChannelAt(s, id)
  {
    hide Hear, WithPacket, Visit, NewChannel, ChanOk, HasWork, NoRepeats, Takes, Visits, PlaceOf;
    match e
    case Update(clocks) => UpdateVisitsEach(s, clocks);
    case _ =>
  }

  lemma {:induction false} StepKeepsCount(s: Sched, e: Event)
    ensures Step(s, e).count == s.count
  {
    hide ChanOk, Hear, Takes, Visits;
    if e.Update? { VisitsKeepCount(s, e.clocks); }
  }

  lemma {:induction false} VisitsKeepCount(s: Sched, clocks: seq<Clock>)
    ensures Visits(s, clocks).count == s.count
    decreases |clocks|
  {
    hide ChanOk, Visit;
    if clocks != [] { VisitsKeepCount(s, clocks[..|clocks| - 1]); }
  }

  lemma {:induction false} PeerStaysOk(s: Sched, e: Event)
    requires QueueOk(s) && MarkedOk(s) && Enabled(s, e)
    ensures var t := Step(s, e); QueueOk(t) && MarkedOk(t) && t.count == s.count
  {
    hide QueueOk, MarkedOk, Step, Enabled;
    StepKeepsOk(s, e);
    StepMarked(s, e);
    StepKeepsCount(s, e);
  }
}
