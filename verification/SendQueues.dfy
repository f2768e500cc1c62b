/** The send queue of a peer: channels that have something to send, each listed once, visited
    in turn by every update. */
module SendQueues {
  import opened Bits
  import opened Sequences
  import opened Packets
  import opened Options
  import opened ReliableModel
  import opened ChannelRep
  import Sequenced

  // ----------------------------------------------------------------------- the channels

  datatype Chan =
    | Reliable(ordered: bool, snd: Sender, rcv: Receiver)
    | Latest(reliable: bool, out: Sequenced.Out, inc: Sequenced.In)

  /** The readings of the clock during one visit, and the resend delay. */
  datatype Clock = Clock(now: int, later: int, delay: int)

  function NewChannel(id: byte): (ch: Chan)
    ensures ChanOk(ch) && !HasWork(ch)
  {
    if id % 4 == 0 || id % 4 == 2 then Reliable(id % 4 == 2, EMPTY_SENDER, EMPTY_RECEIVER)
    else Latest(id % 4 == 3, Sequenced.Out(0, None, 0, []), Sequenced.In(0, false))
  }

  predicate ChanOk(ch: Chan) {
    match ch
    case Reliable(_, snd, _) => SenderOk(snd)
    case Latest(reliable, out, inc) =>
      inc.remoteSeq < MAX_SEQUENCE && (!reliable ==> out.last == None && !inc.mustSendAck)
  }

  /** Something is queued, waits for an acknowledgement, or has to be acknowledged. */
  predicate HasWork(ch: Chan) {
    match ch
    case Reliable(_, snd, rcv) => snd.outgoing != [] || snd.pending != map[] || rcv.ackDue
    case Latest(_, out, inc) => out.outgoing != [] || out.last.Some? || inc.mustSendAck
  }

  predicate Takes(ch: Chan, p: ChannelPacket) {
    ch.Latest? ==> !p.IsFragmented() && p.Property() == PROP_CHANNELED
  }

  /** A packet is queued on the channel. */
  function WithPacket(ch: Chan, p: ChannelPacket): (r: Chan)
    requires ChanOk(ch) && Takes(ch, p)
    ensures ChanOk(r) && HasWork(r)
  {
    match ch
    case Reliable(_, snd, _) => ch.(snd := snd.(outgoing := snd.outgoing + [p]))
    case Latest(_, out, _) => ch.(out := out.(outgoing := out.outgoing + [p]))
  }

  predicate IsData(p: ChannelPacket) { p.Property() != PROP_ACK }

  /** A packet arrives: the channel after it, and whether it asks to be queued. */
  function Hear(ch: Chan, p: ChannelPacket): (Chan, bool)
    requires ChanOk(ch)
  {
    match ch
    case Reliable(ordered, snd, rcv) =>
      if IsData(p) then
        (ch.(rcv := PacketArrives(rcv, ordered, p)),
         p.Sequence() < MAX_SEQUENCE && Receivable(rcv, Reconstruct(rcv.window, p.Sequence())))
      else if p.Size() == ACK_PACKET_SIZE then (ch.(snd := AckArrives(snd, p.Sequence(), SlotBits(p.data))), false)
      else (ch, false)
    case Latest(reliable, out, inc) =>
      if p.IsFragmented() then (ch, false)
      else if IsData(p) then (ch.(inc := Sequenced.InData(inc, reliable, p.Sequence())), reliable)
      else (ch.(out := Sequenced.OutAck(out, reliable, p.Sequence())), false)
  }

  lemma {:induction false} HearKeepsOk(ch: Chan, p: ChannelPacket)
    requires ChanOk(ch)
    ensures ChanOk(Hear(ch, p).0)
    ensures HasWork(Hear(ch, p).0) ==> HasWork(ch) || Hear(ch, p).1
  {
    hide Reconstruct, Mex, Range, Advance, SlotBits;
  }

  /** The channel has to acknowledge something. */
  predicate Owes(ch: Chan) {
    match ch
    case Reliable(_, _, rcv) => rcv.ackDue
    case Latest(_, _, inc) => inc.mustSendAck
  }

  /** The channel as if it had acknowledged everything. */
  function Settled(ch: Chan): Chan {
    match ch
    case Reliable(_, _, rcv) => ch.(rcv := rcv.(ackDue := false))
    case Latest(_, _, inc) => ch.(inc := inc.(mustSendAck := false))
  }

  /** A packet makes its channel ask for a visit exactly if there is now something to acknowledge
      because of it. */
  lemma {:induction false} WakesExactly(ch: Chan, p: ChannelPacket)
    requires ChanOk(ch)
    ensures Hear(ch, p).1 <==> Owes(Hear(Settled(ch), p).0)
  {
    hide Reconstruct, Mex, Range, Advance, SlotBits;
  }

  /** A visit: the channel after it, and whether it wants to be visited again. */
  function Visit(ch: Chan, id: byte, c: Clock): (Chan, bool)
    requires ChanOk(ch)
  {
    match ch
    case Reliable(_, snd, rcv) =>
      var after := SendTick(snd, id, c.now, c.delay);
      (ch.(snd := after, rcv := rcv.(ackDue := false)), after.pending != map[] || after.outgoing != [])
    case Latest(reliable, out, inc) =>
      var after := Sequenced.OutTick(out, id, reliable, c.now, c.later, c.delay).0;
      (ch.(out := after, inc := inc.(mustSendAck := inc.mustSendAck && !reliable)), after.last.Some?)
  }

  /** A channel asks to be visited again exactly if it has work left. */
  lemma {:induction false} VisitExact(ch: Chan, id: byte, c: Clock)
    requires ChanOk(ch)
    ensures ChanOk(Visit(ch, id, c).0)
    ensures Visit(ch, id, c).1 <==> HasWork(Visit(ch, id, c).0)
  {
    hide Wire, Fill, TouchAll;
  }

  /** What a channel sends: a packet, or the report of what a reliable channel has received,
      which the channel keeps as a packet of its own. */
  datatype Emission = Data(p: ChannelPacket) | Report(id: byte, ack: Ack)

  function AllData(ps: seq<ChannelPacket>): (r: seq<Emission>)
    ensures |r| == |ps| && forall i :: 0 <= i < |ps| ==> r[i] == Data(ps[i])
  {
    seq(|ps|, i requires 0 <= i < |ps| => Data(ps[i]))
  }

  /** What a channel sends when it is visited. */
  function VisitSends(ch: Chan, id: byte, c: Clock): seq<Emission>
    requires ChanOk(ch)
  {
    match ch
    case Reliable(_, snd, rcv) =>
      (if rcv.ackDue then [Report(id, AckOf(rcv))] else []) + AllData(TickPackets(snd, id, c.now, c.delay))
    case Latest(reliable, out, inc) =>
      AllData(Sequenced.OutTick(out, id, reliable, c.now, c.later, c.delay).1)
      + if reliable && inc.mustSendAck then [Data(Sequenced.AckPacket(id, inc.remoteSeq))] else []
  }

  // ------------------------------------------------------------------------- scheduling

  /** `count` channels can exist: those with a smaller id. */
  datatype Sched = Sched(count: nat, channels: map<byte, Chan>, sendQueue: seq<byte>, inQueue: set<byte>)

  ghost predicate NoRepeats(q: seq<byte>) {
    forall i, j :: 0 <= i < j < |q| ==> q[i] != q[j]
  }

  ghost predicate ChannelsOk(channels: map<byte, Chan>) {
    forall id :: id in channels ==> ChanOk(channels[id])
  }

  /** The flags say exactly who is queued, nobody is queued twice, and nobody with work is
      left out. */
  ghost predicate QueueOk(s: Sched) {
    && ChannelsOk(s.channels)
    && (forall id :: id in s.channels ==> id as nat < s.count)
    && NoRepeats(s.sendQueue)
    && (forall id :: id in s.inQueue <==> id in s.sendQueue)
    && (forall id :: id in s.sendQueue ==> id in s.channels)
    && (forall id :: id in s.channels && HasWork(s.channels[id]) ==> id in s.sendQueue)
  }

  function Initial(count: nat): Sched { Sched(count, map[], [], {}) }

  function Enqueued(s: Sched, id: byte): Sched {
    if id in s.inQueue then s else s.(inQueue := s.inQueue + {id}, sendQueue := s.sendQueue + [id])
  }

  function ChannelAt(s: Sched, id: byte): Chan {
    if id in s.channels then s.channels[id] else NewChannel(id)
  }

  datatype Event =
    | Send(id: byte, p: ChannelPacket)
    | Arrives(id: byte, p: ChannelPacket)
    | Update(clocks: seq<Clock>)

  ghost predicate Enabled(s: Sched, e: Event) {
    match e
    case Send(id, p) => id as nat < s.count ==> Takes(ChannelAt(s, id), p)
    case Arrives(_, _) => true
    case Update(clocks) => |clocks| == |s.sendQueue|
  }

  /** The first channel of the queue is visited. */
  function VisitFirst(s: Sched, c: Clock): Sched {
    if s.sendQueue == [] || s.sendQueue[0] !in s.channels || !ChanOk(s.channels[s.sendQueue[0]]) then s
    else
      var id := s.sendQueue[0];
      var (after, more) := Visit(s.channels[id], id, c);
      s.(channels := s.channels[id := after],
         sendQueue := s.sendQueue[1..] + if more then [id] else [],
         inQueue := if more then s.inQueue else s.inQueue - {id})
  }

  function Visits(s: Sched, clocks: seq<Clock>): Sched {
    if clocks == [] then s else VisitFirst(Visits(s, clocks[..|clocks| - 1]), clocks[|clocks| - 1])
  }

  function Step(s: Sched, e: Event): Sched {
    match e
    case Send(id, p) =>
      var ch := ChannelAt(s, id);
      if id as nat >= s.count || !ChanOk(ch) || !Takes(ch, p) then s
      else Enqueued(s.(channels := s.channels[id := WithPacket(ch, p)]), id)
    case Arrives(id, p) =>
      var ch := ChannelAt(s, id);
      if id as nat >= s.count || !ChanOk(ch) || (id !in s.channels && !IsData(p)) then s
      else
        var (after, wake) := Hear(ch, p);
        var t := s.(channels := s.channels[id := after]);
        if wake then Enqueued(t, id) else t
    case Update(clocks) => Visits(s, clocks)
  }

  lemma {:induction false} AppendNoRepeats(q: seq<byte>, id: byte)
    requires NoRepeats(q) && id !in q
    ensures NoRepeats(q + [id]) && forall x :: x in q + [id] <==> x in q || x == id
  {}

  /** Putting one channel in a new state and, if it then has work, on the queue. */
  lemma {:induction false} ChangeKeepsOk(s: Sched, id: byte, ch: Chan, wake: bool)
    requires QueueOk(s) && id as nat < s.count && ChanOk(ch) && (HasWork(ch) ==> wake || id in s.sendQueue)
    ensures var t := s.(channels := s.channels[id := ch]); QueueOk(if wake then Enqueued(t, id) else t)
  {
    hide ChanOk, HasWork;
    if id !in s.sendQueue { AppendNoRepeats(s.sendQueue, id); }
  }

  lemma {:induction false} VisitFirstKeepsOk(s: Sched, c: Clock)
    requires QueueOk(s)
    ensures QueueOk(VisitFirst(s, c))
  {
    hide ChanOk, HasWork, Visit;
    if s.sendQueue != [] {
      var id, rest := s.sendQueue[0], s.sendQueue[1..];
      VisitExact(s.channels[id], id, c);
      HeadOut(s.sendQueue);
      AppendNoRepeats(rest, id);
    }
  }

  lemma {:induction false} HeadOut(q: seq<byte>)
    requires NoRepeats(q) && q != []
    ensures NoRepeats(q[1..]) && q[0] !in q[1..] && forall x :: x in q <==> x == q[0] || x in q[1..]
  {
    assert q == [q[0]] + q[1..];
  }

  lemma {:induction false} VisitsKeepOk(s: Sched, clocks: seq<Clock>)
    requires QueueOk(s)
    ensures QueueOk(Visits(s, clocks))
    decreases |clocks|
  {
    hide QueueOk, VisitFirst;
    if clocks != [] {
      VisitsKeepOk(s, clocks[..|clocks| - 1]);
      VisitFirstKeepsOk(Visits(s, clocks[..|clocks| - 1]), clocks[|clocks| - 1]);
    }
  }

  lemma {:induction false} StepKeepsOk(s: Sched, e: Event)
    requires QueueOk(s) && Enabled(s, e)
    ensures QueueOk(Step(s, e))
  {
    hide HasWork, Hear, WithPacket, NewChannel, ChanOk, NoRepeats;
    match e
    case Send(id, p) =>
      if id as nat < s.count { ChangeKeepsOk(s, id, WithPacket(ChannelAt(s, id), p), true); }
    case Arrives(id, p) =>
      HearKeepsOk(ChannelAt(s, id), p);
      if id as nat < s.count { ChangeKeepsOk(s, id, Hear(ChannelAt(s, id), p).0, Hear(ChannelAt(s, id), p).1); }
    case Update(clocks) =>
      VisitsKeepOk(s, clocks);
  }

  ghost predicate Run(ss: seq<Sched>, es: seq<Event>) {
    && |ss| == |es| + 1 && ss[0] == Initial(ss[0].count)
    && forall i :: 0 <= i < |es| ==> Enabled(ss[i], es[i]) && ss[i + 1] == Step(ss[i], es[i])
  }

  /** No wake-up is ever lost: in every reachable state the queue has no repetition, the flags
      agree with it, and every channel with work is in it. */
  lemma {:induction false} NoLostWakeUp(ss: seq<Sched>, es: seq<Event>, i: nat)
    requires Run(ss, es) && i < |ss|
    ensures QueueOk(ss[i])
  {
    hide Step, Enabled;
    if i > 0 {
      NoLostWakeUp(ss, es, i - 1);
      StepKeepsOk(ss[i - 1], es[i - 1]);
    }
  }

  // ------------------------------------------------------------------------ one update

  /** The first k channels of the queue have been visited and the others not. */
  ghost predicate VisitedChannels(s: Sched, t: Sched, clocks: seq<Clock>, k: nat, kept: seq<byte>)
    requires ChannelsOk(s.channels)
  {
    && k <= |s.sendQueue| && k <= |clocks|
    && t.channels.Keys == s.channels.Keys
    && (forall i :: 0 <= i < k && s.sendQueue[i] in s.channels ==>
          var id := s.sendQueue[i];
          t.channels[id] == Visit(s.channels[id], id, clocks[i]).0 && (id in kept <==> HasWork(t.channels[id])))
    && (forall id :: id in s.channels && id !in s.sendQueue[..k] ==> t.channels[id] == s.channels[id])
    && (forall id :: id in kept ==> id in s.sendQueue[..k])
  }

  /** The state after the first k visits of an update. */
  ghost predicate Visited(s: Sched, t: Sched, clocks: seq<Clock>, k: nat, kept: seq<byte>)
    requires ChannelsOk(s.channels)
  {
    k <= |s.sendQueue| && t.sendQueue == s.sendQueue[k..] + kept && VisitedChannels(s, t, clocks, k, kept)
  }

  lemma {:induction false} VisitedThroughout(s: Sched, clocks: seq<Clock>, k: nat) returns (kept: seq<byte>)
    requires QueueOk(s) && k <= |s.sendQueue| && k <= |clocks|
    ensures Visited(s, Visits(s, clocks[..k]), clocks, k, kept)
  {
    hide HasWork, Visit, ChanOk;
    if k == 0 {
      kept := [];
    } else {
      var before := VisitedThroughout(s, clocks, k - 1);
      assert clocks[..k][..k - 1] == clocks[..k - 1];
      kept := VisitedStep(s, Visits(s, clocks[..k - 1]), clocks, k - 1, before);
    }
  }

  lemma {:induction false} VisitedStep(s: Sched, t: Sched, clocks: seq<Clock>, k: nat, before: seq<byte>)
    returns (kept: seq<byte>)
    requires QueueOk(s) && k < |s.sendQueue| && k < |clocks| && Visited(s, t, clocks, k, before)
    ensures Visited(s, VisitFirst(t, clocks[k]), clocks, k + 1, kept)
  {
    hide HasWork, Visit, ChanOk, VisitFirst, ChannelsOk, VisitedChannels;
    var visit := NextVisit(s, t, clocks, k, before);
    var id := s.sendQueue[k];
    kept := before + if visit.1 then [id] else [];
    assert s.sendQueue[k..] == [id] + s.sendQueue[k + 1..];
    ChannelsStep(s, t, clocks, k, before, VisitFirst(t, clocks[k]), visit);
  }

  lemma {:induction false} ChannelsStep(s: Sched, t: Sched, clocks: seq<Clock>, k: nat, before: seq<byte>, u: Sched,
                                        visit: (Chan, bool))
    requires ChannelsOk(s.channels) && k < |s.sendQueue| && k < |clocks| && VisitedChannels(s, t, clocks, k, before)
    requires var id := s.sendQueue[k];
             && id in s.channels && id !in s.sendQueue[..k] && visit == Visit(s.channels[id], id, clocks[k])
             && (visit.1 <==> HasWork(visit.0)) && u.channels == t.channels[id := visit.0]
    ensures VisitedChannels(s, u, clocks, k + 1, before + if visit.1 then [s.sendQueue[k]] else [])
  {
    hide HasWork, Visit, ChanOk;
    var q, id, next := s.sendQueue, s.sendQueue[k], k + 1;
    assert q[..next] == q[..k] + [id];
    forall i | 0 <= i < k
      ensures q[i] != id
    {
      assert q[..k][i] == q[i];
    }
  }

  /** The visit that comes next. */
  lemma {:induction false} NextVisit(s: Sched, t: Sched, clocks: seq<Clock>, k: nat, before: seq<byte>)
    returns (r: (Chan, bool))
    requires QueueOk(s) && k < |s.sendQueue| && k < |clocks| && Visited(s, t, clocks, k, before)
    ensures var id := s.sendQueue[k]; var u := VisitFirst(t, clocks[k]);
            && id in s.channels && ChanOk(s.channels[id]) && r == Visit(s.channels[id], id, clocks[k])
            && (r.1 <==> HasWork(r.0)) && id !in s.sendQueue[..k]
            && u.channels == t.channels[id := r.0]
            && t.sendQueue != [] && u.sendQueue == t.sendQueue[1..] + if r.1 then [id] else []
  {
    hide HasWork, Visit, ChanOk;
    var id := s.sendQueue[k];
    assert id !in s.sendQueue[..k] && t.sendQueue[0] == id;
    VisitExact(s.channels[id], id, clocks[k]);
    r := Visit(s.channels[id], id, clocks[k]);
  }

  /** What the visits of one update send: every queued channel once, in the order of the queue,
      each as it was before the update. */
  function UpdateEmits(s: Sched, clocks: seq<Clock>): seq<Emission>
    decreases |clocks|
  {
    if clocks == [] then []
    else
      var last := |clocks| - 1;
      UpdateEmits(s, clocks[..last])
      + if last < |s.sendQueue| then SendsAt(s, s.sendQueue[last], clocks[last]) else []
  }

  function SendsAt(s: Sched, id: byte, c: Clock): seq<Emission> {
    if id in s.channels && ChanOk(s.channels[id]) then VisitSends(s.channels[id], id, c) else []
  }

  /** One update visits every channel that was queued exactly once and no other, and leaves
      queued exactly those with work left. */
  lemma {:induction false} UpdateVisitsEach(s: Sched, clocks: seq<Clock>)
    requires QueueOk(s) && |clocks| == |s.sendQueue|
    ensures var t := Step(s, Update(clocks));
            && t.channels.Keys == s.channels.Keys
            && (forall i :: 0 <= i < |s.sendQueue| ==>
                  var id := s.sendQueue[i]; t.channels[id] == Visit(s.channels[id], id, clocks[i]).0)
            && (forall id :: id in s.channels && id !in s.sendQueue ==> t.channels[id] == s.channels[id])
            && (forall id :: id in t.sendQueue <==> id in t.channels && HasWork(t.channels[id]))
  {
    hide HasWork, Visit, ChanOk, NoRepeats;
    var n := |s.sendQueue|;
    var kept := VisitedThroughout(s, clocks, n);
    assert clocks[..n] == clocks && s.sendQueue[..n] == s.sendQueue && s.sendQueue[n..] == [];
    var t := Step(s, Update(clocks));
    assert t.sendQueue == kept;
    VisitsKeepOk(s, clocks);
  }

  // --------------------------------------------------------------------- the code itself

  class ScheduledPeer {
    const count: nat
    var channels: map<byte, Chan>
    var sendQueue: seq<byte>
    var inQueue: set<byte>

    function State(): Sched
      reads this
    {
      Sched(count, channels, sendQueue, inQueue)
    }

    constructor (count: nat)
      ensures this.count == count && State() == Initial(count)
    {
      this.count := count;
      channels, sendQueue, inQueue := map[], [], {};
    }

    method EnqueueChannel(id: byte)
      modifies this`sendQueue, this`inQueue
      ensures State() == Enqueued(old(State()), id)
    {
      if id in inQueue {
        return;
      }
      inQueue := inQueue + {id};
      sendQueue := sendQueue + [id];
    }

    method Send(id: byte, p: ChannelPacket)
      requires QueueOk(State()) && Enabled(State(), Event.Send(id, p))
      modifies this
      ensures State() == Step(old(State()), Event.Send(id, p)) && QueueOk(State())
    {
      hide WithPacket, QueueOk;
      StepKeepsOk(State(), Event.Send(id, p));
      ChannelIsOk(State(), id);
      if id as nat >= count {
        return;
      }
      channels := channels[id := WithPacket(ChannelAt(State(), id), p)];
      EnqueueChannel(id);
    }

    lemma {:induction false} ChannelIsOk(s: Sched, id: byte)
      requires QueueOk(s)
      ensures ChanOk(ChannelAt(s, id))
    {}

    method ProcessPacket(id: byte, p: ChannelPacket)
      requires QueueOk(State())
      modifies this
      ensures State() == Step(old(State()), Arrives(id, p)) && QueueOk(State())
    {
      hide Hear, QueueOk;
      StepKeepsOk(State(), Arrives(id, p));
      ChannelIsOk(State(), id);
      if id as nat >= count {
        return;
      }
      if id !in channels && p.Property() == PROP_ACK {
        return;
      }
      var (ch, wake) := Hear(ChannelAt(State(), id), p);
      channels := channels[id := ch];
      if wake {
        EnqueueChannel(id);
      }
    }

    /** The drain loop of an update. `visited` lists the channels in the order of the visits,
        `sent` what they send. */
    method DrainQueue(clocks: seq<Clock>) returns (ghost visited: seq<byte>, sent: seq<Emission>)
      requires QueueOk(State()) && |clocks| == |sendQueue|
      modifies this
      ensures State() == Step(old(State()), Update(clocks)) && QueueOk(State())
      ensures visited == old(sendQueue) && sent == UpdateEmits(old(State()), clocks)
    {
      hide QueueOk, Visit, VisitSends, ChanOk, NewChannel, UpdateEmits, Visits, HasWork;
      ghost var start := State();
      var pending := |sendQueue|;
      visited, sent := [], [];
      var k := 0;
      VisitsNone(start);
      assert clocks[..0] == [];
      while pending > 0
        invariant pending >= 0 && k + pending == |clocks| == |start.sendQueue|
        invariant State() == Visits(start, clocks[..k])
        invariant visited == start.sendQueue[..k] && sent == UpdateEmits(start, clocks[..k])
      {
        FirstInLine(start, clocks, k);
        pending := pending - 1;
        var id := sendQueue[0];
        sendQueue := sendQueue[1..];
        visited := visited + [id];
        sent := sent + VisitSends(channels[id], id, clocks[k]);
        var (ch, more) := Visit(channels[id], id, clocks[k]);
        channels := channels[id := ch];
        k := k + 1;
        if more {
          sendQueue := sendQueue + [id];
          continue;
        }
        inQueue := inQueue - {id};
      }
      assert clocks[..k] == clocks;
      StepKeepsOk(start, Update(clocks));
    }

    lemma {:induction false} VisitsNone(s: Sched)
      ensures Visits(s, []) == s && UpdateEmits(s, []) == []
    {}

    lemma {:induction false} NotYetVisited(s: Sched, k: nat)
      requires QueueOk(s) && k < |s.sendQueue|
      ensures s.sendQueue[k] !in s.sendQueue[..k] && s.sendQueue[k] in s.channels && ChanOk(s.channels[s.sendQueue[k]])
    {
      hide ChanOk, HasWork;
    }

    lemma {:induction false} FirstInLine(s: Sched, clocks: seq<Clock>, k: nat)
      requires QueueOk(s) && k < |clocks| == |s.sendQueue|
      ensures var t := Visits(s, clocks[..k]);
              && t.sendQueue != [] && t.sendQueue[0] == s.sendQueue[k]
              && t.sendQueue[0] in t.channels && ChanOk(t.channels[t.sendQueue[0]])
              && Visits(s, clocks[..k + 1]) == VisitFirst(t, clocks[k])
              && UpdateEmits(s, clocks[..k + 1])
                 == UpdateEmits(s, clocks[..k]) + VisitSends(t.channels[t.sendQueue[0]], t.sendQueue[0], clocks[k])
    {
      hide ChanOk, VisitFirst, Visit, VisitSends;
      NotYetVisited(s, k);
      var kept := VisitedThroughout(s, clocks, k);
      VisitsKeepOk(s, clocks[..k]);
      assert clocks[..k + 1][..k] == clocks[..k];
    }
  }
}
