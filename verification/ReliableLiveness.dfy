/** Progress of a reliable channel: one lossless round empties the send window. */
module ReliableLiveness {
  import opened Bits
  import opened Sequences
  import opened Packets
  import opened ReliableModel
  import opened ReliableProtocol

  /** The choices of a round: when the sender ticks, the current resend delay, and the data
      copies that arrive, in order. */
  datatype Round = Round(now: int, delay: int, arrivals: seq<nat>)

  ghost predicate ArrivalsEnabled(c: Net, arrivals: seq<nat>, ordered: bool, id: byte)
    requires Inv(c, ordered, id)
    decreases |arrivals|
  {
    arrivals != [] ==>
      && Enabled(c, DataArrives(arrivals[0]))
      && (DataKeepsInv(c, ordered, id, arrivals[0]);
          ArrivalsEnabled(Step(c, DataArrives(arrivals[0]), ordered, id), arrivals[1..], ordered, id))
  }

  ghost function Arrive(c: Net, arrivals: seq<nat>, ordered: bool, id: byte): (d: Net)
    requires Inv(c, ordered, id) && ArrivalsEnabled(c, arrivals, ordered, id)
    ensures Inv(d, ordered, id) && d.snd == c.snd && d.enqueued == c.enqueued
    decreases |arrivals|
  {
    if arrivals == [] then c
    else
      DataKeepsInv(c, ordered, id, arrivals[0]);
      Arrive(Step(c, DataArrives(arrivals[0]), ordered, id), arrivals[1..], ordered, id)
  }

  ghost function AfterTick(c: Net, r: Round, ordered: bool, id: byte): (d: Net)
    requires Inv(c, ordered, id)
    ensures Inv(d, ordered, id)
  {
    TickKeepsInv(c, ordered, id, r.now, r.delay);
    Step(c, SenderTicks(r.now, r.delay), ordered, id)
  }

  /** In a lossless round every resend delay has elapsed, the sender ticks, every packet it
      holds arrives (among whatever else does), the receiver ticks and its acknowledgement
      arrives. */
  ghost predicate Lossless(c: Net, r: Round, ordered: bool, id: byte)
    requires Inv(c, ordered, id)
  {
    && (forall n :: n in c.snd.pending ==> Due(c.snd.pending[n], r.now, r.delay))
    && ArrivalsEnabled(AfterTick(c, r, ordered, id), r.arrivals, ordered, id)
    && (forall n :: n in AfterTick(c, r, ordered, id).snd.pending ==> n in r.arrivals)
  }

  ghost function AfterRound(c: Net, r: Round, ordered: bool, id: byte): Net
    requires Inv(c, ordered, id) && Lossless(c, r, ordered, id)
  {
    var d := Arrive(AfterTick(c, r, ordered, id), r.arrivals, ordered, id);
    if !d.rcv.ackDue then d
    else
      var e := Step(d, ReceiverTicks, ordered, id);
      Step(e, ReliableProtocol.AckArrives(AckOf(d.rcv)), ordered, id)
  }

  /** The tick of a lossless round really sends everything the sender holds. */
  lemma {:induction false} TickSendsAll(c: Net, r: Round, ordered: bool, id: byte)
    requires Inv(c, ordered, id) && Lossless(c, r, ordered, id)
    ensures var d := AfterTick(c, r, ordered, id);
            forall n :: n in d.snd.pending ==>
               n in d.data && d.snd.pending[n].pkt in TickPackets(c.snd, id, r.now, r.delay)
  {
    hide Stamp, ReceiverOk, AckChain, Cleared, Windows;
    var f := Fill(c.snd, id);
    forall n | n in f.pending
      ensures Due(f.pending[n], r.now, r.delay)
      ensures f.pending[n].pkt in TickPackets(c.snd, id, r.now, r.delay)
    {
      if n !in c.snd.pending { assert f.pending[n] == Fresh(c.snd.outgoing, c.snd.next, n, id); }
      DueIsSent(f.pending, f.window, f.next, r.now, r.delay, f.pending[n].pkt);
    }
  }

  /** Every packet the sender holds and that arrives ends up in the store; once any has
      arrived an acknowledgement is owed. */
  lemma {:induction false} ArrivedIsStored(c: Net, arrivals: seq<nat>, ordered: bool, id: byte)
    requires Inv(c, ordered, id) && ArrivalsEnabled(c, arrivals, ordered, id)
    ensures var d := Arrive(c, arrivals, ordered, id);
            && c.rcv.store.Keys <= d.rcv.store.Keys && (c.rcv.ackDue ==> d.rcv.ackDue)
            && forall n :: n in arrivals && n >= c.snd.window ==> n in d.rcv.store && d.rcv.ackDue
    decreases |arrivals|
  {
    hide Inv, Receivable, Store, PacketArrives, Carries;
    if arrivals != [] {
      var m := arrivals[0];
      SenderIsOk(c, ordered, id);
      ArrivalIsStored(c, m, ordered, id);
      ArrivedIsStored(Step(c, DataArrives(m), ordered, id), arrivals[1..], ordered, id);
      assert forall n :: n in arrivals ==> n == m || n in arrivals[1..];
    }
  }

  lemma {:induction false} ArrivalIsStored(c: Net, m: nat, ordered: bool, id: byte)
    requires Inv(c, ordered, id) && Enabled(c, DataArrives(m))
    ensures var d := Step(c, DataArrives(m), ordered, id);
            && Inv(d, ordered, id)
            && c.rcv.store.Keys <= d.rcv.store.Keys && (c.rcv.ackDue ==> d.rcv.ackDue)
            && (m >= c.snd.window ==> m in d.rcv.store && d.rcv.ackDue)
  {
    hide Stamp;
    DataKeepsInv(c, ordered, id, m);
    ArrivalKeepsOk(c.rcv, ordered, Reconstruct(c.rcv.window, c.data[m].Sequence()), c.data[m]);
    if m >= c.snd.window {
      CopyReadRight(c, ordered, id, m);
      HeldIsTaken(c, ordered, id, m);
      StoreKeepsOk(c.rcv, ordered, m, c.data[m]);
    }
  }

  /** One lossless round drains the window: whatever was in flight before, everything the
      sender had numbered is acknowledged and delivered. */
  lemma {:induction false} RoundDrainsWindow(c: Net, r: Round, ordered: bool, id: byte)
    requires Inv(c, ordered, id) && Lossless(c, r, ordered, id)
    ensures var d := AfterRound(c, r, ordered, id);
            && Inv(d, ordered, id) && d.enqueued == c.enqueued
            && d.snd.window == d.snd.next == d.rcv.next == c.snd.next + Room(c.snd)
            && d.snd.outgoing == c.snd.outgoing[Room(c.snd)..]
  {
    var t := AfterTick(c, r, ordered, id);
    var d := Arrive(t, r.arrivals, ordered, id);
    ArrivedIsStored(t, r.arrivals, ordered, id);
    EmptySlotsArrived(t, ordered, id);
    AllArrived(d, ordered, id);
    if d.rcv.ackDue {
      AckDrains(d, ordered, id);
    } else {
      assert t.snd.window !in t.snd.pending;
    }
  }

  lemma {:induction false} AllArrived(d: Net, ordered: bool, id: byte)
    requires Inv(d, ordered, id) && forall n :: n in d.snd.pending ==> n in d.rcv.store
    ensures d.rcv.next == d.snd.next && forall n: nat :: n < d.snd.next ==> n in d.rcv.store
  {
    EmptySlotsArrived(d, ordered, id);
    assert d.rcv.next !in d.rcv.store;
  }

  lemma {:induction false} AckDrains(d: Net, ordered: bool, id: byte)
    requires Inv(d, ordered, id) && d.rcv.ackDue
    requires forall n: nat :: n < d.snd.next ==> n in d.rcv.store
    ensures var e := Step(d, ReceiverTicks, ordered, id);
            && Inv(e, ordered, id) && Enabled(e, ReliableProtocol.AckArrives(AckOf(d.rcv)))
            && var f := Step(e, ReliableProtocol.AckArrives(AckOf(d.rcv)), ordered, id);
            && Inv(f, ordered, id) && f.snd.window == f.snd.next == d.snd.next
            && f.rcv.next == d.rcv.next && f.snd.outgoing == d.snd.outgoing && f.enqueued == d.enqueued
  {
    var a := AckOf(d.rcv);
    var e := Step(d, ReceiverTicks, ordered, id);
    ReceiverTickKeepsInv(d, ordered, id);
    AckKeepsInv(e, ordered, id, a);
    assert d.snd.next > 0 ==> d.snd.next - 1 in d.rcv.store;
    FullAck(d.snd, a);
  }

  /** An acknowledgement of everything sent moves the window to its end. */
  lemma {:induction false} FullAck(s: Sender, a: Ack)
    requires SenderOk(s) && a.start <= s.window && s.next <= a.start + WINDOW_SIZE
    requires forall n: nat :: n < s.next ==> n in a.got
    ensures var t := ReliableModel.AckArrives(s, Wire(a.start), AckSlots(a));
            t.window == t.next == s.next && t.outgoing == s.outgoing
  {
    HonestAck(s, a);
    var t := ReliableModel.AckArrives(s, Wire(a.start), AckSlots(a));
    assert t.window < s.next ==> Covers(a, t.window);
  }

  /** A sequence of lossless rounds with nothing queued in between. */
  ghost predicate Rounds(cs: seq<Net>, rs: seq<Round>, ordered: bool, id: byte) {
    && |cs| == |rs| + 1
    && forall i :: 0 <= i < |rs| ==>
         Inv(cs[i], ordered, id) && Lossless(cs[i], rs[i], ordered, id)
         && cs[i + 1] == AfterRound(cs[i], rs[i], ordered, id)
  }

  /** Everything numbered is acknowledged and delivered. */
  ghost predicate Settled(c: Net) {
    c.snd.window == c.snd.next == c.rcv.next
  }

  /** After the first round each further round takes 64 packets off the queue. */
  lemma {:induction false} RoundsDrainQueue(cs: seq<Net>, rs: seq<Round>, ordered: bool, id: byte, i: nat)
    requires Rounds(cs, rs, ordered, id) && i < |rs|
    ensures Inv(cs[i + 1], ordered, id) && Settled(cs[i + 1]) && cs[i + 1].enqueued == cs[0].enqueued
    ensures cs[i + 1].snd.outgoing == QueueAfter(cs[1].snd.outgoing, i)
  {
    OneRound(cs[i], rs[i], ordered, id);
    if i > 0 {
      RoundsDrainQueue(cs, rs, ordered, id, i - 1);
      QueueShrinks(cs[1].snd.outgoing, i);
    }
  }

  /** What is left of a queue after i full windows. */
  function QueueAfter(q: seq<ChannelPacket>, i: nat): seq<ChannelPacket> {
    q[Min(|q|, WINDOW_SIZE * i)..]
  }

  lemma {:induction false} QueueShrinks(q: seq<ChannelPacket>, i: nat)
    requires i > 0
    ensures QueueAfter(QueueAfter(q, i - 1), 1) == QueueAfter(q, i)
  {}

  lemma {:induction false} OneRound(c: Net, r: Round, ordered: bool, id: byte)
    requires Inv(c, ordered, id) && Lossless(c, r, ordered, id)
    ensures var d := AfterRound(c, r, ordered, id);
            && Inv(d, ordered, id) && Settled(d) && d.enqueued == c.enqueued
            && |d.snd.outgoing| <= |c.snd.outgoing|
            && (Settled(c) ==> d.snd.outgoing == QueueAfter(c.snd.outgoing, 1))
  {
    RoundDrainsWindow(c, r, ordered, id);
  }

  /** n queued packets are all delivered and acknowledged after the first lossless round and
      at most ceil(n / 64) further ones. */
  lemma {:induction false} QueueDrained(cs: seq<Net>, rs: seq<Round>, ordered: bool, id: byte, i: nat)
    requires Rounds(cs, rs, ordered, id) && i < |rs|
    requires i >= (|cs[0].snd.outgoing| + WINDOW_SIZE - 1) / WINDOW_SIZE
    ensures cs[i + 1].snd.outgoing == [] && Settled(cs[i + 1]) && cs[i + 1].rcv.next == |cs[0].enqueued|
  {
    OneRound(cs[0], rs[0], ordered, id);
    RoundsDrainQueue(cs, rs, ordered, id, i);
    EmptyQueue(cs[i + 1], ordered, id);
  }

  lemma {:induction false} EmptyQueue(c: Net, ordered: bool, id: byte)
    requires Inv(c, ordered, id) && c.snd.outgoing == []
    ensures c.snd.next == |c.enqueued|
  {}

  // ------------------------------------------------------------------- such rounds exist

  /** The latest time stamp of the pending packets numbered from lo up to hi. */
  function Latest(pending: map<nat, Pending>, lo: nat, hi: nat): (t: int)
    requires lo <= hi
    ensures forall n :: lo <= n < hi && n in pending ==> pending[n].timeStamp <= t
    decreases hi - lo
  {
    if lo == hi then 0
    else
      var t := Latest(pending, lo, hi - 1);
      if hi - 1 in pending && pending[hi - 1].timeStamp > t then pending[hi - 1].timeStamp else t
  }

  /** The numbers of the pending packets from lo up to hi, in order. */
  function HeldNumbers(pending: map<nat, Pending>, lo: nat, hi: nat): (ns: seq<nat>)
    requires lo <= hi
    ensures forall n :: n in ns <==> lo <= n < hi && n in pending
    decreases hi - lo
  {
    if lo == hi then [] else HeldNumbers(pending, lo, hi - 1) + if hi - 1 in pending then [hi - 1] else []
  }

  /** Copies from the send window on may arrive in any order and any number of times. */
  lemma {:induction false} WindowArrives(c: Net, arrivals: seq<nat>, ordered: bool, id: byte)
    requires Inv(c, ordered, id) && forall n :: n in arrivals ==> n in c.data && n >= c.snd.window
    ensures ArrivalsEnabled(c, arrivals, ordered, id)
    decreases |arrivals|
  {
    hide PacketArrives, ReceiverOk, Contents, AckChain, Cleared, SenderOk;
    if arrivals != [] {
      DataKeepsInv(c, ordered, id, arrivals[0]);
      WindowArrives(Step(c, DataArrives(arrivals[0]), ordered, id), arrivals[1..], ordered, id);
    }
  }

  /** From every state that keeps the invariant there is a lossless round, whatever the resend
      delay: wait until it has elapsed for every packet, and let all of them arrive in order. */
  lemma {:induction false} RoundExists(c: Net, delay: int, ordered: bool, id: byte) returns (r: Round)
    requires Inv(c, ordered, id)
    ensures r.delay == delay && Lossless(c, r, ordered, id)
  {
    hide Inv, Lossless, ArrivalsEnabled, Due, Fill, AfterTick;
    SenderIsOk(c, ordered, id);
    var now := Latest(c.snd.pending, c.snd.window, c.snd.next) + delay;
    var f := Fill(c.snd, id);
    r := Round(now, delay, HeldNumbers(f.pending, f.window, f.next));
    LateEnough(c, now, delay, ordered, id);
    TickHolds(c, r, ordered, id);
    WindowArrives(AfterTick(c, r, ordered, id), r.arrivals, ordered, id);
    IsLossless(c, r, ordered, id);
  }

  lemma {:induction false} IsLossless(c: Net, r: Round, ordered: bool, id: byte)
    requires Inv(c, ordered, id) && ArrivalsEnabled(AfterTick(c, r, ordered, id), r.arrivals, ordered, id)
    requires forall n :: n in c.snd.pending ==> Due(c.snd.pending[n], r.now, r.delay)
    requires forall n :: n in AfterTick(c, r, ordered, id).snd.pending ==> n in r.arrivals
    ensures Lossless(c, r, ordered, id)
  {
    hide Inv, AfterTick, ArrivalsEnabled, Due;
  }

  lemma {:induction false} LateEnough(c: Net, now: int, delay: int, ordered: bool, id: byte)
    requires Inv(c, ordered, id) && now >= Latest(c.snd.pending, c.snd.window, c.snd.next) + delay
    ensures SenderOk(c.snd)
    ensures forall n :: n in c.snd.pending ==> Due(c.snd.pending[n], now, delay)
    ensures forall n :: n in Fill(c.snd, id).pending ==> Due(Fill(c.snd, id).pending[n], now, delay)
  {
    hide Stamp, Windows, Contents, ReceiverOk, AckChain, Cleared, Latest;
    var f := Fill(c.snd, id);
    forall n | n in f.pending
      ensures Due(f.pending[n], now, delay)
    {
      if n !in c.snd.pending { assert f.pending[n] == Fresh(c.snd.outgoing, c.snd.next, n, id); }
    }
  }

  /** After a tick that sends everything, everything held has been sent. */
  lemma {:induction false} TickHolds(c: Net, r: Round, ordered: bool, id: byte)
    requires Inv(c, ordered, id) && SenderOk(c.snd)
    requires forall n :: n in Fill(c.snd, id).pending ==> Due(Fill(c.snd, id).pending[n], r.now, r.delay)
    ensures var d, f := AfterTick(c, r, ordered, id), Fill(c.snd, id);
            && (forall n :: n in d.snd.pending ==> n in f.pending && f.window <= n < f.next)
            && forall n :: n in f.pending ==> n in d.data && n >= d.snd.window
  {
    hide Inv, Fill, Due;
    assert SenderOk(Fill(c.snd, id));
    SameWindow(c.snd, id, r.now, r.delay);
  }

  lemma {:induction false} SameWindow(s: Sender, id: byte, now: int, delay: int)
    requires SenderOk(s)
    ensures SendTick(s, id, now, delay).window == Fill(s, id).window
  {}

  /** So are there any number of rounds. */
  lemma {:induction false} RoundsExist(c: Net, delay: int, k: nat, ordered: bool, id: byte)
    returns (cs: seq<Net>, rs: seq<Round>)
    requires Inv(c, ordered, id)
    ensures Rounds(cs, rs, ordered, id) && |rs| == k && cs[0] == c && Inv(cs[k], ordered, id)
  {
    hide Inv, Lossless, AfterRound;
    if k == 0 {
      cs, rs := [c], [];
    } else {
      var before, choices := RoundsExist(c, delay, k - 1, ordered, id);
      var r := RoundExists(before[k - 1], delay, ordered, id);
      cs, rs := before + [AfterRound(before[k - 1], r, ordered, id)], choices + [r];
      OneRound(before[k - 1], r, ordered, id);
    }
  }

  /** Every channel can be drained: from every state that keeps the invariant there are lossless
      rounds after which everything queued has been delivered and acknowledged. */
  lemma {:induction false} DrainExists(c: Net, delay: int, ordered: bool, id: byte)
    returns (cs: seq<Net>, rs: seq<Round>)
    requires Inv(c, ordered, id)
    ensures Rounds(cs, rs, ordered, id) && cs[0] == c && cs[|rs|].enqueued == c.enqueued
    ensures var d := cs[|rs|]; d.snd.outgoing == [] && Settled(d) && d.rcv.next == |c.enqueued|
  {
    hide Inv, Lossless, AfterRound;
    var i := (|c.snd.outgoing| + WINDOW_SIZE - 1) / WINDOW_SIZE;
    cs, rs := RoundsExist(c, delay, i + 1, ordered, id);
    RoundsDrainQueue(cs, rs, ordered, id, i);
    QueueDrained(cs, rs, ordered, id, i);
  }

  // ------------------------------------------------------------ rounds are stretches of runs

  lemma {:induction false} ArriveReached(c: Net, arrivals: seq<nat>, ordered: bool, id: byte)
    requires Reachable(c, ordered, id) && Inv(c, ordered, id) && ArrivalsEnabled(c, arrivals, ordered, id)
    ensures var d := Arrive(c, arrivals, ordered, id); Reachable(d, ordered, id) && Grows(c.rcv, d.rcv)
    decreases |arrivals|
  {
    hide Reachable, Inv, Grows, Step, Enabled;
    if arrivals == [] {
      GrowsSelf(c.rcv);
    } else {
      var e := DataArrives(arrivals[0]);
      DataKeepsInv(c, ordered, id, arrivals[0]);
      SenderIsOk(c, ordered, id);
      var d := Step(c, e, ordered, id);
      ReachableStep(c, e, ordered, id);
      StepGrows(c, e, ordered, id);
      ArriveReached(d, arrivals[1..], ordered, id);
      GrowsTransitive(c.rcv, d.rcv, Arrive(d, arrivals[1..], ordered, id).rcv);
    }
  }

  lemma {:induction false} GrowsSelf(r: Receiver)
    ensures Grows(r, r)
  {}

  lemma {:induction false} RoundReached(c: Net, r: Round, ordered: bool, id: byte)
    requires Reachable(c, ordered, id) && Inv(c, ordered, id) && Lossless(c, r, ordered, id)
    ensures var d := AfterRound(c, r, ordered, id); Reachable(d, ordered, id) && Grows(c.rcv, d.rcv)
  {
    hide Reachable, Inv, Grows, SendTick, ArrivalsEnabled;
    SenderIsOk(c, ordered, id);
    ReachableStep(c, SenderTicks(r.now, r.delay), ordered, id);
    var t := AfterTick(c, r, ordered, id);
    ArriveReached(t, r.arrivals, ordered, id);
    var d := Arrive(t, r.arrivals, ordered, id);
    if d.rcv.ackDue { AckReached(d, ordered, id); }
    SameGrows(c.rcv, d.rcv, AfterRound(c, r, ordered, id).rcv);
  }

  lemma {:induction false} SameGrows(a: Receiver, b: Receiver, c: Receiver)
    requires Grows(a, b) && c == b.(ackDue := c.ackDue)
    ensures Grows(a, c)
  {}

  lemma {:induction false} AckReached(d: Net, ordered: bool, id: byte)
    requires Reachable(d, ordered, id) && Inv(d, ordered, id) && d.rcv.ackDue
    ensures SenderOk(d.snd)
    ensures var e, a := Step(d, ReceiverTicks, ordered, id), ReliableProtocol.AckArrives(AckOf(d.rcv));
            && SenderOk(e.snd) && Enabled(e, a) && Reachable(Step(e, a, ordered, id), ordered, id)
  {
    hide Reachable, Contents, AckChain, Cleared, Distinct, ReliableModel.AckArrives;
    SenderIsOk(d, ordered, id);
    ReachableStep(d, ReceiverTicks, ordered, id);
    var e, a := Step(d, ReceiverTicks, ordered, id), ReliableProtocol.AckArrives(AckOf(d.rcv));
    ReachableStep(e, a, ordered, id);
  }

  lemma {:induction false} RoundsReached(cs: seq<Net>, rs: seq<Round>, ordered: bool, id: byte, i: nat)
    requires Rounds(cs, rs, ordered, id) && i < |cs| && Reachable(cs[0], ordered, id)
    ensures Reachable(cs[i], ordered, id) && Grows(cs[0].rcv, cs[i].rcv)
  {
    hide Reachable, Inv, Grows, Lossless, AfterRound;
    if i == 0 {
      GrowsSelf(cs[0].rcv);
    } else {
      RoundsReached(cs, rs, ordered, id, i - 1);
      RoundReached(cs[i - 1], rs[i - 1], ordered, id);
      GrowsTransitive(cs[0].rcv, cs[i - 1].rcv, cs[i].rcv);
    }
  }
}
