/** When a reliable channel sends: what a tick puts on the wire and what it leaves alone, and
    what follows for whole runs. A packet is sent as soon as it is in the window, and again at
    the first tick after its resend delay, however many ticks came between. */
module ReliableTiming {
  import opened Bits
  import opened Sequences
  import opened Packets
  import opened ReliableModel
  import opened ReliableProtocol

  // ------------------------------------------------------------------------- one tick

  /** What is left of a pending packet by a tick that sends the packets `sent`. */
  ghost predicate Stamped(c: Net, d: Net, sent: seq<ChannelPacket>, now: int, n: nat) {
    n in d.snd.pending ==>
      var p := d.snd.pending[n];
      if p.pkt in sent then p.timeStamp == now && p.isSent
      else n in c.snd.pending && p == c.snd.pending[n]
  }

  /** A pending packet goes out exactly if it never did or if its delay has elapsed. */
  ghost predicate SentWhenDue(c: Net, d: Net, sent: seq<ChannelPacket>, now: int, delay: int, n: nat) {
    n in d.snd.pending ==>
      var p := d.snd.pending[n];
      p.pkt in sent
      <==> n !in c.snd.pending || !c.snd.pending[n].isSent || now - c.snd.pending[n].timeStamp >= delay
  }

  /** Nothing leaves the window by a tick, and what it sends is what the network holds. */
  ghost predicate Kept(c: Net, d: Net, sent: seq<ChannelPacket>, n: nat) {
    && (n in c.snd.pending ==> n in d.snd.pending && d.snd.pending[n].pkt == c.snd.pending[n].pkt)
    && (n in d.snd.pending && d.snd.pending[n].pkt in sent ==> n in d.data && d.data[n] == d.snd.pending[n].pkt)
    && (n in c.data ==> n in d.data)
    && (n in d.data ==> (n in c.data && d.data[n] == c.data[n])
                        || (n in d.snd.pending && d.snd.pending[n].pkt in sent))
  }

  lemma {:induction false} DifferentPackets(c: Net, ordered: bool, id: byte, m: nat, n: nat)
    requires Inv(c, ordered, id) && m in c.snd.pending && n in c.snd.pending && m != n
    ensures c.snd.pending[m].pkt != c.snd.pending[n].pkt
  {
    hide Wire, Stamp, ReceiverOk, Windows, AckChain, Cleared;
    StampFields(c.enqueued[m], m, id);
    StampFields(c.enqueued[n], n, id);
    assert Carries(c.enqueued, m, c.snd.pending[m].pkt, id) && Carries(c.enqueued, n, c.snd.pending[n].pkt, id);
    NearNumbers(m, n);
  }

  lemma {:induction false} NearNumbers(m: nat, n: nat)
    requires m != n && -WINDOW_SIZE < m - n < WINDOW_SIZE
    ensures Wire(m) != Wire(n)
  {}

  /** What the tick sends of the filled window. */
  lemma {:induction false} DueByNumber(d: Net, f: Sender, ordered: bool, id: byte, now: int, delay: int, n: nat)
    requires Inv(d, ordered, id) && SenderOk(f) && f.window == d.snd.window && f.next == d.snd.next
    requires f.pending.Keys == d.snd.pending.Keys
    requires forall m :: m in f.pending ==> f.pending[m].pkt == d.snd.pending[m].pkt
    requires n in f.pending
    ensures f.pending[n].pkt in DuePackets(f.pending, f.window, f.next, now, delay) <==> Due(f.pending[n], now, delay)
  {
    hide Inv, Due, DuePackets;
    var p := f.pending[n].pkt;
    DueIsSent(f.pending, f.window, f.next, now, delay, p);
    if m: nat :| m in f.pending && Due(f.pending[m], now, delay) && p == f.pending[m].pkt && m != n {
      DifferentPackets(d, ordered, id, m, n);
    }
  }

  lemma {:induction false} TickLaw(c: Net, ordered: bool, id: byte, now: int, delay: int, n: nat)
    requires Inv(c, ordered, id)
    ensures SenderOk(c.snd)
    ensures var d := Step(c, SenderTicks(now, delay), ordered, id); var sent := TickPackets(c.snd, id, now, delay);
            Stamped(c, d, sent, now, n) && SentWhenDue(c, d, sent, now, delay, n) && Kept(c, d, sent, n)
  {
    hide Inv, DuePackets, Fill;
    SenderIsOk(c, ordered, id);
    var d := Step(c, SenderTicks(now, delay), ordered, id);
    var f := Fill(c.snd, id);
    TickKeepsInv(c, ordered, id, now, delay);
    FillKeeps(c.snd, id, n);
    if n in f.pending { DueByNumber(d, f, ordered, id, now, delay, n); }
  }

  lemma {:induction false} FillKeeps(s: Sender, id: byte, n: nat)
    requires SenderOk(s)
    ensures var f := Fill(s, id);
            && (n in s.pending ==> n in f.pending && f.pending[n] == s.pending[n])
            && (n in f.pending && n !in s.pending ==> !f.pending[n].isSent)
  {
    hide Stamp;
    var f := Fill(s, id);
    if n in f.pending && n !in s.pending { assert f.pending[n] == Fresh(s.outgoing, s.next, n, id); }
  }

  /** The packets of a tick go out in the order of their numbers, each once. */
  lemma {:induction false} TickInOrder(c: Net, ordered: bool, id: byte, now: int, delay: int) returns (ns: seq<nat>)
    requires Inv(c, ordered, id)
    ensures SenderOk(c.snd) && |ns| == |TickPackets(c.snd, id, now, delay)|
    ensures forall i, j :: 0 <= i < j < |ns| ==> ns[i] < ns[j]
    ensures var d := Step(c, SenderTicks(now, delay), ordered, id);
            forall i :: 0 <= i < |ns| ==>
              ns[i] in d.snd.pending && d.snd.pending[ns[i]].pkt == TickPackets(c.snd, id, now, delay)[i]
  {
    hide Inv, DuePackets, Fill;
    SenderIsOk(c, ordered, id);
    var f := Fill(c.snd, id);
    ns := DueNumbers(f.pending, f.window, f.next, now, delay);
  }

  lemma {:induction false} DueNumbers(pending: map<nat, Pending>, lo: nat, hi: nat, now: int, delay: int)
    returns (ns: seq<nat>)
    requires lo <= hi
    ensures |ns| == |DuePackets(pending, lo, hi, now, delay)|
    ensures forall i :: 0 <= i < |ns| ==>
              lo <= ns[i] < hi && ns[i] in pending && pending[ns[i]].pkt == DuePackets(pending, lo, hi, now, delay)[i]
    ensures forall i, j :: 0 <= i < j < |ns| ==> ns[i] < ns[j]
    decreases hi - lo
  {
    if lo == hi {
      ns := [];
    } else {
      ns := DueNumbers(pending, lo, hi - 1, now, delay);
      if hi - 1 in pending && Due(pending[hi - 1], now, delay) { ns := ns + [hi - 1]; }
    }
  }

  // ----------------------------------------------------------------------- whole runs

  /** Event i puts packet n on the wire. */
  ghost predicate Sends(cs: seq<Net>, es: seq<Event>, id: byte, i: int, n: nat) {
    && 0 <= i < |es| && i + 1 < |cs| && es[i].SenderTicks? && SenderOk(cs[i].snd)
    && n in cs[i + 1].snd.pending
    && cs[i + 1].snd.pending[n].pkt in TickPackets(cs[i].snd, id, es[i].now, es[i].delay)
  }

  /** The last time before event j. */
  ghost predicate LastSent(cs: seq<Net>, es: seq<Event>, id: byte, i: int, j: int, n: nat) {
    Sends(cs, es, id, i, n) && i < j && forall k :: i < k < j ==> !Sends(cs, es, id, k, n)
  }

  lemma {:induction false} RunStep(cs: seq<Net>, es: seq<Event>, ordered: bool, id: byte, i: nat)
    requires Run(cs, es, ordered, id) && i < |es|
    ensures Inv(cs[i], ordered, id) && Inv(cs[i + 1], ordered, id)
    ensures SenderOk(cs[i].snd) && Enabled(cs[i], es[i]) && cs[i + 1] == Step(cs[i], es[i], ordered, id)
  {
    hide Inv, Step, Enabled;
    RunKeepsInv(cs, es, ordered, id, i);
    RunKeepsInv(cs, es, ordered, id, i + 1);
  }

  /** Only a tick touches what is pending, other than by emptying slots, and only fresh packets
      get into the window. */
  lemma {:induction false} PendingLaw(c: Net, e: Event, ordered: bool, id: byte, n: nat)
    requires Inv(c, ordered, id) && SenderOk(c.snd) && Enabled(c, e)
    ensures var d := Step(c, e, ordered, id);
            && c.snd.next <= d.snd.next
            && (n in d.snd.pending && n !in c.snd.pending ==> c.snd.next <= n)
            && (n in d.snd.pending && n in c.snd.pending && !e.SenderTicks? ==> d.snd.pending[n] == c.snd.pending[n])
            && (n in d.snd.pending && !e.SenderTicks? ==> n in c.snd.pending)
            && (n in d.snd.pending ==> n < d.snd.next)
  {
    hide Stamp, PacketArrives, AckSlots, AckAccepted, AckLimit, Advance, Due, Contents, AckChain, Cleared, ReceiverOk;
  }

  lemma {:induction false} NextGrows(cs: seq<Net>, es: seq<Event>, ordered: bool, id: byte, i: nat, j: nat)
    requires Run(cs, es, ordered, id) && i <= j < |cs|
    ensures cs[i].snd.next <= cs[j].snd.next
  {
    hide Run, Inv, Step, Enabled;
    if i < j {
      RunLength(cs, es, ordered, id);
      NextGrows(cs, es, ordered, id, i, j - 1);
      RunStep(cs, es, ordered, id, j - 1);
      PendingLaw(cs[j - 1], es[j - 1], ordered, id, 0);
    }
  }

  lemma {:induction false} RunLength(cs: seq<Net>, es: seq<Event>, ordered: bool, id: byte)
    requires Run(cs, es, ordered, id)
    ensures |cs| == |es| + 1 && cs[0] == INITIAL
  {}

  /** A pending packet carries the time it was last sent. */
  lemma {:induction false} StampIsLastSend(cs: seq<Net>, es: seq<Event>, ordered: bool, id: byte, i: int, j: nat,
                                           n: nat)
    requires Run(cs, es, ordered, id) && j < |cs| && n in cs[j].snd.pending && LastSent(cs, es, id, i, j, n)
    ensures cs[j].snd.pending[n].isSent && cs[j].snd.pending[n].timeStamp == es[i].now
    decreases j
  {
    hide Run, Inv, Step, Enabled, TickPackets;
    RunLength(cs, es, ordered, id);
    RunStep(cs, es, ordered, id, j - 1);
    var c, e := cs[j - 1], es[j - 1];
    PendingLaw(c, e, ordered, id, n);
    if e.SenderTicks? { TickLaw(c, ordered, id, e.now, e.delay, n); }
    if i < j - 1 {
      NextGrows(cs, es, ordered, id, i + 1, j - 1);
      RunStep(cs, es, ordered, id, i);
      PendingLaw(cs[i], es[i], ordered, id, n);
      assert !Sends(cs, es, id, j - 1, n);
      StampIsLastSend(cs, es, ordered, id, i, j - 1, n);
    }
  }

  /** Every packet in the window has been sent. */
  lemma {:induction false} PendingWasSent(cs: seq<Net>, es: seq<Event>, ordered: bool, id: byte, j: nat, n: nat)
    returns (i: int)
    requires Run(cs, es, ordered, id) && j < |cs| && n in cs[j].snd.pending
    ensures LastSent(cs, es, id, i, j, n)
  {
    hide Run, Inv, Step, Enabled, TickPackets;
    RunLength(cs, es, ordered, id);
    RunStep(cs, es, ordered, id, j - 1);
    var c, e := cs[j - 1], es[j - 1];
    PendingLaw(c, e, ordered, id, n);
    if e.SenderTicks? { TickLaw(c, ordered, id, e.now, e.delay, n); }
    if Sends(cs, es, id, j - 1, n) {
      i := j - 1;
    } else {
      i := PendingWasSent(cs, es, ordered, id, j - 1, n);
    }
  }

  /** Exactly when a tick sends a packet that stays in the window: if it was never sent before,
      or if its resend delay has elapsed since it was last sent, whatever ticks came between. */
  lemma {:induction false} SentExactly(cs: seq<Net>, es: seq<Event>, ordered: bool, id: byte, j: nat, n: nat)
    requires Run(cs, es, ordered, id) && j < |es| && es[j].SenderTicks? && n in cs[j + 1].snd.pending
    ensures Sends(cs, es, id, j, n)
            <==> forall i :: LastSent(cs, es, id, i, j, n) ==> es[j].now - es[i].now >= es[j].delay
  {
    hide Run, Inv, Step, Enabled, TickPackets;
    RunLength(cs, es, ordered, id);
    RunStep(cs, es, ordered, id, j);
    TickLaw(cs[j], ordered, id, es[j].now, es[j].delay, n);
    if n in cs[j].snd.pending {
      var i := PendingWasSent(cs, es, ordered, id, j, n);
      forall k | LastSent(cs, es, id, k, j, n)
        ensures cs[j].snd.pending[n].isSent && cs[j].snd.pending[n].timeStamp == es[k].now
      {
        StampIsLastSend(cs, es, ordered, id, k, j, n);
      }
    } else {
      NeverBefore(cs, es, ordered, id, j, n);
    }
  }

  lemma {:induction false} NeverBefore(cs: seq<Net>, es: seq<Event>, ordered: bool, id: byte, j: nat, n: nat)
    requires Run(cs, es, ordered, id) && j < |es| && n in cs[j + 1].snd.pending && n !in cs[j].snd.pending
    ensures forall i :: !LastSent(cs, es, id, i, j, n)
  {
    hide Run, Inv, Step, Enabled, TickPackets;
    RunLength(cs, es, ordered, id);
    RunStep(cs, es, ordered, id, j);
    PendingLaw(cs[j], es[j], ordered, id, n);
    forall i | 0 <= i < j
      ensures !Sends(cs, es, id, i, n)
    {
      RunStep(cs, es, ordered, id, i);
      PendingLaw(cs[i], es[i], ordered, id, n);
      NextGrows(cs, es, ordered, id, i + 1, j);
    }
  }

  /** In particular no packet is ever forgotten: by the first tick a resend delay after it was
      sent, it has been sent again or has left the window. */
  lemma {:induction false} RepeatedByThen(cs: seq<Net>, es: seq<Event>, ordered: bool, id: byte, i: nat, j: nat,
                                          n: nat)
    requires Run(cs, es, ordered, id) && i < j < |es| && Sends(cs, es, id, i, n)
    requires es[j].SenderTicks? && es[j].now - es[i].now >= es[j].delay
    ensures n !in cs[j + 1].snd.pending || exists k :: i < k <= j && Sends(cs, es, id, k, n)
  {
    hide Run, TickPackets;
    RunLength(cs, es, ordered, id);
    if n in cs[j + 1].snd.pending && forall k :: i < k < j ==> !Sends(cs, es, id, k, n) {
      SentExactly(cs, es, ordered, id, j, n);
      forall k | LastSent(cs, es, id, k, j, n)
        ensures k == i
      {}
    }
  }
}
