/** Progress of a hop: from every state of it there is a way on in which every message is
    delivered. */
module HopLiveness {
  import opened Bits
  import opened Packets
  import opened ReliableModel
  import opened ReliableProtocol
  import opened ReliableLiveness
  import opened Fragments
  import opened Reassembly
  import opened Hops

  // ---------------------------------------------------------------------- one channel moves on

  /** Lossless rounds lead from c to d, which has delivered everything queued. */
  ghost predicate DrainedFrom(c: Net, d: Net, ordered: bool, id: byte) {
    && (forall n: nat :: n < |d.enqueued| ==> n in d.rcv.log)
    && exists cs, rs :: Rounds(cs, rs, ordered, id) && cs[0] == c && cs[|rs|] == d
  }

  lemma {:induction false} ChannelDrains(c: Net, delay: int, ordered: bool, id: byte) returns (d: Net)
    requires Reachable(c, ordered, id)
    ensures Reachable(d, ordered, id) && d.enqueued == c.enqueued && Grows(c.rcv, d.rcv)
    ensures DrainedFrom(c, d, ordered, id)
  {
    hide Inv, Reachable, Rounds, Grows;
    ReachableInv(c, ordered, id);
    var cs, rs := DrainExists(c, delay, ordered, id);
    LastOfRounds(cs, rs, ordered, id);
    d := cs[|rs|];
    RoundsReached(cs, rs, ordered, id, |rs|);
    ReachableInv(d, ordered, id);
    AllInLog(d, ordered, id);
  }

  lemma {:induction false} LastOfRounds(cs: seq<Net>, rs: seq<Round>, ordered: bool, id: byte)
    requires Rounds(cs, rs, ordered, id)
    ensures |cs| == |rs| + 1
  {
    hide Inv, Lossless, AfterRound;
  }

  lemma {:induction false} AllInLog(d: Net, ordered: bool, id: byte)
    requires Inv(d, ordered, id)
    ensures forall n: nat :: n < d.rcv.next ==> n in d.rcv.log
  {
    hide Windows, Contents, AckChain, Cleared, SenderOk, Distinct;
    forall n: nat | n < d.rcv.next
      ensures n in d.rcv.log
    {
      if ordered { assert d.rcv.log[n] == n; }
    }
  }

  ghost predicate InQueue(msgs: seq<Sending>, id: byte, ns: seq<nat>) {
    forall i :: 0 <= i < |ns| ==> ns[i] < |QueuedOn(msgs, id)|
  }

  /** What channel id hands over with the numbers ns. */
  ghost function HandedOver(msgs: seq<Sending>, id: byte, ns: seq<nat>, number: nat): (heard: seq<Heard>)
    requires number < MAX_CONNECTION_NUMBER && InQueue(msgs, id, ns)
    ensures |heard| == |ns|
    ensures forall i :: 0 <= i < |ns| ==> heard[i] == Heard(id, ns[i], OnWire(msgs, id, ns[i], number))
  {
    if ns == [] then []
    else
      var last := |ns| - 1;
      HandedOver(msgs, id, ns[..last], number) + [Heard(id, ns[last], OnWire(msgs, id, ns[last], number))]
  }

  lemma {:induction false} NumbersOnConcat(a: seq<Heard>, b: seq<Heard>, n: nat, id: byte)
    requires n <= |b|
    ensures NumbersOn(a + b, |a| + n, id) == NumbersOn(a, |a|, id) + NumbersOn(b, n, id)
  {
    if n == 0 { NumbersOnPrefix(a, b, |a|, id); } else { NumbersOnConcat(a, b, n - 1, id); }
  }

  lemma {:induction false} NumbersOnPrefix(a: seq<Heard>, b: seq<Heard>, n: nat, id: byte)
    requires n <= |a|
    ensures NumbersOn(a + b, n, id) == NumbersOn(a, n, id)
  {
    if n > 0 { NumbersOnPrefix(a, b, n - 1, id); }
  }

  lemma {:induction false} NumbersHandedOver(msgs: seq<Sending>, id: byte, ns: seq<nat>, number: nat, other: byte)
    requires number < MAX_CONNECTION_NUMBER && InQueue(msgs, id, ns)
    ensures NumbersOn(HandedOver(msgs, id, ns, number), |ns|, other) == if other == id then ns else []
  {
    hide QueuedOn, OnWire, HandedOver, NumbersOn;
    if ns == [] {
      NoNumbers(HandedOver(msgs, id, ns, number), other);
    } else {
      var last := |ns| - 1;
      NumbersHandedOver(msgs, id, ns[..last], number, other);
      LastHandedOver(msgs, id, ns, number);
      var before, all := HandedOver(msgs, id, ns[..last], number), HandedOver(msgs, id, ns, number);
      NumbersOnAppend(before, all[last], other);
      assert ns == ns[..last] + [ns[last]];
    }
  }

  lemma {:induction false} NoNumbers(heard: seq<Heard>, id: byte)
    ensures NumbersOn(heard, 0, id) == []
  {}

  lemma {:induction false} NumbersOnAppend(heard: seq<Heard>, x: Heard, id: byte)
    ensures NumbersOn(heard + [x], |heard| + 1, id)
            == NumbersOn(heard, |heard|, id) + if x.id == id then [x.n] else []
  {
    NumbersOnPrefix(heard, [x], |heard|, id);
  }

  lemma {:induction false} LastHandedOver(msgs: seq<Sending>, id: byte, ns: seq<nat>, number: nat)
    requires number < MAX_CONNECTION_NUMBER && InQueue(msgs, id, ns) && ns != []
    ensures var last, all := |ns| - 1, HandedOver(msgs, id, ns, number);
            && InQueue(msgs, id, ns[..last]) && all == HandedOver(msgs, id, ns[..last], number) + [all[last]]
            && all[last].id == id && all[last].n == ns[last]
  {
    hide QueuedOn, OnWire;
  }

  /** The hop goes on with one channel in a later state. */
  ghost function Continued(h: Hop, id: byte, d: Net): (g: Hop)
    requires h.number < MAX_CONNECTION_NUMBER && id in h.channels
    requires h.channels[id].rcv.log <= d.rcv.log && InQueue(h.msgs, id, d.rcv.log)
  {
    var ns := d.rcv.log[|h.channels[id].rcv.log|..];
    h.(channels := h.channels[id := d], heard := h.heard + HandedOver(h.msgs, id, ns, h.number))
  }

  /** Everything received is what was queued. */
  lemma {:induction false} StoredIsQueued(d: Net, ordered: bool, id: byte, n: nat)
    requires Inv(d, ordered, id) && n in d.rcv.log
    ensures n < |d.enqueued| && n in d.rcv.store && d.rcv.store[n] == Stamp(d.enqueued[n], n, id)
  {
    hide Windows, SenderOk, AckChain, Cleared, Distinct, Stamp;
    assert Carries(d.enqueued, n, d.rcv.store[n], id);
  }

  lemma {:induction false} ContinuedOk(h: Hop, id: byte, d: Net)
    requires HopOk(h) && id in h.channels && Reachable(d, IsOrdered(id), id)
    requires d.enqueued == h.channels[id].enqueued && Grows(h.channels[id].rcv, d.rcv)
    ensures InQueue(h.msgs, id, d.rcv.log)
    ensures HopOk(Continued(h, id, d)) && h.heard <= Continued(h, id, d).heard
  {
    hide Reachable, QueuedOn, Inv, HandedOver, OnWire;
    assert ChannelOk(h, id);
    ReachableInv(d, IsOrdered(id), id);
    forall n | n in d.rcv.log
      ensures n < |QueuedOn(h.msgs, id)| && n in d.rcv.store
      ensures d.rcv.store[n] == Stamp(QueuedOn(h.msgs, id)[n], n, id)
    {
      StoredIsQueued(d, IsOrdered(id), id, n);
    }
    assert forall i :: 0 <= i < |d.rcv.log| ==> d.rcv.log[i] in d.rcv.log;
    var g := Continued(h, id, d);
    forall other
      ensures ChannelOk(g, other)
    {
      assert ChannelOk(h, other);
      ContinuedNumbers(h, id, d, other);
    }
    forall i: int
      ensures HeardOk(g, i)
    {
      assert HeardOk(h, i);
      if |h.heard| <= i < |g.heard| { NewHeard(h, id, d, i); }
    }
  }

  lemma {:induction false} MoreNumbers(heard: seq<Heard>, msgs: seq<Sending>, id: byte, ns: seq<nat>, number: nat,
                                       other: byte)
    requires number < MAX_CONNECTION_NUMBER && InQueue(msgs, id, ns)
    ensures NumbersOn(heard + HandedOver(msgs, id, ns, number), |heard| + |ns|, other)
            == NumbersOn(heard, |heard|, other) + if other == id then ns else []
  {
    hide QueuedOn, HandedOver, OnWire, NumbersOn, InQueue;
    NumbersOnConcat(heard, HandedOver(msgs, id, ns, number), |ns|, other);
    NumbersHandedOver(msgs, id, ns, number, other);
  }

  lemma {:induction false} ContinuedNumbers(h: Hop, id: byte, d: Net, other: byte)
    requires h.number < MAX_CONNECTION_NUMBER && id in h.channels
    requires h.channels[id].rcv.log <= d.rcv.log && InQueue(h.msgs, id, d.rcv.log)
    requires NumbersOn(h.heard, |h.heard|, id) == h.channels[id].rcv.log
    ensures var g := Continued(h, id, d);
            NumbersOn(g.heard, |g.heard|, other)
            == if other == id then d.rcv.log else NumbersOn(h.heard, |h.heard|, other)
  {
    hide QueuedOn, HandedOver, OnWire, NumbersOn, InQueue;
    LaterInQueue(h.msgs, id, d.rcv.log, |h.channels[id].rcv.log|);
    var g, ns := Continued(h, id, d), d.rcv.log[|h.channels[id].rcv.log|..];
    MoreNumbers(h.heard, h.msgs, id, ns, h.number, other);
  }

  lemma {:induction false} LaterInQueue(msgs: seq<Sending>, id: byte, ns: seq<nat>, k: nat)
    requires InQueue(msgs, id, ns) && k <= |ns|
    ensures InQueue(msgs, id, ns[k..])
  {
    hide QueuedOn;
  }

  lemma {:induction false} NewHeard(h: Hop, id: byte, d: Net, i: nat)
    requires h.number < MAX_CONNECTION_NUMBER && id in h.channels
    requires h.channels[id].rcv.log <= d.rcv.log && InQueue(h.msgs, id, d.rcv.log)
    requires forall n :: n in d.rcv.log ==>
               n in d.rcv.store && d.rcv.store[n] == Stamp(QueuedOn(h.msgs, id)[n], n, id)
    requires |h.heard| <= i < |Continued(h, id, d).heard|
    ensures HeardOk(Continued(h, id, d), i)
  {
    hide QueuedOn, HandedOver, OnWire, Stamp;
    var ns := d.rcv.log[|h.channels[id].rcv.log|..];
    var n := ns[i - |h.heard|];
    assert n in ns && n in d.rcv.log;
    assert Continued(h, id, d).heard[i] == HandedOver(h.msgs, id, ns, h.number)[i - |h.heard|];
  }

  // ------------------------------------------------------------------------- all channels do

  /** g goes on from h: the same messages, nothing handed over is taken back, the channels in
      `ids` have been drained by lossless rounds and the others have not moved. */
  ghost predicate GoesOn(h: Hop, g: Hop, ids: set<byte>) {
    && g.msgs == h.msgs && g.number == h.number && h.heard <= g.heard && g.channels.Keys == h.channels.Keys
    && forall id :: id in h.channels ==>
         if id in ids then DrainedFrom(h.channels[id], g.channels[id], IsOrdered(id), id)
         else g.channels[id] == h.channels[id]
  }

  lemma {:induction false} ChannelsDrain(h: Hop, delay: int, ids: set<byte>) returns (g: Hop)
    requires HopOk(h) && ids <= h.channels.Keys
    ensures HopOk(g) && GoesOn(h, g, ids)
    decreases |ids|
  {
    hide HopOk, DrainedFrom, Reachable, Grows, QueuedOn;
    if ids == {} {
      g := h;
    } else {
      var id :| id in ids;
      var before := ChannelsDrain(h, delay, ids - {id});
      ChannelReached(before, id);
      var d := ChannelDrains(before.channels[id], delay, IsOrdered(id), id);
      g := OneChannelOn(before, id, d);
    }
  }

  lemma {:induction false} ChannelReached(h: Hop, id: byte)
    requires HopOk(h) && id in h.channels
    ensures Reachable(h.channels[id], IsOrdered(id), id)
  {
    hide Reachable, QueuedOn, NumbersOn;
    assert ChannelOk(h, id);
  }

  lemma {:induction false} OneChannelOn(h: Hop, id: byte, d: Net) returns (g: Hop)
    requires HopOk(h) && id in h.channels && Reachable(d, IsOrdered(id), id)
    requires d.enqueued == h.channels[id].enqueued && Grows(h.channels[id].rcv, d.rcv)
    ensures HopOk(g) && g.msgs == h.msgs && g.number == h.number && h.heard <= g.heard
    ensures g.channels == h.channels[id := d]
  {
    hide Reachable, QueuedOn, ChannelOk, HeardOk;
    ContinuedOk(h, id, d);
    g := Continued(h, id, d);
  }

  // ------------------------------------------------------------------------------ the theorem

  /** Every message has been delivered, once and unchanged, and no fragment is held. */
  ghost predicate AllDelivered(h: Hop)
    requires HopOk(h)
  {
    var arr := Arrivals(h);
    && HeldAfter(arr, |arr|) == map[]
    && (forall m :: 0 <= m < |h.msgs| ==> IsDelivered(h.msgs, arr, m))
    && (forall i, j :: 0 <= i < j < |arr| && Output(arr, i).Some? && Output(arr, j).Some? ==> arr[i].m != arr[j].m)
  }

  /** From every state of a hop, whatever was lost so far on whichever channels, lossless rounds
      on each of its channels bring every message through, as long as ids do not clash. */
  lemma {:induction false} HopDrains(h: Hop, delay: int) returns (g: Hop)
    requires HopOk(h) && forall m :: 0 <= m < |h.msgs| ==> h.msgs[m].channelID in h.channels
    ensures HopOk(g) && GoesOn(h, g, h.channels.Keys)
    ensures IdsFree(g.msgs, Arrivals(g)) ==> AllDelivered(g)
  {
    hide HopOk, Arrivals, IdsFree, Output, HeldAfter, IsDelivered;
    g := ChannelsDrain(h, delay, h.channels.Keys);
    if IdsFree(g.msgs, Arrivals(g)) { HopDeliversAll(g); }
  }

  /** They never clash while at most 65536 of the messages are fragmented. */
  lemma {:induction false} HopDrainsFew(h: Hop, delay: int, first: nat) returns (g: Hop)
    requires HopOk(h) && forall m :: 0 <= m < |h.msgs| ==> h.msgs[m].channelID in h.channels
    requires Consecutive(h.msgs, first) && Rank(h.msgs, |h.msgs|) <= 65536
    ensures HopOk(g) && GoesOn(h, g, h.channels.Keys) && AllDelivered(g)
  {
    hide HopOk, Arrivals, IdsFree, AllDelivered, ArrivalsOk, Consecutive, Apart;
    g := HopDrains(h, delay);
    ArrivalsAreOk(g);
    IdsFreeExactly(g.msgs, Arrivals(g), first);
    FewAreApart(g.msgs, Arrivals(g));
  }

  lemma {:induction false} FewAreApart(msgs: seq<Sending>, arr: seq<Arrival>)
    requires ArrivalsOk(msgs, arr) && Rank(msgs, |msgs|) <= 65536
    ensures Apart(msgs, arr)
  {
    hide Partial, Parts, Fits;
    forall n, m | 0 <= n < |arr| && 0 <= m < |msgs| && m != arr[n].m
                  && !Fits(msgs[arr[n].m]) && Partial(msgs, arr, n, m)
      ensures RankDistance(msgs, m, arr[n].m) % 65536 != 0
    {
      PartialIsFragmented(msgs, arr, n, m);
      if m < arr[n].m { RankGrows(msgs, m, arr[n].m); } else { RankGrows(msgs, arr[n].m, m); }
      RankGrows(msgs, m, |msgs|);
      RankGrows(msgs, arr[n].m, |msgs|);
    }
  }
}
