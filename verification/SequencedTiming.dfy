/** When a sequenced channel sends: what is queued at once, and the newest packet of a reliable
    channel again at the first tick after its resend delay, however many ticks came between. */
module SequencedTiming {
  import opened Bits
  import opened Sequences
  import opened Packets
  import opened Options
  import opened Sequenced

  /** What event i sends. */
  function SentBy(cs: seq<Net>, es: seq<Event>, reliable: bool, id: byte, i: int): seq<SinglePacket> {
    if 0 <= i < |es| && i < |cs| && es[i].SenderTicks?
    then OutTick(cs[i].out, id, reliable, es[i].now, es[i].later, es[i].delay).1 else []
  }

  /** Event i was the last before j that sent anything. */
  ghost predicate LastSending(cs: seq<Net>, es: seq<Event>, reliable: bool, id: byte, i: int, j: int) {
    && 0 <= i < j && i < |es| && i < |cs| && es[i].SenderTicks? && SentBy(cs, es, reliable, id, i) != []
    && forall k :: i < k < j ==> SentBy(cs, es, reliable, id, k) == []
  }

  /** The reading of the clock that counts: the one after a queue was sent, or the one before a
      packet was repeated. */
  function TimeOf(c: Net, e: Event): int
    requires e.SenderTicks?
  {
    if c.out.outgoing != [] then e.later else e.now
  }

  lemma {:induction false} RunStep(cs: seq<Net>, es: seq<Event>, reliable: bool, id: byte, i: nat)
    requires Run(cs, es, reliable, id) && i < |es|
    ensures Inv(cs[i], reliable, id) && Enabled(cs[i], es[i]) && cs[i + 1] == Step(cs[i], es[i], reliable, id)
    ensures |cs| == |es| + 1
  {
    hide Inv, Step, Enabled;
    RunKeepsInv(cs, es, reliable, id, i);
  }

  /** What is sent and remembered, tick by tick; no other event touches the time. */
  lemma {:induction false} OutLaw(c: Net, e: Event, reliable: bool, id: byte)
    requires Inv(c, reliable, id) && Enabled(c, e)
    ensures var d := Step(c, e, reliable, id); var sent := SentBy([c], [e], reliable, id, 0);
            && (d.out.last.Some? ==> c.out.last.Some? || (e.SenderTicks? && c.out.outgoing != [] && reliable))
            && (d.out.last.Some? && !c.out.last.Some? ==> sent != [])
            && (reliable ==> d.out.lastSendTime == if sent != [] then TimeOf(c, e) else c.out.lastSendTime)
            && (e.SenderTicks? ==>
                  (sent != [] <==> c.out.outgoing != []
                                   || (reliable && c.out.last.Some? && e.now - c.out.lastSendTime >= e.delay)))
  {
    hide Number, Wire, Newer, AllNumbered, OnWire;
  }

  /** A sender that holds its newest packet remembers when it was last sent. */
  lemma {:induction false} TimeIsLastSending(cs: seq<Net>, es: seq<Event>, id: byte, j: nat) returns (i: int)
    requires Run(cs, es, true, id) && j < |cs| && cs[j].out.last.Some?
    ensures LastSending(cs, es, true, id, i, j) && cs[j].out.lastSendTime == TimeOf(cs[i], es[i])
  {
    hide Run, Inv, Step, Enabled, OutTick;
    Beginning(cs, es, true, id);
    RunStep(cs, es, true, id, j - 1);
    OutLaw(cs[j - 1], es[j - 1], true, id);
    if SentBy(cs, es, true, id, j - 1) != [] {
      i := j - 1;
    } else {
      i := TimeIsLastSending(cs, es, id, j - 1);
    }
  }

  lemma {:induction false} Beginning(cs: seq<Net>, es: seq<Event>, reliable: bool, id: byte)
    requires Run(cs, es, reliable, id)
    ensures |cs| == |es| + 1 && cs[0].out.last.None?
  {}

  lemma {:induction false} LastIsOne(cs: seq<Net>, es: seq<Event>, reliable: bool, id: byte, i: int, k: int, j: int)
    requires LastSending(cs, es, reliable, id, i, j) && LastSending(cs, es, reliable, id, k, j)
    ensures i == k
  {
    hide SentBy;
  }

  /** Exactly when a tick of a run sends: when something is queued, and on a reliable channel
      that holds its newest packet when the resend delay has elapsed since it last sent. */
  lemma {:induction false} SendsExactly(cs: seq<Net>, es: seq<Event>, reliable: bool, id: byte, j: nat)
    requires Run(cs, es, reliable, id) && j < |es| && es[j].SenderTicks?
    ensures |cs| == |es| + 1
    ensures SentBy(cs, es, reliable, id, j) != []
            <==> || cs[j].out.outgoing != []
                 || (reliable && cs[j].out.last.Some?
                     && forall i :: LastSending(cs, es, reliable, id, i, j) ==>
                          es[j].now - TimeOf(cs[i], es[i]) >= es[j].delay)
  {
    hide Run, Inv, Step, Enabled, OutTick;
    RunStep(cs, es, reliable, id, j);
    OutLaw(cs[j], es[j], reliable, id);
    if reliable && cs[j].out.last.Some? {
      var i := TimeIsLastSending(cs, es, id, j);
      forall k | LastSending(cs, es, reliable, id, k, j)
        ensures k == i
      {
        LastIsOne(cs, es, reliable, id, i, k, j);
      }
    }
  }

  /** The packets of a tick: the whole queue, each under the next number, or the newest again;
      they are what the network holds from then on. */
  ghost predicate SentRight(c: Net, d: Net, ps: seq<SinglePacket>, id: byte) {
    && |ps| == (if c.out.outgoing == [] then 1 else |c.out.outgoing|)
    && 1 <= FirstSent(c) && FirstSent(c) + |ps| == d.sent + 1 && d.sent <= |c.enqueued|
    && forall i :: 0 <= i < |ps| ==> SentAs(c, d, ps[i], FirstSent(c) + i, id)
  }

  ghost predicate SentAs(c: Net, d: Net, p: SinglePacket, n: nat, id: byte) {
    1 <= n <= |c.enqueued| && p == Number(c.enqueued[n - 1], n, id) && n in d.data && d.data[n] == p
  }

  lemma {:induction false} TickWhat(c: Net, reliable: bool, id: byte, now: int, later: int, delay: int)
    requires Inv(c, reliable, id)
    ensures var ps := OutTick(c.out, id, reliable, now, later, delay).1;
            ps != [] ==> SentRight(c, Step(c, SenderTicks(now, later, delay), reliable, id), ps, id)
  {
    hide Number, OutTick, OnWire, SenderInv, ReceiverInv, NewestKept, Step;
    TickSends(c, reliable, id, now, later, delay);
    TickShape(c, reliable, id, now, later, delay);
    var ps := OutTick(c.out, id, reliable, now, later, delay).1;
    forall i | 0 <= i < |ps|
      ensures SentAs(c, Step(c, SenderTicks(now, later, delay), reliable, id), ps[i], FirstSent(c) + i, id)
    {
      WireHolds(c.data, ps, FirstSent(c), FirstSent(c) + i);
    }
  }

  /** And what it sends. */
  lemma {:induction false} SendsWhat(cs: seq<Net>, es: seq<Event>, reliable: bool, id: byte, j: nat)
    requires Run(cs, es, reliable, id) && j < |es| && SentBy(cs, es, reliable, id, j) != []
    ensures |cs| == |es| + 1 && SentRight(cs[j], cs[j + 1], SentBy(cs, es, reliable, id, j), id)
  {
    hide Run, Inv, Step, Enabled, OutTick, SentRight;
    RunStep(cs, es, reliable, id, j);
    TickWhat(cs[j], reliable, id, es[j].now, es[j].later, es[j].delay);
  }
}
