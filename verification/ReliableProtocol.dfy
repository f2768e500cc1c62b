/** A reliable channel end to end: one sender, one receiver and a network that may lose,
    repeat and reorder everything.

    The network keeps every packet and every acknowledgement ever sent, and any of them may
    arrive at any time, any number of times. Loss is an arrival that never happens. The only
    restriction is on age: a data copy arrives at most 32768 - 128 numbers behind the receive
    window, an acknowledgement less than 32768 behind the send window. */
module ReliableProtocol {
  import opened Bits
  import opened Sequences
  import opened Packets
  import opened ReliableModel

  const MAX_DATA_AGE := MAX_SEQUENCE - 2 * WINDOW_SIZE

  /** `enqueued` is everything the application ever queued; `data` maps the number of every
      packet ever sent to its bytes; `acks` holds every acknowledgement ever sent. */
  datatype Net = Net(snd: Sender, rcv: Receiver, enqueued: seq<ChannelPacket>,
                     data: map<nat, ChannelPacket>, acks: set<Ack>)

  datatype Event =
    | Enqueue(p: ChannelPacket)
    | SenderTicks(now: int, delay: int)
    | DataArrives(n: nat)
    | ReceiverTicks
    | AckArrives(a: Ack)

  const INITIAL := Net(EMPTY_SENDER, EMPTY_RECEIVER, [], map[], {})

  predicate Enabled(c: Net, e: Event) {
    match e
    case DataArrives(n) => n in c.data && c.rcv.window - n <= MAX_DATA_AGE
    case AckArrives(a) => a in c.acks && c.snd.window - a.start < MAX_SEQUENCE
    case _ => true
  }

  /** What a tick puts on the wire, by number. */
  function SentNow(f: Sender, now: int, delay: int): map<nat, ChannelPacket> {
    map n | n in f.pending && Due(f.pending[n], now, delay) :: f.pending[n].pkt
  }

  ghost function Step(c: Net, e: Event, ordered: bool, id: byte): Net
    requires SenderOk(c.snd) && Enabled(c, e)
  {
    match e
    case Enqueue(p) =>
      c.(snd := c.snd.(outgoing := c.snd.outgoing + [p]), enqueued := c.enqueued + [p])
    case SenderTicks(now, delay) =>
      c.(snd := SendTick(c.snd, id, now, delay), data := c.data + SentNow(Fill(c.snd, id), now, delay))
    case DataArrives(n) =>
      c.(rcv := PacketArrives(c.rcv, ordered, c.data[n]))
    case ReceiverTicks =>
      if c.rcv.ackDue then c.(rcv := c.rcv.(ackDue := false), acks := c.acks + {AckOf(c.rcv)}) else c
    case AckArrives(a) =>
      c.(snd := ReliableModel.AckArrives(c.snd, Wire(a.start), AckSlots(a)))
  }

  /** A run visits the states cs by the events es. */
  ghost predicate Run(cs: seq<Net>, es: seq<Event>, ordered: bool, id: byte) {
    && |cs| == |es| + 1
    && cs[0] == INITIAL
    && forall i :: 0 <= i < |es| ==>
         SenderOk(cs[i].snd) && Enabled(cs[i], es[i]) && cs[i + 1] == Step(cs[i], es[i], ordered, id)
  }

  // ----------------------------------------------------------------------- invariant

  /** p is the n-th queued packet with its number on it. */
  ghost predicate Carries(enqueued: seq<ChannelPacket>, n: nat, p: ChannelPacket, id: byte) {
    n < |enqueued| && p == Stamp(enqueued[n], n, id)
  }

  /** An earlier acknowledgement says no more than a later one. */
  ghost predicate Before(a: Ack, b: Ack) {
    a.start <= b.start && a.got <= b.got
  }

  ghost predicate Windows(c: Net) {
    c.rcv.window <= c.snd.window <= c.rcv.next <= c.snd.next
  }

  ghost predicate Contents(c: Net, id: byte) {
    && c.snd.next <= |c.enqueued| && c.snd.outgoing == c.enqueued[c.snd.next..]
    && (forall n :: n in c.snd.pending ==> Carries(c.enqueued, n, c.snd.pending[n].pkt, id))
    && (forall n :: n in c.rcv.store ==> n < c.snd.next && Carries(c.enqueued, n, c.rcv.store[n], id))
    && (forall n :: n in c.data ==> n < c.snd.next && Carries(c.enqueued, n, c.data[n], id))
  }

  ghost predicate AckChain(acks: set<Ack>, newest: Ack) {
    && (forall a :: a in acks ==> Before(a, newest))
    && (forall a, b :: a in acks && b in acks ==> Before(a, b) || Before(b, a))
  }

  /** An empty slot was emptied by an acknowledgement that did not reach the window start. */
  ghost predicate ClearedBy(acks: set<Ack>, window: nat, n: nat, a: Ack) {
    a in acks && Covers(a, n) && !Covers(a, window)
  }

  ghost predicate Cleared(s: Sender, acks: set<Ack>) {
    forall n :: s.window <= n < s.next && n !in s.pending ==> exists a :: ClearedBy(acks, s.window, n, a)
  }

  ghost predicate Inv(c: Net, ordered: bool, id: byte) {
    SenderOk(c.snd) && ReceiverOk(c.rcv, ordered) && Windows(c) && Contents(c, id)
    && AckChain(c.acks, AckOf(c.rcv)) && Cleared(c.snd, c.acks)
  }

  // ------------------------------------------------------------------ reading numbers

  /** A copy no older than the bound is read as what it is, or dropped. */
  lemma {:induction false} CopyReadRight(c: Net, ordered: bool, id: byte, n: nat)
    requires Inv(c, ordered, id) && Enabled(c, DataArrives(n))
    ensures PacketArrives(c.rcv, ordered, c.data[n])
            == if Receivable(c.rcv, n) then Store(c.rcv, ordered, n, c.data[n]) else c.rcv
  {
    assert Carries(c.enqueued, n, c.data[n], id);
    ReadRight(c.rcv, n);
  }

  lemma {:induction false} ReadRight(r: Receiver, n: nat)
    requires -MAX_DATA_AGE <= n - r.window < 2 * WINDOW_SIZE && r.next <= r.window + WINDOW_SIZE
    ensures var m := Reconstruct(r.window, Wire(n));
            if Receivable(r, n) then m == n else !Receivable(r, m)
  {
    ReconstructWire(r.window, n);
  }

  /** Some whole number of cycles above n there is a number the receiver is ready for. */
  predicate ReadyLater(r: Receiver, n: nat, k: int) {
    k >= 1 && Receivable(r, n + k * MAX_SEQUENCE)
  }

  /** What becomes of a copy from behind the window, however old. It is taken for a new packet
      exactly when a number that the receiver is ready for lies whole cycles above its own, and
      then it is taken for that one; every other copy is dropped, and so is every one within the
      age bound. */
  lemma {:induction false} StaleCopyMisread(r: Receiver, ordered: bool, n: nat, p: ChannelPacket)
    requires ReceiverOk(r, ordered) && n < r.window && p.Sequence() == Wire(n)
    ensures Receivable(r, Reconstruct(r.window, Wire(n))) <==> exists k :: ReadyLater(r, n, k)
    ensures forall k :: ReadyLater(r, n, k)
                        ==> PacketArrives(r, ordered, p) == Store(r, ordered, n + k * MAX_SEQUENCE, p)
    ensures (forall k :: !ReadyLater(r, n, k)) ==> PacketArrives(r, ordered, p) == r
    ensures r.window - n <= MAX_DATA_AGE ==> forall k :: !ReadyLater(r, n, k)
  {
    hide Reconstruct, Store, ReceiverOk, Wire;
    ReconstructWire(r.window, n);
    var m := Reconstruct(r.window, Wire(n));
    var cycles := (m - n) / MAX_SEQUENCE;
    assert m == n + cycles * MAX_SEQUENCE;
    assert Receivable(r, m) ==> ReadyLater(r, n, cycles);
    forall k | ReadyLater(r, n, k)
      ensures k == cycles && r.window - n > MAX_DATA_AGE
    {
      OneReading(r.window, n, m, k, cycles);
    }
  }

  /** Two readings of a number near the window are the same. */
  lemma {:induction false} OneReading(window: nat, n: nat, m: int, k: int, cycles: int)
    requires m == n + cycles * MAX_SEQUENCE && -HALF_MAX_SEQUENCE <= m - window < HALF_MAX_SEQUENCE
    requires k >= 1 && 0 <= n + k * MAX_SEQUENCE - window < 2 * WINDOW_SIZE
    ensures k == cycles && window - n > MAX_DATA_AGE
  {}

  /** How an acknowledgement within its age bound is read. */
  lemma {:induction false} AckReading(s: Sender, a: Ack)
    requires SenderOk(s) && 0 <= s.window - a.start < MAX_SEQUENCE
    ensures AckAccepted(s, Wire(a.start)) <==> s.window - a.start < WINDOW_SIZE
    ensures AckAccepted(s, Wire(a.start)) ==> AckLimit(s, Wire(a.start)) == Min(s.next, a.start + WINDOW_SIZE)
  {
    RelativeExact(s.window, a.start);
  }

  /** An acknowledgement within its age bound does what its numbers say. */
  lemma {:induction false} HonestAck(s: Sender, a: Ack)
    requires SenderOk(s) && 0 <= s.window - a.start < MAX_SEQUENCE
    ensures var t := ReliableModel.AckArrives(s, Wire(a.start), AckSlots(a));
            && t.next == s.next && t.outgoing == s.outgoing && s.window <= t.window <= t.next
            && (s.window - a.start >= WINDOW_SIZE ==> t == s)
            && (s.window - a.start < WINDOW_SIZE ==>
                  && (forall n {:trigger Covers(a, n)} :: s.window <= n < t.window ==> Covers(a, n))
                  && (t.window < s.next ==> !Covers(a, t.window))
                  && (forall n :: n in t.pending <==> n in s.pending && !Covers(a, n)))
            && (forall n :: n in t.pending ==> n in s.pending && t.pending[n] == s.pending[n])
  {
    hide RelativeSequence, Wire, Slot, AckSlots;
    AckReading(s, a);
    if s.window - a.start < WINDOW_SIZE {
      forall n | a.start <= n < a.start + WINDOW_SIZE
        ensures Slot(n) in AckSlots(a) <==> Covers(a, n)
      {
        AckSlotExact(a, n);
      }
    }
  }

  // -------------------------------------------------------------------- preservation

  lemma {:induction false} InitialInv(ordered: bool, id: byte)
    ensures Inv(INITIAL, ordered, id)
  {}

  lemma {:induction false} EnqueueKeepsInv(c: Net, ordered: bool, id: byte, p: ChannelPacket)
    requires Inv(c, ordered, id)
    ensures Inv(Step(c, Enqueue(p), ordered, id), ordered, id)
  {
    var d := Step(c, Enqueue(p), ordered, id);
    assert forall n, q :: Carries(c.enqueued, n, q, id) ==> Carries(d.enqueued, n, q, id);
  }

  lemma {:induction false} TickKeepsInv(c: Net, ordered: bool, id: byte, now: int, delay: int)
    requires Inv(c, ordered, id)
    ensures Inv(Step(c, SenderTicks(now, delay), ordered, id), ordered, id)
  {
    var d := Step(c, SenderTicks(now, delay), ordered, id);
    TickContents(c, ordered, id, now, delay);
    forall n | d.snd.window <= n < d.snd.next && n !in d.snd.pending
      ensures exists a :: ClearedBy(d.acks, d.snd.window, n, a)
    {
      assert n !in Fill(c.snd, id).pending;
    }
  }

  lemma {:induction false} TickContents(c: Net, ordered: bool, id: byte, now: int, delay: int)
    requires SenderOk(c.snd) && Contents(c, id)
    ensures Contents(Step(c, SenderTicks(now, delay), ordered, id), id)
  {
    hide Stamp;
    var f := Fill(c.snd, id);
    forall n | n in f.pending
      ensures n < f.next && Carries(c.enqueued, n, f.pending[n].pkt, id)
    {
      if n >= c.snd.next { assert f.pending[n] == Fresh(c.snd.outgoing, c.snd.next, n, id); }
    }
  }

  lemma {:induction false} DataKeepsInv(c: Net, ordered: bool, id: byte, n: nat)
    requires Inv(c, ordered, id) && Enabled(c, DataArrives(n))
    ensures Inv(Step(c, DataArrives(n), ordered, id), ordered, id)
  {
    CopyReadRight(c, ordered, id, n);
    if Receivable(c.rcv, n) {
      StoreContents(c, ordered, id, n);
      AckChainGrows(c.acks, AckOf(c.rcv), AckOf(Store(c.rcv, ordered, n, c.data[n])));
    }
  }

  lemma {:induction false} StoreContents(c: Net, ordered: bool, id: byte, n: nat)
    requires Inv(c, ordered, id) && n in c.data && Receivable(c.rcv, n)
    ensures var r := Store(c.rcv, ordered, n, c.data[n]);
            && ReceiverOk(r, ordered) && Windows(c.(rcv := r)) && Contents(c.(rcv := r), id)
            && Before(AckOf(c.rcv), AckOf(r))
  {
    hide Stamp;
    var r := Store(c.rcv, ordered, n, c.data[n]);
    StoreKeepsOk(c.rcv, ordered, n, c.data[n]);
    StoreAdds(c.rcv, ordered, n, c.data[n]);
    assert r.next > 0 ==> r.next - 1 in r.store;
  }

  lemma {:induction false} StoreAdds(r: Receiver, ordered: bool, n: nat, p: ChannelPacket)
    requires Receivable(r, n)
    ensures var q := Store(r, ordered, n, p);
            && q.window == SlideTo(r.window, n)
            && forall m :: m in q.store ==> (m in r.store && q.store[m] == r.store[m]) || (m == n && q.store[m] == p)
  {}

  lemma {:induction false} AckChainGrows(acks: set<Ack>, a: Ack, b: Ack)
    requires AckChain(acks, a) && Before(a, b)
    ensures AckChain(acks, b)
  {}

  lemma {:induction false} ReceiverTickKeepsInv(c: Net, ordered: bool, id: byte)
    requires Inv(c, ordered, id)
    ensures Inv(Step(c, ReceiverTicks, ordered, id), ordered, id)
  {
    hide Stamp;
    var d := Step(c, ReceiverTicks, ordered, id);
    assert AckChain(d.acks, AckOf(d.rcv));
    assert forall m, a :: ClearedBy(c.acks, c.snd.window, m, a) ==> ClearedBy(d.acks, c.snd.window, m, a);
  }

  /** The heart of the sender's safety: acknowledgements form a chain, so one that empties a
      slot without reaching the window start can never be contradicted by an older one. */
  lemma {:induction false} AckKeepsInv(c: Net, ordered: bool, id: byte, a: Ack)
    requires Inv(c, ordered, id) && Enabled(c, AckArrives(a))
    ensures Inv(Step(c, AckArrives(a), ordered, id), ordered, id)
  {
    var t := ReliableModel.AckArrives(c.snd, Wire(a.start), AckSlots(a));
    AckWindows(c, ordered, id, a);
    forall n | t.window <= n < t.next && n !in t.pending
      ensures exists b :: ClearedBy(c.acks, t.window, n, b)
    {
      AckClears(c, a, t, n);
    }
  }

  lemma {:induction false} AckWindows(c: Net, ordered: bool, id: byte, a: Ack)
    requires Inv(c, ordered, id) && Enabled(c, AckArrives(a))
    ensures var t := ReliableModel.AckArrives(c.snd, Wire(a.start), AckSlots(a));
            && t.next == c.snd.next && t.outgoing == c.snd.outgoing
            && c.snd.window <= t.window <= c.rcv.next
            && (forall n :: n in t.pending ==> n in c.snd.pending && t.pending[n] == c.snd.pending[n])
            && (t != c.snd ==>
                  && (c.snd.window < t.window ==> Covers(a, c.snd.window))
                  && (t.window < t.next ==> !Covers(a, t.window))
                  && (forall n :: n in c.snd.pending && n !in t.pending ==> Covers(a, n)))
  {
    assert Before(a, AckOf(c.rcv));
    HonestAck(c.snd, a);
    assert !Covers(a, c.rcv.next);
  }

  lemma {:induction false} AckClears(c: Net, a: Ack, t: Sender, n: nat)
    requires AckChain(c.acks, AckOf(c.rcv)) && Cleared(c.snd, c.acks) && a in c.acks
    requires c.snd.window <= t.window <= n < t.next == c.snd.next && n !in t.pending
    requires t != c.snd ==> c.snd.window < t.window ==> Covers(a, c.snd.window)
    requires t != c.snd ==> !Covers(a, t.window) && (n in c.snd.pending ==> Covers(a, n))
    ensures exists b :: ClearedBy(c.acks, t.window, n, b)
  {
    if t != c.snd && n in c.snd.pending {
      assert ClearedBy(c.acks, t.window, n, a);
    } else {
      var b :| ClearedBy(c.acks, c.snd.window, n, b);
      if t.window == c.snd.window {
        assert ClearedBy(c.acks, t.window, n, b);
      } else {
        assert Covers(a, c.snd.window) && !Covers(b, c.snd.window);
        assert !Before(a, b);
        assert ClearedBy(c.acks, t.window, n, a);
      }
    }
  }

  lemma {:induction false} StepKeepsInv(c: Net, e: Event, ordered: bool, id: byte)
    requires Inv(c, ordered, id) && Enabled(c, e)
    ensures Inv(Step(c, e, ordered, id), ordered, id)
  {
    match e
    case Enqueue(p) => EnqueueKeepsInv(c, ordered, id, p);
    case SenderTicks(now, delay) => TickKeepsInv(c, ordered, id, now, delay);
    case DataArrives(n) => DataKeepsInv(c, ordered, id, n);
    case ReceiverTicks => ReceiverTickKeepsInv(c, ordered, id);
    case AckArrives(a) => AckKeepsInv(c, ordered, id, a);
  }

  lemma {:induction false} RunKeepsInv(cs: seq<Net>, es: seq<Event>, ordered: bool, id: byte, i: nat)
    requires Run(cs, es, ordered, id) && i < |cs|
    ensures Inv(cs[i], ordered, id)
  {
    if i == 0 {
      InitialInv(ordered, id);
    } else {
      RunKeepsInv(cs, es, ordered, id, i - 1);
      StepKeepsInv(cs[i - 1], es[i - 1], ordered, id);
    }
  }

  /** c is the last state of some run. */
  ghost predicate Reachable(c: Net, ordered: bool, id: byte) {
    exists cs, es :: Run(cs, es, ordered, id) && cs[|es|] == c
  }

  lemma {:induction false} ReachableInv(c: Net, ordered: bool, id: byte)
    requires Reachable(c, ordered, id)
    ensures Inv(c, ordered, id)
  {
    hide Step, Inv;
    var cs, es :| Run(cs, es, ordered, id) && cs[|es|] == c;
    RunKeepsInv(cs, es, ordered, id, |es|);
  }

  lemma {:induction false} ReachableStep(c: Net, e: Event, ordered: bool, id: byte)
    requires Reachable(c, ordered, id) && Enabled(c, e)
    ensures SenderOk(c.snd) && Reachable(Step(c, e, ordered, id), ordered, id)
  {
    hide Step, Enabled, Inv;
    var cs, es :| Run(cs, es, ordered, id) && cs[|es|] == c;
    RunKeepsInv(cs, es, ordered, id, |es|);
    SenderIsOk(c, ordered, id);
    assert Run(cs + [Step(c, e, ordered, id)], es + [e], ordered, id);
  }

  lemma {:induction false} SenderIsOk(c: Net, ordered: bool, id: byte)
    requires Inv(c, ordered, id)
    ensures SenderOk(c.snd)
  {}

  lemma {:induction false} InitialReachable(ordered: bool, id: byte)
    ensures Reachable(INITIAL, ordered, id)
  {
    assert Run([INITIAL], [], ordered, id) && [INITIAL][0] == INITIAL;
  }

  // ------------------------------------------------------------------ what a run delivers

  /** The queued packets with their numbers on them. */
  ghost function Numbered(enqueued: seq<ChannelPacket>, id: byte): seq<ChannelPacket> {
    seq(|enqueued|, n requires 0 <= n < |enqueued| => Stamp(enqueued[n], n, id))
  }

  /** The packets handed to the peer, in order. */
  ghost function DeliveredPackets(r: Receiver): seq<ChannelPacket>
    requires forall n :: n in r.log ==> n in r.store
  {
    seq(|r.log|, k requires 0 <= k < |r.log| => assert r.log[k] in r.log; r.store[r.log[k]])
  }

  /** Ordered channels deliver a prefix of what was queued, across any number of cycles. */
  lemma {:induction false} OrderedPrefix(cs: seq<Net>, es: seq<Event>, id: byte, i: nat)
    requires Run(cs, es, true, id) && i < |cs|
    ensures forall n :: n in cs[i].rcv.log ==> n in cs[i].rcv.store
    ensures DeliveredPackets(cs[i].rcv) <= Numbered(cs[i].enqueued, id)
    ensures |DeliveredPackets(cs[i].rcv)| == cs[i].rcv.next <= cs[i].snd.next
  {
    RunKeepsInv(cs, es, true, id, i);
    var c := cs[i];
    forall k | 0 <= k < c.rcv.next
      ensures c.rcv.log[k] == k && c.rcv.store[k] == Stamp(c.enqueued[k], k, id)
    {
      assert Carries(c.enqueued, k, c.rcv.store[k], id);
    }
  }

  /** Unordered channels deliver each packet at most once and unchanged, deliver it as soon as
      a first copy is taken, and always know the least number that is missing. */
  lemma {:induction false} UnorderedExactlyOnce(cs: seq<Net>, es: seq<Event>, id: byte, i: nat)
    requires Run(cs, es, false, id) && i < |cs|
    ensures var c := cs[i];
            && Distinct(c.rcv.log)
            && (forall n :: n in c.rcv.log <==> n in c.rcv.store)
            && (forall n :: n in c.rcv.log ==> n < |c.enqueued| && c.rcv.store[n] == Stamp(c.enqueued[n], n, id))
            && c.rcv.next == Mex(c.rcv.store.Keys, 0)
  {
    RunKeepsInv(cs, es, false, id, i);
    var c := cs[i];
    MexUnique(c.rcv.store.Keys, 0, c.rcv.next);
    assert forall n :: n in c.rcv.store ==> Carries(c.enqueued, n, c.rcv.store[n], id);
  }

  /** Nothing handed over is ever taken back or changed later in the run. */
  lemma {:induction false} DeliveryIsFinal(cs: seq<Net>, es: seq<Event>, ordered: bool, id: byte, i: nat, j: nat)
    requires Run(cs, es, ordered, id) && i <= j < |cs|
    ensures Grows(cs[i].rcv, cs[j].rcv) && cs[i].enqueued <= cs[j].enqueued
    decreases j
  {
    if i < j {
      hide Step, Grows;
      DeliveryIsFinal(cs, es, ordered, id, i, j - 1);
      RunKeepsInv(cs, es, ordered, id, j - 1);
      StepGrows(cs[j - 1], es[j - 1], ordered, id);
      GrowsTransitive(cs[i].rcv, cs[j - 1].rcv, cs[j].rcv);
    }
  }

  lemma {:induction false} StepGrows(c: Net, e: Event, ordered: bool, id: byte)
    requires Inv(c, ordered, id) && Enabled(c, e)
    ensures Grows(c.rcv, Step(c, e, ordered, id).rcv) && c.enqueued <= Step(c, e, ordered, id).enqueued
  {
    if e.DataArrives? {
      ArrivalKeepsOk(c.rcv, ordered, Reconstruct(c.rcv.window, c.data[e.n].Sequence()), c.data[e.n]);
    }
  }

  lemma {:induction false} GrowsTransitive(a: Receiver, b: Receiver, c: Receiver)
    requires Grows(a, b) && Grows(b, c)
    ensures Grows(a, c)
  {}

  /** The sender never forgets an undelivered packet, and the window start is always held. */
  lemma {:induction false} SenderNeverForgets(cs: seq<Net>, es: seq<Event>, ordered: bool, id: byte, i: nat)
    requires Run(cs, es, ordered, id) && i < |cs|
    ensures var c := cs[i];
            && (forall n: nat :: n < c.snd.next && n !in c.snd.pending ==> n in c.rcv.store)
            && (forall n :: n in c.snd.pending ==>
                  n < |c.enqueued| && c.snd.pending[n].pkt == Stamp(c.enqueued[n], n, id))
            && (c.snd.window != c.snd.next ==> c.snd.window in c.snd.pending)
            && c.snd.next <= |c.enqueued| && c.snd.outgoing == c.enqueued[c.snd.next..]
  {
    RunKeepsInv(cs, es, ordered, id, i);
    var c := cs[i];
    EmptySlotsArrived(c, ordered, id);
    assert forall n :: n in c.snd.pending ==> Carries(c.enqueued, n, c.snd.pending[n].pkt, id);
  }

  lemma {:induction false} EmptySlotsArrived(c: Net, ordered: bool, id: byte)
    requires Inv(c, ordered, id)
    ensures forall n: nat :: n < c.snd.next && n !in c.snd.pending ==> n in c.rcv.store
    ensures c.snd.window != c.snd.next ==> c.snd.window in c.snd.pending
  {
    forall n: nat | n < c.snd.next && n !in c.snd.pending
      ensures n in c.rcv.store
    {
      if n >= c.snd.window { EmptySlot(c, n); }
    }
    WindowStartHeld(c);
  }

  lemma {:induction false} WindowStartHeld(c: Net)
    requires SenderOk(c.snd) && AckChain(c.acks, AckOf(c.rcv)) && Cleared(c.snd, c.acks)
    ensures c.snd.window != c.snd.next ==> c.snd.window in c.snd.pending
  {
    if c.snd.window < c.snd.next && c.snd.window !in c.snd.pending { EmptySlot(c, c.snd.window); }
  }

  lemma {:induction false} EmptySlot(c: Net, n: nat)
    requires AckChain(c.acks, AckOf(c.rcv)) && Cleared(c.snd, c.acks)
    requires c.snd.window <= n < c.snd.next && n !in c.snd.pending
    ensures n in c.rcv.store && n != c.snd.window
  {
    var a :| ClearedBy(c.acks, c.snd.window, n, a);
    assert Before(a, AckOf(c.rcv));
  }

  /** The two windows stay within reach of each other, so a retransmission of any packet the
      sender still holds is read under its own number, taken, and acknowledged. */
  lemma {:induction false} RetransmissionIsTaken(cs: seq<Net>, es: seq<Event>, ordered: bool, id: byte, i: nat, n: nat)
    requires Run(cs, es, ordered, id) && i < |cs|
    ensures var c := cs[i];
            && c.rcv.window <= c.snd.window <= c.rcv.next <= c.snd.next <= c.snd.window + WINDOW_SIZE
            && c.rcv.next <= c.rcv.window + WINDOW_SIZE
    ensures var c := cs[i];
            n in c.snd.pending ==>
              var r := PacketArrives(c.rcv, ordered, c.snd.pending[n].pkt);
              && r == Store(c.rcv, ordered, n, c.snd.pending[n].pkt)
              && n in r.store && r.ackDue
  {
    RunKeepsInv(cs, es, ordered, id, i);
    var c := cs[i];
    if n in c.snd.pending {
      HeldIsTaken(c, ordered, id, n);
    }
  }

  lemma {:induction false} HeldIsTaken(c: Net, ordered: bool, id: byte, n: nat)
    requires Inv(c, ordered, id) && c.snd.window <= n < c.snd.next
    ensures Receivable(c.rcv, n) && n in Store(c.rcv, ordered, n, Stamp(c.enqueued[n], n, id)).store
    ensures n in c.snd.pending ==>
              PacketArrives(c.rcv, ordered, c.snd.pending[n].pkt) == Store(c.rcv, ordered, n, c.snd.pending[n].pkt)
  {
    ReadRight(c.rcv, n);
    StoreKeepsOk(c.rcv, ordered, n, Stamp(c.enqueued[n], n, id));
    if n in c.snd.pending { assert Carries(c.enqueued, n, c.snd.pending[n].pkt, id); }
  }
}
