/** One end of a reliable channel over unbounded sequence numbers.

    The sender is a window of pending packets, the receiver a store of every first copy.
    Only what crosses the wire is bounded: a packet carries its number modulo 32768, an
    acknowledgement carries a window start modulo 32768 and a set of slots below 64. */
module ReliableModel {
  import opened Bits
  import opened Sequences
  import opened Packets

  // ------------------------------------------------------------------ sending side

  datatype Pending = Pending(pkt: ChannelPacket, timeStamp: int, isSent: bool)

  datatype Sender = Sender(window: nat, next: nat, pending: map<nat, Pending>, outgoing: seq<ChannelPacket>)

  const EMPTY_SENDER := Sender(0, 0, map[], [])

  predicate SenderOk(s: Sender) {
    && s.window <= s.next <= s.window + WINDOW_SIZE
    && forall n :: n in s.pending ==> s.window <= n < s.next
  }

  /** The number of queued packets the window has room for. */
  function Room(s: Sender): (k: nat)
    requires s.window <= s.next <= s.window + WINDOW_SIZE
    ensures k <= |s.outgoing|
  {
    Min(|s.outgoing|, WINDOW_SIZE - (s.next - s.window))
  }

  /** The oldest queued packets move into the window and are numbered in order. */
  function Fill(s: Sender, id: byte): (r: Sender)
    requires SenderOk(s)
    ensures SenderOk(r)
  {
    FillSome(s, Room(s), id)
  }

  function FillSome(s: Sender, k: nat, id: byte): (r: Sender)
    requires SenderOk(s) && k <= Room(s)
    ensures SenderOk(r)
  {
    var r := Sender(s.window, s.next + k,
                    s.pending + map n | s.next <= n < s.next + k :: Fresh(s.outgoing, s.next, n, id),
                    s.outgoing[k..]);
    assert forall n :: n in r.pending ==> n in s.pending || s.next <= n < s.next + k;
    r
  }

  /** The entry of number n when the queue starts at number `base`. */
  function Fresh(queue: seq<ChannelPacket>, base: nat, n: nat, id: byte): Pending
    requires base <= n < base + |queue|
  {
    Pending(Stamp(queue[n - base], n, id), 0, false)
  }

  /** A pending packet is due unless it was sent less than `delay` ago. */
  predicate Due(p: Pending, now: int, delay: int) {
    !p.isSent || now - p.timeStamp >= delay
  }

  function Touch(p: Pending, now: int, delay: int): Pending {
    if Due(p, now, delay) then p.(timeStamp := now, isSent := true) else p
  }

  function TouchAll(pending: map<nat, Pending>, now: int, delay: int): map<nat, Pending> {
    map n | n in pending :: Touch(pending[n], now, delay)
  }

  /** The due packets numbered from lo up to hi, in order. */
  function DuePackets(pending: map<nat, Pending>, lo: nat, hi: nat, now: int, delay: int): seq<ChannelPacket>
    requires lo <= hi
    decreases hi - lo
  {
    if lo == hi then []
    else DuePackets(pending, lo, hi - 1, now, delay)
         + if hi - 1 in pending && Due(pending[hi - 1], now, delay) then [pending[hi - 1].pkt] else []
  }

  /** One send tick. */
  function SendTick(s: Sender, id: byte, now: int, delay: int): (r: Sender)
    requires SenderOk(s)
    ensures SenderOk(r)
  {
    var f := Fill(s, id);
    f.(pending := TouchAll(f.pending, now, delay))
  }

  function TickPackets(s: Sender, id: byte, now: int, delay: int): seq<ChannelPacket>
    requires SenderOk(s)
  {
    var f := Fill(s, id);
    DuePackets(f.pending, f.window, f.next, now, delay)
  }

  /** The first number from w on that is not acknowledged below the limit. */
  function Advance(w: nat, limit: nat, slots: set<nat>): (r: nat)
    requires w <= limit
    ensures w <= r <= limit
    ensures forall n {:trigger Slot(n)} :: w <= n < r ==> Slot(n) in slots
    ensures r < limit ==> Slot(r) !in slots
    decreases limit - w
  {
    if w < limit && Slot(w) in slots then Advance(w + 1, limit, slots) else w
  }

  /** An acknowledgement as it arrives: a wire window start and the set of acknowledged slots. */
  predicate AckAccepted(s: Sender, wireStart: nat) {
    && wireStart < MAX_SEQUENCE
    && 0 <= RelativeSequence(Wire(s.window), wireStart) < WINDOW_SIZE
  }

  function AckLimit(s: Sender, wireStart: nat): (limit: nat)
    requires s.window <= s.next && AckAccepted(s, wireStart)
    ensures s.window <= limit <= s.next
  {
    Min(s.next, s.window - RelativeSequence(Wire(s.window), wireStart) + WINDOW_SIZE)
  }

  function Min(a: nat, b: nat): nat { if a <= b then a else b }

  function AckArrives(s: Sender, wireStart: nat, slots: set<nat>): (r: Sender)
    requires SenderOk(s)
    ensures SenderOk(r)
  {
    if !AckAccepted(s, wireStart) then s
    else
      var limit := AckLimit(s, wireStart);
      var w := Advance(s.window, limit, slots);
      assert forall n | n in s.pending && !(n < limit && Slot(n) in slots) :: w <= n < s.next;
      Sender(w, s.next, map n | n in s.pending && !(n < limit && Slot(n) in slots) :: s.pending[n], s.outgoing)
  }

  /** A tick sends the due pending packets and nothing else. */
  lemma {:induction false} DueIsSent(pending: map<nat, Pending>, lo: nat, hi: nat, now: int, delay: int,
                                     p: ChannelPacket)
    requires lo <= hi
    ensures p in DuePackets(pending, lo, hi, now, delay)
            <==> exists n :: lo <= n < hi && n in pending && Due(pending[n], now, delay) && p == pending[n].pkt
    decreases hi - lo
  {
    if lo < hi {
      DueIsSent(pending, lo, hi - 1, now, delay, p);
      var last := if hi - 1 in pending && Due(pending[hi - 1], now, delay) then [pending[hi - 1].pkt] else [];
      assert p in DuePackets(pending, lo, hi, now, delay)
             <==> p in DuePackets(pending, lo, hi - 1, now, delay) || p in last;
    }
  }

  // ---------------------------------------------------------------- receiving side

  /** `log` lists the numbers handed to the peer, in order. */
  datatype Receiver = Receiver(window: nat, next: nat, store: map<nat, ChannelPacket>, log: seq<nat>, ackDue: bool)

  const EMPTY_RECEIVER := Receiver(0, 0, map[], [], false)

  /** lo, lo + 1, ..., hi - 1 */
  function Range(lo: nat, hi: nat): (r: seq<nat>)
    requires lo <= hi
    ensures |r| == hi - lo && forall i :: 0 <= i < |r| ==> r[i] == lo + i
  {
    seq(hi - lo, i requires 0 <= i < hi - lo => lo + i)
  }

  /** The least number from k on that is missing from s. */
  function Mex(s: set<nat>, k: nat): (m: nat)
    ensures m >= k && m !in s && forall n :: k <= n < m ==> n in s
    decreases From(s, k)
  {
    if k !in s then k
    else
      assert k in From(s, k) && From(s, k + 1) <= From(s, k);
      Mex(s, k + 1)
  }

  ghost function From(s: set<nat>, k: nat): set<nat> { set n | n in s && n >= k }

  predicate Receivable(r: Receiver, n: int) {
    0 <= n - r.window < 2 * WINDOW_SIZE && n - r.next <= WINDOW_SIZE
  }

  /** The window moves just far enough to contain n. */
  function SlideTo(window: nat, n: nat): nat {
    if n - window >= WINDOW_SIZE then n - WINDOW_SIZE + 1 else window
  }

  /** A receivable packet arrives under its true number: remember the first copy, hand over
      what became deliverable. */
  function Store(r: Receiver, ordered: bool, n: nat, p: ChannelPacket): Receiver {
    var slid := r.(window := SlideTo(r.window, n), ackDue := true);
    if n in r.store then slid
    else
      var store := r.store[n := p];
      var next := if n == r.next then Mex(store.Keys, n + 1) else r.next;
      slid.(store := store, next := next, log := r.log + if ordered then Range(r.next, next) else [n])
  }

  /** What a packet does that is read as number n. */
  function ReadAs(r: Receiver, ordered: bool, n: int, p: ChannelPacket): Receiver {
    if p.Sequence() < MAX_SEQUENCE && Receivable(r, n) then Store(r, ordered, n, p) else r
  }

  /** What a packet off the wire does: its number is read relative to the receive window. */
  function PacketArrives(r: Receiver, ordered: bool, p: ChannelPacket): Receiver {
    ReadAs(r, ordered, Reconstruct(r.window, p.Sequence()), p)
  }

  /** The facts every receiver keeps, whatever arrives. */
  ghost predicate ReceiverOk(r: Receiver, ordered: bool) {
    && r.window <= r.next + 1 && r.next <= r.window + WINDOW_SIZE
    && (forall n :: n in r.store ==> n < r.window + WINDOW_SIZE)
    && (forall n :: 0 <= n < r.next ==> n in r.store)
    && r.next !in r.store
    && (ordered ==> r.log == Range(0, r.next))
    && (!ordered ==> Distinct(r.log) && forall n :: n in r.log <==> n in r.store)
  }

  ghost predicate Distinct(s: seq<nat>) {
    forall i, j :: 0 <= i < j < |s| ==> s[i] != s[j]
  }

  /** A receiver only ever learns: nothing received or handed over is taken back. */
  ghost predicate Grows(r: Receiver, q: Receiver) {
    && r.log <= q.log && r.window <= q.window && r.next <= q.next
    && (forall m :: m in r.store ==> m in q.store && q.store[m] == r.store[m])
  }

  lemma {:induction false} StoreKeepsOk(r: Receiver, ordered: bool, n: nat, p: ChannelPacket)
    requires ReceiverOk(r, ordered) && Receivable(r, n)
    ensures var q := Store(r, ordered, n, p);
            ReceiverOk(q, ordered) && Grows(r, q) && n in q.store && q.ackDue
  {
    var q := Store(r, ordered, n, p);
    if n !in r.store {
      StoreKeepsNext(r, ordered, n, p);
      if ordered {
        assert q.log == Range(0, q.next);
      } else {
        AppendDistinct(r.log, n);
      }
    }
  }

  lemma {:induction false} StoreKeepsNext(r: Receiver, ordered: bool, n: nat, p: ChannelPacket)
    requires ReceiverOk(r, ordered) && Receivable(r, n) && n !in r.store
    ensures var q := Store(r, ordered, n, p);
            && r.next <= q.next
            && q.window <= q.next + 1 && q.next <= q.window + WINDOW_SIZE
            && (forall m :: m in q.store ==> m < q.window + WINDOW_SIZE)
            && (forall m :: 0 <= m < q.next ==> m in q.store)
            && q.next !in q.store
  {
    var q := Store(r, ordered, n, p);
    assert q.store.Keys == r.store.Keys + {n};
    assert q.next > 0 ==> q.next - 1 in q.store;
  }

  lemma {:induction false} AppendDistinct(s: seq<nat>, n: nat)
    requires Distinct(s) && n !in s
    ensures Distinct(s + [n]) && forall m :: m in s + [n] <==> m in s || m == n
  {}

  /** Every arrival at all, honest or not and whichever number it is read as, keeps the receiver
      in order: an ordered channel has handed over exactly the numbers below `next` in order, an
      unordered one each stored number once, and `next` is the least number not received. */
  lemma {:induction false} ArrivalKeepsOk(r: Receiver, ordered: bool, n: int, p: ChannelPacket)
    requires ReceiverOk(r, ordered)
    ensures var q := ReadAs(r, ordered, n, p);
            ReceiverOk(q, ordered) && Grows(r, q) && (r.ackDue ==> q.ackDue)
  {
    if p.Sequence() < MAX_SEQUENCE && Receivable(r, n) {
      StoreKeepsOk(r, ordered, n, p);
    }
  }

  /** Taken, and acknowledged, is exactly what lies less than 128 numbers ahead of the window
      and at most 64 ahead of the next number; whatever else arrives changes nothing. */
  lemma {:induction false} TakenExactly(r: Receiver, ordered: bool, n: int, p: ChannelPacket)
    ensures var q := ReadAs(r.(ackDue := false), ordered, n, p);
            && (q.ackDue <==> p.Sequence() < 32768 && r.window <= n < r.window + 128 && n <= r.next + 64)
            && (q.ackDue ==> q.store.Keys == r.store.Keys + {n})
            && (q.ackDue ==> q.window == if n < r.window + 64 then r.window else n - 63)
            && (!q.ackDue ==> q == r.(ackDue := false))
  {}

  /** The window may pass the next number, which can then never be received: exactly by a packet
      64 numbers ahead of it, one more than a sender can be. */
  lemma {:induction false} WindowPassesExactly(r: Receiver, ordered: bool, n: int, p: ChannelPacket)
    requires ReceiverOk(r, ordered) && r.window <= r.next
    ensures var q := ReadAs(r, ordered, n, p);
            q.window > q.next <==> p.Sequence() < 32768 && n == r.next + 64 && n < r.window + 128
    ensures var q := ReadAs(r, ordered, n, p);
            q.window > q.next ==> forall other :: ReadAs(q, ordered, q.next, other) == q
  {
    if p.Sequence() < MAX_SEQUENCE && Receivable(r, n) {
      StoreKeepsOk(r, ordered, n, p);
    }
  }

  lemma {:induction false} MexUnique(s: set<nat>, k: nat, m: nat)
    requires k <= m && m !in s && forall n :: k <= n < m ==> n in s
    ensures Mex(s, k) == m
  {
    assert m !in s && Mex(s, k) !in s;
  }

  // ------------------------------------------------------------------ acknowledgements

  /** The acknowledgement a receiver sends: the window start and everything received so far. */
  datatype Ack = Ack(start: nat, got: set<nat>)

  function AckOf(r: Receiver): Ack { Ack(r.window, r.store.Keys) }

  /** What of it crosses the wire. */
  ghost function AckSlots(a: Ack): set<nat> {
    set n | n in a.got && a.start <= n < a.start + WINDOW_SIZE :: Slot(n)
  }

  /** Whether the acknowledgement tells the sender that n arrived. */
  predicate Covers(a: Ack, n: nat) {
    n in a.got && n < a.start + WINDOW_SIZE
  }

  lemma {:induction false} AckSlotExact(a: Ack, n: nat)
    requires a.start <= n < a.start + WINDOW_SIZE
    ensures Slot(n) in AckSlots(a) <==> Covers(a, n)
  {
    if Slot(n) in AckSlots(a) {
      var m :| m in a.got && a.start <= m < a.start + WINDOW_SIZE && Slot(m) == Slot(n);
      if m != n { SlotsDiffer(m, n); }
    }
  }
}
