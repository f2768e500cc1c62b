/** Fragment ids do run out: a hop on which a message stays outstanding on one channel while
    65535 others pass on another, and which then delivers a message that was never sent. */
module HopBounds {
  import opened Bits
  import opened Sequences
  import opened Packets
  import opened Options
  import opened ReliableModel
  import opened ReliableProtocol
  import opened ReliableBounds
  import opened Fragments
  import opened Reassembly
  import opened Hops

  const FIRST: byte := 0
  const MIDDLE: byte := 2
  const LAST := 65536

  ghost predicate InTwoParts(msgs: seq<Sending>, m: int) {
    0 <= m < |msgs| ==>
      && !Fits(msgs[m]) && |Parts(msgs[m])| == 2
      && msgs[m].channelID == if m == 0 || m == LAST then FIRST else MIDDLE
  }

  /** The first and the last message go to one unordered channel, 65535 others to an ordered
      channel in between; each of them consists of two fragments. */
  ghost predicate Crossing(msgs: seq<Sending>, first: nat) {
    |msgs| == LAST + 1 && Consecutive(msgs, first) && forall m :: InTwoParts(msgs, m)
  }

  // --------------------------------------------------------------- the unordered channel

  /** A few packets queued and sent together, none of them received. */
  lemma {:induction false} AllSent(packets: seq<ChannelPacket>, ordered: bool, id: byte) returns (c: Net)
    requires |packets| <= WINDOW_SIZE
    ensures Reachable(c, ordered, id) && Inv(c, ordered, id) && c.rcv == EMPTY_RECEIVER && c.enqueued == packets
    ensures forall n: nat :: n < |packets| ==> n in c.data
  {
    hide Reachable, Inv, Step;
    AllQueued(packets, ordered, id);
    ReachableStep(AllEnqueued(packets), SenderTicks(0, 0), ordered, id);
    c := Step(AllEnqueued(packets), SenderTicks(0, 0), ordered, id);
    ReachableInv(c, ordered, id);
    TickSends(packets, ordered, id);
  }

  function AllEnqueued(packets: seq<ChannelPacket>): Net {
    INITIAL.(snd := EMPTY_SENDER.(outgoing := packets), enqueued := packets)
  }

  lemma {:induction false} AllQueued(packets: seq<ChannelPacket>, ordered: bool, id: byte)
    ensures Reachable(AllEnqueued(packets), ordered, id)
  {
    hide Reachable;
    if packets == [] {
      InitialReachable(ordered, id);
    } else {
      var last := |packets| - 1;
      AllQueued(packets[..last], ordered, id);
      ReachableStep(AllEnqueued(packets[..last]), Enqueue(packets[last]), ordered, id);
      assert packets == packets[..last] + [packets[last]];
    }
  }

  lemma {:induction false} TickSends(packets: seq<ChannelPacket>, ordered: bool, id: byte)
    requires |packets| <= WINDOW_SIZE
    ensures var c := Step(AllEnqueued(packets), SenderTicks(0, 0), ordered, id);
            && c.rcv == EMPTY_RECEIVER && c.enqueued == packets && forall n: nat :: n < |packets| ==> n in c.data
  {
    hide Stamp;
    var f := Fill(AllEnqueued(packets).snd, id);
    forall n: nat | n < |packets|
      ensures n in SentNow(f, 0, 0)
    {
      assert f.pending[n] == Fresh(packets, 0, n, id);
    }
  }

  /** Packets 0 and 3 arrive, the two between them are late. */
  lemma {:induction false} TwoOfFour(packets: seq<ChannelPacket>, id: byte) returns (c: Net)
    requires |packets| == 4
    ensures Reachable(c, false, id) && c.enqueued == packets
    ensures c.rcv.log == [0, 3] && c.rcv.store == map[0 := Stamp(packets[0], 0, id), 3 := Stamp(packets[3], 3, id)]
  {
    hide Reachable, Inv, Step, Stamp, PacketArrives, Store;
    var a := AllSent(packets, false, id);
    var b := Taken(a, 0, id);
    StoreUnordered(a.rcv, 0, a.data[0]);
    c := Taken(b, 3, id);
    StoreUnordered(b.rcv, 3, b.data[3]);
  }

  lemma {:induction false} Taken(c: Net, n: nat, id: byte) returns (d: Net)
    requires Reachable(c, false, id) && n in c.data && n < WINDOW_SIZE && c.rcv.window == 0
    requires n <= c.rcv.next + WINDOW_SIZE
    ensures n < |c.enqueued| && Reachable(d, false, id)
    ensures d.rcv == Store(c.rcv, false, n, Stamp(c.enqueued[n], n, id)) && d.enqueued == c.enqueued && d.data == c.data
    ensures c.data[n] == Stamp(c.enqueued[n], n, id)
  {
    hide Reachable, Stamp, Store, PacketArrives, SenderOk, ReceiverOk, AckChain, Cleared, Windows;
    ReachableInv(c, false, id);
    assert Carries(c.enqueued, n, c.data[n], id);
    ReachableStep(c, DataArrives(n), false, id);
    CopyReadRight(c, false, id, n);
    d := Step(c, DataArrives(n), false, id);
  }

  lemma {:induction false} StoreUnordered(r: Receiver, n: nat, p: ChannelPacket)
    requires n !in r.store && n < WINDOW_SIZE && r.window == 0
    ensures var q := Store(r, false, n, p);
            && q.store == r.store[n := p] && q.log == r.log + [n] && q.window == 0
            && q.next == if n == r.next then Mex(r.store[n := p].Keys, n + 1) else r.next
  {}

  // --------------------------------------------------------------------------- the hop

  /** What the channels queue: the first two and the last two parts, and all the others. */
  lemma {:induction false} PartsQueued(msgs: seq<Sending>, first: nat, n: nat)
    requires Crossing(msgs, first) && 1 <= n <= LAST
    ensures PartsOn(msgs, n, FIRST) == FirstParts(0, 2) && |PartsOn(msgs, n, MIDDLE)| == 2 * (n - 1)
  {
    hide Parts, Consecutive;
    assert InTwoParts(msgs, n - 1);
    if n == 1 {
      assert PartsOn(msgs, 0, FIRST) == [];
    } else {
      PartsQueued(msgs, first, n - 1);
    }
  }

  lemma {:induction false} AllPartsQueued(msgs: seq<Sending>, first: nat)
    requires Crossing(msgs, first)
    ensures PartsOn(msgs, |msgs|, FIRST) == [Part(0, 0), Part(0, 1), Part(LAST, 0), Part(LAST, 1)]
    ensures |PartsOn(msgs, |msgs|, MIDDLE)| == 2 * (LAST - 1)
    ensures |QueuedOn(msgs, FIRST)| == 4 && |QueuedOn(msgs, MIDDLE)| == 2 * (LAST - 1)
  {
    hide Parts, Consecutive;
    PartsQueued(msgs, first, LAST);
    assert InTwoParts(msgs, LAST);
    assert PartsOn(msgs, LAST + 1, FIRST) == FirstParts(0, 2) + FirstParts(LAST, 2);
  }

  const MIDDLE_COUNT := 2 * (LAST - 1)

  /** The first part of the first message, everything of the middle channel in order, and the
      second part of the last message. */
  ghost function HeardAll(msgs: seq<Sending>, first: nat): (heard: seq<Heard>)
    requires Crossing(msgs, first)
    ensures |heard| == MIDDLE_COUNT + 2
  {
    seq(MIDDLE_COUNT + 2, i requires 0 <= i < MIDDLE_COUNT + 2 => HeardAt(msgs, first, i))
  }

  ghost function HeardAt(msgs: seq<Sending>, first: nat, i: nat): Heard
    requires Crossing(msgs, first) && i < MIDDLE_COUNT + 2
  {
    AllPartsQueued(msgs, first);
    if i == 0 then Heard(FIRST, 0, OnWire(msgs, FIRST, 0, 0))
    else if i <= MIDDLE_COUNT then Heard(MIDDLE, i - 1, OnWire(msgs, MIDDLE, i - 1, 0))
    else Heard(FIRST, 3, OnWire(msgs, FIRST, 3, 0))
  }

  lemma {:induction false} NumbersHeard(msgs: seq<Sending>, first: nat, n: nat)
    requires Crossing(msgs, first) && 1 <= n <= MIDDLE_COUNT + 1
    ensures NumbersOn(HeardAll(msgs, first), n, FIRST) == [0]
    ensures NumbersOn(HeardAll(msgs, first), n, MIDDLE) == Range(0, n - 1)
  {
    hide Crossing, OnWire, HeardAll;
    var heard := HeardAll(msgs, first);
    HeardNumber(msgs, first, n - 1);
    if n == 1 {
      assert NumbersOn(heard, 0, FIRST) == [] && NumbersOn(heard, 0, MIDDLE) == [];
    } else {
      NumbersHeard(msgs, first, n - 1);
      assert Range(0, n - 1) == Range(0, n - 2) + [n - 2];
    }
  }

  lemma {:induction false} HeardNumber(msgs: seq<Sending>, first: nat, i: nat)
    requires Crossing(msgs, first) && i <= MIDDLE_COUNT
    ensures var e := HeardAll(msgs, first)[i];
            if i == 0 then e.id == FIRST && e.n == 0 else e.id == MIDDLE && e.n == i - 1
  {
    hide Crossing, OnWire;
  }

  lemma {:induction false} CrossingHop(msgs: seq<Sending>, first: nat) returns (h: Hop)
    requires Crossing(msgs, first)
    ensures HopOk(h) && h.msgs == msgs && h.heard == HeardAll(msgs, first)
  {
    hide Reachable, Inv, Stamp, Crossing, QueuedOn, NumbersOn, OnWire, HeardAt;
    AllPartsQueued(msgs, first);
    var a := TwoOfFour(QueuedOn(msgs, FIRST), FIRST);
    var b := InStepReached(QueuedOn(msgs, MIDDLE), true, MIDDLE);
    h := Hop(msgs, map[FIRST := a, MIDDLE := b], HeardAll(msgs, first), 0);
    NumbersHeard(msgs, first, MIDDLE_COUNT + 1);
    MiddleStored(b, QueuedOn(msgs, MIDDLE));
    EndNumbers(msgs, first);
    forall i: int
      ensures HeardOk(h, i)
    {
      CrossingHeard(h, first, i);
    }
  }

  ghost predicate StoredAt(c: Net, packets: seq<ChannelPacket>, n: nat, id: byte) {
    n < |packets| && n in c.rcv.store && c.rcv.store[n] == Stamp(packets[n], n, id)
  }

  lemma {:induction false} CrossingHeard(h: Hop, first: nat, i: int)
    requires Crossing(h.msgs, first) && h.heard == HeardAll(h.msgs, first) && h.number == 0
    requires FIRST in h.channels && MIDDLE in h.channels
    requires StoredAt(h.channels[FIRST], QueuedOn(h.msgs, FIRST), 0, FIRST)
    requires StoredAt(h.channels[FIRST], QueuedOn(h.msgs, FIRST), 3, FIRST)
    requires forall n: nat :: n < MIDDLE_COUNT ==> StoredAt(h.channels[MIDDLE], QueuedOn(h.msgs, MIDDLE), n, MIDDLE)
    ensures HeardOk(h, i)
  {
    hide Stamp, Crossing, QueuedOn, HeardAll;
    if 0 <= i < |h.heard| {
      HeardIs(h.msgs, first, i);
      var e := h.heard[i];
      assert StoredAt(h.channels[e.id], QueuedOn(h.msgs, e.id), e.n, e.id);
    }
  }

  lemma {:induction false} HeardIs(msgs: seq<Sending>, first: nat, i: nat)
    requires Crossing(msgs, first) && i < MIDDLE_COUNT + 2
    ensures var e := HeardAll(msgs, first)[i];
            && e.id == (if i == 0 || i == MIDDLE_COUNT + 1 then FIRST else MIDDLE)
            && e.n == (if i == 0 then 0 else if i == MIDDLE_COUNT + 1 then 3 else i - 1)
            && e.n < |QueuedOn(msgs, e.id)|
            && e.pkt == Stamp(QueuedOn(msgs, e.id)[e.n], e.n, e.id).SetConnectionNumber(0)
  {
    hide Crossing, QueuedOn, Stamp;
    AllPartsQueued(msgs, first);
  }

  lemma {:induction false} EndNumbers(msgs: seq<Sending>, first: nat)
    requires Crossing(msgs, first)
    ensures var heard := HeardAll(msgs, first);
            NumbersOn(heard, |heard|, FIRST) == [0, 3] && NumbersOn(heard, |heard|, MIDDLE) == Range(0, MIDDLE_COUNT)
  {
    hide Crossing, OnWire;
    NumbersHeard(msgs, first, MIDDLE_COUNT + 1);
  }

  /** Everything in step has been handed over in order. */
  lemma {:induction false} MiddleStored(c: Net, packets: seq<ChannelPacket>)
    requires Inv(c, true, MIDDLE) && InStep(c, packets)
    ensures c.rcv.log == Range(0, |packets|)
    ensures forall n: nat :: n < |packets| ==> StoredAt(c, packets, n, MIDDLE)
  {
    hide Stamp, SenderOk, AckChain, Cleared, Windows;
    forall n: nat | n < |packets|
      ensures StoredAt(c, packets, n, MIDDLE)
    {
      assert Carries(c.enqueued, n, c.rcv.store[n], MIDDLE);
    }
  }

  // ------------------------------------------------------------------ what it delivers

  ghost predicate IsCrossing(h: Hop, first: nat) {
    && HopOk(h) && |h.msgs| == LAST + 1 && |h.heard| == MIDDLE_COUNT + 2
    && Crossing(h.msgs, first) && h.heard == HeardAll(h.msgs, first)
  }

  /** The arrivals before the last one. */
  ghost function Earlier(h: Hop): seq<Arrival>
    requires HopOk(h) && |h.heard| == MIDDLE_COUNT + 2
  {
    Arrivals(h)[..MIDDLE_COUNT + 1]
  }

  /** When the last fragment arrives, message m is outstanding. */
  ghost predicate Outstanding(h: Hop, m: nat)
    requires HopOk(h) && |h.heard| == MIDDLE_COUNT + 2
  {
    Partial(h.msgs, Earlier(h), MIDDLE_COUNT + 1, m)
  }

  /** Which part each arrival is. */
  lemma {:induction false} ArrivalIs(h: Hop, first: nat, i: nat)
    requires IsCrossing(h, first) && i < MIDDLE_COUNT + 2
    ensures var e := Arrivals(h)[i];
            && (i == 0 ==> e.m == 0 && e.k == 0)
            && (i == MIDDLE_COUNT + 1 ==> e.m == LAST && e.k == 1)
            && (0 < i <= MIDDLE_COUNT ==> 0 < e.m < LAST)
  {
    hide Parts, Stamp, QueuedOn, PartsOn, Reachable, NumbersOn, OnWire, Consecutive;
    HeardIs(h.msgs, first, i);
    HeardPart(h, i);
    AllPartsQueued(h.msgs, first);
    PartAt(h.msgs, |h.msgs|, h.heard[i].id, h.heard[i].n);
    assert InTwoParts(h.msgs, Arrivals(h)[i].m);
  }

  /** The arrivals before the last one. */
  lemma {:induction false} EarlierArrivals(h: Hop, first: nat)
    requires IsCrossing(h, first)
    ensures var arr := Earlier(h);
            ArrivalsOk(h.msgs, arr) && IdsFree(h.msgs, arr) && forall i :: 0 <= i < |arr| ==> arr[i].m < LAST
  {
    hide HopOk, Crossing, Arrivals, IsPiece, Parts, Partial;
    var arr := Earlier(h);
    ArrivalsAreOk(h);
    forall i, j
      ensures DifferentParts(arr, i, j)
    {
      assert DifferentParts(Arrivals(h), i, j);
    }
    forall i | 0 <= i < |arr|
      ensures arr[i].m < LAST
    {
      ArrivalIs(h, first, i);
    }
    forall n, m | 0 <= n < |arr| && 0 <= m < |h.msgs| && m != arr[n].m && Partial(h.msgs, arr, n, m)
      ensures h.msgs[m].id != h.msgs[arr[n].m].id
    {
      PartialArrived(h.msgs, arr, n, m);
      CrossingIds(h.msgs, first, m, arr[n].m);
    }
  }

  lemma {:induction false} PartialArrived(msgs: seq<Message>, arr: seq<Arrival>, n: nat, m: nat)
    requires Partial(msgs, arr, n, m)
    ensures exists i :: 0 <= i < |arr| && arr[i].m == m
  {
    var k :| Here(arr, n, m, k);
  }

  lemma {:induction false} CrossingId(msgs: seq<Sending>, first: nat, m: nat)
    requires Crossing(msgs, first) && m < |msgs|
    ensures msgs[m].id == NthId(first, m + 1)
  {
    hide Parts, Fits, NthId;
    CrossingRank(msgs, first, m);
    assert InTwoParts(msgs, m);
  }

  /** Of these messages exactly the first and the last share an id. */
  lemma {:induction false} CrossingIds(msgs: seq<Sending>, first: nat, a: nat, b: nat)
    requires Crossing(msgs, first) && a < |msgs| && b < |msgs| && a != b
    ensures a < LAST && b < LAST ==> msgs[a].id != msgs[b].id
    ensures msgs[0].id == msgs[LAST].id
  {
    hide Consecutive, InTwoParts, NthId;
    CrossingId(msgs, first, a);
    CrossingId(msgs, first, b);
    CrossingId(msgs, first, 0);
    CrossingId(msgs, first, LAST);
    if a < LAST && b < LAST { NearIdsDiffer(first, a + 1, b + 1); }
    IdsRepeat(first, 1);
  }

  lemma {:induction false} NearIdsDiffer(first: nat, x: nat, y: nat)
    requires x != y && -LAST < x - y < LAST
    ensures NthId(first, x) != NthId(first, y)
  {
    hide NthId;
    SameId(first, x, y);
  }

  lemma {:induction false} IdsRepeat(first: nat, n: nat)
    ensures NthId(first, n + LAST) == NthId(first, n)
  {}

  lemma {:induction false} CrossingRank(msgs: seq<Sending>, first: nat, m: nat)
    requires Crossing(msgs, first) && m <= |msgs|
    ensures Rank(msgs, m) == m
  {
    hide Parts, Fits, Consecutive;
    if m > 0 {
      CrossingRank(msgs, first, m - 1);
      assert InTwoParts(msgs, m - 1);
    }
  }

  /** Before the last arrival the first message is outstanding, and no other is. */
  lemma {:induction false} OnlyFirstOutstanding(h: Hop, first: nat, m: nat)
    requires IsCrossing(h, first) && m < |h.msgs|
    ensures Outstanding(h, m) <==> m == 0
    ensures !Here(Earlier(h), MIDDLE_COUNT + 1, 0, 1)
  {
    hide HopOk, Arrivals, IsPiece, Parts, PartsOn, Consecutive;
    var arr, n := Earlier(h), MIDDLE_COUNT + 1;
    forall i | 0 <= i < n
      ensures arr[i] == Arrivals(h)[i] && (arr[i].m == 0 ==> i == 0 && arr[i].k == 0) && arr[i].m < LAST
    {
      ArrivalIs(h, first, i);
    }
    ArrivalIs(h, first, 0);
    assert InTwoParts(h.msgs, 0) && InTwoParts(h.msgs, m);
    assert Here(arr, n, 0, 0) && !Here(arr, n, 0, 1);
    if 0 < m < LAST {
      MiddleHere(h, first, m, 0);
      MiddleHere(h, first, m, 1);
    }
  }

  lemma {:induction false} MiddleHere(h: Hop, first: nat, m: nat, k: nat)
    requires IsCrossing(h, first) && 0 < m < LAST && k < 2
    ensures Here(Earlier(h), MIDDLE_COUNT + 1, m, k)
  {
    hide HopOk, Arrivals, IsPiece, Parts, PartsOn, Consecutive;
    AllPartsQueued(h.msgs, first);
    assert InTwoParts(h.msgs, m);
    PositionOf(h.msgs, |h.msgs|, MIDDLE, Part(m, k));
    var j := |PartsOn(h.msgs, m, MIDDLE)| + k;
    SamePart(h, first, j, m, k);
    assert Earlier(h)[j + 1].m == m && Earlier(h)[j + 1].k == k;
  }

  lemma {:induction false} SamePart(h: Hop, first: nat, j: nat, m: nat, k: nat)
    requires IsCrossing(h, first) && j < MIDDLE_COUNT
    requires |PartsOn(h.msgs, |h.msgs|, MIDDLE)| == MIDDLE_COUNT && PartsOn(h.msgs, |h.msgs|, MIDDLE)[j] == Part(m, k)
    ensures Arrivals(h)[j + 1].m == m && Arrivals(h)[j + 1].k == k
  {
    hide Parts, Stamp, QueuedOn, PartsOn, Reachable, NumbersOn, OnWire, Crossing;
    HeardIs(h.msgs, first, j + 1);
    HeardPart(h, j + 1);
  }

  lemma {:induction false} HeldOfPrefix(arr: seq<Arrival>, last: nat, n: nat)
    requires n <= last <= |arr|
    ensures HeldAfter(arr, n) == HeldAfter(arr[..last], n)
  {
    hide AddPacket;
    if n > 0 { HeldOfPrefix(arr, last, n - 1); }
  }

  /** The last arrival completes the entry of the first message with a part of the last one:
      the peer delivers a message that was never sent. */
  lemma {:induction false} SharedIdDelivers(msgs: seq<Sending>, first: nat) returns (h: Hop)
    requires |msgs| == LAST + 1 && Crossing(msgs, first)
    ensures HopOk(h) && h.msgs == msgs && |Arrivals(h)| == MIDDLE_COUNT + 2
    ensures forall m: nat :: m < |msgs| ==> (Outstanding(h, m) <==> m == 0)
    ensures var out := Output(Arrivals(h), MIDDLE_COUNT + 1);
            && |Parts(msgs[0])| == |Parts(msgs[LAST])| == 2
            && out.Some? && out.value.data == Parts(msgs[0])[0] + Parts(msgs[LAST])[1]
  {
    hide HopOk, Crossing, Arrivals, Parts, Partial, Output, Earlier;
    h := CrossingHop(msgs, first);
    forall m: nat | m < |msgs|
      ensures Outstanding(h, m) <==> m == 0
    {
      OnlyFirstOutstanding(h, first, m);
    }
    LastOutput(h, first);
  }

  lemma {:induction false} LastOutput(h: Hop, first: nat)
    requires IsCrossing(h, first)
    ensures var out := Output(Arrivals(h), MIDDLE_COUNT + 1);
            && |Parts(h.msgs[0])| == |Parts(h.msgs[LAST])| == 2
            && out.Some? && out.value.data == Parts(h.msgs[0])[0] + Parts(h.msgs[LAST])[1]
  {
    hide HopOk, Crossing, Arrivals, Parts, HeldAfter, IdsFree, ArrivalsOk, Join, AddPacket, IncomingOk;
    var arr, n := Arrivals(h), MIDDLE_COUNT + 1;
    assert |Parts(h.msgs[0])| == |Parts(h.msgs[LAST])| == 2 by { TwoPartsEach(h.msgs, first); }
    EarlierArrivals(h, first);
    HeldThroughout(h.msgs, Earlier(h), n);
    HeldOfPrefix(arr, n, n);
    OnlyFirstOutstanding(h, first, 0);
    ArrivalIs(h, first, n);
    LastArrival(h);
    CrossingIds(h.msgs, first, 0, LAST);
    var held, q := HeldAfter(arr, n), arr[n].pkt;
    EntryOfFirst(h, first, held);
    var inc := held[h.msgs[0].id];
    LastPiece(h.msgs, first, q);
    SharedIdMixes(held, inc, q, KindOf(arr[n]));
    JoinTwo(inc.fragments[0], Some(q));
    assert inc.fragments[1 := Some(q)] == [inc.fragments[0], Some(q)];
  }

  lemma {:induction false} TwoPartsEach(msgs: seq<Sending>, first: nat)
    requires Crossing(msgs, first)
    ensures |Parts(msgs[0])| == |Parts(msgs[LAST])| == 2
  {
    hide Parts, Fits, Consecutive;
    assert InTwoParts(msgs, 0) && InTwoParts(msgs, LAST);
  }

  lemma {:induction false} LastArrival(h: Hop)
    requires HopOk(h) && |h.heard| == MIDDLE_COUNT + 2
    ensures var e := Arrivals(h)[MIDDLE_COUNT + 1]; e.m < |h.msgs| && IsPiece(e.pkt, h.msgs[e.m], e.k)
  {
    hide HopOk, Arrivals, IsPiece;
    ArrivalsAreOk(h);
  }

  /** What the peer holds under the shared id. */
  lemma {:induction false} EntryOfFirst(h: Hop, first: nat, held: Held)
    requires IsCrossing(h, first)
    requires HeldIsPartial(held, h.msgs, Earlier(h), MIDDLE_COUNT + 1)
    ensures h.msgs[0].id in held
    ensures var inc := held[h.msgs[0].id];
            && |inc.fragments| == 2 && inc.fragments[1] == None && |Parts(h.msgs[0])| == 2
            && Payload(inc.fragments[0]) == Parts(h.msgs[0])[0]
            && inc.received == 1 && inc.channelID == FIRST as nat
  {
    hide HopOk, Arrivals, Parts, Partial, Consecutive, Join, Here;
    OnlyFirstOutstanding(h, first, 0);
    assert InTwoParts(h.msgs, 0);
    var arr, n := Earlier(h), MIDDLE_COUNT + 1;
    FirstHere(h, first);
    var inc := held[h.msgs[0].id];
    assert Matches(inc, h.msgs, arr, n, 0) && Here(arr, n, 0, 0) && !Here(arr, n, 0, 1);
    CountTwo(inc.fragments[0], inc.fragments[1]);
    assert inc.fragments == [inc.fragments[0], inc.fragments[1]];
  }

  lemma {:induction false} FirstHere(h: Hop, first: nat)
    requires IsCrossing(h, first)
    ensures Here(Earlier(h), MIDDLE_COUNT + 1, 0, 0)
  {
    hide HopOk, Arrivals, Parts, Crossing;
    ArrivalIs(h, first, 0);
    assert Earlier(h)[0] == Arrivals(h)[0];
  }

  lemma {:induction false} CountTwo(a: Option<ReliablePacket>, b: Option<ReliablePacket>)
    ensures Count([a, b]) == (if a.Some? then 1 else 0) + if b.Some? then 1 else 0
  {
    assert [a, b][..1] == [a] && [a][..0] == [];
    assert Count([a]) == if a.Some? then 1 else 0;
  }

  lemma {:induction false} JoinTwo(a: Option<ReliablePacket>, b: Option<ReliablePacket>)
    ensures Join([a, b]) == Payload(a) + Payload(b)
  {
    assert [a, b][..1] == [a] && [a][..0] == [];
    assert Join([a]) == Join([]) + Payload(a) == Payload(a);
  }

  lemma {:induction false} LastPiece(msgs: seq<Sending>, first: nat, q: ReliablePacket)
    requires |msgs| == LAST + 1 && Crossing(msgs, first) && IsPiece(q, msgs[LAST], 1)
    ensures q.IsFragmented() && q.FragmentID() == msgs[LAST].id && q.FragmentPart() == 1
    ensures q.ChannelID() == FIRST as nat
    ensures Payload(Some(q)) == Parts(msgs[LAST])[1]
  {
    hide Chunks, Consecutive;
    assert InTwoParts(msgs, LAST);
  }

  // -------------------------------------------------------------------------- an example

  /** Messages of 1500 bytes at the smallest MTU: zeros first, ones in all others. */
  function Examples(first: nat): seq<Message> {
    seq(LAST + 1, m requires 0 <= m <= LAST =>
      Message(seq(1500, _ => if m == 0 then 0 else 1), if m == 0 || m == LAST then FIRST else MIDDLE,
              SMALLEST_MTU, NthId(first, m + 1)))
  }

  lemma {:induction false} ExamplesCross(first: nat) returns (msgs: seq<Sending>)
    ensures Crossing(msgs, first) && msgs == Examples(first)
  {
    hide Parts, NthId, Rank, Sendable;
    var all := Examples(first);
    forall m | 0 <= m < |all|
      ensures !Fits(all[m]) && |Parts(all[m])| == 2 && Sendable(all[m])
    {
      TwoParts(all[m]);
    }
    msgs := all;
    forall m | 0 <= m <= |all|
      ensures Rank(all, m) == m
    {
      AllFragmented(all, m);
    }
  }

  lemma {:induction false} AllFragmented(all: seq<Message>, m: nat)
    requires m <= |all| && forall k :: 0 <= k < |all| ==> !Fits(all[k])
    ensures Rank(all, m) == m
  {
    hide Fits;
    if m > 0 { AllFragmented(all, m - 1); }
  }

  lemma {:induction false} TwoParts(m: Message)
    requires |m.data| == 1500 && m.mtu == SMALLEST_MTU && m.id < 65536
    ensures !Fits(m) && |Parts(m)| == 2 && Sendable(m)
    ensures Parts(m) == [m.data[..1014], m.data[1014..]]
  {
    hide Chunks;
    ChunkCount(m.data, 1014);
    ChunkAt(m.data, 1014, 0, 0);
    ChunkAt(m.data, 1014, 1, 1014);
    assert Parts(m)[0] == m.data[..1014] && Parts(m)[1] == m.data[1014..];
  }

  /** Fewer than 65536 outstanding messages are not enough: there are messages, and a hop that
      carries them, on which a single message is outstanding when the last fragment arrives,
      and on which the peer then delivers bytes that no message consists of. */
  lemma {:induction false} FewOutstandingMix(first: nat) returns (h: Hop)
    ensures HopOk(h) && Consecutive(h.msgs, first) && |Arrivals(h)| == MIDDLE_COUNT + 2
    ensures forall m: nat :: m < |h.msgs| ==> (Outstanding(h, m) <==> m == 0)
    ensures var out := Output(Arrivals(h), MIDDLE_COUNT + 1);
            out.Some? && forall m :: 0 <= m < |h.msgs| ==> h.msgs[m].data != out.value.data
  {
    hide HopOk, Arrivals, Parts, Partial, Output, Examples, Consecutive;
    var msgs := ExamplesCross(first);
    h := SharedIdDelivers(msgs, first);
    var out := Output(Arrivals(h), MIDDLE_COUNT + 1).value.data;
    forall m | 0 <= m < |msgs|
      ensures msgs[m].data != out
    {
      MixedIsNew(first, msgs, out, m);
    }
  }

  lemma {:induction false} MixedIsNew(first: nat, msgs: seq<Sending>, out: seq<byte>, m: nat)
    requires msgs == Examples(first) && m <= LAST && out == Parts(msgs[0])[0] + Parts(msgs[LAST])[1]
    ensures msgs[m].data != out
  {
    hide Parts, NthId, Sendable;
    TwoParts(msgs[0]);
    TwoParts(msgs[LAST]);
    assert out[0] == 0 && out[1014] == 1;
  }
}
