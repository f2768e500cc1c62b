/** One hop: a peer sends messages on several reliable channels at once, every channel runs
    its own protocol, and the peer at the other end reassembles what the channels hand over. */
module Hops {
  import opened Bits
  import opened Packets
  import opened Options
  import opened ReliableModel
  import opened ReliableProtocol
  import opened Fragments
  import opened Reassembly

  type Sending = m: Message | Sendable(m) witness Message([], 0, 1024, 0)

  /** Part k of message number m. */
  datatype Part = Part(m: nat, k: nat)

  function FirstParts(m: nat, count: nat): seq<Part> { seq(count, k requires 0 <= k < count => Part(m, k)) }

  /** The parts the first n messages put on channel id, in the order they are queued. */
  function PartsOn(msgs: seq<Sending>, n: nat, id: byte): seq<Part>
    requires n <= |msgs|
  {
    if n == 0 then []
    else PartsOn(msgs, n - 1, id)
         + if msgs[n - 1].channelID == id then FirstParts(n - 1, |Parts(msgs[n - 1])|) else []
  }

  predicate PartOf(msgs: seq<Sending>, p: Part, id: byte) {
    p.m < |msgs| && msgs[p.m].channelID == id && p.k < |Parts(msgs[p.m])|
  }

  /** Every queue position holds exactly one part and every part has exactly one position. */
  lemma {:induction false} PartAt(msgs: seq<Sending>, n: nat, id: byte, j: nat)
    requires n <= |msgs| && j < |PartsOn(msgs, n, id)|
    ensures var p := PartsOn(msgs, n, id)[j];
            PartOf(msgs, p, id) && p.m < n && j == |PartsOn(msgs, p.m, id)| + p.k
  {
    hide Parts;
    var before := |PartsOn(msgs, n - 1, id)|;
    if j < before { PartAt(msgs, n - 1, id, j); }
  }

  lemma {:induction false} PositionOf(msgs: seq<Sending>, n: nat, id: byte, p: Part)
    requires n <= |msgs| && PartOf(msgs, p, id) && p.m < n
    ensures var j := |PartsOn(msgs, p.m, id)| + p.k;
            j < |PartsOn(msgs, n, id)| && PartsOn(msgs, n, id)[j] == p
  {
    hide Parts;
    if p.m < n - 1 { PositionOf(msgs, n - 1, id, p); }
  }

  /** The packets queued on channel id. */
  function QueuedOn(msgs: seq<Sending>, id: byte): seq<ReliablePacket> {
    var parts := PartsOn(msgs, |msgs|, id);
    seq(|parts|, j requires 0 <= j < |parts| => (PartAt(msgs, |msgs|, id, j); Piece(msgs[parts[j].m], parts[j].k)))
  }

  /** Packet number n of channel id on the wire, with the connection number on it. */
  ghost function OnWire(msgs: seq<Sending>, id: byte, n: nat, number: nat): (p: ReliablePacket)
    requires n < |QueuedOn(msgs, id)| && number < MAX_CONNECTION_NUMBER
    ensures p == Stamp(QueuedOn(msgs, id)[n], n, id).SetConnectionNumber(number)
  {
    PartAt(msgs, |msgs|, id, n);
    var part := PartsOn(msgs, |msgs|, id)[n];
    PiecesSurviveNumbering(msgs[part.m], part.k, n, number);
    Stamp(QueuedOn(msgs, id)[n], n, id).SetConnectionNumber(number)
  }

  // -------------------------------------------------------------------- the receiving end

  /** The channel with this id hands packet number n over to the peer. */
  datatype Heard = Heard(id: byte, n: nat, pkt: ReliablePacket)

  function NumbersOn(heard: seq<Heard>, n: nat, id: byte): seq<nat>
    requires n <= |heard|
  {
    if n == 0 then []
    else NumbersOn(heard, n - 1, id) + if heard[n - 1].id == id then [heard[n - 1].n] else []
  }

  /** The delivery method of a channel is part of its id. */
  predicate IsReliable(id: byte) { id % 2 == 0 }

  predicate IsOrdered(id: byte) { id % 4 == 2 }

  /** The state of a hop: the messages sent so far, each channel in some state its protocol
      can reach, everything handed over so far, channels interleaved in any way, and the
      connection number that every packet carries on the wire. */
  datatype Hop = Hop(msgs: seq<Sending>, channels: map<byte, Net>, heard: seq<Heard>, number: nat)

  ghost predicate ChannelOk(h: Hop, id: byte) {
    id in h.channels ==>
      && IsReliable(id)
      && Reachable(h.channels[id], IsOrdered(id), id)
      && h.channels[id].enqueued == QueuedOn(h.msgs, id)
      && NumbersOn(h.heard, |h.heard|, id) == h.channels[id].rcv.log
  }

  ghost predicate HeardOk(h: Hop, i: int) {
    0 <= i < |h.heard| && h.number < MAX_CONNECTION_NUMBER ==>
      && h.heard[i].id in h.channels
      && var store := h.channels[h.heard[i].id].rcv.store;
         h.heard[i].n in store && h.heard[i].pkt == store[h.heard[i].n].SetConnectionNumber(h.number)
  }

  ghost predicate HopOk(h: Hop) {
    h.number < MAX_CONNECTION_NUMBER && (forall id :: ChannelOk(h, id)) && forall i :: HeardOk(h, i)
  }

  /** What is handed over is the part queued at that position, with its number on it. */
  lemma {:induction false} HeardPart(h: Hop, i: nat)
    requires HopOk(h) && i < |h.heard|
    ensures var e := h.heard[i];
            && e.n < |PartsOn(h.msgs, |h.msgs|, e.id)|
            && var p := PartsOn(h.msgs, |h.msgs|, e.id)[e.n];
               PartOf(h.msgs, p, e.id) && IsPiece(e.pkt, h.msgs[p.m], p.k)
  {
    hide Parts, Reachable, Stamp, IsPiece, Piece;
    var e := h.heard[i];
    assert HeardOk(h, i) && ChannelOk(h, e.id);
    var c := h.channels[e.id];
    ReachableInv(c, IsOrdered(e.id), e.id);
    assert Carries(c.enqueued, e.n, c.rcv.store[e.n], e.id);
    PartAt(h.msgs, |h.msgs|, e.id, e.n);
    var p := PartsOn(h.msgs, |h.msgs|, e.id)[e.n];
    PiecesSurviveNumbering(h.msgs[p.m], p.k, e.n, h.number);
  }

  /** The hop as the reassembling peer sees it. */
  ghost function Arrivals(h: Hop): (arr: seq<Arrival>)
    requires HopOk(h)
    ensures |arr| == |h.heard|
  {
    seq(|h.heard|, i requires 0 <= i < |h.heard| =>
      HeardPart(h, i);
      var p := PartsOn(h.msgs, |h.msgs|, h.heard[i].id)[h.heard[i].n];
      Arrival(p.m, p.k, h.heard[i].pkt))
  }

  lemma {:induction false} NumberHeard(heard: seq<Heard>, n: nat, id: byte, x: nat)
    requires n <= |heard|
    ensures x in NumbersOn(heard, n, id) <==> exists i :: 0 <= i < n && heard[i].id == id && heard[i].n == x
  {
    if n > 0 {
      NumberHeard(heard, n - 1, id, x);
      assert NumbersOn(heard, n, id)
             == NumbersOn(heard, n - 1, id) + if heard[n - 1].id == id then [heard[n - 1].n] else [];
    }
  }

  lemma {:induction false} NumbersPrefix(heard: seq<Heard>, i: nat, n: nat, id: byte)
    requires i <= n <= |heard|
    ensures NumbersOn(heard, i, id) <= NumbersOn(heard, n, id)
    decreases n
  {
    if i < n { NumbersPrefix(heard, i, n - 1, id); }
  }

  /** A channel whose log has no repetition hands nothing over twice. */
  lemma {:induction false} HeardOnce(heard: seq<Heard>, i: nat, j: nat)
    requires i < j < |heard| && heard[i].id == heard[j].id && Distinct(NumbersOn(heard, |heard|, heard[j].id))
    ensures heard[i].n != heard[j].n
  {
    var id := heard[j].id;
    NumberHeard(heard, j, id, heard[i].n);
    NumbersPrefix(heard, j + 1, |heard|, id);
    var before := NumbersOn(heard, j, id);
    assert NumbersOn(heard, j + 1, id) == before + [heard[j].n];
    var at :| 0 <= at < |before| && before[at] == heard[i].n;
    assert NumbersOn(heard, |heard|, id)[at] == heard[i].n && NumbersOn(heard, |heard|, id)[|before|] == heard[j].n;
  }

  lemma {:induction false} LogDistinct(h: Hop, id: byte)
    requires HopOk(h) && id in h.channels
    ensures Distinct(NumbersOn(h.heard, |h.heard|, id))
    ensures IsOrdered(id) ==> NumbersOn(h.heard, |h.heard|, id) == Range(0, |NumbersOn(h.heard, |h.heard|, id)|)
  {
    hide Reachable;
    assert ChannelOk(h, id);
    ReachableInv(h.channels[id], IsOrdered(id), id);
  }

  /** The protocols below deliver what reassembly relies on: genuine parts, none twice. */
  lemma {:induction false} ArrivalsAreOk(h: Hop)
    requires HopOk(h)
    ensures ArrivalsOk(h.msgs, Arrivals(h))
  {
    hide Parts, Distinct, Reachable, IsPiece, NumbersOn;
    var arr := Arrivals(h);
    forall i | 0 <= i < |arr|
      ensures arr[i].m < |h.msgs| && IsPiece(arr[i].pkt, h.msgs[arr[i].m], arr[i].k)
    {
      HeardPart(h, i);
    }
    forall i, j | 0 <= i < j < |arr|
      ensures arr[i].m != arr[j].m || arr[i].k != arr[j].k
    {
      PartsDiffer(h, i, j);
    }
  }

  lemma {:induction false} PartsDiffer(h: Hop, i: nat, j: nat)
    requires HopOk(h) && i < j < |h.heard|
    ensures var arr := Arrivals(h); arr[i].m != arr[j].m || arr[i].k != arr[j].k
  {
    hide Parts, Distinct, Reachable, IsPiece, NumbersOn, PartsOn;
    HeardPart(h, i);
    HeardPart(h, j);
    var e, f := h.heard[i], h.heard[j];
    PartAt(h.msgs, |h.msgs|, e.id, e.n);
    PartAt(h.msgs, |h.msgs|, f.id, f.n);
    assert HeardOk(h, j);
    LogDistinct(h, f.id);
    if e.id == f.id { HeardOnce(h.heard, i, j); }
  }

  // ---------------------------------------------------------------------- what comes out

  /** What the peer delivers from channel id up to arrival n, in order. */
  ghost function OutputsOn(h: Hop, n: nat, id: byte): seq<Delivered>
    requires HopOk(h) && n <= |h.heard|
  {
    if n == 0 then []
    else
      var out := Output(Arrivals(h), n - 1);
      OutputsOn(h, n - 1, id) + if h.heard[n - 1].id == id && out.Some? then [out.value] else []
  }

  /** The first n messages of channel id, in order. */
  ghost function WholeOn(msgs: seq<Sending>, n: nat, id: byte): seq<Delivered>
    requires n <= |msgs|
  {
    if n == 0 then []
    else WholeOn(msgs, n - 1, id) + if msgs[n - 1].channelID == id then [WholeMessage(msgs[n - 1])] else []
  }

  predicate IsLast(msgs: seq<Sending>, p: Part) { p.m < |msgs| && p.k == |Parts(msgs[p.m])| - 1 }

  /** The messages whose last part is among these. */
  ghost function WholeOf(msgs: seq<Sending>, parts: seq<Part>, j: nat): seq<Delivered>
    requires j <= |parts|
  {
    if j == 0 then []
    else WholeOf(msgs, parts, j - 1) + if IsLast(msgs, parts[j - 1]) then [WholeMessage(msgs[parts[j - 1].m])] else []
  }

  lemma {:induction false} WholeOfPrefix(msgs: seq<Sending>, parts: seq<Part>, i: nat, j: nat)
    requires i <= j <= |parts|
    ensures WholeOf(msgs, parts, i) <= WholeOf(msgs, parts, j)
    decreases j
  {
    if i < j { WholeOfPrefix(msgs, parts, i, j - 1); }
  }

  /** The first j parts decide what is complete among them. */
  lemma {:induction false} WholeOfSame(msgs: seq<Sending>, a: seq<Part>, b: seq<Part>, j: nat)
    requires j <= |a| && a <= b
    ensures WholeOf(msgs, a, j) == WholeOf(msgs, b, j)
  {
    hide Parts;
    if j > 0 { WholeOfSame(msgs, a, b, j - 1); }
  }

  lemma {:induction false} WholeOfRun(msgs: seq<Sending>, before: seq<Part>, m: nat, k: nat)
    requires m < |msgs| && k <= |Parts(msgs[m])|
    ensures var parts := before + FirstParts(m, |Parts(msgs[m])|);
            WholeOf(msgs, parts, |before| + k)
            == WholeOf(msgs, before, |before|) + if k == |Parts(msgs[m])| then [WholeMessage(msgs[m])] else []
  {
    hide Parts;
    var parts := before + FirstParts(m, |Parts(msgs[m])|);
    if k == 0 {
      WholeOfSame(msgs, before, parts, |before|);
    } else {
      WholeOfRun(msgs, before, m, k - 1);
      assert parts[|before| + k - 1] == Part(m, k - 1);
    }
  }

  /** The parts queued on a channel make up its messages, in order. */
  lemma {:induction false} WholeOfAll(msgs: seq<Sending>, n: nat, id: byte)
    requires n <= |msgs|
    ensures WholeOf(msgs, PartsOn(msgs, n, id), |PartsOn(msgs, n, id)|) == WholeOn(msgs, n, id)
  {
    hide Parts, WholeOf, WholeMessage;
    if n == 0 {
      NothingWhole(msgs);
    } else {
      WholeOfAll(msgs, n - 1, id);
      if msgs[n - 1].channelID == id {
        WholeOfRun(msgs, PartsOn(msgs, n - 1, id), n - 1, |Parts(msgs[n - 1])|);
      } else {
        assert PartsOn(msgs, n, id) == PartsOn(msgs, n - 1, id);
      }
    }
  }

  lemma {:induction false} NothingWhole(msgs: seq<Sending>)
    ensures WholeOf(msgs, [], 0) == []
  {}

  /** On an ordered channel a message is complete exactly when its last part comes in. */
  lemma {:induction false} CompleteInOrder(h: Hop, n: nat)
    requires HopOk(h) && n < |h.heard| && IsOrdered(h.heard[n].id)
    ensures var p := Arrivals(h)[n];
            Complete(h.msgs, Arrivals(h), n + 1, p.m) <==> IsLast(h.msgs, Part(p.m, p.k))
    ensures h.heard[n].n == |NumbersOn(h.heard, n, h.heard[n].id)|
  {
    hide Parts, Distinct, Reachable, IsPiece, NumbersOn, PartsOn;
    var id := h.heard[n].id;
    HeardPart(h, n);
    PartAt(h.msgs, |h.msgs|, id, h.heard[n].n);
    DeliversInOrder(h, n);
    var p := Arrivals(h)[n];
    if p.k < |Parts(h.msgs[p.m])| - 1 {
      NextNotHere(h, n);
    } else {
      var next := n + 1;
      forall k | 0 <= k < |Parts(h.msgs[p.m])|
        ensures Here(Arrivals(h), next, p.m, k)
      {
        EarlierHere(h, n, k);
      }
    }
  }

  /** The numbers of an ordered channel come in counting order. */
  lemma {:induction false} DeliversInOrder(h: Hop, n: nat)
    requires HopOk(h) && n < |h.heard| && IsOrdered(h.heard[n].id)
    ensures var id := h.heard[n].id;
            && h.heard[n].n == |NumbersOn(h.heard, n, id)|
            && NumbersOn(h.heard, n + 1, id) == Range(0, h.heard[n].n + 1)
  {
    hide Distinct, Reachable, Range;
    var id := h.heard[n].id;
    assert HeardOk(h, n);
    LogDistinct(h, id);
    NumbersPrefix(h.heard, n + 1, |h.heard|, id);
    RangePrefix(NumbersOn(h.heard, n, id), h.heard[n].n, NumbersOn(h.heard, |h.heard|, id));
  }

  lemma {:induction false} RangePrefix(before: seq<nat>, x: nat, all: seq<nat>)
    requires before + [x] <= all == Range(0, |all|)
    ensures x == |before| && before + [x] == Range(0, x + 1)
  {
    assert (before + [x])[|before|] == x;
  }

  lemma {:induction false} NextNotHere(h: Hop, n: nat)
    requires HopOk(h) && n < |h.heard| && IsOrdered(h.heard[n].id)
    ensures var p := Arrivals(h)[n]; !Here(Arrivals(h), n + 1, p.m, p.k + 1)
  {
    hide Parts, Distinct, Reachable, IsPiece, NumbersOn, PartsOn;
    var arr, id := Arrivals(h), h.heard[n].id;
    DeliversInOrder(h, n);
    HeardPart(h, n);
    PartAt(h.msgs, |h.msgs|, id, h.heard[n].n);
    forall i | 0 <= i <= n && arr[i].m == arr[n].m
      ensures arr[i].k != arr[n].k + 1
    {
      HeardPart(h, i);
      PartAt(h.msgs, |h.msgs|, h.heard[i].id, h.heard[i].n);
      NumberHeard(h.heard, n + 1, id, h.heard[i].n);
    }
  }

  lemma {:induction false} EarlierHere(h: Hop, n: nat, k: nat)
    requires HopOk(h) && n < |h.heard| && IsOrdered(h.heard[n].id) && k <= Arrivals(h)[n].k
    ensures Here(Arrivals(h), n + 1, Arrivals(h)[n].m, k)
  {
    hide Parts, Distinct, Reachable, IsPiece, NumbersOn, PartsOn;
    var arr, id := Arrivals(h), h.heard[n].id;
    DeliversInOrder(h, n);
    HeardPart(h, n);
    PartAt(h.msgs, |h.msgs|, id, h.heard[n].n);
    var x := h.heard[n].n - (arr[n].k - k);
    assert Range(0, h.heard[n].n + 1)[x] == x;
    NumberHeard(h.heard, n + 1, id, x);
    var i :| 0 <= i < n + 1 && h.heard[i].id == id && h.heard[i].n == x;
    PositionOf(h.msgs, |h.msgs|, id, Part(arr[n].m, k));
    assert arr[i].m == arr[n].m && arr[i].k == k;
  }

  lemma {:induction false} OutputsInOrder(h: Hop, n: nat, id: byte)
    requires HopOk(h) && IdsFree(h.msgs, Arrivals(h)) && n <= |h.heard| && IsOrdered(id)
    ensures |NumbersOn(h.heard, n, id)| <= |PartsOn(h.msgs, |h.msgs|, id)|
    ensures OutputsOn(h, n, id) == WholeOf(h.msgs, PartsOn(h.msgs, |h.msgs|, id), |NumbersOn(h.heard, n, id)|)
  {
    hide Parts, Reachable, IsPiece, PartsOn, IdsFree, HopOk, Complete, Output, ArrivalsOk, WholeMessage;
    if n > 0 {
      OutputsInOrder(h, n - 1, id);
      if h.heard[n - 1].id == id {
        OneOutput(h, n - 1);
      }
    }
  }

  lemma {:induction false} OneOutput(h: Hop, n: nat)
    requires HopOk(h) && IdsFree(h.msgs, Arrivals(h)) && n < |h.heard| && IsOrdered(h.heard[n].id)
    ensures var e := h.heard[n]; var parts := PartsOn(h.msgs, |h.msgs|, e.id);
            && e.n == |NumbersOn(h.heard, n, e.id)| < |parts|
            && Output(Arrivals(h), n)
               == if IsLast(h.msgs, parts[e.n]) then Some(WholeMessage(h.msgs[parts[e.n].m])) else None
  {
    hide Parts, Reachable, IsPiece, PartsOn, IdsFree, Complete, Output, ArrivalsOk, WholeMessage;
    ArrivalsAreOk(h);
    HeardPart(h, n);
    CompleteInOrder(h, n);
    OutputIsDue(h.msgs, Arrivals(h), n);
  }

  /** Ordered channels deliver, hop-wide, a prefix of the messages given to them: whole,
      unchanged, in order and without repetition, whatever the other channels are doing. */
  lemma {:induction false} OrderedHop(h: Hop, id: byte)
    requires HopOk(h) && IdsFree(h.msgs, Arrivals(h)) && IsOrdered(id)
    ensures OutputsOn(h, |h.heard|, id) <= WholeOn(h.msgs, |h.msgs|, id)
  {
    hide Parts, PartsOn, WholeOf, IdsFree, HopOk, Output, WholeMessage;
    var parts := PartsOn(h.msgs, |h.msgs|, id);
    OutputsInOrder(h, |h.heard|, id);
    WholeOfPrefix(h.msgs, parts, |NumbersOn(h.heard, |h.heard|, id)|, |parts|);
    WholeOfAll(h.msgs, |h.msgs|, id);
  }

  /** Some arrival makes the peer deliver message m, whole. */
  ghost predicate IsDelivered(msgs: seq<Sending>, arr: seq<Arrival>, m: nat) {
    m < |msgs| && exists n :: 0 <= n < |arr| && arr[n].m == m && Output(arr, n) == Some(WholeMessage(msgs[m]))
  }

  /** Once every channel has received everything queued on it, every message has been
      delivered, once and unchanged, on ordered and unordered channels alike, and the peer
      holds no fragments any more. */
  lemma {:induction false} HopDeliversAll(h: Hop)
    requires HopOk(h) && IdsFree(h.msgs, Arrivals(h))
    requires forall m :: 0 <= m < |h.msgs| ==> h.msgs[m].channelID in h.channels
    requires forall id :: id in h.channels ==>
               forall n :: 0 <= n < |h.channels[id].enqueued| ==> n in h.channels[id].rcv.log
    ensures var arr := Arrivals(h);
            && HeldAfter(arr, |arr|) == map[]
            && (forall m :: 0 <= m < |h.msgs| ==> IsDelivered(h.msgs, arr, m))
            && (forall i, j :: 0 <= i < j < |arr| && Output(arr, i).Some? && Output(arr, j).Some? ==>
                  arr[i].m != arr[j].m)
  {
    hide Parts, Reachable, IsPiece, PartsOn, IdsFree, Output, ArrivalsOk, WholeMessage, Complete, HeldAfter;
    hide Arrivals;
    var arr := Arrivals(h);
    ArrivalsAreOk(h);
    forall m | 0 <= m < |h.msgs|
      ensures Complete(h.msgs, arr, |arr|, m)
    {
      AllHere(h, m);
    }
    FragmentRoundTrip(h.msgs, arr);
    forall m | 0 <= m < |h.msgs|
      ensures IsDelivered(h.msgs, arr, m)
    {
      assert Complete(h.msgs, arr, |arr|, m);
    }
  }

  lemma {:induction false} AllHere(h: Hop, m: nat)
    requires HopOk(h) && m < |h.msgs| && h.msgs[m].channelID in h.channels
    requires var c := h.channels[h.msgs[m].channelID]; forall n :: 0 <= n < |c.enqueued| ==> n in c.rcv.log
    ensures Complete(h.msgs, Arrivals(h), |h.heard|, m)
  {
    hide Parts, Reachable, IsPiece, PartsOn, NumbersOn;
    var id := h.msgs[m].channelID;
    forall k | 0 <= k < |Parts(h.msgs[m])|
      ensures Here(Arrivals(h), |h.heard|, m, k)
    {
      assert ChannelOk(h, id);
      PositionOf(h.msgs, |h.msgs|, id, Part(m, k));
      var x := |PartsOn(h.msgs, m, id)| + k;
      NumberHeard(h.heard, |h.heard|, id, x);
      var i :| 0 <= i < |h.heard| && h.heard[i].id == id && h.heard[i].n == x;
      assert Arrivals(h)[i].m == m && Arrivals(h)[i].k == k;
    }
  }
}
