/** Reassembly of fragmented messages on the receiving peer.

    Fragments of many messages, of many channels, arrive interleaved and in any order; the
    peer files them under their 16-bit fragment id. */
module Reassembly {
  import opened Bits
  import opened Packets
  import opened Options
  import opened Fragments

  datatype Incoming = Incoming(fragments: seq<Option<ReliablePacket>>, received: nat, totalSize: nat, channelID: nat)

  type Held = map<nat, Incoming>

  /** What the application gets. */
  datatype Delivered = Delivered(data: seq<byte>, channel: nat, kind: nat)

  function Payload(o: Option<ReliablePacket>): seq<byte> {
    if o.Some? && |o.value.data| >= FRAGMENTED_HEADER_TOTAL then o.value.data[FRAGMENTED_HEADER_TOTAL..] else []
  }

  function Join(fragments: seq<Option<ReliablePacket>>): seq<byte> {
    if fragments == [] then []
    else Join(fragments[..|fragments| - 1]) + Payload(fragments[|fragments| - 1])
  }

  function Count(fragments: seq<Option<ReliablePacket>>): (c: nat)
    ensures c <= |fragments|
  {
    if fragments == [] then 0
    else Count(fragments[..|fragments| - 1]) + if fragments[|fragments| - 1].Some? then 1 else 0
  }

  /** The bookkeeping of a partly received message is right. */
  ghost predicate IncomingOk(inc: Incoming) {
    && inc.received == Count(inc.fragments) && inc.totalSize == |Join(inc.fragments)|
    && forall k :: 0 <= k < |inc.fragments| && inc.fragments[k].Some? ==> inc.fragments[k].value.IsFragmented()
  }

  function EmptySlots(total: nat): seq<Option<ReliablePacket>> {
    seq(total, _ => None)
  }

  predicate Refuses(inc: Incoming, p: ReliablePacket)
    requires p.IsFragmented()
  {
    || p.FragmentPart() >= |inc.fragments|
    || inc.fragments[p.FragmentPart()].Some?
    || p.ChannelID() != inc.channelID
  }

  function Filed(inc: Incoming, p: ReliablePacket): Incoming
    requires p.IsFragmented() && !Refuses(inc, p)
  {
    Incoming(inc.fragments[p.FragmentPart() := Some(p)], inc.received + 1,
             inc.totalSize + (p.Size() - FRAGMENTED_HEADER_TOTAL), inc.channelID)
  }

  /** The entry a fragment belongs to, new or old. */
  function EntryFor(held: Held, p: ReliablePacket): Incoming
    requires p.IsFragmented()
  {
    if p.FragmentID() in held then held[p.FragmentID()]
    else Incoming(EmptySlots(p.FragmentsTotal()), 0, 0, p.ChannelID())
  }

  function AddPacket(held: Held, p: ReliablePacket, kind: nat): (Held, Option<Delivered>) {
    if !p.IsFragmented() then
      (held, Some(Delivered(p.data[CHANNELED_HEADER_SIZE..], p.ChannelID() / CHANNEL_TYPE_COUNT, kind)))
    else
      var inc := EntryFor(held, p);
      if Refuses(inc, p) then (held[p.FragmentID() := inc], None)
      else
        var filed := Filed(inc, p);
        if filed.received != |filed.fragments| then (held[p.FragmentID() := filed], None)
        else (held - {p.FragmentID()}, Some(Delivered(Join(filed.fragments), inc.channelID / CHANNEL_TYPE_COUNT, kind)))
  }

  lemma {:induction false} PutFragment(fragments: seq<Option<ReliablePacket>>, k: nat, p: ReliablePacket)
    requires k < |fragments| && fragments[k] == None && p.IsFragmented()
    ensures var after := fragments[k := Some(p)];
            && Count(after) == Count(fragments) + 1
            && |Join(after)| == |Join(fragments)| + p.Size() - FRAGMENTED_HEADER_TOTAL
    decreases |fragments|
  {
    var last := |fragments| - 1;
    var after := fragments[k := Some(p)];
    if k == last {
      assert after[..last] == fragments[..last];
    } else {
      PutFragment(fragments[..last], k, p);
      assert after[..last] == fragments[..last][k := Some(p)];
    }
  }

  lemma {:induction false} NothingReceived(total: nat)
    ensures Count(EmptySlots(total)) == 0 && Join(EmptySlots(total)) == []
  {
    if total > 0 {
      NothingReceived(total - 1);
      assert EmptySlots(total)[..total - 1] == EmptySlots(total - 1);
    }
  }

  lemma {:induction false} FullCount(fragments: seq<Option<ReliablePacket>>)
    ensures Count(fragments) == |fragments| <==> forall k :: 0 <= k < |fragments| ==> fragments[k].Some?
    decreases |fragments|
  {
    if fragments != [] {
      var last := |fragments| - 1;
      FullCount(fragments[..last]);
      assert forall k :: 0 <= k < last ==> fragments[..last][k] == fragments[k];
    }
  }

  lemma {:induction false} JoinPrefix(fragments: seq<Option<ReliablePacket>>, i: nat)
    requires i <= |fragments|
    ensures Join(fragments[..i]) <= Join(fragments)
    decreases |fragments|
  {
    if i < |fragments| {
      var last := |fragments| - 1;
      JoinPrefix(fragments[..last], i);
      assert fragments[..last][..i] == fragments[..i];
    } else {
      assert fragments[..i] == fragments;
    }
  }

  class Reassembler {
    var heldFrags: Held

    ghost predicate Valid()
      reads this
    {
      forall id :: id in heldFrags ==> IncomingOk(heldFrags[id])
    }

    constructor ()
      ensures Valid() && heldFrags == map[]
    {
      heldFrags := map[];
    }

    method AddReliablePacket(p: ReliablePacket, kind: nat) returns (out: Option<Delivered>)
      requires Valid()
      modifies this
      ensures Valid() && (heldFrags, out) == AddPacket(old(heldFrags), p, kind)
    {
      hide IncomingOk, Join;
      if !p.IsFragmented() {
        return Some(Delivered(p.data[CHANNELED_HEADER_SIZE..], p.ChannelID() / CHANNEL_TYPE_COUNT, kind));
      }
      var fragID := p.FragmentID();
      if fragID !in heldFrags {
        NewEntryOk(p.FragmentsTotal(), p.ChannelID());
        heldFrags := heldFrags[fragID := Incoming(EmptySlots(p.FragmentsTotal()), 0, 0, p.ChannelID())];
      }
      var held := heldFrags[fragID];
      if p.FragmentPart() >= |held.fragments| || held.fragments[p.FragmentPart()] != None
         || p.ChannelID() != held.channelID
      {
        assert heldFrags == old(heldFrags)[fragID := EntryFor(old(heldFrags), p)];
        return None;
      }
      FiledOk(held, p);
      held := held.(fragments := held.fragments[p.FragmentPart() := Some(p)],
                    received := held.received + 1,
                    totalSize := held.totalSize + (p.Size() - FRAGMENTED_HEADER_TOTAL));
      heldFrags := heldFrags[fragID := held];
      assert heldFrags == old(heldFrags)[fragID := held] && heldFrags - {fragID} == old(heldFrags) - {fragID};
      if held.received != |held.fragments| {
        return None;
      }
      CompleteIsFull(held);
      var result := CopyOut(held);
      heldFrags := heldFrags - {fragID};
      return Some(Delivered(result, held.channelID / CHANNEL_TYPE_COUNT, kind));
    }

    /** The fragments of a complete message, copied one after the other. */
    method CopyOut(held: Incoming) returns (data: seq<byte>)
      requires IncomingOk(held) && forall k :: 0 <= k < |held.fragments| ==> held.fragments[k].Some?
      ensures data == Join(held.fragments)
    {
      var result := new byte[held.totalSize];
      var pos := 0;
      for i := 0 to |held.fragments|
        invariant pos == |Join(held.fragments[..i])| <= result.Length == |Join(held.fragments)|
        invariant result[..pos] == Join(held.fragments[..i])
      {
        var fragment := held.fragments[i].value;
        JoinStep(held.fragments, i);
        // Room is never short: the sizes were added up as the fragments came in.
        CopyInto(result, pos, fragment.data[FRAGMENTED_HEADER_TOTAL..]);
        pos := pos + fragment.Size() - FRAGMENTED_HEADER_TOTAL;
      }
      assert held.fragments[..|held.fragments|] == held.fragments;
      data := result[..];
    }
  }

  lemma {:induction false} JoinStep(fragments: seq<Option<ReliablePacket>>, i: nat)
    requires i < |fragments|
    ensures Join(fragments[..i + 1]) == Join(fragments[..i]) + Payload(fragments[i])
    ensures |Join(fragments[..i + 1])| <= |Join(fragments)|
  {
    JoinPrefix(fragments, i + 1);
    assert fragments[..i + 1][..i] == fragments[..i];
  }

  lemma {:induction false} NewEntryOk(total: nat, channelID: nat)
    ensures IncomingOk(Incoming(EmptySlots(total), 0, 0, channelID))
  {
    NothingReceived(total);
  }

  lemma {:induction false} FiledOk(inc: Incoming, p: ReliablePacket)
    requires IncomingOk(inc) && p.IsFragmented() && !Refuses(inc, p)
    ensures IncomingOk(Filed(inc, p))
  {
    PutFragment(inc.fragments, p.FragmentPart(), p);
  }

  lemma {:induction false} CompleteIsFull(inc: Incoming)
    requires IncomingOk(inc)
    ensures inc.received == |inc.fragments| <==> forall k :: 0 <= k < |inc.fragments| ==> inc.fragments[k].Some?
  {
    FullCount(inc.fragments);
  }

  // --------------------------------------------------------------- many messages at once

  /** Packet `pkt`, carrying part k of message number m, reaches the peer. */
  datatype Arrival = Arrival(m: nat, k: nat, pkt: ReliablePacket)

  ghost predicate DifferentParts(arr: seq<Arrival>, i: int, j: int) {
    0 <= i < j < |arr| ==> arr[i].m != arr[j].m || arr[i].k != arr[j].k
  }

  /** Every arrival is a genuine part of its message, and no part arrives twice: that is what
      the reliable channels below guarantee. */
  ghost predicate ArrivalsOk(msgs: seq<Message>, arr: seq<Arrival>) {
    && (forall m :: 0 <= m < |msgs| ==> Sendable(msgs[m]))
    && (forall i :: 0 <= i < |arr| ==> arr[i].m < |msgs| && IsPiece(arr[i].pkt, msgs[arr[i].m], arr[i].k))
    && (forall i, j :: DifferentParts(arr, i, j))
  }

  /** Part k of message m is among the first n arrivals. */
  ghost predicate Here(arr: seq<Arrival>, n: int, m: int, k: int) {
    exists i :: 0 <= i < n && i < |arr| && arr[i].m == m && arr[i].k == k
  }

  ghost predicate Complete(msgs: seq<Message>, arr: seq<Arrival>, n: int, m: int) {
    0 <= m < |msgs| && msgs[m].mtu >= SMALLEST_MTU && forall k :: 0 <= k < |Parts(msgs[m])| ==> Here(arr, n, m, k)
  }

  /** Some parts of m have arrived, but not all: m is outstanding. */
  ghost predicate Partial(msgs: seq<Message>, arr: seq<Arrival>, n: int, m: int) {
    (exists k :: Here(arr, n, m, k)) && !Complete(msgs, arr, n, m)
  }

  /** When arrival n is a fragment, no other outstanding message has its fragment id. */
  ghost predicate IdFree(msgs: seq<Message>, arr: seq<Arrival>, n: int) {
    0 <= n < |arr| && arr[n].m < |msgs| && !Fits(msgs[arr[n].m]) ==>
      forall m :: 0 <= m < |msgs| && m != arr[n].m && Partial(msgs, arr, n, m) ==> msgs[m].id != msgs[arr[n].m].id
  }

  ghost predicate IdsFree(msgs: seq<Message>, arr: seq<Arrival>) {
    forall n :: 0 <= n < |arr| ==> IdFree(msgs, arr, n)
  }

  /** The delivery method a channel passes up is part of its id. */
  ghost function KindOf(a: Arrival): nat { a.pkt.ChannelID() % CHANNEL_TYPE_COUNT }

  /** What the peer holds after n arrivals. */
  ghost function HeldAfter(arr: seq<Arrival>, n: int): Held {
    if n <= 0 || n > |arr| then map[] else AddPacket(HeldAfter(arr, n - 1), arr[n - 1].pkt, KindOf(arr[n - 1])).0
  }

  /** What arrival n makes the peer deliver. */
  ghost function Output(arr: seq<Arrival>, n: int): Option<Delivered> {
    if n < 0 || n >= |arr| then None else AddPacket(HeldAfter(arr, n), arr[n].pkt, KindOf(arr[n])).1
  }

  ghost function WholeMessage(m: Message): Delivered {
    Delivered(m.data, m.channelID as nat / CHANNEL_TYPE_COUNT, m.channelID as nat % CHANNEL_TYPE_COUNT)
  }

  /** The entry holds exactly the parts of m that have arrived. */
  ghost predicate Matches(inc: Incoming, msgs: seq<Message>, arr: seq<Arrival>, n: int, m: int) {
    && 0 <= m < |msgs| && msgs[m].mtu >= SMALLEST_MTU
    && IncomingOk(inc) && |inc.fragments| == |Parts(msgs[m])| && inc.channelID == msgs[m].channelID as nat
    && forall k :: 0 <= k < |inc.fragments| ==>
         && (inc.fragments[k].Some? <==> Here(arr, n, m, k))
         && (inc.fragments[k].Some? ==> Payload(inc.fragments[k]) == Parts(msgs[m])[k])
  }

  /** The peer holds exactly the outstanding messages, each under its own id. */
  ghost predicate HeldIsPartial(held: Held, msgs: seq<Message>, arr: seq<Arrival>, n: int) {
    && (forall m :: 0 <= m < |msgs| && Partial(msgs, arr, n, m) ==>
          msgs[m].id in held && Matches(held[msgs[m].id], msgs, arr, n, m))
    && (forall id :: id in held ==> exists m :: 0 <= m < |msgs| && Partial(msgs, arr, n, m) && msgs[m].id == id)
  }

  // -------------------------------------------------------------------- one more arrival

  /** Part k of m is here after n + 1 arrivals if it was before or has just arrived. */
  lemma {:induction false} HereStep(arr: seq<Arrival>, n: nat, m: int, k: int)
    requires n < |arr|
    ensures Here(arr, n + 1, m, k) <==> Here(arr, n, m, k) || (m == arr[n].m && k == arr[n].k)
  {}

  /** Arrivals for one message say nothing about another. */
  lemma {:induction false} OtherMessage(msgs: seq<Message>, arr: seq<Arrival>, n: nat, m: nat)
    requires n < |arr| && m != arr[n].m
    ensures Complete(msgs, arr, n + 1, m) <==> Complete(msgs, arr, n, m)
    ensures Partial(msgs, arr, n + 1, m) <==> Partial(msgs, arr, n, m)
    ensures forall inc :: Matches(inc, msgs, arr, n, m) ==> Matches(inc, msgs, arr, n + 1, m)
  {
    hide Parts;
    var next := n + 1;
    forall k
      ensures Here(arr, next, m, k) <==> Here(arr, n, m, k)
    {
      HereStep(arr, n, m, k);
    }
  }

  /** No part arrives twice. */
  lemma {:induction false} NotBefore(msgs: seq<Message>, arr: seq<Arrival>, i: nat, n: nat)
    requires ArrivalsOk(msgs, arr) && i <= n < |arr|
    ensures !Here(arr, i, arr[n].m, arr[n].k)
  {
    hide Parts;
    forall j | 0 <= j < i
      ensures arr[j].m != arr[n].m || arr[j].k != arr[n].k
    {
      assert DifferentParts(arr, j, n);
    }
  }

  /** The part that arrives is new, so filing it keeps the entry in step with the arrivals. */
  lemma {:induction false} FileMatches(inc: Incoming, msgs: seq<Message>, arr: seq<Arrival>, n: nat)
    requires ArrivalsOk(msgs, arr) && n < |arr|
    requires var m := arr[n].m; !Fits(msgs[m]) && Matches(inc, msgs, arr, n, m)
    ensures var m := arr[n].m;
            && !Refuses(inc, arr[n].pkt) && Matches(Filed(inc, arr[n].pkt), msgs, arr, n + 1, m)
            && (Filed(inc, arr[n].pkt).received == |inc.fragments| <==> Complete(msgs, arr, n + 1, m))
            && inc.channelID == msgs[m].channelID as nat == arr[n].pkt.ChannelID()
  {
    hide Parts;
    var m := arr[n].m;
    NotBefore(msgs, arr, n, n);
    var filed := Filed(inc, arr[n].pkt);
    FiledOk(inc, arr[n].pkt);
    var next := n + 1;
    forall k | 0 <= k < |filed.fragments|
      ensures filed.fragments[k].Some? <==> Here(arr, next, m, k)
    {
      HereStep(arr, n, m, k);
    }
    CompleteIsFull(filed);
  }

  /** A full entry joins to the bytes of the message. */
  lemma {:induction false} JoinIsFlatten(fragments: seq<Option<ReliablePacket>>, parts: seq<seq<byte>>)
    requires |fragments| == |parts| && forall k :: 0 <= k < |parts| ==> Payload(fragments[k]) == parts[k]
    ensures Join(fragments) == Flatten(parts)
    decreases |parts|
  {
    if parts != [] {
      JoinIsFlatten(fragments[..|parts| - 1], parts[..|parts| - 1]);
    }
  }

  lemma {:induction false} FullIsMessage(inc: Incoming, msgs: seq<Message>, arr: seq<Arrival>, n: nat, m: nat)
    requires n <= |arr| && m < |msgs| && Sendable(msgs[m]) && Matches(inc, msgs, arr, n, m) && Complete(msgs, arr, n, m)
    ensures Join(inc.fragments) == msgs[m].data
  {
    assert forall k :: 0 <= k < |inc.fragments| ==> Here(arr, n, m, k);
    JoinIsFlatten(inc.fragments, Parts(msgs[m]));
    PartsRejoin(msgs[m]);
  }

  /** What arrival n is due to deliver. */
  ghost function ExpectedOutput(msgs: seq<Message>, arr: seq<Arrival>, n: int): Option<Delivered> {
    if 0 <= n < |arr| && Complete(msgs, arr, n + 1, arr[n].m) then Some(WholeMessage(msgs[arr[n].m])) else None
  }

  /** One arrival: the held entries stay exactly the outstanding messages, and the message is
      delivered, byte for byte, exactly when this was its last missing part. */
  lemma {:induction false} ArrivalStep(held: Held, msgs: seq<Message>, arr: seq<Arrival>, n: nat)
    requires ArrivalsOk(msgs, arr) && n < |arr| && HeldIsPartial(held, msgs, arr, n) && IdFree(msgs, arr, n)
    ensures var (after, out) := AddPacket(held, arr[n].pkt, KindOf(arr[n]));
            HeldIsPartial(after, msgs, arr, n + 1) && out == ExpectedOutput(msgs, arr, n)
  {
    if Fits(msgs[arr[n].m]) {
      SingleStep(held, msgs, arr, n);
    } else {
      FragmentStep(held, msgs, arr, n);
    }
  }

  lemma {:induction false} SingleStep(held: Held, msgs: seq<Message>, arr: seq<Arrival>, n: nat)
    requires ArrivalsOk(msgs, arr) && n < |arr| && HeldIsPartial(held, msgs, arr, n) && Fits(msgs[arr[n].m])
    ensures var (after, out) := AddPacket(held, arr[n].pkt, KindOf(arr[n]));
            HeldIsPartial(after, msgs, arr, n + 1) && out == ExpectedOutput(msgs, arr, n)
  {
    hide Parts;
    SingleComplete(msgs, arr, n);
    hide Partial, Complete, Matches, Here;
    var next := n + 1;
    forall m | 0 <= m < |msgs| && m != arr[n].m
      ensures Partial(msgs, arr, next, m) <==> Partial(msgs, arr, n, m)
      ensures forall inc :: Matches(inc, msgs, arr, n, m) ==> Matches(inc, msgs, arr, next, m)
    {
      OtherMessage(msgs, arr, n, m);
    }
  }

  /** A message in one packet is complete at once and never outstanding. */
  lemma {:induction false} SingleComplete(msgs: seq<Message>, arr: seq<Arrival>, n: nat)
    requires ArrivalsOk(msgs, arr) && n < |arr| && Fits(msgs[arr[n].m])
    ensures var m := arr[n].m;
            && Complete(msgs, arr, n + 1, m) && !Partial(msgs, arr, n, m) && !Partial(msgs, arr, n + 1, m)
            && arr[n].pkt.data[CHANNELED_HEADER_SIZE..] == msgs[m].data
  {
    var m := arr[n].m;
    assert Parts(msgs[m]) == [msgs[m].data];
    HereStep(arr, n, m, 0);
    NotBefore(msgs, arr, n, n);
    assert forall k :: Here(arr, n, m, k) ==> k == 0;
  }

  lemma {:induction false} FragmentStep(held: Held, msgs: seq<Message>, arr: seq<Arrival>, n: nat)
    requires ArrivalsOk(msgs, arr) && n < |arr| && HeldIsPartial(held, msgs, arr, n) && IdFree(msgs, arr, n)
    requires !Fits(msgs[arr[n].m])
    ensures var (after, out) := AddPacket(held, arr[n].pkt, KindOf(arr[n]));
            HeldIsPartial(after, msgs, arr, n + 1) && out == ExpectedOutput(msgs, arr, n)
  {
    hide Complete, Matches, Here, Filed, EntryFor, Join, HeldIsPartial, Refuses, IdFree, AddPacket, Parts;
    var m, p := arr[n].m, arr[n].pkt;
    var inc := EntryFor(held, p);
    EntryMatches(held, msgs, arr, n);
    FileMatches(inc, msgs, arr, n);
    AddFragment(held, p, KindOf(arr[n]));
    HereStep(arr, n, m, arr[n].k);
    if Complete(msgs, arr, n + 1, m) {
      FullIsMessage(Filed(inc, p), msgs, arr, n + 1, m);
    }
    OthersKept(held, AddPacket(held, p, KindOf(arr[n])).0, msgs, arr, n);
  }

  /** What happens to a fragment that is not refused. */
  lemma {:induction false} AddFragment(held: Held, p: ReliablePacket, kind: nat)
    requires p.IsFragmented() && !Refuses(EntryFor(held, p), p)
    ensures var inc := EntryFor(held, p);
            var filed := Filed(inc, p);
            && |filed.fragments| == |inc.fragments| && filed.channelID == inc.channelID
            && AddPacket(held, p, kind)
               == if filed.received != |inc.fragments| then (held[p.FragmentID() := filed], None)
                  else (held - {p.FragmentID()},
                        Some(Delivered(Join(filed.fragments), inc.channelID / CHANNEL_TYPE_COUNT, kind)))
  {}

  /** The entry a fragment is filed in holds just what arrived of its message. */
  lemma {:induction false} EntryMatches(held: Held, msgs: seq<Message>, arr: seq<Arrival>, n: nat)
    requires ArrivalsOk(msgs, arr) && n < |arr| && HeldIsPartial(held, msgs, arr, n) && IdFree(msgs, arr, n)
    requires !Fits(msgs[arr[n].m])
    ensures Matches(EntryFor(held, arr[n].pkt), msgs, arr, n, arr[n].m)
  {
    hide Parts;
    var m, p := arr[n].m, arr[n].pkt;
    NotBefore(msgs, arr, n, n);
    if !Partial(msgs, arr, n, m) {
      NewEntryOk(p.FragmentsTotal(), p.ChannelID());
      assert forall k :: !Here(arr, n, m, k);
    }
  }

  lemma {:induction false} OthersKept(held: Held, after: Held, msgs: seq<Message>, arr: seq<Arrival>, n: nat)
    requires ArrivalsOk(msgs, arr) && n < |arr| && HeldIsPartial(held, msgs, arr, n) && IdFree(msgs, arr, n)
    requires !Fits(msgs[arr[n].m])
    requires var id := msgs[arr[n].m].id;
             && (forall i :: i != id ==> (i in after <==> i in held) && (i in held ==> after[i] == held[i]))
             && (id in after <==> Partial(msgs, arr, n + 1, arr[n].m))
             && (id in after ==> Matches(after[id], msgs, arr, n + 1, arr[n].m))
    ensures HeldIsPartial(after, msgs, arr, n + 1)
  {
    hide Matches, Partial, Here, Complete, Parts;
    var next := n + 1;
    forall m | 0 <= m < |msgs| && m != arr[n].m
      ensures Partial(msgs, arr, next, m) <==> Partial(msgs, arr, n, m)
      ensures forall inc :: Matches(inc, msgs, arr, n, m) ==> Matches(inc, msgs, arr, next, m)
    {
      OtherMessage(msgs, arr, n, m);
    }
  }

  // ------------------------------------------------------------------------ whole runs

  lemma {:induction false} HeldThroughout(msgs: seq<Message>, arr: seq<Arrival>, n: nat)
    requires ArrivalsOk(msgs, arr) && IdsFree(msgs, arr) && n <= |arr|
    ensures HeldIsPartial(HeldAfter(arr, n), msgs, arr, n)
    ensures forall i {:trigger Output(arr, i)} :: 0 <= i < n ==> Output(arr, i) == ExpectedOutput(msgs, arr, i)
  {
    hide ArrivalsOk, HeldIsPartial, HeldAfter, IdFree, Output, ExpectedOutput;
    if n == 0 {
      NothingHeld(msgs, arr);
    } else {
      HeldThroughout(msgs, arr, n - 1);
      HeldStep(msgs, arr, n);
    }
  }

  lemma {:induction false} NothingHeld(msgs: seq<Message>, arr: seq<Arrival>)
    ensures HeldIsPartial(HeldAfter(arr, 0), msgs, arr, 0)
  {
    assert forall m, k :: !Here(arr, 0, m, k);
  }

  lemma {:induction false} HeldStep(msgs: seq<Message>, arr: seq<Arrival>, n: nat)
    requires ArrivalsOk(msgs, arr) && 0 < n <= |arr| && IdFree(msgs, arr, n - 1)
    requires HeldIsPartial(HeldAfter(arr, n - 1), msgs, arr, n - 1)
    ensures HeldIsPartial(HeldAfter(arr, n), msgs, arr, n) && Output(arr, n - 1) == ExpectedOutput(msgs, arr, n - 1)
  {
    hide AddPacket, IsPiece, Sendable, HeldIsPartial, ExpectedOutput, IdFree;
    ArrivalStep(HeldAfter(arr, n - 1), msgs, arr, n - 1);
  }

  /** Fragmentation round trip. For any messages and any interleaving and permutation of
      their parts: a message is delivered, byte for byte, by its last part to arrive and by no
      other arrival; and once every message is complete nothing is held any more. */
  lemma {:induction false} FragmentRoundTrip(msgs: seq<Message>, arr: seq<Arrival>)
    requires ArrivalsOk(msgs, arr) && IdsFree(msgs, arr)
    ensures forall n {:trigger Output(arr, n)} :: 0 <= n < |arr| ==>
              Output(arr, n)
              == if Complete(msgs, arr, n + 1, arr[n].m) then Some(WholeMessage(msgs[arr[n].m])) else None
    ensures forall i, j :: 0 <= i < j < |arr| && Output(arr, i).Some? && Output(arr, j).Some? ==> arr[i].m != arr[j].m
    ensures forall m :: 0 <= m < |msgs| && Complete(msgs, arr, |arr|, m) ==>
              exists n :: 0 <= n < |arr| && arr[n].m == m && Output(arr, n) == Some(WholeMessage(msgs[m]))
    ensures (forall m :: 0 <= m < |msgs| ==> Complete(msgs, arr, |arr|, m)) ==> HeldAfter(arr, |arr|) == map[]
  {
    hide IsPiece, Sendable, IdsFree, Output, HeldAfter, Complete;
    forall n | 0 <= n < |arr|
      ensures Output(arr, n)
              == if Complete(msgs, arr, n + 1, arr[n].m) then Some(WholeMessage(msgs[arr[n].m])) else None
    {
      OutputIsDue(msgs, arr, n);
    }
    forall i, j | 0 <= i < j < |arr| && Output(arr, i).Some? && Output(arr, j).Some?
      ensures arr[i].m != arr[j].m
    {
      DeliveredOnce(msgs, arr, i, j);
    }
    forall m | 0 <= m < |msgs| && Complete(msgs, arr, |arr|, m)
      ensures exists n :: 0 <= n < |arr| && arr[n].m == m && Output(arr, n) == Some(WholeMessage(msgs[m]))
    {
      var n := Completer(msgs, arr, |arr|, m);
      OutputIsDue(msgs, arr, n);
    }
    if forall m :: 0 <= m < |msgs| ==> Complete(msgs, arr, |arr|, m) {
      NothingLeft(msgs, arr);
    }
  }

  lemma {:induction false} OutputIsDue(msgs: seq<Message>, arr: seq<Arrival>, n: nat)
    requires ArrivalsOk(msgs, arr) && IdsFree(msgs, arr) && n < |arr|
    ensures Output(arr, n) == if Complete(msgs, arr, n + 1, arr[n].m) then Some(WholeMessage(msgs[arr[n].m])) else None
    ensures arr[n].m < |msgs|
  {
    HeldThroughout(msgs, arr, n + 1);
    hide Parts, Output, HeldIsPartial, Complete, IdsFree;
    assert Output(arr, n) == ExpectedOutput(msgs, arr, n);
  }

  lemma {:induction false} NothingLeft(msgs: seq<Message>, arr: seq<Arrival>)
    requires ArrivalsOk(msgs, arr) && IdsFree(msgs, arr)
    requires forall m :: 0 <= m < |msgs| ==> Complete(msgs, arr, |arr|, m)
    ensures HeldAfter(arr, |arr|) == map[]
  {
    hide Parts, HeldAfter, Here, Matches;
    HeldThroughout(msgs, arr, |arr|);
    assert forall id :: id !in HeldAfter(arr, |arr|);
  }

  /** After a message is complete none of its parts can arrive again. */
  lemma {:induction false} DeliveredOnce(msgs: seq<Message>, arr: seq<Arrival>, i: nat, j: nat)
    requires ArrivalsOk(msgs, arr) && IdsFree(msgs, arr) && i < j < |arr| && Output(arr, i).Some?
    ensures arr[i].m != arr[j].m
  {
    hide Parts, Output, IdsFree, Here;
    OutputIsDue(msgs, arr, i);
    NotBefore(msgs, arr, i + 1, j);
    assert arr[j].k < |Parts(msgs[arr[j].m])|;
  }

  /** The arrival that completed a message. */
  lemma {:induction false} Completer(msgs: seq<Message>, arr: seq<Arrival>, n: nat, m: nat) returns (i: nat)
    requires ArrivalsOk(msgs, arr) && n <= |arr| && m < |msgs| && Complete(msgs, arr, n, m)
    ensures i < n && arr[i].m == m && Complete(msgs, arr, i + 1, m)
    decreases n
  {
    hide Parts;
    assert Here(arr, n, m, 0) && n > 0;
    if arr[n - 1].m == m {
      i := n - 1;
    } else {
      OtherMessage(msgs, arr, n - 1, m);
      i := Completer(msgs, arr, n - 1, m);
    }
  }

  /** How many of the first m messages are fragmented. */
  function Rank(msgs: seq<Message>, m: nat): nat
    requires m <= |msgs|
  {
    if m == 0 then 0 else Rank(msgs, m - 1) + if Fits(msgs[m - 1]) then 0 else 1
  }

  lemma {:induction false} RankGrows(msgs: seq<Message>, a: nat, b: nat)
    requires a < b <= |msgs|
    ensures Rank(msgs, a) <= Rank(msgs, b) && (!Fits(msgs[a]) ==> Rank(msgs, a) < Rank(msgs, b))
    decreases b
  {
    if a < b - 1 { RankGrows(msgs, a, b - 1); }
  }

  /** A peer numbers its fragmented messages, and only those, with consecutive 16-bit ids. */
  ghost predicate Consecutive(msgs: seq<Message>, first: nat) {
    forall m :: 0 <= m < |msgs| && !Fits(msgs[m]) ==> msgs[m].id == NthId(first, Rank(msgs, m) + 1)
  }

  function NthId(first: nat, n: nat): (id: nat)
    ensures id < 65536
  {
    (first + n) % 65536
  }

  lemma {:induction false} NextId(first: nat, n: nat)
    ensures NthId(first, n + 1) == (NthId(first, n) + 1) % 65536
  {}

  /** How many fragmented messages were sent from message b on before message a. */
  function RankDistance(msgs: seq<Message>, a: nat, b: nat): int
    requires a <= |msgs| && b <= |msgs|
  {
    Rank(msgs, a) - Rank(msgs, b)
  }

  /** Whenever a fragment arrives, no other outstanding message is any number of times 65536
      fragmented messages away from its own in sending order. */
  ghost predicate Apart(msgs: seq<Message>, arr: seq<Arrival>) {
    forall n, m :: 0 <= n < |arr| && 0 <= m < |msgs| && arr[n].m < |msgs| && m != arr[n].m
                   && !Fits(msgs[arr[n].m]) && Partial(msgs, arr, n, m) ==>
      RankDistance(msgs, m, arr[n].m) % 65536 != 0
  }

  /** Exactly when the ids of consecutively numbered messages do not clash. */
  lemma {:induction false} IdsFreeExactly(msgs: seq<Message>, arr: seq<Arrival>, first: nat)
    requires ArrivalsOk(msgs, arr) && Consecutive(msgs, first)
    ensures IdsFree(msgs, arr) <==> Apart(msgs, arr)
  {
    hide Partial, Parts, NthId, Fits;
    forall n, m | 0 <= n < |arr| && 0 <= m < |msgs| && m != arr[n].m
                  && !Fits(msgs[arr[n].m]) && Partial(msgs, arr, n, m)
      ensures msgs[m].id != msgs[arr[n].m].id <==> RankDistance(msgs, m, arr[n].m) % 65536 != 0
    {
      PartialIsFragmented(msgs, arr, n, m);
      SameId(first, Rank(msgs, m) + 1, Rank(msgs, arr[n].m) + 1);
    }
    if IdsFree(msgs, arr) {
      forall n, m | 0 <= n < |arr| && 0 <= m < |msgs| && m != arr[n].m
                    && !Fits(msgs[arr[n].m]) && Partial(msgs, arr, n, m)
        ensures msgs[m].id != msgs[arr[n].m].id
      {
        assert IdFree(msgs, arr, n);
      }
    }
  }

  lemma {:induction false} SameId(first: nat, a: nat, b: nat)
    ensures NthId(first, a) == NthId(first, b) <==> (a - b) % 65536 == 0
  {
    var x, y := first + a, first + b;
    assert x == 65536 * (x / 65536) + x % 65536 && y == 65536 * (y / 65536) + y % 65536;
  }

  /** Whenever a message is outstanding, fewer than 65536 fragmented messages were sent from it
      to the one that the next arrival belongs to, or the other way round. */
  ghost predicate Close(msgs: seq<Message>, arr: seq<Arrival>) {
    forall n, m :: 0 <= n < |arr| && 0 <= m < |msgs| && arr[n].m < |msgs| && Partial(msgs, arr, n, m) ==>
      -65536 < RankDistance(msgs, m, arr[n].m) < 65536
  }

  /** In particular they do not clash while messages that meet are close. */
  lemma {:induction false} IdsFreeWhenClose(msgs: seq<Message>, arr: seq<Arrival>, first: nat)
    requires ArrivalsOk(msgs, arr) && Consecutive(msgs, first) && Close(msgs, arr)
    ensures IdsFree(msgs, arr)
  {
    IdsFreeExactly(msgs, arr, first);
    CloseIsApart(msgs, arr);
  }

  lemma {:induction false} CloseIsApart(msgs: seq<Message>, arr: seq<Arrival>)
    requires ArrivalsOk(msgs, arr) && Close(msgs, arr)
    ensures Apart(msgs, arr)
  {
    hide Partial, Parts, Fits;
    forall n, m | 0 <= n < |arr| && 0 <= m < |msgs| && m != arr[n].m
                  && !Fits(msgs[arr[n].m]) && Partial(msgs, arr, n, m)
      ensures RankDistance(msgs, m, arr[n].m) % 65536 != 0
    {
      PartialIsFragmented(msgs, arr, n, m);
      if m < arr[n].m { RankGrows(msgs, m, arr[n].m); } else { RankGrows(msgs, arr[n].m, m); }
    }
  }

  lemma {:induction false} PartialIsFragmented(msgs: seq<Message>, arr: seq<Arrival>, n: nat, m: nat)
    requires ArrivalsOk(msgs, arr) && n <= |arr| && m < |msgs| && Partial(msgs, arr, n, m)
    ensures !Fits(msgs[m])
  {
    hide Chunks;
  }

  /** A fragment is filed under its id alone. When it fills the last gap of an entry of the same
      channel, what is delivered is that entry joined with it, whichever message it is from. */
  lemma {:induction false} SharedIdMixes(held: Held, inc: Incoming, q: ReliablePacket, kind: nat)
    requires q.IsFragmented() && q.FragmentID() in held && held[q.FragmentID()] == inc
    requires q.FragmentPart() < |inc.fragments| && inc.fragments[q.FragmentPart()] == None
    requires q.ChannelID() == inc.channelID && inc.received + 1 == |inc.fragments|
    ensures AddPacket(held, q, kind).1
            == Some(Delivered(Join(inc.fragments[q.FragmentPart() := Some(q)]),
                              inc.channelID / CHANNEL_TYPE_COUNT, kind))
  {
    hide Join;
  }
}
