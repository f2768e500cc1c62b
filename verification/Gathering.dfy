/** Reassembly of whatever fragments arrive: nothing is assumed about the peer that sends them. */
module Gathering {
  import opened Bits
  import opened Packets
  import opened Options
  import opened Fragments
  import opened Reassembly

  /** Arrival n is a fragment with this id. */
  ghost predicate Fragment(arr: seq<Arrival>, n: int, id: nat) {
    0 <= n < |arr| && arr[n].pkt.IsFragmented() && arr[n].pkt.FragmentID() == id
  }

  /** Arrival n completes a message of this id. */
  ghost predicate Completes(arr: seq<Arrival>, n: int, id: nat) {
    Fragment(arr, n, id) && Output(arr, n).Some?
  }

  ghost predicate NoneComplete(arr: seq<Arrival>, lo: int, hi: int, id: nat) {
    forall i :: lo <= i < hi ==> !Completes(arr, i, id)
  }

  /** A fragment with this id has arrived since a message of the id was last completed. */
  ghost predicate IdTaken(arr: seq<Arrival>, n: int, id: nat) {
    exists i :: 0 <= i < n && Fragment(arr, i, id) && NoneComplete(arr, i, n, id)
  }

  /** Packet p arrived between lo and hi as part k. */
  ghost predicate CameIn(arr: seq<Arrival>, lo: int, hi: int, id: nat, p: ReliablePacket, k: int) {
    exists i :: lo <= i < hi && Fragment(arr, i, id) && arr[i].pkt == p && arr[i].pkt.FragmentPart() == k
  }

  /** The slot is empty or holds part k of this channel. */
  ghost predicate SlotOk(arr: seq<Arrival>, lo: int, hi: int, id: nat, channel: nat,
                         slot: Option<ReliablePacket>, k: int)
  {
    slot.Some? ==> slot.value.ChannelID() == channel && CameIn(arr, lo, hi, id, slot.value, k)
  }

  /** What was filed since arrival `first` took the id: `first` says how many parts there are
      and of which channel. */
  ghost predicate Gathered(arr: seq<Arrival>, first: int, hi: int, id: nat, fragments: seq<Option<ReliablePacket>>) {
    && first < hi && Fragment(arr, first, id) && |fragments| == arr[first].pkt.FragmentsTotal()
    && forall k :: 0 <= k < |fragments| ==>
         SlotOk(arr, first, hi, id, arr[first].pkt.ChannelID(), fragments[k], k)
  }

  ghost predicate EntryGathered(arr: seq<Arrival>, first: int, n: int, id: nat, inc: Incoming) {
    && IncomingOk(inc) && Gathered(arr, first, n, id, inc.fragments)
    && inc.channelID == arr[first].pkt.ChannelID() && NoneComplete(arr, first, n, id)
  }

  ghost predicate EntriesOk(arr: seq<Arrival>, n: int) {
    forall id :: id in HeldAfter(arr, n) ==> exists first :: EntryGathered(arr, first, n, id, HeldAfter(arr, n)[id])
  }

  /** A packet changes the entry of its own id only, which it leaves there unless it completes
      the message. */
  lemma {:induction false} AddTouches(arr: seq<Arrival>, n: nat, id: nat)
    requires n < |arr|
    ensures var next := n + 1;
            && (id in HeldAfter(arr, next)
                <==> (id in HeldAfter(arr, n) || Fragment(arr, n, id)) && !Completes(arr, n, id))
            && (!Fragment(arr, n, id) && id in HeldAfter(arr, n) ==> HeldAfter(arr, next)[id] == HeldAfter(arr, n)[id])
  {
    hide Join, Refuses;
    var next := n + 1;
    assert HeldAfter(arr, next) == AddPacket(HeldAfter(arr, n), arr[n].pkt, KindOf(arr[n])).0;
  }

  lemma {:induction false} StillGathered(arr: seq<Arrival>, first: int, n: nat, id: nat,
                                         fragments: seq<Option<ReliablePacket>>)
    requires Gathered(arr, first, n, id, fragments)
    ensures Gathered(arr, first, n + 1, id, fragments)
  {
    var next, channel := n + 1, arr[first].pkt.ChannelID();
    forall k | 0 <= k < |fragments|
      ensures SlotOk(arr, first, next, id, channel, fragments[k], k)
    {
      assert SlotOk(arr, first, n, id, channel, fragments[k], k);
    }
  }

  /** The entry that fragment n belongs to, before and after it is filed. */
  lemma {:induction false} Filing(arr: seq<Arrival>, n: nat, id: nat) returns (first: int)
    requires n < |arr| && EntriesOk(arr, n) && Fragment(arr, n, id)
    ensures var p := arr[n].pkt;
            var inc := EntryFor(HeldAfter(arr, n), p);
            && 0 <= first <= n && NoneComplete(arr, first, n, id) && inc.channelID == arr[first].pkt.ChannelID()
            && IncomingOk(inc) && Gathered(arr, first, n + 1, id, inc.fragments)
            && (!Refuses(inc, p) ==> IncomingOk(Filed(inc, p))
                                     && Gathered(arr, first, n + 1, id, Filed(inc, p).fragments))
  {
    hide IncomingOk, HeldAfter, Gathered, NoneComplete;
    var p := arr[n].pkt;
    var inc := EntryFor(HeldAfter(arr, n), p);
    if id in HeldAfter(arr, n) {
      first :| EntryGathered(arr, first, n, id, HeldAfter(arr, n)[id]);
      assert EntryGathered(arr, first, n, id, inc);
      FirstIsEarlier(arr, first, n, id, inc.fragments);
      StillGathered(arr, first, n, id, inc.fragments);
    } else {
      first := n;
      NewEntryOk(p.FragmentsTotal(), p.ChannelID());
      NewIsGathered(arr, n, id);
    }
    if !Refuses(inc, p) {
      FiledOk(inc, p);
      FiledGathered(arr, first, n, id, inc);
    }
  }

  lemma {:induction false} FirstIsEarlier(arr: seq<Arrival>, first: int, n: nat, id: nat,
                                          fragments: seq<Option<ReliablePacket>>)
    requires Gathered(arr, first, n, id, fragments)
    ensures first < n && Fragment(arr, first, id)
  {}

  lemma {:induction false} NewIsGathered(arr: seq<Arrival>, n: nat, id: nat)
    requires n < |arr| && Fragment(arr, n, id)
    ensures Gathered(arr, n, n + 1, id, EmptySlots(arr[n].pkt.FragmentsTotal())) && NoneComplete(arr, n, n, id)
  {}

  lemma {:induction false} FiledGathered(arr: seq<Arrival>, first: int, n: nat, id: nat, inc: Incoming)
    requires n < |arr| && Fragment(arr, n, id) && first <= n && Gathered(arr, first, n + 1, id, inc.fragments)
    requires inc.channelID == arr[first].pkt.ChannelID() && !Refuses(inc, arr[n].pkt)
    ensures Gathered(arr, first, n + 1, id, Filed(inc, arr[n].pkt).fragments)
  {
    var next, channel, after := n + 1, arr[first].pkt.ChannelID(), Filed(inc, arr[n].pkt).fragments;
    forall k | 0 <= k < |after|
      ensures SlotOk(arr, first, next, id, channel, after[k], k)
    {
      assert SlotOk(arr, first, next, id, channel, inc.fragments[k], k);
    }
  }

  lemma {:induction false} EntriesGathered(arr: seq<Arrival>, n: nat)
    requires n <= |arr|
    ensures EntriesOk(arr, n)
  {
    hide AddPacket, EntryGathered, Completes;
    if n > 0 {
      var before := n - 1;
      EntriesGathered(arr, before);
      forall id | id in HeldAfter(arr, n)
        ensures exists first :: EntryGathered(arr, first, n, id, HeldAfter(arr, n)[id])
      {
        AddTouches(arr, before, id);
        if Fragment(arr, before, id) {
          var first := FragmentGathered(arr, before, id);
        } else {
          var first :| EntryGathered(arr, first, before, id, HeldAfter(arr, before)[id]);
          OtherGathered(arr, first, before, id, HeldAfter(arr, before)[id]);
        }
      }
    }
  }

  lemma {:induction false} OtherGathered(arr: seq<Arrival>, first: int, n: nat, id: nat, inc: Incoming)
    requires EntryGathered(arr, first, n, id, inc) && !Fragment(arr, n, id)
    ensures EntryGathered(arr, first, n + 1, id, inc)
  {
    hide Gathered, IncomingOk, Output;
    StillGathered(arr, first, n, id, inc.fragments);
    FirstIsEarlier(arr, first, n, id, inc.fragments);
  }

  lemma {:induction false} FragmentGathered(arr: seq<Arrival>, n: nat, id: nat) returns (first: int)
    requires n < |arr| && EntriesOk(arr, n) && Fragment(arr, n, id)
    requires var next := n + 1; id in HeldAfter(arr, next)
    ensures var next := n + 1; EntryGathered(arr, first, next, id, HeldAfter(arr, next)[id])
  {
    hide Gathered, IncomingOk, Join, Refuses, EntryFor, EntriesOk;
    AddTouches(arr, n, id);
    first := Filing(arr, n, id);
    var next := n + 1;
    assert HeldAfter(arr, next) == AddPacket(HeldAfter(arr, n), arr[n].pkt, KindOf(arr[n])).0;
  }

  /** In every run, of whatever packets: an id is held exactly from its first fragment, which
      may itself be refused, to the one that completes a message. */
  lemma {:induction false} IdHeldExactly(arr: seq<Arrival>, n: nat, id: nat)
    requires n <= |arr|
    ensures id in HeldAfter(arr, n) <==> IdTaken(arr, n, id)
  {
    hide AddPacket, Completes, Fragment;
    if n > 0 {
      var before := n - 1;
      IdHeldExactly(arr, before, id);
      AddTouches(arr, before, id);
      TakenStep(arr, before, id);
    }
  }

  lemma {:induction false} TakenStep(arr: seq<Arrival>, n: nat, id: nat)
    requires n < |arr|
    ensures IdTaken(arr, n + 1, id) <==> (IdTaken(arr, n, id) || Fragment(arr, n, id)) && !Completes(arr, n, id)
  {
    hide Completes, Fragment;
    var next := n + 1;
    if IdTaken(arr, n, id) && !Completes(arr, n, id) {
      var i :| 0 <= i < n && Fragment(arr, i, id) && NoneComplete(arr, i, n, id);
      assert NoneComplete(arr, i, next, id);
    } else if Fragment(arr, n, id) && !Completes(arr, n, id) {
      assert NoneComplete(arr, n, next, id);
    }
    if IdTaken(arr, next, id) {
      var i :| 0 <= i < next && Fragment(arr, i, id) && NoneComplete(arr, i, next, id);
      assert i < n ==> NoneComplete(arr, i, n, id);
    }
  }

  /** In every run, of whatever packets: a message completed by fragment n consists of fragments
      that all arrived under its id and on its channel since the id was last free, one for each
      place, as many as the first of them said; so none is used twice and none of another channel. */
  lemma {:induction false} CompletedFromItsParts(arr: seq<Arrival>, n: nat, id: nat)
    returns (first: int, fragments: seq<Option<ReliablePacket>>)
    requires n < |arr| && Completes(arr, n, id)
    ensures 0 <= first <= n && NoneComplete(arr, first, n, id)
    ensures Gathered(arr, first, n + 1, id, fragments)
    ensures forall k :: 0 <= k < |fragments| ==> fragments[k].Some?
    ensures Output(arr, n)
            == Some(Delivered(Join(fragments), arr[first].pkt.ChannelID() / CHANNEL_TYPE_COUNT, KindOf(arr[n])))
  {
    hide Gathered, IncomingOk, Join, Refuses, EntryFor, NoneComplete, EntriesOk, HeldAfter;
    EntriesGathered(arr, n);
    first := Filing(arr, n, id);
    var inc := EntryFor(HeldAfter(arr, n), arr[n].pkt);
    fragments := Filed(inc, arr[n].pkt).fragments;
    CompleteIsFull(Filed(inc, arr[n].pkt));
  }
}
