/** Sending: a message becomes one packet or a run of fragments on the queue of its channel. */
module PeerSend {
  import opened Bits
  import opened Packets
  import opened Options
  import opened Fragments

  datatype DeliveryMethod = ReliableUnordered | Sequenced | ReliableOrdered | ReliableSequenced | Unreliable {
    function Code(): nat {
      match this
      case ReliableUnordered => 0
      case Sequenced => 1
      case ReliableOrdered => 2
      case ReliableSequenced => 3
      case Unreliable => 4
    }

    predicate MayFragment() { ReliableOrdered? || ReliableUnordered? }

    function HeaderSize(): nat { if Unreliable? then HEADER_SIZE else CHANNELED_HEADER_SIZE }
  }

  /** The part of a peer that sending touches. `queues` holds, per channel id, everything ever
      queued on that channel. */
  datatype PeerState = PeerState(connected: bool, mtu: nat, channelCount: nat, fragmentID: nat,
                                 queues: map<nat, seq<ReliablePacket>>, unreliable: seq<Packet>)

  predicate PeerOk(s: PeerState) {
    s.mtu >= SMALLEST_MTU && s.fragmentID < 65536 && s.channelCount <= 4 * 255
  }

  /** The channel a message goes to. The index is computed in one byte. */
  function ChannelIndex(channelNumber: byte, delivery: DeliveryMethod): byte {
    ((channelNumber as nat * CHANNEL_TYPE_COUNT + delivery.Code()) % 256) as byte
  }

  /** With at most 64 channels, as by default, the byte never wraps; with more it does. */
  lemma {:induction false} ChannelIndexExact(channelNumber: byte, delivery: DeliveryMethod)
    ensures ChannelIndex(channelNumber, delivery) as nat == channelNumber as nat * CHANNEL_TYPE_COUNT + delivery.Code()
            <==> channelNumber as nat * CHANNEL_TYPE_COUNT + delivery.Code() < 256
  {}

  function QueueOf(s: PeerState, idx: nat): seq<ReliablePacket> {
    if idx in s.queues then s.queues[idx] else []
  }

  /** The message as its channel would carry it. */
  function AsMessage(s: PeerState, data: seq<byte>, channelNumber: byte, delivery: DeliveryMethod): Message {
    var idx := ChannelIndex(channelNumber, delivery);
    Message(data, idx, s.mtu, if |data| + CHANNELED_HEADER_SIZE <= s.mtu then 0 else (s.fragmentID + 1) % 65536)
  }

  predicate SingleFits(s: PeerState, data: seq<byte>, delivery: DeliveryMethod) {
    |data| + delivery.HeaderSize() <= s.mtu
  }

  /** Exactly the messages that `send` does not silently drop. */
  predicate Accepted(s: PeerState, data: seq<byte>, channelNumber: byte, delivery: DeliveryMethod)
    requires PeerOk(s)
  {
    && s.connected
    && (delivery != Unreliable ==> channelNumber as nat * CHANNEL_TYPE_COUNT + delivery.Code() < s.channelCount)
    && (SingleFits(s, data, delivery)
        || (delivery.MayFragment() && |Parts(AsMessage(s, data, channelNumber, delivery))| <= MAX_FRAGMENTS))
  }

  /** An accepted message is queued whole, on its own channel, behind what was there. */
  function AfterSend(s: PeerState, data: seq<byte>, channelNumber: byte, delivery: DeliveryMethod): PeerState
    requires PeerOk(s)
  {
    if !Accepted(s, data, channelNumber, delivery) then s
    else if delivery == Unreliable then
      s.(unreliable := s.unreliable + [NewPacket(PROP_UNRELIABLE, data)])
    else
      var m := AsMessage(s, data, channelNumber, delivery);
      var idx := m.channelID as nat;
      s.(queues := s.queues[idx := QueueOf(s, idx) + Pieces(m)],
         fragmentID := if Fits(m) then s.fragmentID else m.id)
  }

  class SendingPeer {
    var connected: bool
    var mtu: nat
    const channelCount: nat
    var fragmentID: nat
    var queues: map<nat, seq<ReliablePacket>>
    var unreliable: seq<Packet>

    function State(): PeerState
      reads this
    {
      PeerState(connected, mtu, channelCount, fragmentID, queues, unreliable)
    }

    /** A peer starts with the smallest MTU and four channels per channel number. */
    constructor (channelsCount: byte)
      ensures PeerOk(State())
      ensures State() == PeerState(true, SMALLEST_MTU, channelsCount as nat * CHANNEL_TYPE_COUNT, 0, map[], [])
    {
      connected := true;
      mtu := SMALLEST_MTU;
      channelCount := channelsCount as nat * CHANNEL_TYPE_COUNT;
      fragmentID := 0;
      queues := map[];
      unreliable := [];
    }

    /** `woken` is the channel put on the send queue. */
    method Send(data: seq<byte>, channelNumber: byte, delivery: DeliveryMethod) returns (woken: Option<nat>)
      requires PeerOk(State())
      modifies this`fragmentID, this`queues, this`unreliable
      ensures PeerOk(State()) && State() == AfterSend(old(State()), data, channelNumber, delivery)
      ensures woken == if old(Accepted(State(), data, channelNumber, delivery)) && delivery != Unreliable
                       then Some(ChannelIndex(channelNumber, delivery) as nat) else None
    {
      hide Chunks, Fragment, NewPacket, Pieces;
      if !connected {
        return None;
      }
      if delivery != Unreliable && channelNumber as nat * CHANNEL_TYPE_COUNT + delivery.Code() >= channelCount {
        return None;
      }
      var idx := ChannelIndex(channelNumber, delivery);
      var hdr := delivery.HeaderSize();
      ghost var m := AsMessage(State(), data, channelNumber, delivery);
      if |data| + hdr <= mtu {
        if delivery == Unreliable {
          unreliable := unreliable + [NewPacket(PROP_UNRELIABLE, data)];
          return None;
        }
        WholePiece(m);
        Enqueue(idx as nat, NewPacket(PROP_CHANNELED, data));
        return Some(idx as nat);
      }
      if delivery != ReliableOrdered && delivery != ReliableUnordered {
        return None;
      }
      woken := SendFragmented(data, idx, mtu - hdr - FRAGMENT_HEADER_SIZE, m);
    }

    lemma {:induction false} WholePiece(m: Message)
      requires Sendable(m) && Fits(m)
      ensures Pieces(m) == [NewPacket(PROP_CHANNELED, m.data)]
    {}

    /** A message that needs more parts than a fragment header can count is dropped. */
    method SendFragmented(data: seq<byte>, idx: byte, packetDataSize: nat, ghost m: Message)
      returns (woken: Option<nat>)
      requires m == Message(data, idx, mtu, (fragmentID + 1) % 65536) && mtu >= SMALLEST_MTU && !Fits(m)
      requires packetDataSize == PartSize(m)
      modifies this`fragmentID, this`queues
      ensures woken == if |Parts(m)| <= MAX_FRAGMENTS then Some(idx as nat) else None
      ensures woken.None? ==> State() == old(State())
      ensures woken.Some? ==>
                && fragmentID == m.id
                && queues == old(queues)[idx as nat := QueueOf(old(State()), idx as nat) + Pieces(m)]
    {
      hide Chunks, Fragment, NewPacket, Pieces;
      var totalPackets := |data| / packetDataSize;
      if |data| % packetDataSize != 0 {
        totalPackets := totalPackets + 1;
      }
      ChunkCount(data, packetDataSize);
      if totalPackets > MAX_FRAGMENTS {
        return None;
      }
      fragmentID := (fragmentID + 1) % 65536;
      EnqueueFragments(data, idx, packetDataSize, totalPackets, m);
      return Some(idx as nat);
    }

    method Enqueue(idx: nat, p: ReliablePacket)
      modifies this`queues
      ensures queues == old(queues)[idx := QueueOf(old(State()), idx) + [p]]
    {
      queues := queues[idx := (if idx in queues then queues[idx] else []) + [p]];
    }

    method EnqueueFragments(data: seq<byte>, idx: byte, packetDataSize: nat, totalPackets: nat, ghost m: Message)
      requires m == Message(data, idx, mtu, fragmentID) && Sendable(m) && !Fits(m)
      requires packetDataSize == PartSize(m) && totalPackets == |Parts(m)|
      modifies this`queues
      ensures queues == old(queues)[idx as nat := QueueOf(old(State()), idx as nat) + Pieces(m)]
    {
      hide Chunks, Fragment, Parts, Piece, Pieces;
      var remaining := |data|;
      ghost var before := QueueOf(State(), idx as nat);
      var part := 0;
      while part < totalPackets
        invariant part <= totalPackets
        invariant remaining == LeftAfter(|data|, part * packetDataSize)
        invariant queues == if part == 0 then old(queues) else old(queues)[idx as nat := before + Pieces(m)[..part]]
      {
        PartBytes(m, part, remaining);
        var sendLength := packetDataSize;
        if remaining < packetDataSize {
          sendLength := remaining;
        }
        var payload := data[part * packetDataSize..part * packetDataSize + sendLength];
        assert payload == Parts(m)[part];
        PieceNext(m, part);
        assert before + Pieces(m)[..part + 1]
            == before + Pieces(m)[..part] + [Fragment(fragmentID, part, totalPackets, payload)];
        assert QueueOf(State(), idx as nat) == before + Pieces(m)[..part];
        ghost var longer := before + Pieces(m)[..part + 1];
        assert old(queues)[idx as nat := before + Pieces(m)[..part]][idx as nat := longer]
            == old(queues)[idx as nat := longer];
        Enqueue(idx as nat, Fragment(fragmentID, part, totalPackets, payload));
        assert queues == old(queues)[idx as nat := longer];
        remaining := remaining - sendLength;
        part := part + 1;
      }
      assert Pieces(m)[..totalPackets] == Pieces(m);
    }
  }

  // ------------------------------------------------------------------- unreliable messages

  /** A message handed to the peer for sending. */
  datatype Order = Order(data: seq<byte>, channelNumber: byte, delivery: DeliveryMethod)

  function AfterAll(s: PeerState, orders: seq<Order>): (t: PeerState)
    requires PeerOk(s)
    ensures PeerOk(t)
  {
    if orders == [] then s
    else
      var last := |orders| - 1;
      AfterSend(AfterAll(s, orders[..last]), orders[last].data, orders[last].channelNumber, orders[last].delivery)
  }

  /** The unreliable messages that fit, each behind a header byte of zero. */
  function Datagrams(mtu: nat, orders: seq<Order>): seq<Packet> {
    if orders == [] then []
    else
      var last := orders[|orders| - 1];
      Datagrams(mtu, orders[..|orders| - 1])
      + if last.delivery == Unreliable && 1 + |last.data| <= mtu then [Packet([0] + last.data)] else []
  }

  /** Whatever is sent, exactly the unreliable messages that fit are queued as unreliable packets, in
      order and whole, while the peer is connected, and none otherwise. */
  lemma {:induction false} UnreliableExactly(s: PeerState, orders: seq<Order>)
    requires PeerOk(s)
    ensures var t := AfterAll(s, orders);
            && t.unreliable == s.unreliable + (if s.connected then Datagrams(s.mtu, orders) else [])
            && t.connected == s.connected && t.mtu == s.mtu
  {
    hide Chunks, Pieces, Parts;
    if orders != [] {
      var last := |orders| - 1;
      UnreliableExactly(s, orders[..last]);
      UnreliablePacket(orders[last].data);
    }
  }

  lemma {:induction false} UnreliablePacket(data: seq<byte>)
    ensures NewPacket(PROP_UNRELIABLE, data) == Packet([0] + data)
  {
    assert [PROP_UNRELIABLE as byte] + seq(HeaderSizeOf(PROP_UNRELIABLE) - 1, _ => 0 as byte) == [0];
  }

  function LeftAfter(size: nat, at: nat): nat { if at <= size then size - at else 0 }

  /** The bytes of a part, and what is left behind it. */
  lemma {:induction false} PartBytes(m: Message, part: nat, remaining: nat)
    requires Sendable(m) && !Fits(m) && part < |Parts(m)| && remaining == LeftAfter(|m.data|, part * PartSize(m))
    ensures var size := PartSize(m); var at := part * size; var length := if remaining < size then remaining else size;
            && 0 <= at && at + length <= |m.data| && Parts(m)[part] == m.data[at..at + length]
            && LeftAfter(|m.data|, (part + 1) * size) == remaining - length
  {
    hide Chunks;
    var size := PartSize(m);
    PartStart(m.data, size, part, |Parts(m)|);
    MulStep(part, size);
    ChunkAt(m.data, size, part, part * size);
  }

  lemma {:induction false} PieceNext(m: Message, part: nat)
    requires Sendable(m) && !Fits(m) && part < |Parts(m)|
    ensures Pieces(m)[..part + 1] == Pieces(m)[..part] + [Fragment(m.id, part, |Parts(m)|, Parts(m)[part])]
  {}

  /** Every part starts inside the message. */
  lemma {:induction false} PartStart(data: seq<byte>, size: nat, part: nat, total: nat)
    requires size > 0 && part < total == |Chunks(data, size)|
    ensures part * size < |data|
  {
    hide Chunks;
    ChunkCount(data, size);
    var q, r := |data| / size, |data| % size;
    assert |data| == q * size + r;
    if r == 0 {
      MulGrows(part, q - 1, size);
      MulStep(q - 1, size);
    } else {
      MulGrows(part, q, size);
    }
  }
}
