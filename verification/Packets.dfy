/** Packet layout: one header byte (property in bits 0-4, connection number in bits 5-6,
    fragment flag in bit 7), then the fields of the channel and fragment headers. */
module Packets {
  import opened Bits
  import opened Sequences

  const PROP_UNRELIABLE := 0
  const PROP_CHANNELED := 1
  const PROP_ACK := 2
  const PROP_PING := 3
  const PROP_PONG := 4
  const PROP_CONNECT_REQUEST := 5
  const PROP_CONNECT_ACCEPT := 6
  const PROP_DISCONNECT := 7
  const PROP_UNCONNECTED_MESSAGE := 8
  const PROP_MTU_CHECK := 9
  const PROP_MTU_OK := 10
  const PROP_BROADCAST := 11
  const PROP_MERGED := 12
  const PROP_SHUTDOWN_OK := 13
  const PROP_PEER_NOT_FOUND := 14
  const PROP_INVALID_PROTOCOL := 15
  const PROP_NAT_MESSAGE := 16
  const PROP_RELIABLE_MERGED := 18
  const PROP_TOTAL := 19

  const HEADER_SIZE := 1
  const CHANNELED_HEADER_SIZE := 4
  const FRAGMENT_HEADER_SIZE := 6
  const FRAGMENTED_HEADER_TOTAL := 10
  const MERGE_HEADER_SIZE := 2
  const CONNECT_REQUEST_HEADER := 18
  const CONNECT_ACCEPT_SIZE := 15
  const CHANNEL_TYPE_COUNT := 4
  const MAX_CONNECTION_NUMBER := 4

  /** The first of the sizes a peer tries for its datagrams, and the last. */
  const SMALLEST_MTU := 1024
  const MAX_PACKET_SIZE := 1432

  function HeaderSizeOf(prop: nat): (size: nat)
    ensures 1 <= size <= 18
  {
    if prop == PROP_CHANNELED || prop == PROP_ACK || prop == PROP_RELIABLE_MERGED then CHANNELED_HEADER_SIZE
    else if prop == PROP_PING then HEADER_SIZE + 2
    else if prop == PROP_CONNECT_REQUEST then CONNECT_REQUEST_HEADER
    else if prop == PROP_CONNECT_ACCEPT then CONNECT_ACCEPT_SIZE
    else if prop == PROP_DISCONNECT then HEADER_SIZE + 8
    else if prop == PROP_PONG then HEADER_SIZE + 10
    else HEADER_SIZE
  }

  datatype Packet = Packet(data: seq<byte>) {

    function Size(): nat { |data| }

    function Property(): (v: nat)
      requires |data| >= 1
      ensures v < 32
    {
      data[0] as nat % 32
    }

    function ConnectionNumber(): (v: nat)
      requires |data| >= 1
      ensures v < MAX_CONNECTION_NUMBER
    {
      data[0] as nat / 32 % 4
    }

    predicate IsFragmented()
      requires |data| >= 1
    {
      data[0] as nat / 128 == 1
    }

    function Sequence(): (v: nat)
      requires |data| >= 3
      ensures v < 65536
    {
      Uint16(data[1], data[2])
    }

    function ChannelID(): (v: nat)
      requires |data| >= 4
      ensures v < 256
    {
      data[3] as nat
    }

    function FragmentID(): (v: nat)
      requires |data| >= FRAGMENTED_HEADER_TOTAL
      ensures v < 65536
    {
      Uint16(data[4], data[5])
    }

    function FragmentPart(): (v: nat)
      requires |data| >= FRAGMENTED_HEADER_TOTAL
      ensures v < 65536
    {
      Uint16(data[6], data[7])
    }

    function FragmentsTotal(): (v: nat)
      requires |data| >= FRAGMENTED_HEADER_TOTAL
      ensures v < 65536
    {
      Uint16(data[8], data[9])
    }

    /** The connection number replaces bits 5-6 of the header byte and nothing else. */
    function SetConnectionNumber(v: nat): (r: Packet)
      requires |data| >= 1 && v < MAX_CONNECTION_NUMBER
      ensures |r.data| == |data| && r.data[1..] == data[1..]
      ensures r.ConnectionNumber() == v && r.Property() == Property() && r.IsFragmented() == IsFragmented()
    {
      var b := data[0] as nat;
      Packet(data[0 := (b % 32 + 32 * v + 128 * (b / 128)) as byte])
    }

    function SetSequence(v: nat): (r: Packet)
      requires |data| >= 3 && v < 65536
      ensures |r.data| == |data| && r.data[0] == data[0] && r.data[3..] == data[3..]
      ensures r.Sequence() == v
    {
      Uint16RoundTrip(v);
      Packet(data[1 := LowByte(v)][2 := HighByte(v)])
    }

    function SetChannelID(v: byte): (r: Packet)
      requires |data| >= 4
      ensures |r.data| == |data| && r.data[..3] == data[..3] && r.data[4..] == data[4..]
      ensures r.ChannelID() == v as nat
    {
      Packet(data[3 := v])
    }

    /** Acceptance of a raw datagram: long enough for the headers it announces. */
    predicate Verify() {
      && |data| >= 1
      && Property() < PROP_TOTAL
      && |data| >= HeaderSizeOf(Property())
      && (IsFragmented() ==> |data| >= HeaderSizeOf(Property()) + FRAGMENT_HEADER_SIZE)
    }
  }

  /** A packet long enough for the four-byte channel header: all a channel ever handles. */
  type ChannelPacket = p: Packet | |p.data| >= CHANNELED_HEADER_SIZE witness Packet([0, 0, 0, 0])

  /** What a reliable channel writes into a packet when it gives it number n. */
  function Stamp(p: ChannelPacket, n: nat, id: byte): (r: ChannelPacket) {
    p.SetSequence(Wire(n)).SetChannelID(id)
  }

  lemma {:induction false} StampFields(p: ChannelPacket, n: nat, id: byte)
    ensures var r := Stamp(p, n, id);
            && |r.data| == |p.data| && r.data[0] == p.data[0] && r.data[4..] == p.data[4..]
            && r.Sequence() == Wire(n) && r.ChannelID() == id as nat
  {
    var q := p.SetSequence(Wire(n));
    var r := Stamp(p, n, id);
    assert r.data[0] == r.data[..3][0] && r.data[1] == r.data[..3][1] && r.data[2] == r.data[..3][2];
    assert q.data[4..] == q.data[3..][1..];
  }

  /** Sending stamps the connection number into the header byte of a packet that a channel has
      numbered; the channel might as well have been given the stamped packet. */
  lemma {:induction false} StampCommutes(p: ChannelPacket, n: nat, id: byte, number: nat)
    requires number < MAX_CONNECTION_NUMBER
    ensures Stamp(p, n, id).SetConnectionNumber(number) == Stamp(p.SetConnectionNumber(number), n, id)
  {
    hide Wire;
    var a, b := Stamp(p, n, id).SetConnectionNumber(number), Stamp(p.SetConnectionNumber(number), n, id);
    assert a.data == b.data;
  }

  /** A fresh packet: the header of the property, zeroed, followed by the payload. */
  function NewPacket(prop: nat, payload: seq<byte>): (p: Packet)
    requires prop < PROP_TOTAL
    ensures |p.data| == HeaderSizeOf(prop) + |payload|
    ensures p.Property() == prop && !p.IsFragmented() && p.data[HeaderSizeOf(prop)..] == payload
  {
    var h := [prop as byte] + seq(HeaderSizeOf(prop) - 1, _ => 0 as byte);
    Packet(h + payload)
  }
}
