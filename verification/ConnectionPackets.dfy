/** The packets that open and close connections, and how the other side reads them. */
module ConnectionPackets {
  import opened Bits
  import opened Packets
  import opened Codec

  const PROTOCOL_ID := 13

  type ConnectionNumber = n: nat | n < MAX_CONNECTION_NUMBER

  /** A serialized socket address, for IPv4 or IPv6. */
  type SocketAddress = s: seq<byte> | |s| == 16 || |s| == 28 witness seq(16, _ => 0 as byte)

  lemma {:induction false} SignedInRange(u: nat)
    ensures u < Pow256(8) ==> -0x8000_0000_0000_0000 <= Signed(u, 8) < 0x8000_0000_0000_0000
    ensures u < Pow256(4) ==> -0x8000_0000 <= Signed(u, 4) < 0x8000_0000
  {
    Powers();
    hide Pow256;
  }

  function Int64At(p: Packet, pos: nat): int64
    requires pos + 8 <= |p.data|
  {
    var u := FromLittleEndian(p.data[pos..pos + 8]);
    SignedInRange(u);
    Signed(u, 8)
  }

  function Int32At(p: Packet, pos: nat): int32
    requires pos + 4 <= |p.data|
  {
    var u := FromLittleEndian(p.data[pos..pos + 4]);
    SignedInRange(u);
    Signed(u, 4)
  }

  lemma {:induction false} EncodedReads64(p: Packet, pos: nat, v: int64)
    requires pos + 8 <= |p.data| && p.data[pos..pos + 8] == EncodeInt64(v)
    ensures Int64At(p, pos) == v
  {
    hide LittleEndian, FromLittleEndian, Pow256, Signed, Unsigned;
    IntRanges();
    SignedRoundTrip(v, 8);
    LittleEndianRoundTrip(Unsigned(v, 8), 8);
  }

  lemma {:induction false} EncodedReads32(p: Packet, pos: nat, v: int32)
    requires pos + 4 <= |p.data| && p.data[pos..pos + 4] == EncodeInt32(v)
    ensures Int32At(p, pos) == v
  {
    hide LittleEndian, FromLittleEndian, Pow256, Signed, Unsigned;
    IntRanges();
    SignedRoundTrip(v, 4);
    LittleEndianRoundTrip(Unsigned(v, 4), 4);
  }

  function Header(prop: nat, num: ConnectionNumber): byte
    requires prop < PROP_TOTAL
  {
    (prop + 32 * num) as byte
  }

  // -------------------------------------------------------------------- asking for a connection

  function RequestPacket(time: int64, num: ConnectionNumber, id: int32, target: SocketAddress,
                         data: seq<byte>): Packet {
    Packet([Header(PROP_CONNECT_REQUEST, num)] + EncodeInt32(PROTOCOL_ID) + EncodeInt64(time) + EncodeInt32(id)
           + [|target| as byte] + target + data)
  }

  predicate SpeaksProtocol(p: Packet)
    requires |p.data| >= 5
  {
    Int32At(p, 1) == PROTOCOL_ID
  }

  /** A connection request that parses. */
  predicate IsConnectRequest(p: Packet) {
    && p.Size() >= CONNECT_REQUEST_HEADER
    && (p.data[CONNECT_REQUEST_HEADER - 1] == 16 || p.data[CONNECT_REQUEST_HEADER - 1] == 28)
    && p.Size() >= CONNECT_REQUEST_HEADER + p.data[CONNECT_REQUEST_HEADER - 1] as nat
  }

  lemma {:induction false} RequestReads(time: int64, num: ConnectionNumber, id: int32, target: SocketAddress,
                                        data: seq<byte>)
    ensures var p := RequestPacket(time, num, id, target, data);
            && p.Verify() && p.Property() == PROP_CONNECT_REQUEST && p.ConnectionNumber() == num
            && SpeaksProtocol(p) && IsConnectRequest(p) && p.data[CONNECT_REQUEST_HEADER - 1] as nat == |target|
            && Int64At(p, 5) == time && Int32At(p, 13) == id && p.data[CONNECT_REQUEST_HEADER + |target|..] == data
  {
    hide LittleEndian, FromLittleEndian, Int64At, Int32At, EncodeInt32, EncodeInt64;
    var p := RequestPacket(time, num, id, target, data);
    EncodedSizes(time, id);
    EncodedSizes(time, PROTOCOL_ID);
    assert p.data[1..5] == EncodeInt32(PROTOCOL_ID);
    assert p.data[5..13] == EncodeInt64(time);
    assert p.data[13..17] == EncodeInt32(id);
    EncodedReads32(p, 1, PROTOCOL_ID);
    EncodedReads64(p, 5, time);
    EncodedReads32(p, 13, id);
  }

  lemma {:induction false} Int32There(p: Packet, pos: nat)
    requires pos + 4 <= |p.data|
    ensures p.data[pos..pos + 4] == EncodeInt32(Int32At(p, pos))
  {
    hide LittleEndian, FromLittleEndian, Pow256, Signed, Unsigned;
    Powers();
    LittleEndianInverse(p.data[pos..pos + 4]);
    SignedInRange(FromLittleEndian(p.data[pos..pos + 4]));
    UnsignedInverse(FromLittleEndian(p.data[pos..pos + 4]), 4);
  }

  lemma {:induction false} Int64There(p: Packet, pos: nat)
    requires pos + 8 <= |p.data|
    ensures p.data[pos..pos + 8] == EncodeInt64(Int64At(p, pos))
  {
    hide LittleEndian, FromLittleEndian, Pow256, Signed, Unsigned;
    Powers();
    LittleEndianInverse(p.data[pos..pos + 8]);
    SignedInRange(FromLittleEndian(p.data[pos..pos + 8]));
    UnsignedInverse(FromLittleEndian(p.data[pos..pos + 8]), 8);
  }

  ghost predicate IsRequestPacket(p: Packet, time: int64, num: ConnectionNumber, id: int32, target: SocketAddress,
                            data: seq<byte>)
  {
    p == RequestPacket(time, num, id, target, data)
  }

  lemma {:induction false} RequestThere(p: Packet) returns (target: SocketAddress, data: seq<byte>)
    requires |p.data| >= 1 && p.Property() == PROP_CONNECT_REQUEST && !p.IsFragmented()
    requires p.Size() >= 5 && SpeaksProtocol(p) && IsConnectRequest(p)
    ensures IsRequestPacket(p, Int64At(p, 5), p.ConnectionNumber(), Int32At(p, 13), target, data)
  {
    hide Int64At, Int32At, EncodeInt32, EncodeInt64, Header;
    var end := CONNECT_REQUEST_HEADER + p.data[CONNECT_REQUEST_HEADER - 1] as nat;
    target, data := p.data[CONNECT_REQUEST_HEADER..end], p.data[end..];
    Int32There(p, 1);
    Int64There(p, 5);
    Int32There(p, 13);
    RequestParts(p.data, end);
    HeaderIs(p);
  }

  lemma {:induction false} HeaderIs(p: Packet)
    requires |p.data| >= 1 && p.Property() < PROP_TOTAL && !p.IsFragmented()
    ensures p.data[0] == Header(p.Property(), p.ConnectionNumber())
  {}

  lemma {:induction false} RequestParts(d: seq<byte>, end: nat)
    requires 18 <= end <= |d|
    ensures d == [d[0]] + d[1..5] + d[5..13] + d[13..17] + [d[17]] + d[18..end] + d[end..]
  {
    var front := [d[0]] + d[1..5] + d[5..13];
    assert front == d[..13];
    assert front + d[13..17] + [d[17]] == d[..18];
    assert d[..18] + d[18..end] == d[..end];
  }

  /** A request is understood exactly if it is one that a peer could send, for some time, number,
      id, target and data. */
  lemma {:induction false} RequestExactly(p: Packet)
    requires |p.data| >= 1 && p.Property() == PROP_CONNECT_REQUEST && !p.IsFragmented()
    ensures p.Size() >= 5 && SpeaksProtocol(p) && IsConnectRequest(p)
            <==> exists time, num, id, target, data :: IsRequestPacket(p, time, num, id, target, data)
  {
    hide RequestPacket, IsConnectRequest, SpeaksProtocol;
    if p.Size() >= 5 && SpeaksProtocol(p) && IsConnectRequest(p) {
      var target, data := RequestThere(p);
    }
    forall time, num, id, target, data | IsRequestPacket(p, time, num, id, target, data)
      ensures p.Size() >= 5 && SpeaksProtocol(p) && IsConnectRequest(p)
    {
      RequestReads(time, num, id, target, data);
    }
  }

  lemma {:induction false} EncodedSizes(time: int64, id: int32)
    ensures |EncodeInt64(time)| == 8 && |EncodeInt32(id)| == 4
  {
    hide LittleEndian;
  }

  // ------------------------------------------------------------------------- accepting one

  function AcceptPacket(time: int64, num: ConnectionNumber, id: int32): Packet {
    Packet([Header(PROP_CONNECT_ACCEPT, 0)] + EncodeInt64(time) + [num as byte, 0] + EncodeInt32(id))
  }

  lemma {:induction false} AcceptReads(time: int64, num: ConnectionNumber, id: int32)
    ensures var p := AcceptPacket(time, num, id);
            && p.Verify() && p.Property() == PROP_CONNECT_ACCEPT && p.Size() == CONNECT_ACCEPT_SIZE
            && Int64At(p, 1) == time && p.data[9] as nat == num && Int32At(p, 11) == id
  {
    hide LittleEndian, FromLittleEndian, Int64At, Int32At, EncodeInt32, EncodeInt64;
    var p := AcceptPacket(time, num, id);
    EncodedSizes(time, id);
    assert p.data[1..9] == EncodeInt64(time);
    assert p.data[11..15] == EncodeInt32(id);
    EncodedReads64(p, 1, time);
    EncodedReads32(p, 11, id);
  }

  // ------------------------------------------------------------------ rejecting or ending one

  function DisconnectPacket(time: int64, num: ConnectionNumber, data: seq<byte>): Packet {
    Packet([Header(PROP_DISCONNECT, num)] + EncodeInt64(time) + data)
  }

  lemma {:induction false} DisconnectReads(time: int64, num: ConnectionNumber, data: seq<byte>)
    ensures var p := DisconnectPacket(time, num, data);
            && p.Verify() && p.Property() == PROP_DISCONNECT && p.ConnectionNumber() == num && p.Size() == 9 + |data|
            && Int64At(p, 1) == time && p.data[9..] == data
  {
    hide LittleEndian, FromLittleEndian, Int64At, EncodeInt64;
    var p := DisconnectPacket(time, num, data);
    EncodedSizes(time, 0);
    assert p.data[1..9] == EncodeInt64(time);
    EncodedReads64(p, 1, time);
  }

  /** An answer that is nothing but its property. */
  function Notice(prop: nat): (p: Packet)
    requires prop < PROP_TOTAL && HeaderSizeOf(prop) == HEADER_SIZE
    ensures p.Verify() && p.Property() == prop && p.ConnectionNumber() == 0 && p.Size() == HEADER_SIZE
  {
    Packet([Header(prop, 0)])
  }
}
