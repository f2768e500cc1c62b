/** Splitting of ReliableMerged packets: after the channel header a list of entries, each a
    16-bit length and that many bytes. */
module ReliableMerged {
  import opened Bits
  import opened Packets

  /** The entries at the front of d, up to the first malformed one. */
  function Entries(d: seq<byte>): (parts: seq<seq<byte>>)
    decreases |d|
  {
    if |d| < MERGE_HEADER_SIZE then []
    else
      var size := Uint16(d[0], d[1]);
      if size == 0 || MERGE_HEADER_SIZE + size > |d| then []
      else [d[2..2 + size]] + Entries(d[2 + size..])
  }

  /** A part that an entry can carry. */
  predicate Mergeable(part: seq<byte>) { 0 < |part| < 65536 }

  function Build(parts: seq<seq<byte>>): (d: seq<byte>)
    requires forall part :: part in parts ==> Mergeable(part)
  {
    if parts == [] then [] else Entry(parts[0]) + Build(parts[1..])
  }

  function Entry(part: seq<byte>): (d: seq<byte>)
    requires Mergeable(part)
    ensures |d| == 2 + |part|
  {
    [LowByte(|part|), HighByte(|part|)] + part
  }

  lemma {:induction false} FirstEntry(part: seq<byte>, rest: seq<byte>)
    requires Mergeable(part)
    ensures Entries(Entry(part) + rest) == [part] + Entries(rest)
  {
    var d := Entry(part) + rest;
    Uint16RoundTrip(|part|);
    assert d[0] == LowByte(|part|) && d[1] == HighByte(|part|);
    assert d[2..2 + |part|] == part && d[2 + |part|..] == rest;
  }

  /** Splitting inverts building, whatever follows. */
  lemma {:induction false} SplitInvertsBuild(parts: seq<seq<byte>>, rest: seq<byte>)
    requires forall part :: part in parts ==> Mergeable(part)
    ensures Entries(Build(parts) + rest) == parts + Entries(rest)
    decreases |parts|
  {
    hide Entry, Entries;
    if parts == [] {
      assert Build(parts) + rest == rest;
    } else {
      FirstEntry(parts[0], Build(parts[1..]) + rest);
      SplitInvertsBuild(parts[1..], rest);
      assert Build(parts) + rest == Entry(parts[0]) + (Build(parts[1..]) + rest);
    }
  }

  lemma {:induction false} EntriesMergeable(d: seq<byte>)
    ensures forall part :: part in Entries(d) ==> Mergeable(part)
    decreases |d|
  {
    if Entries(d) != [] { EntriesMergeable(d[2 + |Entries(d)[0]|..]); }
  }

  /** On arbitrary bytes the split is the longest well-formed prefix: the entries rebuild the
      front of d, and any other way to read entries off the front reads fewer of them. */
  lemma {:induction false} SplitIsLongest(d: seq<byte>, parts: seq<seq<byte>>)
    requires forall part :: part in parts ==> Mergeable(part)
    requires Build(parts) <= d
    ensures parts <= Entries(d)
  {
    var rest := d[|Build(parts)|..];
    assert d == Build(parts) + rest;
    SplitInvertsBuild(parts, rest);
  }

  lemma {:induction false} SplitRebuilds(d: seq<byte>)
    ensures forall part :: part in Entries(d) ==> Mergeable(part)
    ensures Build(Entries(d)) <= d
    decreases |d|
  {
    EntriesMergeable(d);
    var parts := Entries(d);
    if parts != [] {
      var size := |parts[0]|;
      SplitRebuilds(d[2 + size..]);
      Uint16Value(d[0], d[1]);
      assert Entry(parts[0]) == d[..2 + size];
      assert d == d[..2 + size] + d[2 + size..];
    }
  }

  /** The packet a part becomes: Channeled, on the same channel, not fragmented. */
  function Inner(part: seq<byte>, channelID: byte): (p: ChannelPacket)
    ensures p.Property() == PROP_CHANNELED && !p.IsFragmented() && p.ChannelID() == channelID as nat
    ensures p.data[CHANNELED_HEADER_SIZE..] == part
  {
    var p := NewPacket(PROP_CHANNELED, part);
    var q := p.SetChannelID(channelID);
    assert q.data[0] == q.data[..3][0];
    q
  }

  function InnerPackets(parts: seq<seq<byte>>, channelID: byte): seq<ChannelPacket> {
    seq(|parts|, i requires 0 <= i < |parts| => Inner(parts[i], channelID))
  }

  /** What the peer receives for one packet of a reliable channel. */
  function IncomingParts(p: ChannelPacket): seq<ChannelPacket> {
    if p.Property() != PROP_RELIABLE_MERGED then [p]
    else InnerPackets(Entries(p.data[CHANNELED_HEADER_SIZE..]), p.data[3])
  }

  /** Packet q is delivered on the channel as an unfragmented packet with this content. */
  predicate Carries(q: ChannelPacket, channelID: nat, part: seq<byte>) {
    && q.Property() == PROP_CHANNELED && !q.IsFragmented() && q.ChannelID() == channelID
    && q.data[CHANNELED_HEADER_SIZE..] == part
  }

  /** A merged packet is received as its parts, in order and each on the channel of the whole,
      whatever malformed rest follows them; any other packet is received as it is. */
  lemma {:induction false} ReceivedAsParts(p: ChannelPacket, parts: seq<seq<byte>>, rest: seq<byte>)
    requires forall part :: part in parts ==> Mergeable(part)
    requires p.data[CHANNELED_HEADER_SIZE..] == Build(parts) + rest && Entries(rest) == []
    ensures p.Property() != PROP_RELIABLE_MERGED ==> IncomingParts(p) == [p]
    ensures p.Property() == PROP_RELIABLE_MERGED ==>
              && |IncomingParts(p)| == |parts|
              && forall i :: 0 <= i < |parts| ==> Carries(IncomingParts(p)[i], p.ChannelID(), parts[i])
  {
    hide Entries, Build, Inner;
    SplitInvertsBuild(parts, rest);
  }

  lemma {:induction false} EntriesAt(d: seq<byte>, pos: nat)
    requires pos <= |d|
    ensures Entries(d[pos..])
            == if pos + 2 > |d| then []
               else
                 var size := Uint16(d[pos], d[pos + 1]);
                 if size == 0 || pos + 2 + size > |d| then []
                 else [d[pos + 2..pos + 2 + size]] + Entries(d[pos + 2 + size..])
  {
    hide Uint16;
    if pos + 2 <= |d| {
      var rest, size := d[pos..], Uint16(d[pos], d[pos + 1]);
      assert rest[0] == d[pos] && rest[1] == d[pos + 1];
      if pos + 2 + size <= |d| {
        assert rest[2..2 + size] == d[pos + 2..pos + 2 + size] && rest[2 + size..] == d[pos + 2 + size..];
      }
    }
  }

  method ProcessIncoming(p: ChannelPacket) returns (packets: seq<ChannelPacket>)
    ensures packets == IncomingParts(p)
  {
    hide Inner, Entries, Uint16;
    if p.Property() != PROP_RELIABLE_MERGED {
      return [p];
    }
    var pos := CHANNELED_HEADER_SIZE;
    ghost var parts: seq<seq<byte>> := [];
    packets := [];
    while pos + MERGE_HEADER_SIZE <= p.Size()
      invariant CHANNELED_HEADER_SIZE <= pos <= p.Size()
      invariant parts + Entries(p.data[pos..]) == Entries(p.data[CHANNELED_HEADER_SIZE..])
      invariant packets == InnerPackets(parts, p.data[3])
      decreases p.Size() - pos
    {
      EntriesAt(p.data, pos);
      var size := Uint16(p.data[pos], p.data[pos + 1]);
      pos := pos + MERGE_HEADER_SIZE;
      if size == 0 || pos + size > p.Size() {
        return;
      }
      var inner := Inner(p.data[pos..pos + size], p.data[3]);
      parts := parts + [p.data[pos..pos + size]];
      pos := pos + size;
      packets := packets + [inner];
    }
    EntriesAt(p.data, pos);
  }
}
