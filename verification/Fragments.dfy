/** Messages and the packets that carry them: one packet when the message fits the MTU, a
    sequence of numbered fragments when it does not. */
module Fragments {
  import opened Bits
  import opened Packets

  /** The bytes cut into pieces of the given size; only the last may be shorter. */
  function Chunks(data: seq<byte>, size: nat): (chunks: seq<seq<byte>>)
    requires size > 0
    ensures data != [] ==> chunks != []
    ensures forall c :: c in chunks ==> 0 < |c| <= size
    decreases |data|
  {
    if data == [] then []
    else if |data| <= size then [data]
    else [data[..size]] + Chunks(data[size..], size)
  }

  function Flatten(chunks: seq<seq<byte>>): seq<byte> {
    if chunks == [] then [] else Flatten(chunks[..|chunks| - 1]) + chunks[|chunks| - 1]
  }

  lemma {:induction false} FlattenConcat(a: seq<seq<byte>>, b: seq<seq<byte>>)
    ensures Flatten(a + b) == Flatten(a) + Flatten(b)
    decreases |b|
  {
    if b == [] {
      assert a + b == a;
    } else {
      var last := |b| - 1;
      FlattenConcat(a, b[..last]);
      assert (a + b)[..|a + b| - 1] == a + b[..last];
    }
  }

  /** Nothing is lost or repeated by cutting. */
  lemma {:induction false} ChunksRejoin(data: seq<byte>, size: nat)
    requires size > 0
    ensures Flatten(Chunks(data, size)) == data
    decreases |data|
  {
    hide Flatten;
    if data == [] {
      FlattenNone();
    } else if |data| <= size {
      FlattenOne(data);
    } else {
      ChunksRejoin(data[size..], size);
      FlattenConcat([data[..size]], Chunks(data[size..], size));
      FlattenOne(data[..size]);
      assert data == data[..size] + data[size..];
    }
  }

  lemma {:induction false} FlattenNone()
    ensures Flatten([]) == []
  {}

  lemma {:induction false} FlattenOne(chunk: seq<byte>)
    ensures Flatten([chunk]) == chunk
  {
    assert [chunk][..0] == [];
  }

  /** The end of the chunk that starts at `at`. */
  function ChunkEnd(data: seq<byte>, size: nat, at: nat): (end: nat)
    requires at < |data|
    ensures at <= end <= |data|
  {
    if |data| - at < size then |data| else at + size
  }

  /** Where each chunk lies. */
  lemma {:induction false} ChunkAt(data: seq<byte>, size: nat, k: nat, at: nat)
    requires size > 0 && at == k * size && at < |data|
    ensures k < |Chunks(data, size)| && Chunks(data, size)[k] == data[at..ChunkEnd(data, size, at)]
    decreases k
  {
    if k > 0 {
      MulStep(k - 1, size);
      var before := (k - 1) * size;
      assert at == before + size;
      ChunkAt(data[size..], size, k - 1, before);
      SliceOfRest(data, size, before);
    }
  }

  lemma {:induction false} SliceOfRest(data: seq<byte>, size: nat, before: nat)
    requires size <= |data| && before < |data| - size
    ensures data[size..][before..ChunkEnd(data[size..], size, before)]
            == data[before + size..ChunkEnd(data, size, before + size)]
  {}

  /** How many chunks there are. */
  lemma {:induction false} ChunkCount(data: seq<byte>, size: nat)
    requires size > 0
    ensures |Chunks(data, size)| == |data| / size + if |data| % size != 0 then 1 else 0
    decreases |data|
  {
    if |data| >= size {
      DivStep(|data| - size, size);
      if |data| > size { ChunkCount(data[size..], size); }
    }
  }

  lemma {:induction false} MulStep(k: nat, size: nat)
    ensures (k + 1) * size == k * size + size && k * size >= 0
  {}

  lemma {:induction false} MulGrows(a: nat, b: nat, size: nat)
    requires a <= b
    ensures a * size <= b * size
  {
    assert (b - a) * size >= 0;
    assert (b - a) * size == b * size - a * size;
  }

  lemma {:induction false} DivStep(x: nat, size: nat)
    requires size > 0
    ensures (x + size) / size == x / size + 1 && (x + size) % size == x % size
  {
    MulStep(x / size, size);
    DivUnique(x + size, size, x / size + 1, x % size);
  }

  lemma {:induction false} DivUnique(x: nat, size: nat, q: nat, r: nat)
    requires r < size && x == q * size + r
    ensures x / size == q && x % size == r
  {
    var p := x / size;
    assert x == p * size + x % size;
    MulStep(p, size);
    MulStep(q, size);
    if p > q {
      MulGrows(q + 1, p, size);
    } else if p < q {
      MulGrows(p + 1, q, size);
    }
  }

  // ------------------------------------------------------------------------- messages

  /** A message given to a reliable channel: its bytes, the channel id, the MTU at that moment
      and, if it has to be fragmented, its fragment id. */
  datatype Message = Message(data: seq<byte>, channelID: byte, mtu: nat, id: nat)

  const MAX_FRAGMENTS := 65535

  predicate Fits(m: Message) { |m.data| + CHANNELED_HEADER_SIZE <= m.mtu }

  function PartSize(m: Message): nat
    requires m.mtu >= SMALLEST_MTU
  {
    m.mtu - CHANNELED_HEADER_SIZE - FRAGMENT_HEADER_SIZE
  }

  function Parts(m: Message): (parts: seq<seq<byte>>)
    requires m.mtu >= SMALLEST_MTU
    ensures |parts| >= 1
  {
    if Fits(m) then [m.data] else Chunks(m.data, PartSize(m))
  }

  predicate Sendable(m: Message) {
    m.mtu >= SMALLEST_MTU && m.id < 65536 && |Parts(m)| <= MAX_FRAGMENTS
  }

  lemma {:induction false} PartsRejoin(m: Message)
    requires m.mtu >= SMALLEST_MTU
    ensures Flatten(Parts(m)) == m.data
  {
    if Fits(m) {
      FlattenOne(m.data);
    } else {
      ChunksRejoin(m.data, PartSize(m));
    }
  }

  /** A packet of a reliable channel whose fragment header, if announced, is present. */
  type ReliablePacket = p: ChannelPacket | p.IsFragmented() ==> |p.data| >= FRAGMENTED_HEADER_TOTAL
    witness Packet([0, 0, 0, 0])

  /** p carries part k of m, whatever sequence number it got on the way. */
  ghost predicate IsPiece(p: ReliablePacket, m: Message, k: nat)
    requires m.mtu >= SMALLEST_MTU
  {
    && k < |Parts(m)| && p.ChannelID() == m.channelID as nat && p.Property() == PROP_CHANNELED
    && if Fits(m) then !p.IsFragmented() && p.data[CHANNELED_HEADER_SIZE..] == Parts(m)[k]
       else
         && p.IsFragmented() && p.FragmentID() == m.id && p.FragmentPart() == k
         && p.FragmentsTotal() == |Parts(m)| && p.data[FRAGMENTED_HEADER_TOTAL..] == Parts(m)[k]
  }

  /** The bytes of one fragment, before the channel numbers it. */
  function Fragment(id: nat, part: nat, total: nat, payload: seq<byte>): (p: ReliablePacket)
    requires id < 65536 && part < 65536 && total < 65536
  {
    Packet([(PROP_CHANNELED + 128) as byte, 0, 0, 0, LowByte(id), HighByte(id),
            LowByte(part), HighByte(part), LowByte(total), HighByte(total)] + payload)
  }

  lemma {:induction false} FragmentFields(id: nat, part: nat, total: nat, payload: seq<byte>)
    requires id < 65536 && part < 65536 && total < 65536
    ensures var p := Fragment(id, part, total, payload);
            && p.Property() == PROP_CHANNELED && p.IsFragmented() && p.FragmentID() == id
            && p.FragmentPart() == part && p.FragmentsTotal() == total
            && p.data[FRAGMENTED_HEADER_TOTAL..] == payload && p.Size() == FRAGMENTED_HEADER_TOTAL + |payload|
  {
    Uint16RoundTrip(id);
    Uint16RoundTrip(part);
    Uint16RoundTrip(total);
  }

  /** The packet that carries part k of m. */
  function Piece(m: Message, k: nat): ReliablePacket
    requires Sendable(m) && k < |Parts(m)|
  {
    if Fits(m) then NewPacket(PROP_CHANNELED, m.data) else Fragment(m.id, k, |Parts(m)|, Parts(m)[k])
  }

  function Pieces(m: Message): (pieces: seq<ReliablePacket>)
    requires Sendable(m)
    ensures |pieces| == |Parts(m)|
  {
    seq(|Parts(m)|, k requires 0 <= k < |Parts(m)| => Piece(m, k))
  }

  /** Every packet fits the MTU and still carries its part once the channel has numbered it and
      the peer has put its connection number on it. */
  lemma {:induction false} PiecesSurviveNumbering(m: Message, k: nat, n: nat, number: nat)
    requires Sendable(m) && k < |Parts(m)| && number < MAX_CONNECTION_NUMBER
    ensures Piece(m, k).Size() <= m.mtu
    ensures var r := Stamp(Piece(m, k), n, m.channelID).SetConnectionNumber(number);
            (r.IsFragmented() ==> |r.data| >= FRAGMENTED_HEADER_TOTAL) && IsPiece(r, m, k)
  {
    hide Stamp, Chunks, Fragment;
    var p := Piece(m, k);
    StampFields(p, n, m.channelID);
    var q := Stamp(p, n, m.channelID);
    var r := q.SetConnectionNumber(number);
    SameTail(q, r);
    if !Fits(m) {
      assert Parts(m)[k] in Parts(m);
      FragmentFields(m.id, k, |Parts(m)|, Parts(m)[k]);
      SameFragment(p, q);
      SameFragment(q, r);
    }
  }

  lemma {:induction false} SameTail(q: Packet, r: Packet)
    requires |q.data| == |r.data| >= CHANNELED_HEADER_SIZE && r.data[1..] == q.data[1..]
    ensures r.data[4..] == q.data[4..] && r.ChannelID() == q.ChannelID()
  {
    assert r.data[4..] == r.data[1..][3..] && q.data[4..] == q.data[1..][3..];
    assert r.data[3] == r.data[1..][2] && q.data[3] == q.data[1..][2];
  }

  /** The fragment header lies behind everything the channel writes. */
  lemma {:induction false} SameFragment(p: Packet, r: Packet)
    requires |p.data| == |r.data| >= FRAGMENTED_HEADER_TOTAL && p.data[4..] == r.data[4..]
    requires r.IsFragmented() == p.IsFragmented() && r.Property() == p.Property()
    ensures r.FragmentID() == p.FragmentID() && r.FragmentPart() == p.FragmentPart()
    ensures r.FragmentsTotal() == p.FragmentsTotal()
            && r.data[FRAGMENTED_HEADER_TOTAL..] == p.data[FRAGMENTED_HEADER_TOTAL..]
  {
    hide Uint16;
    forall i | 4 <= i < |p.data|
      ensures r.data[i] == p.data[i]
    {
      assert r.data[i] == r.data[4..][i - 4] && p.data[i] == p.data[4..][i - 4];
    }
  }
}
