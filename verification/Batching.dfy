/** Batching: small packets of a peer travel together in one Merged datagram, which the
    receiving peer takes apart again, recursively. */
module Batching {
  import opened Bits
  import opened Packets

  const MERGE_SIZE_THRESHOLD := 20

  // --------------------------------------------------------------------------- sending

  /** The packets waiting in the merge buffer, and the MTU, which only grows. */
  datatype Buffer = Buffer(batch: seq<Packet>, mtu: nat)

  function Frame(q: Packet): (bytes: seq<byte>)
    ensures |bytes| == |q.data| + MERGE_HEADER_SIZE
  {
    [LowByte(|q.data|), HighByte(|q.data|)] + q.data
  }

  function Frames(batch: seq<Packet>): seq<byte> {
    if batch == [] then [] else Frame(batch[0]) + Frames(batch[1..])
  }

  /** The header byte of a merged datagram. */
  function MergedHeader(num: nat): byte
    requires num < MAX_CONNECTION_NUMBER
  {
    (PROP_MERGED + 32 * num) as byte
  }

  /** What flushing the buffer puts on the wire. */
  function Flush(batch: seq<Packet>, num: nat): seq<Packet>
    requires num < MAX_CONNECTION_NUMBER
  {
    if |batch| == 0 then []
    else if |batch| == 1 then batch
    else [Packet([MergedHeader(num)] + Frames(batch))]
  }

  predicate TooBig(size: nat, mtu: nat) { HEADER_SIZE + size + MERGE_HEADER_SIZE + MERGE_SIZE_THRESHOLD >= mtu }

  predicate NoRoom(b: Buffer, size: nat) { |Frames(b.batch)| + HEADER_SIZE + size + MERGE_HEADER_SIZE > b.mtu }

  /** One packet is sent: the new buffer and the datagrams that go out. */
  function Offer(b: Buffer, p: Packet, num: nat): (Buffer, seq<Packet>)
    requires num < MAX_CONNECTION_NUMBER && |p.data| >= 1
  {
    var q := p.SetConnectionNumber(num);
    if TooBig(|q.data|, b.mtu) then (b, [q])
    else if NoRoom(b, |q.data|) then (b.(batch := [q]), Flush(b.batch, num))
    else (b.(batch := b.batch + [q]), [])
  }

  predicate BufferOk(b: Buffer) {
    && SMALLEST_MTU <= b.mtu <= MAX_PACKET_SIZE
    && HEADER_SIZE + |Frames(b.batch)| <= b.mtu
    && forall q :: q in b.batch ==> !TooBig(|q.data|, b.mtu)
  }

  lemma {:induction false} FramesConcat(a: seq<Packet>, b: seq<Packet>)
    ensures Frames(a + b) == Frames(a) + Frames(b)
  {
    hide Frame, Frames;
    FramesFirst(a, b);
    if a != [] {
      FramesConcat(a[1..], b);
      Regroup(Frame(a[0]), Frames(a[1..]), Frames(b));
    }
  }

  lemma {:induction false} FramesFirst(a: seq<Packet>, b: seq<Packet>)
    ensures a == [] ==> Frames(a) == [] && Frames(a + b) == Frames(b)
    ensures a != [] ==> Frames(a) == Frame(a[0]) + Frames(a[1..])
                        && Frames(a + b) == Frame(a[0]) + Frames(a[1..] + b)
  {
    hide Frame;
    if a == [] {
      assert a + b == b;
    } else {
      assert (a + b)[1..] == a[1..] + b;
    }
  }

  lemma {:induction false} Regroup(a: seq<byte>, b: seq<byte>, c: seq<byte>)
    ensures a + (b + c) == a + b + c
  {}

  lemma {:induction false} FramesOne(q: Packet)
    ensures Frames([q]) == Frame(q)
  {
    assert [q][1..] == [];
  }

  lemma {:induction false} FramesAppend(batch: seq<Packet>, q: Packet)
    ensures Frames(batch + [q]) == Frames(batch) + Frame(q)
  {
    FramesConcat(batch, [q]);
    FramesOne(q);
  }

  /** Sending keeps the buffer within the MTU, and no datagram exceeds it either as long as
      the packet itself does not. */
  lemma {:induction false} OfferFits(b: Buffer, p: Packet, num: nat)
    requires BufferOk(b) && num < MAX_CONNECTION_NUMBER && |p.data| >= 1
    ensures var (c, sent) := Offer(b, p, num);
            && BufferOk(c) && c.mtu == b.mtu
            && (|p.data| <= b.mtu ==> forall d :: d in sent ==> |d.data| <= b.mtu)
    ensures forall d :: d in Flush(b.batch, num) ==> |d.data| <= b.mtu
  {
    hide Frames, Frame;
    var q := p.SetConnectionNumber(num);
    FramesAppend(b.batch, q);
    FramesOne(q);
    FlushFits(b, num);
  }

  lemma {:induction false} FlushFits(b: Buffer, num: nat)
    requires BufferOk(b) && num < MAX_CONNECTION_NUMBER
    ensures forall d :: d in Flush(b.batch, num) ==> |d.data| <= b.mtu
  {
    hide Frames;
    if |b.batch| == 1 { assert b.batch[0] in b.batch; }
  }

  /** The bytes that packets take up in a merged datagram: each is preceded by its length. */
  function FramedSize(batch: seq<Packet>): nat {
    if batch == [] then 0 else |batch[0].data| + 2 + FramedSize(batch[1..])
  }

  lemma {:induction false} FramedSizeExact(batch: seq<Packet>)
    ensures |Frames(batch)| == FramedSize(batch)
  {
    hide Frame;
    if batch != [] { FramedSizeExact(batch[1..]); }
  }

  /** Exactly the packets that come within 23 bytes of the MTU leave alone and at once. Any other
      one waits; what waited before leaves exactly if all of them together, each with its length,
      and the header byte would exceed the MTU, so no datagram is sent before it has to be. */
  lemma {:induction false} WaitsExactly(b: Buffer, p: Packet, num: nat)
    requires num < MAX_CONNECTION_NUMBER && |p.data| >= 1
    ensures var q := p.SetConnectionNumber(num);
            && |q.data| == |p.data|
            && Offer(b, p, num)
               == if |q.data| + 23 >= b.mtu then (b, [q])
                  else if 1 + FramedSize(b.batch + [q]) <= b.mtu then (b.(batch := b.batch + [q]), [])
                  else (b.(batch := [q]), Flush(b.batch, num))
  {
    hide Frames, Frame, Flush;
    var q := p.SetConnectionNumber(num);
    FramedSizeExact(b.batch + [q]);
    FramesAppend(b.batch, q);
    FrameSize(q);
  }

  lemma {:induction false} FrameSize(q: Packet)
    ensures |Frame(q)| == |q.data| + 2
  {}

  class Merger {
    const connectNum: nat
    const mergeData: array<byte>
    var mergePos: nat
    var mergeCount: nat
    var mtu: nat
    ghost var batch: seq<Packet>

    ghost function Pending(): Buffer
      reads this
    {
      Buffer(batch, mtu)
    }

    ghost predicate Valid()
      reads this, mergeData
    {
      && connectNum < MAX_CONNECTION_NUMBER
      && mergeData.Length == HEADER_SIZE + MAX_PACKET_SIZE
      && mergeData[0] == MergedHeader(connectNum)
      && mergeCount == |batch| && mergePos == |Frames(batch)| && BufferOk(Pending())
      && mergeData[HEADER_SIZE..HEADER_SIZE + mergePos] == Frames(batch)
    }

    constructor (connectNum: nat)
      requires connectNum < MAX_CONNECTION_NUMBER
      ensures Valid() && fresh(mergeData) && this.connectNum == connectNum
      ensures Pending() == Buffer([], SMALLEST_MTU)
    {
      this.connectNum := connectNum;
      mergeData := new byte[HEADER_SIZE + MAX_PACKET_SIZE](
        i => if i == 0 then MergedHeader(connectNum) else 0);
      mergePos, mergeCount, mtu := 0, 0, SMALLEST_MTU;
      batch := [];
    }

    method SetMtu(value: nat)
      requires Valid() && mtu <= value <= MAX_PACKET_SIZE
      modifies this`mtu
      ensures Valid() && Pending() == old(Pending()).(mtu := value)
    {
      mtu := value;
    }

    method SendMerged() returns (sent: seq<Packet>)
      requires Valid()
      modifies this`mergePos, this`mergeCount, this`batch
      ensures Valid() && Pending() == old(Pending()).(batch := [])
      ensures sent == Flush(old(batch), connectNum)
    {
      hide Frame;
      sent := [];
      if mergeCount == 0 {
        return;
      }
      if mergeCount > 1 {
        sent := [Packet(mergeData[..HEADER_SIZE + mergePos])];
        assert mergeData[..HEADER_SIZE + mergePos] == [mergeData[0]] + mergeData[HEADER_SIZE..HEADER_SIZE + mergePos];
      }
      if mergeCount == 1 {
        OnlyFrame(batch);
        assert mergeData[HEADER_SIZE + MERGE_HEADER_SIZE..HEADER_SIZE + mergePos]
            == mergeData[HEADER_SIZE..HEADER_SIZE + mergePos][MERGE_HEADER_SIZE..];
        sent := [Packet(mergeData[HEADER_SIZE + MERGE_HEADER_SIZE..HEADER_SIZE + mergePos])];
      }
      mergePos := 0;
      mergeCount := 0;
      batch := [];
    }

    lemma {:induction false} OnlyFrame(batch: seq<Packet>)
      requires |batch| == 1
      ensures |Frames(batch)| >= MERGE_HEADER_SIZE && [Packet(Frames(batch)[MERGE_HEADER_SIZE..])] == batch
    {
      FramesOne(batch[0]);
      assert batch == [batch[0]];
    }

    method SendUserData(p: Packet) returns (sent: seq<Packet>)
      requires Valid() && |p.data| >= 1
      modifies this`mergePos, this`mergeCount, this`batch, mergeData
      ensures Valid() && (Pending(), sent) == Offer(old(Pending()), p, connectNum)
    {
      hide Frame, Frames, Flush, BufferOk;
      var pkt := p.SetConnectionNumber(connectNum);
      var mergedSize := HEADER_SIZE + pkt.Size() + 2;
      OfferFits(Pending(), p, connectNum);
      if mergedSize + MERGE_SIZE_THRESHOLD >= mtu {
        return [pkt];
      }
      sent := [];
      if mergePos + mergedSize > mtu {
        sent := SendMerged();
        NothingFramed();
      }
      FramesAppend(batch, pkt);
      assert batch + [pkt] == Offer(old(Pending()), p, connectNum).0.batch;
      Append(pkt);
    }

    lemma {:induction false} NothingFramed()
      ensures Frames([]) == []
    {}

    /** One packet more in the buffer. */
    method Append(pkt: Packet)
      requires Valid() && BufferOk(Buffer(batch + [pkt], mtu)) && Frames(batch + [pkt]) == Frames(batch) + Frame(pkt)
      modifies this`mergePos, this`mergeCount, this`batch, mergeData
      ensures Valid() && Pending() == Buffer(old(batch) + [pkt], mtu)
    {
      hide Frames, BufferOk, Frame;
      BufferHolds(Buffer(batch + [pkt], mtu));
      WriteFrame(pkt);
      mergePos := mergePos + pkt.Size() + 2;
      mergeCount := mergeCount + 1;
      batch := batch + [pkt];
    }

    /** The size and the bytes of a packet behind what the buffer holds. */
    method WriteFrame(pkt: Packet)
      requires mergePos + HEADER_SIZE + |Frame(pkt)| <= mergeData.Length
      modifies mergeData
      ensures var end := HEADER_SIZE + mergePos;
              && mergeData[0] == old(mergeData[0])
              && mergeData[HEADER_SIZE..end + |Frame(pkt)|] == old(mergeData[HEADER_SIZE..end]) + Frame(pkt)
    {
      var at := mergePos + HEADER_SIZE;
      mergeData[at] := LowByte(pkt.Size());
      mergeData[at + 1] := HighByte(pkt.Size());
      ghost var written := mergeData[..at + 2];
      assert written == old(mergeData[..at]) + [LowByte(pkt.Size()), HighByte(pkt.Size())];
      CopyInto(mergeData, at + 2, pkt.data);
      Rejoined(old(mergeData[..at]), written, mergeData[..at + 2 + pkt.Size()], pkt);
      assert mergeData[HEADER_SIZE..at + 2 + pkt.Size()] == mergeData[..at + 2 + pkt.Size()][HEADER_SIZE..];
      assert old(mergeData[HEADER_SIZE..at]) == old(mergeData[..at])[HEADER_SIZE..];
      assert mergeData[0] == mergeData[..at + 2 + pkt.Size()][0] && old(mergeData[0]) == old(mergeData[..at])[0];
    }

    lemma {:induction false} Rejoined(before: seq<byte>, written: seq<byte>, after: seq<byte>, pkt: Packet)
      requires |before| >= HEADER_SIZE && written == before + [LowByte(|pkt.data|), HighByte(|pkt.data|)]
      requires after == written + pkt.data
      ensures after[0] == before[0] && after[HEADER_SIZE..] == before[HEADER_SIZE..] + Frame(pkt)
    {}

    lemma {:induction false} BufferHolds(b: Buffer)
      requires BufferOk(b)
      ensures HEADER_SIZE + |Frames(b.batch)| <= b.mtu <= MAX_PACKET_SIZE
    {}
  }

  // ------------------------------------------------------------------------- receiving

  datatype Conn = Outgoing | Connected | ShutdownRequested | Disconnected

  /** What one packet does to the receiving peer: its new state, and the packets that reach
      the dispatch on their property. Merged packets are taken apart recursively. */
  function Take(st: Conn, p: Packet, num: nat): (Conn, seq<Packet>)
    requires |p.data| >= 1
    decreases |p.data|
  {
    if st.Outgoing? || st.Disconnected? then (st, [])
    else if p.Property() == PROP_SHUTDOWN_OK then (if st.ShutdownRequested? then Disconnected else st, [])
    else if p.ConnectionNumber() != num then (st, [])
    else if p.Property() == PROP_MERGED then TakeAll(st, p.data[1..], num)
    else (st, [p])
  }

  /** The same for the entries of a merged packet, up to the first malformed one. */
  function TakeAll(st: Conn, rest: seq<byte>, num: nat): (Conn, seq<Packet>)
    decreases |rest|
  {
    if !WellFormed(rest) then (st, [])
    else
      var (after, first) := Take(st, FirstOf(rest), num);
      var (end, others) := TakeAll(after, rest[EntryEnd(rest)..], num);
      (end, first + others)
  }

  function EntryEnd(rest: seq<byte>): nat
    requires |rest| >= MERGE_HEADER_SIZE
  {
    MERGE_HEADER_SIZE + Uint16(rest[0], rest[1])
  }

  predicate WellFormed(rest: seq<byte>) {
    |rest| >= MERGE_HEADER_SIZE && EntryEnd(rest) <= |rest| && Packet(rest[2..EntryEnd(rest)]).Verify()
  }

  function FirstOf(rest: seq<byte>): (p: Packet)
    requires WellFormed(rest)
    ensures 1 <= |p.data| < |rest|
  {
    Packet(rest[2..EntryEnd(rest)])
  }

  /** Who handles a packet that is dispatched, by its property. */
  datatype Handler = PingReply | RoundTripTime | Channel(id: nat) | Application | MtuDiscovery | Nobody

  datatype Handled = Handled(handler: Handler, p: Packet)

  function HandlerFor(p: Packet, channelCount: nat): Handler {
    if !p.Verify() then Nobody
    else if p.Property() == PROP_PING then PingReply
    else if p.Property() == PROP_PONG then RoundTripTime
    else if p.Property() == PROP_UNRELIABLE then Application
    else if p.Property() == PROP_MTU_CHECK || p.Property() == PROP_MTU_OK then MtuDiscovery
    else if HeaderSizeOf(p.Property()) == CHANNELED_HEADER_SIZE && p.ChannelID() < channelCount
      then Channel(p.ChannelID())
    else Nobody
  }

  /** The packets that somebody handles, in order. */
  function Handle(ps: seq<Packet>, channelCount: nat): seq<Handled> {
    if ps == [] then []
    else
      var last := |ps| - 1;
      var handler := HandlerFor(ps[last], channelCount);
      Handle(ps[..last], channelCount) + if handler == Nobody then [] else [Handled(handler, ps[last])]
  }

  lemma {:induction false} HandleConcat(a: seq<Packet>, b: seq<Packet>, channelCount: nat)
    ensures Handle(a + b, channelCount) == Handle(a, channelCount) + Handle(b, channelCount)
    decreases |b|
  {
    hide HandlerFor;
    if b == [] {
      assert a + b == a;
    } else {
      var last := |b| - 1;
      HandleConcat(a, b[..last], channelCount);
      assert (a + b)[..|a + b| - 1] == a + b[..last] && (a + b)[|a + b| - 1] == b[last];
    }
  }

  lemma {:induction false} HandleOne(p: Packet, channelCount: nat)
    ensures var handler := HandlerFor(p, channelCount);
            Handle([p], channelCount) == if handler == Nobody then [] else [Handled(handler, p)]
  {
    hide HandlerFor;
    assert [p][..0] == [];
  }

  lemma {:induction false} HandleNone(channelCount: nat)
    ensures Handle([], channelCount) == []
  {}

  class Dispatcher {
    const connectNum: nat
    const channelCount: nat
    var state: Conn
    var handled: seq<Handled>

    constructor (connectNum: nat, channelCount: nat)
      ensures this.connectNum == connectNum && this.channelCount == channelCount && state == Connected && handled == []
    {
      this.connectNum, this.channelCount := connectNum, channelCount;
      state, handled := Connected, [];
    }

    method ProcessPacket(p: Packet)
      requires p.Verify()
      modifies this
      ensures var (st, more) := Take(old(state), p, connectNum);
              state == st && handled == old(handled) + Handle(more, channelCount)
      decreases |p.data|
    {
      hide WellFormed;
      HandleNone(channelCount);
      if state.Outgoing? || state.Disconnected? {
        return;
      }
      if p.Property() == PROP_SHUTDOWN_OK {
        if state.ShutdownRequested? {
          state := Disconnected;
        }
        return;
      }
      if p.ConnectionNumber() != connectNum {
        return;
      }
      if p.Property() == PROP_MERGED {
        Unpack(p);
        return;
      }
      HandleOne(p, channelCount);
      Dispatch(p);
    }

    method Dispatch(p: Packet)
      requires p.Verify()
      modifies this`handled
      ensures var handler := HandlerFor(p, channelCount);
              handled == old(handled) + if handler == Nobody then [] else [Handled(handler, p)]
    {
      var prop := p.Property();
      if prop == PROP_PING {
        handled := handled + [Handled(PingReply, p)];
      } else if prop == PROP_PONG {
        handled := handled + [Handled(RoundTripTime, p)];
      } else if prop == PROP_ACK || prop == PROP_CHANNELED || prop == PROP_RELIABLE_MERGED {
        if p.ChannelID() >= channelCount {
          return;
        }
        handled := handled + [Handled(Channel(p.ChannelID()), p)];
      } else if prop == PROP_UNRELIABLE {
        handled := handled + [Handled(Application, p)];
      } else if prop == PROP_MTU_CHECK || prop == PROP_MTU_OK {
        handled := handled + [Handled(MtuDiscovery, p)];
      }
    }

    method Unpack(p: Packet)
      requires |p.data| >= 1
      modifies this
      ensures var (st, more) := TakeAll(old(state), p.data[1..], connectNum);
              state == st && handled == old(handled) + Handle(more, channelCount)
      decreases |p.data|, 0
    {
      hide Take, TakeAll, WellFormed, Handle;
      var pos := HEADER_SIZE;
      var done := false;
      ghost var all := TakeAll(state, p.data[1..], connectNum);
      ghost var left := all;
      while pos + 2 <= p.Size() && !done
        invariant 1 <= pos <= p.Size()
        invariant left == if done then (state, []) else TakeAll(state, p.data[pos..], connectNum)
        invariant left.0 == all.0
        invariant old(handled) + Handle(all.1, channelCount) == handled + Handle(left.1, channelCount)
        decreases p.Size() - pos, !done
      {
        ghost var rest := p.data[pos..];
        var size := Uint16(p.data[pos], p.data[pos + 1]);
        TakeAllStep(state, rest, connectNum);
        EntryParts(p.data, pos, size);
        pos := pos + 2;
        if p.Size() - pos < size {
          done := true;
        } else {
          var merged := Packet(p.data[pos..pos + size]);
          if !merged.Verify() {
            done := true;
          } else {
            pos := pos + size;
            HandleTaken(state, merged, p.data[pos..], connectNum, channelCount);
            ProcessPacket(merged);
            left := TakeAll(state, p.data[pos..], connectNum);
          }
        }
      }
      if !done {
        TakeAllStep(state, p.data[pos..], connectNum);
        TooShort(p.data[pos..]);
      }
      HandleNone(channelCount);
    }
  }

  lemma {:induction false} HandleTaken(st: Conn, p: Packet, rest: seq<byte>, num: nat, channelCount: nat)
    requires |p.data| >= 1
    ensures var (after, first) := Take(st, p, num); var others := TakeAll(after, rest, num).1;
            Handle(first + others, channelCount) == Handle(first, channelCount) + Handle(others, channelCount)
  {
    hide Take, TakeAll, Handle;
    var (after, first) := Take(st, p, num);
    HandleConcat(first, TakeAll(after, rest, num).1, channelCount);
  }

  lemma {:induction false} TakeAllStep(st: Conn, rest: seq<byte>, num: nat)
    ensures !WellFormed(rest) ==> TakeAll(st, rest, num) == (st, [])
    ensures WellFormed(rest) ==>
              |rest| >= MERGE_HEADER_SIZE && EntryEnd(rest) <= |rest|
              && var (after, first) := Take(st, FirstOf(rest), num);
                 var (end, others) := TakeAll(after, rest[EntryEnd(rest)..], num);
                 TakeAll(st, rest, num) == (end, first + others)
  {
    hide Take;
  }

  lemma {:induction false} TooShort(rest: seq<byte>)
    requires |rest| < MERGE_HEADER_SIZE
    ensures !WellFormed(rest)
  {}

  /** The entry at position pos of a packet. */
  lemma {:induction false} EntryParts(data: seq<byte>, pos: nat, size: nat)
    requires pos + 2 <= |data| && size == Uint16(data[pos], data[pos + 1])
    ensures var rest := data[pos..];
            && (WellFormed(rest) <==> pos + 2 + size <= |data| && Packet(data[pos + 2..pos + 2 + size]).Verify())
            && (WellFormed(rest) ==> FirstOf(rest) == Packet(data[pos + 2..pos + 2 + size])
                                     && rest[EntryEnd(rest)..] == data[pos + 2 + size..])
  {
    var rest := data[pos..];
    if pos + 2 + size <= |data| {
      assert rest[2..2 + size] == data[pos + 2..pos + 2 + size];
      assert rest[2 + size..] == data[pos + 2 + size..];
    }
  }

  /** What a channel puts on the wire reaches the channel of that id on the other side, if it can
      exist there, whatever the connection number. */
  lemma {:induction false} ReachesItsChannel(p: Packet, channelCount: nat, num: nat)
    requires p.Verify() && p.Property() in {PROP_CHANNELED, PROP_ACK, PROP_RELIABLE_MERGED}
    requires num < MAX_CONNECTION_NUMBER
    ensures HandlerFor(p.SetConnectionNumber(num), channelCount)
            == if p.ChannelID() < channelCount then Channel(p.ChannelID()) else Nobody
  {
    assert p.SetConnectionNumber(num).data[3] == p.data[3];
  }

  /** A packet that belongs to no channel reaches the one who is to have it. */
  lemma {:induction false} ReachesItsHandler(prop: nat, payload: seq<byte>, channelCount: nat, num: nat)
    requires prop < PROP_TOTAL && prop !in {PROP_CHANNELED, PROP_ACK, PROP_RELIABLE_MERGED}
    requires num < MAX_CONNECTION_NUMBER
    ensures HandlerFor(NewPacket(prop, payload).SetConnectionNumber(num), channelCount)
            == if prop == PROP_UNRELIABLE then Application
               else if prop == PROP_PING then PingReply
               else if prop == PROP_PONG then RoundTripTime
               else if prop in {PROP_MTU_CHECK, PROP_MTU_OK} then MtuDiscovery
               else Nobody
  {}

  // ---------------------------------------------------------------------- conservation

  /** What a channel hands to the peer for sending: well-formed, and neither of the two
      properties that the receiving peer treats specially. */
  type UserPacket = p: Packet | p.Verify() && p.Property() != PROP_MERGED && p.Property() != PROP_SHUTDOWN_OK
    witness Packet([0])

  datatype Command = Send(p: UserPacket) | GrowMtu(mtu: nat) | SendMerged

  function Do(b: Buffer, c: Command, num: nat): (Buffer, seq<Packet>)
    requires num < MAX_CONNECTION_NUMBER
  {
    match c
    case Send(p) => Offer(b, p, num)
    case GrowMtu(mtu) => (if b.mtu <= mtu <= MAX_PACKET_SIZE then b.(mtu := mtu) else b, [])
    case SendMerged => (b.(batch := []), Flush(b.batch, num))
  }

  function BufferAfter(cmds: seq<Command>, n: nat, num: nat): Buffer
    requires n <= |cmds| && num < MAX_CONNECTION_NUMBER
  {
    if n == 0 then Buffer([], SMALLEST_MTU) else Do(BufferAfter(cmds, n - 1, num), cmds[n - 1], num).0
  }

  /** The datagrams of the first n commands. */
  function Datagrams(cmds: seq<Command>, n: nat, num: nat): seq<Packet>
    requires n <= |cmds| && num < MAX_CONNECTION_NUMBER
  {
    if n == 0 then []
    else Datagrams(cmds, n - 1, num) + Do(BufferAfter(cmds, n - 1, num), cmds[n - 1], num).1
  }

  /** The packets of the first n commands, with the connection number on them. */
  function Given(cmds: seq<Command>, n: nat, num: nat): seq<Packet>
    requires n <= |cmds| && num < MAX_CONNECTION_NUMBER
  {
    if n == 0 then []
    else Given(cmds, n - 1, num) + Added(cmds[n - 1], num)
  }

  /** What a peer in state st dispatches when these datagrams arrive. */
  function Decoded(st: Conn, ds: seq<Packet>, num: nat): seq<Packet> {
    if ds == [] then []
    else Decoded(st, ds[..|ds| - 1], num)
         + if ds[|ds| - 1].Verify() then Take(st, ds[|ds| - 1], num).1 else []
  }

  predicate Live(st: Conn) { st.Connected? || st.ShutdownRequested? }

  predicate IsNumbered(q: Packet, num: nat) {
    && q.Verify() && |q.data| < 65536 && q.ConnectionNumber() == num
    && q.Property() != PROP_MERGED && q.Property() != PROP_SHUTDOWN_OK
  }

  lemma {:induction false} DecodedConcat(st: Conn, a: seq<Packet>, b: seq<Packet>, num: nat)
    ensures Decoded(st, a + b, num) == Decoded(st, a, num) + Decoded(st, b, num)
    decreases |b|
  {
    hide Take;
    if b == [] {
      assert a + b == a;
    } else {
      var last := |b| - 1;
      DecodedConcat(st, a, b[..last], num);
      assert (a + b)[..|a + b| - 1] == a + b[..last] && (a + b)[|a + b| - 1] == b[last];
    }
  }

  lemma {:induction false} DecodedOne(st: Conn, d: Packet, num: nat)
    requires d.Verify()
    ensures Decoded(st, [d], num) == Take(st, d, num).1
  {
    hide Take;
    assert [d][..0] == [];
  }

  lemma {:induction false} TakeNumbered(st: Conn, q: Packet, num: nat)
    requires Live(st) && IsNumbered(q, num)
    ensures Take(st, q, num) == (st, [q])
  {}

  /** Taking frames apart gives back the packets that were framed. */
  lemma {:induction false} TakeFrames(st: Conn, batch: seq<Packet>, num: nat)
    requires Live(st) && forall q :: q in batch ==> IsNumbered(q, num)
    ensures TakeAll(st, Frames(batch), num) == (st, batch)
    decreases |batch|
  {
    hide Frames, Frame, Take, WellFormed, IsNumbered;
    FramesParts(batch);
    if batch == [] {
      TooShort(Frames(batch));
    } else {
      assert batch[0] in batch;
      FirstFrame(batch[0], Frames(batch[1..]), num);
      TakeNumbered(st, batch[0], num);
      TakeFrames(st, batch[1..], num);
      assert batch == [batch[0]] + batch[1..];
    }
    TakeAllStep(st, Frames(batch), num);
  }

  lemma {:induction false} FramesParts(batch: seq<Packet>)
    ensures batch == [] ==> Frames(batch) == []
    ensures batch != [] ==> Frames(batch) == Frame(batch[0]) + Frames(batch[1..])
  {
    hide Frame;
  }

  lemma {:induction false} FirstFrame(q: Packet, rest: seq<byte>, num: nat)
    requires IsNumbered(q, num)
    ensures var all := Frame(q) + rest;
            WellFormed(all) && FirstOf(all) == q && all[EntryEnd(all)..] == rest
  {
    var all := Frame(q) + rest;
    Uint16RoundTrip(|q.data|);
    assert all[0] == LowByte(|q.data|) && all[1] == HighByte(|q.data|);
    assert all[2..2 + |q.data|] == q.data && all[2 + |q.data|..] == rest;
  }

  lemma {:induction false} FlushDecodes(st: Conn, batch: seq<Packet>, num: nat)
    requires Live(st) && num < MAX_CONNECTION_NUMBER && forall q :: q in batch ==> IsNumbered(q, num)
    ensures Decoded(st, Flush(batch, num), num) == batch
  {
    hide Frames, Decoded, TakeAll;
    NothingDecoded(st, num);
    if |batch| == 1 {
      assert batch[0] in batch && batch == [batch[0]];
      DecodedOne(st, batch[0], num);
      TakeNumbered(st, batch[0], num);
    } else if |batch| > 1 {
      var d := Packet([MergedHeader(num)] + Frames(batch));
      assert d.data[1..] == Frames(batch);
      MergedFields(d, num);
      DecodedOne(st, d, num);
      TakeFrames(st, batch, num);
    }
  }

  lemma {:induction false} NothingDecoded(st: Conn, num: nat)
    ensures Decoded(st, [], num) == []
  {}

  lemma {:induction false} MergedFields(d: Packet, num: nat)
    requires num < MAX_CONNECTION_NUMBER && |d.data| >= 1 && d.data[0] == MergedHeader(num)
    ensures d.Verify() && d.Property() == PROP_MERGED && d.ConnectionNumber() == num
  {}

  lemma {:induction false} NumberedUser(b: Buffer, p: UserPacket, num: nat)
    requires BufferOk(b) && num < MAX_CONNECTION_NUMBER && |p.data| < 65536
    ensures IsNumbered(p.SetConnectionNumber(num), num)
  {}

  /** Every packet sent fits the MTU of that moment. */
  predicate AllFit(cmds: seq<Command>, num: nat)
    requires num < MAX_CONNECTION_NUMBER
  {
    forall i :: 0 <= i < |cmds| && cmds[i].Send? ==> |cmds[i].p.data| <= BufferAfter(cmds, i, num).mtu
  }

  ghost predicate Conserved(st: Conn, cmds: seq<Command>, n: nat, num: nat)
    requires n <= |cmds| && num < MAX_CONNECTION_NUMBER
  {
    var b := BufferAfter(cmds, n, num);
    && BufferOk(b) && (forall q :: q in b.batch ==> IsNumbered(q, num))
    && multiset(Decoded(st, Datagrams(cmds, n, num), num)) + multiset(b.batch) == multiset(Given(cmds, n, num))
    && forall i :: 0 <= i < n ==> WithinMtu(BufferAfter(cmds, i, num), cmds[i], num)
  }

  /** What a command sends fits the MTU at that moment. */
  ghost predicate WithinMtu(b: Buffer, cmd: Command, num: nat)
    requires num < MAX_CONNECTION_NUMBER
  {
    forall d :: d in Do(b, cmd, num).1 ==> |d.data| <= b.mtu
  }

  lemma {:induction false} ConservedThroughout(st: Conn, cmds: seq<Command>, n: nat, num: nat)
    requires Live(st) && num < MAX_CONNECTION_NUMBER && n <= |cmds| && AllFit(cmds, num)
    ensures Conserved(st, cmds, n, num)
  {
    hide AllFit, Conserved;
    if n == 0 {
      NothingYet(st, cmds, num);
    } else {
      ConservedThroughout(st, cmds, n - 1, num);
      ConservedStep(st, cmds, n - 1, num);
    }
  }

  lemma {:induction false} NothingYet(st: Conn, cmds: seq<Command>, num: nat)
    requires num < MAX_CONNECTION_NUMBER
    ensures Conserved(st, cmds, 0, num)
  {}

  /** What a command adds to the packets given. */
  function Added(c: Command, num: nat): seq<Packet>
    requires num < MAX_CONNECTION_NUMBER
  {
    if c.Send? then [c.p.SetConnectionNumber(num)] else []
  }

  ghost predicate BufferNumbered(b: Buffer, num: nat) {
    BufferOk(b) && forall q :: q in b.batch ==> IsNumbered(q, num)
  }

  lemma {:induction false} ConservedStep(st: Conn, cmds: seq<Command>, n: nat, num: nat)
    requires Live(st) && num < MAX_CONNECTION_NUMBER && n < |cmds| && AllFit(cmds, num) && Conserved(st, cmds, n, num)
    ensures Conserved(st, cmds, n + 1, num)
  {
    hide IsNumbered, Decoded, BufferOk, Do, Live, Added;
    var b := BufferAfter(cmds, n, num);
    var ds, given := Datagrams(cmds, n, num), Given(cmds, n, num);
    var (c, sent) := Do(b, cmds[n], num);
    DoConserves(st, b, cmds[n], num);
    DecodedConcat(st, ds, sent, num);
    Balance(Decoded(st, ds, num), b.batch, given, Decoded(st, sent, num), c.batch, Added(cmds[n], num));
  }

  lemma {:induction false} Balance(out: seq<Packet>, batch: seq<Packet>, given: seq<Packet>,
                sent: seq<Packet>, after: seq<Packet>, more: seq<Packet>)
    requires multiset(out) + multiset(batch) == multiset(given)
    requires multiset(sent) + multiset(after) == multiset(batch) + multiset(more)
    ensures multiset(out + sent) + multiset(after) == multiset(given + more)
  {
    assert multiset(out + sent) + multiset(after) == multiset(out) + (multiset(sent) + multiset(after));
  }

  /** One command: what leaves and what stays together are what was there and what came. */
  lemma {:induction false} DoConserves(st: Conn, b: Buffer, cmd: Command, num: nat)
    requires Live(st) && num < MAX_CONNECTION_NUMBER && BufferNumbered(b, num) && (cmd.Send? ==> |cmd.p.data| <= b.mtu)
    ensures var (c, sent) := Do(b, cmd, num);
            && BufferNumbered(c, num) && b.mtu <= c.mtu
            && multiset(Decoded(st, sent, num)) + multiset(c.batch) == multiset(b.batch) + multiset(Added(cmd, num))
            && WithinMtu(b, cmd, num)
  {
    hide IsNumbered, Decoded, Offer, BufferOk, Flush;
    NothingDecoded(st, num);
    match cmd
    case Send(p) =>
      OfferConserves(st, b, p, num);
      MultisetAppend(b.batch, p.SetConnectionNumber(num));
    case GrowMtu(mtu) =>
      GrowKeepsOk(b, mtu);
    case SendMerged =>
      FlushDecodes(st, b.batch, num);
      FlushKeepsOk(b, num);
  }

  lemma {:induction false} MultisetAppend(s: seq<Packet>, q: Packet)
    ensures multiset(s + [q]) == multiset(s) + multiset{q}
  {}

  lemma {:induction false} GrowKeepsOk(b: Buffer, mtu: nat)
    requires BufferOk(b)
    ensures b.mtu <= mtu <= MAX_PACKET_SIZE ==> BufferOk(b.(mtu := mtu))
  {
    hide Frames;
  }

  lemma {:induction false} FlushKeepsOk(b: Buffer, num: nat)
    requires BufferOk(b) && num < MAX_CONNECTION_NUMBER
    ensures BufferOk(b.(batch := [])) && forall d :: d in Flush(b.batch, num) ==> |d.data| <= b.mtu
  {
    FlushFits(b, num);
  }

  lemma {:induction false} OfferConserves(st: Conn, b: Buffer, p: UserPacket, num: nat)
    requires Live(st) && num < MAX_CONNECTION_NUMBER && BufferOk(b) && |p.data| <= b.mtu
    requires forall q :: q in b.batch ==> IsNumbered(q, num)
    ensures var (c, sent) := Offer(b, p, num);
            && BufferOk(c) && c.mtu == b.mtu
            && (forall q :: q in c.batch ==> IsNumbered(q, num))
            && multiset(Decoded(st, sent, num)) + multiset(c.batch) == multiset(b.batch + [p.SetConnectionNumber(num)])
            && forall d :: d in sent ==> |d.data| <= b.mtu
  {
    hide Frames, Decoded, Take, Flush, TooBig, NoRoom;
    var q := p.SetConnectionNumber(num);
    OfferFits(b, p, num);
    NumberedUser(b, p, num);
    hide IsNumbered, BufferOk;
    FlushDecodes(st, b.batch, num);
    DecodedOne(st, q, num);
    TakeNumbered(st, q, num);
    NothingDecoded(st, num);
  }

  /** Batching loses, repeats and changes nothing. Whatever is sent, in whatever sizes, with
      the MTU growing and the buffer flushed at any time: after a last flush the datagrams
      decode to exactly the packets given, none exceeded the MTU when it left, and nothing
      stays behind in the buffer. */
  lemma {:induction false} BatchingConserves(st: Conn, cmds: seq<Command>, num: nat)
    requires Live(st) && num < MAX_CONNECTION_NUMBER && AllFit(cmds, num)
    requires cmds != [] && cmds[|cmds| - 1] == SendMerged
    ensures multiset(Decoded(st, Datagrams(cmds, |cmds|, num), num)) == multiset(Given(cmds, |cmds|, num))
    ensures forall i :: 0 <= i < |cmds| ==> WithinMtu(BufferAfter(cmds, i, num), cmds[i], num)
    ensures BufferAfter(cmds, |cmds|, num).batch == []
  {
    hide Decoded, Datagrams, Given, IsNumbered, AllFit;
    ConservedThroughout(st, cmds, |cmds|, num);
  }

  // --------------------------------------------------------------------------- order

  /** Command i sends a packet that is too big to batch while others wait in the buffer. */
  predicate Overtakes(cmds: seq<Command>, i: nat, num: nat)
    requires i < |cmds| && num < MAX_CONNECTION_NUMBER
  {
    var b := BufferAfter(cmds, i, num);
    cmds[i].Send? && |cmds[i].p.data| + 23 >= b.mtu && b.batch != []
  }

  /** What has left and what still waits are, in this order, the packets given. */
  ghost predicate InOrder(st: Conn, cmds: seq<Command>, n: nat, num: nat)
    requires n <= |cmds| && num < MAX_CONNECTION_NUMBER
  {
    Decoded(st, Datagrams(cmds, n, num), num) + BufferAfter(cmds, n, num).batch == Given(cmds, n, num)
  }

  lemma {:induction false} OrderKept(st: Conn, cmds: seq<Command>, n: nat, num: nat)
    requires Live(st) && num < MAX_CONNECTION_NUMBER && n <= |cmds| && AllFit(cmds, num)
    requires forall i :: 0 <= i < n ==> !Overtakes(cmds, i, num)
    ensures InOrder(st, cmds, n, num)
  {
    hide AllFit, Conserved, Do, Decoded, Overtakes;
    NothingDecoded(st, num);
    if n > 0 {
      var b := BufferAfter(cmds, n - 1, num);
      OrderKept(st, cmds, n - 1, num);
      BufferThroughout(st, cmds, n - 1, num);
      DecodedConcat(st, Datagrams(cmds, n - 1, num), Do(b, cmds[n - 1], num).1, num);
      StepInOrder(st, cmds, n - 1, num);
      var (c, sent) := Do(b, cmds[n - 1], num);
      var before := Decoded(st, Datagrams(cmds, n - 1, num), num);
      assert before + Decoded(st, sent, num) + c.batch == before + (b.batch + Added(cmds[n - 1], num));
      assert before + (b.batch + Added(cmds[n - 1], num)) == before + b.batch + Added(cmds[n - 1], num);
    }
  }

  lemma {:induction false} BufferThroughout(st: Conn, cmds: seq<Command>, n: nat, num: nat)
    requires Live(st) && num < MAX_CONNECTION_NUMBER && n <= |cmds| && AllFit(cmds, num)
    ensures BufferNumbered(BufferAfter(cmds, n, num), num)
    ensures n < |cmds| && cmds[n].Send? ==> |cmds[n].p.data| <= BufferAfter(cmds, n, num).mtu
  {
    hide BufferOk, IsNumbered, BufferAfter;
    ConservedThroughout(st, cmds, n, num);
  }

  /** One command keeps the order unless it overtakes. */
  lemma {:induction false} StepInOrder(st: Conn, cmds: seq<Command>, n: nat, num: nat)
    requires Live(st) && num < MAX_CONNECTION_NUMBER && n < |cmds|
    requires var b := BufferAfter(cmds, n, num);
             BufferNumbered(b, num) && (cmds[n].Send? ==> |cmds[n].p.data| <= b.mtu)
    ensures var b := BufferAfter(cmds, n, num); var (c, sent) := Do(b, cmds[n], num);
            !Overtakes(cmds, n, num) ==> Decoded(st, sent, num) + c.batch == b.batch + Added(cmds[n], num)
  {
    hide IsNumbered, Decoded, Flush, BufferAfter, NoRoom, Take;
    var b := BufferAfter(cmds, n, num);
    NothingDecoded(st, num);
    FlushDecodes(st, b.batch, num);
    if cmds[n].Send? {
      var q := cmds[n].p.SetConnectionNumber(num);
      NumberedUser(b, cmds[n].p, num);
      DecodedOne(st, q, num);
      TakeNumbered(st, q, num);
    }
  }

  lemma {:induction false} NumberedVerifies(q: Packet, num: nat)
    requires IsNumbered(q, num)
    ensures q.Verify()
  {}

  lemma {:induction false} DatagramsPrefix(st: Conn, cmds: seq<Command>, i: nat, n: nat, num: nat)
    requires num < MAX_CONNECTION_NUMBER && i <= n <= |cmds|
    ensures Decoded(st, Datagrams(cmds, i, num), num) <= Decoded(st, Datagrams(cmds, n, num), num)
    ensures Given(cmds, i, num) <= Given(cmds, n, num)
    decreases n
  {
    hide Decoded, Do, BufferAfter, Added;
    if i < n {
      DatagramsPrefix(st, cmds, i, n - 1, num);
      DecodedConcat(st, Datagrams(cmds, n - 1, num), Do(BufferAfter(cmds, n - 1, num), cmds[n - 1], num).1, num);
    }
  }

  /** A packet that overtakes leaves before those that waited. */
  lemma {:induction false} OvertakesFirst(st: Conn, cmds: seq<Command>, i: nat, num: nat)
    requires Live(st) && num < MAX_CONNECTION_NUMBER && i < |cmds| && AllFit(cmds, num) && Overtakes(cmds, i, num)
    ensures var big := cmds[i].p.SetConnectionNumber(num);
            && Decoded(st, Datagrams(cmds, i + 1, num), num) == Decoded(st, Datagrams(cmds, i, num), num) + [big]
            && big !in BufferAfter(cmds, i, num).batch
  {
    hide Decoded, AllFit, Take, IsNumbered;
    var b := BufferAfter(cmds, i, num);
    var big := cmds[i].p.SetConnectionNumber(num);
    BufferThroughout(st, cmds, i, num);
    NumberedUser(b, cmds[i].p, num);
    NumberedVerifies(big, num);
    DecodedOne(st, big, num);
    TakeNumbered(st, big, num);
    DecodedConcat(st, Datagrams(cmds, i, num), [big], num);
  }

  /** A packet that overtakes is never where it was given: it is not one of those it passed. */
  lemma {:induction false} OrderLost(st: Conn, cmds: seq<Command>, i: nat, n: nat, num: nat)
    requires Live(st) && num < MAX_CONNECTION_NUMBER && i < n <= |cmds| && AllFit(cmds, num)
    requires Overtakes(cmds, i, num) && InOrder(st, cmds, i, num)
    ensures !InOrder(st, cmds, n, num)
  {
    hide Decoded, AllFit, BufferAfter, Datagrams, Given;
    var b, next := BufferAfter(cmds, i, num), i + 1;
    var big := cmds[i].p.SetConnectionNumber(num);
    var before := Decoded(st, Datagrams(cmds, i, num), num);
    OvertakesFirst(st, cmds, i, num);
    DatagramsPrefix(st, cmds, next, n, num);
    DatagramsPrefix(st, cmds, i, n, num);
    assert Given(cmds, n, num)[|before|] == Given(cmds, i, num)[|before|] == b.batch[0];
    assert b.batch[0] in b.batch;
    assert (Decoded(st, Datagrams(cmds, n, num), num) + BufferAfter(cmds, n, num).batch)[|before|] == big;
  }

  /** The order of the packets is kept exactly in the runs without such a send; the multiset
      of BatchingConserves is all that is kept in the others. */
  lemma {:induction false} OrderExactly(st: Conn, cmds: seq<Command>, n: nat, num: nat)
    requires Live(st) && num < MAX_CONNECTION_NUMBER && n <= |cmds| && AllFit(cmds, num)
    ensures InOrder(st, cmds, n, num) <==> forall i :: 0 <= i < n ==> !Overtakes(cmds, i, num)
    ensures n > 0 && cmds[n - 1] == SendMerged ==>
              (Decoded(st, Datagrams(cmds, n, num), num) == Given(cmds, n, num)
               <==> forall i :: 0 <= i < n ==> !Overtakes(cmds, i, num))
  {
    hide AllFit, Decoded, Datagrams, Given, Overtakes;
    if forall i :: 0 <= i < n ==> !Overtakes(cmds, i, num) {
      OrderKept(st, cmds, n, num);
    } else {
      var i := FirstOvertaking(cmds, n, num);
      OrderKept(st, cmds, i, num);
      OrderLost(st, cmds, i, n, num);
    }
  }

  lemma {:induction false} FirstOvertaking(cmds: seq<Command>, n: nat, num: nat) returns (i: nat)
    requires num < MAX_CONNECTION_NUMBER && n <= |cmds| && exists i :: 0 <= i < n && Overtakes(cmds, i, num)
    ensures i < n && Overtakes(cmds, i, num) && forall j :: 0 <= j < i ==> !Overtakes(cmds, j, num)
  {
    hide Overtakes;
    i := 0;
    while !Overtakes(cmds, i, num)
      invariant i < n && forall j :: 0 <= j < i ==> !Overtakes(cmds, j, num)
      decreases n - i
    {
      i := i + 1;
    }
  }
}
