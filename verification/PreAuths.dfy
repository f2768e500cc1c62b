/** The connection data of a game client: how the proxy parses it and how it appends the
    client's address before forwarding it. */
module PreAuths {
  import opened Bits
  import opened Codec

  const MAX_USER_ID_LENGTH := 64
  const MAX_CHALLENGE_LENGTH := 128
  const MAX_REGION_LENGTH := 8
  const MAX_SIGNATURE_LENGTH := 512
  const MIN_RAW_LENGTH := 8

  datatype PreAuth = PreAuth(clientType: byte, major: byte, minor: byte, revision: byte, backwardCompat: bool,
                             backwardRev: byte, challengeID: seq<byte>, userID: seq<byte>, expiration: int64,
                             flags: byte, region: seq<byte>, signature: seq<byte>)

  datatype ParseError = Empty | Unsupported

  datatype Parsed = Rejected(error: ParseError) | Accepted(auth: PreAuth)

  predicate WithinLimits(p: PreAuth) {
    && |p.challengeID| <= MAX_CHALLENGE_LENGTH && |p.userID| <= MAX_USER_ID_LENGTH
    && |p.region| <= MAX_REGION_LENGTH && |p.signature| <= MAX_SIGNATURE_LENGTH
  }

  // --------------------------------------------------------------------- specification

  /** A string field with a limit on its length. */
  function ReadLimited(raw: seq<byte>, pos: nat, limit: nat): (r: Read<seq<byte>>)
    requires pos <= |raw|
    ensures pos <= r.pos <= |raw| && (r.Done? ==> |r.value| <= limit)
  {
    var (v, p) :- ReadString(raw, pos);
    if |v| > limit then Fail(StringSize, p) else Done(v, p)
  }

  /** The fixed bytes at the front. */
  datatype Front = Front(clientType: byte, major: byte, minor: byte, revision: byte,
                         backwardCompat: bool, backwardRev: byte)

  function ReadFront(raw: seq<byte>, pos: nat): (r: Read<Front>)
    requires pos <= |raw|
    ensures pos <= r.pos <= |raw|
  {
    var (clientType, p1) :- ReadByte(raw, pos);
    var (major, p2) :- ReadByte(raw, p1);
    var (minor, p3) :- ReadByte(raw, p2);
    var (revision, p4) :- ReadByte(raw, p3);
    var (backwardCompat, p5) :- ReadBool(raw, p4);
    var (backwardRev, p6) :- ReadByte(raw, p5);
    Done(Front(clientType, major, minor, revision, backwardCompat, backwardRev), p6)
  }

  function ReadAuth(raw: seq<byte>): (r: Read<PreAuth>)
    ensures r.pos <= |raw| && (r.Done? ==> WithinLimits(r.value))
  {
    var (f, p1) :- ReadFront(raw, 0);
    var (challengeID, p2) :- ReadLimited(raw, p1, MAX_CHALLENGE_LENGTH);
    var (userID, p3) :- ReadLimited(raw, p2, MAX_USER_ID_LENGTH);
    var (expiration, p4) :- ReadInt64(raw, p3);
    var (flags, p5) :- ReadByte(raw, p4);
    var (region, p6) :- ReadLimited(raw, p5, MAX_REGION_LENGTH);
    var (signature, p7) :- ReadBlock(raw, p6);
    if |signature| > MAX_SIGNATURE_LENGTH then Fail(Truncated, p7)
    else Done(PreAuth(f.clientType, f.major, f.minor, f.revision, f.backwardCompat, f.backwardRev,
                      challengeID, userID, expiration, flags, region, signature), p7)
  }

  function ParseOf(raw: seq<byte>): Parsed {
    if |raw| < MIN_RAW_LENGTH then Rejected(Empty)
    else match ReadAuth(raw)
         case Fail(_, _) => Rejected(Unsupported)
         case Done(p, _) => Accepted(p)
  }

  // ---------------------------------------------------------------------- the code itself

  method Parse(raw: seq<byte>) returns (parsed: Parsed)
    ensures parsed == ParseOf(raw)
  {
    hide ReadByte, ReadBool, ReadString, ReadInt64, ReadBlock;
    if |raw| < MIN_RAW_LENGTH {
      return Rejected(Empty);
    }
    var r := new Reader(raw);
    var clientType := r.Byte();
    if clientType.Fail? { return Rejected(Unsupported); }
    var major := r.Byte();
    if major.Fail? { return Rejected(Unsupported); }
    var minor := r.Byte();
    if minor.Fail? { return Rejected(Unsupported); }
    var revision := r.Byte();
    if revision.Fail? { return Rejected(Unsupported); }
    var backwardCompat := r.Bool();
    if backwardCompat.Fail? { return Rejected(Unsupported); }
    var backwardRev := r.Byte();
    if backwardRev.Fail? { return Rejected(Unsupported); }
    var challengeID := r.String();
    if challengeID.Fail? { return Rejected(Unsupported); }
    if |challengeID.value| > MAX_CHALLENGE_LENGTH { return Rejected(Unsupported); }
    var userID := r.String();
    if userID.Fail? { return Rejected(Unsupported); }
    if |userID.value| > MAX_USER_ID_LENGTH { return Rejected(Unsupported); }
    var expiration := r.Int64();
    if expiration.Fail? { return Rejected(Unsupported); }
    var flags := r.Byte();
    if flags.Fail? { return Rejected(Unsupported); }
    var region := r.String();
    if region.Fail? { return Rejected(Unsupported); }
    if |region.value| > MAX_REGION_LENGTH { return Rejected(Unsupported); }
    var signature := r.BytesWithLength();
    if signature.Fail? { return Rejected(Unsupported); }
    if |signature.value| > MAX_SIGNATURE_LENGTH { return Rejected(Unsupported); }
    return Accepted(PreAuth(clientType.value, major.value, minor.value, revision.value, backwardCompat.value,
                            backwardRev.value, challengeID.value, userID.value, expiration.value, flags.value,
                            region.value, signature.value));
  }

  method AppendRealIP(raw: seq<byte>, ip: seq<byte>) returns (out: seq<byte>)
    ensures out == WithRealIP(raw, ip)
  {
    var w := new Writer(raw);
    w.PutString(ip);
    out := w.buf;
  }

  function WithRealIP(raw: seq<byte>, ip: seq<byte>): seq<byte> { raw + EncodeString(ip) }

  // -------------------------------------------------------------------------- round trip

  function EncodeFront(p: PreAuth): seq<byte> {
    [p.clientType, p.major, p.minor, p.revision, if p.backwardCompat then 1 else 0, p.backwardRev]
  }

  /** The fields in the order they are parsed. */
  function Encode(p: PreAuth): seq<byte> {
    EncodeFront(p) + EncodeString(p.challengeID) + EncodeString(p.userID) + EncodeInt64(p.expiration)
    + [p.flags] + EncodeString(p.region) + EncodeBlock(p.signature)
  }

  method Write(p: PreAuth) returns (raw: seq<byte>)
    ensures raw == Encode(p)
  {
    hide EncodeString, EncodeInt64, EncodeBlock;
    var w := new Writer([]);
    w.PutByte(p.clientType);
    w.PutByte(p.major);
    w.PutByte(p.minor);
    w.PutByte(p.revision);
    w.PutBool(p.backwardCompat);
    w.PutByte(p.backwardRev);
    assert w.buf == EncodeFront(p);
    w.PutString(p.challengeID);
    w.PutString(p.userID);
    w.PutInt64(p.expiration);
    w.PutByte(p.flags);
    w.PutString(p.region);
    w.PutBytesWithLength(p.signature);
    raw := w.buf;
  }

  /** Where each field stands. */
  lemma {:induction false} FieldsAt(raw: seq<byte>, p: PreAuth)
    requires Encode(p) <= raw
    ensures var c, u, g := EncodeString(p.challengeID), EncodeString(p.userID), EncodeString(p.region);
            var atU := 6 + |c|; var atE := atU + |u|; var atG := atE + 9; var atS := atG + |g|;
            && At(raw, 0, EncodeFront(p)) && At(raw, 6, c) && At(raw, atU, u) && At(raw, atE, EncodeInt64(p.expiration))
            && At(raw, atE + 8, [p.flags]) && At(raw, atG, g) && At(raw, atS, EncodeBlock(p.signature))
  {
    hide EncodeString, EncodeInt64, EncodeBlock, At;
    var c, u, g := EncodeString(p.challengeID), EncodeString(p.userID), EncodeString(p.region);
    var e, s := EncodeInt64(p.expiration), EncodeBlock(p.signature);
    Int64Size(p.expiration);
    WholeAt(raw, Encode(p));
    assert Encode(p) == EncodeFront(p) + (c + (u + (e + ([p.flags] + (g + s)))));
    AtParts(raw, 0, EncodeFront(p), c + (u + (e + ([p.flags] + (g + s)))));
    AtParts(raw, 6, c, u + (e + ([p.flags] + (g + s))));
    AtParts(raw, 6 + |c|, u, e + ([p.flags] + (g + s)));
    AtParts(raw, 6 + |c| + |u|, e, [p.flags] + (g + s));
    AtParts(raw, 6 + |c| + |u| + 8, [p.flags], g + s);
    AtParts(raw, 6 + |c| + |u| + 9, g, s);
  }

  lemma {:induction false} WholeAt(raw: seq<byte>, bytes: seq<byte>)
    requires bytes <= raw
    ensures At(raw, 0, bytes)
  {}

  lemma {:induction false} Int64Size(v: int64)
    ensures |EncodeInt64(v)| == 8
  {}

  lemma {:induction false} FrontRead(raw: seq<byte>, p: PreAuth)
    requires At(raw, 0, EncodeFront(p))
    ensures 6 <= |raw|
    ensures ReadFront(raw, 0)
            == Done(Front(p.clientType, p.major, p.minor, p.revision, p.backwardCompat, p.backwardRev), 6)
  {
    hide ReadByte, ReadBool;
    var f := EncodeFront(p);
    forall i | 0 <= i < 6
      ensures At(raw, i, [f[i]])
    {
      assert raw[0..6][i] == f[i];
    }
    ReadsByte(raw, 0, f[0]);
    ReadsByte(raw, 1, f[1]);
    ReadsByte(raw, 2, f[2]);
    ReadsByte(raw, 3, f[3]);
    ReadsBool(raw, 4, p.backwardCompat);
    ReadsByte(raw, 5, f[5]);
  }

  lemma {:induction false} LimitedRead(raw: seq<byte>, pos: nat, v: seq<byte>, limit: nat)
    requires |v| <= limit < STRING_BUFFER_MAX_LENGTH && At(raw, pos, EncodeString(v))
    ensures pos + |EncodeString(v)| <= |raw| && ReadLimited(raw, pos, limit) == Done(v, pos + |EncodeString(v)|)
  {
    hide EncodeString;
    ReadsString(raw, pos, v);
  }

  /** Every pre-authentication within the limits is parsed back unchanged, whatever follows. */
  lemma {:induction false} ParseRoundTrip(p: PreAuth, more: seq<byte>)
    requires WithinLimits(p)
    ensures ParseOf(Encode(p) + more) == Accepted(p)
  {
    hide EncodeString, EncodeInt64, EncodeBlock, EncodeFront, Encode, At, ReadFront;
    hide ReadLimited, ReadInt64, ReadByte, ReadBlock;
    var raw := Encode(p) + more;
    var c, u, g := EncodeString(p.challengeID), EncodeString(p.userID), EncodeString(p.region);
    var atU := 6 + |c|;
    var atE := atU + |u|;
    var atG := atE + 9;
    var atS := atG + |g|;
    FieldsAt(raw, p);
    FrontRead(raw, p);
    LimitedRead(raw, 6, p.challengeID, MAX_CHALLENGE_LENGTH);
    LimitedRead(raw, atU, p.userID, MAX_USER_ID_LENGTH);
    ReadsInt64(raw, atE, p.expiration);
    EndsInside(raw, atE + 8, [p.flags]);
    ReadsByte(raw, atE + 8, p.flags);
    LimitedRead(raw, atG, p.region, MAX_REGION_LENGTH);
    EndsInside(raw, atS, EncodeBlock(p.signature));
    ReadsBlock(raw, atS, p.signature);
  }

  lemma {:induction false} EndsInside(raw: seq<byte>, pos: nat, bytes: seq<byte>)
    requires At(raw, pos, bytes)
    ensures pos + |bytes| <= |raw|
  {}

  /** Only pre-authentications within the limits are accepted, and each of them has an
      encoding that parses to the same thing. */
  lemma {:induction false} ParseAcceptsExactly(p: PreAuth)
    ensures (exists raw :: ParseOf(raw) == Accepted(p)) <==> WithinLimits(p)
  {
    hide Encode, ReadAuth;
    if WithinLimits(p) {
      ParseRoundTrip(p, []);
      assert Encode(p) + [] == Encode(p);
    }
  }

  // ---------------------------------------------------------------- what is accepted

  /** The user id starts at atU, the expiration at atE, the signature at atS. */
  predicate LaidOut(raw: seq<byte>, p: PreAuth, atU: nat, atE: nat, atS: nat) {
    && 6 <= atU <= atE && atE + 9 <= atS <= |raw|
    && raw[..4] == [p.clientType, p.major, p.minor, p.revision]
    && (p.backwardCompat <==> raw[4] != 0) && raw[5] == p.backwardRev
    && IsString(raw[6..atU], p.challengeID) && IsString(raw[atU..atE], p.userID)
    && At(raw, atE, EncodeInt64(p.expiration)) && raw[atE + 8] == p.flags
    && IsString(raw[atE + 9..atS], p.region) && At(raw, atS, EncodeBlock(p.signature))
  }

  lemma {:induction false} FrontExactly(raw: seq<byte>)
    ensures ReadFront(raw, 0).Done? <==> 6 <= |raw|
    ensures ReadFront(raw, 0).Done? ==>
              ReadFront(raw, 0) == Done(Front(raw[0], raw[1], raw[2], raw[3], raw[4] != 0, raw[5]), 6)
  {}

  lemma {:induction false} LimitedExactly(raw: seq<byte>, pos: nat, limit: nat, v: seq<byte>, end: nat)
    requires pos <= |raw|
    ensures ReadLimited(raw, pos, limit) == Done(v, end)
            <==> pos <= end <= |raw| && IsString(raw[pos..end], v) && |v| <= limit
  {
    hide ReadString, IsString;
    StringExactly(raw, pos, v, end);
  }

  /** An accepted pre-authentication stands in the bytes, field by field. */
  lemma {:induction false} AcceptedIsLaidOut(raw: seq<byte>, p: PreAuth) returns (atU: nat, atE: nat, atS: nat)
    requires ParseOf(raw) == Accepted(p)
    ensures WithinLimits(p) && LaidOut(raw, p, atU, atE, atS)
  {
    hide ReadFront, ReadLimited, ReadInt64, ReadBlock, IsString, At, EncodeInt64, EncodeBlock;
    FrontExactly(raw);
    var c := ReadLimited(raw, 6, MAX_CHALLENGE_LENGTH);
    LimitedExactly(raw, 6, MAX_CHALLENGE_LENGTH, p.challengeID, c.pos);
    atU := c.pos;
    var u := ReadLimited(raw, atU, MAX_USER_ID_LENGTH);
    LimitedExactly(raw, atU, MAX_USER_ID_LENGTH, p.userID, u.pos);
    atE := u.pos;
    var e := ReadInt64(raw, atE);
    Int64Exactly(raw, atE, p.expiration, e.pos);
    var f := ReadByte(raw, e.pos);
    var g := ReadLimited(raw, f.pos, MAX_REGION_LENGTH);
    LimitedExactly(raw, f.pos, MAX_REGION_LENGTH, p.region, g.pos);
    atS := g.pos;
    BlockExactly(raw, atS, p.signature, ReadBlock(raw, atS).pos);
  }

  lemma {:induction false} LaidOutIsAccepted(raw: seq<byte>, p: PreAuth, atU: nat, atE: nat, atS: nat)
    requires WithinLimits(p) && LaidOut(raw, p, atU, atE, atS)
    ensures ParseOf(raw) == Accepted(p)
  {
    hide ReadFront, ReadLimited, ReadInt64, ReadBlock, At, IsString, EncodeInt64, EncodeBlock;
    FrontExactly(raw);
    LimitedExactly(raw, 6, MAX_CHALLENGE_LENGTH, p.challengeID, atU);
    LimitedExactly(raw, atU, MAX_USER_ID_LENGTH, p.userID, atE);
    Int64Exactly(raw, atE, p.expiration, atE + 8);
    LimitedExactly(raw, atE + 9, MAX_REGION_LENGTH, p.region, atS);
    BlockExactly(raw, atS, p.signature, atS + 4 + |p.signature|);
  }

  /** Accepted are exactly the bytes that hold the fields within their limits, one behind
      the other; only an empty string can be written in two ways. */
  lemma {:induction false} ParseExactly(raw: seq<byte>, p: PreAuth)
    ensures ParseOf(raw) == Accepted(p)
            <==> WithinLimits(p) && exists atU, atE, atS :: LaidOut(raw, p, atU, atE, atS)
  {
    hide ParseOf, LaidOut;
    if ParseOf(raw) == Accepted(p) {
      var atU, atE, atS := AcceptedIsLaidOut(raw, p);
    }
    forall atU: nat, atE: nat, atS: nat | WithinLimits(p) && LaidOut(raw, p, atU, atE, atS)
      ensures ParseOf(raw) == Accepted(p)
    {
      LaidOutIsAccepted(raw, p, atU, atE, atS);
    }
  }

  /** Fewer than eight bytes are taken for no data at all, anything else that is not
      accepted for something unsupported. */
  lemma {:induction false} ErrorExactly(raw: seq<byte>)
    ensures ParseOf(raw) == Rejected(Empty) <==> |raw| < 8
    ensures ParseOf(raw) == Rejected(Unsupported)
            <==> |raw| >= 8 && forall p, atU, atE, atS :: WithinLimits(p) ==> !LaidOut(raw, p, atU, atE, atS)
  {
    hide ReadAuth, LaidOut, WithinLimits;
    if ParseOf(raw).Accepted? {
      ParseExactly(raw, ParseOf(raw).auth);
    } else {
      forall p, atU: nat, atE: nat, atS: nat | WithinLimits(p)
        ensures !LaidOut(raw, p, atU, atE, atS)
      {
        ParseExactly(raw, p);
      }
    }
  }

  // -------------------------------------------------------------------- what is appended

  lemma {:induction false} FrontStable(raw: seq<byte>, more: seq<byte>)
    ensures ReadFront(raw, 0).Done? ==> ReadFront(raw + more, 0) == ReadFront(raw, 0)
  {
    hide ReadByte, ReadBool;
    forall pos: nat | pos <= |raw|
      ensures ReadByte(raw, pos).Done? ==> ReadByte(raw + more, pos) == ReadByte(raw, pos)
      ensures ReadBool(raw, pos).Done? ==> ReadBool(raw + more, pos) == ReadBool(raw, pos)
    {
      ByteStable(raw, more, pos);
    }
  }

  lemma {:induction false} LimitedStable(raw: seq<byte>, more: seq<byte>, pos: nat, limit: nat)
    requires pos <= |raw|
    ensures ReadLimited(raw, pos, limit).Done? ==> ReadLimited(raw + more, pos, limit) == ReadLimited(raw, pos, limit)
  {
    hide ReadString;
    StringStable(raw, more, pos);
  }

  /** Bytes behind an accepted pre-authentication do not change how it is parsed. */
  lemma {:induction false} ParseStable(raw: seq<byte>, more: seq<byte>)
    ensures ParseOf(raw).Accepted? ==> ParseOf(raw + more) == ParseOf(raw)
  {
    hide ReadFront, ReadLimited, ReadInt64, ReadByte, ReadBlock;
    if ParseOf(raw).Accepted? {
      var f := ReadFront(raw, 0);
      FrontStable(raw, more);
      var c := ReadLimited(raw, f.pos, MAX_CHALLENGE_LENGTH);
      LimitedStable(raw, more, f.pos, MAX_CHALLENGE_LENGTH);
      var u := ReadLimited(raw, c.pos, MAX_USER_ID_LENGTH);
      LimitedStable(raw, more, c.pos, MAX_USER_ID_LENGTH);
      var e := ReadInt64(raw, u.pos);
      Int64Stable(raw, more, u.pos);
      ByteStable(raw, more, e.pos);
      var fl := ReadByte(raw, e.pos);
      var g := ReadLimited(raw, fl.pos, MAX_REGION_LENGTH);
      LimitedStable(raw, more, fl.pos, MAX_REGION_LENGTH);
      BlockStable(raw, more, g.pos);
    }
  }

  /** The forwarded data starts with the client's own bytes, parses to the same thing, and
      what was appended reads back as exactly the address with nothing left over, unless it
      is as long as no address is. */
  lemma {:induction false} RealIPReadsBack(raw: seq<byte>, ip: seq<byte>)
    ensures var out := WithRealIP(raw, ip);
            && raw <= out
            && (ParseOf(raw).Accepted? ==> ParseOf(out) == ParseOf(raw))
            && (ReadString(out, |raw|) == Done(ip, |out|) <==> |ip| < STRING_BUFFER_MAX_LENGTH)
  {
    hide EncodeString, ReadString, ParseOf;
    var out := WithRealIP(raw, ip);
    assert At(out, |raw|, EncodeString(ip));
    ReadsString(out, |raw|, ip);
    ParseStable(raw, EncodeString(ip));
  }
}
