/** Finding the largest datagram that gets through: two connected peers probe each other with
    datagrams of growing size, over a network that loses and repeats them and carries only so
    many bytes either way. */
module MtuDiscovery {
  import opened Bits
  import opened Codec
  import opened ConnectionPackets
  import opened Options
  import opened Packets

  const POSSIBLE_MTU: seq<nat> := [SMALLEST_MTU, 1164, 1392, 1404, 1424, MAX_PACKET_SIZE]
  const LAST_MTU := 5
  const MTU_CHECK_DELAY := 1000
  const MAX_MTU_CHECK_ATTEMPTS := 4

  /** What a peer knows of its MTU; idx is its place in the table. */
  datatype Prober = Prober(idx: nat, finished: bool, timer: int, attempts: nat) {
    predicate Ok() { idx <= LAST_MTU }

    function Mtu(): (size: nat)
      requires Ok()
      ensures SMALLEST_MTU <= size <= MAX_PACKET_SIZE
    {
      POSSIBLE_MTU[idx]
    }
  }

  const FRESH := Prober(0, false, 0, 0)

  lemma {:induction false} SizesGrow(i: nat, j: nat)
    requires i <= LAST_MTU && j <= LAST_MTU
    ensures POSSIBLE_MTU[i] <= POSSIBLE_MTU[j] <==> i <= j
  {}

  // --------------------------------------------------------------------------- the probes

  /** A datagram of the size to try, which it names at both ends; its connection number is 0. */
  function ProbePacket(size: nat): Packet
    requires SMALLEST_MTU <= size <= MAX_PACKET_SIZE
  {
    Packet([Header(PROP_MTU_CHECK, 0)] + EncodeInt32(size) + seq(size - 9, _ => 0 as byte) + EncodeInt32(size))
  }

  /** The datagram is as long as it says. */
  predicate NamesItsSize(p: Packet) {
    && SMALLEST_MTU <= p.Size() <= MAX_PACKET_SIZE
    && Int32At(p, 1) as int == p.Size() && Int32At(p, p.Size() - 4) as int == p.Size()
  }

  /** The probe sent back, under another property. */
  function Echo(p: Packet): Packet
    requires |p.data| >= 1
  {
    Packet(p.data[0 := (p.data[0] as nat / 32 * 32 + PROP_MTU_OK) as byte])
  }

  lemma {:induction false} ProbeReads(size: nat)
    requires SMALLEST_MTU <= size <= MAX_PACKET_SIZE
    ensures var p := ProbePacket(size);
            && p.Size() == size && NamesItsSize(p) && p.Verify()
            && p.Property() == PROP_MTU_CHECK && p.ConnectionNumber() == 0
  {
    hide LittleEndian, FromLittleEndian, Int32At, EncodeInt32;
    var p := ProbePacket(size);
    EncodedSizes(0, size);
    assert p.data[1..5] == EncodeInt32(size);
    assert p.data[size - 4..size] == EncodeInt32(size);
    EncodedReads32(p, 1, size);
    EncodedReads32(p, size - 4, size);
  }

  lemma {:induction false} EchoReads(p: Packet)
    requires NamesItsSize(p)
    ensures var e := Echo(p);
            && e.Size() == p.Size() && NamesItsSize(e)
            && e.Property() == PROP_MTU_OK && e.ConnectionNumber() == p.ConnectionNumber()
  {
    hide FromLittleEndian;
    var e := Echo(p);
    assert e.data[1..5] == p.data[1..5];
    assert e.data[p.Size() - 4..p.Size()] == p.data[p.Size() - 4..p.Size()];
  }

  /** Exactly the datagrams of a possible size with this size as a 32-bit number behind the
      header and at the end. */
  lemma {:induction false} NamesItsSizeExactly(p: Packet)
    ensures var n := |p.data|;
            NamesItsSize(p) <==> && 1024 <= n <= 1432
                                 && p.data[1..5] == EncodeInt32(n) && p.data[n - 4..] == EncodeInt32(n)
  {
    hide LittleEndian, FromLittleEndian, Int32At, EncodeInt32;
    var n := |p.data|;
    if 1024 <= n <= 1432 {
      assert p.data[n - 4..n] == p.data[n - 4..];
      Int32There(p, 1);
      Int32There(p, n - 4);
      if p.data[1..5] == EncodeInt32(n) { EncodedReads32(p, 1, n); }
      if p.data[n - 4..] == EncodeInt32(n) { EncodedReads32(p, n - 4, n); }
    }
  }

  // -------------------------------------------------------------------------- one peer

  /** What an arriving probe or echo does, and what is sent back. */
  function ProbeHeard(s: Prober, disabled: bool, p: Packet): (Prober, Option<Packet>)
    requires s.Ok() && |p.data| >= 1
  {
    if !NamesItsSize(p) || disabled then (s, None)
    else if p.Property() == PROP_MTU_CHECK then (s.(attempts := 0), Some(Echo(p)))
    else if s.finished || s.idx == LAST_MTU || p.Size() != POSSIBLE_MTU[s.idx + 1] then (s, None)
    else (s.(idx := s.idx + 1, finished := s.idx + 1 == LAST_MTU), None)
  }

  /** One update, with the datagram handed to the socket; `leaves` says whether the socket takes
      datagrams of that size. */
  function ProberTicked(s: Prober, disabled: bool, delta: int, leaves: bool): (Prober, Option<Packet>)
    requires s.Ok()
  {
    if disabled then (s.(finished := true), None)
    else if s.finished then (s, None)
    else if s.timer + delta < MTU_CHECK_DELAY then (s.(timer := s.timer + delta), None)
    else
      var t := s.(timer := 0, attempts := s.attempts + 1);
      if t.attempts >= MAX_MTU_CHECK_ATTEMPTS then (t.(finished := true), None)
      else if s.idx == LAST_MTU then (t, None)
      else (t.(finished := !leaves), Some(ProbePacket(POSSIBLE_MTU[s.idx + 1])))
  }

  class ProbingPeer {
    const disableMtu: bool
    var mtu: nat
    var mtuIdx: nat
    var finishMtu: bool
    var mtuTimer: int
    var mtuAttempts: nat

    function State(): Prober
      reads this
    {
      Prober(mtuIdx, finishMtu, mtuTimer, mtuAttempts)
    }

    predicate Valid()
      reads this
    {
      State().Ok() && mtu == State().Mtu()
    }

    constructor (disableMtu: bool)
      ensures Valid() && State() == FRESH && this.disableMtu == disableMtu
    {
      this.disableMtu := disableMtu;
      mtu, mtuIdx := POSSIBLE_MTU[0], 0;
      finishMtu, mtuTimer, mtuAttempts := false, 0, 0;
    }

    method SetMtu(idx: nat)
      requires idx <= LAST_MTU
      modifies this`mtu, this`mtuIdx
      ensures Valid() && mtuIdx == idx
    {
      mtuIdx := idx;
      mtu := POSSIBLE_MTU[idx];
    }

    /** Any probe or echo, honest or not. */
    method ProcessMtuPacket(p: Packet) returns (reply: Option<Packet>)
      requires Valid() && |p.data| >= 1
      modifies this
      ensures Valid() && (State(), reply) == ProbeHeard(old(State()), disableMtu, p)
    {
      if p.Size() < POSSIBLE_MTU[0] {
        return None;
      }
      var receivedMtu := Int32At(p, 1) as int;
      var endCheck := Int32At(p, p.Size() - 4) as int;
      if receivedMtu != p.Size() || receivedMtu != endCheck || receivedMtu > MAX_PACKET_SIZE {
        return None;
      }
      if disableMtu {
        return None;
      }
      if p.Property() == PROP_MTU_CHECK {
        mtuAttempts := 0;
        return Some(Echo(p));
      }
      if receivedMtu <= mtu || finishMtu {
        SizesGrow(mtuIdx, if mtuIdx == LAST_MTU then mtuIdx else mtuIdx + 1);
        return None;
      }
      if mtuIdx + 1 >= |POSSIBLE_MTU| || receivedMtu != POSSIBLE_MTU[mtuIdx + 1] {
        return None;
      }
      SetMtu(mtuIdx + 1);
      if mtuIdx == |POSSIBLE_MTU| - 1 {
        finishMtu := true;
      }
      return None;
    }

    /** One update: a probe a second, until there is nothing more to try. */
    method UpdateMtuLogic(delta: int, leaves: bool) returns (probe: Option<Packet>)
      requires Valid()
      modifies this
      ensures Valid() && (State(), probe) == ProberTicked(old(State()), disableMtu, delta, leaves)
    {
      if disableMtu {
        finishMtu := true;
        return None;
      }
      if finishMtu {
        return None;
      }
      mtuTimer := mtuTimer + delta;
      if mtuTimer < MTU_CHECK_DELAY {
        return None;
      }
      mtuTimer := 0;
      mtuAttempts := mtuAttempts + 1;
      if mtuAttempts >= MAX_MTU_CHECK_ATTEMPTS {
        finishMtu := true;
        return None;
      }
      if mtuIdx >= |POSSIBLE_MTU| - 1 {
        return None;
      }
      if !leaves {
        finishMtu := true;
      }
      return Some(ProbePacket(POSSIBLE_MTU[mtuIdx + 1]));
    }
  }

  // --------------------------------------------------------------------------- two peers

  /** A peer and everything it has sent. */
  datatype Side = Side(prober: Prober, disabled: bool, sent: set<Packet>)

  /** The connection number, and the largest datagram that gets from a to b and from b to a. */
  datatype Link = Link(number: ConnectionNumber, there: nat, back: nat)

  datatype Pair = Pair(a: Side, b: Side)

  /** Something happens at a, or with `atB` at b. */
  datatype Event = Tick(atB: bool, delta: int, leaves: bool) | Arrives(atB: bool, p: Packet)

  function Posted(sent: set<Packet>, p: Option<Packet>): set<Packet> {
    if p.Some? then sent + {p.value} else sent
  }

  /** Whatever was sent arrives any number of times or never, if it is not too long. */
  predicate Enabled(n: Pair, l: Link, e: Event) {
    && n.a.prober.Ok() && n.b.prober.Ok()
    && (e.Arrives? ==> |e.p.data| >= 1)
    && (e.Arrives? && !e.atB ==> e.p in n.b.sent && e.p.Size() <= l.back)
    && (e.Arrives? && e.atB ==> e.p in n.a.sent && e.p.Size() <= l.there)
  }

  /** Packets under another connection number are dropped. */
  function SideStep(s: Side, number: nat, e: Event): Side
    requires s.prober.Ok() && (e.Arrives? ==> |e.p.data| >= 1)
  {
    match e
    case Tick(_, delta, leaves) =>
      var (t, probe) := ProberTicked(s.prober, s.disabled, delta, leaves);
      s.(prober := t, sent := Posted(s.sent, if leaves then probe else None))
    case Arrives(_, p) =>
      if p.ConnectionNumber() != number then s
      else
        var (t, reply) := ProbeHeard(s.prober, s.disabled, p);
        s.(prober := t, sent := Posted(s.sent, reply))
  }

  function Step(n: Pair, l: Link, e: Event): Pair
    requires Enabled(n, l, e)
  {
    if e.atB then n.(b := SideStep(n.b, l.number, e)) else n.(a := SideStep(n.a, l.number, e))
  }

  function Start(disabledA: bool, disabledB: bool): Pair {
    Pair(Side(FRESH, disabledA, {}), Side(FRESH, disabledB, {}))
  }

  ghost predicate Run(ns: seq<Pair>, es: seq<Event>, l: Link) {
    && |ns| == |es| + 1 && ns[0] == Start(ns[0].a.disabled, ns[0].b.disabled)
    && forall i :: 0 <= i < |es| ==> Enabled(ns[i], l, es[i]) && ns[i + 1] == Step(ns[i], l, es[i])
  }

  // -------------------------------------------------------------------------- invariants

  /** All that a peer sends here. */
  predicate IsProbe(p: Packet) {
    && NamesItsSize(p) && p.ConnectionNumber() == 0
    && (p.Property() == PROP_MTU_CHECK || p.Property() == PROP_MTU_OK)
  }

  /** An echo answers a probe that came through. */
  predicate Answers(p: Packet, out: nat, number: nat, disabled: bool) {
    NamesItsSize(p) && (p.Property() == PROP_MTU_OK ==> p.Size() <= out && number == 0 && !disabled)
  }

  /** A peer x whose datagrams get through to its partner y up to the size `out`, and back up to
      the size `back`. */
  ghost predicate SideOk(x: Side, y: Side, out: nat, back: nat, number: nat) {
    && x.prober.Ok()
    && (forall p :: p in x.sent ==> IsProbe(p))
    && (forall p :: p in y.sent ==> Answers(p, out, number, y.disabled))
    && (x.prober.idx > 0 ==> Carried(x.prober.idx, x.disabled || y.disabled, out, back, number))
  }

  /** Datagrams of this size can be found out about. */
  predicate Carried(idx: nat, disabled: bool, out: nat, back: nat, number: nat) {
    idx <= LAST_MTU && number == 0 && !disabled && POSSIBLE_MTU[idx] <= out && POSSIBLE_MTU[idx] <= back
  }

  ghost predicate Inv(n: Pair, l: Link) {
    SideOk(n.a, n.b, l.there, l.back, l.number) && SideOk(n.b, n.a, l.back, l.there, l.number)
  }

  predicate CanArrive(y: Side, back: nat, e: Event) {
    e.Arrives? ==> |e.p.data| >= 1 && e.p in y.sent && e.p.Size() <= back
  }

  lemma {:induction false} OwnStep(x: Side, y: Side, out: nat, back: nat, number: nat, e: Event)
    requires SideOk(x, y, out, back, number) && (forall p :: p in y.sent ==> IsProbe(p)) && CanArrive(y, back, e)
    ensures SideOk(SideStep(x, number, e), y, out, back, number)
  {
    hide NamesItsSize, Echo, ProbePacket;
    match e
    case Tick(_, delta, leaves) =>
      if x.prober.idx < LAST_MTU { ProbeReads(POSSIBLE_MTU[x.prober.idx + 1]); }
    case Arrives(_, p) =>
      EchoReads(p);
  }

  lemma {:induction false} PartnerStep(x: Side, y: Side, out: nat, back: nat, number: nat, e: Event)
    requires SideOk(x, y, out, back, number) && y.prober.Ok() && CanArrive(x, out, e)
    ensures SideOk(x, SideStep(y, number, e), out, back, number)
  {
    hide NamesItsSize, Echo, ProbePacket;
    match e
    case Tick(_, delta, leaves) =>
      if y.prober.idx < LAST_MTU { ProbeReads(POSSIBLE_MTU[y.prober.idx + 1]); }
    case Arrives(_, p) =>
      assert IsProbe(p);
      EchoReads(p);
  }

  lemma {:induction false} StepKeepsInv(n: Pair, l: Link, e: Event)
    requires Inv(n, l) && Enabled(n, l, e)
    ensures Inv(Step(n, l, e), l)
  {
    hide SideStep, IsProbe, Answers, Carried;
    if e.atB {
      OwnStep(n.b, n.a, l.back, l.there, l.number, e);
      PartnerStep(n.a, n.b, l.there, l.back, l.number, e);
    } else {
      OwnStep(n.a, n.b, l.there, l.back, l.number, e);
      PartnerStep(n.b, n.a, l.back, l.there, l.number, e);
    }
  }

  lemma {:induction false} RunKeepsInv(ns: seq<Pair>, es: seq<Event>, l: Link, i: nat)
    requires Run(ns, es, l) && i < |ns|
    ensures Inv(ns[i], l) && ns[i].a.disabled == ns[0].a.disabled && ns[i].b.disabled == ns[0].b.disabled
  {
    hide Inv, Enabled, Step;
    if i == 0 {
      StartIsOk(ns[0], l);
    } else {
      RunKeepsInv(ns, es, l, i - 1);
      StepKeepsInv(ns[i - 1], l, es[i - 1]);
      SameSettings(ns[i - 1], l, es[i - 1]);
    }
  }

  lemma {:induction false} StartIsOk(n: Pair, l: Link)
    ensures n == Start(n.a.disabled, n.b.disabled) ==> Inv(n, l)
  {}

  lemma {:induction false} SameSettings(n: Pair, l: Link, e: Event)
    requires Enabled(n, l, e)
    ensures var m := Step(n, l, e); m.a.disabled == n.a.disabled && m.b.disabled == n.b.disabled
  {}

  // ---------------------------------------------------------------------------- theorems

  /** No peer ever takes an MTU that the network does not carry both ways, and none goes beyond
      the smallest unless both discover and the connection number is 0. */
  lemma {:induction false} MtuGetsThrough(ns: seq<Pair>, es: seq<Event>, l: Link, i: nat)
    requires Run(ns, es, l) && i < |ns|
    ensures var n := ns[i];
            && n.a.prober.Ok() && n.b.prober.Ok()
            && (n.a.prober.Mtu() > SMALLEST_MTU ==>
                  && n.a.prober.Mtu() <= l.there && n.a.prober.Mtu() <= l.back
                  && l.number == 0 && !n.a.disabled && !n.b.disabled)
            && (n.b.prober.Mtu() > SMALLEST_MTU ==>
                  && n.b.prober.Mtu() <= l.there && n.b.prober.Mtu() <= l.back
                  && l.number == 0 && !n.a.disabled && !n.b.disabled)
  {
    hide IsProbe, Answers;
    RunKeepsInv(ns, es, l, i);
  }

  // ---------------------------------------------------------------------- finding it out

  lemma {:induction false} Extend(ns: seq<Pair>, es: seq<Event>, l: Link, e: Event)
    requires Run(ns, es, l) && Enabled(ns[|es|], l, e)
    ensures Run(ns + [Step(ns[|es|], l, e)], es + [e], l)
  {
    hide Enabled, Step;
    var ms, fs := ns + [Step(ns[|es|], l, e)], es + [e];
    forall i | 0 <= i < |fs|
      ensures Enabled(ms[i], l, fs[i]) && ms[i + 1] == Step(ms[i], l, fs[i])
    {
      if i < |es| { assert ms[i] == ns[i] && ms[i + 1] == ns[i + 1]; }
    }
  }

  /** A run of a pair, as far as it has come. */
  datatype Trace = Trace(ns: seq<Pair>, es: seq<Event>) {
    ghost predicate Ok(l: Link, disabledA: bool, disabledB: bool) {
      Run(ns, es, l) && ns[0] == Start(disabledA, disabledB)
    }

    function Last(): Pair
      requires |ns| == |es| + 1
    {
      ns[|es|]
    }
  }

  lemma {:induction false} Then(t: Trace, l: Link, e: Event) returns (u: Trace)
    requires t.Ok(l, false, false) && Enabled(t.Last(), l, e)
    ensures u.Ok(l, false, false) && u.Last() == Step(t.Last(), l, e) && u.es == t.es + [e]
  {
    hide Run, Enabled, Step;
    assert |t.ns| == |t.es| + 1 by { StepCount(t, l); }
    Extend(t.ns, t.es, l, e);
    u := Trace(t.ns + [Step(t.Last(), l, e)], t.es + [e]);
  }

  lemma {:induction false} StepCount(t: Trace, l: Link)
    requires Run(t.ns, t.es, l)
    ensures |t.ns| == |t.es| + 1
  {}

  function Of(n: Pair, atB: bool): Side { if atB then n.b else n.a }

  predicate BothCarry(idx: nat, l: Link) {
    Carried(idx, false, l.there, l.back, l.number)
  }

  /** A second passes: the peer sends its next probe. */
  lemma {:induction false} Probes(t: Trace, l: Link, atB: bool) returns (u: Trace)
    requires t.Ok(l, false, false) && var s := Of(t.Last(), atB);
             && s.prober.idx < LAST_MTU && !s.prober.finished && !s.disabled
             && s.prober.timer == 0 && s.prober.attempts < 3
    requires Of(t.Last(), !atB).prober.Ok()
    ensures u.Ok(l, false, false) && u.es == t.es + [Tick(atB, MTU_CHECK_DELAY, true)]
    ensures var s, r := Of(t.Last(), atB), Of(u.Last(), atB);
            && r == s.(prober := s.prober.(attempts := s.prober.attempts + 1), sent := r.sent)
            && s.sent <= r.sent && ProbePacket(POSSIBLE_MTU[s.prober.idx + 1]) in r.sent
            && Of(u.Last(), !atB) == Of(t.Last(), !atB)
  {
    hide Run, ProbePacket;
    u := Then(t, l, Tick(atB, MTU_CHECK_DELAY, true));
  }

  /** The probe and its echo get through. */
  lemma {:induction false} ProbeReturns(t: Trace, l: Link, atB: bool) returns (u: Trace)
    requires t.Ok(l, false, false) && var s := Of(t.Last(), atB);
             && s.prober.idx < LAST_MTU && !s.prober.finished && !s.disabled && BothCarry(s.prober.idx + 1, l)
             && ProbePacket(POSSIBLE_MTU[s.prober.idx + 1]) in s.sent
    requires var r := Of(t.Last(), !atB); r.prober.Ok() && !r.disabled
    ensures var size := POSSIBLE_MTU[Of(t.Last(), atB).prober.idx + 1];
            && u.Ok(l, false, false)
            && u.es == t.es + [Arrives(!atB, ProbePacket(size)), Arrives(atB, Echo(ProbePacket(size)))]
    ensures var s, r := Of(t.Last(), atB), Of(t.Last(), !atB); var next := s.prober.idx + 1;
            && Of(u.Last(), atB) == s.(prober := s.prober.(idx := next, finished := next == LAST_MTU))
            && Of(u.Last(), !atB).prober == r.prober.(attempts := 0) && !Of(u.Last(), !atB).disabled
            && r.sent <= Of(u.Last(), !atB).sent
  {
    hide Run, ProbePacket, NamesItsSize, Echo;
    StepCount(t, l);
    var size := POSSIBLE_MTU[Of(t.Last(), atB).prober.idx + 1];
    var p := ProbePacket(size);
    ProbeReads(size);
    EchoReads(p);
    var v := Then(t, l, Arrives(!atB, p));
    u := Then(v, l, Arrives(atB, Echo(p)));
  }

  /** Rounds in which both peers probe and everything gets through: each hears of the other, so
      neither runs out of attempts. */
  lemma {:induction false} ClimbTogether(l: Link, k: nat) returns (t: Trace)
    requires k <= LAST_MTU && (k > 0 ==> BothCarry(k, l))
    ensures t.Ok(l, false, false) && |t.ns| == |t.es| + 1
    ensures t.Last().a.prober == t.Last().b.prober == Prober(k, k == LAST_MTU, 0, 0)
    ensures !t.Last().a.disabled && !t.Last().b.disabled
  {
    hide Run, ProbePacket, Echo;
    if k == 0 {
      t := AtStart(l);
    } else {
      SizesGrow(k - 1, k);
      t := ClimbTogether(l, k - 1);
      t := Probes(t, l, false);
      t := Probes(t, l, true);
      t := ProbeReturns(t, l, false);
      t := ProbeReturns(t, l, true);
      StepCount(t, l);
    }
  }

  lemma {:induction false} AtStart(l: Link) returns (t: Trace)
    ensures t.Ok(l, false, false) && |t.ns| == |t.es| + 1 && t.es == [] && t.Last() == Start(false, false)
  {
    t := Trace([Start(false, false)], []);
  }

  predicate ProbeAtA(e: Event) {
    e.Arrives? && !e.atB && |e.p.data| >= 1 && e.p.Property() == PROP_MTU_CHECK
  }

  /** Peer a never hears a probe of its partner. */
  ghost predicate Alone(es: seq<Event>) {
    forall j :: 0 <= j < |es| ==> !ProbeAtA(es[j])
  }

  /** On its own a peer has three probes. */
  lemma {:induction false} ClimbAlone(l: Link, k: nat) returns (t: Trace)
    requires k <= 3 && (k > 0 ==> BothCarry(k, l))
    ensures t.Ok(l, false, false) && |t.ns| == |t.es| + 1 && Alone(t.es)
    ensures t.Last().a.prober == Prober(k, false, 0, k) && t.Last().b.prober == FRESH
    ensures !t.Last().a.disabled && !t.Last().b.disabled
  {
    hide Run, ProbePacket, Echo;
    if k == 0 {
      t := AtStart(l);
    } else {
      SizesGrow(k - 1, k);
      t := ClimbAlone(l, k - 1);
      t := Probes(t, l, false);
      ProbeReads(POSSIBLE_MTU[k]);
      EchoReads(ProbePacket(POSSIBLE_MTU[k]));
      t := ProbeReturns(t, l, false);
      StepCount(t, l);
    }
  }

  // ----------------------------------------------------------------------- exact limits

  /** A run after which peer a stands at place k of the table. */
  ghost predicate Finds(t: Trace, l: Link, disabledA: bool, disabledB: bool, k: nat) {
    t.Ok(l, disabledA, disabledB) && |t.ns| == |t.es| + 1 && t.Last().a.prober.idx == k
  }

  /** Exactly what can be discovered: any size of the table that both directions carry, if both
      peers discover and the connection number is 0; otherwise nothing. */
  lemma {:induction false} FindsExactly(l: Link, disabledA: bool, disabledB: bool, k: nat)
    ensures (exists t: Trace :: Finds(t, l, disabledA, disabledB, k))
            <==> k == 0 || Carried(k, disabledA || disabledB, l.there, l.back, l.number)
  {
    hide Run, IsProbe, Answers;
    if t: Trace :| Finds(t, l, disabledA, disabledB, k) {
      RunKeepsInv(t.ns, t.es, l, |t.es|);
    }
    if k == 0 {
      StartsAt(l, disabledA, disabledB);
    } else if Carried(k, disabledA || disabledB, l.there, l.back, l.number) {
      var t := ClimbTogether(l, k);
      assert Finds(t, l, disabledA, disabledB, k);
    }
  }

  lemma {:induction false} StartsAt(l: Link, disabledA: bool, disabledB: bool)
    ensures exists t: Trace :: Alone(t.es) && Finds(t, l, disabledA, disabledB, 0)
  {
    var t := Trace([Start(disabledA, disabledB)], []);
    assert Alone(t.es) && Finds(t, l, disabledA, disabledB, 0);
  }

  /** Exactly what a peer discovers whose partner sends no probes of its own: its attempts are
      never counted anew, so it stops three places up the table. */
  lemma {:induction false} AloneExactly(l: Link, disabledA: bool, disabledB: bool, k: nat)
    ensures (exists t: Trace :: Alone(t.es) && Finds(t, l, disabledA, disabledB, k))
            <==> k == 0 || (k <= 3 && Carried(k, disabledA || disabledB, l.there, l.back, l.number))
  {
    hide Run, Alone, IsProbe, Answers;
    if t: Trace :| Alone(t.es) && Finds(t, l, disabledA, disabledB, k) {
      RunKeepsInv(t.ns, t.es, l, |t.es|);
      FewProbes(t.ns, t.es, l, |t.es|);
    }
    if k == 0 {
      StartsAt(l, disabledA, disabledB);
    } else if k <= 3 && Carried(k, disabledA || disabledB, l.there, l.back, l.number) {
      var t := ClimbAlone(l, k);
      assert Alone(t.es) && Finds(t, l, disabledA, disabledB, k);
    }
  }

  /** How far up the table so many attempts reach. */
  function Reach(s: Prober): (k: nat)
    ensures k <= 3
  {
    if s.attempts < 3 then s.attempts else 3
  }

  predicate Within(p: Packet, prop: nat, size: nat) {
    NamesItsSize(p) && (p.Property() == prop ==> p.Size() <= size)
  }

  ghost predicate FewSent(n: Pair) {
    var s := n.a.prober;
    && s.Ok() && s.idx <= Reach(s) && (s.attempts > 3 ==> s.finished)
    && (forall p :: p in n.a.sent ==> Within(p, PROP_MTU_CHECK, POSSIBLE_MTU[Reach(s)]))
    && forall p :: p in n.b.sent ==> Within(p, PROP_MTU_OK, POSSIBLE_MTU[Reach(s)])
  }

  lemma {:induction false} FewProbes(ns: seq<Pair>, es: seq<Event>, l: Link, i: nat)
    requires Run(ns, es, l) && i < |ns| && Alone(es)
    ensures FewSent(ns[i])
  {
    hide SideOk, Enabled, Step, NamesItsSize, FewSent;
    if i == 0 {
      StartsFew(ns[0]);
    } else {
      FewProbes(ns, es, l, i - 1);
      RunKeepsInv(ns, es, l, i - 1);
      FewStep(ns[i - 1], l, es[i - 1]);
    }
  }

  lemma {:induction false} StartsFew(n: Pair)
    ensures n == Start(n.a.disabled, n.b.disabled) ==> FewSent(n)
  {}

  lemma {:induction false} FewStep(n: Pair, l: Link, e: Event)
    requires Inv(n, l) && FewSent(n) && Enabled(n, l, e) && !ProbeAtA(e)
    ensures FewSent(Step(n, l, e))
  {
    hide NamesItsSize, Echo, ProbePacket, Answers, Carried;
    match e
    case Tick(atB, delta, leaves) =>
      var s := if atB then n.b.prober else n.a.prober;
      if s.idx < LAST_MTU { ProbeReads(POSSIBLE_MTU[s.idx + 1]); }
    case Arrives(atB, p) =>
      EchoReads(p);
  }

  // ----------------------------------------------------------------------------- monotony

  /** The MTU only grows, and stays where it is once discovery is over. */
  lemma {:induction false} MtuOnlyGrows(ns: seq<Pair>, es: seq<Event>, l: Link, i: nat, j: nat)
    requires Run(ns, es, l) && i <= j < |ns|
    ensures var s, t := ns[i].a.prober, ns[j].a.prober;
            && s.Ok() && t.Ok() && s.Mtu() <= t.Mtu()
            && (s.finished ==> t.finished && t.Mtu() == s.Mtu())
  {
    hide Run, Inv;
    PlacesGrow(ns, es, l, i, j);
    SizesGrow(ns[i].a.prober.idx, ns[j].a.prober.idx);
  }

  predicate Grew(s: Prober, t: Prober) {
    s.Ok() && t.Ok() && s.idx <= t.idx && (s.finished ==> t.finished && t.idx == s.idx)
  }

  lemma {:induction false} PlacesGrow(ns: seq<Pair>, es: seq<Event>, l: Link, i: nat, j: nat)
    requires Run(ns, es, l) && i <= j < |ns|
    ensures Grew(ns[i].a.prober, ns[j].a.prober)
  {
    hide Inv, Enabled, Step;
    if i < j {
      PlacesGrow(ns, es, l, i, j - 1);
      GrowsByStep(ns[j - 1], l, es[j - 1]);
    } else {
      RunKeepsInv(ns, es, l, j);
      PlacesOk(ns[j], l);
    }
  }

  lemma {:induction false} PlacesOk(n: Pair, l: Link)
    requires Inv(n, l)
    ensures n.a.prober.Ok()
  {}

  lemma {:induction false} GrowsByStep(n: Pair, l: Link, e: Event)
    requires Enabled(n, l, e)
    ensures Grew(n.a.prober, Step(n, l, e).a.prober)
  {
    hide NamesItsSize;
  }

  // ------------------------------------------------------------------------------- timing

  predicate TickAtA(e: Event) { e.Tick? && !e.atB }

  /** How long peer a has been updated since its last attempt. */
  function Waited(ns: seq<Pair>, es: seq<Event>, i: int): int {
    if i <= 0 || i > |es| || i >= |ns| then 0
    else if ns[i].a.prober.attempts > ns[i - 1].a.prober.attempts then 0
    else Waited(ns, es, i - 1) + if TickAtA(es[i - 1]) then es[i - 1].delta else 0
  }

  /** Update i is the one at which a second has passed. */
  predicate AttemptDue(ns: seq<Pair>, es: seq<Event>, i: int) {
    && 0 <= i < |es| && i < |ns| && TickAtA(es[i]) && !ns[i].a.prober.finished && !ns[i].a.disabled
    && Waited(ns, es, i) + es[i].delta >= 1000
  }

  /** Peer a hears a probe of its partner under the right number. */
  predicate ProbeComesIn(l: Link, s: Side, e: Event) {
    ProbeAtA(e) && e.p.ConnectionNumber() == l.number && NamesItsSize(e.p) && !s.disabled
  }

  lemma {:induction false} TimerIsWaited(ns: seq<Pair>, es: seq<Event>, l: Link, i: nat)
    requires Run(ns, es, l) && i < |ns|
    ensures !ns[i].a.prober.finished && !ns[i].a.disabled ==> ns[i].a.prober.timer == Waited(ns, es, i)
  {
    hide NamesItsSize, ProbePacket, Echo;
    if i > 0 {
      TimerIsWaited(ns, es, l, i - 1);
      assert Enabled(ns[i - 1], l, es[i - 1]);
    }
  }

  /** In every run a peer that discovers makes an attempt exactly at the update that brings the
      time since the last one to a second; nothing but a probe of its partner makes the attempts
      count anew. It is done exactly when it reaches the last size, or with the fourth attempt in
      a row, or when the socket refuses a probe; before that every attempt sends a probe of the
      next size, and nothing else but the echoes of its partner's probes is sent. */
  lemma {:induction false} AttemptsExactly(ns: seq<Pair>, es: seq<Event>, l: Link, i: nat)
    requires Run(ns, es, l) && i < |es| && !ns[i].a.disabled
    ensures var e, s, t, due := es[i], ns[i].a.prober, ns[i + 1].a.prober, AttemptDue(ns, es, i);
            && s.Ok() && t.Ok()
            && t.attempts == (if due then s.attempts + 1 else if ProbeComesIn(l, ns[i].a, e) then 0 else s.attempts)
            && (t.finished <==> s.finished || (due && (s.attempts >= 3 || (s.idx < 5 && !e.leaves)))
                                || (s.idx < 5 && t.idx == 5))
            && ns[i + 1].a.sent == ns[i].a.sent
                                   + (if due && s.attempts < 3 && s.idx < 5 && e.leaves
                                      then {ProbePacket(POSSIBLE_MTU[s.idx + 1])} else {})
                                   + (if ProbeComesIn(l, ns[i].a, e) then {Echo(e.p)} else {})
  {
    hide NamesItsSize, ProbePacket, Echo, Inv, Waited;
    TimerIsWaited(ns, es, l, i);
    RunKeepsInv(ns, es, l, i);
    RunKeepsInv(ns, es, l, i + 1);
    PlacesOk(ns[i], l);
    PlacesOk(ns[i + 1], l);
    assert Enabled(ns[i], l, es[i]);
  }

  /** In every run a peer that does not discover sends nothing at all and is done with its first
      update. */
  lemma {:induction false} DisabledIsDone(ns: seq<Pair>, es: seq<Event>, l: Link, i: nat)
    requires Run(ns, es, l) && i < |ns| && ns[i].a.disabled
    ensures ns[i].a.prober.idx == 0 && ns[i].a.sent == {}
    ensures ns[i].a.prober.finished <==> exists j :: 0 <= j < i && TickAtA(es[j])
  {
    hide NamesItsSize, ProbePacket, Echo;
    if i > 0 {
      RunKeepsInv(ns, es, l, i);
      RunKeepsInv(ns, es, l, i - 1);
      DisabledIsDone(ns, es, l, i - 1);
      assert Enabled(ns[i - 1], l, es[i - 1]);
    }
  }
}
