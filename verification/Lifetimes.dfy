/** The lives of peers, told from outside: what reaches a peer, exactly when that takes it from
    one state to another and what is reported, and how the time it spends waiting adds up over
    a run. */
module Lifetimes {
  import opened Bits
  import opened Options
  import opened Packets
  import opened Codec
  import opened Batching
  import opened ConnectionPackets
  import opened Connections

  // -------------------------------------------------------------------- what reaches a peer

  /** Peer k is the one its address stands for. */
  predicate IsListed(s: State, k: nat) {
    k < |s.peers| && s.peers[k].key in s.table && s.table[s.peers[k].key] == k
  }

  /** A local disconnect, a stop of the manager, a packet from the address of the peer, a request
      for another connection from there, time that passes, or nothing. */
  datatype Hit =
    | Idle
    | EndedLocally(data: seq<byte>, mtu: nat)
    | Stops
    | Gets(pkt: Packet)
    | Asked(req: ConnReq)
    | Passes(delta: int)

  function HitOn(s: State, cfg: Config, e: Event, k: nat): Hit {
    match e
    case Disconnect(i, data, mtu) => if i == k then EndedLocally(data, mtu) else Idle
    case Stop => if IsListed(s, k) then Stops else Idle
    case UpdatePeer(key, delta) => if IsListed(s, k) && s.peers[k].key == key then Passes(delta) else Idle
    case Datagram(key, pkt) =>
      if !IsListed(s, k) || s.peers[k].key != key || !pkt.Verify() then Idle
      else if pkt.Property() != PROP_CONNECT_REQUEST then Gets(pkt)
      else if cfg.accept && SpeaksProtocol(pkt) && IsConnectRequest(pkt) then Asked(RequestOf(key, pkt))
      else Idle
    case _ => Idle
  }

  /** A request that leaves the peer of its address alone. */
  predicate KeptOut(p: Peer, req: ConnReq) {
    p.state.Outgoing? || req.time < p.connectTime || (p.state.Connected? && req.time == p.connectTime)
  }

  /** The peer afterwards, and whether it leaves the table. */
  function After(p: Peer, cfg: Config, hit: Hit): (Peer, bool)
    requires hit.Gets? ==> |hit.pkt.data| >= 1
  {
    match hit
    case Idle => (p, false)
    case EndedLocally(data, mtu) => (DisconnectedLocally(p, data, mtu), false)
    case Stops => (Shutdown(p, [], 0, false).0, false)
    case Gets(pkt) => Received(p, pkt)
    case Asked(req) => if KeptOut(p, req) then (p, false) else (Forced(p, Reconnect, []).0, true)
    case Passes(delta) => Updated(p, cfg, delta)
  }

  lemma {:induction false} KeyStays(p: Peer, cfg: Config, hit: Hit)
    requires hit.Gets? ==> |hit.pkt.data| >= 1
    ensures After(p, cfg, hit).0.key == p.key
  {
    hide Take, AcceptMatches, DisconnectMatches;
  }

  lemma {:induction false} PutHits(s: State, i: nat, p: Peer, leaves: bool, k: nat)
    requires StateOk(s) && i < |s.peers| && k < |s.peers| && p.key == s.peers[i].key && (leaves ==> IsListed(s, i))
    ensures var t := Put(s, i, p, leaves);
            && |t.peers| == |s.peers| && t.peers[k] == (if k == i then p else s.peers[k])
            && (IsListed(t, k) <==> IsListed(s, k) && !(leaves && k == i))
  {}

  lemma {:induction false} NewHits(s: State, p: Peer, k: nat)
    requires StateOk(s) && k < |s.peers| && p.key !in s.table
    ensures var t := NewPeer(s, p);
            |s.peers| <= |t.peers| && t.peers[k] == s.peers[k] && (IsListed(t, k) <==> IsListed(s, k))
  {}

  lemma {:induction false} ResolveHits(s: State, r: nat, accept: bool, k: nat)
    requires StateOk(s) && r < |s.reqs| && k < |s.peers|
    ensures var t := Resolve(s, r, accept);
            |s.peers| <= |t.peers| && t.peers[k] == s.peers[k] && (IsListed(t, k) <==> IsListed(s, k))
  {
    hide AcceptPacket;
  }

  lemma {:induction false} ReplacedHits(s: State, cfg: Config, req: ConnReq, k: nat)
    requires StateOk(s) && k < |s.peers|
    ensures var (t, goOn) := Replaced(s, req); var hit := IsListed(s, k) && s.peers[k].key == req.key;
            && StateOk(t) && |t.peers| == |s.peers|
            && t.peers[k] == (if hit then After(s.peers[k], cfg, Asked(req)).0 else s.peers[k])
            && (IsListed(t, k) <==> IsListed(s, k) && !(hit && After(s.peers[k], cfg, Asked(req)).1))
  {
    hide Forced;
    if req.key in s.table {
      var p := s.peers[s.table[req.key]];
      KeyStays(p, cfg, Asked(req));
      if !KeptOut(p, req) { PutHits(s, s.table[req.key], Forced(p, Reconnect, []).0, true, k); }
    }
  }

  lemma {:induction false} RequestHits(s: State, cfg: Config, req: ConnReq, k: nat)
    requires StateOk(s) && k < |s.peers|
    ensures var t := ConnectRequested(s, cfg, req);
            var hit := cfg.accept && IsListed(s, k) && s.peers[k].key == req.key;
            && |s.peers| <= |t.peers|
            && t.peers[k] == (if hit then After(s.peers[k], cfg, Asked(req)).0 else s.peers[k])
            && (IsListed(t, k) <==> IsListed(s, k) && !(hit && After(s.peers[k], cfg, Asked(req)).1))
  {
    hide Forced, After, Resolve, Replaced;
    ReplacedHits(s, cfg, req, k);
    var t := Replaced(s, req).0;
    ResolveHits(Awaiting(t, req), |t.reqs|, false, k);
  }

  ghost predicate Does(s: State, t: State, cfg: Config, hit: Hit, k: nat) {
    && (hit.Gets? ==> hit.pkt.Verify())
    && k < |s.peers| <= |t.peers| && t.peers[k] == After(s.peers[k], cfg, hit).0
    && (IsListed(t, k) <==> IsListed(s, k) && !After(s.peers[k], cfg, hit).1)
  }

  /** A step does to each peer what reaches it. */
  lemma {:induction false} StepHits(s: State, cfg: Config, e: Event, k: nat)
    requires StateOk(s) && Enabled(s, e) && k < |s.peers|
    ensures Does(s, Step(s, cfg, e), cfg, HitOn(s, cfg, e, k), k)
  {
    hide Step, HitOn, Does;
    match e
    case Connect(_, _, _, _) => ConnectHits(s, cfg, e, k);
    case Disconnect(_, _, _) => DisconnectHits(s, cfg, e, k);
    case Answer(_, _, _) => AnswerHits(s, cfg, e, k);
    case Datagram(key, pkt) => DatagramHits(s, cfg, key, pkt, k);
    case UpdatePeer(_, _) => UpdateHits(s, cfg, e, k);
    case Stop => StopHits(s, cfg, k);
  }

  lemma {:induction false} ConnectHits(s: State, cfg: Config, e: Event, k: nat)
    requires StateOk(s) && e.Connect? && k < |s.peers|
    ensures Does(s, Step(s, cfg, e), cfg, HitOn(s, cfg, e, k), k)
  {
    hide NewPeer, RequestPacket;
    if e.key !in s.table { NewHits(s, OutgoingPeer(e.key, |s.peers| + 1, e.now, e.target, e.data), k); }
  }

  lemma {:induction false} DisconnectHits(s: State, cfg: Config, e: Event, k: nat)
    requires StateOk(s) && Enabled(s, e) && e.Disconnect? && k < |s.peers|
    ensures Does(s, Step(s, cfg, e), cfg, HitOn(s, cfg, e, k), k)
  {
    hide Put, DisconnectedLocally;
    KeyStays(s.peers[e.peer], cfg, EndedLocally(e.data, e.mtu));
    PutHits(s, e.peer, DisconnectedLocally(s.peers[e.peer], e.data, e.mtu), false, k);
  }

  lemma {:induction false} AnswerHits(s: State, cfg: Config, e: Event, k: nat)
    requires StateOk(s) && Enabled(s, e) && e.Answer? && k < |s.peers|
    ensures Does(s, Step(s, cfg, e), cfg, HitOn(s, cfg, e, k), k)
  {
    hide Resolve;
    ResolveHits(s, e.req, e.accept, k);
  }

  lemma {:induction false} UpdateHits(s: State, cfg: Config, e: Event, k: nat)
    requires StateOk(s) && Enabled(s, e) && e.UpdatePeer? && k < |s.peers|
    ensures Does(s, Step(s, cfg, e), cfg, HitOn(s, cfg, e, k), k)
  {
    hide Put, Updated;
    var i := s.table[e.key];
    KeyStays(s.peers[i], cfg, Passes(e.delta));
    PutHits(s, i, Updated(s.peers[i], cfg, e.delta).0, Updated(s.peers[i], cfg, e.delta).1, k);
  }

  lemma {:induction false} StopHits(s: State, cfg: Config, k: nat)
    requires StateOk(s) && k < |s.peers|
    ensures Does(s, Step(s, cfg, Stop), cfg, HitOn(s, cfg, Stop, k), k)
  {
    hide FarewellPacket;
  }

  lemma {:induction false} DatagramHits(s: State, cfg: Config, key: Key, pkt: Packet, k: nat)
    requires StateOk(s) && k < |s.peers|
    ensures Does(s, Step(s, cfg, Datagram(key, pkt)), cfg, HitOn(s, cfg, Datagram(key, pkt), k), k)
  {
    hide Received, Forced, ConnectRequested, Put, RequestOf, IsConnectRequest, SpeaksProtocol;
    if pkt.Verify() && pkt.Property() == PROP_CONNECT_REQUEST && SpeaksProtocol(pkt) && IsConnectRequest(pkt) {
      SameAddress(key, pkt);
      RequestHits(s, cfg, RequestOf(key, pkt), k);
    } else if pkt.Verify() && pkt.Property() != PROP_CONNECT_REQUEST && key in s.table {
      var i := s.table[key];
      KeyStays(s.peers[i], cfg, Gets(pkt));
      PutHits(s, i, Received(s.peers[i], pkt).0, Received(s.peers[i], pkt).1, k);
    }
  }

  lemma {:induction false} SameAddress(key: Key, pkt: Packet)
    requires IsConnectRequest(pkt)
    ensures RequestOf(key, pkt).key == key
  {}

  // ------------------------------------------------------------------ exits, peer by peer

  /** Nothing was heard for too long. */
  predicate TimesOut(p: Peer, cfg: Config, hit: Hit) {
    hit.Passes? && p.sinceLastPacket + hit.delta > cfg.disconnectTimeout
  }

  predicate Has(hit: Hit, prop: nat) { hit.Gets? && |hit.pkt.data| >= 1 && hit.pkt.Property() == prop }

  /** A farewell or rejection of this very connection. */
  predicate IsClosed(p: Peer, hit: Hit) {
    && Has(hit, PROP_DISCONNECT) && hit.pkt.Size() >= 9
    && Int64At(hit.pkt, 1) == p.connectTime && hit.pkt.ConnectionNumber() == p.connectNum
  }

  /** The acceptance this peer waits for. */
  predicate IsAccepted(p: Peer, hit: Hit) {
    && Has(hit, PROP_CONNECT_ACCEPT) && hit.pkt.Size() == CONNECT_ACCEPT_SIZE
    && Int64At(hit.pkt, 1) == p.connectTime && hit.pkt.data[9] as nat < MAX_CONNECTION_NUMBER
    && Int32At(hit.pkt, 11) >= 0
  }

  /** The delay before the next attempt is over. */
  predicate Expires(p: Peer, cfg: Config, hit: Hit) {
    hit.Passes? && p.connectTimer + hit.delta > cfg.reconnectDelay
  }

  predicate RunsOut(p: Peer, cfg: Config, hit: Hit) {
    Expires(p, cfg, hit) && p.attempts >= cfg.maxAttempts
  }

  /** A packet for the connection, not one of those that the manager keeps to itself. */
  predicate GoesToPeer(hit: Hit) {
    && hit.Gets? && |hit.pkt.data| >= 1
    && var prop := hit.pkt.Property();
       && prop != PROP_CONNECT_ACCEPT && prop != PROP_DISCONNECT
       && prop != PROP_INVALID_PROTOCOL && prop != PROP_PEER_NOT_FOUND
       && prop != PROP_UNCONNECTED_MESSAGE && prop != PROP_BROADCAST && prop != PROP_NAT_MESSAGE
  }

  /** The packet, or one inside it, confirms the shutdown. */
  predicate IsConfirmed(p: Peer, hit: Hit) {
    GoesToPeer(hit) && Take(ShutdownRequested, hit.pkt, p.connectNum).0.Disconnected?
  }

  /** The peer has gone from p to q with this one callback. */
  predicate Reports(p: Peer, q: Peer, reason: Reason, data: seq<byte>) {
    q.calls == p.calls + [PeerDisconnected(reason, data)]
  }

  /** What happened to a connected peer. */
  ghost predicate ConnectedFate(p: Peer, cfg: Config, hit: Hit, q: Peer, leaves: bool) {
    && (q.state.Connected? <==>
          && !TimesOut(p, cfg, hit) && !IsClosed(p, hit) && !Has(hit, PROP_PEER_NOT_FOUND)
          && !(hit.Asked? && hit.req.time > p.connectTime) && !hit.EndedLocally? && !hit.Stops?)
    && (TimesOut(p, cfg, hit) ==> Reports(p, q, Timeout, []))
    && (IsClosed(p, hit) ==> Reports(p, q, RemoteConnectionClose, hit.pkt.data[9..]))
    && (Has(hit, PROP_PEER_NOT_FOUND) ==> Reports(p, q, PeerNotFound, []))
    && (hit.Asked? && hit.req.time > p.connectTime ==> Reports(p, q, Reconnect, []))
    && (hit.EndedLocally? ==> Reports(p, q, DisconnectPeerCalled, []))
    && (hit.Stops? ==> q.calls == p.calls)
    && (hit.EndedLocally? || hit.Stops? <==> q.state.ShutdownRequested?)
    && (q.state.Connected? || q.state.ShutdownRequested? || q.state.Disconnected?)
    && (leaves <==> q.state.Disconnected?)
  }

  lemma {:induction false} ConnectedMeets(p: Peer, cfg: Config, hit: Hit)
    requires p.state.Connected? && (hit.Gets? ==> hit.pkt.Verify())
    ensures ConnectedFate(p, cfg, hit, After(p, cfg, hit).0, After(p, cfg, hit).1)
  {
    hide Int64At, Int32At, FarewellPacket;
    if hit.Gets? { TakeForward(p.state, hit.pkt, p.connectNum); ConnectedStays(hit.pkt, p.connectNum); }
  }

  /** No packet takes a connected peer out of that state by what is inside it. */
  lemma {:induction false} ConnectedStays(pkt: Packet, num: nat)
    requires |pkt.data| >= 1
    ensures Take(Connected, pkt, num).0.Connected?
    decreases |pkt.data|
  {
    if pkt.ConnectionNumber() == num && pkt.Property() == PROP_MERGED { AllStay(pkt.data[1..], num); }
  }

  lemma {:induction false} AllStay(rest: seq<byte>, num: nat)
    ensures TakeAll(Connected, rest, num).0.Connected?
    decreases |rest|
  {
    if WellFormed(rest) {
      ConnectedStays(FirstOf(rest), num);
      AllStay(rest[EntryEnd(rest)..], num);
    }
  }

  /** What happened to a connecting peer. */
  ghost predicate ConnectingFate(p: Peer, cfg: Config, hit: Hit, q: Peer, leaves: bool) {
    && (q.state.Outgoing? <==>
          && !IsAccepted(p, hit) && !RunsOut(p, cfg, hit) && !IsClosed(p, hit) && !Has(hit, PROP_INVALID_PROTOCOL)
          && !hit.EndedLocally? && !hit.Stops?)
    && (q.state.Connected? <==> IsAccepted(p, hit))
    && (q.state.Connected? ==> q.calls == p.calls + [PeerConnected])
    && (RunsOut(p, cfg, hit) ==> Reports(p, q, ConnectionFailed, []) && leaves)
    && (IsClosed(p, hit) ==> Reports(p, q, ConnectionRejected, hit.pkt.data[9..]) && leaves)
    && (Has(hit, PROP_INVALID_PROTOCOL) ==> q.calls == p.calls && !leaves)
    && (hit.EndedLocally? || hit.Stops? <==> q.state.ShutdownRequested?)
    && (hit.EndedLocally? || hit.Stops? || q.state.Outgoing? ==> q.calls == p.calls && !leaves)
    && (IsAccepted(p, hit) ==> !leaves)
  }

  lemma {:induction false} ConnectingMeets(p: Peer, cfg: Config, hit: Hit)
    requires p.state.Outgoing? && (hit.Gets? ==> hit.pkt.Verify())
    ensures ConnectingFate(p, cfg, hit, After(p, cfg, hit).0, After(p, cfg, hit).1)
  {
    hide Int64At, Int32At, FarewellPacket;
    if hit.Gets? { NobodyHome(hit.pkt, p.connectNum); }
  }

  lemma {:induction false} NobodyHome(pkt: Packet, num: nat)
    requires |pkt.data| >= 1
    ensures Take(Outgoing, pkt, num) == (Outgoing, []) && Take(Disconnected, pkt, num) == (Disconnected, [])
    ensures Dispatches([]) == []
  {}

  /** What happened to a peer that is shutting down. */
  ghost predicate ShutdownFate(p: Peer, cfg: Config, hit: Hit, q: Peer, leaves: bool) {
    && (q.state.ShutdownRequested? <==> !TimesOut(p, cfg, hit) && !IsConfirmed(p, hit))
    && (q.state.ShutdownRequested? || q.state.Disconnected?)
    && Reasons(q.calls) == Reasons(p.calls)
    && (leaves <==> hit.Asked? && hit.req.time >= p.connectTime)
  }

  lemma {:induction false} ShutdownMeets(p: Peer, cfg: Config, hit: Hit)
    requires p.state.ShutdownRequested? && (hit.Gets? ==> hit.pkt.Verify())
    ensures ShutdownFate(p, cfg, hit, After(p, cfg, hit).0, After(p, cfg, hit).1)
  {
    hide Int64At, Int32At, FarewellPacket, Connects, Reasons;
    if hit.Gets? {
      TakeForward(p.state, hit.pkt, p.connectNum);
      var leaves := Take(p.state, hit.pkt, p.connectNum).1;
      CallsConcat(p.calls, Dispatches(leaves));
      DispatchesAreQuiet(leaves);
    }
  }

  /** A disconnected peer only waits to be forgotten. */
  ghost predicate DisconnectedFate(p: Peer, cfg: Config, hit: Hit, q: Peer, leaves: bool) {
    && q.state.Disconnected? && q.calls == p.calls
    && (leaves <==> (hit.Passes? && p.sinceLastPacket > cfg.disconnectTimeout)
                    || (hit.Asked? && hit.req.time >= p.connectTime))
  }

  lemma {:induction false} DisconnectedMeets(p: Peer, cfg: Config, hit: Hit)
    requires p.state.Disconnected? && (hit.Gets? ==> hit.pkt.Verify())
    ensures DisconnectedFate(p, cfg, hit, After(p, cfg, hit).0, After(p, cfg, hit).1)
  {
    hide Int64At, Int32At, FarewellPacket;
    if hit.Gets? { NobodyHome(hit.pkt, p.connectNum); }
  }

  // --------------------------------------------------------------- how time adds up

  /** A packet that shows that the other side is there, with the number of this connection. */
  predicate Hears(num: nat, hit: Hit) {
    GoesToPeer(hit) && hit.pkt.ConnectionNumber() == num && hit.pkt.Property() != PROP_SHUTDOWN_OK
  }

  /** How long nothing has been heard after these hits. */
  function Silence(base: int, num: nat, hits: seq<Hit>): int {
    if hits == [] then base
    else
      var before, hit := Silence(base, num, hits[..|hits| - 1]), hits[|hits| - 1];
      if Hears(num, hit) then 0 else if hit.Passes? then before + hit.delta else before
  }

  /** The timer of a connecting peer, and how many attempts have run out. */
  function Waits(timer: int, attempts: nat, delay: int, hits: seq<Hit>): (int, nat) {
    if hits == [] then (timer, attempts)
    else
      var (t, n) := Waits(timer, attempts, delay, hits[..|hits| - 1]);
      var hit := hits[|hits| - 1];
      if !hit.Passes? then (t, n) else if t + hit.delta > delay then (0, n + 1) else (t + hit.delta, n)
  }

  /** The timer of the farewells of a peer that is shutting down. */
  function FarewellTimer(timer: int, hits: seq<Hit>): int {
    if hits == [] then timer
    else
      var t, hit := FarewellTimer(timer, hits[..|hits| - 1]), hits[|hits| - 1];
      if !hit.Passes? then t else if t + hit.delta >= SHUTDOWN_RESEND_DELAY then 0 else t + hit.delta
  }

  /** What one hit does to the clocks of a peer that stays in its state. */
  ghost predicate Clocks(p: Peer, cfg: Config, hit: Hit, q: Peer) {
    && (p.state.Connected? && q.state.Connected? ==>
          q.sinceLastPacket == Silence(p.sinceLastPacket, p.connectNum, [hit]))
    && (p.state.ShutdownRequested? && q.state.ShutdownRequested? ==>
          && q.sinceLastPacket == Silence(p.sinceLastPacket, p.connectNum, [hit])
          && q.shutdownTimer == FarewellTimer(p.shutdownTimer, [hit]))
    && (p.state.Outgoing? && q.state.Outgoing? ==>
          (q.connectTimer, q.attempts) == Waits(p.connectTimer, p.attempts, cfg.reconnectDelay, [hit]))
    && (!p.state.ShutdownRequested? ==> q.shutdownTimer == p.shutdownTimer)
    && (!p.state.Outgoing? ==> q.connectNum == p.connectNum)
    && (p.state.Outgoing? && q.state.Connected? ==> q.sinceLastPacket == 0)
    && (Ongoing(p.state) && q.state.ShutdownRequested? ==> q.sinceLastPacket == 0)
    && (p.state.Disconnected? ==>
          q.sinceLastPacket == p.sinceLastPacket
            + if hit.Passes? && p.sinceLastPacket <= cfg.disconnectTimeout then hit.delta else 0)
  }

  lemma {:induction false} OneHit(base: int, num: nat, timer: int, attempts: nat, delay: int, hit: Hit)
    ensures Silence(base, num, [hit]) == if Hears(num, hit) then 0 else if hit.Passes? then base + hit.delta else base
    ensures Waits(timer, attempts, delay, [hit])
            == if !hit.Passes? then (timer, attempts)
               else if timer + hit.delta > delay then (0, attempts + 1) else (timer + hit.delta, attempts)
    ensures FarewellTimer(timer, [hit])
            == if !hit.Passes? then timer
               else if timer + hit.delta >= SHUTDOWN_RESEND_DELAY then 0 else timer + hit.delta
  {
    assert [hit][..0] == [];
  }

  lemma {:induction false} ClocksRun(p: Peer, cfg: Config, hit: Hit)
    requires hit.Gets? ==> hit.pkt.Verify() && hit.pkt.Property() != PROP_CONNECT_REQUEST
    ensures Clocks(p, cfg, hit, After(p, cfg, hit).0)
  {
    hide Clocks, After;
    match hit
    case Gets(pkt) => ClocksAtPacket(p, cfg, pkt);
    case Passes(delta) => ClocksTick(p, cfg, delta);
    case _ => ClocksStand(p, cfg, hit);
  }

  lemma {:induction false} ClocksAtPacket(p: Peer, cfg: Config, pkt: Packet)
    requires pkt.Verify() && pkt.Property() != PROP_CONNECT_REQUEST
    ensures Clocks(p, cfg, Gets(pkt), After(p, cfg, Gets(pkt)).0)
  {
    hide Int64At, Int32At, Take, Silence, Waits, FarewellTimer;
    OneHit(p.sinceLastPacket, p.connectNum, p.connectTimer, p.attempts, cfg.reconnectDelay, Gets(pkt));
    OneHit(p.sinceLastPacket, p.connectNum, p.shutdownTimer, p.attempts, cfg.reconnectDelay, Gets(pkt));
    ConnectedStays(pkt, p.connectNum);
    NobodyHome(pkt, p.connectNum);
  }

  lemma {:induction false} ClocksTick(p: Peer, cfg: Config, delta: int)
    ensures Clocks(p, cfg, Passes(delta), After(p, cfg, Passes(delta)).0)
  {
    hide FarewellPacket, Silence, Waits, FarewellTimer;
    OneHit(p.sinceLastPacket, p.connectNum, p.connectTimer, p.attempts, cfg.reconnectDelay, Passes(delta));
    OneHit(p.sinceLastPacket, p.connectNum, p.shutdownTimer, p.attempts, cfg.reconnectDelay, Passes(delta));
  }

  lemma {:induction false} ClocksStand(p: Peer, cfg: Config, hit: Hit)
    requires !hit.Gets? && !hit.Passes?
    ensures Clocks(p, cfg, hit, After(p, cfg, hit).0)
  {
    hide FarewellPacket, Silence, Waits, FarewellTimer;
    OneHit(p.sinceLastPacket, p.connectNum, p.connectTimer, p.attempts, cfg.reconnectDelay, hit);
    OneHit(p.sinceLastPacket, p.connectNum, p.shutdownTimer, p.attempts, cfg.reconnectDelay, hit);
  }

  // ----------------------------------------------------------------------- whole runs

  /** What reached peer k by the events from i up to j. */
  ghost function HitsOf(ss: seq<State>, es: seq<Event>, cfg: Config, k: nat, i: nat, j: nat): (hits: seq<Hit>)
    requires i <= j <= |es| && |ss| == |es| + 1
    ensures |hits| == j - i
  {
    seq(j - i, m requires 0 <= m < j - i => HitOn(ss[i + m], cfg, es[i + m], k))
  }

  lemma {:induction false} LastHit(ss: seq<State>, es: seq<Event>, cfg: Config, k: nat, i: nat, j: nat)
    requires i < j <= |es| && |ss| == |es| + 1
    ensures var hits := HitsOf(ss, es, cfg, k, i, j);
            hits[..|hits| - 1] == HitsOf(ss, es, cfg, k, i, j - 1)
            && hits[|hits| - 1] == HitOn(ss[j - 1], cfg, es[j - 1], k)
  {
    hide HitOn;
  }

  lemma {:induction false} FoldsStep(base: int, num: nat, timer: int, attempts: nat, delay: int, hits: seq<Hit>)
    requires hits != []
    ensures var before, last := hits[..|hits| - 1], [hits[|hits| - 1]];
            && Silence(base, num, hits) == Silence(Silence(base, num, before), num, last)
            && FarewellTimer(timer, hits) == FarewellTimer(FarewellTimer(timer, before), last)
            && var (t, n) := Waits(timer, attempts, delay, before);
               Waits(timer, attempts, delay, hits) == Waits(t, n, delay, last)
  {
    var before, hit := hits[..|hits| - 1], hits[|hits| - 1];
    var (t, n) := Waits(timer, attempts, delay, before);
    OneHit(Silence(base, num, before), num, t, n, delay, hit);
    OneHit(Silence(base, num, before), num, FarewellTimer(timer, before), n, delay, hit);
  }

  /** What an event of a run does to an old peer. */
  lemma {:induction false} RunHits(ss: seq<State>, es: seq<Event>, cfg: Config, i: nat, k: nat)
    requires Run(ss, es, cfg) && i < |es| && k < |ss[i].peers|
    ensures |ss| == |es| + 1 && Does(ss[i], ss[i + 1], cfg, HitOn(ss[i], cfg, es[i], k), k)
    ensures Disciplined(ss[i].peers[k])
    ensures var hit := HitOn(ss[i], cfg, es[i], k); hit.Gets? ==> hit.pkt.Property() != PROP_CONNECT_REQUEST
  {
    hide Step, HitOn, Does, Disciplined;
    RunKeepsInv(ss, es, cfg, i);
    RunStep(ss, es, cfg, i);
    PeerFacts(ss[i], k);
    StepHits(ss[i], cfg, es[i], k);
    NoRequests(ss[i], cfg, es[i], k);
  }

  lemma {:induction false} NoRequests(s: State, cfg: Config, e: Event, k: nat)
    ensures var hit := HitOn(s, cfg, e, k); hit.Gets? ==> hit.pkt.Verify() && hit.pkt.Property() != PROP_CONNECT_REQUEST
  {}

  /** Exactly what becomes of a connected peer by any event of any run, and what is reported. */
  lemma {:induction false} ConnectedLeaves(ss: seq<State>, es: seq<Event>, cfg: Config, i: nat, k: nat)
    requires Run(ss, es, cfg) && i < |es| && k < |ss[i].peers| && ss[i].peers[k].state.Connected?
    ensures |ss| == |es| + 1 && k < |ss[i + 1].peers|
    ensures ConnectedFate(ss[i].peers[k], cfg, HitOn(ss[i], cfg, es[i], k), ss[i + 1].peers[k],
                          !IsListed(ss[i + 1], k))
    ensures Reasons(ss[i].peers[k].calls) == [] && IsListed(ss[i], k)
  {
    hide Run, HitOn, After, ConnectedFate;
    RunHits(ss, es, cfg, i, k);
    OngoingIsListed(ss, es, cfg, i, k, k);
    ConnectedMeets(ss[i].peers[k], cfg, HitOn(ss[i], cfg, es[i], k));
  }

  /** The same for a connecting peer. */
  lemma {:induction false} ConnectingLeaves(ss: seq<State>, es: seq<Event>, cfg: Config, i: nat, k: nat)
    requires Run(ss, es, cfg) && i < |es| && k < |ss[i].peers| && ss[i].peers[k].state.Outgoing?
    ensures |ss| == |es| + 1 && k < |ss[i + 1].peers|
    ensures ConnectingFate(ss[i].peers[k], cfg, HitOn(ss[i], cfg, es[i], k), ss[i + 1].peers[k],
                           !IsListed(ss[i + 1], k))
    ensures ss[i].peers[k].calls == [] && IsListed(ss[i], k)
  {
    hide Run, HitOn, After, ConnectingFate;
    RunHits(ss, es, cfg, i, k);
    OngoingIsListed(ss, es, cfg, i, k, k);
    ConnectingMeets(ss[i].peers[k], cfg, HitOn(ss[i], cfg, es[i], k));
  }

  lemma {:induction false} OnlyListedAreHit(s: State, cfg: Config, e: Event, k: nat)
    ensures var hit := HitOn(s, cfg, e, k); hit.Asked? || hit.Passes? || hit.Gets? || hit.Stops? ==> IsListed(s, k)
  {}

  /** For one that is shutting down. */
  lemma {:induction false} ShutdownEnds(ss: seq<State>, es: seq<Event>, cfg: Config, i: nat, k: nat)
    requires Run(ss, es, cfg) && i < |es| && k < |ss[i].peers| && ss[i].peers[k].state.ShutdownRequested?
    ensures |ss| == |es| + 1 && k < |ss[i + 1].peers|
    ensures ShutdownFate(ss[i].peers[k], cfg, HitOn(ss[i], cfg, es[i], k), ss[i + 1].peers[k],
                         IsListed(ss[i], k) && !IsListed(ss[i + 1], k))
  {
    hide Run, HitOn, After;
    RunHits(ss, es, cfg, i, k);
    OnlyListedAreHit(ss[i], cfg, es[i], k);
    ShutdownMeets(ss[i].peers[k], cfg, HitOn(ss[i], cfg, es[i], k));
  }

  /** And for one that is disconnected. */
  lemma {:induction false} DisconnectedIsForgotten(ss: seq<State>, es: seq<Event>, cfg: Config, i: nat, k: nat)
    requires Run(ss, es, cfg) && i < |es| && k < |ss[i].peers| && ss[i].peers[k].state.Disconnected?
    ensures |ss| == |es| + 1 && k < |ss[i + 1].peers|
    ensures DisconnectedFate(ss[i].peers[k], cfg, HitOn(ss[i], cfg, es[i], k), ss[i + 1].peers[k],
                             IsListed(ss[i], k) && !IsListed(ss[i + 1], k))
  {
    hide Run, HitOn, After;
    RunHits(ss, es, cfg, i, k);
    OnlyListedAreHit(ss[i], cfg, es[i], k);
    DisconnectedMeets(ss[i].peers[k], cfg, HitOn(ss[i], cfg, es[i], k));
  }

  lemma {:induction false} InBetween(ss: seq<State>, es: seq<Event>, cfg: Config, i: nat, m: nat, j: nat, k: nat)
    requires Run(ss, es, cfg) && i <= m <= j < |ss| && k < |ss[i].peers|
    ensures k < |ss[m].peers| && k < |ss[j].peers|
    ensures ss[i].peers[k].state == ss[j].peers[k].state ==> ss[m].peers[k].state == ss[i].peers[k].state
  {
    hide Run;
    StatesMoveForward(ss, es, cfg, i, m, k);
    StatesMoveForward(ss, es, cfg, m, j, k);
  }

  /** How the clocks of a peer stand that has been in one state from i to j. */
  ghost predicate ClocksAt(p: Peer, q: Peer, delay: int, hits: seq<Hit>) {
    && (p.state.Connected? || p.state.ShutdownRequested? ==>
          q.connectNum == p.connectNum && q.sinceLastPacket == Silence(p.sinceLastPacket, p.connectNum, hits))
    && (p.state.ShutdownRequested? ==> q.shutdownTimer == FarewellTimer(p.shutdownTimer, hits))
    && (p.state.Outgoing? ==> (q.connectTimer, q.attempts) == Waits(p.connectTimer, p.attempts, delay, hits))
  }

  lemma {:induction false} ClocksAddUp(ss: seq<State>, es: seq<Event>, cfg: Config, i: nat, j: nat, k: nat)
    requires Run(ss, es, cfg) && i <= j < |ss| == |es| + 1 && k < |ss[i].peers|
    requires k < |ss[j].peers| && ss[j].peers[k].state == ss[i].peers[k].state
    ensures ClocksAt(ss[i].peers[k], ss[j].peers[k], cfg.reconnectDelay, HitsOf(ss, es, cfg, k, i, j))
  {
    hide Run, HitOn, After, Disciplined, Silence, Waits, FarewellTimer, Hears;
    var p, hits := ss[i].peers[k], HitsOf(ss, es, cfg, k, i, j);
    if i == j {
      NoHits(p, cfg.reconnectDelay);
    } else {
      InBetween(ss, es, cfg, i, j - 1, j, k);
      ClocksAddUp(ss, es, cfg, i, j - 1, k);
      RunHits(ss, es, cfg, j - 1, k);
      ClocksRun(ss[j - 1].peers[k], cfg, HitOn(ss[j - 1], cfg, es[j - 1], k));
      LastHit(ss, es, cfg, k, i, j);
      FoldsStep(p.sinceLastPacket, p.connectNum, p.connectTimer, p.attempts, cfg.reconnectDelay, hits);
      FoldsStep(p.sinceLastPacket, p.connectNum, p.shutdownTimer, p.attempts, cfg.reconnectDelay, hits);
    }
  }

  lemma {:induction false} NoHits(p: Peer, delay: int)
    ensures ClocksAt(p, p, delay, [])
  {}

  /** In every run, exactly when a connected peer times out: when an update brings the time for
      which nothing was heard from it above the limit. It is then reported and forgotten at once. */
  lemma {:induction false} TimesOutExactly(ss: seq<State>, es: seq<Event>, cfg: Config, i: nat, j: nat, k: nat)
    requires Run(ss, es, cfg) && i <= j < |es| && |ss| == |es| + 1 && k < |ss[i].peers| && k < |ss[j].peers|
    requires ss[i].peers[k].state.Connected? && ss[j].peers[k].state.Connected?
    ensures k < |ss[j + 1].peers|
    ensures var p, q := ss[i].peers[k], ss[j + 1].peers[k];
            var hit, hits := HitOn(ss[j], cfg, es[j], k), HitsOf(ss, es, cfg, k, i, j);
            (q.state.Disconnected? && Reasons(q.calls) == [Timeout] && !IsListed(ss[j + 1], k))
            <==> hit.Passes? && Silence(p.sinceLastPacket, p.connectNum, hits) + hit.delta > cfg.disconnectTimeout
  {
    hide Run, HitOn, Silence, Connects, Reasons, HitsOf, Int64At;
    ClocksAddUp(ss, es, cfg, i, j, k);
    ConnectedLeaves(ss, es, cfg, j, k);
    ReasonOfReport(ss[j].peers[k], ss[j + 1].peers[k]);
  }

  lemma {:induction false} ReasonOfReport(p: Peer, q: Peer)
    requires Reasons(p.calls) == []
    ensures forall reason, data :: Reports(p, q, reason, data) ==> Reasons(q.calls) == [reason]
    ensures q.calls == p.calls ==> Reasons(q.calls) == []
  {
    hide Reasons, Connects;
    forall reason, data | Reports(p, q, reason, data)
      ensures Reasons(q.calls) == [reason]
    {
      CallsConcat(p.calls, [PeerDisconnected(reason, data)]);
      OneCall(PeerDisconnected(reason, data));
    }
  }

  /** A peer that has just connected has heard from the other side. */
  lemma {:induction false} ConnectedIsFresh(ss: seq<State>, es: seq<Event>, cfg: Config, i: nat, k: nat)
    requires Run(ss, es, cfg) && i < |es| && |ss| == |es| + 1 && k < |ss[i + 1].peers|
    requires ss[i + 1].peers[k].state.Connected? && (k < |ss[i].peers| ==> !ss[i].peers[k].state.Connected?)
    ensures ss[i + 1].peers[k].sinceLastPacket == 0
  {
    hide Run, HitOn, After, Disciplined, IsAccepted;
    if k < |ss[i].peers| {
      RunHits(ss, es, cfg, i, k);
      StatesMoveForward(ss, es, cfg, i, i + 1, k);
      ClocksRun(ss[i].peers[k], cfg, HitOn(ss[i], cfg, es[i], k));
    } else {
      RunKeepsInv(ss, es, cfg, i);
      RunStep(ss, es, cfg, i);
      NewcomerIsFresh(ss[i], cfg, es[i], k);
    }
  }

  /** And one that has just begun to shut down starts its clocks anew. */
  lemma {:induction false} ShutdownIsFresh(ss: seq<State>, es: seq<Event>, cfg: Config, i: nat, k: nat)
    requires Run(ss, es, cfg) && i < |es| && |ss| == |es| + 1 && k < |ss[i].peers| && k < |ss[i + 1].peers|
    requires ss[i + 1].peers[k].state.ShutdownRequested? && !ss[i].peers[k].state.ShutdownRequested?
    ensures ss[i + 1].peers[k].sinceLastPacket == 0 && ss[i + 1].peers[k].shutdownTimer == 0
  {
    hide Run, HitOn, After, Disciplined;
    RunHits(ss, es, cfg, i, k);
    StatesMoveForward(ss, es, cfg, i, i + 1, k);
    ClocksRun(ss[i].peers[k], cfg, HitOn(ss[i], cfg, es[i], k));
    TimerUnused(ss, es, cfg, i, k);
  }

  lemma {:induction false} TimerUnused(ss: seq<State>, es: seq<Event>, cfg: Config, i: nat, k: nat)
    requires Run(ss, es, cfg) && i < |ss| && k < |ss[i].peers| && Ongoing(ss[i].peers[k].state)
    ensures ss[i].peers[k].shutdownTimer == 0
  {
    hide Run, HitOn, After, Disciplined;
    RunLength(ss, es, cfg);
    if i > 0 {
      if k < |ss[i - 1].peers| {
        RunHits(ss, es, cfg, i - 1, k);
        StatesMoveForward(ss, es, cfg, i - 1, i, k);
        ClocksRun(ss[i - 1].peers[k], cfg, HitOn(ss[i - 1], cfg, es[i - 1], k));
        TimerUnused(ss, es, cfg, i - 1, k);
      } else {
        RunKeepsInv(ss, es, cfg, i - 1);
        RunStep(ss, es, cfg, i - 1);
        NewcomerIsFresh(ss[i - 1], cfg, es[i - 1], k);
      }
    }
  }

  lemma {:induction false} NewcomerIsFresh(s: State, cfg: Config, e: Event, k: nat)
    requires StateOk(s) && Enabled(s, e) && |s.peers| <= k < |Step(s, cfg, e).peers|
    ensures var p := Step(s, cfg, e).peers[k];
            p.sinceLastPacket == 0 && p.connectTimer == 0 && p.attempts == 0 && p.shutdownTimer == 0
            && IsListed(Step(s, cfg, e), k)
  {
    hide Received, Updated, DisconnectedLocally, RequestPacket, AcceptPacket, ConnectRequested, Shutdown;
    if e.Datagram? { RequestMakesNobody(s, cfg, e); }
  }

  lemma {:induction false} RequestMakesNobody(s: State, cfg: Config, e: Event)
    requires StateOk(s) && e.Datagram?
    ensures IsConnectRequest(e.pkt) ==> |ConnectRequested(s, cfg, RequestOf(e.key, e.pkt)).peers| == |s.peers|
  {
    hide Forced;
  }

  /** Only time reaches the peer. */
  ghost predicate Quiet(hits: seq<Hit>) {
    forall m :: 0 <= m < |hits| ==> hits[m].Idle? || hits[m].Passes?
  }

  /** A connected peer of which nothing is heard for longer than the limit, and to which nothing
      else happens, has been reported as timed out and forgotten. */
  lemma {:induction false} VanishedIsReported(ss: seq<State>, es: seq<Event>, cfg: Config, i: nat, j: nat, k: nat)
    requires Run(ss, es, cfg) && i <= j < |ss| && |ss| == |es| + 1 && k < |ss[i].peers|
    requires ss[i].peers[k].state.Connected? && ss[i].peers[k].sinceLastPacket <= cfg.disconnectTimeout
    requires Quiet(HitsOf(ss, es, cfg, k, i, j))
    ensures k < |ss[j].peers|
    ensures var p, q, hits := ss[i].peers[k], ss[j].peers[k], HitsOf(ss, es, cfg, k, i, j);
            && (q.state.Connected? || TimedOut(ss[j], k))
            && (Silence(p.sinceLastPacket, p.connectNum, hits) > cfg.disconnectTimeout ==> TimedOut(ss[j], k))
    decreases j
  {
    hide Run, HitOn, Silence, Connects, Reasons, HitsOf, TimedOut, Hears, IsClosed;
    StatesMoveForward(ss, es, cfg, i, j, k);
    if i == j {
      NoHits(ss[i].peers[k], cfg.reconnectDelay);
      assert HitsOf(ss, es, cfg, k, i, j) == [];
    } else {
      LastHit(ss, es, cfg, k, i, j);
      VanishedIsReported(ss, es, cfg, i, j - 1, k);
      if TimedOut(ss[j - 1], k) {
        StaysTimedOut(ss, es, cfg, j - 1, k);
      } else {
        QuietStep(ss, es, cfg, i, j - 1, k);
      }
    }
  }

  ghost predicate TimedOut(s: State, k: nat) {
    && k < |s.peers| && s.peers[k].state.Disconnected? && Reasons(s.peers[k].calls) == [Timeout]
    && !IsListed(s, k)
  }

  lemma {:induction false} StaysTimedOut(ss: seq<State>, es: seq<Event>, cfg: Config, i: nat, k: nat)
    requires Run(ss, es, cfg) && i < |es| && TimedOut(ss[i], k)
    ensures |ss| == |es| + 1 && TimedOut(ss[i + 1], k)
  {
    hide Run, HitOn, Reasons;
    RunHits(ss, es, cfg, i, k);
    DisconnectedIsForgotten(ss, es, cfg, i, k);
  }

  lemma {:induction false} QuietStep(ss: seq<State>, es: seq<Event>, cfg: Config, i: nat, j: nat, k: nat)
    requires Run(ss, es, cfg) && i <= j < |es| && |ss| == |es| + 1 && k < |ss[i].peers| && k < |ss[j].peers|
    requires ss[i].peers[k].state.Connected? && ss[j].peers[k].state.Connected?
    requires var hit := HitOn(ss[j], cfg, es[j], k); hit.Idle? || hit.Passes?
    requires var p := ss[i].peers[k];
             Silence(p.sinceLastPacket, p.connectNum, HitsOf(ss, es, cfg, k, i, j)) <= cfg.disconnectTimeout
    ensures k < |ss[j + 1].peers|
    ensures var p, hits := ss[i].peers[k], HitsOf(ss, es, cfg, k, i, j + 1);
            if Silence(p.sinceLastPacket, p.connectNum, hits) > cfg.disconnectTimeout
            then TimedOut(ss[j + 1], k) else ss[j + 1].peers[k].state.Connected?
  {
    hide Run, HitOn, Silence, HitsOf, Reasons, Waits, FarewellTimer;
    var p, hits := ss[i].peers[k], HitsOf(ss, es, cfg, k, i, j + 1);
    LastHit(ss, es, cfg, k, i, j + 1);
    FoldsStep(p.sinceLastPacket, p.connectNum, 0, 0, 0, hits);
    OneHit(Silence(p.sinceLastPacket, p.connectNum, HitsOf(ss, es, cfg, k, i, j)), p.connectNum, 0, 0, 0,
           HitOn(ss[j], cfg, es[j], k));
    ClocksAddUp(ss, es, cfg, i, j, k);
    ConnectedLeaves(ss, es, cfg, j, k);
    TimesOutExactly(ss, es, cfg, i, j, k);
  }

  // ------------------------------------------------------------- what time makes a peer send

  /** A connecting peer repeats its request, one that is shutting down its farewell. */
  lemma {:induction false} SendsInTime(p: Peer, cfg: Config, delta: int)
    requires Disciplined(p)
    ensures p.state.Outgoing? ==>
              && p.requestPacket.Some?
              && UpdateSends(p, cfg, delta)
                 == if Expires(p, cfg, Passes(delta)) && !RunsOut(p, cfg, Passes(delta))
                    then [Addressed(p.key, p.requestPacket.value)] else []
    ensures p.state.ShutdownRequested? ==>
              && p.shutdownPacket.Some?
              && UpdateSends(p, cfg, delta)
                 == if !TimesOut(p, cfg, Passes(delta)) && p.shutdownTimer + delta >= SHUTDOWN_RESEND_DELAY
                    then [Addressed(p.key, p.shutdownPacket.value)] else []
    ensures p.state.Connected? || p.state.Disconnected? ==> UpdateSends(p, cfg, delta) == []
  {
    hide Connects, Reasons, AsksFor, Ends;
  }

  /** In every run, exactly when a connecting peer asks again and when it is given up: each time
      its delay has run out, as often as it may. */
  lemma {:induction false} AsksExactly(ss: seq<State>, es: seq<Event>, cfg: Config, i: nat, j: nat, k: nat)
    requires Run(ss, es, cfg) && i <= j < |es| && |ss| == |es| + 1 && k < |ss[i].peers| && k < |ss[j].peers|
    requires ss[i].peers[k].state.Outgoing? && ss[j].peers[k].state.Outgoing? && es[j].UpdatePeer?
    requires HitOn(ss[j], cfg, es[j], k).Passes?
    ensures k < |ss[j + 1].peers| && StateOk(ss[j]) && Enabled(ss[j], es[j])
    ensures var p, c, q := ss[i].peers[k], ss[j].peers[k], ss[j + 1].peers[k];
            var hits := HitsOf(ss, es, cfg, k, i, j);
            var (timer, attempts) := Waits(p.connectTimer, p.attempts, cfg.reconnectDelay, hits);
            var isUp := timer + es[j].delta > cfg.reconnectDelay;
            && c.requestPacket.Some?
            && Sends(ss[j], cfg, es[j])
               == (if isUp && attempts < cfg.maxAttempts then [Addressed(c.key, c.requestPacket.value)] else [])
            && (if isUp && attempts >= cfg.maxAttempts
                then Reports(c, q, ConnectionFailed, []) && q.state.Disconnected? && !IsListed(ss[j + 1], k)
                else q.state.Outgoing?)
  {
    hide Run, Waits, HitsOf, Int64At, Disciplined, UpdateSends, Connects, Reasons;
    ClocksAddUp(ss, es, cfg, i, j, k);
    RunHits(ss, es, cfg, j, k);
    RunKeepsInv(ss, es, cfg, j);
    RunStep(ss, es, cfg, j);
    SendsInTime(ss[j].peers[k], cfg, es[j].delta);
    ConnectingLeaves(ss, es, cfg, j, k);
    StatesMoveForward(ss, es, cfg, j, j + 1, k);
  }

  /** And one that is shutting down repeats its farewell until nothing was heard for too long. */
  lemma {:induction false} BidsFarewellExactly(ss: seq<State>, es: seq<Event>, cfg: Config, i: nat, j: nat, k: nat)
    requires Run(ss, es, cfg) && i <= j < |es| && |ss| == |es| + 1 && k < |ss[i].peers| && k < |ss[j].peers|
    requires ss[i].peers[k].state.ShutdownRequested? && ss[j].peers[k].state.ShutdownRequested? && es[j].UpdatePeer?
    requires HitOn(ss[j], cfg, es[j], k).Passes?
    ensures k < |ss[j + 1].peers| && StateOk(ss[j]) && Enabled(ss[j], es[j])
    ensures var p, c, q, hits := ss[i].peers[k], ss[j].peers[k], ss[j + 1].peers[k], HitsOf(ss, es, cfg, k, i, j);
            var late := Silence(p.sinceLastPacket, p.connectNum, hits) + es[j].delta > cfg.disconnectTimeout;
            var isUp := FarewellTimer(p.shutdownTimer, hits) + es[j].delta >= SHUTDOWN_RESEND_DELAY;
            && c.shutdownPacket.Some?
            && Sends(ss[j], cfg, es[j])
               == (if isUp && !late then [Addressed(c.key, c.shutdownPacket.value)] else [])
            && (q.state.Disconnected? <==> late)
  {
    hide Run, Silence, FarewellTimer, HitsOf, Int64At, Disciplined, UpdateSends, Connects, Reasons;
    ClocksAddUp(ss, es, cfg, i, j, k);
    RunHits(ss, es, cfg, j, k);
    RunKeepsInv(ss, es, cfg, j);
    RunStep(ss, es, cfg, j);
    SendsInTime(ss[j].peers[k], cfg, es[j].delta);
    ShutdownEnds(ss, es, cfg, j, k);
  }

  // ---------------------------------------------------------------- requests of other sides

  /** The peer of the address keeps the request out. */
  predicate Shuts(s: State, req: ConnReq)
    requires StateOk(s)
  {
    req.key in s.table && KeptOut(s.peers[s.table[req.key]], req)
  }

  /** What becomes of a request for a connection: kept out, taken in place of the one that is
      pending for the same address, laid before the application, or rejected at once. */
  ghost predicate IsTaken(s: State, cfg: Config, req: ConnReq, t: State)
    requires StateOk(s)
  {
    && (!cfg.accept || Shuts(s, req) ==> t == s)
    && (cfg.accept && !Shuts(s, req) && req.key in s.requests ==>
          var r := s.requests[req.key];
          t.reqs == s.reqs[r := s.reqs[r].(internal := req)] && t.requests == s.requests)
    && (cfg.accept && !Shuts(s, req) && req.key !in s.requests ==>
          && |t.reqs| == |s.reqs| + 1 && t.reqs[..|s.reqs|] == s.reqs && t.reqs[|s.reqs|].internal == req
          && (if cfg.hasRequestHandler
              then t.reqs[|s.reqs|].answers == [] && t.requests == s.requests[req.key := |s.reqs|]
              else t.reqs[|s.reqs|].answers == [false] && t.requests == s.requests)
          && (t.reqs[|s.reqs|].resolved <==> !cfg.hasRequestHandler))
    && |t.peers| == |s.peers|
  }

  lemma {:induction false} RequestTaken(s: State, cfg: Config, req: ConnReq)
    requires StateOk(s)
    ensures IsTaken(s, cfg, req, ConnectRequested(s, cfg, req))
  {
    hide Forced;
    var t := Replaced(s, req).0;
    if req.key !in t.requests {
      assert t.requests[req.key := |t.reqs|] - {req.key} == t.requests;
    }
  }

  /** The request is the one that the other side made. */
  lemma {:induction false} RequestUnderstood(key: Key, time: int64, num: ConnectionNumber, id: int32,
                                             target: SocketAddress, data: seq<byte>)
    ensures var pkt := RequestPacket(time, num, id, target, data);
            IsConnectRequest(pkt) && RequestOf(key, pkt) == ConnReq(key, time, num, id, data)
  {
    hide RequestPacket, Int64At, Int32At;
    RequestReads(time, num, id, target, data);
  }

  /** Nothing but a request from its address makes or changes a pending request. */
  lemma {:induction false} RequestsExactly(ss: seq<State>, es: seq<Event>, cfg: Config, i: nat)
    requires Run(ss, es, cfg) && i < |es|
    ensures |ss| == |es| + 1 && StateOk(ss[i]) && Enabled(ss[i], es[i])
    ensures var s, e, t := ss[i], es[i], ss[i + 1];
            && (IsRequest(e) ==> IsTaken(s, cfg, RequestOf(e.key, e.pkt), t))
            && (!IsRequest(e) && !e.Answer? ==> t.reqs == s.reqs && t.requests == s.requests)
            && (e.Answer? ==> IsAnswered(s, e.req, e.accept, t))
  {
    hide Run, ConnectRequested, Received, Updated, DisconnectedLocally, Shutdown, Resolve;
    RunLength(ss, es, cfg);
    RunKeepsInv(ss, es, cfg, i);
    RunStep(ss, es, cfg, i);
    if IsRequest(es[i]) { RequestTaken(ss[i], cfg, RequestOf(es[i].key, es[i].pkt)); }
    if es[i].Answer? { RequestAnswered(ss[i], es[i].req, es[i].accept); }
  }

  lemma {:induction false} RunLength(ss: seq<State>, es: seq<Event>, cfg: Config)
    requires Run(ss, es, cfg)
    ensures |ss| == |es| + 1 && ss[0] == INITIAL
  {}

  predicate IsRequest(e: Event) {
    && e.Datagram? && e.pkt.Verify() && e.pkt.Property() == PROP_CONNECT_REQUEST
    && SpeaksProtocol(e.pkt) && IsConnectRequest(e.pkt)
  }

  /** A request is answered once; if it is accepted and its address is free, a peer that is
      connected from the start stands for it. */
  ghost predicate IsAnswered(s: State, r: nat, accept: bool, t: State)
    requires r < |s.reqs|
  {
    var req := s.reqs[r];
    if req.resolved then t == s
    else
      && t.reqs == s.reqs[r := PendingRequest(req.internal, true, req.answers + [accept])]
      && t.requests == s.requests - {req.internal.key}
      && (!accept || req.internal.key in s.table ==> t.peers == s.peers && t.table == s.table)
      && (accept && req.internal.key !in s.table ==>
            && |t.peers| == |s.peers| + 1 && t.peers[..|s.peers|] == s.peers
            && t.table == s.table[req.internal.key := |s.peers|]
            && var p := t.peers[|s.peers|];
               && p.state.Connected? && p.calls == [PeerConnected] && p.key == req.internal.key
               && p.connectTime == req.internal.time && p.connectNum == req.internal.number
               && p.remoteId == req.internal.peerId && p.id == |t.peers|)
  }

  lemma {:induction false} RequestAnswered(s: State, r: nat, accept: bool)
    requires r < |s.reqs|
    ensures IsAnswered(s, r, accept, Resolve(s, r, accept))
  {
    hide AcceptPacket;
  }
}
