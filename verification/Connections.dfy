/** The connection manager: peers, pending connection requests and the callbacks the
    application gets. Everything runs on one event loop, so every handler is one atomic step.

    A peer is its position in `peers`, which lists every peer ever made; the table says which
    of them an address currently stands for. */
module Connections {
  import opened Bits
  import opened Options
  import opened Packets
  import opened Codec
  import opened Batching
  import opened ConnectionPackets

  /** Durations are in nanoseconds. */
  const SHUTDOWN_RESEND_DELAY := 300_000_000

  type Key = string

  datatype Reason = ConnectionFailed | Timeout | RemoteConnectionClose | DisconnectPeerCalled
                  | ConnectionRejected | InvalidProtocol | Reconnect | PeerNotFound

  /** What the application sees of a peer. A dispatched packet is one that reaches the
      channels or the application; nothing is delivered otherwise, and an unreliable one
      always is. */
  datatype Callback = PeerConnected | PeerDisconnected(reason: Reason, data: seq<byte>) | Dispatched(p: Packet)

  /** `id` counts the peers ever made; `remoteId` is the id that the other side gave. */
  datatype Peer = Peer(key: Key, id: nat, remoteId: int32, state: Conn, connectTime: int64,
                       connectNum: ConnectionNumber,
                       sinceLastPacket: int, connectTimer: int, shutdownTimer: int, attempts: nat,
                       requestPacket: Option<Packet>, acceptPacket: Option<Packet>, shutdownPacket: Option<Packet>,
                       calls: seq<Callback>)

  datatype ConnReq = ConnReq(key: Key, time: int64, number: ConnectionNumber, peerId: int32, data: seq<byte>)

  /** A datagram on its way to an address. */
  datatype Addressed = Addressed(to: Key, pkt: Packet)

  /** `answers` lists the decisions taken on a request. */
  datatype PendingRequest = PendingRequest(internal: ConnReq, resolved: bool, answers: seq<bool>)

  datatype Config = Config(accept: bool, hasRequestHandler: bool, disconnectTimeout: int, reconnectDelay: int,
                           maxAttempts: nat)

  datatype State = State(peers: seq<Peer>, table: map<Key, nat>, reqs: seq<PendingRequest>, requests: map<Key, nat>)

  const INITIAL := State([], map[], [], map[])

  predicate StateOk(s: State) {
    && (forall k :: k in s.table ==> s.table[k] < |s.peers| && s.peers[s.table[k]].key == k)
    && (forall k :: k in s.requests ==> s.requests[k] < |s.reqs| && s.reqs[s.requests[k]].internal.key == k)
  }

  // ------------------------------------------------------------------------ peer steps

  predicate CountsAsFailure(r: Reason) { r == ConnectionFailed || r == ConnectionRejected }

  /** The data of a farewell; zeros of the same length take its place when it does not fit. */
  function Fitting(data: seq<byte>, mtu: nat): (r: seq<byte>)
    ensures |r| == |data|
  {
    if HEADER_SIZE + 8 + |data| < mtu then data else seq(|data|, _ => 0 as byte)
  }

  /** The packet that ends a connection. */
  function FarewellPacket(p: Peer, data: seq<byte>, mtu: nat): Packet {
    DisconnectPacket(p.connectTime, p.connectNum, Fitting(data, mtu))
  }

  /** The peer after a shutdown, and whether it was connected before. */
  function Shutdown(p: Peer, data: seq<byte>, mtu: nat, force: bool): (Peer, bool) {
    if p.state.Disconnected? || p.state.ShutdownRequested? then (p, false)
    else if force then (p.(state := Disconnected), p.state.Connected?)
    else (p.(state := ShutdownRequested, sinceLastPacket := 0, shutdownPacket := Some(FarewellPacket(p, data, mtu))),
          p.state.Connected?)
  }

  function Called(p: Peer, c: Callback): Peer { p.(calls := p.calls + [c]) }

  /** A forced disconnect: the peer after it, and whether it leaves the table. */
  function Forced(p: Peer, reason: Reason, data: seq<byte>): (Peer, bool) {
    var (q, wasConnected) := Shutdown(p, [], 0, true);
    if !wasConnected && !CountsAsFailure(reason) then (q, false)
    else (Called(q, PeerDisconnected(reason, data)), true)
  }

  function DisconnectedLocally(p: Peer, data: seq<byte>, mtu: nat): Peer {
    var (q, wasConnected) := Shutdown(p, data, mtu, false);
    if wasConnected then Called(q, PeerDisconnected(DisconnectPeerCalled, [])) else q
  }

  predicate AcceptMatches(p: Peer, pkt: Packet) {
    && p.state.Outgoing? && pkt.Size() == CONNECT_ACCEPT_SIZE && Int64At(pkt, 1) == p.connectTime
    && pkt.data[9] as nat < MAX_CONNECTION_NUMBER && !(Int32At(pkt, 11) < 0)
  }

  function AfterAccept(p: Peer, pkt: Packet): Peer
    requires AcceptMatches(p, pkt)
  {
    Called(p.(connectNum := pkt.data[9] as nat, remoteId := Int32At(pkt, 11), sinceLastPacket := 0, state := Connected),
           PeerConnected)
  }

  predicate DisconnectMatches(p: Peer, pkt: Packet)
    requires |pkt.data| >= 1
  {
    && (p.state.Connected? || p.state.Outgoing?) && pkt.Size() >= 9
    && Int64At(pkt, 1) == p.connectTime && pkt.ConnectionNumber() == p.connectNum
  }

  function Dispatches(ps: seq<Packet>): seq<Callback> {
    seq(|ps|, i requires 0 <= i < |ps| => Dispatched(ps[i]))
  }

  function Processed(p: Peer, pkt: Packet): Peer
    requires |pkt.data| >= 1
  {
    var (state, leaves) := Take(p.state, pkt, p.connectNum);
    var heard := Live(p.state) && pkt.Property() != PROP_SHUTDOWN_OK && pkt.ConnectionNumber() == p.connectNum;
    p.(state := state, sinceLastPacket := if heard then 0 else p.sinceLastPacket, calls := p.calls + Dispatches(leaves))
  }

  /** A connecting peer tries again when its timer is up, until it has no attempts left. */
  function Retried(p: Peer, cfg: Config): (Peer, bool) {
    if p.connectTimer <= cfg.reconnectDelay then (p, false)
    else
      var q := p.(connectTimer := 0, attempts := p.attempts + 1);
      if q.attempts > cfg.maxAttempts then Forced(q, ConnectionFailed, []) else (q, false)
  }

  /** One update of a peer: the peer after it, and whether it leaves the table. */
  function Updated(p: Peer, cfg: Config, delta: int): (Peer, bool) {
    if p.state.Disconnected? && p.sinceLastPacket > cfg.disconnectTimeout then (p, true)
    else
      var q := p.(sinceLastPacket := p.sinceLastPacket + delta);
      match q.state
      case Connected => if q.sinceLastPacket > cfg.disconnectTimeout then Forced(q, Timeout, []) else (q, false)
      case ShutdownRequested =>
        if q.sinceLastPacket > cfg.disconnectTimeout then (q.(state := Disconnected), false)
        else
          var timer := q.shutdownTimer + delta;
          (q.(shutdownTimer := if timer >= SHUTDOWN_RESEND_DELAY then 0 else timer), false)
      case Outgoing => Retried(q.(connectTimer := q.connectTimer + delta), cfg)
      case Disconnected => (q, false)
  }

  // --------------------------------------------------------------------- manager steps

  /** Peer i becomes p and possibly leaves the table under its address. */
  function Put(s: State, i: nat, p: Peer, leaves: bool): State
    requires i < |s.peers|
  {
    s.(peers := s.peers[i := p], table := if leaves then s.table - {p.key} else s.table)
  }

  function NewPeer(s: State, p: Peer): State {
    s.(peers := s.peers + [p], table := s.table[p.key := |s.peers|])
  }

  function OutgoingPeer(key: Key, id: nat, now: int64, target: SocketAddress, data: seq<byte>): Peer {
    Peer(key, id, 0, Outgoing, now, 0, 0, 0, 0, 0,
         Some(RequestPacket(now, 0, ToInt32(id), target, data)), None, None, [])
  }

  function AcceptedPeer(r: ConnReq, id: nat): Peer {
    Peer(r.key, id, r.peerId, Connected, r.time, r.number, 0, 0, 0, 0,
         None, Some(AcceptPacket(r.time, r.number, ToInt32(id))), None, [PeerConnected])
  }

  function Resolve(s: State, r: nat, accept: bool): State
    requires r < |s.reqs|
  {
    var req := s.reqs[r];
    if req.resolved then s
    else
      var t := s.(reqs := s.reqs[r := req.(resolved := true, answers := req.answers + [accept])],
                  requests := s.requests - {req.internal.key});
      if !accept || req.internal.key in s.table then t else NewPeer(t, AcceptedPeer(req.internal, |t.peers| + 1))
  }

  /** What a connection request does to the peer its address stands for; None keeps the
      request from going any further. */
  function Replaced(s: State, req: ConnReq): (State, bool)
    requires StateOk(s)
  {
    if req.key !in s.table then (s, true)
    else
      var i := s.table[req.key];
      var p := s.peers[i];
      if p.state.Outgoing? then (s, false)
      else if p.state.Connected? && req.time == p.connectTime then (s, false)
      else if req.time < p.connectTime then (s, false)
      else
        var (q, leaves) := Forced(p, Reconnect, []);
        (Put(s, i, q, true), true)
  }

  function ConnectRequested(s: State, cfg: Config, req: ConnReq): State
    requires StateOk(s)
  {
    if !cfg.accept then s
    else
      var (t, goOn) := Replaced(s, req);
      if !goOn then t
      else if req.key in t.requests then
        t.(reqs := t.reqs[t.requests[req.key] := t.reqs[t.requests[req.key]].(internal := req)])
      else
        var u := Awaiting(t, req);
        if cfg.hasRequestHandler then u else Resolve(u, |t.reqs|, false)
  }

  /** A new request waits for its answer. */
  function Awaiting(s: State, req: ConnReq): State {
    s.(reqs := s.reqs + [PendingRequest(req, false, [])], requests := s.requests[req.key := |s.reqs|])
  }

  function RequestOf(key: Key, pkt: Packet): ConnReq
    requires IsConnectRequest(pkt)
  {
    var addressEnd := CONNECT_REQUEST_HEADER + pkt.data[CONNECT_REQUEST_HEADER - 1] as nat;
    ConnReq(key, Int64At(pkt, 5), pkt.ConnectionNumber(), Int32At(pkt, 13), pkt.data[addressEnd..])
  }

  predicate Ignored(prop: nat) {
    prop == PROP_UNCONNECTED_MESSAGE || prop == PROP_BROADCAST || prop == PROP_NAT_MESSAGE
  }

  /** What a datagram does to the peer its address stands for. */
  function Received(p: Peer, pkt: Packet): (Peer, bool)
    requires |pkt.data| >= 1
  {
    var prop := pkt.Property();
    if prop == PROP_CONNECT_ACCEPT then (if AcceptMatches(p, pkt) then AfterAccept(p, pkt) else p, false)
    else if prop == PROP_DISCONNECT then
      if !DisconnectMatches(p, pkt) then (p, false)
      else Forced(p, if p.state.Outgoing? then ConnectionRejected else RemoteConnectionClose, pkt.data[9..])
    else if prop == PROP_INVALID_PROTOCOL then if p.state.Outgoing? then Forced(p, InvalidProtocol, []) else (p, false)
    else if prop == PROP_PEER_NOT_FOUND then if p.state.Connected? then Forced(p, PeerNotFound, []) else (p, false)
    else if Ignored(prop) then (p, false)
    else (Processed(p, pkt), false)
  }

  datatype Event =
    | Connect(key: Key, now: int64, target: SocketAddress, data: seq<byte>)
    | Disconnect(peer: nat, data: seq<byte>, mtu: nat)
    | Answer(req: nat, accept: bool, data: seq<byte>)
    | Datagram(key: Key, pkt: Packet)
    | UpdatePeer(key: Key, delta: int)
    | Stop

  predicate Enabled(s: State, e: Event) {
    match e
    case Disconnect(i, _, _) => i < |s.peers|
    case Answer(r, _, _) => r < |s.reqs|
    case UpdatePeer(key, _) => key in s.table
    case _ => true
  }

  function Step(s: State, cfg: Config, e: Event): State
    requires StateOk(s) && Enabled(s, e)
  {
    match e
    case Connect(key, now, target, data) =>
      if key in s.table then s else NewPeer(s, OutgoingPeer(key, |s.peers| + 1, now, target, data))
    case Disconnect(i, data, mtu) => Put(s, i, DisconnectedLocally(s.peers[i], data, mtu), false)
    case Answer(r, accept, _) => Resolve(s, r, accept)
    case Datagram(key, pkt) =>
      if !pkt.Verify() then s
      else if pkt.Property() == PROP_CONNECT_REQUEST then
        if SpeaksProtocol(pkt) && IsConnectRequest(pkt) then ConnectRequested(s, cfg, RequestOf(key, pkt)) else s
      else if key !in s.table then s
      else
        var (p, leaves) := Received(s.peers[s.table[key]], pkt);
        Put(s, s.table[key], p, leaves)
    case UpdatePeer(key, delta) =>
      var (p, leaves) := Updated(s.peers[s.table[key]], cfg, delta);
      Put(s, s.table[key], p, leaves)
    case Stop =>
      s.(peers := seq(|s.peers|, i requires 0 <= i < |s.peers| =>
           var p := s.peers[i];
           if p.key in s.table && s.table[p.key] == i then Shutdown(p, [], 0, false).0 else p))
  }

  // -------------------------------------------------------------------- what a step sends

  function Post(key: Key, pkt: Option<Packet>): seq<Addressed> {
    if pkt.Some? then [Addressed(key, pkt.value)] else []
  }

  /** The answer to a request, once. */
  function AnswerSends(s: State, r: nat, accept: bool, data: seq<byte>): seq<Addressed>
    requires r < |s.reqs|
  {
    var req := s.reqs[r].internal;
    if s.reqs[r].resolved then []
    else if !accept then [Addressed(req.key, DisconnectPacket(req.time, req.number, data))]
    else if req.key in s.table then []
    else Post(req.key, AcceptedPeer(req, |s.peers| + 1).acceptPacket)
  }

  /** A repeated request is answered again, and a manager without a handler rejects at once. */
  function RequestSends(s: State, cfg: Config, req: ConnReq): seq<Addressed>
    requires StateOk(s)
  {
    if !cfg.accept then []
    else if Repeats(s, req) then Post(req.key, s.peers[s.table[req.key]].acceptPacket)
    else
      var (t, goOn) := Replaced(s, req);
      if !goOn || req.key in t.requests || cfg.hasRequestHandler then []
      else AnswerSends(Awaiting(t, req), |t.reqs|, false, [])
  }

  /** The request of a peer that is connected already. */
  predicate Repeats(s: State, req: ConnReq)
    requires StateOk(s)
  {
    && req.key in s.table && s.peers[s.table[req.key]].state.Connected?
    && req.time == s.peers[s.table[req.key]].connectTime
  }

  function DatagramSends(s: State, cfg: Config, key: Key, pkt: Packet): seq<Addressed>
    requires StateOk(s)
  {
    if !pkt.Verify() then []
    else if pkt.Property() == PROP_CONNECT_REQUEST then
      if !SpeaksProtocol(pkt) then [Addressed(key, Notice(PROP_INVALID_PROTOCOL))]
      else if !IsConnectRequest(pkt) then []
      else RequestSends(s, cfg, RequestOf(key, pkt))
    else if pkt.Property() == PROP_DISCONNECT then [Addressed(key, Notice(PROP_SHUTDOWN_OK))]
    else if IsForManager(pkt.Property()) || key in s.table then []
    else [Addressed(key, Notice(PROP_PEER_NOT_FOUND))]
  }

  /** Never handed on to a peer's own processing. */
  predicate IsForManager(prop: nat) {
    prop == PROP_CONNECT_ACCEPT || prop == PROP_INVALID_PROTOCOL || prop == PROP_PEER_NOT_FOUND || Ignored(prop)
  }

  /** Requests and farewells are repeated until they are answered or given up. */
  function UpdateSends(p: Peer, cfg: Config, delta: int): seq<Addressed> {
    match p.state
    case ShutdownRequested =>
      if p.sinceLastPacket + delta > cfg.disconnectTimeout || p.shutdownTimer + delta < SHUTDOWN_RESEND_DELAY then []
      else Post(p.key, p.shutdownPacket)
    case Outgoing =>
      if p.connectTimer + delta <= cfg.reconnectDelay || p.attempts + 1 > cfg.maxAttempts then []
      else Post(p.key, p.requestPacket)
    case _ => []
  }

  /** The packets of the connection protocol that a step sends. */
  function Sends(s: State, cfg: Config, e: Event): seq<Addressed>
    requires StateOk(s) && Enabled(s, e) && !e.Stop?
  {
    match e
    case Connect(key, now, target, data) =>
      if key in s.table then [] else Post(key, OutgoingPeer(key, |s.peers| + 1, now, target, data).requestPacket)
    case Disconnect(i, data, mtu) =>
      var p := s.peers[i];
      if Ongoing(p.state) then [Addressed(p.key, FarewellPacket(p, data, mtu))] else []
    case Answer(r, accept, data) => AnswerSends(s, r, accept, data)
    case Datagram(key, pkt) => DatagramSends(s, cfg, key, pkt)
    case UpdatePeer(key, delta) => UpdateSends(s.peers[s.table[key]], cfg, delta)
  }

  // ------------------------------------------------------------------- what a peer does

  function Stage(c: Conn): nat {
    match c
    case Outgoing => 0
    case Connected => 1
    case ShutdownRequested => 2
    case Disconnected => 3
  }

  function Connects(calls: seq<Callback>): nat {
    if calls == [] then 0
    else Connects(calls[..|calls| - 1]) + if calls[|calls| - 1].PeerConnected? then 1 else 0
  }

  /** The reasons of all disconnected callbacks. */
  function Reasons(calls: seq<Callback>): seq<Reason> {
    if calls == [] then []
    else Reasons(calls[..|calls| - 1])
         + if calls[|calls| - 1].PeerDisconnected? then [calls[|calls| - 1].reason] else []
  }

  lemma {:induction false} CallsConcat(a: seq<Callback>, b: seq<Callback>)
    ensures Connects(a + b) == Connects(a) + Connects(b) && Reasons(a + b) == Reasons(a) + Reasons(b)
    decreases |b|
  {
    if b == [] {
      assert a + b == a;
    } else {
      var last := |b| - 1;
      CallsConcat(a, b[..last]);
      assert (a + b)[..|a + b| - 1] == a + b[..last] && (a + b)[|a + b| - 1] == b[last];
    }
  }

  lemma {:induction false} OneCall(c: Callback)
    ensures Connects([c]) == (if c.PeerConnected? then 1 else 0)
    ensures Reasons([c]) == if c.PeerDisconnected? then [c.reason] else []
  {
    assert [c][..0] == [];
  }

  lemma {:induction false} DispatchesAreQuiet(ps: seq<Packet>)
    ensures Connects(Dispatches(ps)) == 0 && Reasons(Dispatches(ps)) == []
  {
    if ps != [] {
      var last := |ps| - 1;
      DispatchesAreQuiet(ps[..last]);
      assert Dispatches(ps)[..last] == Dispatches(ps[..last]);
    }
  }

  // The packets a peer keeps are those of its own connection, as the other side reads them.

  predicate AsksFor(pkt: Packet, time: int64, id: nat) {
    && pkt.Verify() && pkt.Property() == PROP_CONNECT_REQUEST && pkt.ConnectionNumber() == 0
    && SpeaksProtocol(pkt) && IsConnectRequest(pkt) && Int64At(pkt, 5) == time && Int32At(pkt, 13) == ToInt32(id)
  }

  predicate Ends(pkt: Packet, time: int64, num: ConnectionNumber) {
    && pkt.Verify() && pkt.Property() == PROP_DISCONNECT && pkt.ConnectionNumber() == num && Int64At(pkt, 1) == time
  }

  /** Either side of a connection has its packet: the one to ask with, or the one to accept with,
      and the one to end it with as soon as it is shutting down. */
  predicate Equipped(p: Peer) {
    && (p.state.Outgoing? ==> p.requestPacket.Some? && p.connectNum == 0)
    && (p.requestPacket.Some? <==> p.acceptPacket.None?)
    && (Ongoing(p.state) ==> p.shutdownPacket.None?)
    && (p.state.ShutdownRequested? ==> p.shutdownPacket.Some?)
    && (p.requestPacket.Some? ==> AsksFor(p.requestPacket.value, p.connectTime, p.id))
    && (p.acceptPacket.Some? ==>
          && p.acceptPacket.value == AcceptPacket(p.connectTime, p.connectNum, ToInt32(p.id))
          && [PeerConnected] <= p.calls)
    && (p.shutdownPacket.Some? ==> Ends(p.shutdownPacket.value, p.connectTime, p.connectNum))
  }

  /** The discipline of one peer's callbacks, in terms of its state. */
  ghost predicate Disciplined(p: Peer) {
    && Equipped(p)
    && Connects(p.calls) <= 1 && |Reasons(p.calls)| <= 1
    && (p.state.Outgoing? ==> p.calls == [])
    && (p.state.Connected? ==> Connects(p.calls) == 1 && Reasons(p.calls) == [])
    && (Connects(p.calls) == 0 && Reasons(p.calls) != [] ==> CountsAsFailure(Reasons(p.calls)[0]))
  }

  /** What a step is to a peer: a refusal of its protocol version, a local disconnect or stop,
      or anything else. */
  datatype How = Ordinary | Refusing | Locally | Stopping

  predicate NeverDispatched(calls: seq<Callback>) {
    forall c :: c in calls ==> !c.Dispatched?
  }

  /** One step of a peer: its state only moves forward, what the application was told stays
      told, and leaving the connected state is reported once, except by Stop. A connecting peer
      that is given up is reported unless its protocol was refused. Only a peer that is
      connected or shutting down is handed packets, and only the application shuts down. */
  ghost predicate Moves(p: Peer, q: Peer, how: How) {
    && p.key == q.key && Stage(p.state) <= Stage(q.state) && p.calls <= q.calls && Same(p, q)
    && (p.state.Connected? && !q.state.Connected? && how != Stopping ==>
          |Reasons(q.calls)| == 1 && Reasons(p.calls) == [])
    && (p.state.Outgoing? && q.state.Disconnected? ==> (Reasons(q.calls) != [] <==> how != Refusing))
    && (Connects(q.calls) == Connects(p.calls) || (p.state.Outgoing? && q.state.Connected?))
    && (!Live(p.state) ==> NeverDispatched(q.calls[|p.calls|..]))
    && ((how == Ordinary || how == Refusing) && !p.state.ShutdownRequested? ==> !q.state.ShutdownRequested?)
    && (!p.state.Connected? && !q.state.Disconnected? ==> Reasons(q.calls) == Reasons(p.calls))
    && (!p.state.Connected? && q.state.Connected? ==> Connects(p.calls) == 0 && Connects(q.calls) == 1)
    && (p.state.Disconnected? ==> q.state.Disconnected? && q.calls == p.calls)
  }

  /** Which connection a peer stands for never changes; it is settled when it connects. */
  predicate Same(p: Peer, q: Peer) {
    && p.id == q.id && p.connectTime == q.connectTime
    && p.requestPacket == q.requestPacket && p.acceptPacket == q.acceptPacket
    && ((p.connectNum == q.connectNum && p.remoteId == q.remoteId) || (p.state.Outgoing? && q.state.Connected?))
  }

  ghost predicate PeerStep(p: Peer, q: Peer, how: How) {
    Disciplined(q) && Moves(p, q, how)
  }

  lemma {:induction false} StaysPut(p: Peer, how: How)
    requires Disciplined(p)
    ensures PeerStep(p, p, how)
  {}

  lemma {:induction false} ForcedStep(p: Peer, reason: Reason, data: seq<byte>, how: How)
    requires Disciplined(p) && (how == Ordinary || how == Refusing)
    requires if p.state.Outgoing? then CountsAsFailure(reason) <==> how != Refusing else !CountsAsFailure(reason)
    ensures PeerStep(p, Forced(p, reason, data).0, how)
    ensures !Ongoing(Forced(p, reason, data).0.state) && Forced(p, reason, data).0.key == p.key
  {
    CallsConcat(p.calls, [PeerDisconnected(reason, data)]);
    OneCall(PeerDisconnected(reason, data));
    hide Connects, Reasons, AsksFor, Ends;
    NoCalls();
  }

  lemma {:induction false} NoCalls()
    ensures Connects([]) == 0 && Reasons([]) == []
  {}

  lemma {:induction false} LocalStep(p: Peer, data: seq<byte>, mtu: nat)
    requires Disciplined(p)
    ensures PeerStep(p, DisconnectedLocally(p, data, mtu), Locally)
    ensures PeerStep(p, Shutdown(p, data, mtu, false).0, Stopping)
  {
    CallsConcat(p.calls, [PeerDisconnected(DisconnectPeerCalled, [])]);
    OneCall(PeerDisconnected(DisconnectPeerCalled, []));
    FarewellEnds(p, data, mtu);
    hide Connects, Reasons, AsksFor, Ends, FarewellPacket;
    NoCalls();
  }

  lemma {:induction false} FarewellEnds(p: Peer, data: seq<byte>, mtu: nat)
    ensures Ends(FarewellPacket(p, data, mtu), p.connectTime, p.connectNum)
  {
    DisconnectReads(p.connectTime, p.connectNum, Fitting(data, mtu));
    hide DisconnectPacket, Int64At;
  }

  lemma {:induction false} AcceptedStep(p: Peer, pkt: Packet)
    requires Disciplined(p) && AcceptMatches(p, pkt)
    ensures PeerStep(p, AfterAccept(p, pkt), Ordinary)
  {
    OneCall(PeerConnected);
    hide Connects, Reasons, FromLittleEndian, AsksFor, Ends, Int64At, Int32At;
    NoCalls();
    assert p.calls + [PeerConnected] == [PeerConnected];
  }

  lemma {:induction false} TakeForward(st: Conn, p: Packet, num: nat)
    requires |p.data| >= 1
    ensures var (after, leaves) := Take(st, p, num);
            && Stage(st) <= Stage(after) && (after == st || (st.ShutdownRequested? && after.Disconnected?))
            && (leaves != [] ==> Live(st))
    decreases |p.data|
  {
    if Live(st) && p.Property() == PROP_MERGED { TakeAllForward(st, p.data[1..], num); }
  }

  lemma {:induction false} TakeAllForward(st: Conn, rest: seq<byte>, num: nat)
    ensures var (after, leaves) := TakeAll(st, rest, num);
            && Stage(st) <= Stage(after) && (after == st || (st.ShutdownRequested? && after.Disconnected?))
            && (leaves != [] ==> Live(st))
    decreases |rest|
  {
    hide Take, WellFormed, Stage;
    TakeAllStep(st, rest, num);
    if WellFormed(rest) {
      TakeForward(st, FirstOf(rest), num);
      TakeAllForward(Take(st, FirstOf(rest), num).0, rest[EntryEnd(rest)..], num);
    }
  }

  lemma {:induction false} ProcessedStep(p: Peer, pkt: Packet)
    requires Disciplined(p) && |pkt.data| >= 1
    ensures PeerStep(p, Processed(p, pkt), Ordinary)
  {
    hide Take, Connects, Reasons, AsksFor, Ends;
    var (state, leaves) := Take(p.state, pkt, p.connectNum);
    TakeForward(p.state, pkt, p.connectNum);
    CallsConcat(p.calls, Dispatches(leaves));
    DispatchesAreQuiet(leaves);
  }

  lemma {:induction false} ReceivedStep(p: Peer, pkt: Packet)
    requires Disciplined(p) && |pkt.data| >= 1
    ensures PeerStep(p, Received(p, pkt).0, if pkt.Property() == PROP_INVALID_PROTOCOL then Refusing else Ordinary)
    ensures Received(p, pkt).1 ==> !Ongoing(Received(p, pkt).0.state) && Received(p, pkt).0.key == p.key
  {
    hide Disciplined, Moves, Forced, Processed, AfterAccept, AcceptMatches, Int64At;
    StaysPut(p, Ordinary);
    StaysPut(p, Refusing);
    ProcessedStep(p, pkt);
    if AcceptMatches(p, pkt) { AcceptedStep(p, pkt); }
    if p.state.Outgoing? {
      if |pkt.data| >= 9 { ForcedStep(p, ConnectionRejected, pkt.data[9..], Ordinary); }
      ForcedStep(p, InvalidProtocol, [], Refusing);
    } else {
      if |pkt.data| >= 9 { ForcedStep(p, RemoteConnectionClose, pkt.data[9..], Ordinary); }
      ForcedStep(p, PeerNotFound, [], Ordinary);
    }
  }

  lemma {:induction false} UpdatedStep(p: Peer, cfg: Config, delta: int)
    requires Disciplined(p)
    ensures PeerStep(p, Updated(p, cfg, delta).0, Ordinary)
    ensures Updated(p, cfg, delta).1 ==>
              !Ongoing(Updated(p, cfg, delta).0.state) && Updated(p, cfg, delta).0.key == p.key
  {
    hide Connects, Reasons, Forced, AsksFor, Ends;
    var q := p.(sinceLastPacket := p.sinceLastPacket + delta);
    if p.state.Outgoing? {
      ForcedStep(q.(connectTimer := 0, attempts := q.attempts + 1), ConnectionFailed, [], Ordinary);
    } else {
      ForcedStep(q, Timeout, [], Ordinary);
    }
  }

  // ------------------------------------------------------------------ what a manager does

  /** Every request has been answered at most once, and the pending ones are exactly those in
      the table. */
  ghost predicate RequestsOk(s: State) {
    && (forall r :: 0 <= r < |s.reqs| ==> |s.reqs[r].answers| == if s.reqs[r].resolved then 1 else 0)
    && (forall k :: k in s.requests ==> s.requests[k] < |s.reqs| && !s.reqs[s.requests[k]].resolved)
    && (forall r :: 0 <= r < |s.reqs| && !s.reqs[r].resolved ==>
          s.reqs[r].internal.key in s.requests && s.requests[s.reqs[r].internal.key] == r)
  }

  ghost predicate EntryOk(s: State, i: int) {
    0 <= i < |s.peers| ==> Disciplined(s.peers[i]) && s.peers[i].id == i + 1
  }

  ghost predicate PeersOk(s: State) {
    forall i :: EntryOk(s, i)
  }

  /** Connecting or connected. */
  predicate Ongoing(c: Conn) { c.Outgoing? || c.Connected? }

  /** Whoever is connecting or connected is the peer its address stands for. */
  ghost predicate Listed(s: State) {
    forall i :: 0 <= i < |s.peers| && Ongoing(s.peers[i].state) ==>
      s.peers[i].key in s.table && s.table[s.peers[i].key] == i
  }

  ghost predicate Inv(s: State) {
    StateOk(s) && RequestsOk(s) && PeersOk(s) && Listed(s)
  }

  /** Connected at some time, or neither handed anything nor shutting down. */
  ghost predicate Untouched(p: Peer) {
    Connects(p.calls) == 1 || (NeverDispatched(p.calls) && !p.state.ShutdownRequested?)
  }

  function HowFor(e: Event, i: nat): How {
    if e.Stop? then Stopping
    else if e.Disconnect? && e.peer == i then Locally
    else if RefusesProtocol(e) then Refusing
    else Ordinary
  }

  /** A datagram that refuses the protocol version. */
  predicate RefusesProtocol(e: Event) {
    e.Datagram? && e.pkt.Verify() && e.pkt.Property() == PROP_INVALID_PROTOCOL
  }

  ghost predicate PeerStepsAt(s: State, t: State, e: Event, i: int) {
    0 <= i < |s.peers| <= |t.peers| ==> PeerStep(s.peers[i], t.peers[i], HowFor(e, i))
  }

  /** Every old peer makes one step, every new one starts out right. */
  ghost predicate PeersStep(s: State, t: State, e: Event) {
    && |s.peers| <= |t.peers|
    && (forall i :: PeerStepsAt(s, t, e, i))
    && (forall i :: |s.peers| <= i < |t.peers| ==>
          Disciplined(t.peers[i]) && Untouched(t.peers[i]) && t.peers[i].id == i + 1)
  }

  lemma {:induction false} PeerMoves(s: State, t: State, e: Event, i: nat)
    requires PeersStep(s, t, e) && i < |s.peers|
    ensures i < |t.peers| && PeerStep(s.peers[i], t.peers[i], HowFor(e, i))
  {
    hide PeerStep, Disciplined, Untouched;
    assert PeerStepsAt(s, t, e, i);
  }

  lemma {:induction false} PeerFacts(s: State, i: nat)
    requires PeersOk(s) && i < |s.peers|
    ensures Disciplined(s.peers[i]) && s.peers[i].id == i + 1
  {
    hide Disciplined;
    assert EntryOk(s, i);
  }

  lemma {:induction false} SamePeers(s: State, t: State)
    requires PeersOk(s) && t.peers == s.peers
    ensures PeersOk(t)
  {
    hide Disciplined;
    forall i: int
      ensures EntryOk(t, i)
    {
      assert EntryOk(s, i);
    }
  }

  lemma {:induction false} NothingHappens(s: State, e: Event)
    requires PeersOk(s)
    ensures PeersStep(s, s, e)
  {
    hide Disciplined, Untouched, Moves, PeerStep;
    forall i | 0 <= i < |s.peers|
      ensures PeerStep(s.peers[i], s.peers[i], HowFor(e, i))
    {
      PeerFacts(s, i);
      StaysPut(s.peers[i], HowFor(e, i));
    }
  }

  lemma {:induction false} PutStep(s: State, i: nat, p: Peer, leaves: bool, e: Event)
    requires StateOk(s) && PeersOk(s) && i < |s.peers| && PeerStep(s.peers[i], p, HowFor(e, i))
    ensures StateOk(Put(s, i, p, leaves)) && PeersStep(s, Put(s, i, p, leaves), e)
  {
    hide Disciplined, Untouched, Moves, PeerStep, PeersOk, HowFor;
    NothingHappens(s, e);
    SameKey(s.peers[i], p, HowFor(e, i));
    forall j: int
      ensures PeerStepsAt(s, Put(s, i, p, leaves), e, j)
    {
      assert PeerStepsAt(s, s, e, j);
    }
  }

  /** Only the peers matter. */
  lemma {:induction false} PeersMatter(s: State, t: State, s': State, t': State, e: Event)
    requires PeersStep(s, t, e) && s'.peers == s.peers && t'.peers == t.peers
    ensures PeersStep(s', t', e)
  {
    hide Disciplined, Untouched, PeerStep, HowFor;
    forall j: int
      ensures PeerStepsAt(s', t', e, j)
    {
      assert PeerStepsAt(s, t, e, j);
    }
  }

  lemma {:induction false} SameKey(p: Peer, q: Peer, how: How)
    requires PeerStep(p, q, how)
    ensures p.key == q.key && p.id == q.id && (Ongoing(q.state) ==> Ongoing(p.state)) && Disciplined(q)
  {
    hide Connects, Reasons, Disciplined;
  }

  lemma {:induction false} NewStep(s: State, p: Peer, e: Event)
    requires StateOk(s) && PeersOk(s) && Listed(s) && Disciplined(p) && Untouched(p)
    requires p.key !in s.table && p.id == |s.peers| + 1
    ensures StateOk(NewPeer(s, p)) && PeersStep(s, NewPeer(s, p), e) && Listed(NewPeer(s, p))
  {
    hide Disciplined, Untouched, PeerStep, PeersOk, HowFor;
    NothingHappens(s, e);
    forall j: int
      ensures PeerStepsAt(s, NewPeer(s, p), e, j)
    {
      assert PeerStepsAt(s, s, e, j);
    }
  }

  lemma {:induction false} OutgoingDisciplined(key: Key, id: nat, now: int64, target: SocketAddress, data: seq<byte>)
    ensures var p := OutgoingPeer(key, id, now, target, data);
            Disciplined(p) && Untouched(p) && p.key == key && p.id == id
  {
    NoCalls();
    RequestAsks(now, id, target, data);
    hide RequestPacket, ToInt32, AsksFor, Ends, Connects, Reasons;
  }

  lemma {:induction false} RequestAsks(now: int64, id: nat, target: SocketAddress, data: seq<byte>)
    ensures AsksFor(RequestPacket(now, 0, ToInt32(id), target, data), now, id)
  {
    RequestReads(now, 0, ToInt32(id), target, data);
    hide RequestPacket, ToInt32, Int64At, Int32At, SpeaksProtocol, IsConnectRequest;
  }

  lemma {:induction false} AcceptedDisciplined(req: ConnReq, id: nat)
    ensures var p := AcceptedPeer(req, id); Disciplined(p) && Untouched(p) && p.key == req.key && p.id == id
  {
    OneCall(PeerConnected);
    hide AcceptPacket, ToInt32, Connects, Reasons;
  }

  /** The request is answered and no longer pending. */
  lemma {:induction false} AnsweredState(s: State, r: nat, accept: bool) returns (t: State)
    requires Inv(s) && r < |s.reqs| && !s.reqs[r].resolved
    ensures var req := s.reqs[r];
            t == s.(reqs := s.reqs[r := req.(resolved := true, answers := req.answers + [accept])],
                    requests := s.requests - {req.internal.key})
    ensures Inv(t)
  {
    hide Disciplined, Ongoing;
    var req := s.reqs[r];
    t := s.(reqs := s.reqs[r := req.(resolved := true, answers := req.answers + [accept])],
            requests := s.requests - {req.internal.key});
    SamePeers(s, t);
  }

  /** Resolving keeps the peers and the tables right. */
  lemma {:induction false} ResolveStep(s: State, r: nat, accept: bool, e: Event)
    requires Inv(s) && r < |s.reqs|
    ensures Inv(Resolve(s, r, accept)) && PeersStep(s, Resolve(s, r, accept), e)
    ensures !accept ==> Resolve(s, r, accept).peers == s.peers
  {
    hide Disciplined, Untouched, Moves, PeerStep, AcceptedPeer, PeersOk, RequestsOk;
    NothingHappens(s, e);
    var req := s.reqs[r];
    AcceptedDisciplined(req.internal, |s.peers| + 1);
    if !req.resolved {
      var t := AnsweredState(s, r, accept);
      PeersMatter(s, s, s, t, e);
      if accept && req.internal.key !in s.table {
        var u := NewPeer(t, AcceptedPeer(req.internal, |t.peers| + 1));
        NewStep(t, AcceptedPeer(req.internal, |t.peers| + 1), e);
        NowDisciplined(t, u, e);
        RequestsStay(t, u);
        PeersMatter(t, u, s, u, e);
      }
    }
  }

  lemma {:induction false} ReplacedStep(s: State, req: ConnReq, e: Event)
    requires Inv(s) && e.Datagram?
    ensures var t := Replaced(s, req).0;
            Inv(t) && PeersStep(s, t, e) && t.reqs == s.reqs && t.requests == s.requests
  {
    hide Disciplined, Untouched, Moves, PeerStep, Forced;
    NothingHappens(s, e);
    if req.key in s.table {
      var p := s.peers[s.table[req.key]];
      PeerFacts(s, s.table[req.key]);
      if !p.state.Outgoing? {
        ForcedStep(p, Reconnect, [], HowFor(e, s.table[req.key]));
        PutKeepsInv(s, s.table[req.key], Forced(p, Reconnect, []).0, true, e);
      }
    }
  }

  lemma {:induction false} ConnectRequestedStep(s: State, cfg: Config, req: ConnReq, e: Event)
    requires Inv(s) && e.Datagram?
    ensures Inv(ConnectRequested(s, cfg, req)) && PeersStep(s, ConnectRequested(s, cfg, req), e)
  {
    hide Disciplined, Untouched, Moves, PeerStep, Resolve, Replaced, RequestsOk, Listed, PeersOk;
    NothingHappens(s, e);
    ReplacedStep(s, req, e);
    var t := Replaced(s, req).0;
    if req.key !in t.requests {
      PendingOk(t, req);
      ResolveStep(Awaiting(t, req), |t.reqs|, false, e);
    } else {
      UpdatedRequestOk(t, req);
    }
    if cfg.accept { PeersMatter(s, t, s, ConnectRequested(s, cfg, req), e); }
  }

  lemma {:induction false} PendingOk(s: State, req: ConnReq)
    requires Inv(s) && req.key !in s.requests
    ensures Inv(Awaiting(s, req))
  {
    hide Disciplined, Ongoing;
    SamePeers(s, Awaiting(s, req));
  }

  lemma {:induction false} UpdatedRequestOk(s: State, req: ConnReq)
    requires Inv(s) && req.key in s.requests
    ensures Inv(s.(reqs := s.reqs[s.requests[req.key] := s.reqs[s.requests[req.key]].(internal := req)]))
  {
    hide Disciplined, Ongoing;
    SamePeers(s, s.(reqs := s.reqs[s.requests[req.key] := s.reqs[s.requests[req.key]].(internal := req)]));
  }

  lemma {:induction false} StopStep(s: State, cfg: Config)
    requires Inv(s)
    ensures Inv(Step(s, cfg, Stop)) && PeersStep(s, Step(s, cfg, Stop), Stop)
  {
    hide Disciplined, Untouched, Moves, PeerStep;
    var t := Step(s, cfg, Stop);
    forall i | 0 <= i < |s.peers|
      ensures PeerStep(s.peers[i], t.peers[i], Stopping) && t.peers[i].key == s.peers[i].key
    {
      PeerFacts(s, i);
      StaysPut(s.peers[i], Stopping);
      LocalStep(s.peers[i], [], 0);
    }
    NowDisciplined(s, t, Stop);
  }

  lemma {:induction false} DatagramStep(s: State, cfg: Config, key: Key, pkt: Packet)
    requires Inv(s)
    ensures Inv(Step(s, cfg, Datagram(key, pkt))) && PeersStep(s, Step(s, cfg, Datagram(key, pkt)), Datagram(key, pkt))
  {
    hide Disciplined, Untouched, Moves, PeerStep, Received, ConnectRequested, IsConnectRequest, SpeaksProtocol;
    var e := Datagram(key, pkt);
    NothingHappens(s, e);
    if pkt.Verify() && pkt.Property() == PROP_CONNECT_REQUEST && SpeaksProtocol(pkt) && IsConnectRequest(pkt) {
      ConnectRequestedStep(s, cfg, RequestOf(key, pkt), e);
    } else if pkt.Verify() && pkt.Property() != PROP_CONNECT_REQUEST && key in s.table {
      PeerFacts(s, s.table[key]);
      ReceivedStep(s.peers[s.table[key]], pkt);
      PutKeepsInv(s, s.table[key], Received(s.peers[s.table[key]], pkt).0, Received(s.peers[s.table[key]], pkt).1, e);
    }
  }

  lemma {:induction false} PutKeepsInv(s: State, i: nat, p: Peer, leaves: bool, e: Event)
    requires Inv(s) && i < |s.peers| && PeerStep(s.peers[i], p, HowFor(e, i))
    requires leaves ==> !Ongoing(p.state) && p.key in s.table && s.table[p.key] == i
    ensures Inv(Put(s, i, p, leaves)) && PeersStep(s, Put(s, i, p, leaves), e)
  {
    hide Disciplined, Untouched, Moves, PeerStep, Ongoing, HowFor, StateOk, RequestsOk, Listed, PeersOk;
    PutStep(s, i, p, leaves, e);
    SameKey(s.peers[i], p, HowFor(e, i));
    PutListed(s, i, p, leaves);
    RequestsStay(s, Put(s, i, p, leaves));
    NowDisciplined(s, Put(s, i, p, leaves), e);
  }

  lemma {:induction false} NowDisciplined(s: State, t: State, e: Event)
    requires PeersOk(s) && PeersStep(s, t, e)
    ensures PeersOk(t)
  {
    hide Disciplined, Untouched, HowFor, Moves, PeerStep;
    forall i: int
      ensures EntryOk(t, i)
    {
      if 0 <= i < |s.peers| {
        PeerFacts(s, i);
        PeerMoves(s, t, e, i);
        SameKey(s.peers[i], t.peers[i], HowFor(e, i));
      }
    }
  }

  lemma {:induction false} RequestsStay(s: State, t: State)
    requires RequestsOk(s) && t.reqs == s.reqs && t.requests == s.requests
    ensures RequestsOk(t)
  {}

  lemma {:induction false} PutListed(s: State, i: nat, p: Peer, leaves: bool)
    requires Listed(s) && i < |s.peers| && p.key == s.peers[i].key && (Ongoing(p.state) ==> Ongoing(s.peers[i].state))
    requires leaves ==> !Ongoing(p.state) && p.key in s.table && s.table[p.key] == i
    ensures Listed(Put(s, i, p, leaves))
  {
    hide Ongoing;
  }

  lemma {:induction false} ConnectStep(s: State, e: Event)
    requires Inv(s) && e.Connect? && e.key !in s.table
    ensures var t := NewPeer(s, OutgoingPeer(e.key, |s.peers| + 1, e.now, e.target, e.data));
            Inv(t) && PeersStep(s, t, e)
  {
    hide Disciplined, Untouched, Moves, PeerStep, OutgoingPeer;
    var p := OutgoingPeer(e.key, |s.peers| + 1, e.now, e.target, e.data);
    OutgoingDisciplined(e.key, |s.peers| + 1, e.now, e.target, e.data);
    NewStep(s, p, e);
    NowDisciplined(s, NewPeer(s, p), e);
  }

  lemma {:induction false} StepMoves(s: State, cfg: Config, e: Event)
    requires Inv(s) && Enabled(s, e)
    ensures Inv(Step(s, cfg, e)) && PeersStep(s, Step(s, cfg, e), e)
  {
    hide Disciplined, Untouched, Moves, PeerStep, Resolve, Updated, DisconnectedLocally, OutgoingPeer;
    NothingHappens(s, e);
    match e
    case Connect(key, now, target, data) =>
      if key !in s.table { ConnectStep(s, e); }
    case Disconnect(i, data, mtu) =>
      PeerFacts(s, i);
      LocalStep(s.peers[i], data, mtu);
      PutKeepsInv(s, i, DisconnectedLocally(s.peers[i], data, mtu), false, e);
    case Answer(r, accept, _) =>
      ResolveStep(s, r, accept, e);
    case Datagram(key, pkt) =>
      DatagramStep(s, cfg, key, pkt);
    case UpdatePeer(key, delta) =>
      var p := s.peers[s.table[key]];
      PeerFacts(s, s.table[key]);
      UpdatedStep(p, cfg, delta);
      PutKeepsInv(s, s.table[key], Updated(p, cfg, delta).0, Updated(p, cfg, delta).1, e);
    case Stop =>
      StopStep(s, cfg);
  }

  // ----------------------------------------------------------------------------- runs

  ghost predicate StepsAt(ss: seq<State>, es: seq<Event>, cfg: Config, i: int) {
    0 <= i < |es| && |ss| == |es| + 1 ==>
      StateOk(ss[i]) && Enabled(ss[i], es[i]) && ss[i + 1] == Step(ss[i], cfg, es[i])
  }

  ghost predicate Run(ss: seq<State>, es: seq<Event>, cfg: Config) {
    |ss| == |es| + 1 && ss[0] == INITIAL && forall i :: StepsAt(ss, es, cfg, i)
  }

  lemma {:induction false} RunStep(ss: seq<State>, es: seq<Event>, cfg: Config, i: nat)
    requires Run(ss, es, cfg) && i < |es|
    ensures StateOk(ss[i]) && Enabled(ss[i], es[i]) && ss[i + 1] == Step(ss[i], cfg, es[i])
  {
    hide Step, Enabled, StateOk;
    assert StepsAt(ss, es, cfg, i);
  }

  lemma {:induction false} RunKeepsInv(ss: seq<State>, es: seq<Event>, cfg: Config, i: nat)
    requires Run(ss, es, cfg) && i < |ss|
    ensures Inv(ss[i])
  {
    hide Step, Enabled;
    if i > 0 {
      RunKeepsInv(ss, es, cfg, i - 1);
      RunStep(ss, es, cfg, i - 1);
      StepMoves(ss[i - 1], cfg, es[i - 1]);
    }
  }

  /** In every run each peer gets at most one connected and at most one disconnected callback;
      one that never connected is only ever reported as failed or rejected; each request is
      answered at most once. */
  lemma {:induction false} CallbackDiscipline(ss: seq<State>, es: seq<Event>, cfg: Config, i: nat)
    requires Run(ss, es, cfg) && i < |ss|
    ensures forall k :: 0 <= k < |ss[i].peers| ==>
              var calls := ss[i].peers[k].calls;
              && Connects(calls) <= 1 && |Reasons(calls)| <= 1
              && (Connects(calls) == 0 && Reasons(calls) != [] ==>
                    Reasons(calls)[0] in {ConnectionFailed, ConnectionRejected})
    ensures forall r :: 0 <= r < |ss[i].reqs| ==> |ss[i].reqs[r].answers| == if ss[i].reqs[r].resolved then 1 else 0
  {
    hide Connects, Reasons, Step, Equipped;
    RunKeepsInv(ss, es, cfg, i);
    forall k: nat | k < |ss[i].peers|
      ensures Disciplined(ss[i].peers[k])
    {
      PeerFacts(ss[i], k);
    }
  }

  /** A peer's state only moves forward and no callback is taken back, over any stretch of a
      run; a disconnected peer is never heard of again. */
  lemma {:induction false} StatesMoveForward(ss: seq<State>, es: seq<Event>, cfg: Config, i: nat, j: nat, k: nat)
    requires Run(ss, es, cfg) && i <= j < |ss| && k < |ss[i].peers|
    ensures k < |ss[j].peers|
    ensures var p, q := ss[i].peers[k], ss[j].peers[k];
            && p.key == q.key && Stage(p.state) <= Stage(q.state) && p.calls <= q.calls
            && (p.state.Disconnected? ==> q.calls == p.calls)
    decreases j
  {
    hide Step, Enabled, Stage, Connects, Reasons;
    if i < j {
      StatesMoveForward(ss, es, cfg, i, j - 1, k);
      RunKeepsInv(ss, es, cfg, j - 1);
      RunStep(ss, es, cfg, j - 1);
      StepMoves(ss[j - 1], cfg, es[j - 1]);
      PeerMoves(ss[j - 1], ss[j], es[j - 1], k);
      StageTransitive(ss[i].peers[k].state, ss[j - 1].peers[k].state, ss[j].peers[k].state);
    }
  }

  lemma {:induction false} StageTransitive(a: Conn, b: Conn, c: Conn)
    ensures Stage(a) <= Stage(b) && Stage(b) <= Stage(c) ==> Stage(a) <= Stage(c)
    ensures Stage(a) <= Stage(b) && a.Disconnected? ==> b.Disconnected?
  {}

  /** In every reachable state each connecting or connected peer is the one its address stands
      for: there is never a second one, and datagrams and updates always reach it. */
  lemma {:induction false} OngoingIsListed(ss: seq<State>, es: seq<Event>, cfg: Config, i: nat, j: nat, k: nat)
    requires Run(ss, es, cfg) && i < |ss| && j < |ss[i].peers| && Ongoing(ss[i].peers[j].state)
    ensures ss[i].peers[j].key in ss[i].table && ss[i].table[ss[i].peers[j].key] == j
    ensures k < |ss[i].peers| && Ongoing(ss[i].peers[k].state) && ss[i].peers[k].key == ss[i].peers[j].key ==> k == j
  {
    hide Step, Enabled, Ongoing;
    RunKeepsInv(ss, es, cfg, i);
  }

  /** Whenever a peer stops being connected, other than by Stop, this very step reports it. */
  lemma {:induction false} ExitIsReported(ss: seq<State>, es: seq<Event>, cfg: Config, i: nat, k: nat)
    requires Run(ss, es, cfg) && i < |es| && k < |ss[i].peers| && es[i] != Stop
    requires ss[i].peers[k].state.Connected?
    ensures k < |ss[i + 1].peers|
    ensures var p, q := ss[i].peers[k], ss[i + 1].peers[k];
            !q.state.Connected? ==> Reasons(p.calls) == [] && |Reasons(q.calls)| == 1
  {
    hide Step, Enabled, Stage, Connects, Reasons;
    RunKeepsInv(ss, es, cfg, i);
    RunStep(ss, es, cfg, i);
    StepMoves(ss[i], cfg, es[i]);
    PeerMoves(ss[i], ss[i + 1], es[i], k);
  }

  // ------------------------------------------------------------- delivery and connection

  lemma {:induction false} UntouchedStep(p: Peer, q: Peer, how: How)
    requires Disciplined(p) && Untouched(p) && PeerStep(p, q, how)
    requires p.state.Outgoing? ==> how != Locally && how != Stopping
    ensures Untouched(q)
  {
    hide Reasons, Connects, Stage;
    CallsConcat(p.calls, q.calls[|p.calls|..]);
    assert q.calls == p.calls + q.calls[|p.calls|..];
  }

  /** The application disconnects peer k, or stops. */
  predicate IsShutdown(e: Event, k: nat) { e.Stop? || (e.Disconnect? && e.peer == k) }

  /** Event j shuts peer k down while it is connecting. */
  ghost predicate ShutsDown(ss: seq<State>, es: seq<Event>, j: int, k: nat) {
    && 0 <= j < |es| && j < |ss| && k < |ss[j].peers|
    && ss[j].peers[k].state.Outgoing? && IsShutdown(es[j], k)
  }

  ghost predicate WasShutDown(ss: seq<State>, es: seq<Event>, i: int, k: nat) {
    exists j :: 0 <= j < i && ShutsDown(ss, es, j, k)
  }

  /** Nothing is delivered to a peer before it is connected, unless the application itself
      disconnected it, or stopped, while it was still connecting. */
  lemma {:induction false} QuietUnlessShutDown(ss: seq<State>, es: seq<Event>, cfg: Config, i: nat, k: nat)
    requires Run(ss, es, cfg) && i < |ss| && k < |ss[i].peers|
    ensures Untouched(ss[i].peers[k]) || WasShutDown(ss, es, i, k)
  {
    hide Step, Enabled, Untouched, Disciplined, Moves;
    if i == 0 {
    } else {
      RunKeepsInv(ss, es, cfg, i - 1);
      RunStep(ss, es, cfg, i - 1);
      StepMoves(ss[i - 1], cfg, es[i - 1]);
      if k < |ss[i - 1].peers| && !ShutsDown(ss, es, i - 1, k) {
        QuietUnlessShutDown(ss, es, cfg, i - 1, k);
        if Untouched(ss[i - 1].peers[k]) {
          PeerFacts(ss[i - 1], k);
          PeerMoves(ss[i - 1], ss[i], es[i - 1], k);
          UntouchedStep(ss[i - 1].peers[k], ss[i].peers[k], HowFor(es[i - 1], k));
        }
      }
    }
  }

  /** A peer that was shut down while connecting stays past being connected. */
  lemma {:induction false} ShutDownStays(ss: seq<State>, es: seq<Event>, cfg: Config, i: nat, k: nat)
    requires Run(ss, es, cfg) && i < |ss| && WasShutDown(ss, es, i, k)
    ensures k < |ss[i].peers| && Stage(ss[i].peers[k].state) >= 2
  {
    hide Inv, ConnectRequested, Received, Updated, Resolve;
    var j :| 0 <= j < i && ShutsDown(ss, es, j, k);
    RunKeepsInv(ss, es, cfg, j);
    RunStep(ss, es, cfg, j);
    ShutDownNow(ss[j], cfg, es[j], k);
    StatesMoveForward(ss, es, cfg, j + 1, i, k);
  }

  lemma {:induction false} ShutDownNow(s: State, cfg: Config, e: Event, k: nat)
    requires Inv(s) && k < |s.peers| && s.peers[k].state.Outgoing? && IsShutdown(e, k)
    ensures k < |Step(s, cfg, e).peers| && Step(s, cfg, e).peers[k].state == ShutdownRequested
  {
    hide RequestsOk, PeersOk, ConnectRequested, Received, Updated, Resolve;
  }

  /** Delivers pkt to the application. */
  ghost predicate HandsOver(s: State, cfg: Config, k: nat, pkt: Packet) {
    && StateOk(s) && k < |s.peers| && pkt.Verify() && pkt.Property() == PROP_UNRELIABLE
    && var t := Step(s, cfg, Datagram(s.peers[k].key, pkt));
       k < |t.peers| && t.peers[k].calls == s.peers[k].calls + [Dispatched(pkt)]
  }

  /** Exactly which peers are handed packets before they are connected: in every run, of the
      listed peers that are neither connected nor done, those that the application
      disconnected, or stopped, while they were connecting. */
  lemma {:induction false} EarlyDeliveryExactly(ss: seq<State>, es: seq<Event>, cfg: Config, i: nat, k: nat)
    requires Run(ss, es, cfg) && i < |ss| && k < |ss[i].peers|
    requires var p := ss[i].peers[k];
             Connects(p.calls) == 0 && !p.state.Disconnected? && p.key in ss[i].table && ss[i].table[p.key] == k
    ensures WasShutDown(ss, es, i, k) <==> exists pkt :: HandsOver(ss[i], cfg, k, pkt)
  {
    hide Step, Connects, Reasons, Inv, Run, WasShutDown, HandsOver, StateOk, Equipped, ShutsDown;
    RunKeepsInv(ss, es, cfg, i);
    var p := ss[i].peers[k];
    ListedFacts(ss[i], k);
    if WasShutDown(ss, es, i, k) {
      ShutDownStays(ss, es, cfg, i, k);
      var pkt := Packet([(32 * p.connectNum) as byte]);
      LivesOn(ss[i], cfg, k, pkt);
    }
    forall pkt | HandsOver(ss[i], cfg, k, pkt)
      ensures WasShutDown(ss, es, i, k)
    {
      OnlyLive(ss[i], cfg, k, pkt);
      QuietUnlessShutDown(ss, es, cfg, i, k);
    }
  }

  lemma {:induction false} ListedFacts(s: State, k: nat)
    requires Inv(s) && k < |s.peers|
    ensures StateOk(s) && Disciplined(s.peers[k])
  {
    hide Disciplined;
    PeerFacts(s, k);
  }

  lemma {:induction false} LivesOn(s: State, cfg: Config, k: nat, pkt: Packet)
    requires StateOk(s) && k < |s.peers| && s.peers[k].key in s.table && s.table[s.peers[k].key] == k
    requires Live(s.peers[k].state) && pkt == Packet([(32 * s.peers[k].connectNum) as byte])
    ensures HandsOver(s, cfg, k, pkt)
  {
    hide Received;
    DispatchedExactly(s.peers[k], pkt);
  }

  lemma {:induction false} OnlyLive(s: State, cfg: Config, k: nat, pkt: Packet)
    requires Inv(s) && HandsOver(s, cfg, k, pkt)
    ensures Live(s.peers[k].state)
  {
    hide Step, Disciplined;
    StepMoves(s, cfg, Datagram(s.peers[k].key, pkt));
    var t := Step(s, cfg, Datagram(s.peers[k].key, pkt));
    PeerMoves(s, t, Datagram(s.peers[k].key, pkt), k);
    assert t.peers[k].calls[|s.peers[k].calls|..] == [Dispatched(pkt)];
    assert Dispatched(pkt) in t.peers[k].calls[|s.peers[k].calls|..];
  }

  lemma {:induction false} DisconnectedState(s: State, cfg: Config, i: nat, data: seq<byte>, mtu: nat)
    returns (t: State)
    requires StateOk(s) && i < |s.peers|
    ensures t == Step(s, cfg, Disconnect(i, data, mtu)) && StateOk(t)
    ensures t == s.(peers := s.peers[i := DisconnectedLocally(s.peers[i], data, mtu)])
    ensures var p := s.peers[i];
            Sends(s, cfg, Disconnect(i, data, mtu))
            == if Ongoing(p.state) then [Addressed(p.key, FarewellPacket(p, data, mtu))] else []
  {
    hide FarewellPacket;
    t := Step(s, cfg, Disconnect(i, data, mtu));
  }

  lemma {:induction false} ReceivedState(s: State, cfg: Config, key: Key, pkt: Packet)
    requires StateOk(s) && key in s.table && pkt.Verify() && pkt.Property() != PROP_CONNECT_REQUEST
    ensures var t := Step(s, cfg, Datagram(key, pkt));
            t.peers == s.peers[s.table[key] := Received(s.peers[s.table[key]], pkt).0]
  {
    hide Received;
  }

  /** But a peer that is disconnected while connecting, or while connected after the
      application was told so, still gets every packet with its connection number. */
  lemma {:induction false} DeliveredAfterDisconnect(s: State, cfg: Config, key: Key, pkt: Packet, data: seq<byte>,
                                                    mtu: nat) returns (t: State, u: State)
    requires StateOk(s) && key in s.table && Disciplined(s.peers[s.table[key]])
    requires pkt.Verify() && pkt.Property() == PROP_UNRELIABLE
    requires pkt.ConnectionNumber() == s.peers[s.table[key]].connectNum
    ensures t == Step(s, cfg, Disconnect(s.table[key], data, mtu)) && StateOk(t)
    ensures u == Step(t, cfg, Datagram(key, pkt)) && |u.peers| == |s.peers|
    ensures var p, q := s.peers[s.table[key]], u.peers[s.table[key]];
            && (p.state.Outgoing? ==> q.calls == [Dispatched(pkt)])
            && (p.state.Connected? ==>
                  q.calls == p.calls + [PeerDisconnected(DisconnectPeerCalled, []), Dispatched(pkt)])
  {
    hide Step, Connects, Reasons, Received, FarewellPacket, AsksFor, Ends;
    var i := s.table[key];
    t := DisconnectedState(s, cfg, i, data, mtu);
    ReceivedState(t, cfg, key, pkt);
    DispatchedExactly(t.peers[i], pkt);
    u := Step(t, cfg, Datagram(key, pkt));
  }

  /** Exactly when an unreliable packet with the right connection number is delivered. */
  lemma {:induction false} DispatchedExactly(p: Peer, pkt: Packet)
    requires pkt.Verify() && pkt.Property() == PROP_UNRELIABLE && pkt.ConnectionNumber() == p.connectNum
    ensures Received(p, pkt).0.calls == p.calls + (if Live(p.state) then [Dispatched(pkt)] else [])
  {
    assert Dispatches([pkt]) == [Dispatched(pkt)] && Dispatches([]) == [];
  }

  /** The shortest such run: connect, disconnect, one packet. */
  lemma {:induction false} DeliveredBeforeConnection(cfg: Config, key: Key, now: int64, target: SocketAddress,
                                                     data: seq<byte>, mtu: nat)
    returns (ss: seq<State>, es: seq<Event>)
    ensures Run(ss, es, cfg)
    ensures es == [Connect(key, now, target, data), Disconnect(0, data, mtu), Datagram(key, Packet([0]))]
    ensures |ss[3].peers| == 1 && ss[3].peers[0].calls == [Dispatched(Packet([0]))]
  {
    hide OutgoingPeer, DisconnectedLocally, Received, ConnectRequested, Updated, Resolve, Inv, PeersStep, Disciplined;
    var e := Connect(key, now, target, data);
    InitialInv();
    StepMoves(INITIAL, cfg, e);
    var a := Step(INITIAL, cfg, e);
    FreshPeer(key, now, target, data);
    assert a.table == map[key := 0] && a.peers == [OutgoingPeer(key, 1, now, target, data)];
    InvIsOk(a);
    assert Disciplined(a.peers[0]);
    var b, c := DeliveredAfterDisconnect(a, cfg, key, Packet([0]), data, mtu);
    ss := [INITIAL, a, b, c];
    es := [e, Disconnect(0, data, mtu), Datagram(key, Packet([0]))];
  }

  lemma {:induction false} FreshPeer(key: Key, now: int64, target: SocketAddress, data: seq<byte>)
    ensures var p := OutgoingPeer(key, 1, now, target, data);
            p.key == key && p.state.Outgoing? && p.connectNum == 0 && p.calls == []
  {}

  lemma {:induction false} EquippedToo(p: Peer)
    requires Disciplined(p)
    ensures Equipped(p)
  {
    hide Equipped;
  }

  lemma {:induction false} InitialInv()
    ensures Inv(INITIAL)
  {}

  lemma {:induction false} InvIsOk(s: State)
    requires Inv(s)
    ensures StateOk(s) && forall i :: 0 <= i < |s.peers| ==> Disciplined(s.peers[i])
  {
    hide Disciplined;
    forall i: nat | i < |s.peers|
      ensures Disciplined(s.peers[i])
    {
      PeerFacts(s, i);
    }
  }

  /** Exactly when a connecting peer that is given up is reported: always, except when the
      step is a datagram that refuses its protocol version. */
  lemma {:induction false} GivenUpIsReported(ss: seq<State>, es: seq<Event>, cfg: Config, i: nat, k: nat)
    requires Run(ss, es, cfg) && i < |es| && k < |ss[i].peers|
    requires ss[i].peers[k].state.Outgoing?
    ensures k < |ss[i + 1].peers|
    ensures ss[i + 1].peers[k].state.Disconnected? ==>
              (Reasons(ss[i + 1].peers[k].calls) != [] <==> !RefusesProtocol(es[i]))
  {
    hide Step, Enabled, Stage, Connects, Reasons, Disciplined;
    RunKeepsInv(ss, es, cfg, i);
    RunStep(ss, es, cfg, i);
    StepMoves(ss[i], cfg, es[i]);
    PeerMoves(ss[i], ss[i + 1], es[i], k);
    if IsShutdown(es[i], k) { ShutDownNow(ss[i], cfg, es[i], k); }
  }

  // ---------------------------------------------------------------------- whole updates

  /** The packets of `sent` that go to one address. */
  function To(sent: seq<Addressed>, key: Key): seq<Packet> {
    if sent == [] then []
    else To(sent[..|sent| - 1], key) + if sent[|sent| - 1].to == key then [sent[|sent| - 1].pkt] else []
  }

  lemma {:induction false} ToConcat(a: seq<Addressed>, b: seq<Addressed>, key: Key)
    ensures To(a + b, key) == To(a, key) + To(b, key)
    decreases |b|
  {
    if b == [] {
      assert a + b == a;
    } else {
      var last := |b| - 1;
      ToConcat(a, b[..last], key);
      assert (a + b)[..|a + b| - 1] == a + b[..last] && (a + b)[|a + b| - 1] == b[last];
    }
  }

  lemma {:induction false} ToOthers(sent: seq<Addressed>, key: Key)
    requires forall x :: x in sent ==> x.to != key
    ensures To(sent, key) == []
  {
    if sent != [] { ToOthers(sent[..|sent| - 1], key); }
  }

  /** What has been sent once all peers but those under `keys` have made their update. */
  ghost predicate SentExcept(was: State, sent: seq<Addressed>, keys: set<Key>, cfg: Config, delta: int)
    requires StateOk(was)
  {
    forall k :: To(sent, k) == if k in keys || k !in was.table then [] else To(Share(was, k, cfg, delta), k)
  }

  /** What the peer of an address sends. */
  function Share(was: State, key: Key, cfg: Config, delta: int): seq<Addressed>
    requires StateOk(was) && key in was.table
  {
    UpdateSends(was.peers[was.table[key]], cfg, delta)
  }

  lemma {:induction false} NextShare(was: State, s: State, keys: set<Key>, key: Key, cfg: Config, delta: int)
    requires StateOk(was) && StateOk(s) && UpdatedExcept(was, s, keys, cfg, delta) && key in keys
    ensures key in s.table && key in was.table
    ensures Sends(s, cfg, UpdatePeer(key, delta)) == Share(was, key, cfg, delta)
  {
    hide Updated, UpdateSends;
    assert s.peers[s.table[key]] == was.peers[was.table[key]];
  }

  lemma {:induction false} SendOneMore(was: State, sent: seq<Addressed>, keys: set<Key>, key: Key, cfg: Config,
                                       delta: int)
    requires StateOk(was) && key in was.table && key in keys && SentExcept(was, sent, keys, cfg, delta)
    ensures SentExcept(was, sent + Share(was, key, cfg, delta), keys - {key}, cfg, delta)
  {
    hide UpdateSends, To;
    var more := Share(was, key, cfg, delta);
    SharesAreOwn(was.peers[was.table[key]], cfg, delta);
    forall k
      ensures To(sent + more, k)
              == if k in keys - {key} || k !in was.table then [] else To(Share(was, k, cfg, delta), k)
    {
      ToConcat(sent, more, k);
      if k != key { ToOthers(more, k); }
    }
  }

  lemma {:induction false} SharesAreOwn(p: Peer, cfg: Config, delta: int)
    ensures forall x :: x in UpdateSends(p, cfg, delta) ==> x.to == p.key
  {}

  /** The peers in the table of `was` have made their update, all but those under `keys`. */
  ghost predicate UpdatedExcept(was: State, s: State, keys: set<Key>, cfg: Config, delta: int) {
    && |s.peers| == |was.peers| && keys <= s.table.Keys
    && (forall k :: k in s.table ==> k in was.table && s.table[k] == was.table[k])
    && (forall k :: k in was.table && was.table[k] < |was.peers| ==>
          var p, q := was.peers[was.table[k]], s.peers[was.table[k]];
          if k in keys then q == p else q == Updated(p, cfg, delta).0 && (k in s.table <==> !Updated(p, cfg, delta).1))
    && (forall i :: 0 <= i < |s.peers| && i !in was.table.Values ==> s.peers[i] == was.peers[i])
  }

  lemma {:induction false} NoneUpdated(s: State, cfg: Config, delta: int)
    requires Inv(s)
    ensures UpdatedExcept(s, s, s.table.Keys, cfg, delta)
  {}

  lemma {:induction false} UpdateOneMore(was: State, s: State, keys: set<Key>, key: Key, cfg: Config, delta: int)
    requires Inv(was) && Inv(s) && UpdatedExcept(was, s, keys, cfg, delta) && key in keys
    ensures key in s.table && UpdatedExcept(was, Step(s, cfg, UpdatePeer(key, delta)), keys - {key}, cfg, delta)
  {
    hide Updated, RequestsOk, PeersOk;
    var i := s.table[key];
    assert i == was.table[key] && i in was.table.Values && s.peers[i] == was.peers[i];
    UpdatedKey(s.peers[i], cfg, delta);
    forall k | k in was.table && k != key
      ensures was.table[k] != i
    {
      assert was.peers[was.table[k]].key == k;
    }
  }

  lemma {:induction false} UpdatedKey(p: Peer, cfg: Config, delta: int)
    ensures Updated(p, cfg, delta).0.key == p.key
  {}

  // ----------------------------------------------------------------------- the code itself

  class Manager {
    const cfg: Config
    var peers: seq<Peer>
    var table: map<Key, nat>
    var reqs: seq<PendingRequest>
    var requests: map<Key, nat>

    function Current(): State
      reads this
    {
      State(peers, table, reqs, requests)
    }

    constructor (cfg: Config)
      ensures this.cfg == cfg && Current() == INITIAL
    {
      this.cfg := cfg;
      peers, table, reqs, requests := [], map[], [], map[];
    }

    method Connect(key: Key, now: int64, target: SocketAddress, data: seq<byte>) returns (sent: seq<Addressed>)
      requires Inv(Current())
      modifies this
      ensures var e := Event.Connect(key, now, target, data);
              Current() == Step(old(Current()), cfg, e) && sent == Sends(old(Current()), cfg, e)
      ensures Inv(Current())
    {
      hide Inv, RequestPacket, ToInt32;
      StepMoves(Current(), cfg, Event.Connect(key, now, target, data));
      if key in table {
        return [];
      }
      var peer := OutgoingPeer(key, |peers| + 1, now, target, data);
      sent := [Addressed(key, peer.requestPacket.value)];
      table := table[key := |peers|];
      peers := peers + [peer];
    }

    method DisconnectPeer(i: nat, data: seq<byte>, mtu: nat) returns (sent: seq<Addressed>)
      requires Inv(Current()) && i < |peers|
      modifies this
      ensures var e := Disconnect(i, data, mtu);
              Current() == Step(old(Current()), cfg, e) && sent == Sends(old(Current()), cfg, e)
      ensures Inv(Current())
    {
      hide Inv, StateOk, Step, Sends, Shutdown, FarewellPacket;
      InvIsOk(Current());
      StepMoves(Current(), cfg, Disconnect(i, data, mtu));
      ghost var t := DisconnectedState(Current(), cfg, i, data, mtu);
      var wasConnected;
      sent, wasConnected := ShutdownPeer(i, data, mtu);
      if !wasConnected {
        return;
      }
      peers := peers[i := Called(peers[i], PeerDisconnected(DisconnectPeerCalled, []))];
    }

    /** Peer i asks for the connection to be ended. */
    method ShutdownPeer(i: nat, data: seq<byte>, mtu: nat) returns (sent: seq<Addressed>, wasConnected: bool)
      requires i < |peers|
      modifies this`peers
      ensures var (p, was) := Shutdown(old(peers)[i], data, mtu, false);
              peers == old(peers)[i := p] && wasConnected == was
      ensures var p := old(peers)[i];
              sent == if Ongoing(p.state) then [Addressed(p.key, FarewellPacket(p, data, mtu))] else []
    {
      var p := peers[i];
      if p.state.Disconnected? || p.state.ShutdownRequested? {
        return [], false;
      }
      wasConnected := p.state.Connected?;
      var payload := seq(|data|, _ => 0 as byte);
      if |data| > 0 && HEADER_SIZE + 8 + |data| < mtu {
        payload := data;
      }
      var farewell := DisconnectPacket(p.connectTime, p.connectNum, payload);
      assert payload == Fitting(data, mtu);
      peers := peers[i := p.(sinceLastPacket := 0, shutdownPacket := Some(farewell), state := ShutdownRequested)];
      sent := [Addressed(p.key, farewell)];
    }

    /** Peer i is given up; it leaves the table only if this is reported. */
    method DisconnectPeerForce(i: nat, reason: Reason, data: seq<byte>)
      requires i < |peers|
      modifies this`peers, this`table
      ensures var (p, leaves) := Forced(old(peers)[i], reason, data); Current() == Put(old(Current()), i, p, leaves)
    {
      var (p, wasConnected) := Shutdown(peers[i], [], 0, true);
      peers := peers[i := p];
      if !wasConnected && reason != ConnectionFailed && reason != ConnectionRejected {
        return;
      }
      table := table - {p.key};
      peers := peers[i := Called(p, PeerDisconnected(reason, data))];
    }

    method ResolveRequest(r: nat, accept: bool, data: seq<byte>) returns (sent: seq<Addressed>)
      requires Inv(Current()) && r < |reqs|
      modifies this
      ensures var e := Answer(r, accept, data);
              Current() == Step(old(Current()), cfg, e) && sent == Sends(old(Current()), cfg, e)
      ensures Inv(Current())
    {
      hide Inv, AcceptPacket, DisconnectPacket, ToInt32;
      StepMoves(Current(), cfg, Answer(r, accept, data));
      if reqs[r].resolved {
        return [];
      }
      var req := reqs[r].internal;
      reqs := reqs[r := reqs[r].(resolved := true, answers := reqs[r].answers + [accept])];
      requests := requests - {req.key};
      if !accept {
        return [Addressed(req.key, DisconnectPacket(req.time, req.number, data))];
      }
      if req.key in table {
        return [];
      }
      var peer := AcceptedPeer(req, |peers| + 1);
      table := table[req.key := |peers|];
      peers := peers + [peer];
      return [Addressed(req.key, peer.acceptPacket.value)];
    }

    /** The peer the request's address stands for makes way, unless it keeps the request out. A
        request that is repeated is answered as before. */
    method ReplacePeer(req: ConnReq) returns (goOn: bool, sent: seq<Addressed>)
      requires StateOk(Current())
      modifies this`peers, this`table
      ensures (Current(), goOn) == Replaced(old(Current()), req)
      ensures sent == if Repeats(old(Current()), req)
                      then Post(req.key, old(peers)[old(table)[req.key]].acceptPacket) else []
      ensures Repeats(old(Current()), req) ==> !goOn
    {
      hide Forced;
      if req.key !in table {
        return true, [];
      }
      var i := table[req.key];
      var p := peers[i];
      match p.state {
        case Outgoing =>
          return false, [];
        case Connected =>
          if req.time == p.connectTime {
            return false, Post(p.key, p.acceptPacket);
          }
          if req.time < p.connectTime {
            return false, [];
          }
          DisconnectPeerForce(i, Reconnect, []);
        case _ =>
          if req.time < p.connectTime {
            return false, [];
          }
          DisconnectPeerForce(i, Reconnect, []);
      }
      ForcedKey(p, Reconnect, []);
      assert table - {req.key} == old(table) - {req.key};
      table := table - {req.key};
      return true, [];
    }

    method ProcessConnectRequest(req: ConnReq) returns (sent: seq<Addressed>)
      requires Inv(Current())
      modifies this
      ensures Current() == ConnectRequested(old(Current()), cfg, req) && Inv(Current())
      ensures sent == RequestSends(old(Current()), cfg, req)
    {
      hide PeersOk, Replaced, RequestsOk, Resolve, AnswerSends, Repeats;
      ghost var e := Datagram(req.key, Packet([]));
      ConnectRequestedStep(Current(), cfg, req, e);
      ReplacedStep(Current(), req, e);
      if !cfg.accept {
        return [];
      }
      var goOn;
      goOn, sent := ReplacePeer(req);
      if !goOn {
        return;
      }
      if req.key in requests {
        var r := requests[req.key];
        reqs := reqs[r := reqs[r].(internal := req)];
        return;
      }
      PendingOk(Current(), req);
      requests := requests[req.key := |reqs|];
      reqs := reqs + [PendingRequest(req, false, [])];
      if !cfg.hasRequestHandler {
        sent := ResolveRequest(|reqs| - 1, false, []);
      }
    }

    lemma {:induction false} ForcedKey(p: Peer, reason: Reason, data: seq<byte>)
      ensures Forced(p, reason, data).0.key == p.key
    {}

    method Receive(key: Key, pkt: Packet) returns (sent: seq<Addressed>)
      requires Inv(Current())
      modifies this
      ensures var e := Datagram(key, pkt);
              Current() == Step(old(Current()), cfg, e) && sent == Sends(old(Current()), cfg, e)
      ensures Inv(Current())
    {
      hide Disciplined, Forced, RequestsOk, AcceptMatches, DisconnectMatches, Processed, AfterAccept;
      hide IsConnectRequest, SpeaksProtocol, ConnectRequested, RequestSends, Notice, PeersOk, Listed, Int64At;
      StepMoves(Current(), cfg, Datagram(key, pkt));
      sent := [];
      if !pkt.Verify() {
        return;
      }
      var prop := pkt.Property();
      if prop == PROP_CONNECT_REQUEST {
        if !SpeaksProtocol(pkt) {
          return [Addressed(key, Notice(PROP_INVALID_PROTOCOL))];
        }
        if IsConnectRequest(pkt) {
          sent := ProcessConnectRequest(RequestOf(key, pkt));
        }
      } else if prop == PROP_CONNECT_ACCEPT {
        if key in table && AcceptMatches(peers[table[key]], pkt) {
          peers := peers[table[key] := AfterAccept(peers[table[key]], pkt)];
        }
      } else if prop == PROP_DISCONNECT {
        if key in table && DisconnectMatches(peers[table[key]], pkt) {
          var reason := RemoteConnectionClose;
          if peers[table[key]].state.Outgoing? {
            reason := ConnectionRejected;
          }
          DisconnectPeerForce(table[key], reason, pkt.data[9..]);
        }
        return [Addressed(key, Notice(PROP_SHUTDOWN_OK))];
      } else if prop == PROP_INVALID_PROTOCOL {
        if key in table && peers[table[key]].state.Outgoing? {
          DisconnectPeerForce(table[key], InvalidProtocol, []);
        }
      } else if prop == PROP_PEER_NOT_FOUND {
        if key in table && peers[table[key]].state.Connected? {
          DisconnectPeerForce(table[key], PeerNotFound, []);
        }
      } else if !Ignored(prop) {
        if key !in table {
          return [Addressed(key, Notice(PROP_PEER_NOT_FOUND))];
        }
        peers := peers[table[key] := Processed(peers[table[key]], pkt)];
      }
    }

    /** One update: every peer in the table makes its step once, in no particular order. */
    method Update(delta: int) returns (sent: seq<Addressed>)
      requires Inv(Current())
      modifies this
      ensures Inv(Current()) && UpdatedExcept(old(Current()), Current(), {}, cfg, delta)
      ensures StateOk(old(Current())) && SentExcept(old(Current()), sent, {}, cfg, delta)
    {
      hide Inv, UpdatedExcept, Updated, StateOk, Sends, Step;
      ghost var was := Current();
      InvIsOk(was);
      NoneUpdated(was, cfg, delta);
      sent := [];
      var keys := table.Keys;
      while keys != {}
        invariant Inv(Current()) && UpdatedExcept(was, Current(), keys, cfg, delta)
        invariant SentExcept(was, sent, keys, cfg, delta)
        decreases |keys|
      {
        var key :| key in keys;
        InvIsOk(Current());
        UpdateOneMore(was, Current(), keys, key, cfg, delta);
        NextShare(was, Current(), keys, key, cfg, delta);
        SendOneMore(was, sent, keys, key, cfg, delta);
        var more := UpdatePeer(key, delta);
        sent := sent + more;
        keys := keys - {key};
      }
    }

    /** One peer's share of an update. */
    method UpdatePeer(key: Key, delta: int) returns (sent: seq<Addressed>)
      requires Inv(Current()) && key in table
      modifies this
      ensures var e := Event.UpdatePeer(key, delta);
              Current() == Step(old(Current()), cfg, e) && sent == Sends(old(Current()), cfg, e)
      ensures Inv(Current())
    {
      hide Inv, Step, Sends, Updated, Put, UpdateSends, Disciplined, AsksFor, Ends, AcceptPacket, ToInt32;
      InvIsOk(Current());
      StepMoves(Current(), cfg, Event.UpdatePeer(key, delta));
      UpdatedState(Current(), cfg, key, delta);
      EquippedToo(peers[table[key]]);
      sent := [];
      var p := peers[table[key]];
      if p.state.Disconnected? && p.sinceLastPacket > cfg.disconnectTimeout {
        table := table - {key};
        assert Current() == old(Current()).(table := old(table) - {key});
        return;
      }
      sent := UpdateState(table[key], delta);
    }

    lemma {:induction false} UpdatedState(s: State, cfg: Config, key: Key, delta: int)
      requires StateOk(s) && key in s.table
      ensures var (p, leaves) := Updated(s.peers[s.table[key]], cfg, delta);
              Step(s, cfg, Event.UpdatePeer(key, delta)) == Put(s, s.table[key], p, leaves)
      ensures Sends(s, cfg, Event.UpdatePeer(key, delta)) == UpdateSends(s.peers[s.table[key]], cfg, delta)
      ensures var p := s.peers[s.table[key]];
              p.state.Disconnected? && p.sinceLastPacket > cfg.disconnectTimeout ==>
                && Step(s, cfg, Event.UpdatePeer(key, delta)) == s.(table := s.table - {key})
                && UpdateSends(p, cfg, delta) == []
    {
      assert s.peers[s.table[key] := s.peers[s.table[key]]] == s.peers;
    }

    /** Peer i notes the time that has passed and does what its state asks for. */
    method UpdateState(i: nat, delta: int) returns (sent: seq<Addressed>)
      requires i < |peers| && !(peers[i].state.Disconnected? && peers[i].sinceLastPacket > cfg.disconnectTimeout)
      requires peers[i].state.Outgoing? ==> peers[i].requestPacket.Some?
      requires peers[i].state.ShutdownRequested? ==> peers[i].shutdownPacket.Some?
      modifies this`peers, this`table
      ensures var (q, leaves) := Updated(old(peers)[i], cfg, delta); Current() == Put(old(Current()), i, q, leaves)
      ensures sent == UpdateSends(old(peers)[i], cfg, delta)
    {
      hide Forced, Retried;
      var p := peers[i];
      p := p.(sinceLastPacket := p.sinceLastPacket + delta);
      sent := [];
      match p.state {
        case Connected =>
          peers := peers[i := p];
          if p.sinceLastPacket > cfg.disconnectTimeout {
            DisconnectPeerForce(i, Timeout, []);
          }
        case ShutdownRequested =>
          sent := UpdateShutdown(i, delta);
        case Outgoing =>
          sent := UpdateOutgoing(i, delta);
        case Disconnected =>
          peers := peers[i := p];
      }
    }

    /** A peer that is shutting down repeats its farewell until it gives up. */
    method UpdateShutdown(i: nat, delta: int) returns (sent: seq<Addressed>)
      requires i < |peers| && peers[i].state.ShutdownRequested? && peers[i].shutdownPacket.Some?
      modifies this`peers
      ensures var (q, leaves) := Updated(old(peers)[i], cfg, delta); Current() == Put(old(Current()), i, q, leaves)
      ensures sent == UpdateSends(old(peers)[i], cfg, delta)
    {
      var p := peers[i];
      p := p.(sinceLastPacket := p.sinceLastPacket + delta);
      if p.sinceLastPacket > cfg.disconnectTimeout {
        peers := peers[i := p.(state := Disconnected)];
        return [];
      }
      p := p.(shutdownTimer := p.shutdownTimer + delta);
      sent := [];
      if p.shutdownTimer >= SHUTDOWN_RESEND_DELAY {
        p := p.(shutdownTimer := 0);
        sent := [Addressed(p.key, p.shutdownPacket.value)];
      }
      peers := peers[i := p];
    }

    /** A connecting peer asks again until it has no attempts left. */
    method UpdateOutgoing(i: nat, delta: int) returns (sent: seq<Addressed>)
      requires i < |peers| && peers[i].state.Outgoing? && peers[i].requestPacket.Some?
      modifies this`peers, this`table
      ensures var (q, leaves) := Updated(old(peers)[i], cfg, delta); Current() == Put(old(Current()), i, q, leaves)
      ensures sent == UpdateSends(old(peers)[i], cfg, delta)
    {
      hide Forced;
      var p := peers[i];
      p := p.(sinceLastPacket := p.sinceLastPacket + delta, connectTimer := p.connectTimer + delta);
      if p.connectTimer <= cfg.reconnectDelay {
        peers := peers[i := p];
        return [];
      }
      p := p.(connectTimer := 0, attempts := p.attempts + 1);
      peers := peers[i := p];
      if p.attempts > cfg.maxAttempts {
        DisconnectPeerForce(i, ConnectionFailed, []);
        return [];
      }
      return [Addressed(p.key, p.requestPacket.value)];
    }
  }
}
