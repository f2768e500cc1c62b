/** Two managers whose connection packets travel over a network that may lose, repeat, delay and
    reorder them: whoever is connected has a counterpart on the other side. */
module Handshakes {
  import opened Bits
  import opened Options
  import opened Packets
  import opened Codec
  import opened Batching
  import opened ConnectionPackets
  import opened Connections

  // ------------------------------------------------------------------ one step of one manager

  /** What never changes about a peer, and what is settled when it connects. */
  ghost predicate Follows(p: Peer, q: Peer) {
    && p.key == q.key && Same(p, q)
    && (Connects(q.calls) == Connects(p.calls) || (p.state.Outgoing? && q.state.Connected?))
  }

  ghost predicate FollowsAt(s: State, t: State, k: int) {
    0 <= k < |s.peers| <= |t.peers| ==> Follows(s.peers[k], t.peers[k])
  }

  ghost predicate Lasts(s: State, t: State) {
    |s.peers| <= |t.peers| && forall k :: FollowsAt(s, t, k)
  }

  lemma {:induction false} StepLasts(s: State, cfg: Config, e: Event)
    requires Inv(s) && Enabled(s, e)
    ensures Inv(Step(s, cfg, e)) && Lasts(s, Step(s, cfg, e))
  {
    hide Step, Inv, Connects, Reasons, Equipped, Same, Stage;
    InvIsOk(s);
    StepMoves(s, cfg, e);
    var t := Step(s, cfg, e);
    forall k | 0 <= k < |s.peers|
      ensures Follows(s.peers[k], t.peers[k])
    {
      PeerMoves(s, t, e, k);
    }
  }

  /** Only a matching acceptance connects a connecting peer. */
  lemma {:induction false} ConnectsByAccept(s: State, cfg: Config, e: Event, k: nat)
    requires Inv(s) && Enabled(s, e) && k < |s.peers| && k < |Step(s, cfg, e).peers|
    requires s.peers[k].state.Outgoing? && Step(s, cfg, e).peers[k].state.Connected?
    ensures e.Datagram? && e.key == s.peers[k].key && e.pkt.Verify() && e.pkt.Property() == PROP_CONNECT_ACCEPT
    ensures AcceptMatches(s.peers[k], e.pkt) && Step(s, cfg, e).peers[k] == AfterAccept(s.peers[k], e.pkt)
  {
    hide RequestsOk, PeersOk, AcceptMatches, ConnectRequested, Disciplined;
    if e.Datagram? {
      ReplacesOnlyOthers(s, cfg, e, k);
    }
  }

  /** A connection request leaves connecting peers alone. */
  lemma {:induction false} ReplacesOnlyOthers(s: State, cfg: Config, e: Event, k: nat)
    requires StateOk(s) && e.Datagram? && k < |s.peers| && s.peers[k].state.Outgoing?
    ensures e.pkt.Verify() && IsConnectRequest(e.pkt) ==>
              var t := ConnectRequested(s, cfg, RequestOf(e.key, e.pkt)); k < |t.peers| && t.peers[k] == s.peers[k]
  {
    hide Forced;
  }

  predicate FromDatagram(e: Event, req: ConnReq) {
    && e.Datagram? && e.pkt.Verify() && e.pkt.Property() == PROP_CONNECT_REQUEST && IsConnectRequest(e.pkt)
    && req == RequestOf(e.key, e.pkt)
  }

  /** Requests come from datagrams, and accepted peers from requests. */
  ghost predicate Comes(s: State, t: State, e: Event) {
    && |s.reqs| <= |t.reqs|
    && (forall r :: 0 <= r < |t.reqs| ==>
          (r < |s.reqs| && t.reqs[r].internal == s.reqs[r].internal) || FromDatagram(e, t.reqs[r].internal))
    && (forall k :: |s.peers| <= k < |t.peers| ==>
          || (e.Connect? && t.peers[k].state.Outgoing? && t.peers[k].acceptPacket.None?)
          || (e.Answer? && e.req < |s.reqs| && t.peers[k] == AcceptedPeer(s.reqs[e.req].internal, k + 1)))
  }

  lemma {:induction false} StepComes(s: State, cfg: Config, e: Event)
    requires Inv(s) && Enabled(s, e)
    ensures Comes(s, Step(s, cfg, e), e)
  {
    hide PeersOk, Listed, Forced, Received, Updated, DisconnectedLocally, Resolve, ConnectRequested, Comes;
    match e
    case Connect(key, now, target, data) => ConnectComes(s, OutgoingPeer(key, |s.peers| + 1, now, target, data), e);
    case Answer(r, accept, data) => ResolveComes(s, r, accept, data);
    case Datagram(key, pkt) =>
      if pkt.Verify() && pkt.Property() == PROP_CONNECT_REQUEST && IsConnectRequest(pkt) {
        RequestComes(s, cfg, RequestOf(key, pkt), e);
      }
      NothingComes(s, Step(s, cfg, e), e);
    case _ => NothingComes(s, Step(s, cfg, e), e);
  }

  lemma {:induction false} NothingComes(s: State, t: State, e: Event)
    ensures t.reqs == s.reqs && |t.peers| == |s.peers| ==> Comes(s, t, e)
  {}

  lemma {:induction false} ConnectComes(s: State, p: Peer, e: Event)
    requires e.Connect? && p.state.Outgoing? && p.acceptPacket.None?
    ensures Comes(s, s, e) && Comes(s, NewPeer(s, p), e)
  {}

  lemma {:induction false} ResolveComes(s: State, r: nat, accept: bool, data: seq<byte>)
    requires r < |s.reqs|
    ensures Comes(s, Resolve(s, r, accept), Answer(r, accept, data))
  {
    hide AcceptedPeer;
  }

  lemma {:induction false} RequestComes(s: State, cfg: Config, req: ConnReq, e: Event)
    requires StateOk(s) && RequestsOk(s) && FromDatagram(e, req)
    ensures Comes(s, ConnectRequested(s, cfg, req), e)
  {
    hide Forced, FromDatagram;
  }

  /** Event j made peer k, to connect to another manager. */
  predicate ConnectedBy(ss: seq<State>, es: seq<Event>, j: int, k: nat) {
    0 <= j && j < |es| && j + 1 < |ss| && es[j].Connect? && |ss[j].peers| <= k < |ss[j + 1].peers|
  }

  /** Exactly which peers have no packet to answer a repeated request with: in every run, those
      that the manager itself set out to connect. */
  lemma {:induction false} NothingToRepeat(ss: seq<State>, es: seq<Event>, cfg: Config, i: nat, k: nat)
    requires Run(ss, es, cfg) && i < |ss| && k < |ss[i].peers|
    ensures ss[i].peers[k].acceptPacket.None? <==> exists j :: j < i && ConnectedBy(ss, es, j, k)
  {
    hide Step, Enabled, Inv, Same, Connects, FromDatagram, AcceptedPeer;
    if i > 0 {
      RunKeepsInv(ss, es, cfg, i - 1);
      RunStep(ss, es, cfg, i - 1);
      StepLasts(ss[i - 1], cfg, es[i - 1]);
      StepComes(ss[i - 1], cfg, es[i - 1]);
      if k < |ss[i - 1].peers| {
        NothingToRepeat(ss, es, cfg, i - 1, k);
        assert FollowsAt(ss[i - 1], ss[i], k);
        SameRequest(ss[i - 1].peers[k], ss[i].peers[k]);
      } else {
        HasAccept(ss[i - 1].reqs, es[i - 1], k);
        assert es[i - 1].Connect? ==> ConnectedBy(ss, es, i - 1, k);
        ThereSince(ss, es, cfg, i - 1, k);
      }
    }
  }

  lemma {:induction false} ThereSince(ss: seq<State>, es: seq<Event>, cfg: Config, i: nat, k: nat)
    requires Run(ss, es, cfg) && i < |ss|
    ensures (exists j :: j < i && ConnectedBy(ss, es, j, k)) ==> k < |ss[i].peers|
  {
    hide Run, Stage;
    if j :| j < i && ConnectedBy(ss, es, j, k) { StatesMoveForward(ss, es, cfg, j + 1, i, k); }
  }

  lemma {:induction false} HasAccept(reqs: seq<PendingRequest>, e: Event, k: nat)
    ensures e.Answer? && e.req < |reqs| ==> AcceptedPeer(reqs[e.req].internal, k + 1).acceptPacket.Some?
  {
    hide AcceptPacket, ToInt32;
  }

  /** Everything a manager sends but the farewells of a stop. */
  function Leaving(s: State, cfg: Config, e: Event): seq<Addressed>
    requires StateOk(s) && Enabled(s, e)
  {
    if e.Stop? then [] else Sends(s, cfg, e)
  }

  /** A peer under this address that asks with this packet. */
  ghost predicate AsksWith(s: State, i: int, key: Key, pkt: Packet) {
    0 <= i < |s.peers| && s.peers[i].key == key && s.peers[i].requestPacket == Some(pkt)
  }

  /** A peer under this address that was accepted with this packet. */
  ghost predicate AcceptsWith(s: State, i: int, key: Key, pkt: Packet) {
    0 <= i < |s.peers| && s.peers[i].key == key && s.peers[i].acceptPacket == Some(pkt)
  }

  ghost predicate Asked(s: State, key: Key, pkt: Packet) { exists i :: AsksWith(s, i, key, pkt) }

  ghost predicate AcceptSent(s: State, key: Key, pkt: Packet) { exists i :: AcceptsWith(s, i, key, pkt) }

  /** Requests and acceptances that leave are those of the manager's own peers. */
  ghost predicate Owned(t: State, sent: seq<Addressed>) {
    forall x :: x in sent && x.pkt.Verify() ==>
      && (x.pkt.Property() == PROP_CONNECT_REQUEST ==> Asked(t, x.to, x.pkt))
      && (x.pkt.Property() == PROP_CONNECT_ACCEPT ==> AcceptSent(t, x.to, x.pkt))
  }

  lemma {:induction false} OwnedRequest(t: State, i: nat, key: Key, pkt: Option<Packet>)
    requires i < |t.peers| && t.peers[i].key == key && t.peers[i].requestPacket == pkt && Equipped(t.peers[i])
    ensures Owned(t, Post(key, pkt))
  {
    hide SpeaksProtocol, IsConnectRequest, Int64At, Int32At, ToInt32;
    if pkt.Some? { assert AsksWith(t, i, key, pkt.value); }
  }

  lemma {:induction false} OwnedAccept(t: State, i: nat, key: Key, pkt: Option<Packet>)
    requires i < |t.peers| && t.peers[i].key == key && t.peers[i].acceptPacket == pkt && Equipped(t.peers[i])
    ensures Owned(t, Post(key, pkt))
  {
    hide AsksFor, Ends, AcceptPacket, ToInt32;
    if pkt.Some? {
      var p := t.peers[i];
      AcceptReads(p.connectTime, p.connectNum, ToInt32(p.id));
      assert AcceptsWith(t, i, key, pkt.value);
    }
  }

  lemma {:induction false} OwnedOther(t: State, sent: seq<Addressed>)
    requires forall x :: x in sent ==>
               |x.pkt.data| >= 1 && x.pkt.Property() != PROP_CONNECT_REQUEST && x.pkt.Property() != PROP_CONNECT_ACCEPT
    ensures Owned(t, sent)
  {}

  lemma {:induction false} OwnedFarewell(t: State, key: Key, time: int64, num: ConnectionNumber, data: seq<byte>)
    ensures Owned(t, [Addressed(key, DisconnectPacket(time, num, data))])
  {
    DisconnectReads(time, num, data);
    hide DisconnectPacket, Owned, Int64At;
    OwnedOther(t, [Addressed(key, DisconnectPacket(time, num, data))]);
  }

  lemma {:induction false} OwnedAnswer(s: State, r: nat, accept: bool, data: seq<byte>)
    requires Inv(s) && r < |s.reqs| && Inv(Resolve(s, r, accept))
    ensures Owned(Resolve(s, r, accept), AnswerSends(s, r, accept, data))
  {
    hide Owned, Disciplined, RequestsOk, Listed, AcceptPacket, ToInt32, DisconnectPacket;
    var req, t := s.reqs[r].internal, Resolve(s, r, accept);
    OwnedOther(t, []);
    if !s.reqs[r].resolved {
      if !accept {
        OwnedFarewell(t, req.key, req.time, req.number, data);
      } else if req.key !in s.table {
        AcceptedDisciplined(req, |s.peers| + 1);
        EquippedToo(AcceptedPeer(req, |s.peers| + 1));
        OwnedAccept(t, |s.peers|, req.key, AcceptedPeer(req, |s.peers| + 1).acceptPacket);
      }
    }
  }

  lemma {:induction false} OwnedReply(s: State, cfg: Config, req: ConnReq)
    requires Inv(s)
    ensures Owned(ConnectRequested(s, cfg, req), RequestSends(s, cfg, req))
  {
    hide Owned, Disciplined, RequestsOk, Listed, DisconnectPacket, Forced, Post, AnswerSends;
    var t := ConnectRequested(s, cfg, req);
    OwnedOther(t, []);
    if cfg.accept {
      if Repeats(s, req) {
        var i := s.table[req.key];
        PeerFacts(s, i);
        EquippedToo(s.peers[i]);
        OwnedAccept(s, i, req.key, s.peers[i].acceptPacket);
      } else if !cfg.hasRequestHandler {
        OwnedRejection(s, req);
      }
    }
  }

  lemma {:induction false} OwnedRejection(s: State, req: ConnReq)
    requires StateOk(s)
    ensures var t := Awaiting(Replaced(s, req).0, req); var r := |t.reqs| - 1;
            Owned(Resolve(t, r, false), AnswerSends(t, r, false, []))
  {
    hide Owned, DisconnectPacket, Replaced;
    var t := Awaiting(Replaced(s, req).0, req);
    OwnedFarewell(Resolve(t, |t.reqs| - 1, false), req.key, req.time, req.number, []);
  }

  lemma {:induction false} OwnedLast(t: State, p: Peer)
    requires Equipped(p)
    ensures Owned(t, Post(p.key, p.shutdownPacket))
  {
    hide Owned, AsksFor, Int64At;
    OwnedOther(t, Post(p.key, p.shutdownPacket));
  }

  lemma {:induction false} OwnedUpdate(s: State, t: State, i: nat, cfg: Config, delta: int)
    requires i < |s.peers| && i < |t.peers| && Equipped(s.peers[i]) && Equipped(t.peers[i])
    requires s.peers[i].key == t.peers[i].key && s.peers[i].requestPacket == t.peers[i].requestPacket
    ensures Owned(t, UpdateSends(s.peers[i], cfg, delta))
  {
    hide Owned, AsksFor, Post;
    var p := s.peers[i];
    OwnedOther(t, []);
    OwnedRequest(t, i, p.key, p.requestPacket);
    OwnedLast(t, p);
  }

  lemma {:induction false} OwnedDatagram(s: State, cfg: Config, key: Key, pkt: Packet)
    requires Inv(s)
    ensures Owned(Step(s, cfg, Datagram(key, pkt)), Sends(s, cfg, Datagram(key, pkt)))
  {
    hide Owned, Inv, RequestSends, Notice, ConnectRequested, Received, SpeaksProtocol, IsConnectRequest;
    InvIsOk(s);
    var t := Step(s, cfg, Datagram(key, pkt));
    OwnedOther(t, []);
    OwnedOther(t, [Addressed(key, Notice(PROP_INVALID_PROTOCOL))]);
    OwnedOther(t, [Addressed(key, Notice(PROP_SHUTDOWN_OK))]);
    OwnedOther(t, [Addressed(key, Notice(PROP_PEER_NOT_FOUND))]);
    if pkt.Verify() && IsConnectRequest(pkt) { OwnedReply(s, cfg, RequestOf(key, pkt)); }
  }

  lemma {:induction false} StepOwned(s: State, cfg: Config, e: Event)
    requires Inv(s) && Enabled(s, e)
    ensures Owned(Step(s, cfg, e), Leaving(s, cfg, e))
  {
    hide Owned, Disciplined, Same, RequestsOk, Listed, Resolve, AnswerSends, UpdateSends, Updated, DatagramSends;
    hide ToInt32, RequestPacket, DisconnectPacket, Connects, DisconnectedLocally, ConnectRequested;
    StepLasts(s, cfg, e);
    var t := Step(s, cfg, e);
    OwnedOther(t, []);
    match e
    case Connect(key, now, target, data) =>
      if key !in s.table {
        PeerFacts(t, |s.peers|);
        EquippedToo(t.peers[|s.peers|]);
        OwnedRequest(t, |s.peers|, key, OutgoingPeer(key, |s.peers| + 1, now, target, data).requestPacket);
      }
    case Disconnect(i, data, mtu) =>
      var p := s.peers[i];
      OwnedFarewell(t, p.key, p.connectTime, p.connectNum, Fitting(data, mtu));
    case Answer(r, accept, data) =>
      OwnedAnswer(s, r, accept, data);
    case Datagram(key, pkt) =>
      OwnedDatagram(s, cfg, key, pkt);
    case UpdatePeer(key, delta) =>
      var i := s.table[key];
      PeerFacts(s, i);
      PeerFacts(t, i);
      EquippedToo(s.peers[i]);
      EquippedToo(t.peers[i]);
      assert FollowsAt(s, t, i);
      SameRequest(s.peers[i], t.peers[i]);
      OwnedUpdate(s, t, i, cfg, delta);
    case Stop =>
  }

  lemma {:induction false} SameRequest(p: Peer, q: Peer)
    requires Follows(p, q)
    ensures p.key == q.key && p.requestPacket == q.requestPacket && p.acceptPacket == q.acceptPacket
  {}

  // ---------------------------------------------------------------------------- the network

  /** Two managers, and every request and acceptance that either ever sent to the other. */
  datatype Net = Net(a: State, b: State, toA: set<Packet>, toB: set<Packet>)

  /** `keyA` is the address of the first manager as the second sees it, `keyB` the other way. */
  datatype Setup = Setup(cfgA: Config, cfgB: Config, keyA: Key, keyB: Key)

  datatype Action = AtA(e: Event) | AtB(e: Event)

  predicate IsHandshake(pkt: Packet) {
    pkt.Verify() && (pkt.Property() == PROP_CONNECT_REQUEST || pkt.Property() == PROP_CONNECT_ACCEPT)
  }

  /** A request or acceptance arrives under an address only if it was sent from there, maybe
      long ago or before. Any other datagram may arrive, and anything from other addresses. */
  predicate MayHappen(s: State, e: Event, key: Key, wire: set<Packet>) {
    Enabled(s, e) && (e.Datagram? && e.key == key && IsHandshake(e.pkt) ==> e.pkt in wire)
  }

  predicate Allowed(n: Net, x: Action, u: Setup) {
    match x
    case AtA(e) => MayHappen(n.a, e, u.keyB, n.toA)
    case AtB(e) => MayHappen(n.b, e, u.keyA, n.toB)
  }

  function Mailed(sent: seq<Addressed>, key: Key): set<Packet> {
    set x | x in sent && x.to == key && IsHandshake(x.pkt) :: x.pkt
  }

  function Next(n: Net, x: Action, u: Setup): Net
    requires StateOk(n.a) && StateOk(n.b) && Allowed(n, x, u)
  {
    match x
    case AtA(e) => n.(a := Step(n.a, u.cfgA, e), toB := n.toB + Mailed(Leaving(n.a, u.cfgA, e), u.keyB))
    case AtB(e) => n.(b := Step(n.b, u.cfgB, e), toA := n.toA + Mailed(Leaving(n.b, u.cfgB, e), u.keyA))
  }

  const SILENCE := Net(INITIAL, INITIAL, {}, {})

  ghost predicate NextAt(ns: seq<Net>, xs: seq<Action>, u: Setup, i: int) {
    0 <= i < |xs| && |ns| == |xs| + 1 ==>
      StateOk(ns[i].a) && StateOk(ns[i].b) && Allowed(ns[i], xs[i], u) && ns[i + 1] == Next(ns[i], xs[i], u)
  }

  ghost predicate NetRun(ns: seq<Net>, xs: seq<Action>, u: Setup) {
    |ns| == |xs| + 1 && ns[0] == SILENCE && forall i :: NextAt(ns, xs, u, i)
  }

  // -------------------------------------------------------------------- what the network keeps

  /** Peer i asked for its connection under this address, and has it. */
  ghost predicate GotThrough(s: State, i: int, key: Key) {
    && 0 <= i < |s.peers| && s.peers[i].key == key
    && s.peers[i].requestPacket.Some? && Connects(s.peers[i].calls) == 1
  }

  /** The request stands for a packet that a peer of s under this address asks with. */
  ghost predicate StandsFor(s: State, key: Key, req: ConnReq) {
    exists pkt :: Asked(s, key, pkt) && IsConnectRequest(pkt) && req == RequestOf(req.key, pkt)
  }

  function ReqOf(q: Peer, data: seq<byte>): ConnReq { ConnReq(q.key, q.connectTime, q.connectNum, q.remoteId, data) }

  ghost predicate WasAsked(s: State, key: Key, q: Peer) {
    exists data :: StandsFor(s, key, ReqOf(q, data))
  }

  /** q was accepted under this address, and p knows it by its time, number and id. */
  ghost predicate Counterpart(p: Peer, q: Peer, key: Key) {
    && q.key == key && q.acceptPacket.Some?
    && p.connectTime == q.connectTime && p.connectNum == q.connectNum && p.remoteId == ToInt32(q.id)
  }

  ghost predicate HasCounterpart(p: Peer, s: State, key: Key) {
    exists j :: 0 <= j < |s.peers| && Counterpart(p, s.peers[j], key)
  }

  ghost predicate WireOk(n: Net, u: Setup) {
    && (forall pkt :: pkt in n.toB && pkt.Verify() && pkt.Property() == PROP_CONNECT_REQUEST ==>
          Asked(n.a, u.keyB, pkt))
    && (forall pkt :: pkt in n.toA && pkt.Verify() && pkt.Property() == PROP_CONNECT_ACCEPT ==>
          AcceptSent(n.b, u.keyA, pkt))
  }

  ghost predicate RequestsStand(a: State, b: State, u: Setup) {
    forall r :: 0 <= r < |b.reqs| && b.reqs[r].internal.key == u.keyA ==> StandsFor(a, u.keyB, b.reqs[r].internal)
  }

  ghost predicate AcceptedStand(a: State, b: State, u: Setup) {
    forall j :: 0 <= j < |b.peers| && b.peers[j].key == u.keyA && b.peers[j].acceptPacket.Some? ==>
      WasAsked(a, u.keyB, b.peers[j])
  }

  ghost predicate ConnectedStand(a: State, b: State, u: Setup) {
    forall i :: GotThrough(a, i, u.keyB) ==> HasCounterpart(a.peers[i], b, u.keyA)
  }

  ghost predicate NetInv(n: Net, u: Setup) {
    && Inv(n.a) && Inv(n.b) && WireOk(n, u)
    && RequestsStand(n.a, n.b, u) && AcceptedStand(n.a, n.b, u) && ConnectedStand(n.a, n.b, u)
  }

  lemma {:induction false} AskedLasts(s: State, t: State, key: Key, pkt: Packet)
    requires Lasts(s, t) && Asked(s, key, pkt)
    ensures Asked(t, key, pkt)
  {
    hide Connects;
    var i :| AsksWith(s, i, key, pkt);
    assert FollowsAt(s, t, i) && AsksWith(t, i, key, pkt);
  }

  lemma {:induction false} AcceptLasts(s: State, t: State, key: Key, pkt: Packet)
    requires Lasts(s, t) && AcceptSent(s, key, pkt)
    ensures AcceptSent(t, key, pkt)
  {
    hide Connects;
    var i :| AcceptsWith(s, i, key, pkt);
    assert FollowsAt(s, t, i) && AcceptsWith(t, i, key, pkt);
  }

  lemma {:induction false} StandsLasts(s: State, t: State, key: Key, req: ConnReq)
    requires Lasts(s, t) && StandsFor(s, key, req)
    ensures StandsFor(t, key, req)
  {
    hide Asked, Lasts, RequestOf, IsConnectRequest;
    var pkt :| Asked(s, key, pkt) && IsConnectRequest(pkt) && req == RequestOf(req.key, pkt);
    AskedLasts(s, t, key, pkt);
  }

  lemma {:induction false} WasAskedLasts(s: State, t: State, key: Key, q: Peer)
    requires Lasts(s, t) && WasAsked(s, key, q)
    ensures WasAsked(t, key, q)
  {
    hide StandsFor, Lasts;
    var data :| StandsFor(s, key, ReqOf(q, data));
    StandsLasts(s, t, key, ReqOf(q, data));
  }

  /** Only connecting peers may still change their number and remote id. */
  lemma {:induction false} StillAccepted(p: Peer, q: Peer)
    requires Disciplined(p) && Follows(p, q) && (p.acceptPacket.Some? || Connects(p.calls) == 1)
    ensures q.key == p.key && q.id == p.id && q.connectTime == p.connectTime && q.connectNum == p.connectNum
    ensures q.remoteId == p.remoteId && q.requestPacket == p.requestPacket && q.acceptPacket == p.acceptPacket
  {
    hide AsksFor, Ends, Reasons, ToInt32, AcceptPacket;
    NoCalls();
  }

  lemma {:induction false} CounterpartLasts(p: Peer, s: State, t: State, key: Key)
    requires Inv(s) && Lasts(s, t) && HasCounterpart(p, s, key)
    ensures HasCounterpart(p, t, key)
  {
    hide Inv, Follows, Disciplined, ToInt32;
    InvIsOk(s);
    var j :| 0 <= j < |s.peers| && Counterpart(p, s.peers[j], key);
    assert FollowsAt(s, t, j);
    StillAccepted(s.peers[j], t.peers[j]);
    assert Counterpart(p, t.peers[j], key);
  }

  // ------------------------------------------------------------------- a step of the asking side

  lemma {:induction false} AskingKeepsWire(n: Net, e: Event, u: Setup)
    requires NetInv(n, u) && MayHappen(n.a, e, u.keyB, n.toA)
    ensures WireOk(Next(n, AtA(e), u), u)
  {
    hide Inv, Step, Leaving, Asked, AcceptSent, Lasts, Enabled;
    InvIsOk(n.a);
    InvIsOk(n.b);
    var m, sent := Next(n, AtA(e), u), Leaving(n.a, u.cfgA, e);
    StepLasts(n.a, u.cfgA, e);
    StepOwned(n.a, u.cfgA, e);
    forall pkt | pkt in m.toB && pkt.Verify() && pkt.Property() == PROP_CONNECT_REQUEST
      ensures Asked(m.a, u.keyB, pkt)
    {
      if pkt in n.toB { AskedLasts(n.a, m.a, u.keyB, pkt); }
    }
  }

  lemma {:induction false} AskingKeepsRequests(a: State, t: State, b: State, u: Setup)
    requires Lasts(a, t) && RequestsStand(a, b, u) && AcceptedStand(a, b, u)
    ensures RequestsStand(t, b, u) && AcceptedStand(t, b, u)
  {
    hide Lasts, StandsFor, WasAsked;
    forall r | 0 <= r < |b.reqs| && b.reqs[r].internal.key == u.keyA
      ensures StandsFor(t, u.keyB, b.reqs[r].internal)
    {
      StandsLasts(a, t, u.keyB, b.reqs[r].internal);
    }
    forall j | 0 <= j < |b.peers| && b.peers[j].key == u.keyA && b.peers[j].acceptPacket.Some?
      ensures WasAsked(t, u.keyB, b.peers[j])
    {
      WasAskedLasts(a, t, u.keyB, b.peers[j]);
    }
  }

  /** A peer that gets through in this step was sent an acceptance, and its sender is its
      counterpart. */
  lemma {:induction false} AskingKeepsConnected(n: Net, e: Event, u: Setup)
    requires NetInv(n, u) && MayHappen(n.a, e, u.keyB, n.toA)
    ensures ConnectedStand(Next(n, AtA(e), u).a, n.b, u)
  {
    hide Inv, Step, Leaving, Asked, AcceptSent, RequestsStand, AcceptedStand, Disciplined, Connects, Follows, Enabled;
    hide HasCounterpart, Same;
    InvIsOk(n.a);
    InvIsOk(n.b);
    var t := Step(n.a, u.cfgA, e);
    StepLasts(n.a, u.cfgA, e);
    InvIsOk(t);
    forall i | GotThrough(t, i, u.keyB)
      ensures HasCounterpart(t.peers[i], n.b, u.keyA)
    {
      StepGetsThrough(n, e, u, i);
    }
  }

  lemma {:induction false} StepGetsThrough(n: Net, e: Event, u: Setup, i: nat)
    requires NetInv(n, u) && MayHappen(n.a, e, u.keyB, n.toA)
    requires StateOk(n.a) && GotThrough(Step(n.a, u.cfgA, e), i, u.keyB)
    ensures HasCounterpart(Step(n.a, u.cfgA, e).peers[i], n.b, u.keyA)
  {
    hide Inv, Step, Asked, AcceptSent, RequestsStand, AcceptedStand, Disciplined, Connects, HasCounterpart;
    hide AcceptMatches, AfterAccept, AcceptedPeer;
    var s, t := n.a, Step(n.a, u.cfgA, e);
    StepLasts(s, u.cfgA, e);
    StepComes(s, u.cfgA, e);
    InvIsOk(s);
    InvIsOk(t);
    if i >= |s.peers| {
      NewcomersWait(s, t, e, i);
    } else {
      var p, q := s.peers[i], t.peers[i];
      assert FollowsAt(s, t, i);
      if Connects(p.calls) == Connects(q.calls) {
        StillAccepted(p, q);
        assert GotThrough(s, i, u.keyB);
        SameCounterpart(p, q, n.b, u.keyA);
      } else {
        ConnectsByAccept(s, u.cfgA, e, i);
        CounterpartFound(n.b, u.keyA, p, e.pkt);
      }
    }
  }

  lemma {:induction false} NewcomersWait(s: State, t: State, e: Event, k: nat)
    requires Comes(s, t, e) && |s.peers| <= k < |t.peers| && Disciplined(t.peers[k]) && t.peers[k].requestPacket.Some?
    ensures Connects(t.peers[k].calls) == 0
  {
    hide Reasons, AsksFor, Ends, FromDatagram;
    NoCalls();
  }

  lemma {:induction false} SameCounterpart(p: Peer, q: Peer, s: State, key: Key)
    requires HasCounterpart(p, s, key)
    requires q.connectTime == p.connectTime && q.connectNum == p.connectNum && q.remoteId == p.remoteId
    ensures HasCounterpart(q, s, key)
  {
    hide ToInt32;
    var j :| 0 <= j < |s.peers| && Counterpart(p, s.peers[j], key);
    assert Counterpart(q, s.peers[j], key);
  }

  /** An acceptance that matches names the peer that sent it. */
  lemma {:induction false} CounterpartFound(s: State, key: Key, p: Peer, pkt: Packet)
    requires Inv(s) && AcceptSent(s, key, pkt) && AcceptMatches(p, pkt)
    ensures HasCounterpart(AfterAccept(p, pkt), s, key)
  {
    hide Inv, Disciplined, ToInt32, Int64At, Int32At, AcceptPacket, AsksFor, Ends;
    InvIsOk(s);
    var j :| AcceptsWith(s, j, key, pkt);
    var q := s.peers[j];
    EquippedToo(q);
    AcceptReads(q.connectTime, q.connectNum, ToInt32(q.id));
    assert Counterpart(AfterAccept(p, pkt), q, key);
  }

  // ----------------------------------------------------------------- a step of the asked side

  lemma {:induction false} AskedKeepsWire(n: Net, e: Event, u: Setup)
    requires NetInv(n, u) && MayHappen(n.b, e, u.keyA, n.toB)
    ensures WireOk(Next(n, AtB(e), u), u)
  {
    hide Inv, Step, Leaving, Asked, AcceptSent, Lasts, Enabled;
    InvIsOk(n.a);
    InvIsOk(n.b);
    var m, sent := Next(n, AtB(e), u), Leaving(n.b, u.cfgB, e);
    StepLasts(n.b, u.cfgB, e);
    StepOwned(n.b, u.cfgB, e);
    forall pkt | pkt in m.toA && pkt.Verify() && pkt.Property() == PROP_CONNECT_ACCEPT
      ensures AcceptSent(m.b, u.keyA, pkt)
    {
      if pkt in n.toA { AcceptLasts(n.b, m.b, u.keyA, pkt); }
    }
  }

  /** A new request was sent by the other side. */
  lemma {:induction false} AskedKeepsRequests(n: Net, e: Event, u: Setup)
    requires NetInv(n, u) && MayHappen(n.b, e, u.keyA, n.toB)
    ensures RequestsStand(n.a, Next(n, AtB(e), u).b, u)
  {
    hide Inv, Step, Leaving, Asked, AcceptSent, AcceptedStand, ConnectedStand, IsConnectRequest, RequestOf, Enabled;
    InvIsOk(n.a);
    InvIsOk(n.b);
    var t := Next(n, AtB(e), u).b;
    StepComes(n.b, u.cfgB, e);
    forall r | 0 <= r < |t.reqs| && t.reqs[r].internal.key == u.keyA
      ensures StandsFor(n.a, u.keyB, t.reqs[r].internal)
    {
      if !(r < |n.b.reqs| && t.reqs[r].internal == n.b.reqs[r].internal) {
        NewRequestStands(n, e, u, t.reqs[r].internal);
      }
    }
  }

  lemma {:induction false} NewRequestStands(n: Net, e: Event, u: Setup, req: ConnReq)
    requires WireOk(n, u) && MayHappen(n.b, e, u.keyA, n.toB) && FromDatagram(e, req) && req.key == u.keyA
    ensures StandsFor(n.a, u.keyB, req)
  {
    hide Asked, AcceptSent, IsConnectRequest, Enabled, Int64At, Int32At;
    assert Asked(n.a, u.keyB, e.pkt);
  }

  /** A new peer was accepted because of a request. */
  lemma {:induction false} AskedKeepsAccepted(n: Net, e: Event, u: Setup)
    requires NetInv(n, u) && MayHappen(n.b, e, u.keyA, n.toB)
    ensures AcceptedStand(n.a, Next(n, AtB(e), u).b, u)
  {
    hide Inv, Step, Leaving, WasAsked, StandsFor, WireOk, ConnectedStand, Enabled;
    hide FromDatagram, AcceptedPeer, Disciplined;
    hide Same;
    InvIsOk(n.a);
    InvIsOk(n.b);
    var s, t := n.b, Next(n, AtB(e), u).b;
    StepLasts(s, u.cfgB, e);
    StepComes(s, u.cfgB, e);
    forall j | 0 <= j < |t.peers| && t.peers[j].key == u.keyA && t.peers[j].acceptPacket.Some?
      ensures WasAsked(n.a, u.keyB, t.peers[j])
    {
      if j < |s.peers| {
        assert FollowsAt(s, t, j);
        StaysAsked(n.a, u.keyB, s.peers[j], t.peers[j]);
      } else {
        NewPeerWasAsked(n.a, u.keyB, s.reqs[e.req].internal, j + 1);
      }
    }
  }

  lemma {:induction false} StaysAsked(s: State, key: Key, p: Peer, q: Peer)
    requires Disciplined(p) && Follows(p, q) && q.acceptPacket.Some?
    ensures p.key == q.key && p.acceptPacket.Some? && (WasAsked(s, key, p) ==> WasAsked(s, key, q))
  {
    hide Disciplined, StandsFor;
    SameRequest(p, q);
    StillAccepted(p, q);
    if WasAsked(s, key, p) {
      var data :| StandsFor(s, key, ReqOf(p, data));
      assert StandsFor(s, key, ReqOf(q, data));
    }
  }

  lemma {:induction false} NewPeerWasAsked(s: State, key: Key, req: ConnReq, id: nat)
    ensures AcceptedPeer(req, id).key == req.key
    ensures StandsFor(s, key, req) ==> WasAsked(s, key, AcceptedPeer(req, id))
  {
    hide StandsFor, AcceptPacket, ToInt32;
    assert ReqOf(AcceptedPeer(req, id), req.data) == req;
  }

  lemma {:induction false} AskedKeepsConnected(n: Net, e: Event, u: Setup)
    requires NetInv(n, u) && MayHappen(n.b, e, u.keyA, n.toB)
    ensures ConnectedStand(n.a, Next(n, AtB(e), u).b, u)
  {
    hide Inv, Step, Leaving, WireOk, RequestsStand, AcceptedStand, HasCounterpart, Lasts, Connects, Enabled;
    InvIsOk(n.a);
    InvIsOk(n.b);
    var t := Next(n, AtB(e), u).b;
    StepLasts(n.b, u.cfgB, e);
    forall i | GotThrough(n.a, i, u.keyB)
      ensures HasCounterpart(n.a.peers[i], t, u.keyA)
    {
      CounterpartLasts(n.a.peers[i], n.b, t, u.keyA);
    }
  }

  lemma {:induction false} NextKeepsInv(n: Net, x: Action, u: Setup)
    requires NetInv(n, u) && Allowed(n, x, u)
    ensures StateOk(n.a) && StateOk(n.b) && NetInv(Next(n, x, u), u)
  {
    hide Inv, Step, Leaving, Enabled, Lasts, WireOk, RequestsStand, AcceptedStand, ConnectedStand;
    InvIsOk(n.a);
    InvIsOk(n.b);
    match x
    case AtA(e) =>
      StepLasts(n.a, u.cfgA, e);
      AskingKeepsWire(n, e, u);
      AskingKeepsRequests(n.a, Step(n.a, u.cfgA, e), n.b, u);
      AskingKeepsConnected(n, e, u);
    case AtB(e) =>
      StepLasts(n.b, u.cfgB, e);
      AskedKeepsWire(n, e, u);
      AskedKeepsRequests(n, e, u);
      AskedKeepsAccepted(n, e, u);
      AskedKeepsConnected(n, e, u);
  }

  lemma {:induction false} RunKeepsNet(ns: seq<Net>, xs: seq<Action>, u: Setup, m: nat)
    requires NetRun(ns, xs, u) && m < |ns|
    ensures NetInv(ns[m], u)
  {
    hide Inv, Allowed, Next, WireOk, RequestsStand, AcceptedStand, ConnectedStand;
    if m == 0 {
      SilenceOk(u);
    } else {
      RunKeepsNet(ns, xs, u, m - 1);
      assert NextAt(ns, xs, u, m - 1);
      NextKeepsInv(ns[m - 1], xs[m - 1], u);
    }
  }

  lemma {:induction false} SilenceOk(u: Setup)
    ensures NetInv(SILENCE, u)
  {}

  // -------------------------------------------------------------------------- the agreement

  /** Nobody is connected alone: in every run, a peer whose request got through has a counterpart
      that the other side accepted and was told of, with the same time and number, and knows it
      by its id. */
  lemma {:induction false} NobodyConnectsAlone(ns: seq<Net>, xs: seq<Action>, u: Setup, m: nat, i: nat) returns (j: nat)
    requires NetRun(ns, xs, u) && m < |ns| && GotThrough(ns[m].a, i, u.keyB)
    ensures j < |ns[m].b.peers|
    ensures var p, q := ns[m].a.peers[i], ns[m].b.peers[j];
            && q.key == u.keyA && Connects(q.calls) == 1
            && p.connectTime == q.connectTime && p.connectNum == q.connectNum && p.remoteId == ToInt32(q.id)
  {
    hide NetRun, Inv, WireOk, RequestsStand, AcceptedStand, Connects, Disciplined, ToInt32;
    RunKeepsNet(ns, xs, u, m);
    var b := ns[m].b;
    InvIsOk(b);
    var k: nat :| k < |b.peers| && Counterpart(ns[m].a.peers[i], b.peers[k], u.keyA);
    j := k;
    AcceptedConnected(b.peers[j]);
  }

  lemma {:induction false} AcceptedConnected(q: Peer)
    requires Disciplined(q) && q.acceptPacket.Some?
    ensures Connects(q.calls) == 1
  {
    hide Reasons, AsksFor, Ends, AcceptPacket, ToInt32;
    CallsConcat([PeerConnected], q.calls[1..]);
    assert q.calls == [PeerConnected] + q.calls[1..];
    OneCall(PeerConnected);
  }

  /** Nobody is accepted who did not ask: in every run, a peer that was accepted under the address
      of the other side stands for one that asked there at this time, and knows it by its id. */
  lemma {:induction false} AcceptedOnlyOnRequest(ns: seq<Net>, xs: seq<Action>, u: Setup, m: nat, j: nat)
    returns (i: nat)
    requires NetRun(ns, xs, u) && m < |ns| && j < |ns[m].b.peers|
    requires ns[m].b.peers[j].key == u.keyA && ns[m].b.peers[j].acceptPacket.Some?
    ensures i < |ns[m].a.peers|
    ensures var p, q := ns[m].a.peers[i], ns[m].b.peers[j];
            && p.key == u.keyB && p.requestPacket.Some?
            && p.connectTime == q.connectTime && q.remoteId == ToInt32(p.id) && q.connectNum == 0
  {
    hide NetRun, Inv, WireOk, RequestsStand, ConnectedStand, Disciplined, ToInt32, StandsFor;
    RunKeepsNet(ns, xs, u, m);
    var a, q := ns[m].a, ns[m].b.peers[j];
    InvIsOk(a);
    var data :| StandsFor(a, u.keyB, ReqOf(q, data));
    i := AskerFound(a, u.keyB, ReqOf(q, data));
  }

  lemma {:induction false} AskerFound(s: State, key: Key, req: ConnReq) returns (i: nat)
    requires Inv(s) && StandsFor(s, key, req)
    ensures i < |s.peers| && s.peers[i].key == key && s.peers[i].requestPacket.Some?
    ensures req.time == s.peers[i].connectTime && req.peerId == ToInt32(s.peers[i].id) && req.number == 0
  {
    hide Inv, Disciplined, ToInt32, Int64At, Int32At, AcceptPacket, Ends;
    InvIsOk(s);
    var pkt :| Asked(s, key, pkt) && IsConnectRequest(pkt) && req == RequestOf(req.key, pkt);
    var k :| AsksWith(s, k, key, pkt);
    i := k;
    EquippedToo(s.peers[i]);
  }

  /** If no two attempts to connect to the other side were made at the same time, either knows
      the other: the counterpart stands for this very peer. */
  lemma {:induction false} BothKnowEachOther(ns: seq<Net>, xs: seq<Action>, u: Setup, m: nat, i: nat) returns (j: nat)
    requires NetRun(ns, xs, u) && m < |ns| && GotThrough(ns[m].a, i, u.keyB)
    requires forall k :: 0 <= k < |ns[m].a.peers| && k != i && ns[m].a.peers[k].key == u.keyB ==>
               ns[m].a.peers[k].connectTime != ns[m].a.peers[i].connectTime
    ensures j < |ns[m].b.peers|
    ensures var p, q := ns[m].a.peers[i], ns[m].b.peers[j];
            && q.key == u.keyA && Connects(q.calls) == 1 && p.connectNum == q.connectNum == 0
            && p.connectTime == q.connectTime && p.remoteId == ToInt32(q.id) && q.remoteId == ToInt32(p.id)
  {
    hide NetRun, Inv, WireOk, RequestsStand, AcceptedStand, Connects, Disciplined, ToInt32;
    RunKeepsNet(ns, xs, u, m);
    var b := ns[m].b;
    InvIsOk(b);
    var k: nat :| k < |b.peers| && Counterpart(ns[m].a.peers[i], b.peers[k], u.keyA);
    j := k;
    AcceptedConnected(b.peers[j]);
    var asker := AcceptedOnlyOnRequest(ns, xs, u, m, j);
  }

  // ------------------------------------------------------------------- exchanges that complete

  /** A datagram for the peer of an address: the state after it, and what is sent back. */
  lemma {:induction false} AfterDatagram(s: State, cfg: Config, key: Key, i: nat, pkt: Packet) returns (t: State)
    requires StateOk(s) && key in s.table && s.table[key] == i && pkt.Verify()
    requires pkt.Property() in {PROP_CONNECT_ACCEPT, PROP_DISCONNECT, PROP_SHUTDOWN_OK}
    ensures t == Step(s, cfg, Datagram(key, pkt)) && |t.peers| == |s.peers| && i < |s.peers|
    ensures t.peers[i] == Received(s.peers[i], pkt).0 && (key in t.table <==> !Received(s.peers[i], pkt).1)
    ensures Sends(s, cfg, Datagram(key, pkt))
            == if pkt.Property() == PROP_DISCONNECT then [Addressed(key, Notice(PROP_SHUTDOWN_OK))] else []
  {
    hide Received, Notice;
    t := Step(s, cfg, Datagram(key, pkt));
    SameKeyReceived(s.peers[i], pkt);
  }

  lemma {:induction false} SameKeyReceived(p: Peer, pkt: Packet)
    requires |pkt.data| >= 1
    ensures Received(p, pkt).0.key == p.key
  {
    hide AcceptMatches, DisconnectMatches, Int64At, Int32At, Take;
  }

  lemma {:induction false} RequestArrives(a: State, b: State, u: Setup, i: nat)
    returns (pkt: Packet, req: ConnReq, r: State)
    requires Inv(a) && Inv(b) && i < |a.peers| && a.peers[i].key == u.keyB && a.peers[i].state.Outgoing?
    requires u.keyA !in b.table && u.keyA !in b.requests && u.cfgB.accept && u.cfgB.hasRequestHandler
    ensures StateOk(b) && a.peers[i].requestPacket == Some(pkt)
    ensures r == Step(b, u.cfgB, Datagram(u.keyA, pkt)) && Inv(r) && r == Awaiting(b, req)
    ensures req.key == u.keyA && req.time == a.peers[i].connectTime && req.number == 0
    ensures req.peerId == ToInt32(a.peers[i].id)
  {
    hide Inv, Disciplined, ToInt32, Int64At, Int32At, AcceptPacket, Ends, Received, Updated, Resolve;
    InvIsOk(a);
    InvIsOk(b);
    EquippedToo(a.peers[i]);
    pkt := a.peers[i].requestPacket.value;
    req := RequestOf(u.keyA, pkt);
    r := Step(b, u.cfgB, Datagram(u.keyA, pkt));
    StepLasts(b, u.cfgB, Datagram(u.keyA, pkt));
  }

  lemma {:induction false} RequestAccepted(s: State, cfg: Config, r: nat, req: ConnReq) returns (t: State)
    requires Inv(s) && r < |s.reqs| && s.reqs[r] == PendingRequest(req, false, []) && req.key !in s.table
    ensures StateOk(s) && t == Step(s, cfg, Answer(r, true, [])) && Inv(t)
    ensures t.peers == s.peers + [AcceptedPeer(req, |s.peers| + 1)]
    ensures Sends(s, cfg, Answer(r, true, []))
            == [Addressed(req.key, AcceptPacket(req.time, req.number, ToInt32(|s.peers| + 1)))]
  {
    hide Inv, ToInt32, AcceptPacket, Disciplined;
    InvIsOk(s);
    t := Step(s, cfg, Answer(r, true, []));
    StepLasts(s, cfg, Answer(r, true, []));
  }

  lemma {:induction false} AcceptArrives(a: State, u: Setup, i: nat, id: nat, pkt: Packet, num: ConnectionNumber)
    returns (d: State)
    requires Inv(a) && i < |a.peers| && a.peers[i].key == u.keyB && a.peers[i].state.Outgoing?
    requires pkt == AcceptPacket(a.peers[i].connectTime, num, ToInt32(id)) && id < 0x8000_0000
    ensures StateOk(a) && d == Step(a, u.cfgA, Datagram(u.keyB, pkt)) && |d.peers| == |a.peers|
    ensures d.peers[i] == a.peers[i].(connectNum := num, remoteId := ToInt32(id), sinceLastPacket := 0,
                                      state := Connected, calls := [PeerConnected])
  {
    hide Inv, Step, Int64At, Int32At, AcceptPacket, Equipped, Connects, Reasons, ToInt32;
    InvIsOk(a);
    var p := a.peers[i];
    AcceptReads(p.connectTime, num, ToInt32(id));
    SmallId(id);
    ListedPeer(a, i);
    d := AfterDatagram(a, u.cfgA, u.keyB, i, pkt);
    assert p.calls + [PeerConnected] == [PeerConnected];
  }

  lemma {:induction false} SmallId(id: nat)
    requires id < 0x8000_0000
    ensures ToInt32(id) == id
  {
    Powers();
    hide Pow256;
  }

  lemma {:induction false} ListedPeer(s: State, i: nat)
    requires Inv(s) && i < |s.peers| && Ongoing(s.peers[i].state)
    ensures s.peers[i].key in s.table && s.table[s.peers[i].key] == i
  {
    hide Disciplined;
  }

  /** The request of a connecting peer arrives where its address has no peer, no pending request
      and a handler that accepts: both sides are connected and know each other. */
  lemma {:induction false} HandshakeCompletes(a: State, b: State, u: Setup, i: nat)
    returns (pkt: Packet, reply: Packet, q: Peer, r: State, c: State, d: State)
    requires Inv(a) && Inv(b) && i < |a.peers| && a.peers[i].key == u.keyB && a.peers[i].state.Outgoing?
    requires u.keyA !in b.table && u.keyA !in b.requests && u.cfgB.accept && u.cfgB.hasRequestHandler
    requires |b.peers| + 1 < 0x8000_0000
    ensures StateOk(b) && a.peers[i].requestPacket == Some(pkt)
    ensures r == Step(b, u.cfgB, Datagram(u.keyA, pkt)) && StateOk(r) && |r.reqs| == |b.reqs| + 1
    ensures var e := Answer(|b.reqs|, true, []);
            c == Step(r, u.cfgB, e) && Sends(r, u.cfgB, e) == [Addressed(u.keyA, reply)]
    ensures StateOk(a) && d == Step(a, u.cfgA, Datagram(u.keyB, reply)) && |d.peers| == |a.peers|
    ensures c.peers == b.peers + [q] && q.key == u.keyA
    ensures q.state.Connected? && q.calls == [PeerConnected] && q.remoteId == ToInt32(a.peers[i].id)
    ensures var p := d.peers[i];
            && p.state.Connected? && p.calls == [PeerConnected] && p.remoteId == ToInt32(q.id)
            && q.connectTime == p.connectTime && q.connectNum == p.connectNum
  {
    hide Inv, Step, Disciplined, Received, ToInt32, Int64At, Int32At, AcceptPacket, Sends;
    InvIsOk(a);
    InvIsOk(b);
    var req;
    pkt, req, r := RequestArrives(a, b, u, i);
    InvIsOk(r);
    c := RequestAccepted(r, u.cfgB, |b.reqs|, req);
    q := c.peers[|b.peers|];
    reply := q.acceptPacket.value;
    d := AcceptArrives(a, u, i, q.id, reply, q.connectNum);
  }

  /** Where the application rejects the request, the asking side is told so, with its reason. */
  lemma {:induction false} RejectionArrives(a: State, b: State, u: Setup, i: nat, why: seq<byte>)
    returns (pkt: Packet, reply: Packet, r: State, d: State)
    requires Inv(a) && Inv(b) && i < |a.peers| && a.peers[i].key == u.keyB && a.peers[i].state.Outgoing?
    requires u.keyA !in b.table && u.keyA !in b.requests && u.cfgB.accept && u.cfgB.hasRequestHandler
    ensures StateOk(b) && a.peers[i].requestPacket == Some(pkt)
    ensures r == Step(b, u.cfgB, Datagram(u.keyA, pkt)) && StateOk(r) && |r.reqs| == |b.reqs| + 1
    ensures Sends(r, u.cfgB, Answer(|b.reqs|, false, why)) == [Addressed(u.keyA, reply)]
    ensures StateOk(a) && d == Step(a, u.cfgA, Datagram(u.keyB, reply)) && |d.peers| == |a.peers|
    ensures d.peers[i].state.Disconnected? && u.keyB !in d.table
    ensures d.peers[i].calls == [PeerDisconnected(ConnectionRejected, why)]
  {
    hide Inv, Step, Received, ToInt32, Int64At, Int32At, AcceptPacket, DisconnectPacket, AsksFor, Connects, Reasons;
    InvIsOk(a);
    InvIsOk(b);
    var p, req := a.peers[i], ConnReq("", 0, 0, 0, []);
    pkt, req, r := RequestArrives(a, b, u, i);
    InvIsOk(r);
    reply := DisconnectPacket(p.connectTime, 0, why);
    DisconnectReads(p.connectTime, 0, why);
    ListedPeer(a, i);
    d := AfterDatagram(a, u.cfgA, u.keyB, i, reply);
    EndReceived(p, reply);
    assert p.calls + [PeerDisconnected(ConnectionRejected, why)] == [PeerDisconnected(ConnectionRejected, why)];
  }

  /** A farewell that names the connection of a peer ends it. */
  lemma {:induction false} EndReceived(p: Peer, pkt: Packet)
    requires Ends(pkt, p.connectTime, p.connectNum) && Ongoing(p.state)
    ensures |pkt.data| >= 9
    ensures var (q, leaves) := Received(p, pkt);
            && q.state.Disconnected? && leaves
            && q.calls == p.calls + [PeerDisconnected(if p.state.Outgoing? then ConnectionRejected
                                                      else RemoteConnectionClose, pkt.data[9..])]
  {
    hide Int64At, AcceptMatches, Processed;
  }

  lemma {:induction false} FarewellTells(p: Peer, data: seq<byte>, mtu: nat)
    ensures var pkt := FarewellPacket(p, data, mtu);
            && pkt.Verify() && pkt.Property() == PROP_DISCONNECT && |pkt.data| >= 9
            && pkt.data[9..] == Fitting(data, mtu)
  {
    DisconnectReads(p.connectTime, p.connectNum, Fitting(data, mtu));
    hide DisconnectPacket, Int64At;
  }

  /** What arrives of the data of a farewell: all of it if the packet is smaller than the MTU, else
      as many zeros. */
  ghost predicate FarewellData(data: seq<byte>, mtu: nat, heard: seq<byte>) {
    && |heard| == |data|
    && forall i :: 0 <= i < |data| ==> heard[i] == if HEADER_SIZE + 8 + |data| < mtu then data[i] else 0
  }

  /** The end of a connection: the farewell of peer p reaches its counterpart, which reports the
      end with what arrives of the data, and answers. */
  lemma {:induction false} FarewellArrives(p: Peer, s: State, cfg: Config, j: nat, data: seq<byte>, mtu: nat)
    returns (t: State, heard: seq<byte>)
    requires StateOk(s) && j < |s.peers| && s.peers[j].key in s.table && s.table[s.peers[j].key] == j
    requires Ongoing(s.peers[j].state)
    requires s.peers[j].connectTime == p.connectTime && s.peers[j].connectNum == p.connectNum
    ensures var e := Datagram(s.peers[j].key, FarewellPacket(p, data, mtu));
            t == Step(s, cfg, e) && Sends(s, cfg, e) == [Addressed(s.peers[j].key, Notice(PROP_SHUTDOWN_OK))]
    ensures |t.peers| == |s.peers| && t.peers[j].state.Disconnected? && s.peers[j].key !in t.table
    ensures var reason := if s.peers[j].state.Outgoing? then ConnectionRejected else RemoteConnectionClose;
            FarewellData(data, mtu, heard) && t.peers[j].calls == s.peers[j].calls + [PeerDisconnected(reason, heard)]
  {
    hide StateOk, Step, Sends, Received, FarewellPacket, Ends, Int64At, Notice;
    heard := Fitting(data, mtu);
    var pkt := FarewellPacket(p, data, mtu);
    FarewellEnds(p, data, mtu);
    FarewellTells(p, data, mtu);
    t := AfterDatagram(s, cfg, s.peers[j].key, j, pkt);
    EndReceived(s.peers[j], pkt);
  }

  lemma {:induction false} AnswerEnds(p: Peer)
    requires p.state.ShutdownRequested?
    ensures Received(p, Notice(PROP_SHUTDOWN_OK)).0 == p.(state := Disconnected)
  {
    hide AcceptMatches, Notice;
  }

  /** The answer ends the side that asked for the end. */
  lemma {:induction false} AnswerEndsShutdown(s: State, cfg: Config, i: nat) returns (t: State)
    requires StateOk(s) && i < |s.peers| && s.peers[i].key in s.table && s.table[s.peers[i].key] == i
    requires s.peers[i].state.ShutdownRequested?
    ensures t == Step(s, cfg, Datagram(s.peers[i].key, Notice(PROP_SHUTDOWN_OK)))
    ensures |t.peers| == |s.peers| && t.peers[i] == s.peers[i].(state := Disconnected)
  {
    hide Notice, Step, Received;
    t := AfterDatagram(s, cfg, s.peers[i].key, i, Notice(PROP_SHUTDOWN_OK));
    AnswerEnds(s.peers[i]);
  }

  /** A request that is repeated changes nothing, and is answered as it was. */
  lemma {:induction false} RepeatAnsweredAgain(s: State, cfg: Config, j: nat, pkt: Packet)
    requires Inv(s) && j < |s.peers| && s.peers[j].state.Connected? && s.peers[j].acceptPacket.Some? && cfg.accept
    requires pkt.Verify() && pkt.Property() == PROP_CONNECT_REQUEST && SpeaksProtocol(pkt) && IsConnectRequest(pkt)
    requires Int64At(pkt, 5) == s.peers[j].connectTime
    ensures StateOk(s) && Step(s, cfg, Datagram(s.peers[j].key, pkt)) == s
    ensures var p := s.peers[j];
            Sends(s, cfg, Datagram(p.key, pkt))
            == [Addressed(p.key, AcceptPacket(p.connectTime, p.connectNum, ToInt32(p.id)))]
  {
    hide Inv, SpeaksProtocol, IsConnectRequest, Int64At, Int32At, AcceptPacket, Disciplined, ToInt32, Forced;
    InvIsOk(s);
    ListedPeer(s, j);
    EquippedToo(s.peers[j]);
  }

  /** An acceptance that is repeated changes nothing. */
  lemma {:induction false} AcceptOnlyOnce(s: State, cfg: Config, key: Key, pkt: Packet)
    requires StateOk(s) && key in s.table && !s.peers[s.table[key]].state.Outgoing?
    requires pkt.Verify() && pkt.Property() == PROP_CONNECT_ACCEPT
    ensures Step(s, cfg, Datagram(key, pkt)).peers == s.peers && Step(s, cfg, Datagram(key, pkt)).table == s.table
    ensures Sends(s, cfg, Datagram(key, pkt)) == []
  {
    hide ConnectRequested, RequestSends;
    assert s.peers[s.table[key] := s.peers[s.table[key]]] == s.peers;
  }

  // ---------------------------------------------------------------------- being told off

  /** A packet of a connected peer reaches a manager that does not know its address: it is told so,
      and when the answer arrives the peer is reported as not found and forgotten. */
  lemma {:induction false} StrangerIsTold(a: State, b: State, u: Setup, i: nat, pkt: Packet) returns (d: State)
    requires Inv(a) && Inv(b) && i < |a.peers| && a.peers[i].key == u.keyB && a.peers[i].state.Connected?
    requires u.keyA !in b.table && pkt.Verify()
    requires !IsForManager(pkt.Property()) && pkt.Property() !in {PROP_CONNECT_REQUEST, PROP_DISCONNECT}
    ensures StateOk(b) && Step(b, u.cfgB, Datagram(u.keyA, pkt)) == b
    ensures Sends(b, u.cfgB, Datagram(u.keyA, pkt)) == [Addressed(u.keyA, Notice(PROP_PEER_NOT_FOUND))]
    ensures StateOk(a) && d == Step(a, u.cfgA, Datagram(u.keyB, Notice(PROP_PEER_NOT_FOUND)))
    ensures |d.peers| == |a.peers| && d.peers[i].state.Disconnected? && u.keyB !in d.table
    ensures d.peers[i].calls == a.peers[i].calls + [PeerDisconnected(PeerNotFound, [])]
  {
    hide Disciplined, AcceptMatches, Notice, ConnectRequested, RequestSends;
    ListedPeer(a, i);
    d := Step(a, u.cfgA, Datagram(u.keyB, Notice(PROP_PEER_NOT_FOUND)));
  }

  /** A request in another version of the protocol is refused, and a connecting peer that is refused
      is given up without a report. */
  lemma {:induction false} OtherProtocolIsTold(a: State, b: State, u: Setup, i: nat, pkt: Packet) returns (d: State)
    requires Inv(a) && Inv(b) && i < |a.peers| && a.peers[i].key == u.keyB && a.peers[i].state.Outgoing?
    requires pkt.Verify() && pkt.Property() == PROP_CONNECT_REQUEST && Int32At(pkt, 1) != PROTOCOL_ID
    ensures StateOk(b) && Step(b, u.cfgB, Datagram(u.keyA, pkt)) == b
    ensures Sends(b, u.cfgB, Datagram(u.keyA, pkt)) == [Addressed(u.keyA, Notice(PROP_INVALID_PROTOCOL))]
    ensures StateOk(a) && d == Step(a, u.cfgA, Datagram(u.keyB, Notice(PROP_INVALID_PROTOCOL)))
    ensures |d.peers| == |a.peers| && d.peers[i].state.Disconnected? && d.peers[i].calls == a.peers[i].calls
  {
    hide Disciplined, AcceptMatches, Notice, ConnectRequested, RequestSends, Int32At;
    ListedPeer(a, i);
    d := Step(a, u.cfgA, Datagram(u.keyB, Notice(PROP_INVALID_PROTOCOL)));
  }
}
