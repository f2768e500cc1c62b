/** The relay between two peers of the proxy: a bounded session queue filled by the event loop
    of the listening side and emptied by a pump that posts to the event loop of the upstream
    side. Each event below is one atomic step of one of these three. */
module Relay {
  import opened Bits
  import opened Packets
  import opened Fragments
  import opened Reassembly
  import opened PeerSend
  import opened Hops

  const RELAY_QUEUE_SIZE := 8192

  datatype Request = Request(data: seq<byte>, channel: byte, delivery: DeliveryMethod)

  /** The pump's test, made on the upstream peer's MTU at that moment. */
  predicate Relayable(mtu: nat, r: Request) {
    |r.data| + r.delivery.HeaderSize() <= mtu || r.delivery.MayFragment()
  }

  predicate ChannelInRange(s: PeerState, r: Request) {
    r.delivery != Unreliable ==> r.channel as nat * CHANNEL_TYPE_COUNT + r.delivery.Code() < s.channelCount
  }

  predicate FewParts(s: PeerState, r: Request)
    requires PeerOk(s)
  {
    SingleFits(s, r.data, r.delivery) || |Parts(AsMessage(s, r.data, r.channel, r.delivery))| <= MAX_FRAGMENTS
  }

  /** Exactly when a connected peer takes what the pump lets through. */
  lemma {:induction false} RelayableExact(s: PeerState, r: Request)
    requires PeerOk(s) && s.connected
    ensures Accepted(s, r.data, r.channel, r.delivery)
            <==> Relayable(s.mtu, r) && ChannelInRange(s, r) && FewParts(s, r)
  {
    hide Parts;
  }

  /** What the guards of both peers leave: a channel number a peer can report, in range of
      the upstream peer, and at most 65535 fragments at the smallest MTU. */
  predicate Forwardable(channelCount: nat, r: Request) {
    && r.channel < 64
    && (r.delivery != Unreliable ==> r.channel as nat * CHANNEL_TYPE_COUNT + r.delivery.Code() < channelCount)
    && |r.data| <= MAX_FRAGMENTS * (SMALLEST_MTU - FRAGMENTED_HEADER_TOTAL)
  }

  /** The MTU of a peer only grows, so what was relayable when the pump looked is still
      accepted when the upstream event loop gets to it. */
  lemma {:induction false} RelayableIsAccepted(s: PeerState, seen: nat, r: Request)
    requires PeerOk(s) && s.connected && seen <= s.mtu
    requires Relayable(seen, r) && Forwardable(s.channelCount, r)
    ensures Accepted(s, r.data, r.channel, r.delivery)
  {
    hide Chunks;
    var m := AsMessage(s, r.data, r.channel, r.delivery);
    if !SingleFits(s, r.data, r.delivery) {
      PartsBound(r.data, PartSize(m));
    }
  }

  lemma {:induction false} PartsBound(data: seq<byte>, size: nat)
    requires size >= SMALLEST_MTU - FRAGMENTED_HEADER_TOTAL
    requires |data| <= MAX_FRAGMENTS * (SMALLEST_MTU - FRAGMENTED_HEADER_TOTAL)
    ensures |Chunks(data, size)| <= MAX_FRAGMENTS
  {
    hide Chunks;
    ChunkCount(data, size);
    var q, r := |data| / size, |data| % size;
    assert |data| == q * size + r;
    assert MAX_FRAGMENTS * size >= MAX_FRAGMENTS * (SMALLEST_MTU - FRAGMENTED_HEADER_TOTAL);
    QuotientBound(q, r, MAX_FRAGMENTS, size);
  }

  lemma {:induction false} QuotientBound(q: nat, r: nat, k: nat, size: nat)
    requires size > 0 && q * size + r <= k * size
    ensures q <= k && (q == k ==> r == 0)
  {
    MulStep(k, size);
    if q > k { MulGrows(k + 1, q, size); }
  }

  // --------------------------------------------------------------------- state machine

  /** `received` is everything the client's peer delivered, `kept` what went into the queue,
      `posted` what the pump passed on, `taken` what the upstream peer accepted; `msgs` are
      the messages it queued on its reliable channels, and `lost` says that some enqueue
      failed or met a closed session. */
  datatype State = State(toBackend: seq<Request>, closed: bool, pumping: bool, commands: seq<Request>,
                         upstream: PeerState, received: seq<Request>, kept: seq<Request>, posted: seq<Request>,
                         executed: seq<Request>, taken: seq<Request>, msgs: seq<Sending>, lost: bool)

  datatype Event =
    | Receives(r: Request, seesClosed: bool)
    | Pumps
    | PumpSeesClosed
    | Closes
    | Executes
    | MtuGrows(mtu: nat)
    | UpstreamLeaves

  predicate Enabled(s: State, e: Event) {
    match e
    case Receives(r, seesClosed) => seesClosed ==> s.closed
    case Pumps => s.pumping && s.toBackend != []
    case PumpSeesClosed => s.pumping && s.closed
    case Executes => s.commands != []
    case MtuGrows(mtu) => mtu >= s.upstream.mtu
    case _ => true
  }

  /** Whether enqueueing puts the message into the queue. A select with several ready cases
      may take any of them, so a closed session drops messages even while there is room. */
  predicate Queues(s: State, seesClosed: bool) {
    !seesClosed && |s.toBackend| < RELAY_QUEUE_SIZE
  }

  function Step(s: State, e: Event): State
    requires PeerOk(s.upstream) && Enabled(s, e)
  {
    match e
    case Receives(r, seesClosed) =>
      if Queues(s, seesClosed) then
        s.(toBackend := s.toBackend + [r], received := s.received + [r], kept := s.kept + [r])
      else
        s.(received := s.received + [r], lost := true)
    case Pumps =>
      var r := s.toBackend[0];
      if Relayable(s.upstream.mtu, r) then
        s.(toBackend := s.toBackend[1..], commands := s.commands + [r], posted := s.posted + [r])
      else
        s.(toBackend := s.toBackend[1..], closed := true, pumping := false)
    case PumpSeesClosed => s.(pumping := false)
    case Closes => s.(closed := true)
    case Executes =>
      var r := s.commands[0];
      var t := s.(commands := s.commands[1..], executed := s.executed + [r],
                  upstream := AfterSend(s.upstream, r.data, r.channel, r.delivery));
      if !Accepted(s.upstream, r.data, r.channel, r.delivery) then t
      else t.(taken := s.taken + [r], msgs := s.msgs + MessageQueued(s.upstream, r))
    case MtuGrows(mtu) => s.(upstream := s.upstream.(mtu := mtu))
    case UpstreamLeaves => s.(upstream := s.upstream.(connected := false))
  }

  /** The message an accepted request becomes, if it goes to a reliable channel. */
  function MessageQueued(s: PeerState, r: Request): seq<Sending>
    requires PeerOk(s) && Accepted(s, r.data, r.channel, r.delivery)
  {
    if r.delivery.MayFragment() then [AsMessage(s, r.data, r.channel, r.delivery)] else []
  }

  ghost predicate Start(s: State) {
    && PeerOk(s.upstream) && s.upstream.queues == map[] && !s.closed && s.pumping && !s.lost
    && s.toBackend == s.received == s.kept == s.posted == s.executed == s.taken == []
    && s.commands == [] && s.msgs == []
  }

  ghost predicate Run(ss: seq<State>, es: seq<Event>) {
    && |ss| == |es| + 1 && Start(ss[0])
    && forall i :: 0 <= i < |es| ==>
         PeerOk(ss[i].upstream) && Enabled(ss[i], es[i]) && ss[i + 1] == Step(ss[i], es[i])
  }

  // ---------------------------------------------------------------------- invariant

  /** Nothing overtakes anything between the client's peer and the upstream peer. */
  ghost predicate Flow(s: State) {
    && s.posted == s.executed + s.commands
    && s.posted <= s.kept
    && (s.pumping ==> s.kept == s.posted + s.toBackend)
    && (!s.lost ==> s.kept == s.received)
  }

  ghost predicate CommandsRelayable(s: State) {
    forall r :: r in s.commands ==> Relayable(s.upstream.mtu, r)
  }

  ghost predicate AllForwardable(s: State) {
    forall r :: r in s.received ==> Forwardable(s.upstream.channelCount, r)
  }

  ghost predicate KeptReceived(s: State) {
    forall r :: r in s.kept ==> r in s.received
  }

  /** While the upstream peer is connected it takes everything; once it has left, nothing. */
  ghost predicate TakesAll(s: State) {
    s.taken <= s.executed && (s.upstream.connected ==> s.taken == s.executed)
  }

  /** The reliable queues of the upstream peer hold exactly the messages it took. */
  ghost predicate QueuesHold(s: State) {
    forall id: byte :: IsReliable(id) ==> QueueOf(s.upstream, id as nat) == QueuedOn(s.msgs, id)
  }

  ghost predicate Inv(s: State) {
    PeerOk(s.upstream) && Flow(s) && CommandsRelayable(s) && KeptReceived(s) && QueuesHold(s)
    && (AllForwardable(s) ==> TakesAll(s))
  }

  lemma {:induction false} StepKeepsInv(s: State, e: Event)
    requires Inv(s) && Enabled(s, e)
    ensures Inv(Step(s, e))
  {
    hide QueuedOn, Accepted, AfterSend, Parts, Forwardable, Flow, CommandsRelayable, MessageQueued, KeptReceived;
    hide PeerOk;
    StepKeepsFlow(s, e);
    StepKeepsCommands(s, e);
    if AllForwardable(Step(s, e)) { ForwardableBefore(s, e); }
    if e.Executes? {
      ExecuteTakes(s);
      ExecuteQueues(s);
    }
  }

  lemma {:induction false} StepKeepsFlow(s: State, e: Event)
    requires PeerOk(s.upstream) && Flow(s) && KeptReceived(s) && Enabled(s, e)
    ensures Flow(Step(s, e)) && KeptReceived(Step(s, e))
  {
    hide Step, Flow, KeptReceived, PeerOk;
    match e
    case Receives(r, seesClosed) => ReceiveKeepsFlow(s, r, seesClosed);
    case Pumps => PumpKeepsFlow(s);
    case Executes => ExecuteKeepsFlow(s);
    case _ => OthersKeepFlow(s, e);
  }

  lemma {:induction false} ReceiveKeepsFlow(s: State, r: Request, seesClosed: bool)
    requires PeerOk(s.upstream) && Flow(s) && KeptReceived(s) && Enabled(s, Receives(r, seesClosed))
    ensures Flow(Step(s, Receives(r, seesClosed))) && KeptReceived(Step(s, Receives(r, seesClosed)))
  {
    assert s.kept <= s.kept + [r] && s.posted + s.toBackend + [r] == s.posted + (s.toBackend + [r]);
  }

  lemma {:induction false} PumpKeepsFlow(s: State)
    requires PeerOk(s.upstream) && Flow(s) && KeptReceived(s) && Enabled(s, Pumps)
    ensures Flow(Step(s, Pumps)) && KeptReceived(Step(s, Pumps))
  {
    hide Relayable;
    assert s.kept == s.posted + [s.toBackend[0]] + s.toBackend[1..];
  }

  lemma {:induction false} ExecuteKeepsFlow(s: State)
    requires PeerOk(s.upstream) && Flow(s) && KeptReceived(s) && Enabled(s, Executes)
    ensures Flow(Step(s, Executes)) && KeptReceived(Step(s, Executes))
  {
    hide Step;
    ExecuteShape(s);
    assert s.executed + s.commands == s.executed + [s.commands[0]] + s.commands[1..];
  }

  lemma {:induction false} ExecuteShape(s: State)
    requires PeerOk(s.upstream) && Enabled(s, Executes)
    ensures var t := Step(s, Executes);
            && t.executed == s.executed + [s.commands[0]] && t.commands == s.commands[1..]
            && t.posted == s.posted && t.kept == s.kept && t.received == s.received && t.toBackend == s.toBackend
            && t.pumping == s.pumping && t.lost == s.lost
  {
    hide Accepted, AfterSend, MessageQueued;
  }

  lemma {:induction false} OthersKeepFlow(s: State, e: Event)
    requires PeerOk(s.upstream) && Flow(s) && KeptReceived(s) && Enabled(s, e)
    requires !e.Receives? && !e.Pumps? && !e.Executes?
    ensures Flow(Step(s, e)) && KeptReceived(Step(s, e))
  {}

  lemma {:induction false} StepKeepsCommands(s: State, e: Event)
    requires PeerOk(s.upstream) && CommandsRelayable(s) && Enabled(s, e)
    ensures PeerOk(Step(s, e).upstream) && CommandsRelayable(Step(s, e))
    ensures Step(s, e).upstream.channelCount == s.upstream.channelCount
  {
    hide Accepted, AfterSend, MessageQueued;
    if e.Executes? { SendKeepsOk(s.upstream, s.commands[0]); }
  }

  lemma {:induction false} ForwardableBefore(s: State, e: Event)
    requires PeerOk(s.upstream) && CommandsRelayable(s) && Enabled(s, e) && AllForwardable(Step(s, e))
    ensures AllForwardable(s)
  {
    hide Accepted, AfterSend, MessageQueued, CommandsRelayable, Forwardable;
    StepKeepsCommands(s, e);
    assert forall r :: r in s.received ==> r in Step(s, e).received;
  }

  lemma {:induction false} SendKeepsOk(s: PeerState, r: Request)
    requires PeerOk(s)
    ensures var t := AfterSend(s, r.data, r.channel, r.delivery);
            PeerOk(t) && t.mtu == s.mtu && t.channelCount == s.channelCount && t.connected == s.connected
  {
    hide Parts;
  }

  lemma {:induction false} ExecuteTakes(s: State)
    requires PeerOk(s.upstream) && Flow(s) && CommandsRelayable(s) && KeptReceived(s) && s.commands != []
    requires AllForwardable(s) ==> TakesAll(s)
    ensures AllForwardable(Step(s, Executes)) ==> TakesAll(Step(s, Executes))
  {
    hide Parts, Accepted, AsMessage, Forwardable, Relayable;
    var r := s.commands[0];
    SendKeepsOk(s.upstream, r);
    assert r in s.posted;
    if AllForwardable(s) {
      if s.upstream.connected {
        RelayableIsAccepted(s.upstream, s.upstream.mtu, r);
      } else {
        NotConnected(s.upstream, r);
      }
    }
  }

  lemma {:induction false} NotConnected(s: PeerState, r: Request)
    requires PeerOk(s) && !s.connected
    ensures !Accepted(s, r.data, r.channel, r.delivery)
  {}

  lemma {:induction false} ExecuteQueues(s: State)
    requires PeerOk(s.upstream) && QueuesHold(s) && s.commands != []
    ensures QueuesHold(Step(s, Executes))
  {
    hide Parts, Pieces, QueuedOn;
    var r := s.commands[0];
    if Accepted(s.upstream, r.data, r.channel, r.delivery) && r.delivery != Unreliable {
      var m := AsMessage(s.upstream, r.data, r.channel, r.delivery);
      IndexKind(r);
      AcceptedSendable(s.upstream, r);
      var t := Step(s, Executes);
      forall id: byte | IsReliable(id)
        ensures QueueOf(t.upstream, id as nat) == QueuedOn(t.msgs, id)
      {
        assert QueueOf(t.upstream, id as nat)
               == QueueOf(s.upstream, id as nat) + if m.channelID == id then Pieces(m) else [];
        if r.delivery.MayFragment() {
          assert t.msgs == s.msgs + [m];
          QueuedOnAppend(s.msgs, m, id);
        } else {
          assert t.msgs == s.msgs;
        }
      }
    } else {
      assert Step(s, Executes).msgs == s.msgs;
    }
  }

  lemma {:induction false} AcceptedSendable(s: PeerState, r: Request)
    requires PeerOk(s) && Accepted(s, r.data, r.channel, r.delivery) && r.delivery != Unreliable
    ensures Sendable(AsMessage(s, r.data, r.channel, r.delivery))
  {
    hide Chunks;
  }

  /** The delivery method can be read off the channel id even when the index has wrapped. */
  lemma {:induction false} IndexKind(r: Request)
    ensures r.delivery != Unreliable ==> ChannelIndex(r.channel, r.delivery) as nat % 4 == r.delivery.Code()
    ensures r.delivery != Unreliable ==> (IsReliable(ChannelIndex(r.channel, r.delivery)) <==> r.delivery.MayFragment())
  {}

  lemma {:induction false} QueuedOnAppend(msgs: seq<Sending>, m: Sending, id: byte)
    ensures QueuedOn(msgs + [m], id) == QueuedOn(msgs, id) + if m.channelID == id then Pieces(m) else []
  {
    hide Parts, PartsOn, Piece, Sendable;
    var parts, more := PartsOn(msgs, |msgs|, id), PartsOn(msgs + [m], |msgs| + 1, id);
    PartsOnAppend(msgs, m, id);
    forall j | 0 <= j < |parts|
      ensures more[j] == parts[j] && parts[j].m < |msgs|
    {
      PartAt(msgs, |msgs|, id, j);
    }
  }

  lemma {:induction false} PartsOnAppend(msgs: seq<Sending>, m: Sending, id: byte)
    ensures PartsOn(msgs + [m], |msgs| + 1, id)
            == PartsOn(msgs, |msgs|, id) + if m.channelID == id then FirstParts(|msgs|, |Parts(m)|) else []
  {
    hide Parts, Sendable;
    PartsOnSame(msgs, msgs + [m], |msgs|, id);
  }

  lemma {:induction false} PartsOnSame(a: seq<Sending>, b: seq<Sending>, n: nat, id: byte)
    requires n <= |a| && a <= b
    ensures PartsOn(a, n, id) == PartsOn(b, n, id)
  {
    hide Parts;
    if n > 0 { PartsOnSame(a, b, n - 1, id); }
  }

  lemma {:induction false} RunKeepsInv(ss: seq<State>, es: seq<Event>, i: nat)
    requires Run(ss, es) && i < |ss|
    ensures Inv(ss[i])
  {
    hide Step, Enabled;
    if i == 0 {
      StartInv(ss[0]);
    } else {
      RunKeepsInv(ss, es, i - 1);
      StepKeepsInv(ss[i - 1], es[i - 1]);
    }
  }

  lemma {:induction false} StartInv(s: State)
    requires Start(s)
    ensures Inv(s)
  {
    assert forall id :: QueuedOn([], id) == [];
  }

  // ------------------------------------------------------------------------ theorems

  /** As long as no enqueue has failed, what the upstream peer took is a prefix of what the
      client sent to the proxy; nothing relayable is dropped or reordered on the way. */
  lemma {:induction false} RelayedPrefix(ss: seq<State>, es: seq<Event>, i: nat)
    requires Run(ss, es) && i < |ss| && AllForwardable(ss[i])
    ensures ss[i].taken <= ss[i].kept
    ensures !ss[i].lost ==> ss[i].taken <= ss[i].received
    ensures !ss[i].lost && ss[i].pumping && ss[i].upstream.connected ==>
              ss[i].received == ss[i].taken + ss[i].commands + ss[i].toBackend
  {
    hide Step, Forwardable, QueuesHold;
    RunKeepsInv(ss, es, i);
  }

  // ---------------------------------------------------------------------- event by event

  /** How often the pump has turned. */
  function Pumped(es: seq<Event>, i: int): nat {
    if i <= 0 || i > |es| then 0 else Pumped(es, i - 1) + if es[i - 1].Pumps? then 1 else 0
  }

  lemma {:induction false} StepShape(s: State, e: Event)
    requires PeerOk(s.upstream) && Enabled(s, e)
    ensures var t := Step(s, e);
            var stuck := e.Pumps? && !Relayable(s.upstream.mtu, s.toBackend[0]);
            && (t.closed <==> s.closed || e.Closes? || stuck)
            && (t.pumping <==> s.pumping && !e.PumpSeesClosed? && !stuck)
            && t.kept == s.kept + (if e.Receives? && Queues(s, e.seesClosed) then [e.r] else [])
            && t.posted == s.posted + (if e.Pumps? && !stuck then [s.toBackend[0]] else [])
            && t.toBackend == if e.Pumps? then s.toBackend[1..]
                              else s.toBackend + (if e.Receives? && Queues(s, e.seesClosed) then [e.r] else [])
  {
    hide Accepted, AfterSend, MessageQueued, Relayable, PeerOk, Queues;
    if e.Executes? { ExecuteShape(s); }
  }

  /** In every run the queue holds what was kept and not pumped yet, in order. */
  lemma {:induction false} QueueExactly(ss: seq<State>, es: seq<Event>, i: nat)
    requires Run(ss, es) && i < |ss|
    ensures Pumped(es, i) <= |ss[i].kept| && ss[i].toBackend == ss[i].kept[Pumped(es, i)..]
  {
    hide Step, Relayable, PeerOk, Queues;
    if i > 0 {
      QueueExactly(ss, es, i - 1);
      StepShape(ss[i - 1], es[i - 1]);
    }
  }

  /** In every run a message is kept exactly if it comes while the session is not seen closed
      and fewer than 8192 kept ones wait, and the pump posts it exactly if it is relayable
      when its turn comes. */
  lemma {:induction false} KeptExactly(ss: seq<State>, es: seq<Event>, i: nat)
    requires Run(ss, es) && i < |es|
    ensures var n := Pumped(es, i);
            && n <= |ss[i].kept|
            && ss[i + 1].kept == ss[i].kept + (if es[i].Receives? && !es[i].seesClosed && |ss[i].kept| - n < 8192
                                               then [es[i].r] else [])
            && (es[i].Pumps? ==> n < |ss[i].kept|)
            && ss[i + 1].posted == ss[i].posted + (if es[i].Pumps? && Relayable(ss[i].upstream.mtu, ss[i].kept[n])
                                                   then [ss[i].kept[n]] else [])
  {
    hide Step, Relayable, PeerOk;
    QueueExactly(ss, es, i);
    StepShape(ss[i], es[i]);
  }

  /** The pump turns on a message that is too big for the upstream peer. */
  ghost predicate Unrelayable(ss: seq<State>, es: seq<Event>, j: int) {
    && 0 <= j < |es| && j < |ss| && es[j].Pumps? && Pumped(es, j) < |ss[j].kept|
    && !Relayable(ss[j].upstream.mtu, ss[j].kept[Pumped(es, j)])
  }

  ghost predicate ClosedBy(ss: seq<State>, es: seq<Event>, j: int) {
    0 <= j < |es| && (es[j].Closes? || Unrelayable(ss, es, j))
  }

  ghost predicate StoppedBy(ss: seq<State>, es: seq<Event>, j: int) {
    0 <= j < |es| && (es[j].PumpSeesClosed? || Unrelayable(ss, es, j))
  }

  /** In every run the session is closed exactly if somebody has closed it or the pump has met
      an unrelayable message, and only that or seeing it closed stops the pump; so the pump runs as
      long as the session is open. */
  lemma {:induction false} ClosedExactly(ss: seq<State>, es: seq<Event>, i: nat)
    requires Run(ss, es) && i < |ss|
    ensures ss[i].closed <==> exists j :: 0 <= j < i && ClosedBy(ss, es, j)
    ensures ss[i].pumping <==> forall j :: 0 <= j < i ==> !StoppedBy(ss, es, j)
    ensures !ss[i].pumping ==> ss[i].closed
  {
    hide Step, Enabled, PeerOk, ClosedBy, StoppedBy;
    if i > 0 {
      ClosedExactly(ss, es, i - 1);
      ClosedStep(ss, es, i - 1);
    }
  }

  lemma {:induction false} ClosedStep(ss: seq<State>, es: seq<Event>, i: nat)
    requires Run(ss, es) && i < |es|
    ensures ss[i + 1].closed <==> ss[i].closed || ClosedBy(ss, es, i)
    ensures ss[i + 1].pumping <==> ss[i].pumping && !StoppedBy(ss, es, i)
    ensures StoppedBy(ss, es, i) ==> ss[i].closed || ClosedBy(ss, es, i)
  {
    hide Step, Relayable, PeerOk;
    QueueExactly(ss, es, i);
    StepShape(ss[i], es[i]);
  }

  // --------------------------------------------------------------- after a failed enqueue

  /** Message number |ss[i].received| is the first that is lost. */
  predicate FirstLoss(ss: seq<State>, i: int) {
    0 <= i && i + 1 < |ss| && !ss[i].lost && ss[i + 1].lost
  }

  /** Up to message number n all received messages are kept in order, that one is lost, and what
      is kept later was received later. */
  ghost predicate LostAt(s: State, n: nat) {
    && n < |s.received| && s.received[..n] <= s.kept
    && forall r :: r in s.kept[n..] ==> r in s.received[n + 1..]
  }

  lemma {:induction false} LossStep(s: State, e: Event, n: nat)
    requires PeerOk(s.upstream) && Enabled(s, e)
    ensures !s.lost && Step(s, e).lost && s.kept == s.received ==> LostAt(Step(s, e), |s.received|)
    ensures LostAt(s, n) ==> LostAt(Step(s, e), n)
    ensures s.lost ==> Step(s, e).lost
  {
    hide Step, LostAt;
    if e.Receives? { ReceiveLoss(s, e.r, e.seesClosed, n); } else { OthersLoseNothing(s, e, n); }
  }

  lemma {:induction false} OthersLoseNothing(s: State, e: Event, n: nat)
    requires PeerOk(s.upstream) && Enabled(s, e) && !e.Receives?
    ensures var t := Step(s, e); t.lost == s.lost && (LostAt(s, n) ==> LostAt(t, n))
  {
    hide Relayable, Accepted, AfterSend, MessageQueued, PeerOk, LostAt;
    var t := Step(s, e);
    assert t.kept == s.kept && t.received == s.received;
    SameLoss(s, t, n);
  }

  lemma {:induction false} SameLoss(s: State, t: State, n: nat)
    requires t.kept == s.kept && t.received == s.received
    ensures LostAt(s, n) ==> LostAt(t, n)
  {}

  lemma {:induction false} ReceiveLoss(s: State, r: Request, seesClosed: bool, n: nat)
    requires PeerOk(s.upstream) && Enabled(s, Receives(r, seesClosed))
    ensures var t := Step(s, Receives(r, seesClosed));
            && (!s.lost && t.lost && s.kept == s.received ==> LostAt(t, |s.received|))
            && (LostAt(s, n) ==> LostAt(t, n)) && (s.lost ==> t.lost)
  {
    hide PeerOk;
    if LostAt(s, n) {
      var t := Step(s, Receives(r, seesClosed));
      assert t.received[n + 1..] == s.received[n + 1..] + [r];
      assert t.received[..n] == s.received[..n];
      assert t.kept[n..] == s.kept[n..] || t.kept[n..] == s.kept[n..] + [r];
    }
  }

  /** Whatever was lost first stays where it was in the order of what was received. */
  lemma {:induction false} LossStays(ss: seq<State>, es: seq<Event>, i0: nat, i: nat)
    requires Run(ss, es) && FirstLoss(ss, i0) && i0 < i < |ss|
    ensures LostAt(ss[i], |ss[i0].received|) && ss[i].lost
  {
    hide Step, Enabled, LostAt, QueuesHold, AllForwardable;
    RunKeepsInv(ss, es, i0);
    if i == i0 + 1 {
      LossStep(ss[i0], es[i0], 0);
    } else {
      LossStays(ss, es, i0, i - 1);
      LossStep(ss[i - 1], es[i - 1], |ss[i0].received|);
    }
  }

  lemma {:induction false} NoFirstLoss(ss: seq<State>, es: seq<Event>, i: nat)
    requires Run(ss, es) && i < |ss| && forall j :: 0 <= j < i ==> !FirstLoss(ss, j)
    ensures !ss[i].lost
  {
    hide Step, Enabled;
    if i > 0 {
      NoFirstLoss(ss, es, i - 1);
      assert !FirstLoss(ss, i - 1);
    }
  }

  /** No two messages are the same. */
  ghost predicate AllDifferent(rs: seq<Request>) {
    forall a, b :: 0 <= a < b < |rs| ==> rs[a] != rs[b]
  }

  /** Exactly when what the upstream peer took is a prefix of what the client sent, in any state
      of any run with different messages: as long as it took no more than had been received when
      a message was lost first, if any was. */
  lemma {:induction false} RelayedPrefixExactly(ss: seq<State>, es: seq<Event>, i: nat)
    requires Run(ss, es) && i < |ss| && AllForwardable(ss[i]) && AllDifferent(ss[i].received)
    ensures ss[i].taken <= ss[i].received
            <==> forall i0 :: FirstLoss(ss, i0) && i0 < i ==> |ss[i].taken| <= |ss[i0].received|
  {
    hide Run, AllForwardable;
    RelayedPrefix(ss, es, i);
    if j :| 0 <= j < i && FirstLoss(ss, j) {
      forall i0 | FirstLoss(ss, i0) && i0 < i
        ensures ss[i].taken <= ss[i].received <==> |ss[i].taken| <= |ss[i0].received|
      {
        LossStays(ss, es, i0, i);
        PrefixAfterLoss(ss[i], |ss[i0].received|);
      }
    } else {
      NoFirstLoss(ss, es, i);
    }
  }

  lemma {:induction false} PrefixAfterLoss(s: State, n: nat)
    requires LostAt(s, n) && AllDifferent(s.received) && s.taken <= s.kept
    ensures s.taken <= s.received <==> |s.taken| <= n
  {
    if |s.taken| > n {
      var next, later := s.kept[n..][0], s.received[n + 1..];
      assert next in s.kept[n..] && next in later;
      var a :| 0 <= a < |later| && later[a] == next;
      assert s.received[n + 1 + a] == s.taken[n] != s.received[n];
    } else {
      assert s.taken <= s.received[..n];
    }
  }

  ghost predicate SessionReachable(s: State) {
    exists ss, es :: Run(ss, es) && ss[|es|] == s
  }

  lemma {:induction false} ReachableInv(s: State)
    requires SessionReachable(s)
    ensures Inv(s) && PeerOk(s.upstream)
  {
    hide Step, Flow, KeptReceived, QueuesHold, CommandsRelayable, TakesAll, PeerOk, AllForwardable;
    var ss, es :| Run(ss, es) && ss[|es|] == s;
    RunKeepsInv(ss, es, |es|);
  }

  lemma {:induction false} ReachableStep(s: State, e: Event)
    requires SessionReachable(s) && Enabled(s, e)
    ensures PeerOk(s.upstream) && SessionReachable(Step(s, e))
  {
    hide Step, Enabled, Inv, PeerOk;
    ReachableInv(s);
    var ss, es :| Run(ss, es) && ss[|es|] == s;
    assert Run(ss + [Step(s, e)], es + [e]);
  }

  /** A new session in front of a connected upstream peer. */
  function NewSession(channelCount: nat): State
    requires channelCount <= 4 * 255
  {
    State([], false, true, [], PeerState(true, SMALLEST_MTU, channelCount, 0, map[], []), [], [], [], [], [], [], false)
  }

  /** The session after k messages that the pump has not looked at. */
  function Filled(channelCount: nat, r: Request, k: nat): State
    requires channelCount <= 4 * 255
  {
    NewSession(channelCount).(toBackend := seq(k, _ => r), received := seq(k, _ => r), kept := seq(k, _ => r))
  }

  lemma {:induction false} FilledReachable(channelCount: nat, r: Request, k: nat)
    requires channelCount <= 4 * 255 && k <= RELAY_QUEUE_SIZE
    ensures SessionReachable(Filled(channelCount, r, k))
  {
    hide SessionReachable, AfterSend, Relayable;
    if k == 0 {
      assert Filled(channelCount, r, 0) == NewSession(channelCount);
      StartReachable(NewSession(channelCount));
    } else {
      FilledReachable(channelCount, r, k - 1);
      ReachableStep(Filled(channelCount, r, k - 1), Receives(r, false));
      assert seq(k, _ => r) == seq(k - 1, _ => r) + [r];
    }
  }

  lemma {:induction false} StartReachable(s: State)
    requires Start(s)
    ensures SessionReachable(s)
  {
    assert Run([s], []) && [s][0] == s;
  }

  /** With a full queue, two more messages with a turn of the pump in between: the first is
      lost and the second kept. */
  lemma {:induction false} OverflowLeavesGap(s: State, lost: Request, kept: Request)
    requires SessionReachable(s) && s.pumping && lost != kept && s.received == s.kept
    requires |s.toBackend| == RELAY_QUEUE_SIZE && Relayable(s.upstream.mtu, s.toBackend[0])
    ensures var t := AfterOverflow(s, lost, kept);
            && SessionReachable(t) && t.pumping && t.upstream == s.upstream
            && t.commands == s.commands + [s.toBackend[0]]
            && t.toBackend == s.toBackend[1..] + [kept]
            && t.kept == s.received + [kept] && t.received == s.received + [lost, kept] && !(t.kept <= t.received)
  {
    hide SessionReachable, AfterSend, Relayable;
    ReachableStep(s, Receives(lost, false));
    var a := Step(s, Receives(lost, false));
    ReachableStep(a, Pumps);
    var b := Step(a, Pumps);
    ReachableStep(b, Receives(kept, false));
    var t := AfterOverflow(s, lost, kept);
    assert t.kept[|s.received|] == kept && t.received[|s.received|] == lost;
  }

  function AfterOverflow(s: State, lost: Request, kept: Request): State {
    if !PeerOk(s.upstream) then s
    else
      var a := Step(s, Receives(lost, false));
      if !Enabled(a, Pumps) then a
      else
        var b := Step(a, Pumps);
        Step(b, Receives(kept, false))
  }

  /** With a connected upstream peer everything kept gets there. */
  lemma {:induction false} KeptIsTaken(s: State) returns (t: State)
    requires SessionReachable(s) && s.pumping && s.upstream.connected && AllForwardable(s)
    requires forall r :: r in s.toBackend ==> Relayable(s.upstream.mtu, r)
    ensures SessionReachable(t) && t.kept == s.kept && t.received == s.received && t.taken == t.kept
    ensures AllForwardable(t) && t.upstream.connected
    decreases 2 * |s.toBackend| + |s.commands|
  {
    hide SessionReachable, Inv, AfterSend, Relayable, MessageQueued, Accepted, Forwardable;
    if s.commands != [] {
      ReachableStep(s, Executes);
      ExecuteShape(s);
      SendKeepsOk(s.upstream, s.commands[0]);
      t := KeptIsTaken(Step(s, Executes));
    } else if s.toBackend != [] {
      ReachableStep(s, Pumps);
      t := KeptIsTaken(Step(s, Pumps));
    } else {
      t := s;
      ReachableInv(s);
      NothingUnderWay(s);
    }
  }

  lemma {:induction false} NothingUnderWay(s: State)
    requires Inv(s) && s.pumping && s.upstream.connected && AllForwardable(s) && s.commands == s.toBackend == []
    ensures s.taken == s.kept
  {
    hide QueuesHold, KeptReceived;
  }

  /** There are runs, with a connected upstream peer throughout, in which what it took is not a
      prefix of what the client sent: one message is missing and a later one is there. */
  lemma {:induction false} GapReached(channelCount: nat, r: Request, lost: Request, kept: Request) returns (t: State)
    requires channelCount <= 4 * 255 && lost != kept
    requires Forwardable(channelCount, r) && Forwardable(channelCount, lost) && Forwardable(channelCount, kept)
    requires Relayable(SMALLEST_MTU, r) && Relayable(SMALLEST_MTU, kept)
    ensures SessionReachable(t) && AllForwardable(t) && t.upstream.connected && !(t.taken <= t.received)
    ensures t.taken == seq(RELAY_QUEUE_SIZE, _ => r) + [kept]
    ensures t.received == seq(RELAY_QUEUE_SIZE, _ => r) + [lost, kept]
  {
    hide SessionReachable, Relayable, Forwardable, AfterOverflow, PeerOk;
    var full := Filled(channelCount, r, RELAY_QUEUE_SIZE);
    FilledReachable(channelCount, r, RELAY_QUEUE_SIZE);
    OverflowLeavesGap(full, lost, kept);
    t := KeptIsTaken(AfterOverflow(full, lost, kept));
  }

  /** What goes over the channel with this id, as the application at the end sees it. */
  function OnChannel(rs: seq<Request>, n: nat, id: byte): seq<Delivered>
    requires n <= |rs|
  {
    if n == 0 then []
    else OnChannel(rs, n - 1, id)
         + if rs[n - 1].delivery != Unreliable && ChannelIndex(rs[n - 1].channel, rs[n - 1].delivery) == id
           then [Delivered(rs[n - 1].data, rs[n - 1].channel as nat, rs[n - 1].delivery.Code())] else []
  }

  lemma {:induction false} OnChannelPrefix(a: seq<Request>, b: seq<Request>, n: nat, k: nat, id: byte)
    requires a <= b && n <= |a| && n <= k <= |b|
    ensures OnChannel(a, n, id) <= OnChannel(b, k, id)
    decreases k
  {
    if n < k {
      OnChannelPrefix(a, b, n, k - 1, id);
    } else if n > 0 {
      OnChannelPrefix(a, b, n - 1, n - 1, id);
      OnChannelSame(a, b, n, id);
    }
  }

  lemma {:induction false} OnChannelSame(a: seq<Request>, b: seq<Request>, n: nat, id: byte)
    requires a <= b && n <= |a|
    ensures OnChannel(a, n, id) == OnChannel(b, n, id)
  {
    if n > 0 { OnChannelSame(a, b, n - 1, id); }
  }

  /** The messages queued upstream are the requests taken, channel by channel. */
  ghost predicate MessagesAreTaken(s: State) {
    forall id: byte :: IsReliable(id) ==> WholeOn(s.msgs, |s.msgs|, id) == OnChannel(s.taken, |s.taken|, id)
  }

  lemma {:induction false} StepKeepsMessages(s: State, e: Event)
    requires PeerOk(s.upstream) && MessagesAreTaken(s) && Enabled(s, e)
    requires forall r :: r in Step(s, e).taken ==> r.channel < 64
    ensures MessagesAreTaken(Step(s, e))
  {
    hide Parts, WholeOn, OnChannel, AfterSend, Accepted;
    if e.Executes? {
      var r, t := s.commands[0], Step(s, e);
      if t.taken != s.taken {
        assert t.taken[|s.taken|] == r && r in t.taken;
        forall id: byte | IsReliable(id)
          ensures WholeOn(t.msgs, |t.msgs|, id) == OnChannel(t.taken, |t.taken|, id)
        {
          OnChannelAppend(s.taken, r, id);
          TakenIsQueued(s, r, id);
        }
      }
    }
  }

  lemma {:induction false} OnChannelAppend(rs: seq<Request>, r: Request, id: byte)
    ensures OnChannel(rs + [r], |rs| + 1, id)
            == OnChannel(rs, |rs|, id)
             + if r.delivery != Unreliable && ChannelIndex(r.channel, r.delivery) == id
               then [Delivered(r.data, r.channel as nat, r.delivery.Code())] else []
  {
    OnChannelSame(rs, rs + [r], |rs|, id);
  }

  lemma {:induction false} WholeOnSame(a: seq<Sending>, b: seq<Sending>, n: nat, id: byte)
    requires n <= |a| && a <= b
    ensures WholeOn(a, n, id) == WholeOn(b, n, id)
  {
    if n > 0 { WholeOnSame(a, b, n - 1, id); }
  }

  lemma {:induction false} TakenIsQueued(s: State, r: Request, id: byte)
    requires PeerOk(s.upstream) && Accepted(s.upstream, r.data, r.channel, r.delivery)
    requires IsReliable(id) && r.channel < 64
    ensures var more := s.msgs + MessageQueued(s.upstream, r);
            WholeOn(more, |more|, id)
            == WholeOn(s.msgs, |s.msgs|, id)
             + if r.delivery != Unreliable && ChannelIndex(r.channel, r.delivery) == id
               then [Delivered(r.data, r.channel as nat, r.delivery.Code())] else []
  {
    hide Parts, Accepted;
    var more := s.msgs + MessageQueued(s.upstream, r);
    WholeOnSame(s.msgs, more, |s.msgs|, id);
    IndexKind(r);
    if r.delivery.MayFragment() {
      assert ChannelIndex(r.channel, r.delivery) as nat == r.channel as nat * 4 + r.delivery.Code();
      assert more[|s.msgs|] == AsMessage(s.upstream, r.data, r.channel, r.delivery);
    }
  }

  lemma {:induction false} RunKeepsMessages(ss: seq<State>, es: seq<Event>, i: nat)
    requires Run(ss, es) && i < |ss| && AllForwardable(ss[i])
    ensures MessagesAreTaken(ss[i])
  {
    hide Step, Enabled, QueuesHold, Flow, KeptReceived, CommandsRelayable, PeerOk, MessagesAreTaken;
    if i == 0 {
      NothingTaken(ss[0]);
    } else {
      RunKeepsInv(ss, es, i - 1);
      RunKeepsInv(ss, es, i);
      ForwardableBefore(ss[i - 1], es[i - 1]);
      RunKeepsMessages(ss, es, i - 1);
      TakenForwardable(ss[i]);
      StepKeepsMessages(ss[i - 1], es[i - 1]);
    }
  }

  lemma {:induction false} TakenForwardable(s: State)
    requires Inv(s) && AllForwardable(s)
    ensures forall r :: r in s.taken ==> r.channel < 64
  {
    hide QueuesHold, CommandsRelayable;
    forall r | r in s.taken
      ensures r.channel < 64
    {
      assert r in s.executed && r in s.posted && r in s.kept;
    }
  }

  lemma {:induction false} NothingTaken(s: State)
    requires Start(s)
    ensures MessagesAreTaken(s)
  {}

  /** From the client to the backend. The client's hop delivers to the proxy, the relay passes
      on, the upstream hop carries what its peer took. On every ordered channel the backend
      gets a prefix of what the client sent. */
  lemma {:induction false} EndToEnd(client: Hop, ss: seq<State>, es: seq<Event>, i: nat, backend: Hop, id: byte)
    requires HopOk(client) && IdsFree(client.msgs, Arrivals(client))
    requires HopOk(backend) && Apart(backend.msgs, Arrivals(backend))
    requires Run(ss, es) && i < |ss| && AllForwardable(ss[i]) && !ss[i].lost
    requires IsOrdered(id)
    requires OnChannel(ss[i].received, |ss[i].received|, id) <= OutputsOn(client, |client.heard|, id)
    requires backend.msgs == ss[i].msgs
    ensures OutputsOn(backend, |backend.heard|, id) <= WholeOn(client.msgs, |client.msgs|, id)
    ensures id in backend.channels ==> QueueOf(ss[i].upstream, id as nat) == backend.channels[id].enqueued
  {
    hide HopOk, IdsFree, Run, WholeOn, OutputsOn, OnChannel, AllForwardable;
    var s := ss[i];
    OrderedHop(client, id);
    UpstreamIdsFree(ss, es, i, backend);
    OrderedHop(backend, id);
    RelayedPrefix(ss, es, i);
    RunKeepsMessages(ss, es, i);
    OnChannelPrefix(s.taken, s.received, |s.taken|, |s.received|, id);
    RunKeepsInv(ss, es, i);
    QueueIsHop(s, backend, id);
  }

  /** The upstream peer numbers its messages so that ids clash only between messages that meet
      and are a multiple of 65536 fragmented messages apart. */
  lemma {:induction false} UpstreamIdsFree(ss: seq<State>, es: seq<Event>, i: nat, backend: Hop)
    requires Run(ss, es) && i < |ss| && HopOk(backend) && backend.msgs == ss[i].msgs
    ensures IdsFree(backend.msgs, Arrivals(backend)) <==> Apart(backend.msgs, Arrivals(backend))
  {
    hide HopOk, Run, Apart, IdsFree, Consecutive, ArrivalsOk, Arrivals;
    RunNumbersMessages(ss, es, i);
    ArrivalsAreOk(backend);
    IdsFreeExactly(backend.msgs, Arrivals(backend), ss[0].upstream.fragmentID);
  }

  lemma {:induction false} QueueIsHop(s: State, backend: Hop, id: byte)
    requires Inv(s) && HopOk(backend) && backend.msgs == s.msgs && IsOrdered(id)
    ensures id in backend.channels ==> QueueOf(s.upstream, id as nat) == backend.channels[id].enqueued
  {
    hide SessionReachable, NumbersOn, QueuedOn, Flow, CommandsRelayable, KeptReceived, AllForwardable, PeerOk;
    hide QueueOf;
    assert IsReliable(id) && ChannelOk(backend, id);
  }

  // ---------------------------------------------------------------------- fragment ids

  ghost predicate IdsFollow(s: State, first: nat) {
    Consecutive(s.msgs, first) && s.upstream.fragmentID == NthId(first, Rank(s.msgs, |s.msgs|))
  }

  /** The upstream peer numbers its fragmented messages consecutively. */
  lemma {:induction false} RunNumbersMessages(ss: seq<State>, es: seq<Event>, i: nat)
    requires Run(ss, es) && i < |ss|
    ensures IdsFollow(ss[i], ss[0].upstream.fragmentID)
  {
    hide Step, Enabled, IdsFollow, Inv;
    if i == 0 {
      StartIds(ss[0]);
    } else {
      RunNumbersMessages(ss, es, i - 1);
      StepKeepsIds(ss[i - 1], es[i - 1], ss[0].upstream.fragmentID);
    }
  }

  lemma {:induction false} StartIds(s: State)
    requires Start(s)
    ensures IdsFollow(s, s.upstream.fragmentID)
  {}

  lemma {:induction false} StepKeepsIds(s: State, e: Event, first: nat)
    requires PeerOk(s.upstream) && Enabled(s, e) && IdsFollow(s, first)
    ensures IdsFollow(Step(s, e), first)
  {
    hide Parts, Pieces, Accepted, Consecutive, NthId, Rank, PeerOk;
    if e.Executes? {
      var r, t := s.commands[0], Step(s, e);
      if Accepted(s.upstream, r.data, r.channel, r.delivery) && r.delivery.MayFragment() {
        assert t.msgs == s.msgs + [AsMessage(s.upstream, r.data, r.channel, r.delivery)];
        AppendIds(s.msgs, t.msgs[|s.msgs|], s.upstream.fragmentID, first);
      } else {
        assert t.msgs == s.msgs;
        SinglesTakeNoId(s.upstream, r);
      }
    }
  }

  lemma {:induction false} SinglesTakeNoId(s: PeerState, r: Request)
    requires PeerOk(s) && !(Accepted(s, r.data, r.channel, r.delivery) && r.delivery.MayFragment())
    ensures AfterSend(s, r.data, r.channel, r.delivery).fragmentID == s.fragmentID
  {
    hide Parts, Pieces;
  }

  lemma {:induction false} AppendIds(msgs: seq<Sending>, m: Sending, id: nat, first: nat)
    requires Consecutive(msgs, first) && id == NthId(first, Rank(msgs, |msgs|))
    requires !Fits(m) ==> m.id == (id + 1) % 65536
    ensures Consecutive(msgs + [m], first)
    ensures (if Fits(m) then id else m.id) == NthId(first, Rank(msgs + [m], |msgs| + 1))
  {
    hide NthId, Fits, Chunks, Rank, Sendable;
    NextId(first, Rank(msgs, |msgs|));
    RankAppend(msgs, m);
  }

  lemma {:induction false} RankAppend(msgs: seq<Sending>, m: Sending)
    ensures Rank(msgs + [m], |msgs| + 1) == Rank(msgs, |msgs|) + if Fits(m) then 0 else 1
    ensures forall k {:trigger Rank(msgs + [m], k)} :: 0 <= k <= |msgs| ==> Rank(msgs + [m], k) == Rank(msgs, k)
  {
    hide Fits, Chunks, Sendable;
    RankSame(msgs, msgs + [m], |msgs|);
    forall k | 0 <= k <= |msgs|
      ensures Rank(msgs + [m], k) == Rank(msgs, k)
    {
      RankSame(msgs, msgs + [m], k);
    }
  }

  lemma {:induction false} RankSame(a: seq<Message>, b: seq<Message>, n: nat)
    requires n <= |a| && a <= b
    ensures Rank(a, n) == Rank(b, n)
  {
    if n > 0 { RankSame(a, b, n - 1); }
  }

  // ------------------------------------------------------------------- the code itself

  class Session {
    var toBackend: seq<Request>
    var closed: bool

    constructor ()
      ensures toBackend == [] && !closed
    {
      toBackend := [];
      closed := false;
    }

    /** `seesClosed` is the choice of the select when both the close and the queue are ready. */
    method Enqueue(r: Request, seesClosed: bool, ghost s: State) returns (ok: bool)
      requires s.toBackend == toBackend && s.closed == closed
      requires PeerOk(s.upstream) && Enabled(s, Receives(r, seesClosed))
      modifies this`toBackend
      ensures toBackend == Step(s, Receives(r, seesClosed)).toBackend
      ensures !ok ==> |old(toBackend)| >= RELAY_QUEUE_SIZE && !closed && Step(s, Receives(r, seesClosed)).lost
      ensures ok && !closed ==> toBackend == old(toBackend) + [r]
    {
      if closed && seesClosed {
        return true;
      }
      if |toBackend| < RELAY_QUEUE_SIZE {
        toBackend := toBackend + [r];
        return true;
      }
      return closed;
    }

    /** One turn of the pump with a message ready: the message to post, or the end. */
    method PumpToBackend(peerMtu: nat, ghost s: State) returns (posted: seq<Request>, goOn: bool)
      requires s.toBackend == toBackend && s.closed == closed && PeerOk(s.upstream) && peerMtu == s.upstream.mtu
      requires Enabled(s, Pumps)
      modifies this
      ensures var t := Step(s, Pumps);
              && toBackend == t.toBackend && closed == t.closed && goOn == t.pumping
              && s.commands + posted == t.commands
    {
      var msg := toBackend[0];
      toBackend := toBackend[1..];
      if !Relayable(peerMtu, msg) {
        closed := true;
        return [], false;
      }
      return [msg], true;
    }
  }
}
