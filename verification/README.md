# Verified model of the proxy's transport

This project models the networking core of the proxy and proves what it promises: reliable and
sequenced channels over an unreliable network, fragmentation and reassembly of messages, batching
of packets into datagrams, the send queue, the discovery of the MTU, connection handling, the relay
from client to backend, the connection gate, and the codec of the connection data. It is verified with Dafny 4.11:
`dafny verify dfyconfig.toml`.

## How the model is built

Code that updates state in place is modelled by classes with the same fields and loops
(`ReliableChannel`, `SequencedChannel`, `Merger`, `Dispatcher`, `Reassembler`, `SendingPeer`,
`ScheduledPeer`, `ProbingPeer`, `Session`, `Gate`, `Writer`, `Reader`, `Manager`). Every method is proved
equal to a function on values, and the theorems are about those functions, over all inputs and all runs.

* **Reliable channels** exist twice. `ReliableModel` and `ReliableProtocol` use unbounded numbers: a
  window of pending packets, a store of first copies, and a network that keeps everything ever sent,
  so that any packet or acknowledgement may arrive at any time, any number of times, or never.
  `ReliableChannel` is the implementation with modular counters, 64-slot circular buffers and a
  bit-packed acknowledgement; its ghost fields are the unbounded state and every method is proved to
  change them as the unbounded functions say, for every packet, honest or not. The safety of the
  sender rests on one observation: acknowledgements form a chain, so one that empties a slot without
  reaching the window start is never contradicted by an older one.
* **Age bounds** are the only assumption on the network: a data copy arrives at most 32768 - 128
  numbers behind the receive window and an acknowledgement less than 32768 behind the send window
  (for sequenced channels 16384 and 32768). None of the four can be relaxed by one: there are runs
  with data and an acknowledgement just beyond it that break the channel (`DataBoundTight`,
  `AckBoundTight`, and for sequenced channels `DataOneOlder`, `AckOneCycle`). How any copy is read,
  however old, is stated exactly (`StaleCopyMisread`, `NewerExactly`).
* **Connections** exist twice as well. `Connections` is one manager, with everything it sends;
  `Handshakes` joins two of them by a network that loses, repeats, delays and reorders their packets,
  and proves that whoever is connected has a counterpart on the other side. `Lifetimes` tells the life
  of a peer by what reaches it: exactly which packets, calls and stretches of time take it from one
  state to another, what is reported, and how the time of silence adds up over a run.
* **Time.** `ReliableTiming` and `SequencedTiming` say exactly which ticks of a run send which packets,
  in terms of when each was last sent. `GateHistory` says what the gate decides in terms of the calls
  made so far, without its tables.
* **Proofs.** Every lemma carries `{:induction false}`, so each induction is written out.
* **Composition.** `ReliableLinks` and `SequencedLinks` take two peers with any number of channels and
  a send queue each, and prove that every step of theirs is, for each channel, exactly one step of the
  protocol of that channel or none; so all theorems about the protocols hold of the peers. What a peer
  sends is told apart by the channel ids in the packets (`Emissions`). `Hops` puts any number of
  concurrently running channels under one reassembling peer; `HopLiveness` drains all of them by
  lossless rounds, so that every message gets through; `Gathering` says what reassembly does with
  whatever else arrives. `Relay` adds the session queue, the pump and the upstream peer; `EndToEnd`
  joins two hops.

## What turned out not to hold

Each of these fails in runs that are given, and the condition under which it does hold is proved;
where it says *exactly*, in both directions.

* *Nothing is delivered before a connection exists.* A peer that the application disconnects, or
  stops, while it is still connecting goes into the shutdown state and still delivers packets with
  its connection number (`DeliveredBeforeConnection`, `DeliveredAfterDisconnect`). Of the listed
  peers that were never connected, exactly the ones that were shut down while connecting are handed
  packets (`EarlyDeliveryExactly`); a shutdown at any other time does no harm (`QuietUnlessShutDown`).
* *A connection attempt that is given up is reported.* Exactly when the step that gives it up is not
  a datagram that refuses the protocol version (`GivenUpIsReported`).
* *Packets leave in the order they were sent.* Exactly in the runs in which no packet too big to
  batch is sent while others wait in the buffer (`OrderExactly`). Nothing is ever lost or repeated
  (`BatchingConserves`).
* *The gate bounds every address by burst + rate * time, and forgetting idle buckets is invisible.*
  Both hold exactly when five idle minutes refill a bucket (`BoundExactly`, `TransparentExactly`);
  otherwise the bound fails for every gate and every address (`BoundFails`).
* *Lossless rounds get the newest packet of a reliable sequenced channel through.* Exactly when the
  receiver has it, or is behind by less than half a cycle and any number of whole cycles. A receiver
  that is behind by whole cycles sends an acknowledgement that the sender takes for the one it waits
  for, and the packet is forgotten undelivered. Otherwise a round changes nothing (`RoundClears`), and
  neither does any number of rounds (`RoundsNeverClear`). There are runs that lead to each of the
  three (`FarRound`, `AckOneCycle`, `StuckForGood`). An older copy that was only delayed can still
  help (`OlderCopyHelps`).
* *A stale copy is never taken for a new packet.* A copy is, exactly when a number that the receiver
  is ready for lies one or more whole cycles above its own, and it is then taken for that one
  (`StaleCopyMisread`). There are runs in which the oldest copy that breaks this is one number beyond
  the age bound (`DataBoundTight`), and in which a packet is delivered a second time
  (`StaleCopyBreaksOrder`).
* *The receive window never passes the next number to deliver.* Exactly unless a packet 64 numbers
  ahead of it arrives within reach of the window (`WindowPassesExactly`), which no sender of this kind sends, since its window
  starts at or below that number (`RetransmissionIsTaken`).
* *Messages with the same fragment id are never outstanding together.* Exactly when no two messages
  that meet are a multiple of 65536 fragmented messages apart in sending order (`IdsFreeExactly`); so
  it holds while they are closer than that (`IdsFreeWhenClose`). A small number of outstanding messages
  does not suffice: there is a hop with a single one on which the peer delivers bytes that no message
  consists of (`FewOutstandingMix`).
* *The relay passes on a prefix of what it received.* With messages that all differ, exactly while it
  has taken upstream no more than had been received when a message was first lost to a full queue
  (`RelayedPrefixExactly`); without such a loss always (`RelayedPrefix`). After one, a later message
  can be taken upstream (`GapReached`).
* *Peers find the largest MTU that the path carries.* Only under connection number 0: probes carry
  that number whatever the number of the connection is, and are dropped under any other. Under it,
  exactly the sizes that both directions carry can be found (`FindsExactly`), but no more than three
  steps up the table by a peer that hears no probe of its partner (`AloneExactly`), since only those
  make it count its attempts anew.
* *A repeated request is answered with the acceptance again.* Exactly the peers that this manager set
  out to connect have no acceptance to repeat (`NothingToRepeat`).
* *A channel number selects its own channel.* The index is computed in one byte and wraps when a peer
  has more than 64 channel numbers (`ChannelIndexExact`); with the default of 64 it never does.
* *The data of a disconnect reaches the other side.* Exactly when the packet is smaller than the MTU;
  otherwise as many zeros do (`FarewellArrives`).

## Model

| member | source | states |
|---|---|---|
| Sequences.RelativeExact | internal/litenetlib/const.go:129-131 | the circular difference of two wire numbers is their true difference if and only if it lies within half a cycle |
| Sequences.ReconstructWire | internal/litenetlib/const.go:129-131 | a wire number is always read as the congruent number nearest to the reader, and as the true one exactly within half a cycle |
| Packets.Packet.SetConnectionNumber | internal/litenetlib/packet.go:96-98 | stamping the connection number changes no other header field and no payload byte |
| Packets.StampFields | internal/litenetlib/packet.go:112-122 | numbering a packet changes its sequence and channel id and nothing else |
| Packets.StampCommutes | internal/litenetlib/peer.go:594-595 | stamping the connection number on a numbered packet is the same as numbering the stamped one |
| ReliableModel.DueIsSent | internal/litenetlib/channel.go:45-63 | a tick sends exactly the pending packets that were never sent or whose resend delay has elapsed |
| ReliableTiming.TickLaw | internal/litenetlib/channel.go:45-63 | a tick sends of the window exactly what was never sent or whose delay has elapsed, and sets the time of these and no others; every other packet stays as it was, nothing leaves the window, and what is sent is what the network holds from then on |
| ReliableTiming.TickInOrder | internal/litenetlib/channel.go:180-184 | the packets of a tick go out in the order of their numbers, each once |
| ReliableTiming.SentExactly | internal/litenetlib/channel.go:45-63 | in every run, a tick sends a packet that stays in the window if and only if it was never sent before or its delay has elapsed since the last time, however many ticks came between |
| ReliableTiming.RepeatedByThen | internal/litenetlib/channel.go:45-63 | in every run, by the first tick a delay after a packet was sent, it has been sent again or has left the window |
| ReliableModel.ArrivalKeepsOk | internal/litenetlib/channel.go:189-284 | after any packet, honest or not and whichever number it is read as, an ordered receiver has handed over exactly the numbers below its next one in order, an unordered one each stored number once, and the next number is the least one missing |
| ReliableModel.TakenExactly | internal/litenetlib/channel.go:202-226 | taken and acknowledged is exactly what lies less than 128 numbers ahead of the window and at most 64 ahead of the next number; the window then just reaches it, and whatever else arrives changes nothing |
| ReliableModel.WindowPassesExactly | internal/litenetlib/channel.go:202-226 | the window passes the next number to deliver, which can then never be received, exactly by a packet 64 numbers ahead of it that is within reach of the window |
| ReliableModel.AckSlotExact | internal/litenetlib/channel.go:139-149 | a slot bit of an acknowledgement stands for exactly one number of its window |
| ReliableProtocol.CopyReadRight | internal/litenetlib/channel.go:195-213 | a copy within the age bound is taken under its own number or dropped |
| ReliableProtocol.StaleCopyMisread | internal/litenetlib/channel.go:202-213 | of all copies from behind the window, however old, exactly those are taken for new ones above whose number, by one or more whole cycles, there is a receivable one, and under that number; all others, and all within the age bound, are dropped |
| ReliableBounds.StaleCopyBreaksOrder | internal/litenetlib/channel.go:202-249 | there is a run after which a copy of packet 0 is delivered a second time, as packet 32768, which was never queued |
| ReliableBounds.DataBoundTight | internal/litenetlib/channel.go:202-226 | there is a run with a copy just one number beyond the age bound, which is kept for a packet that was never queued |
| ReliableBounds.AckBoundTight | internal/litenetlib/channel.go:118-157 | there is a run in which an acknowledgement exactly one cycle old makes the sender forget a packet that the receiver does not have |
| ReliableProtocol.HonestAck | internal/litenetlib/channel.go:118-157 | an acknowledgement within its age bound advances the window over exactly the numbers it covers and empties exactly those slots |
| ReliableProtocol.AckKeepsInv | internal/litenetlib/channel.go:134-156 | stale and reordered acknowledgements keep the whole invariant, in particular that every emptied slot was received |
| ReliableProtocol.DataKeepsInv | internal/litenetlib/channel.go:189-284 | lost, repeated and reordered data keeps the whole invariant |
| ReliableProtocol.RunKeepsInv | internal/litenetlib/channel.go:118-284 | the invariant holds in every reachable state |
| ReliableProtocol.OrderedPrefix | internal/litenetlib/channel.go:243-265 | in every run an ordered channel has delivered a prefix of what was queued, across any number of wraps |
| ReliableProtocol.UnorderedExactlyOnce | internal/litenetlib/channel.go:243-283 | in every run an unordered channel has delivered each packet at most once and unchanged, exactly those of which a copy was taken, and knows the least missing number |
| ReliableProtocol.DeliveryIsFinal | internal/litenetlib/channel.go:243-284 | nothing delivered is taken back or changed later in a run |
| ReliableProtocol.SenderNeverForgets | internal/litenetlib/channel.go:134-156 | in every run an empty slot of the send window means the receiver has the packet, and the slot at the window start is occupied unless the window is empty |
| ReliableProtocol.RetransmissionIsTaken | internal/litenetlib/channel.go:202-226 | the two windows stay within reach of each other, so a retransmission of an unacknowledged packet is never dropped and always makes an acknowledgement due |
| ReliableLiveness.TickSendsAll | internal/litenetlib/channel.go:168-184 | the tick of a round whose delays have elapsed sends every pending packet |
| ReliableLiveness.RoundExists | internal/litenetlib/channel.go:159-241 | from every state that keeps the invariant a lossless round can happen, whatever the resend delay |
| ReliableLiveness.RoundDrainsWindow | internal/litenetlib/channel.go:134-241 | after one lossless round, from any reachable state, everything numbered is delivered and acknowledged |
| ReliableLiveness.RoundsDrainQueue | internal/litenetlib/channel.go:168-184 | every further lossless round takes 64 packets off the queue |
| ReliableLiveness.QueueDrained | internal/litenetlib/channel.go:168-184 | n queued packets are through after the first lossless round and ceil(n / 64) more |
| ReliableLiveness.DrainExists | internal/litenetlib/channel.go:159-241 | from every such state there are lossless rounds after which everything queued is delivered and acknowledged |
| ReliableLiveness.RoundsReached | internal/litenetlib/channel.go:159-241 | lossless rounds from a reachable state are stretches of a run, within the age bounds, and take nothing back that was delivered |
| ChannelRep.AckBitChanged | internal/litenetlib/channel.go:221-239 | setting or clearing one slot bit in the bytes of the acknowledgement changes that slot only |
| ChannelRep.BitmapIsAck | internal/litenetlib/channel.go:112-113 | the acknowledgement bytes report exactly the received numbers of the window |
| ReliableChannels.ReliableChannel.constructor | internal/litenetlib/channel.go:93-116 | a new channel represents the empty sender and receiver |
| ReliableChannels.ReliableChannel.Enqueue | internal/litenetlib/channel.go:23-25 | a packet goes behind what is queued |
| ReliableChannels.ReliableChannel.ProcessAck | internal/litenetlib/channel.go:118-157 | the loop over wire numbers and bitmap bytes does to the window what the unbounded sender does, for any acknowledgement bytes |
| ReliableChannels.ReliableChannel.SendNextPackets | internal/litenetlib/channel.go:159-187 | one tick sends the acknowledgement owed and then exactly the due packets, and asks for another visit if and only if something is pending or queued |
| ReliableChannels.ReliableChannel.FillWindow | internal/litenetlib/channel.go:168-178 | the oldest queued packets move into free slots under consecutive numbers |
| ReliableChannels.ReliableChannel.ResendPending | internal/litenetlib/channel.go:180-184 | the loop over the slots sends the due packets in order |
| ReliableChannels.ReliableChannel.TrySend | internal/litenetlib/channel.go:45-63 | one slot is sent and stamped exactly when it is due |
| ReliableChannels.ReliableChannel.ProcessPacket | internal/litenetlib/channel.go:189-284 | whatever arrives, the circular receiver changes and releases exactly as the unbounded one |
| ReliableChannels.ReliableChannel.SlideWindow | internal/litenetlib/channel.go:215-224 | sliding clears exactly the bits that leave the window |
| ReliableChannels.ReliableChannel.DrainHeld | internal/litenetlib/channel.go:252-262 | draining releases exactly the held packets from the next number up to the first gap, and no packet of another cycle |
| ReliableChannels.ReliableChannel.DrainEarly | internal/litenetlib/channel.go:267-270 | the unordered drain ends, at the least number not received |
| ReliableChannels.ReliableChannel.OwnAckOnWire | internal/litenetlib/channel.go:112-241 | the acknowledgement packet of a channel, read by the other side, is the unbounded acknowledgement |
| ReliableMerged.SplitInvertsBuild | internal/litenetlib/channel.go:286-310 | splitting gives back every list of parts that fit 16-bit lengths, whatever follows |
| ReliableMerged.SplitIsLongest | internal/litenetlib/channel.go:294-301 | on arbitrary bytes any other way to read entries off the front is a prefix of the split |
| ReliableMerged.SplitRebuilds | internal/litenetlib/channel.go:294-306 | the split of arbitrary bytes rebuilds their front |
| ReliableMerged.ReceivedAsParts | internal/litenetlib/channel.go:286-310 | a merged packet is received as its parts, in order and each on the channel of the whole, whatever malformed rest follows; any other packet as it is |
| ReliableMerged.ProcessIncoming | internal/litenetlib/channel.go:286-310 | the loop hands over exactly the entries of the longest well-formed prefix, never reading outside the packet |
| Fragments.ChunksRejoin | internal/litenetlib/peer.go:266-284 | cutting a message loses and repeats nothing |
| Fragments.ChunkCount | internal/litenetlib/peer.go:253-258 | the number of fragments is the quotient rounded up |
| Fragments.PiecesSurviveNumbering | internal/litenetlib/peer.go:275-282 | every fragment fits the MTU and still carries its part once a channel has numbered it and the peer has stamped its connection number |
| PeerSend.ChannelIndexExact | internal/litenetlib/peer.go:227-229 | the one-byte channel index is right if and only if it is below 256 |
| PeerSend.SendingPeer.constructor | internal/litenetlib/peer.go:91-110 | a new peer starts with the smallest MTU and empty queues |
| PeerSend.SendingPeer.Send | internal/litenetlib/peer.go:211-287 | an accepted message is queued whole behind its channel's queue, any other changes nothing, and exactly an accepted channel message wakes its channel |
| PeerSend.SendingPeer.EnqueueFragments | internal/litenetlib/peer.go:266-284 | the loop queues exactly the fragments of the message in order |
| PeerSend.UnreliableExactly | internal/litenetlib/peer.go:234-240 | after any messages, exactly the unreliable ones that fit are queued as unreliable packets, in order and whole, while the peer is connected, and none otherwise |
| Reassembly.Reassembler.AddReliablePacket | internal/litenetlib/peer.go:339-387 | filing a packet equals the pure reassembly step, for any packet |
| Reassembly.Reassembler.CopyOut | internal/litenetlib/peer.go:368-383 | a complete message is copied together in order, and its space is never too short |
| Gathering.IdHeldExactly | internal/litenetlib/peer.go:339-387 | in every run of whatever packets, a fragment id is held exactly from its first fragment, even a refused one, to the one that completes a message |
| Gathering.CompletedFromItsParts | internal/litenetlib/peer.go:339-387 | in every run of whatever packets, a completed message consists of fragments that arrived under its id and on its channel since the id was last free, one for each place, as many as the first of them said; none is used twice |
| Reassembly.ArrivalStep | internal/litenetlib/peer.go:339-387 | one arrival keeps the held entries exactly the outstanding messages and delivers exactly on the last missing part |
| Reassembly.FragmentRoundTrip | internal/litenetlib/peer.go:339-387 | for any messages and any interleaving and permutation of their parts each message is delivered once, byte for byte, by its last part, and nothing stays held |
| Reassembly.IdsFreeExactly | internal/litenetlib/peer.go:264-265 | the ids of consecutively numbered messages do not clash if and only if no arriving message and other outstanding one are a multiple of 65536 fragmented messages apart in sending order |
| Reassembly.IdsFreeWhenClose | internal/litenetlib/peer.go:264-265 | in particular they do not clash while messages that meet are fewer than 65536 fragmented messages apart |
| Hops.HeardPart | internal/litenetlib/channel.go:286-290 | what a channel hands over is a genuine part of a message sent on it |
| Hops.ArrivalsAreOk | internal/litenetlib/peer.go:339-387 | the channel protocols give reassembly what it relies on: genuine parts, none twice |
| Hops.OrderedHop | internal/litenetlib/peer.go:339-391 | with any number of channels running at once, every ordered channel delivers a prefix of its messages, whole and in order |
| Hops.HopDeliversAll | internal/litenetlib/peer.go:339-391 | once the channels have received everything, every message has been delivered once and unchanged, and no fragment is held |
| HopLiveness.HopDrains | internal/litenetlib/peer.go:339-391 | from every state of a hop, whatever was lost on whichever channels, lossless rounds on each of them lead to one in which every message has been delivered once and unchanged and no fragment is held, if ids do not clash |
| HopLiveness.HopDrainsFew | internal/litenetlib/peer.go:264-265 | with at most 65536 fragmented messages in all they never clash, so every message gets through |
| HopBounds.SharedIdDelivers | internal/litenetlib/peer.go:345-387 | of 65537 fragmented messages with only the first outstanding, the last fragment of the last one is delivered with the first fragment of the first |
| HopBounds.FewOutstandingMix | internal/litenetlib/peer.go:264-265 | there are messages and a hop with a single outstanding message on which bytes are delivered that no message consists of |
| Relay.RelayableIsAccepted | internal/proxy/proxy.go:648-656 | what the pump found relayable is still accepted when the upstream loop executes it, also if the MTU has grown meanwhile |
| Relay.RelayedPrefix | internal/proxy/proxy.go:606-658 | while no enqueue has failed, the messages taken upstream are a prefix of those received from the client, and nothing is missing between them |
| Relay.QueueExactly | internal/proxy/proxy.go:631-658 | in every run the session queue holds, in order, what was kept and not pumped yet |
| Relay.KeptExactly | internal/proxy/session.go:107-122 | in every run a message is kept exactly if the session is not seen closed and fewer than 8192 kept ones wait, and posted exactly if it is relayable when its turn comes |
| Relay.ClosedExactly | internal/proxy/proxy.go:631-658 | in every run a session is closed exactly if somebody closed it or the pump met an unrelayable message, and the pump stops exactly by that or by seeing it closed, so never while the session is open |
| Relay.RelayedPrefixExactly | internal/proxy/session.go:107-122 | in every run with different messages, what was taken upstream is a prefix of what was received if and only if it is no longer than what had been received at the first loss to a full queue, if there was one |
| Relay.OverflowLeavesGap | internal/proxy/session.go:114-121 | from any reachable state with a full queue, two more messages with one turn of the pump between them: the first is lost and the second kept |
| Relay.KeptIsTaken | internal/proxy/proxy.go:606-658 | with a connected upstream peer every reachable state leads to one in which everything kept has been taken |
| Relay.GapReached | internal/proxy/session.go:107-122 | there is a run with a connected upstream peer in which what it took is not a prefix of what the client sent |
| Relay.RunNumbersMessages | internal/litenetlib/peer.go:264-265 | in every run the fragmented messages of the upstream peer carry consecutive 16-bit ids |
| Relay.UpstreamIdsFree | internal/litenetlib/peer.go:264-265 | in every run the ids of the upstream hop do not clash if and only if no two messages that meet are a multiple of 65536 fragmented messages apart |
| Relay.EndToEnd | internal/proxy/proxy.go:606-658 | on every ordered channel the backend gets a prefix of what the client sent, if nothing was lost to a full queue, the ids on the hop of the client do not clash, and no two upstream messages that meet are a multiple of 65536 fragmented messages apart |
| Relay.Session.Enqueue | internal/proxy/session.go:107-122 | a message is queued, dropped on a closed session, or refused exactly when the queue is full and the session open |
| Relay.Session.PumpToBackend | internal/proxy/proxy.go:643-658 | one turn posts the oldest message, or closes the session if it is not relayable |
| Batching.OfferFits | internal/litenetlib/peer.go:594-611 | the merge buffer stays within the MTU and no datagram exceeds it |
| Batching.WaitsExactly | internal/litenetlib/peer.go:594-611 | exactly the packets that come within 23 bytes of the MTU leave alone and at once; what waits is sent exactly when one more packet would take the datagram over the MTU |
| Batching.Merger.SendUserData | internal/litenetlib/peer.go:594-611 | writing into the merge buffer equals appending to the batch, without leaving the buffer |
| Batching.Merger.SendMerged | internal/litenetlib/peer.go:577-592 | flushing sends nothing, the packet itself, or one merged datagram of all packets |
| Batching.Dispatcher.ProcessPacket | internal/litenetlib/peer.go:504-575 | processing a packet changes the state as the recursive decoding says and hands each packet inside to the handler of its property, in order, for any bytes, and ends |
| Batching.Dispatcher.Dispatch | internal/litenetlib/peer.go:523-574 | who handles a packet: ping, pong, its channel if there is one, the application, MTU discovery, or nobody |
| Batching.Dispatcher.Unpack | internal/litenetlib/peer.go:524-544 | the loop over the entries stops at the first malformed one |
| Batching.ReachesItsChannel | internal/litenetlib/peer.go:556-571 | data, reports and merged packets reach the channel whose id they carry, if it can exist there |
| Batching.ReachesItsHandler | internal/litenetlib/peer.go:545-574 | any other packet reaches the one who is to have it, or nobody |
| Batching.TakeFrames | internal/litenetlib/peer.go:524-544 | taking a merged datagram apart gives back exactly its packets in order |
| Batching.BatchingConserves | internal/litenetlib/peer.go:577-611 | for any packets, sizes, MTU growth and flushes, the datagrams decode to exactly the multiset of packets given, and none exceeds the MTU at the time it leaves |
| Batching.OrderExactly | internal/litenetlib/peer.go:598-611 | in every run the packets arrive in the order given if and only if none too big to batch was sent while others were waiting |
| SendQueues.HearKeepsOk | internal/litenetlib/channel.go:189-241 | a channel that gets work from a packet asks to be queued |
| SendQueues.WakesExactly | internal/litenetlib/channel.go:189-241 | a packet makes its channel ask for a visit exactly if there is now something to acknowledge because of it |
| SendQueues.VisitExact | internal/litenetlib/channel.go:186-186 | a visited channel asks to be visited again if and only if it has work left |
| SendQueues.NoLostWakeUp | internal/litenetlib/peer.go:194-201 | in every run the flags say exactly who is queued, nobody is queued twice, and every channel with work is queued |
| SendQueues.UpdateVisitsEach | internal/litenetlib/peer.go:683-696 | one update visits each queued channel exactly once and no other, and leaves queued exactly those with work |
| SendQueues.ScheduledPeer.EnqueueChannel | internal/litenetlib/peer.go:194-201 | a channel is queued unless its flag says it already is |
| SendQueues.ScheduledPeer.Send | internal/litenetlib/peer.go:211-246 | sending queues the packet and its channel and keeps the queue invariant; a channel that cannot exist changes nothing |
| SendQueues.ScheduledPeer.ProcessPacket | internal/litenetlib/peer.go:556-569 | an arriving packet changes one channel and queues it if it asks, keeping the queue invariant; an id beyond the channel count changes nothing |
| SendQueues.ScheduledPeer.DrainQueue | internal/litenetlib/peer.go:683-696 | the drain loop visits exactly the channels that were queued, in order, and sends what each of them, as it was before, has to send |
| Emissions.AlwaysMarked | internal/litenetlib/peer.go:167-192 | in every run a channel is of the kind that its id says, and all it keeps for sending carries that id |
| Emissions.SentOnChannel | internal/litenetlib/peer.go:683-696 | of what an update sends, the packets with the id of a channel are exactly what the visit of that channel sends, in order |
| ReliableLinks.ChannelRefines | internal/litenetlib/peer.go:556-569 | in every run of two peers with any channels, each reliable channel is in a state that the protocol can reach, and each step is exactly one step of the protocol or none: sending, an update, data and reports that arrive |
| ReliableLinks.DrainedLeavesQueue | internal/litenetlib/peer.go:683-696 | after an update a reliable channel is queued if and only if something on it is queued or not yet acknowledged |
| SequencedLinks.ChannelRefines | internal/litenetlib/peer.go:556-569 | the same for each sequenced channel and its protocol |
| MtuDiscovery.ProbeReads | internal/litenetlib/peer.go:460-464 | a probe has the size it names at both ends, and connection number 0 |
| MtuDiscovery.EchoReads | internal/litenetlib/peer.go:409-412 | what comes back differs in its property only |
| MtuDiscovery.NamesItsSizeExactly | internal/litenetlib/peer.go:393-403 | a probe or echo is heeded exactly if it has a possible size and this size stands behind its header and at its end |
| MtuDiscovery.ProbingPeer.constructor | internal/litenetlib/peer.go:157-165 | discovery starts with the smallest MTU |
| MtuDiscovery.ProbingPeer.ProcessMtuPacket | internal/litenetlib/peer.go:393-430 | whatever arrives, honest or not: a probe is echoed and makes the attempts count anew, an echo of the next size of the table raises the MTU, the last one ends discovery, all else is ignored |
| MtuDiscovery.ProbingPeer.UpdateMtuLogic | internal/litenetlib/peer.go:432-469 | a probe of the next size a second, until there are none, the attempts are used up, or the socket refuses it |
| MtuDiscovery.AttemptsExactly | internal/litenetlib/peer.go:432-469 | in every run, an attempt is made exactly by the update that brings the time since the last one to a second, only a probe of the partner makes the attempts count anew, discovery is over exactly at the last size, with the fourth attempt in a row, or when the socket refuses a probe, and nothing but these probes and the echoes is sent |
| MtuDiscovery.DisabledIsDone | internal/litenetlib/peer.go:432-437 | in every run a peer that does not discover sends nothing and keeps the smallest MTU |
| MtuDiscovery.MtuGetsThrough | internal/litenetlib/peer.go:393-469 | in every run of two peers over a network that loses and repeats probes, no peer takes an MTU above the smallest that the network does not carry both ways, or under another connection number than 0, or when either side has discovery disabled |
| MtuDiscovery.FindsExactly | internal/litenetlib/peer.go:393-469 | a run after which a peer stands at a place of the table exists if and only if it is the first, or both directions carry that size, both sides discover, and the connection number is 0 |
| MtuDiscovery.AloneExactly | internal/litenetlib/peer.go:449-454 | for a peer that hears no probe of its partner, if and only if it is moreover no more than three places up |
| MtuDiscovery.MtuOnlyGrows | internal/litenetlib/peer.go:417-429 | in every run the MTU only grows, and stays as it is once discovery is over |
| Sequenced.NewerExactly | internal/litenetlib/channel.go:387-390 | a packet counts as newer if and only if it is ahead by less than half a cycle, up to whole cycles, so none up to half a cycle old does |
| Sequenced.StalePasses | internal/litenetlib/channel.go:387-390 | one number further back an old packet passes for a new one |
| Sequenced.SequencedDelivery | internal/litenetlib/channel.go:374-409 | in every run the delivered packets are a strictly increasing selection of those sent, unchanged |
| Sequenced.NewestUntilDelivered | internal/litenetlib/channel.go:340-385 | in every run a reliable sequenced channel holds its newest packet until the receiver has delivered it |
| Sequenced.TickSends | internal/litenetlib/channel.go:340-363 | a tick sends everything queued, each packet under its own number, or with nothing queued the newest packet or nothing |
| SequencedTiming.SendsExactly | internal/litenetlib/channel.go:340-363 | in every run, a tick sends if and only if something is queued, or a reliable channel holds its newest packet and the delay has elapsed since it last sent |
| SequencedTiming.SendsWhat | internal/litenetlib/channel.go:340-363 | in every run, what a tick sends is the whole queue under the next numbers, or the newest packet, and exactly that is what the network holds from then on |
| Sequenced.RoundClears | internal/litenetlib/channel.go:340-409 | from any state with sender and receiver in order, however far apart, a lossless round repeats the newest packet; it delivers and acknowledges it if and only if the receiver has it or is behind by less than half a cycle and whole cycles, forgets it undelivered if and only if the receiver is behind by whole cycles, and else changes nothing but its time |
| Sequenced.RoundsNeverClear | internal/litenetlib/channel.go:340-409 | where one lossless round does neither, no number of them does |
| Sequenced.StuckForGood | internal/litenetlib/channel.go:340-409 | there is a run after which no number of lossless rounds delivers the newest packet |
| Sequenced.FarRound | internal/litenetlib/channel.go:340-409 | there is a run that leaves the receiver more than a cycle behind, after which one lossless round within the age bounds delivers the newest packet |
| Sequenced.AckOneCycle | internal/litenetlib/channel.go:381-385 | there is a run in which an acknowledgement exactly one cycle old makes the sender forget a packet that was not delivered |
| Sequenced.DataOneOlder | internal/litenetlib/channel.go:387-398 | there is a run with a copy just one number beyond the age bound, which is delivered a second time and out of order |
| Sequenced.OlderCopyHelps | internal/litenetlib/channel.go:374-409 | a delayed older copy less than half a cycle from both sides lets the next round deliver the newest packet |
| Sequenced.AckPacketReads | internal/litenetlib/channel.go:335-371 | the acknowledgement packet of a channel is one for that channel and number |
| Sequenced.SequencedChannel.SendNextPackets | internal/litenetlib/channel.go:340-372 | a tick sends everything queued, or repeats the newest packet when it is due, and then the acknowledgement packet owed |
| Sequenced.SequencedChannel.Drain | internal/litenetlib/channel.go:350-363 | the loop numbers and sends the whole queue and keeps the last packet |
| Sequenced.SequencedChannel.ProcessPacket | internal/litenetlib/channel.go:374-409 | only a newer packet is delivered, only the matching acknowledgement clears the newest packet, and fragments are ignored |
| Gates.Gate.Allow | internal/security/gate.go:107-163 | the decision and the new state for any address, time and state |
| Gates.Gate.Sweep | internal/security/gate.go:264-286 | the sweep forgets exactly the idle, unblocked buckets without sessions |
| Gates.Gate.Acquire | internal/security/gate.go:165-173 | a session is counted for its address and in total |
| Gates.Gate.Release | internal/security/gate.go:175-194 | a session is uncounted, never below zero |
| Gates.Gate.Ban | internal/security/gate.go:196-201 | the address is banned |
| Gates.Gate.Unban | internal/security/gate.go:203-216 | the address is not banned any more, and whether it was |
| Gates.TokensBounded | internal/security/gate.go:121-160 | in every run every bucket holds between zero and burst tokens |
| Gates.AllowedBound | internal/security/gate.go:121-162 | between any two calls of a run an address is let in at most burst + rate * span times, if idle buckets refill or its bucket is not forgotten |
| Gates.BoundFails | internal/security/gate.go:271-285 | if five minutes do not refill a bucket, every gate lets every address that is not banned in twice its burst within five minutes |
| Gates.BlockLasts | internal/security/gate.go:128-148 | after a rate-limited denial an address is not let in before its block is over, across sweeps, and a new block lasts the whole duration |
| Gates.EvictionTransparent | internal/security/gate.go:264-286 | if idle buckets refill, the gate decides every call of every run like one that never forgets |
| Gates.BoundExactly | internal/security/gate.go:271-285 | the rate bound holds for all runs if and only if five minutes refill a bucket |
| Gates.TransparentExactly | internal/security/gate.go:271-285 | forgetting buckets is never noticed if and only if five minutes refill a bucket |
| GateHistory.BannedExactly | internal/security/gate.go:107-119 | in every run, a call is refused as banned if and only if it asks to let an address in that is on the ban list of the gate or was banned by a call, and has not been unbanned since |
| GateHistory.DecidesExactly | internal/security/gate.go:107-163 | in every run, the decision on any address follows from the calls before it: its bans, the end of its last block, its tokens, the sessions it holds and those of all, in this order |
| GateHistory.CountersExact | internal/security/gate.go:130-156 | the counters of the gate are the numbers of calls refused, and refused for want of tokens |
| GateHistory.ForgottenExactly | internal/security/gate.go:264-286 | in every run, a call makes the gate forget the bucket of another address if and only if a sweep is due and the address is idle, not blocked and without sessions; it touches no other bucket |
| Codec.ReadsString | internal/litenetlib/data.go:186-208 | a written string reads back if and only if it is shorter than 65535 bytes, a longer one as empty |
| Codec.ReadsBlock | internal/litenetlib/data.go:172-184 | a written block reads back with its exact end |
| Codec.ReadsInt64 | internal/litenetlib/data.go:162-170 | every 64-bit number reads back, negative ones included |
| Codec.ReadsInt32 | internal/litenetlib/data.go:152-160 | every 32-bit number reads back, negative ones included |
| Codec.StringStable | internal/litenetlib/data.go:186-208 | a string that reads from a buffer reads the same from any longer one |
| Codec.Writer.PutString | internal/litenetlib/data.go:73-88 | a string is appended with its length plus one, an empty or overlong one as zero |
| Codec.Writer.PutBytesWithLength | internal/litenetlib/data.go:68-71 | a block is appended behind its length |
| Codec.Reader.Take | internal/litenetlib/data.go:111-120 | the position advances only if enough is left |
| Codec.Reader.String | internal/litenetlib/data.go:186-208 | reading a string equals the pure read, position included, also when it fails |
| Codec.Reader.BytesWithLength | internal/litenetlib/data.go:172-184 | reading a block equals the pure read, and a negative length is an error |
| Codec.BlockExactly | internal/litenetlib/data.go:172-184 | a block is read exactly where a length that is not negative stands, and so many bytes |
| Codec.StringExactly | internal/litenetlib/data.go:186-208 | a string is read exactly where its length plus one and its bytes stand, the empty one also from a zero |
| PreAuths.Parse | internal/preauth/preauth.go:67-144 | parsing field by field equals the pure parser for any bytes, all error cases included |
| PreAuths.AppendRealIP | internal/preauth/preauth.go:146-151 | the address is appended behind the untouched bytes |
| PreAuths.ParseRoundTrip | internal/preauth/preauth.go:67-144 | every field sequence within the limits is parsed back unchanged, whatever follows it |
| PreAuths.ParseAcceptsExactly | internal/preauth/preauth.go:67-144 | a pre-authentication is the result of some parse if and only if it is within the limits |
| PreAuths.ParseExactly | internal/preauth/preauth.go:67-144 | accepted is exactly what holds the fields, within their limits, one behind the other, and as what they say |
| PreAuths.ErrorExactly | internal/preauth/preauth.go:67-144 | fewer than eight bytes are reported as empty, and anything else that is not laid out like this as unsupported |
| PreAuths.ParseStable | internal/preauth/preauth.go:67-144 | bytes behind an accepted pre-authentication do not change the result |
| PreAuths.RealIPReadsBack | internal/preauth/preauth.go:146-151 | what is appended reads back as exactly the address with nothing left over, and the parse stays the same |
| Connections.CallbackDiscipline | internal/litenetlib/manager.go:384-416 | in every run a peer gets at most one connected and one disconnected callback, a never-connected one only as failed or rejected, and a request is answered at most once |
| Connections.StatesMoveForward | internal/litenetlib/peer.go:305-330 | over any stretch of a run a peer's state only moves forward, no callback is taken back, and a disconnected peer is never heard of again |
| Connections.OngoingIsListed | internal/litenetlib/manager.go:469-540 | in every run each connecting or connected peer is the one its address stands for, so an address never has two |
| Connections.ExitIsReported | internal/litenetlib/manager.go:547-569 | every step that takes a peer out of the connected state, other than Stop, reports it once |
| Connections.QuietUnlessShutDown | internal/litenetlib/peer.go:504-507 | nothing is delivered to a peer before it is connected, unless the application disconnected it, or stopped, while it was connecting |
| Connections.EarlyDeliveryExactly | internal/litenetlib/peer.go:305-330 | in every run, of the listed peers never connected, exactly those that were shut down while connecting are handed packets |
| Connections.DeliveredAfterDisconnect | internal/litenetlib/manager.go:547-555 | a peer disconnected by the application still gets packets, before any connection or after its disconnected callback |
| Connections.DeliveredBeforeConnection | internal/litenetlib/manager.go:195-225 | the shortest run in which a packet is delivered before a connection exists, for any address, time and data |
| Connections.DispatchedExactly | internal/litenetlib/peer.go:504-519 | an unreliable packet is delivered if and only if the peer is connected or shutting down |
| Connections.GivenUpIsReported | internal/litenetlib/manager.go:384-416 | in every run a connecting peer that is given up is reported if and only if the step is not a datagram that refuses its protocol version |
| Connections.TakeForward | internal/litenetlib/peer.go:504-515 | processing a packet moves a peer at most from shutting down to disconnected |
| Connections.Manager.Connect | internal/litenetlib/manager.go:195-209 | an address without a peer gets an outgoing one and its request packet is sent, any other nothing |
| Connections.Manager.DisconnectPeer | internal/litenetlib/manager.go:547-555 | a local disconnect shuts the peer down, sends its farewell and reports it if it was connected |
| Connections.Manager.ShutdownPeer | internal/litenetlib/peer.go:305-330 | the farewell packet carries the time, number and data of the connection, the data only if it fits |
| Connections.Manager.DisconnectPeerForce | internal/litenetlib/manager.go:557-569 | a forced disconnect reports and removes the peer only if it was connected or failed or was rejected |
| Connections.Manager.ResolveRequest | internal/litenetlib/manager.go:511-545 | a request is resolved once, with a packet that rejects it or, if its address is free, a peer and a packet that accepts it |
| Connections.Manager.ReplacePeer | internal/litenetlib/manager.go:469-493 | which peers a connection request replaces, which keep it out, and which answer it again |
| Connections.Manager.ProcessConnectRequest | internal/litenetlib/manager.go:462-509 | a connection request replaces a pending one, becomes a new one, is answered again, or is rejected without a handler, with the packets sent |
| Connections.Manager.Receive | internal/litenetlib/manager.go:353-427 | what any datagram does to the peer of its address, and what is sent back |
| Connections.Manager.UpdatePeer | internal/litenetlib/manager.go:313-320 | a peer that is done leaves the table, any other makes its update, with the connection packets sent |
| Connections.Manager.UpdateState | internal/litenetlib/peer.go:613-656 | timeouts, retries and giving up of one peer, by its state |
| Connections.Manager.UpdateShutdown | internal/litenetlib/peer.go:622-635 | a peer that is shutting down repeats its farewell every 300 ms until it times out |
| Connections.Manager.UpdateOutgoing | internal/litenetlib/peer.go:636-653 | a connecting peer repeats its request until it has no attempts left and is given up |
| Connections.Manager.Update | internal/litenetlib/manager.go:312-321 | one update moves every peer in the table exactly once and no other, and sends each address exactly the share of its peer |
| ConnectionPackets.RequestReads | internal/litenetlib/peer.go:118-126 | a connection request is accepted and read with the time, number, id and data it was made from |
| ConnectionPackets.RequestExactly | internal/litenetlib/manager.go:429-460 | a connection request is understood exactly if it is one that a peer could send, for some time, number, id, target and data |
| ConnectionPackets.AcceptReads | internal/litenetlib/peer.go:139-142 | an acceptance is read with the time, number and id it was made from |
| ConnectionPackets.DisconnectReads | internal/litenetlib/peer.go:318-324 | a farewell or rejection is read with the time, number and data it was made from |
| Handshakes.NobodyConnectsAlone | internal/litenetlib/peer.go:471-502 | in every run of two managers over a lossy, repeating, reordering network, a peer whose request got through has a counterpart that was accepted and told so, with the same time and number, and knows its id |
| Handshakes.AcceptedOnlyOnRequest | internal/litenetlib/manager.go:534-545 | in every such run an accepted peer stands for one that asked at this time, and knows its id |
| Handshakes.BothKnowEachOther | internal/litenetlib/peer.go:471-502 | in every such run, if attempts were made at different times, a connected peer and its counterpart know each other by time, number and both ids |
| Handshakes.ConnectsByAccept | internal/litenetlib/manager.go:384-395 | only an acceptance that matches, from its own address, connects a connecting peer |
| Handshakes.StepOwned | internal/litenetlib/manager.go:353-427 | every request and acceptance that any step sends is that of a peer under the address it goes to |
| Handshakes.HandshakeCompletes | internal/litenetlib/manager.go:383-394 | request, acceptance by the application and reply take any connecting peer and a free address to two connected peers that know each other |
| Handshakes.RejectionArrives | internal/litenetlib/manager.go:520-532 | a rejection is reported to the asking side as such, with its data, and frees the address |
| Handshakes.FarewellArrives | internal/litenetlib/manager.go:396-408 | a farewell ends the counterpart, which reports it with the data if the packet is smaller than the MTU and with as many zeros otherwise, and answers |
| Handshakes.AnswerEndsShutdown | internal/litenetlib/peer.go:509-515 | the answer ends the side that is shutting down |
| Handshakes.StrangerIsTold | internal/litenetlib/manager.go:410-426 | a packet to a manager that does not know the sender is answered, and the answer ends the peer, which is reported as not found |
| Handshakes.OtherProtocolIsTold | internal/litenetlib/manager.go:366-382 | a request in another version of the protocol is refused, and the refusal ends the connecting peer without a report |
| Handshakes.RepeatAnsweredAgain | internal/litenetlib/manager.go:473-477 | a repeated request changes nothing and gets the same acceptance again |
| Handshakes.NothingToRepeat | internal/litenetlib/manager.go:463-478 | in every run, a peer has no acceptance to repeat if and only if this manager set out to connect it |
| Lifetimes.StepHits | internal/litenetlib/manager.go:353-427 | a step does to each peer exactly what reaches it: a packet from its own address, a request from there, time, a call for it, or nothing |
| Lifetimes.ConnectedLeaves | internal/litenetlib/manager.go:396-427 | in every run, a connected peer stays so unless it times out, its connection is closed by the other side, it is not found, a newer request comes from its address, or it is disconnected or stopped here; which one it was decides the report, and it leaves the table if it is done |
| Lifetimes.ConnectingLeaves | internal/litenetlib/manager.go:383-427 | in every run, a connecting peer becomes connected exactly by its acceptance, and is given up exactly when its attempts run out, it is rejected, or its protocol is refused, with the report that belongs to it |
| Lifetimes.ShutdownEnds | internal/litenetlib/peer.go:509-515 | in every run, a peer that is shutting down is done exactly when that is confirmed or nothing was heard for too long, and is never reported again |
| Lifetimes.DisconnectedIsForgotten | internal/litenetlib/manager.go:313-320 | in every run, a disconnected peer leaves the table exactly when it has been silent for longer than the timeout or a request that is not older comes from its address |
| Lifetimes.TimesOutExactly | internal/litenetlib/peer.go:613-621 | in every run, a connected peer is reported as timed out and forgotten exactly by the update that brings its silence above the timeout, which the packets of its connection, and only they, set back |
| Lifetimes.VanishedIsReported | internal/litenetlib/peer.go:613-621 | a connected peer to which only time happens is reported as timed out once that time exceeds the timeout, and not before |
| Lifetimes.ConnectedIsFresh | internal/litenetlib/peer.go:496-502 | in every run, the silence of a peer starts at zero when it becomes connected |
| Lifetimes.AsksExactly | internal/litenetlib/peer.go:636-653 | in every run, a connecting peer repeats its request exactly when its delay has run out, as often as it may, and is given up the next time |
| Lifetimes.BidsFarewellExactly | internal/litenetlib/peer.go:622-635 | in every run, a peer that is shutting down repeats its farewell exactly when 300 ms have run out, until its silence exceeds the timeout |
| Lifetimes.ShutdownIsFresh | internal/litenetlib/peer.go:305-330 | in every run, both these clocks start at zero when the shutdown begins |
| Lifetimes.RequestsExactly | internal/litenetlib/manager.go:462-545 | in every run, what becomes of each request for a connection: kept out by the peer of its address, taken in place of a pending one, laid before the application, or rejected at once; it is answered once, and an accepted one whose address is free makes a connected peer with its time, number and id |
| Lifetimes.RequestUnderstood | internal/litenetlib/manager.go:462-509 | what is laid before the application is the request that the other side made, with its time, number, id and data |

## Left out

* Sockets, goroutines, tickers, channels of the runtime, tracing and traffic counters: every handler is one atomic step of one event loop, and the time is an argument.
* Packets are values: the sharing of one packet object between a slot, the merge buffer and the wire is not modelled. The connection number, which the code writes into the stored packet when it first sends it, is put on every packet that a hop hands over; by `StampCommutes` it does not matter when.
* A peer is split over several classes by concern (sending, batching, dispatch, send queue, reassembly, MTU discovery, connection); their fields are disjoint, and a class that holds all of them is not part of this model.
* SendQueues.ScheduledPeer.DrainQueue: the channels it visits are values that change as the methods of the two channel classes are proved to change theirs; the acknowledgement packet of a reliable channel is given by what it reports, as `OwnAckOnWire` says.
* Connections.Manager.Update: peers are positions in a list, not objects, and the two callbacks on a peer are taken to be installed.
* Connections.Manager.UpdatePeer: the pings, MTU probes and channel packets of a connected peer are not among the packets it is said to send; the probes are those of `UpdateMtuLogic`, the channel packets those of the drain loop.
* Connections.Manager.Receive: replies of a connected peer to pings and MTU probes are not among the packets it is said to send; the latter are those of `ProcessMtuPacket`.
* Connections.Manager.ReplacePeer: the source answers a repeated request with the stored acceptance of the peer (internal/litenetlib/manager.go:475). A peer that this manager set out to connect has none (`NothingToRepeat`); the source then hands a nil packet to sendRaw, which dereferences it, where the model sends nothing. This takes a manager that both accepts and makes connections, and a request from the address and with the time of a peer it connected itself.
* Stopping a manager is a step that shuts every listed peer down; the farewells it sends are not listed.
* Relay.EndToEnd: that ids do not clash on the hop of the client is assumed, since the client is another program.
* Gates.AllowedBound: calls come in the order of their times. The code reads the clock before it takes its lock, so two calls at once can be handled in the other order. Tokens are real numbers, without the rounding of floating point.
* Ping, pong and round-trip times: the resend delay is an arbitrary number. Ping numbers use all 16 bits, where circular differences are not exact.
* MTU discovery is modelled between two connected peers with the same connection number (`BothKnowEachOther`), without probes left over from an earlier connection. The other modules take the MTU of a peer to be any value from 1024 to 1432 that only grows (`MtuOnlyGrows`); where a farewell is built it is an argument.
* The order in which a proxy session is published, linked to its backend and counted by the gate; the overflow of a session queue closes it in another goroutine, and nothing is claimed after that.
* The relay towards the client, which is the same with the sides exchanged; the backend pool, configuration, command line and events.
* Text forms of versions, masked user names, enumerations and socket addresses.
