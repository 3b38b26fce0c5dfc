# A verified model of the PocketPilot signaling hub and relay

The signaling server keeps a table of connected peers and a table of two-party sessions, relays SDP
and ICE between the members of a session and tears sessions down. Each connection is a small
concurrent program: it registers, greets, runs a read loop and a write loop, waits for both and
unregisters. Hub operations are atomic under one lock, but every message is handed over after the
lock is released. This project models that program, and the drone-side relay that talks to it, and
proves what survives the interleavings.

`dafny verify dfyconfig.toml` checks everything.

## How the model is built

- `HubTables.dfy` holds the hub's locked operations and the dispatch of one frame as functions,
  generic in what a connection is. `Mailbox.dfy` does the same for a peer's outbound side: the queue
  of 32, the close flag, the turns of the write loop, and the histories of what was handed to `Send`
  and what the socket accepted.
- `Hub.dfy` has the classes `Hub` and `Peer`. Their methods update maps and queues in place and are
  proved to do exactly what those functions say, for the hub and for every peer that is handed
  something. `closed` reads: closed, or bound to be. The code closes a full peer a moment
  after finding its queue full; `LateCloseCovered` shows that nothing is lost by closing it at once.
- `Network.dfy` is the server as an interleaving of threads. A step is one locked operation, one
  `Send`, one turn of a write loop, or one move of a connection's serving thread (arrive, register,
  start the loops, read a frame, end of the read loop, cancel, wake, unregister). A connection
  object is an index; an id may be used by many connections in turn. `IsRun` is a complete
  interleaving from the empty server; there is no bound on connections, sessions or steps. The
  histories number the messages handed to a peer, so that hand-overs of equal messages differ.
- `NetworkInvariant.dfy` proves the invariant. Its core, `LanesTold`, says that for every session and
  every ordered pair of connections the messages decided so far are exactly those the session's
  history calls for (`Story`). `ChannelsFifo` says that each receiver has been handed, from each
  sender, exactly the sends that sender has made; it alone crosses the gap between the lock and the
  sends. `RunHistory.dfy` finds, for everything a run has recorded, the one step that recorded it.
  `SessionTheorems.dfy`, `RunTheorems.dfy`, `Lifecycle.dfy`, `GreetingOrder.dfy`,
  `InitiatorOrder.dfy` and `Accounting.dfy` draw the consequences; `Counterexamples.dfy` gives complete runs for the
  properties that the server does not have, each of which also has its exact condition.
- `Relay.dfy` is the relay's session loop with an arbitrary stream of frames, an arbitrary pattern of
  failing operations and candidates gathered at any time; `RelayEffects.dfy` says, from the stream
  alone, exactly what it does, and `RelaySessions.dfy` joins it to the hub.
- `Backoff.dfy`, `LogLines.dfy` and `UdpBridge.dfy` are the reconnect delay in 64-bit arithmetic, the
  incremental line splitter and the UDP receive loop.

Generated session ids are assumed fresh (random UUIDs, section 5.4 of RFC 9562): a `Read` step is
given an id that no earlier session had. Lemmas that are about two different connections say so;
the others cover sessions of a peer with itself.

## Where the code and its documentation differ

The model follows the code.

- `SIGNALING.md` says that after a `bye` the other peer gets `peer.gone`. A `bye` by a connection
  outside the session also removes it, with no notice (`ByeNotifiesIffMember`, `StrangerByeIsSilent`).
- The sequence in `SIGNALING.md` shows `hello.ok` first. A `session.ack` can overtake it
  (`AckCanOvertakeHello`). `HelloFirstExact` says when: if and only if another connection's send
  reaches the peer while it still owes itself the `hello.ok`. A peer's own replies always come after
  it (`HelloBeforeReplies`).
- The initiator can be told that a session is gone before it is acknowledged (`GoneCanPrecedeAck`).
  `AckFirstExact` says when: if and only if the notice is handed over while the initiator's thread
  still owes the acknowledgement. For clients that name only sessions they were acknowledged,
  `AckPrecedesTraffic` adds that this is the notice of a target that unregistered in that very gap,
  and that nothing else comes early.
- A closed peer can be sent later messages without an earlier one (`WireSkipsAMessage`).
  `WirePrefixExact` says when delivery is a prefix: as long as the wire has not got past the place
  of the close.
- The relay is documented to serve sequential sessions but never compares session ids;
  `OfferCoherenceExact` gives the exact condition under which that is harmless, and
  `HubDeliversStrayOffer` a run of the hub that breaks it. Sequential sessions meet the condition
  (`RelayServesNamedSession`) only until the relay's wire has got past the place where the hub closed
  its connection: after that a `peer.gone` and a `session.ack` can be lost and a later offer still
  arrive (`SequentialDoesNotSuffice`). `WireCoherenceExact` covers every wire.
- The backoff bounds are arbitrary durations, zero and negative ones included; `ClosedFormExact`
  gives the exact range (`InRange`) in which the doubling never wraps to a wrong wait.
- The comment on `UDP` says the first source address is remembered; the code follows the latest one.
  `FirstAddressExact` says when the two agree.

## Model

| member | source | states |
|---|---|---|
| HubTables.NoticesOrderIndependent | internal/signal/hub.go:76-96 | the notices of `Unregister` are the same multiset for every order in which the map is ranged over |
| HubTables.NoticesAbout | internal/signal/hub.go:78-90 | what `Unregister` hands to one receiver about one session is that session's own notice, once, in any order of visiting |
| Mailbox.SendKeepsSound | internal/signal/peer.go:46-57 | handing over a message, queued or closing a full peer, keeps the accounting of queue, wire and history |
| Mailbox.SendExact | internal/signal/peer.go:17-53 | an open peer queues what it is sent, behind everything else, and is closed by it, losing it, if and only if 32 messages are queued |
| Mailbox.TurnKeepsSound | internal/signal/peer.go:78-107 | so does every turn of the write loop: take, write success or failure, ping success or failure, exit |
| Mailbox.NoSilentLoss | internal/signal/peer.go:46-107 | while a peer is open, written, in-flight and queued messages are together exactly what was handed to `Send`, in order, and at most 33 lag behind the wire |
| Mailbox.WireIsSubsequence | internal/signal/peer.go:46-107 | at all times the wire carries a subsequence of what was handed over and skips nothing from before the closing step |
| Mailbox.PrefixExact | internal/signal/peer.go:46-107 | the wire is a prefix of what was handed over as long as it has not got past the place of the close; past it, the message that closed the peer is missing, the rest was handed over later and, no two hand-overs being equal, the wire is no prefix |
| Mailbox.LateCloseCovered | internal/signal/peer.go:46-57 | whatever other senders and the write loop do between a refused queueing and the close that follows it, they can also do, with the same queue, wire and histories, if the close comes at once |
| Mailbox.LateSendOvertakes | internal/signal/peer.go:46-53 | after the close a later message can be accepted and written although an earlier one was dropped: the wire is then no prefix of what was handed over |
| HubObjects.TicksKeepSound | internal/signal/peer.go:78-107 | a whole stretch of the write loop, with other threads sending before and during its socket writes, keeps the accounting |
| HubObjects.TickExact | internal/signal/peer.go:78-107 | turn by turn: the oldest queued message is the one written; a failed write and a failed ping close the peer and stop the loop, the end of the context and the close stop it, nothing else does |
| HubObjects.Peer.Send | internal/signal/peer.go:46-53 | queues below 32, otherwise closes, and records the hand-over |
| HubObjects.Peer.Close | internal/signal/peer.go:55-57 | closes once; the second call changes nothing |
| HubObjects.Peer.WriteLoop | internal/signal/peer.go:78-107 | the loop, over any finite stretch of what it meets, leaves the peer as the turns it takes call for, and stops at the first failure, close or cancellation |
| HubObjects.Peer.HandleFrame | internal/signal/peer.go:109-196 | one frame changes the tables as `Dispatch` says and hands every peer exactly the messages addressed to it, in order, also when sender and target are the same |
| HubObjects.Peer.RequestSession | internal/signal/peer.go:133-156 | a `session.req` opens the session and acknowledges both sides, the initiator first, or answers with one error |
| HubObjects.Peer.RouteFrame | internal/signal/peer.go:158-180 | an `sdp` or `ice` frame reaches the counterparty alone with its fields unchanged, or is answered with one error |
| HubObjects.Peer.Admit | internal/signal/ws.go:53-60 | a duplicate id leaves tables and queue as they were and does not run; otherwise the peer is listed and then greeted |
| HubObjects.Hub.Register | internal/signal/hub.go:57-67 | fails exactly when the id is taken, and then changes nothing |
| HubObjects.Hub.OpenSession | internal/signal/hub.go:102-113 | fails exactly when the target is not listed; otherwise adds one session and returns the listed connection |
| HubObjects.Hub.OtherPeer | internal/signal/hub.go:116-137 | the counterparty, or which of the three errors applies |
| HubObjects.Hub.CloseSession | internal/signal/hub.go:139-162 | removes the session first; a member's counterparty is handed one notice, nobody else anything |
| HubObjects.Hub.Unregister | internal/signal/hub.go:69-98 | in-place loop with deletion: the peer and exactly its sessions go, every peer is handed its notices in some visiting order |
| NetworkInvariant.ReachableInv | internal/signal/peer.go:59-188 | every state of every interleaving: connections well-formed, ids bound, lanes told, channels FIFO, boxes sound |
| NetworkInvariant.StepKeepsLanes | internal/signal/hub.go:57-162 | every step keeps, for each session and pair of connections, the exact list of messages decided so far |
| NetworkInvariant.StepKeepsTables | internal/signal/hub.go:57-162 | every step keeps both members of every live session registered as the connections of its record |
| NetworkInvariant.StepKeepsChannels | internal/signal/peer.go:46-53 | sends made after the lock is released keep program order per sender and receiver |
| RunHistory.HandedAt | internal/signal/peer.go:46-53 | every message a peer has been handed was handed over by one step, behind exactly the messages before it |
| RunHistory.OpenedAt | internal/signal/hub.go:102-113 | every session on record was opened by one dispatched `session.req`, between the dispatching connection and the one then listed |
| RunHistory.RemovedAt | internal/signal/hub.go:69-146 | every removal was one locked step of the kind on record, by a bye or by the unregistering of a member |
| SessionTheorems.TargetGrammar | internal/signal/peer.go:127-188 | the target is handed a prefix of `ack (sdp\|ice)* gone?` for each session, the ack naming the initiator, and exactly the whole once the initiator's thread owes nothing |
| SessionTheorems.InitiatorGrammar | internal/signal/peer.go:138-180 | for arbitrary clients the initiator is handed at most one ack, and its traffic is a prefix of `(sdp\|ice)* gone?`, and all of it, the target's relayed frames and the closing notice, once the target's thread owes nothing |
| SessionTheorems.SelfSessionGrammar | internal/signal/peer.go:138-155 | a session with oneself: both acks, own traffic, then a notice only if a bye ended it |
| SessionTheorems.EndToEndOrder | internal/signal/peer.go:158-180 | the SDP and ICE handed to one end, turned back into frames by their own fields, are in order the SDP and ICE frames the other end dispatched, with at most a last one still owed |
| SessionTheorems.RelayedExact | internal/signal/peer.go:158-180 | relaying keeps every frame about a session, each of its fields, and their order |
| SessionTheorems.EndToEndWire | internal/signal/peer.go:78-107 | on the wire, turned back into frames, they are a subsequence of those, and an exact prefix until the wire has got past the place where the receiver was closed |
| SessionTheorems.Addressing | internal/signal/peer.go:127-188 | whatever names a session is handed over only by and to connection objects that were its members when it was opened |
| SessionTheorems.AtMostOneGone | internal/signal/hub.go:69-96 | over a whole run a session's end is announced at most once, to at most one connection |
| SessionTheorems.ExactlyOneGone | internal/signal/hub.go:69-161 | once the thread that removed a session owes nothing, its counterparty has been handed exactly one notice, with the reason of the removal |
| RunTheorems.SessionBinding | internal/signal/hub.go:102-112 | while a session lives, both its ids map to the very connection objects it was opened between, across any reconnects |
| RunTheorems.MembersRegistered | internal/signal/hub.go:105-110 | both members of every live session are registered, although only the target is checked |
| RunTheorems.DispatchNeverMissesPeer | internal/signal/hub.go:132-135 | `OtherPeer` never answers a dispatching connection with "target not connected" |
| RunTheorems.RoutedIffMember | internal/signal/peer.go:158-180 | an `sdp` or `ice` frame is routed, with its own session, role and text or candidate, if and only if its session is live and its sender a member; otherwise one error goes back, "session not found" or "not a member" as the case may be |
| RunTheorems.RequestAnswered | internal/signal/peer.go:133-156 | a `session.req` for a listed peer opens the session and owes the two acknowledgements, the initiator first; for one that is not listed it changes nothing and owes one "target not connected" error |
| RunTheorems.PlainFrameAnswered | internal/signal/peer.go:109-196 | ping, hello, unknown, malformed and undecodable frames change no table and are answered to the sender alone, each with its own reply; a bye for an unknown session is not answered |
| RunTheorems.ByeNotifiesIffMember | internal/signal/hub.go:139-161 | a `bye` always removes the session; the counterparty is owed one notice if and only if the sender is a member |
| RunTheorems.UnregisterExact | internal/signal/hub.go:69-96 | in reachable states, exactly the leaver's sessions go, everything else stays, and each session with another connection yields one notice to it |
| RunTheorems.SessionConservation | internal/signal/hub.go:78-146 | the sessions on record are the live ones, those removed by a bye and those removed by a disconnect, without overlap |
| RunTheorems.RemovedForGood | internal/signal/hub.go:78-146 | a removal is never revised and the id never lives again |
| Accounting.EventsConserved | internal/signal/hub.go:69-162 | over the events of every run: sessions opened = live + removed by a member's bye + removed by a stranger's bye + lost to a disconnect |
| Accounting.NoticesConserved | internal/signal/hub.go:76-161 | the notices all threads have decided to send are as many as the byes by members plus the sessions with a counterparty lost to disconnects; a stranger's bye owes none |
| RunTheorems.UnregisterOnceAndLast | internal/signal/peer.go:59-76 | a connection object unregisters itself, once, and acts in the hub no more |
| RunTheorems.RejectedNeverActs | internal/signal/ws.go:53-57 | a rejected duplicate changes nothing and never dispatches or unregisters |
| RunTheorems.HelloBeforeReplies | internal/signal/ws.go:59-60 | the first message a connection's own thread hands to it is its hello.ok |
| GreetingOrder.HelloFirstExact | internal/signal/ws.go:53-60 | the first message a connection is handed is its hello.ok if and only if no other connection's send reached it while it owed the hello.ok |
| GreetingOrder.AheadOfHello | internal/signal/peer.go:127-188 | whatever is handed to a connection ahead of its hello.ok is about a session that the sending connection has opened with it |
| GreetingOrder.HelloFirstIfUncalled | internal/signal/ws.go:53-60 | hello.ok comes first if no `session.req` naming the peer is dispatched between its registration and the hand-over of its hello.ok |
| RunTheorems.OpenPeerBacklog | internal/signal/peer.go:17-57 | in every interleaving an open peer has lost nothing, has at most 32 messages queued and is at most 33 behind |
| RunTheorems.WireAfterClose | internal/signal/peer.go:46-107 | in every interleaving the wire skips nothing handed over before the closing step |
| RunTheorems.WirePrefixExact | internal/signal/peer.go:46-107 | in every interleaving, what is on the wire is a prefix of what was handed over if and only if it has not got past the place of the close; past it, the message that closed the peer is missing and the rest was handed over later |
| RunTheorems.MarkIsClosingPoint | internal/signal/peer.go:55-57 | the closing step is where the flag was first set, and stays that for the rest of the run |
| Lifecycle.ClosedExactlyBy | internal/signal/peer.go:46-107 | in every interleaving an open peer is closed by exactly three things: a message handed over while 32 are queued, a failed write, a failed ping |
| Lifecycle.StoppedExactlyBy | internal/signal/peer.go:78-107 | a write loop stops by a failed write, a failed ping or an end it is told of, and the last only if the context has ended or the peer is closed |
| Lifecycle.DeadLoopWakes | internal/signal/peer.go:59-76 | no connection stays on with a dead loop: once its write loop has stopped or its read loop has returned, its serving thread can wake |
| Lifecycle.CancelReaches | internal/signal/peer.go:59-76 | the context of a connection is ended by a cancellation from outside, the end of its read loop or the waking of its thread, by nothing else and for good; from then on its write loop can quit and its thread can wake |
| Lifecycle.UnregisterAfterLoops | internal/signal/peer.go:69-76 | whoever unregisters has been woken and cancelled and has outlived both its loops |
| Lifecycle.TeardownPossible | internal/signal/peer.go:59-76 | teardown never deadlocks: from every reachable state a registered connection can, by moves of its own alone, end both loops, unregister and free its id |
| InitiatorOrder.AckFirstExact | internal/signal/peer.go:138-180 | for arbitrary clients: a message about a session that the initiator is handed is preceded by its ack if and only if the initiator's thread no longer owed the ack at the step that handed the message over |
| InitiatorOrder.AckPrecedesTraffic | internal/signal/peer.go:138-180 | if clients name only sessions they were acknowledged, what the initiator is handed about a session follows its ack if and only if the ack was no longer owed at that step; otherwise it is the notice of a target that unregistered between the opening and the ack's hand-over |
| Counterexamples.AckCanOvertakeHello | internal/signal/ws.go:53-59 | a run in which the first message handed to a peer is another's session.ack |
| Counterexamples.GoneCanPrecedeAck | internal/signal/peer.go:138-142 | a run in which the initiator is handed peer.gone before its session.ack |
| Counterexamples.StrangerByeIsSilent | internal/signal/hub.go:146-155 | a run in which a third connection's bye ends a session and nobody is owed a notice |
| Counterexamples.WireSkipsAMessage | internal/signal/peer.go:46-107 | a run after which the wire of a peer lacks one message and carries a later one |
| Counterexamples.HubDeliversStrayOffer | cmd/relay/main.go:221-236 | a run in which two phones call the relay and its open connection is sent an offer for the first session while the second is current; the relay applies it to the wrong connection |
| Counterexamples.SequentialDoesNotSuffice | cmd/relay/main.go:14-16 | a run with sequential sessions in which the relay's connection is closed by a full queue, a peer.gone and a session.ack are lost, a later offer still reaches the wire, and the relay applies it to the wrong connection |
| Relay.RunWsLoop | cmd/relay/main.go:165-309 | the loop has exactly the effects that `After` and `Return` compute, which `EffectsExact` reads off the stream |
| RelayEffects.EffectsExact | cmd/relay/main.go:165-309 | for every stream, pattern of failures and camera configuration: the effects are, in order, those each input is due by the frames before it, and then the clean-up, the camera first |
| RelayEffects.LoopHeadExact | cmd/relay/main.go:165-301 | at every loop head the connection held and the camera running are the ones the stream so far calls for |
| RelayEffects.AnswersExact | cmd/relay/main.go:221-290 | a connection sends exactly one answer for each offer it accepts whose answer can be made, set and written, and takes exactly the candidates that decode and can be added while it is held |
| RelayEffects.EveryOfferAnswered | cmd/relay/main.go:221-274 | if no answer fails to be made, set or written, every accepted offer is answered |
| Relay.LoopHead | cmd/relay/main.go:180-301 | at every loop head at most one connection and one camera are held; the connection is for the current session and holds the camera's track |
| Relay.ResourcesConserved | cmd/relay/main.go:172-309 | every connection and camera made is closed exactly once by the return, and none is claimed while another of its kind is held |
| Relay.AnswersCoherent | cmd/relay/main.go:349-362 | every answer and candidate of a connection carries the session it was made for, and answers never outnumber accepted offers (section 6 of RFC 3264) |
| RelaySessions.OfferCoherenceExact | cmd/relay/main.go:221-236 | every applied offer names the session being served, whatever fails, if and only if each offer arriving while a session is current names it |
| RelaySessions.WireCoherenceExact | cmd/relay/main.go:221-236 | for any wire, of an open or a closed connection: whatever part of it the relay reads and whatever fails, every applied offer names the session being served, if and only if each offer on it that arrives while a session is current names that session |
| RelaySessions.SequentialSuffices | cmd/relay/main.go:14-16 | sequential sessions under the hub's target grammar meet that condition |
| RelaySessions.WireIsTargetStream | internal/signal/peer.go:127-188 | what a never-requesting connection was sent, open or closed, obeys the target grammar for every session at once until its wire has got past the place of the close |
| RelaySessions.OneAtATimeIsSequential | internal/signal/peer.go:138-168 | if each session with a connection is opened only after the previous one's peer.gone has been handed to it, what it is handed has a peer.gone between any two acknowledgements |
| RelaySessions.RelayServesSequentialStream | cmd/relay/main.go:191-274 | a relay fed sequential sessions from such a wire applies every offer to a connection of the session it names |
| RelaySessions.RelayServesNamedSession | cmd/relay/main.go:191-274 | from a hub run to the relay's loop: if the relay requests no session, each session with it is opened only after the previous one's peer.gone has been handed to it, and its wire has not got past the place where its connection was closed, every applied offer names the live session |
| Backoff.RunWithBackoff | cmd/relay/main.go:116-138 | the loop begins exactly the waits that the outcomes of its attempts call for |
| Backoff.LoopFollowsAttempts | cmd/relay/main.go:116-138 | the loop is over exactly when its context has ended, after an attempt or in a wait, and until then counts the failures since the last success |
| Backoff.NoWaitAfterEnd | cmd/relay/main.go:120-132 | once the context has ended, after an attempt or in a wait, no further wait is begun |
| Backoff.ClosedFormExact | cmd/relay/main.go:133-136 | for all 64-bit bounds: the wait after the k-th failure is min·2^k capped at max for all k if and only if the bounds are in range; for positive bounds that is: both below 2^62 ns; a zero min with any non-negative max is in range, a negative min never |
| Backoff.WaitsFollowStreak | cmd/relay/main.go:116-138 | exactly which waits are begun, read off the attempts, for all bounds in range: one after each failed attempt until the context ends, of the closed form at the failures since the start or the last success |
| Backoff.SessionCycle | cmd/relay/main.go:142-161 | a session cycle never returns without an error, and which one says how far it got: login, dial, hello, reading |
| Backoff.RelayWaits | cmd/relay/main.go:116-161 | the relay never resets its backoff: the k-th wait is the closed form at k, and every cycle is followed by one until the context ends |
| Backoff.RelayWaitsMonotone | cmd/relay/main.go:142-161 | whatever the cycles meet and whenever the context ends, the waits of a relay run never decrease and never exceed max |
| LogLines.SplitSound | cmd/relay/video.go:183-184 | the split cuts at every newline and loses nothing |
| LogLines.SplitExtend | cmd/relay/video.go:183-184 | splitting a longer text only re-splits the carried last piece |
| LogLines.LogFfmpegStderr | cmd/relay/video.go:177-199 | for every way of cutting the stream into reads, the logged lines are the non-blank complete lines of the whole stream, then the non-empty remainder |
| LogLines.ReadAppend | cmd/relay/video.go:180-193 | the bytes of every read count, those of the one that returns an error included |
| LogLines.NothingAfterEnd | cmd/relay/video.go:193-199 | nothing is received after the read that returned an error |
| LogLines.LoggedExactly | cmd/relay/video.go:186-191 | a complete line is logged if and only if it is not blank |
| LogLines.BatchExact | cmd/relay/video.go:180-199 | the log holds exactly the complete lines that are not blank and, when reading has ended, last of all the remainder unless it is empty, blank or not |
| UdpBridge.IpEqualIsCanonical | internal/mavbridge/udp.go:121-123 | IP equality is equality of canonical forms |
| UdpBridge.MappedIsEqual | internal/mavbridge/udp.go:121-123 | an IPv4 address equals its IPv6-mapped form, whatever its bytes |
| UdpBridge.AddrEqualExact | internal/mavbridge/udp.go:121-123 | addresses are equal exactly when canonical IP, port and zone all are |
| UdpBridge.EndpointTracksLastSource | internal/mavbridge/udp.go:65-80 | between reads the endpoint equals the source of the most recent datagram |
| UdpBridge.EndpointStable | internal/mavbridge/udp.go:75-80 | the stored endpoint is not replaced while the autopilot keeps its address |
| UdpBridge.TargetIsFirstExact | internal/mavbridge/udp.go:75-80 | writes go to the first address ever seen if and only if the latest datagram came from it |
| UdpBridge.FirstAddressExact | internal/mavbridge/udp.go:22-24 | the bridge keeps the first address it sees, as documented, if and only if every datagram comes from that address |
| UdpBridge.Bridge.Run | internal/mavbridge/udp.go:58-93 | however often the buffer is overwritten, every packet handed over still holds its own datagram in an array of its own |
| UdpBridge.DeliveredToInstalled | internal/mavbridge/udp.go:50-54 | from one installation of a handler to the next, every datagram of at most 65507 bytes goes whole and in order to the handler in force, and to nobody after a detach |
| UdpBridge.HandlerIsLast | internal/mavbridge/udp.go:82-91 | the handler in force is that of the last installation, or the one from before the first |

## Left out

- WebSocket accept, read, write and ping, JSON coding, deadlines and tickers: each is a step that succeeds or fails at any time, and messages are decoded values.
- The id generator: freshness of session ids is assumed, not derived.
- `run` and `readLoop` as methods: they never return by themselves and are modelled as the steps of `Network`; `Peer.WriteLoop` covers finite stretches of `writeLoop`.
- The lock itself: each locked operation is one step; the methods of `Hub` are the steps' bodies, run one at a time.
- The `duplicate_peer` error frame: it is written straight to the socket of a connection that never gets a queue.
- Logging, and a peer's role, which nothing in the hub reads.
- pion's internals and asynchronous callbacks other than gathered candidates, and with them which telemetry handler is installed when.
- ffmpeg, RTP forwarding and what `startVideoSource` undoes when it fails: a failed start holds nothing.
- The telling of blank lines apart: `blank` is any test, of which trimming white space is one.
- The socket write of `UDP.Write`: only the address it would use is modelled.
- Liveness of the write loop after a close: it depends on the scheduler and on the connection.
- `internal/token`, `internal/auth`, `internal/mavframe`, `cmd/auth`, `cmd/signal` and the stub `cmd/testpeer`: library glue and fixed-format parsing that would only add easy members.
- Nothing was executed; all claims are about the model.
