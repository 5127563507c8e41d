# FMTP connections, verified

A Dafny model of the FMTP 2.0 connection of the `fmtp-rs` crates, in three layers, and proofs of what
the layers promise.

* **One machine.** `Machine.Next` is the transition function of the eight connection states, and the classes
  `Connections.Connection` and `Connections.ConnectionContext` are the object and its two queues, with one method per
  state handler, proved against it. `Laws` says by effect and not by state what every event means, and proves that this
  leaves exactly the reaction of `Next`. `Machine.Run` folds `Next` over an event sequence; `History`, `Grammar` and
  `Deadlines` prove what holds over every event sequence. `Connection.Valid` says that an object is always where `Run`
  is after its own history, so those results hold of every object.
* **Two machines.** `Network` joins a caller and a callee by two FIFO wires, send queues and a clock, and lets the steps
  of the driver loop interleave freely. `Conservation` is about arbitrary behaviour, `Sessions`, `Safety` and `Progress`
  about users that cooperate, `Timing`, `Service`, `Tightness` and `Exactness` about drivers that are punctual,
  `Shutdown` and `Restart` about the requests to stop an association and to start it again, `Limits` about message
  lengths and the passing of time.
* **Bytes.** `Packets`, `Codec` and `Events` are the wire format, the handshake matching and the packet classifier.
  `Events.PacketEventIsWireEvent` connects the packets on the wires of `Network` to bytes in a read buffer.

`Drivers` holds the address loop, the user commands and the state branch of the driver, as methods on the connection
object. `Configuration` holds identifiers and the validation of configurations.

## The results worth reading first

* `Service.PunctualPeersStayConnected`: every timer of both drivers is armed and raised when due, in every interleaving.
  If the two are compatible, drivers are late by at most `late`, packets are read within `latency` as long as their reader
  listens, the identification timers have room and,
  where both sides want an association, each side's `tr` exceeds both `ts + late + latency` of the *other* side and
  `2 * latency`, then neither peer ever falls to IDLE or ERROR, and where they want it, both are in DATA_READY from
  `ta + 4 * latency + late` on.
* `Exactness.ConnectedExactlyWhenRoomy`: every part of that condition is necessary too, and that the two are compatible;
  whichever fails, some punctual run ends in failure, and even one in which both drivers take what they can do in the
  order of their biased `select!`: sending, then commands, then due timers, then reading. That `ts <= tr` on each side,
  which `Config::validate` checks, plays no part in it.
* `Shutdown.DeafForever`: a READY machine whose user wants no association is never read for again once its deadline has
  passed, whatever the peer sends.
* `Shutdown.KeptExactlyUntilRetry`: after a request to stop the association, from every established pair and for either
  side, the drivers keep the connection until `h` if and only if nothing but heartbeats is on its way to the requester,
  and `h` lies before the peer's retry, one peer `tr` after the request, or the requester's `tr` is at most the peer's,
  so that it is deaf by then. `Restart.RestartKeepsExactly` says exactly when it may start again.
* `Service.MessagesArriveInTime` adds delivery within `latency`, and `Limits.TimePasses` shows that the timing
  assumptions never stop the clock.
* `Laws.LawsAreComplete`: when the connection fails, when it is closed, when each state is reached and until when it may
  last, what is queued and delivered, and what becomes of id, role and target, each told on its own, with packets by their
  payload; together these laws leave exactly the reaction of the machine. `Connections.Connection.Handle` promises them of
  the object.
* `Safety.SafeExactlyWhenCompatible`: without any timing assumption, cooperative runs never fail if and only if both
  configured initial targets are DATA_READY or neither is, or the one that is not has a `tr` of zero and never hears the
  other.
* `Progress.AssociationTakesSixteenSteps`: bring-up takes exactly sixteen steps in every interleaving and cannot get
  stuck before.
* `Conservation.MessagesAreConserved`: under arbitrary commands, timers and disconnects.
* `Grammar.OutgoingGrammar`, `History.NoSilentLoss`, `History.NoGap`, `History.IdentificationPrecedesAssociation`,
  `Deadlines.DeadlinesFollowHistory` for a single machine, and `Codec.HandshakesCollide` and `Codec.SearchIgnoresOrder`
  for the exact ambiguity of the handshake.

## Where the code and its documentation differ

The model follows the code.

* `FmtpPacket::new` is documented to refuse empty data; it accepts it (`Packets.New`).
* Payloads up to 10240 bytes are accepted from users, but the reader bounds the length *with* header, so payloads of
  10236 to 10240 bytes are never read back; the reader's driver stops (`Codec.RoundTrip`,
  `Limits.LongMessagesCloseTheReader`).
* `FmtpPacket::from_bytes` is documented to return an error for a malformed header; for a declared length below the
  header size it slices out of range (`Codec.DriverBufferPanicsOnlyOnShortLength`: with the driver's buffer exactly then;
  `Codec.ShortLengthPanics` for such a buffer).
* Zero bytes received are documented to be handled as a disconnect. `handle_remote_packet` parses the buffer first, so they
  are exactly if what the buffer still holds can be parsed (`Events.EndOfStreamNeedsReadableBuffer`): after any packet
  that could be read, but not before the first one, where the end of the stream is an error that ends the driver
  (`Events.EndOfStreamBeforeAndAfterPackets`).
* In READY without the wish to associate the driver waits for `tr`, does nothing then, and does not renew it. As that
  branch of its biased `select!` comes before the one that reads, it never reads again (`Drivers.Driver.StateBranch`,
  `Shutdown.DeafForever`). Only its own user can end this.
* A shutdown request is documented to stop the association without releasing the connection. Left to the drivers, it
  keeps it for good if and only if nothing but heartbeats is on its way to the requester and the requester's `tr` is at
  most the peer's, which is to say that it is deaf when the peer's retry comes
  (`Shutdown.KeptForeverExactlyWhenDeafInTime`). Otherwise the retry finds the requester listening in READY, which is
  ERROR, and so do data and startups of the peer that are on their way already (`Shutdown.KeptExactlyUntilRetry`) or that
  its user sends before the request is there (`Shutdown.DataBeforeTheRequestLoses`). If the peer's user stops too, the
  connection is kept exactly if nothing but heartbeats is then on its way to the peer ahead of the request
  (`Shutdown.KeptIfPeerStopsToo`).
* The handler of ASSOCIATION_PENDING is documented to go to READY on a SHUTDOWN of the peer; it goes to ERROR. That
  happens: a user who stops and starts again before the peer has answered loses the connection
  (`Restart.AnswerComesLate`, `Restart.StopAndStartAtOnceLoses`, and exactly when in `Restart.RestartKeepsExactly`).
* Identifiers may contain the separator of the handshake, so the handshake can be ambiguous
  (`Codec.DashesMakeHandshakesAmbiguous`, and exactly when in `Codec.HandshakesCollide`); which connection a server finds
  then depends on the iteration order of its map (`Codec.SearchIgnoresOrder`).

## Model

| member | source | states |
|---|---|---|
| Configuration.NewIdentifier | crates/fmtp-core/src/identifier.rs:25-36 | accepted exactly when 1 to 32 ASCII bytes; the length is complained about first |
| Configuration.ConnectionFault | crates/fmtp-core/src/config.rs:62-71 | a connection is sound exactly when `ts <= tr` and a client has an address; the timers are complained about first |
| Configuration.Validate | crates/fmtp-core/src/config.rs:105-133 | accepts exactly the sound, non-empty configurations with a bind address if any server; says exactly for which of them a bind address or any connection is missing; completes only the server timer, with the longest server `ti`; reports exactly the unsound entries |
| Packets.New | crates/fmtp-core/src/packet.rs:76-93 | fails exactly above 10240 payload bytes, empty payloads included in success |
| Packets.IntoBytes | crates/fmtp-core/src/packet.rs:97-101 | the bytes of the format: 2, 0, the length of the whole with its higher byte first, 1 to 4 for the type, then the payload |
| Codec.ReadsFormat | crates/fmtp-core/src/packet.rs:110-124 | a buffer gives a packet if and only if it begins with these bytes of that packet, at most 10240 |
| Codec.RefusesFormat | crates/fmtp-core/src/packet.rs:110-124 | exactly which buffers are malformed, which too long, and on which the slice fails |
| Codec.FixedPacketsOnTheWire | crates/fmtp-core/src/packet.rs:62-66 | the bytes of ACCEPT, REJECT, SHUTDOWN, STARTUP and HEARTBEAT |
| Packets.FromMsg | crates/fmtp-core/src/packet.rs:128-138 | needs the size bound, and converts back to the same message |
| Packets.TryToMsg | crates/fmtp-core/src/packet.rs:144-155 | succeeds exactly on operational and operator packets, losing nothing |
| Packets.Handshake | crates/fmtp-core/src/packet.rs:167-176 | the pushed payload is local, dash, remote, and its `unwrap` cannot fail |
| Packets.CheckHandshake | crates/fmtp-core/src/packet.rs:195-226 | an id is answered only if configured and matching; a searching connection misses no match |
| Codec.RoundTrip | crates/fmtp-core/src/packet.rs:76-124 | decoding an encoded packet followed by anything returns it up to 10235 payload bytes and refuses it above |
| Codec.AcceptedBufferReencodes | crates/fmtp-core/src/packet.rs:97-124 | an accepted buffer starts with the encoding of the packet read from it, of the declared length |
| Codec.PrefixFree | crates/fmtp-core/src/packet.rs:97-124 | no encoding of a readable packet is a proper prefix of another |
| Codec.DriverBufferPanicsOnlyOnShortLength | crates/fmtp-tokio/src/connection.rs:238-369 | with the driver's buffer the slice is out of range exactly for a length below the header size |
| Codec.ShortLengthPanics | crates/fmtp-core/src/packet.rs:110-124 | there is such a buffer |
| Codec.HandshakesCollide | crates/fmtp-core/src/packet.rs:167-216 | two identifier pairs make one handshake exactly when equal or when one splits the other at a dash inside an identifier |
| Codec.DashesMakeHandshakesAmbiguous | crates/fmtp-core/src/identifier.rs:25-36 | a concrete collision of two admissible pairs |
| Codec.HandshakeAnswersMirrorOnly | crates/fmtp-core/src/packet.rs:167-216 | among dash-free configurations a handshake answers exactly the mirror image |
| Codec.MirrorIsFound | crates/fmtp-core/src/packet.rs:218-225 | among different dash-free pairs a searching server finds the mirror entry under every iteration order of its map |
| Codec.SearchIgnoresOrder | crates/fmtp-core/src/packet.rs:218-225 | the id found is independent of the iteration order, for every packet, if and only if no two entries expect the same handshake |
| Codec.PlainPairsAreDistinct | crates/fmtp-core/src/packet.rs:202-216 | which different dash-free identifier pairs are enough for |
| Codec.HandshakeIsNoVerdict | crates/fmtp-core/src/packet.rs:229-236 | no handshake is taken for ACCEPT or REJECT |
| Events.PacketEventIsWireEvent | crates/fmtp-core/src/connection.rs:112-132 | the event of a transmitted packet is the event of its bytes, whatever stale bytes follow in the buffer |
| Events.PacketsAreClassified | crates/fmtp-core/src/event.rs:154-189 | for every readable packet each of its possible events exactly by its type and payload, and by the entries consulted; an error exactly for system packets of another payload |
| Events.VerdictsOnTheWire | crates/fmtp-core/src/event.rs:171-172 | a buffer is an acceptance, or a refusal, if and only if it begins with the eleven bytes of one and anything was received |
| Events.EndOfStreamNeedsReadableBuffer | crates/fmtp-core/src/connection.rs:112-132 | zero bytes received are a disconnect if and only if the buffer can be parsed |
| Events.EndOfStreamBeforeAndAfterPackets | crates/fmtp-tokio/src/connection.rs:238-369 | so after every packet that could be read, and not with the zero-filled buffer the loop starts with |
| Events.DataIsClassifiedAsItself | crates/fmtp-core/src/event.rs:154-189 | exactly the data packets become data events, with their own message, and fail exactly when too long |
| Events.RemoteIdIsConfigured | crates/fmtp-core/src/event.rs:171-181 | a valid identification names a matching configured entry, and a connection's own id once that is configured |
| Connections.ConnectionContext.PollTransmit | crates/fmtp-core/src/connection.rs:40-42 | polls in order, and what was ever queued is unchanged: polled plus waiting |
| Connections.ConnectionContext.PollReceive | crates/fmtp-core/src/connection.rs:52-54 | the same for messages to the user |
| Connections.Connection.constructor | crates/fmtp-core/src/connection.rs:90-100 | starts in IDLE, not as server, with target IDLE, the given id and an empty history |
| Connections.Connection.BeforeDispatch | crates/fmtp-core/src/connection.rs:176-189 | local requests move the target before the handler runs |
| Connections.Connection.OnIdle | crates/fmtp-core/src/connection.rs:219-258 | the handler is the transition function on IDLE, queueing nothing |
| Connections.Connection.OnConnectionPending | crates/fmtp-core/src/connection.rs:268-308 | the handler is the transition function on CONNECTION_PENDING, queue included |
| Connections.Connection.OnIdPending | crates/fmtp-core/src/connection.rs:319-380 | the handler is the transition function on ID_PENDING, queue included |
| Connections.Connection.OnAcceptPending | crates/fmtp-core/src/connection.rs:390-425 | the handler is the transition function on ACCEPT_PENDING, changing no field |
| Connections.Connection.OnReady | crates/fmtp-core/src/connection.rs:435-472 | the handler is the transition function on READY, queue included |
| Connections.Connection.OnAssociationPending | crates/fmtp-core/src/connection.rs:483-536 | the handler is the transition function on ASSOCIATION_PENDING, queue included |
| Connections.Connection.OnDataReady | crates/fmtp-core/src/connection.rs:548-604 | the handler is the transition function on DATA_READY, both queues included |
| Connections.Connection.Handle | crates/fmtp-core/src/connection.rs:165-189 | one event: fields and queues move as `Next` says and as every law of `Laws` demands, and the object stays equal to the run over its history |
| Connections.Connection.HandleRemotePacket | crates/fmtp-core/src/connection.rs:112-132 | a refused buffer changes nothing; any other dispatches exactly its event |
| Connections.Connection.KeepsPromises | crates/fmtp-core/src/connection.rs:135-141 | every object in every state: id configured where needed, no silent loss, and from any point of the current transport connection on the user has got a prefix of the data heard since, all of it unless the connection is gone |
| Laws.LawsAreComplete | crates/fmtp-core/src/connection.rs:176-613 | from every sound machine the laws on failing, closing, moving, deadlines, queueing, delivering, names and target allow exactly one reaction to each event, that of the transition function |
| Laws.EveryStepIsLawful | crates/fmtp-core/src/connection.rs:176-613 | every step of every history keeps these laws |
| Laws.DisconnectEndsInIdle | crates/fmtp-core/src/connection.rs:229-569 | after any history that ends in a disconnect of either side the machine is in IDLE, or was in ERROR already; the user's takes the target to IDLE; and exactly when a SHUTDOWN is queued |
| Laws.OnlyAcceptMakesReady | crates/fmtp-core/src/connection.rs:402-413 | an identified server reading a buffer gets READY if and only if that holds an ACCEPT, and IDLE otherwise |
| History.RunKeepsSound | crates/fmtp-core/src/connection.rs:219-604 | in every reachable state the id is configured wherever a handler looks it up, ACCEPT_PENDING is a server, an association has target DATA_READY |
| History.ConfigurationIsAlwaysFound | crates/fmtp-core/src/connection.rs:273-279 | the "configuration not found" branches are dead, the server's included when the id comes off the wire |
| History.FallbackCloses | crates/fmtp-core/src/connection.rs:273-279 | should they be taken, they close the connection without a word |
| History.ErrorIsFinal | crates/fmtp-core/src/connection.rs:611-613 | from ERROR no run leaves it, queues or delivers anything |
| History.NoSilentLoss | crates/fmtp-core/src/connection.rs:582-587 | over every run the queued data packets carry exactly the submitted messages, in order, or the machine is in ERROR |
| History.NothingIsQueuedAfterLoss | crates/fmtp-core/src/connection.rs:611-613 | after the first lost message nothing at all is queued any more |
| History.NoGap | crates/fmtp-core/src/connection.rs:360-574 | between transport connections, from any state, what reaches the user is a prefix of the data heard, and all of it unless the machine is IDLE, CONNECTION_PENDING or ERROR |
| History.IdentificationPrecedesAssociation | crates/fmtp-core/src/connection.rs:219-425 | READY, ASSOCIATION_PENDING and DATA_READY imply that the events since IDLE begin with the whole identification exchange of that role for that configured id |
| History.AssociationObeysUser | crates/fmtp-core/src/connection.rs:449-591 | an association implies target DATA_READY and a startup request since IDLE that no shutdown request followed |
| History.PeersCannotChangeId | crates/fmtp-core/src/connection.rs:112-132 | once the id is configured, over all runs only a local setup changes it |
| Grammar.EveryTrailIsAccepted | crates/fmtp-core/src/connection.rs:281-604 | the log of queued packets of every run is accepted by a protocol automaton that stands where the state says |
| Grammar.OutgoingGrammar | crates/fmtp-core/src/connection.rs:326-604 | each data and heartbeat packet follows a STARTUP without SHUTDOWN or identification between; each association packet follows, as last identification, a server's handshake or an ACCEPT |
| Grammar.LeavingQueuesOneShutdown | crates/fmtp-core/src/connection.rs:567-604 | leaving DATA_READY other than to ERROR queues exactly one SHUTDOWN, and no event ever queues two packets |
| Deadlines.DeadlinesFollowHistory | crates/fmtp-core/src/connection.rs:497-587 | in DATA_READY the send deadline is `ts` after the last packet queued and the response deadline `tr` after the last sign of life |
| Deadlines.Cadence | crates/fmtp-core/src/connection.rs:563-587 | with a driver late by at most `late`, consecutive packets of one DATA_READY stay are at most `ts + late` apart |
| Deadlines.IdentificationIsBounded | crates/fmtp-core/src/connection.rs:319-425 | a server has left identification by `serverTi + ti + 2 late` after the transport connection, a client by `ti + late` |
| Deadlines.ServerAlwaysStarts | crates/fmtp-core/src/connection.rs:221-228 | from every machine in IDLE, a validated configuration with a server entry never takes the missing-timer error, and its filled-in timer covers every server entry's |
| Drivers.AttemptFromIdle | crates/fmtp-tokio/src/connection.rs:134-160 | for any addresses and outcomes the loop's events never lead to ERROR: ID_PENDING with one handshake, or IDLE with nothing queued and the target of the entry |
| Drivers.Driver.Connect | crates/fmtp-tokio/src/connection.rs:126-164 | returns the first reachable address, having dispatched exactly the loop's events; from IDLE it ends as `AttemptFromIdle` says, on the object |
| Drivers.Driver.CommandReceived | crates/fmtp-tokio/src/connection.rs:208-231 | what each command does to the object in each state: its new fields and the packet queued, or ERROR where it is out of place; asks to end the loop exactly when the channel is closed |
| Drivers.DueEventsNeverFail | crates/fmtp-tokio/src/connection.rs:269-318 | nothing that the driver raises by itself leads to ERROR |
| Drivers.Driver.StateBranch | crates/fmtp-tokio/src/connection.rs:269-318 | raises one of the driver's own due events if there is one and nothing otherwise, with the new fields and the packet queued told state by state; reconnects exactly in IDLE, stops exactly in CONNECTION_PENDING and ERROR, lets the loop read exactly when `Blocks`, and completes without doing anything exactly when the machine is deaf |
| Drivers.BlocksUnlessDueOrDeaf | crates/fmtp-tokio/src/connection.rs:269-318 | with a connection, the branch blocks if and only if nothing is due and the machine is not in READY past its deadline without the wish to associate |
| Drivers.NoIterationStartsPending | crates/fmtp-tokio/src/connection.rs:241-377 | without a user's setup command no iteration of the loop starts in CONNECTION_PENDING |
| Network.StartIs | crates/fmtp-tokio/src/connection.rs:126-183 | the two peers after their transport connection: one handshake queued, the callee without id |
| Network.MirrorsAreWellMatched | crates/fmtp-core/src/packet.rs:195-226 | two mirror-image configurations identify each other exactly if no other entry of the callee expects the caller's handshake, dashes or not; different dash-free pairs are enough |
| Conservation.MessagesAreConserved | crates/fmtp-core/src/connection.rs:571-587 | from any states and under any behaviour, both ways: accepted equals received, on the wire and queued while the reader is there, and received is always a prefix of accepted |
| Sessions.CooperativeNext | crates/fmtp-core/src/connection.rs:449-587 | what a cooperating event does in the three states after identification |
| Sessions.TrafficNext | crates/fmtp-core/src/connection.rs:497-577 | startups, heartbeats and data keep an associating machine alive and renew its deadline |
| Sessions.CalleeHearsHello | crates/fmtp-core/src/connection.rs:326-344 | the caller's handshake names its mirror at the callee, which answers with its own |
| Sessions.CallerHearsHello | crates/fmtp-core/src/connection.rs:345-355 | the callee's handshake is valid to the caller, which accepts |
| Sessions.CalleeHearsAccept | crates/fmtp-core/src/connection.rs:402-403 | the ACCEPT brings the callee to READY |
| Safety.CooperativeStepIsSafe | crates/fmtp-core/src/connection.rs:319-604 | the two-peer invariant on states and pipes is inductive under every cooperative step |
| Safety.NeitherPeerFails | crates/fmtp-tokio/src/connection.rs:283-311 | if the two are compatible, no interleaving of cooperative steps brings a peer to ERROR or IDLE |
| Safety.DisagreementFails | crates/fmtp-core/src/connection.rs:455-471 | if only one wants an association and the other listens at all, some run ends in failure, under every discipline of the drivers |
| Safety.SafeExactlyWhenCompatible | crates/fmtp-core/src/connection.rs:455-471 | hence safety of cooperative runs exactly when the configured targets agree on DATA_READY or the reluctant side never listens |
| Progress.QuietStepCounts | crates/fmtp-tokio/src/connection.rs:241-377 | every flush, delivery and automatic startup lowers the measure by exactly one |
| Progress.StuckExactlyWhenDone | crates/fmtp-tokio/src/connection.rs:241-377 | no such step is enabled exactly when both are in DATA_READY with all queues and wires empty |
| Progress.AssociationTakesSixteenSteps | crates/fmtp-core/src/connection.rs:281-509 | every bring-up takes exactly sixteen such steps and can always go on before |
| Timing.ResponseMargin | crates/fmtp-core/src/connection.rs:497-503 | a response deadline is at least its margin over the peer's longest silence away |
| Timing.DueEventsCooperate | crates/fmtp-tokio/src/connection.rs:277-311 | with roomy timers none of the timeouts that end a connection is ever due |
| Timing.StillEarly | crates/fmtp-core/src/connection.rs:326-509 | while one side is not yet in DATA_READY it is at most `4 latency + late` after the start |
| Service.PunctualStepKeepsClock | crates/fmtp-tokio/src/connection.rs:269-377 | the timed two-peer invariant is inductive under every punctual step |
| Service.PunctualPeersStayConnected | crates/fmtp-tokio/src/connection.rs:269-377 | over all punctual interleavings: no failure, both response deadlines keep their margin, and bring-up is bounded where both want data |
| Service.MessagesArriveInTime | crates/fmtp-core/src/connection.rs:571-587 | over the same runs: what was accepted is received in order, except what was accepted at most `latency` ago |
| Tightness.CalleeCanTimeOut | crates/fmtp-core/src/connection.rs:563-577 | with heartbeats sent as late and delivered as slowly as allowed, a peer of an established pair times out unless the callee's response timer exceeds `ts + late + latency` of the caller, biased drivers included |
| Tightness.UncoveredHeartbeatsFail | crates/fmtp-tokio/src/connection.rs:241-311 | from the start there is a punctual run into failure, of biased drivers too, whenever that condition fails on either side |
| Exactness.CallerTimerTooShort | crates/fmtp-core/src/connection.rs:281-378 | a caller's `ti` of at most twice the latency can run out while the handshakes are on the wire |
| Exactness.CalleeTimerTooShort | crates/fmtp-core/src/connection.rs:343-413 | so can a callee's, while its handshake and the ACCEPT are on the wire |
| Exactness.ServerTimerTooShort | crates/fmtp-core/src/connection.rs:221-228 | so can the server timer, before the first handshake is there |
| Exactness.CalleeCanStarve | crates/fmtp-core/src/connection.rs:497-509 | a peer that reaches DATA_READY first can time out before its startup and the answer have crossed, biased drivers included |
| Exactness.ConnectedExactlyWhenRoomy | crates/fmtp-tokio/src/connection.rs:241-377 | all punctual runs keep both peers connected if and only if the two are compatible and the timers are roomy; the same for the runs of biased drivers alone |
| Shutdown.ReadySurvives | crates/fmtp-core/src/connection.rs:453-471 | a READY machine survives exactly SHUTDOWN and HEARTBEAT, unchanged |
| Shutdown.DeafForever | crates/fmtp-tokio/src/connection.rs:283-290 | over all runs, once a READY machine without the wish to associate is past its deadline nothing is read for it any more and it stays as it is |
| Shutdown.FatalLoses | crates/fmtp-core/src/connection.rs:453-471 | whenever anything else is on its way to a requester that listens, data or a STARTUP, the drivers can lose the connection at once, by reading it |
| Shutdown.StepParts | crates/fmtp-core/src/connection.rs:504-591 | the invariant after the request (request under way, answered, or peer retrying unheard) is inductive under every step of the drivers while the retry is yet to come or is not heard |
| Shutdown.RetryLoses | crates/fmtp-core/src/connection.rs:504-509 | with nothing fatal under way the drivers can lose it one peer `tr` after the request, if the requester listens that long: the peer answers, waits and retries |
| Shutdown.KeptExactlyUntilRetry | crates/fmtp-core/src/event.rs:29-31 | over all runs of the drivers that end by `h`, from every established pair, either side: the connection is kept if and only if only heartbeats are on their way to the requester, and `h` is before the peer's retry or the requester's `tr` is at most the peer's |
| Shutdown.TimePassesAfterRequest | crates/fmtp-tokio/src/connection.rs:241-377 | these runs reach every time: after the request neither the timing assumptions nor what a deaf peer leaves unread stops the clock |
| Shutdown.LifeGoesOnUnheard | crates/fmtp-tokio/src/connection.rs:283-290 | with a requester whose `tr` is at most the peer's, every later time is reached with both alive and the peer's retry lying unread on the wire |
| Shutdown.KeptForeverExactlyWhenDeafInTime | crates/fmtp-core/src/event.rs:29-31 | so it is kept in all runs of the drivers of any length if and only if only heartbeats are on their way to the requester and its `tr` is at most the peer's |
| Shutdown.DataBeforeTheRequestLoses | crates/fmtp-core/src/connection.rs:582-587 | a peer in DATA_READY may send any deliverable message at any time, and as long as the requester listens that can lose the connection |
| Shutdown.BothStoppedKeepExactly | crates/fmtp-core/src/connection.rs:454-471 | two stopped peers keep the connection for good if and only if, for each, only heartbeats and SHUTDOWNs are under way to it or it is deaf already |
| Shutdown.KeptIfPeerStopsToo | crates/fmtp-core/src/event.rs:29-31 | if the peer's user also stops as long as the connection is kept, it is kept for good if and only if only heartbeats and the request are then on their way to the peer |
| Restart.AnswerComesLate | crates/fmtp-core/src/connection.rs:519-534 | a requester that starts again before the peer has read the request can be lost to the peer's answer |
| Restart.StepRejoins | crates/fmtp-core/src/connection.rs:497-509 | from a start with nothing coming, every punctual step leads on to a common association, within its deadlines |
| Restart.RestartKeepsExactly | crates/fmtp-core/src/event.rs:29-35 | after a request to stop, as long as it is kept, starting again keeps both peers alive in all runs, with data or without, if and only if the peer has answered and nothing but startups is on its way to the requester |
| Restart.StopAndStartAtOnceLoses | crates/fmtp-core/src/connection.rs:519-534 | starting again at once never does |
| Limits.LongMessagesCloseTheReader | crates/fmtp-core/src/packet.rs:114-124 | an accepted message is delivered, and the reader survives it, exactly up to 10235 payload bytes |
| Limits.Settle | crates/fmtp-tokio/src/connection.rs:241-377 | from anywhere on a punctual run all that is under way can be finished at once |
| Limits.TimePasses | crates/fmtp-tokio/src/connection.rs:297-311 | the next instant can be reached from anywhere on a punctual run, so the timing assumptions never stop the clock |

## Left out

- The driver's `select!`, sockets, sleeping, the `socket` variable and the reconnection timer: their effect is the
  step relation of `Network` and the oracle arguments of `Drivers`.
- Packets lost by the eagerly popped `transmit_future` and `receive_future` when another branch is chosen: the queues
  are modelled with the polling interface, and delivery is claimed up to the receive queue.
- TCP framing: one read carries one whole packet; stale bytes after it are covered, split and merged packets are not.
- The granularity of the driver's sleeping: a timer completes at the instant of its deadline, where a real one may be up to
  a millisecond late and let the loop read until then.
- Exactness.ConnectedExactlyWhenRoomy: for biased drivers timers of zero are not considered where an association is
  wanted: such a timer is due again as soon as it was raised, so that the loop never reads and model time stops.
- Overflow of instants and durations: times are natural numbers.
- Machine.Next: queues an over-long message where the original panics; `Connection.Handle` requires the size bound there.
- The constructors of `FmtpMessage`, user commands other than data, shutdown and startup between two peers, and
  the setup of a second transport connection between the same two peers.
- The daemon's registry and task spawning, the HTTP front end, TOML loading, serde visitors, `Display`, tracing and
  the texts of errors.
