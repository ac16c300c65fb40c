# KMTProto in Dafny

KMTProto is a transport-independent chat protocol: a client state machine, a server frame processor,
in-memory stores, and a few pure cores. This project models the parts that carry its guarantees and
proves them. `dafny verify dfyconfig.toml` checks everything.

## How the model is built

State that the program changes in place is a class with the same fields. Each method is proved equal
to a function on values, and the run theorems are about those functions. The client's class carries its
history as a ghost field and keeps the run invariant from call to call. Code that runs concurrently
is a state machine with one step per critical section, callback boundary or queue operation; the
theorems quantify over every list of steps, so over every interleaving.

| file | part of the system |
|---|---|
| `Wire`, `Protocol` | 64-bit counters with wrap-around, frames, errors, client actions |
| `Text`, `Names`, `Capability` | string order and sorting, capability names, negotiation and its client-side check |
| `JsonNumber`, `JsonValue`, `StateMerge`, `StateBatch`, `Snapshot` | decimal normal forms, JSON equality, versioned State, the bounded cache, batches and live updates at the client, snapshots |
| `Ulid` | the 128-bit to base-32 encoding |
| `ClientMachine`, `ClientInvariant`, `ClientTheorems`, `ClientAnswers`, `ClientProtocol` | the client as functions, its invariant over all runs, what that implies, what it does with each call and frame, and the class |
| `ReplayStore`, `ServerResume`, `Recovery` | the replay store, the server's RESUME, and a whole recovery of client and server together |
| `EndToEnd`, `CatchUp` | client, store and server over a network that loses, repeats and reorders; how the application gets the whole history |
| `DedupStore`, `Flights`, `SendHistory`, `SendPath`, `SendTheorems`, `SendProgress`, `SendAnswers` | the SEND path with single flights, claims, failures and time; what a SEND, a retry and a follower get when nothing fails |
| `SendTraffic`, `SendEndToEnd`, `SendReuse`, `SendDelivers` | what a client step puts on the network and reports; the outbox and the SEND path over such a network; what a reused identifier does; how a pending SEND gets through |
| `Outbound`, `Lanes`, `StreamLane`, `StreamOrder`, `StreamProgress` | the outbound FIFO, stream lanes, the order of frames they give, and what an undisturbed request achieves |
| `WaitsFor` | re-entrant callbacks over flights and lanes: who waits for whom |
| `Sessions`, `Admission` | the Session repository and the connection gate |

What the environment decides is a parameter: clock readings, generated identifiers, the verdict of
frame validation (`wellFormed`, `outboundOK`, `validJson`, `validEvent`, `accepts`), encoded lengths
(`size`, `encode`), and whether a dependency succeeds (`ok`). A SHA-256 fingerprint is an arbitrary
value. Sequence numbers and generations are 64-bit with explicit wrap-around.

Four things the code does shape the statements:

- A SEND is looked up with one clock reading and claimed with a later one. At most one execution per
  Session therefore needs the claim to be decided before the Session expires; `LateClaimRunsAgain`
  gives the run that shows it for every configuration, `AtMostOncePerSession` the guarantee.
- A publication can be appended and never enqueued. The end-to-end run therefore has an appended event
  that may never be sent; a later gap or RESUME brings it.
- The client keeps no memory of acknowledged SENDs, so an ACK repeated from an earlier SEND acknowledges
  a later one with the same identifier. What a reported acknowledgement means therefore depends on what
  the client accepted under that identifier: `AcknowledgedMeansExecuted` says what holds always, with one
  fingerprint and with one content, and `ReusedIdentifierMisreports` gives the run that shows the
  condition is needed.
- A second RESUMED WELCOME starts the staging over with a new boundary, and any frame other than the
  expected ones ends a recovery.

## Model

| member | source | states |
|---|---|---|
| EndToEnd.DeliveredIsLogPrefix | client.go:672-736 | Over every run of client, server and replay store, with a network that may lose, repeat and reorder frames, with reconnects, gaps, pruning, repeated RESUMEs and any forged frame that is not an EVENT: the events handed to the application in the current Session are exactly the first `lastSeq` entries of the server's append history, and in every earlier Session a prefix of that Session's history |
| EndToEnd.NoFalseConflict | client.go:676-685 | In every such run a genuine EVENT, however late or often it arrives, is never reported as a protocol conflict |
| CatchUp.LiveEventsCatchUp | client.go:672-736 | From every reachable state with a READY client: if the remaining events of its Session's history were published and arrive in order, the application has been given exactly the whole history and the client is READY at its end |
| CatchUp.PublishedIsDelivered | server.go:336-384 | From every reachable state with an up-to-date READY client, a publication with an unused identity that is appended, enqueued and received is delivered as the next event of the history |
| CatchUp.RecoveryCatchesUp | client.go:228-269 | From every reachable state, however a recovery begins (RESUME, RESUME with State, or an EVENT that shows a gap): the client sends one RESUME, and if the server answers the Session, position and State request of that very frame with a batch the client can take, then, after any events still on the way, delivered before plus delivered by it is the whole history, the cache is that of the snapshot, and the client is READY |
| CatchUp.ResumeCatchesUp | client.go:228-269 | The same for RESUME after a reconnect, with the sent frame spelled out: Session, last delivered position, no State |
| CatchUp.GapCatchesUp | client.go:725-732 | The same for a gap on a live connection, with any newer or duplicate events in flight |
| EndToEnd.MoveKeeps | server.go:350-384 | Every atomic move of client, publication (append and enqueue apart), RESUME (high-water, load and send apart), pruning or network keeps every event in flight, staged, delivered or held by the server equal to the entry of the append history at its own position |
| EndToEnd.StepInventsNothing | client.go:398-451 | A client step delivers and stages only events that were staged before or arrive with it |
| Recovery.RecoveryCompletes | client.go:584-636 | Whenever the server answers a RESUME with a batch and the client's replay and cache limits admit it, feeding the batch, preceded in the gap case by any newer or duplicate in-flight EVENTs, ends READY at the high-water mark having emitted exactly the missed events, then the State changes, then ready |
| Recovery.InFlightIgnored | client.go:686-694 | Before the boundary is known, in-flight EVENTs of a same-connection gap change nothing |
| Recovery.RangeStaged | client.go:695-722 | Any admitted consecutive range, fed from any point, is staged completely and then either completes the recovery or waits for the snapshot |
| ServerResume.CheckRange | server.go:658-673 | The loop with its wrapping counter accepts exactly the valid events at positions last_seq+1 to replay_to, each once and in order, up to the last 64-bit position |
| ServerResume.HandleResume | server.go:590-700 | The handler answers with a batch if and only if the Session is found, a State request has its capability, a provider and a frame identity, the client is not ahead, what it missed is retained, within the limits and valid, and the snapshot and WELCOME can be produced; otherwise with the code, close and abandon of the first cause |
| ServerResume.AnswersByCause | server.go:590-700 | The same of the reply function, with the content of the batch |
| ServerResume.GoneGetsNothing | server.go:596-603 | Exactly an unknown or expired Session gets INVALID_SESSION and is abandoned, whatever is still held of its history |
| ServerResume.BatchExactly | server.go:618-698 | A batch is sent if and only if the client is not ahead, the missed range is retained and within both limits, its events pass the outbound check and the snapshot can be produced; it is then the boundary, the whole missed range and the snapshot |
| ClientInvariant.StepKeeps | client.go:189-451 | Every public operation and every incoming frame, with any clock and any validation verdict, keeps the invariant (all twelve operations, retries included): phases and Session agree, an absent Session retains nothing, at most one current ping and SUSPECT only when overdue, staging is an initial part of the announced range within limits and empty outside RESUMING, deliveries are the stream without gap or repetition, accepted SENDs equal acknowledged plus pending, the cache is within bounds |
| ClientInvariant.EveryRunKeeps | client.go:40-78 | The invariant holds after every list of operations |
| ClientInvariant.AdvanceDelivers | client.go:827-832 | Delivering any consecutive events keeps the identity map exactly the last window of deliveries and the delivered stream gapless |
| ClientTheorems.OldEventVerdict | client.go:676-685 | In every reachable state the duplicate, conflict or expired verdict from the bounded identity map equals the one computed from the full delivery history cut to the window |
| ClientTheorems.RecoveryIsAllOrNothing | client.go:398-451 | In RESUMING no frame of the current connection returns an error; each leaves delivery untouched, or delivers the whole range up to the boundary with ready last, or ends DISCONNECTED with staging cleared, nothing delivered, a close or full-sync action, and retained state unchanged unless the Session is abandoned |
| ClientTheorems.FinishRecovers | client.go:491-526 | Completing a recovery delivers exactly the staged events and reaches their end |
| ClientTheorems.StaleChangesNothing | client.go:398-402 | Calls and frames of another connection generation change nothing |
| ClientAnswers.NextEventIsDelivered | client.go:733-735 | Through the whole frame handler: a READY client given the EVENT after its last position delivers it, as its only action; position and identity window move on by one and nothing else changes |
| ClientAnswers.GapStartsRecovery | client.go:725-732 | An EVENT beyond that starts a recovery with exactly one RESUME from the last delivered position, or, if that frame is invalid, changes nothing |
| ClientAnswers.RecoveryBegins | client.go:819-825 | Whatever step takes the client into RESUMING has as its one action a RESUME for its Session, its last delivered position and the namespaces whose State it expects, and starts with nothing staged |
| ClientAnswers.ResumesExactly | client.go:228-269 | A recovery is asked for if and only if the client is connected with a Session and the frame is valid, and, for State, the capability is there and the namespaces are distinct and valid |
| ClientAnswers.StateResumeAsks | client.go:238-254 | With State the RESUME carries the namespaces in canonical order |
| ClientAnswers.BoundaryExactly | client.go:605-632 | A RESUMED WELCOME is taken if and only if it is of the Session, starts right after the position, does not end before it, is within the limit and promises the State asked for; an empty range without State completes; anything else stops the recovery |
| ClientAnswers.ReplayExactly | client.go:686-722 | After the boundary exactly the next event of the range is staged, if it fits; the last one delivers the whole range; any other stops the recovery |
| ClientAnswers.ResumeSnapshotExactly | client.go:491-526 | The snapshot completes the recovery if and only if it is due, holds only requested namespaces and the cache can take it; otherwise it stops it, as a conflict or a violation |
| ClientAnswers.PongAnswers | client.go:638-655 | The PONG of the outstanding ping clears it and restores READY; any other changes nothing |
| ClientAnswers.PingIsSent | client.go:357-373 | A ping is recorded and sent if and only if the client is READY with none outstanding |
| ClientAnswers.OverduePing | client.go:375-396 | An overdue ping makes READY SUSPECT; the grace period then ends the connection and nothing else; before, nothing changes |
| ClientAnswers.SilenceIsNoticed | client.go:357-396 | As a run: a ping unanswered for the timeout makes the client SUSPECT at the next check |
| ClientAnswers.SuspectEnds | client.go:375-396 | From SUSPECT either the PONG restores the client or the grace period closes, with Session, outbox and position kept |
| ClientAnswers.ErrorAnswers | error.go:34-68 | Outside RESUMING an ERROR is reported first; the connection closes, as the last action, exactly for the six closing codes; INVALID_SESSION drops all that was kept for the Session; any other code ends at most the query it names |
| ClientAnswers.ErrorEndsRecovery | client.go:738-775 | In RESUMING every ERROR ends the recovery, with full synchronisation or close as its code says |
| ClientAnswers.ForeignIsRefused | client.go:413-425 | A frame that names another Session, or that only a client sends, is refused without effect |
| ClientAnswers.MalformedIsRefused | client.go:405-412 | An invalid frame is reported without effect; an invalid ERROR closes and is not answered |
| ClientAnswers.OutOfPlaceIsRefused | client.go:398-451 | A frame outside the phases that expect it is refused without effect |
| ClientAnswers.Connects | client.go:189-209 | Two calls open a new connection from any state, with a new generation and all that is kept for the Session |
| ClientAnswers.Greets | client.go:211-226 | HELLO with the configured offers if and only if connected without a Session |
| ClientAnswers.Disconnects | client.go:271-280 | Only the connection ends |
| ClientAnswers.WelcomeAdopts | client.go:590-604 | A new Session is adopted if and only if it is named, every accepted version was offered and every required offer answered; the capabilities are then exactly the accepted names with their versions; otherwise nothing changes |
| ClientAnswers.SendIsTaken | client.go:315-337 | A SEND is pending and sent if and only if it fits the limits, is valid and its identifier is not pending |
| ClientAnswers.AckReports | client.go:657-670 | An ACK removes and reports the pending SEND it names; one that names none changes nothing |
| ClientAnswers.RetryResends | client.go:339-355 | Every pending SEND is among the actions exactly once, unchanged, in identifier order, and nothing else is |
| ClientAnswers.QueryIsRecorded | client.go:284-313 | The query sent is the one recorded, with the identities asked for in canonical order, and no outstanding identifier is used twice |
| ClientAnswers.SnapshotAnswers | client.go:453-489 | A snapshot is taken if and only if its query is outstanding, every object was asked for and the cache can take it; the query is then closed; otherwise nothing changes |
| ClientAnswers.AnsweredOnce | client.go:453-489 | A second answer to the same query is refused |
| ClientProtocolObject.ClientProtocol.constructor | client.go:80-125 | A new object is DISCONNECTED, holds nothing, and satisfies the run invariant with an empty history |
| ClientProtocolObject.ClientProtocol.ConservesSends | client.go:315-337 | On the object, after any calls: every SEND accepted since the Session began is acknowledged or pending under its own identifier and Session, never both and never neither |
| ClientProtocolObject.ClientProtocol.RemembersWindow | client.go:827-832 | On the object, after any calls: what it delivered is the stream from its beginning without gap or repetition, and the identity map is exactly the last window of it |
| ClientProtocolObject.CollectRetries | client.go:345-354 | Collecting the keys, sorting them and copying gives each pending SEND once, in identifier order |
| Text.OrderedOnly | client.go:879-885 | A set of identifiers has one sorted listing, so the order in which the map yields them cannot show |
| ClientProtocolObject.ClientProtocol.BeginConnect | client.go:189-196 | The new generation, wrapping at 64 bits, and a reset connection; Session, outbox and cache stay |
| ClientProtocolObject.ClientProtocol.TransportConnected | client.go:198-209 | Equals the step function: CONNECTED from CONNECTING of the current generation only |
| ClientProtocolObject.ClientProtocol.StartSession | client.go:211-226 | Equals the step function: HELLO only when connected without a Session and only if its frame is valid |
| ClientProtocolObject.ClientProtocol.StartResumeLocked | client.go:256-269 | Equals the step function: RESUME with the last delivered position, staging reset |
| ClientProtocolObject.ClientProtocol.Resume | client.go:228-233 | Resumption without State |
| ClientProtocolObject.ClientProtocol.ResumeWithState | client.go:238-254 | Resumption with the namespaces in canonical order; refused without the capability, on repetition or invalid names |
| ClientProtocolObject.ClientProtocol.Disconnect | client.go:271-280 | Connection state cleared, Session kept |
| ClientProtocolObject.ClientProtocol.QueryState | client.go:284-313 | The query is recorded in canonical order and sent, once per identifier |
| ClientProtocolObject.ClientProtocol.EnqueueSend | client.go:315-337 | The SEND is in the outbox under its identifier and sent, or nothing changes |
| ClientProtocolObject.ClientProtocol.RetryPending | client.go:339-355 | Every pending SEND is sent again exactly once, in identifier order, unchanged; no field changes |
| ClientProtocolObject.ClientProtocol.SendPing | client.go:357-373 | At most one outstanding ping of the current generation |
| ClientProtocolObject.ClientProtocol.CheckHeartbeat | client.go:375-396 | SUSPECT at the timeout, closed at the grace period |
| ClientProtocolObject.ClientProtocol.HandleIncoming | client.go:398-451 | Fencing, malformed frames, correlation, dispatch, and the failure path that ends a recovery, as the step function says; in RESUMING no frame of this connection is an error and the recovery is all or nothing |
| ClientProtocolObject.ClientProtocol.AcceptNewSession | client.go:590-604 | The accepted capabilities pass the client's check before the Session becomes READY |
| ClientProtocolObject.ClientProtocol.AcceptResumption | client.go:605-632 | The boundary is fixed, staging starts over, limits end the recovery |
| ClientProtocolObject.ClientProtocol.HandlePongLocked | client.go:638-655 | Only the PONG of the outstanding ping of this generation clears it |
| ClientProtocolObject.ClientProtocol.HandleAckLocked | client.go:657-670 | An ACK removes its SEND once and reports it once |
| ClientProtocolObject.ClientProtocol.HandleEventLocked | client.go:672-736 | Duplicates, conflicts, gaps and in-order delivery as the handler function says |
| ClientProtocolObject.ClientProtocol.HandleReplayEventLocked | client.go:686-722 | Staging of one replay event with the wrapping expectation and both limits |
| ClientProtocolObject.ClientProtocol.DeliverBuffer | client.go:713-718 | The loop over the buffer delivers every staged event in order and advances over all of them |
| ClientProtocolObject.ClientProtocol.HandleQuerySnapshotLocked | client.go:453-489 | A snapshot answers its own query only, and only with objects that were asked for |
| ClientProtocolObject.ClientProtocol.HandleResumeSnapshotLocked | client.go:491-526 | The snapshot completes the recovery or ends it; nothing in between |
| ClientProtocolObject.ClientProtocol.HandleUpdateLocked | client.go:528-540 | One object merged under the batch rules |
| ClientProtocolObject.ClientProtocol.HandleErrorLocked | client.go:738-775 | The code's behaviour, the answered query, the end of a recovery, full synchronisation and close as the handler function says |
| ClientProtocolObject.ClientProtocol.AbandonSession | client.go:777-787 | Everything retained for the Session is gone |
| ClientProtocolObject.ClientProtocol.HandleIncomingFailure | client.go:789-798 | In RESUMING an error becomes the end of the recovery |
| ClientProtocolObject.ClientProtocol.ResetConnectionTransient | client.go:807-817 | Only the connection's own fields are cleared |
| ClientProtocolObject.ClientProtocol.RememberEvent | client.go:827-832 | One identity in, the one that left the window out |
| Text.SortStrings | client.go:879-885 | The in-place insertion sort leaves a sorted permutation |
| Text.SortedUnique | client.go:879-885 | A multiset of strings has one sorted arrangement, so the caller's order cannot show |
| ReplayStore.ReplayExactly | store.go:271-302 | Replay succeeds if and only if the range is well-formed, retained, appended and within both limits, and is then precisely that slice of the append history |
| ReplayStore.AppendKeepsStream | store.go:304-329 | Appending adds one new position and one identity never used before, at the end |
| ReplayStore.PruneKeepsStream | store.go:331-346 | Pruning keeps the history and the high-water mark and never lowers the floor |
| ReplayStore.MemoryReplayStore.CurrentSeq | store.go:265-269 | The high-water mark is the length of the full append history, pruned or not |
| ReplayStore.MemoryReplayStore.Replay | store.go:271-302 | The loop over the retained events with its running byte count gives the slice of the full history |
| ReplayStore.MemoryReplayStore.Append | store.go:304-329 | The four maps keep representing the history extended by one event; refused appends change nothing |
| ReplayStore.MemoryReplayStore.PruneBefore | store.go:331-346 | The four maps keep representing the same history with the raised floor |
| ReplayStore.Select | store.go:283-298 | Stopping at the first event that does not fit is the same as comparing the whole range with the limit |
| DedupStore.KeyInjective | store.go:155 | Identifiers without control characters never share a key |
| DedupStore.ClaimBlocks | store.go:157-204 | A claim blocks every later claim at any time until completed or aborted; a completion, at any later reading, blocks for its retention from that reading and hands out its ACK, and is neither completed nor aborted again; after an abort or the retention the claim is free |
| DedupStore.MemoryDedupStore.Claim | store.go:157-175 | Granted or refused with the existing record as the claim function says; nothing else changes |
| DedupStore.MemoryDedupStore.Complete | store.go:177-194 | Only a processing record is completed, with its fingerprint kept and its retention started |
| DedupStore.MemoryDedupStore.Abort | store.go:196-204 | Only a processing record is dropped |
| Flights.AcquireKeeps | server.go:861-870 | The first caller gets a new flight current under its key; later ones get that flight, with the same SEND and content, or a conflict |
| Flights.FinishKeeps | server.go:872-879 | Finishing takes the flight out of the table and closes its signal, once |
| Flights.FlightTable.AcquireFlight | server.go:861-870 | Leader, conflict, busy or follow as the table function says |
| Flights.FlightTable.FinishFlight | server.go:872-879 | Removed and closed only if it is the current flight of its key |
| Flights.FlightTable.EnterCallback | server.go:881-888 | The flag is set unless the flight is over or already inside a callback |
| Flights.FlightTable.LeaveCallback | server.go:889-897 | The flag is cleared on return and on panic |
| Flights.FlightTable.SetFlightAck | server.go:900-905 | The ACK later followers read |
| SendPath.MoveKeeps | server.go:481-588 | Every step of every call keeps: one working leader per SEND, table and flags as the leaders' places say, each store record equal to the SEND's progress in the history, every ACK at hand already stored for that SEND and content, a legal history |
| SendPath.EnteringKeeps | server.go:881-886 | A leader never finds its own callback flag set |
| SendTheorems.EveryAckIsStored | server.go:491-588 | In every interleaving of calls, retries, failures and time, each ACK sent by leader, waiting follower, callback-time follower or later retry equals one stored earlier for that SEND and content, after the application succeeded on that content |
| SendTheorems.StoredAckPassesCheck | server.go:837-852 | The check of stored ACKs never refuses one, from a flight or from the store |
| SendTheorems.NeverTwiceWithinRetention | store.go:155-194 | Two executions of one SEND are separated by a stored completion, then a claim at least the retention later, and by at least the retention in time |
| SendTheorems.AtMostOncePerSession | server.go:152-187 | With completions kept at least as long as the Session and every claim decided before its expiry, the application runs at most once per SEND in the Session's life |
| SendTheorems.ClaimGrantedExactly | store.go:157-175 | In every reachable state a claim is granted if and only if the SEND was never claimed, or its completion is older than the claim's clock reading by at least the retention |
| SendTheorems.OneLeaderPerFlight | server.go:861-879 | Every flight has exactly one leader, and its done signal has been closed exactly once if that leader has ended and not at all before |
| SendProgress.UnhinderedSendCompletes | server.go:507-572 | A leader whose Session is found, whose claim is granted and whom nothing fails claims, executes once, stores and sends the ACK, and frees the flight |
| SendAnswers.RetryGetsStoredAck | server.go:530-543 | In every reachable state a leader whose claim is refused, and whom nothing fails, sends exactly the stored ACK if its content was completed, and nothing otherwise; the application does not run, the store is untouched and its flight is closed |
| SendAnswers.FollowerGetsAck | server.go:574-588 | A follower of a finished flight, or one that meets a flight inside a callback, sends exactly the ACK the flight holds, or none |
| SendAnswers.FollowerWaits | server.go:574-579 | While the call it follows is at work a follower waits; giving up it sends nothing |
| SendAnswers.LeadsExactly | server.go:861-870 | In every reachable state a SEND nobody works on makes its caller the leader; while one works on it, the same content follows that call, or reads its ACK during a callback, and other content is refused |
| SendAnswers.RetryFromStart | server.go:481-543 | A retry from its first step, undisturbed, ends with the stored ACK and no execution |
| SendDelivers.PendingGetsThrough | client.go:339-355 | From every reachable state a pending SEND that nothing stands in the way of can be brought to its report by one retry, one call of the server and one ACK, whether it was executed before or not |
| SendProgress.LateClaimRunsAgain | server.go:481-528 | For every configuration there is a run of two calls, both begun while the Session lives, in which a claim decided after the retention executes the application again |
| SendEndToEnd.AcknowledgedMeansExecuted | client.go:657-670 | Over every run of the client's outbox and the server's SEND path, with SENDs, retries and ACKs lost, repeated and reordered and failures on both sides: when the client reports a message as acknowledged, the application has succeeded on some message of that identity; on one with its fingerprint, unless the client accepted two fingerprints under the identity; and on exactly its content, unless it accepted two contents under it |
| SendEndToEnd.MoveKeepsWorld | server.go:481-572 | Every move of client, network and server keeps: everything pending or on the network was accepted with that content, every server call and every entry of its history stems from accepted content, every success in the history was one of the application, every report was acknowledged |
| SendReuse.ReusedIdentifierMisreports | client.go:325-337 | That condition is exact: for any setting and any two different contents the client accepts under one identifier there is a run in which it reports the second as acknowledged although the application never succeeded on it, nor, if the fingerprints differ, on its fingerprint |
| SendTraffic.StepReports | client.go:657-670 | Only an ACK of the client's own Session makes it report, and only the pending SEND it names |
| SendTraffic.StepSends | client.go:315-355 | A step sends only the SEND it accepts, or, when retrying, SENDs exactly as they are pending |
| Outbound.Fifo | outbound.go:30-78 | Over any list of operations from any queue: what was pending and what was accepted, in that order, is what was returned followed by what is still pending; once closed a queue accepts nothing and stays closed |
| Outbound.OutboundQueue.Enqueue | outbound.go:26-28 | A batch of one |
| Outbound.OutboundQueue.EnqueueBatch | outbound.go:30-45 | The copying loop appends the whole batch, or nothing when closed |
| Outbound.OutboundQueue.Next | outbound.go:47-68 | The oldest accepted frame not yet taken, also after closing; the closed error only when drained |
| Outbound.OutboundQueue.Close | outbound.go:70-78 | Closed for new frames, pending ones kept |
| Lanes.LaneTable.JoinLane | server.go:917-925 | The Session's lane, created when there is none, with one more user; other Sessions untouched |
| Lanes.LaneTable.DepartLane | server.go:926-933 | One user less; the lane leaves the table with its last user |
| Lanes.LaneTable.SubmitRequest | server.go:937-950 | Refused during a callback, else queued last; the first submitter drains |
| Lanes.LaneTable.TakeRequest | server.go:952-962 | The oldest request, or the end of the drain |
| Lanes.LaneTable.EnterCallback | server.go:970-977 | The flag is set unless it already was |
| Lanes.LaneTable.LeaveCallback | server.go:978-982 | The flag is cleared |
| StreamLane.MoveKeeps | server.go:917-993 | Every step of every caller keeps: all callers inside are users of the one registered lane, one drains it exactly while it is marked running, accepted requests are finished, active or queued in order |
| StreamOrder.OneLaneInOrder | server.go:917-968 | In every interleaving a Session has at most one live lane; accepted requests run one at a time, in order, each once; a waiting caller has a runner, and a caller leaves with its own result |
| StreamOrder.QueuesInOrder | server.go:350-384 | On every queue a RESUMED WELCOME is followed at once by its whole replay, and EVENTs between two RESUMED WELCOMEs have strictly increasing positions, and what the writer has taken is a first part of just that, for every interleaving of publications, resumptions, other operations, pruning, closing and taking |
| StreamProgress.CallIsServed | server.go:336-384 | From every reachable state with an idle lane, an undisturbed caller leaves with its request done: a publication has appended and enqueued its event, a RESUME has enqueued the reply the handler computes, any other request its frame |
| StreamProgress.RequestIsServed | server.go:937-984 | In every state, a request that is taken up and whose dependencies do not fail has exactly its effect on the history, its frames go to its own queue and nowhere else, and it is finished |
| StreamOrder.BodyFits | server.go:618-698 | What a request is about to enqueue is its new event, the whole missed range, or nothing of the stream, for the stream as it then is, also when a dependency fails or the loaded events do not pass the check; only a publication extends the history, by one event |
| WaitsFor.SubmitsAsLane | server.go:937-950 | Submitting in this model is the lane's own submission, refused and accepted alike |
| WaitsFor.WorksAsLane | server.go:952-982 | So are taking a request and entering and leaving a callback |
| WaitsFor.NoDeadlock | server.go:861-898 | For any threads, flights and lanes, and any nesting of callbacks that call back into the server, no thread waits for itself, directly or through others |
| WaitsFor.EveryWaitHasARunner | server.go:917-984 | Every chain of waits ends at a thread that can go on |
| WaitsFor.LaterWait | server.go:495-506 | A holder that is blocked itself began to wait later than everyone waiting for it |
| WaitsFor.MoveKeeps | server.go:937-984 | Every step keeps: a thread is inside a callback of everything it holds while it waits, and a wait began only while the flag was clear |
| Sessions.CreatedStays | store.go:220-242 | A created Session is found, with its capabilities, exactly until it expires, whatever list of creations follows; no creation changes a Session that exists |
| Sessions.MemorySessionRepository.Create | store.go:220-232 | Created once, or refused without change |
| Sessions.MemorySessionRepository.Lookup | store.go:234-242 | Found exactly before its expiry |
| Admission.AdmissionIsSafe | server.go:1104-1194 | With admission and result apart and arbitrarily interleaved over any number of connections: READY and RESUMING carry a Session with exactly the repository's capabilities, every valid SEND, PING and STATE_QUERY let through names a Session made ready before on the same connection, and every replaced connection's queue is closed |
| Admission.AdmitsExactly | server.go:1108-1143 | On an open gate a valid frame is processed if and only if it has business there (an ERROR outside a handshake and of the READY Session, the first HELLO or RESUME, a request of the READY Session), on the current queue; every other valid frame closes the gate; an invalid one is answered |
| Admission.ReadyLetsThrough | server.go:1126-1146 | In every reachable state a READY connection lets every request of its Session through on its own queue |
| Admission.ResultDecides | server.go:1161-1194 | Closing wins, then abandoning, then a ready Session; a resumption that reports none closes |
| Admission.HelloMakesReady | server.go:426-462 | From every state a new connection whose HELLO creates a Session ends READY with it |
| Admission.ResumeMakesReady | server.go:590-603 | And one whose RESUME finds its Session; a Session that is gone leads back to the handshake |
| Admission.ClosedIsAbsorbing | server.go:1168-1170 | Until the connection is replaced a closed gate stays closed, admits nothing and makes nothing ready, whatever results arrive |
| Admission.StaleChangesNothing | server.go:1109-1112 | Frames and results of another generation or queue change nothing |
| Admission.ServerAdmission.Replace | server.go:1042-1055 | A new generation, wrapping at 64 bits, with a fresh queue; the old one is closed |
| Admission.ServerAdmission.AdmitFrame | server.go:1108-1143 | The first critical section decides as the admission function says |
| Admission.ServerAdmission.Apply | server.go:1161-1194 | The second critical section applies a result as the result function says |
| StateMerge.UpdatesConverge | state.go:194-222 | Two histories of valid updates with the same members, in any order and with any repetition, none turned away for room, where equal identity and version mean equal JSON, end in the same cache up to JSON equality, each identity at its highest version |
| StateMerge.RoomSuffices | client.go:566-576 | If all identities held and received are few enough and all objects small enough for both limits, no update is ever turned away for room |
| StateMerge.UpdatesConvergeWithRoom | state.go:194-222 | Convergence from that condition on the inputs alone |
| StateBatch.CommitsExactly | client.go:542-582 | A batch of distinct identities commits if and only if every object is valid and newer than, or a repetition of, what is held, and both limits hold after each object; the cache is then the overlay of the newer objects |
| StateBatch.UpdatesReachCache | client.go:528-540 | In every run of READY live updates the client's cache is what the merge makes of them, and nothing else of the client changes |
| StateBatch.ClientsConverge | client.go:528-540 | Two runs of the client over the same updates, in any order and with any repetition, with room and without conflict, end in the same cache up to JSON equality |
| StateMerge.ConflictDiverges | state.go:194-222 | Without that agreement the order decides: two conflicting objects leave different caches |
| StateMerge.ApplyObject | client.go:550-577 | One round of the loop computes the merge of one object with both limits, or its refusal |
| StateMerge.ApplyStateObjects | client.go:542-582 | The loop on a copy computes the batch function, so a refused batch changes nothing |
| StateMerge.ApplyBatchKeepsCacheOK | client.go:542-582 | A committed batch keeps the byte counter equal to the true total, both limits, the filing by identity, and never lowers a version; a changed object has a higher one |
| StateMerge.CommittedBatchIsWhole | client.go:542-582 | After a committed batch of distinct identities every object is in the cache or was a duplicate of what is, and nothing else changed |
| Snapshot.Accumulator.Add | state.go:253-274 | The running count is the exact encoded length of the payload; an object is taken if and only if the payload then still fits |
| Snapshot.Build | server.go:702-769 | The snapshot is the provided states in canonical order if and only if the limits leave room for any, all are valid, requested, distinct and within both limits, and the finished frame is valid |
| Snapshot.SortCanonical | server.go:746-751 | The sort puts distinct identities in strict canonical order |
| JsonNumber.NormalFormsDecideValue | state.go:371-402 | Two JSON numbers (section 6 of RFC 8259) have the same normal form if and only if they denote the same decimal value, for any exponent size and for signed zero |
| JsonNumber.NormalizeOfRender | state.go:371-402 | Every number of the grammar has a normal form |
| JsonValue.EqualDecidesMeaning | state.go:319-363 | The recursive comparison holds if and only if both values mean the same, through nested arrays and objects |
| JsonValue.EqualIsEquivalence | state.go:319-363 | The comparison is reflexive, symmetric and transitive on well-formed values |
| Capability.HighestCommonVersion | capability.go:303-316 | The two-pointer search finds the greatest common version, or reports that the ascending lists are disjoint |
| Capability.ValidateAndSortVersions | capability.go:286-301 | Accepts exactly non-empty, bounded, positive, distinct versions, and returns them ascending |
| Capability.ValidateName | capability.go:239-272 | Accepts exactly bounded, well-spelled names whose last segment is no version |
| Capability.ValidateAndCopyOffers | capability.go:215-237 | Accepts exactly valid offers with distinct names, and copies each with its versions ascending |
| Capability.Negotiate | capability.go:113-136 | Accepts exactly the offers with a common version, each at the greatest, in canonical order; an optional offer is dropped exactly when the sets are disjoint, a required one then refuses |
| Capability.ValidateNegotiated | capability.go:159-183 | Accepts exactly bounded lists in strict canonical order with valid names and positive versions |
| Capability.ValidateAgainstOffers | capability.go:185-213 | The client's two loops compute the check function: every accepted version was offered, every required offer was answered |
| Capability.NegotiatedIsAccepted | capability.go:185-213 | Whatever negotiation produces under shared limits passes the client's check |
| Capability.NegotiationIgnoresOrder | capability.go:113-136 | Success and the accepted list do not depend on the order of offers or of their versions |
| Ulid.TimestampBytes | id.go:22-29 | The six bytes are the low 48 bits of the timestamp, most significant first |
| Ulid.EncodeDigits | id.go:33-41 | The loop drains the 128-bit value to zero in 26 digits |
| Ulid.NewULID | id.go:14-42 | The string is the base-32 form of timestamp and randomness, or an error when randomness fails |
| Ulid.EncodedInjective | id.go:33-41 | Different values have different strings |
| Ulid.EarlierSortsFirst | id.go:14-42 | An earlier millisecond timestamp always sorts first, whatever the randomness (ULID specification) |

## Left out

- JSON encoding and decoding, strict-field and duplicate-member checks, and the field checks of frame validation: payloads are datatypes, the verdict is a parameter.
- Texts of error messages and close reasons; reasons are constructors.
- Constructors' defaulting of configuration values, and the validation of limits.
- `handleStateQuery`, `PublishStateUpdate` and `handlePing`: in the lane model they are requests that enqueue one frame outside the event stream; their own content would add only easy members.
- `SingleWriter`, contexts, channel wake-ups and the byte sender: only queue contents and the closed flag are kept.
- Custom store implementations: the model uses the in-memory ones, and callbacks that succeed or fail at will.
- Accessors, defensive copies and String methods.
- SendPath.MoveKeeps: the history records ACKs, not the ERROR frames that answer refused or failed SENDs.
- Outbound.OutboundQueue.Next: does not block; on an open empty queue it answers that there is nothing yet, because waiting is scheduling.
- WaitsFor.NoDeadlock: callbacks re-enter the server on their own thread; threads that a callback starts and then joins are outside the model.
- Admission.AdmissionIsSafe: does not claim one handshake in flight, because every applied result clears that flag, also the result of an invalid frame.
- EndToEnd.DeliveredIsLogPrefix: says nothing about when a missing event arrives, because the network may lose frames for ever.
