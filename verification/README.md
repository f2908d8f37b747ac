# Remote agent connector: a verified model

The connector brokers commands from delegated clients to enrolled devices over relay WebSockets.
This project models four of its components and proves what they promise over every run.

**Device registry** (`Hub.dfy`, `HubInvariants.dfy`, `HubTheorems.dfy`, `HubLaws.dfy`). Enrollment tokens,
challenges, devices, live instances, the handshake of each relay connection and the registry of
live sessions are one relational state. Each event of the program is a step function on it.

**Request broker** (`Broker.dfy`, `BrokerInvariants.dfy`, `BrokerShapes.dfy`, `BrokerHistory.dfy`,
`BrokerLedger.dfy`, `BrokerReplays.dfy`, `BrokerFrames.dfy`, `BrokerOrphans.dfy`,
`BrokerOutcomes.dfy`, `BrokerTheorems.dfy`, `BrokerRouting.dfy`, `BrokerRevocation.dfy`,
`BrokerLaws.dfy`, `DispatchLaws.dfy`, `SessionLaws.dfy`, `BrokerWitness.dfy`). A world is
the registry together with the idempotency table, the collision guard, the calls in progress with
their futures, the pending tables of the sessions and the frames written to devices. A run is any
sequence of events: calls starting, frames written or failing, responses, cancels, timeouts,
tasks cancelled, connections lost, sessions taken over, devices revoked, deleted and enrolled
again, clocks ticking, sweeps, and restarts of the process. Theorems quantify over all runs. Where
a promise fails on some runs, a lemma says exactly which events break it, in terms of what holds
before them, and a witness is a run that does. The modules named `Laws` say what each operation asks
for and does in the terms of its tables and its message, without naming the functions that the model
uses for it.

**Objects** (`Service.dfy`, `Recorded.dfy`). The same operations as classes whose methods update
their fields. The service records its run in a ghost field, and `Valid()` says that its objects hold
exactly the world in which that run has ended. Every method that is one event requires `Valid()` and
ensures it again with its event appended, so the theorems about runs are theorems about the objects.
The remaining methods are parts of an event and say what they do to the world.

**Replay cache** (`ReplayCache.dfy`). The bounded cache of accepted assertion ids, as a class with
its pruning and eviction loops, against the log of everything it accepted.

**Encodings and transforms** (`Text.dfy`, `Identifiers.dfy`, `Delegation.dfy`, `Assertion.dfy`,
`Splitter.dfy`, `Migration.dfy`). Canonical delegation text, scope normalization, the strict
assertion parser, the two SQL splitters and migration 003.

## Reading the model

- *Atomicity.* An event is the code between two suspension points of the event loop. The registry's
  critical sections contain none (`remote_agent_connector/relay.py:50-81`), so `device_command` from
  its route lookup to the frame is one event, and so is authentication up to registration.
- *Nondeterminism.* What the program draws or what SQLite may choose (uuids, tokens, challenges, the
  row returned among equally fresh ones) and what a library decides (an Ed25519 verdict, the length
  of an encoding; in a timed wait, whether the timer cancels the future at once and whether a result
  that is there when the task resumes wins, where versions of the runtime differ) is carried by the
  event. An event that repeats a fresh value (a token, challenge
  id, connection generation or uuid) changes nothing, which is how freshness is assumed.
- *Time.* Clocks tick in microseconds and never run backwards; stored timestamps keep whole seconds.
- *Ideal digests.* SHA-256 digests and HMACs are represented by what they digest.
- *History.* The enrollment log, the calls that inserted and settled a request row, closed sessions, the challenges issued on
  a connection and the exact tick of the last beat are not stored by the program; they are there so
  that promises can be stated.

## Where code and prose differ

The model follows the code.

- The idempotency table answers "new" to the request id that claimed a row, whether or not the row is
  settled and whatever the call asks for (`remote_agent_connector/store.py:651-652`). A call that
  brings the id of a row again under its key therefore
  - is sent a second time: `BrokerWitness.SameIdIsSentTwice`; exactly when, `BrokerFrames.FramesBreakIff`;
  - can be unsettled on a settled row: `BrokerWitness.LiveCallOnSettledRow`; exactly when,
    `BrokerLedger.PendingBreaksIff`;
  - can settle the row with the answer to another command, which replays then hand out:
    `BrokerWitness.ReplayAnswersAnotherCommand`; exactly when, `BrokerReplays.AlikeBreaksIff`.
- The pending table is keyed by request id alone and an ending call pops its id whoever is filed there
  (`remote_agent_connector/service.py:655` and `:738`). A call sent into the slot of a call in progress
  takes an open one off file, or is itself taken off file when the other ends first:
  `BrokerWitness.SameIdIsSentTwice` and `BrokerWitness.EndingCallOrphansAnother`; exactly when,
  `BrokerOrphans.DisplacesIff`. No later response, takeover or connection loss reaches a call that is
  off file: `BrokerOrphans.OffFileForGood`.
- A `command_in_flight` refusal and the cancellation of a task leave the request row pending, for good
  unless the id of the row is sent again: `BrokerFrames.StuckForGood`.
- The digest contains instance and context epoch, so a replay needs both unchanged.
- `AppAssertionVerifier.verify` reads its clock once for the freshness checks and once more for the
  cache (`remote_agent_connector/app_assertion.py:177` and `:236`). If the expiry falls between the
  two readings, an assertion accepted before is accepted again: `ReplayCache.AcceptedAcrossExpiry` is
  a witness, `ReplayCache.AcceptedAgainIff` the exact condition.
- A takeover under another instance id closes neither the old connection nor its row
  (`remote_agent_connector/relay.py:50-55`), and the beats of the old session are still accepted
  (`remote_agent_connector/store.py:466-499`). While its row is the freshest, the route query picks it
  and every unpinned call is told `device_offline`, although the device is online with a registered
  session: `BrokerWitness.DeviceStaysOnline` and `BrokerWitness.OnlineDeviceRefused`. Exactly which
  calls are refused, `BrokerRouting.RefusedOfflineIff`; exactly which events leave such a row,
  `BrokerRouting.StraysIff`.
- The comment of migration 003 holds an apostrophe (line 3), which the quote-aware splitter takes for an
  opening quote. All four semicolons of the script lie inside an open quote for it, so that it returns
  one statement where the plain splitter returns four: `Splitter.AllQuotedIsOne`;
  `Splitter.SplittersDisagree` is a family of scripts with such a comment, `Splitter.CutsAlikeIff` the
  exact condition. The store migrates with the plain splitter (`remote_agent_connector/store.py:86-140`).

## Model

| member | source | states |
|---|---|---|
| `BrokerShapes.StartShape` | remote_agent_connector/service.py:565-658 | A start claims a row if and only if it passes every check and the table answers "new"; then it is sent if and only if its collision slot is free. A start that claims nothing changes no row and sends nothing. |
| `BrokerShapes.OthersFade` | remote_agent_connector/service.py:713-762 | Only the end of a wait or a failed write concludes a call; under any other event the table stays and calls move on or get lost. |
| `BrokerFrames.AtMostOneFramePerKey` | remote_agent_connector/service.py:565-658 | Over every run in which no start claims a row again, restarts included, no two request frames are sent under one (connector, client, idempotency key); retries refused before the claim may reuse their id. |
| `BrokerFrames.FramesBreakIff` | remote_agent_connector/store.py:612-657 | An event sends a second frame under a key if and only if it is a start that passes every check, brings the id of its row, finds its collision slot free, and its key was sent before. |
| `BrokerFrames.OneFramePerKeyIff` | remote_agent_connector/service.py:565-658 | A run never sends a key twice if and only if it contains no such event. |
| `BrokerFrames.DistinctIdsClaimOnce` | remote_agent_connector/service.py:612-618 | When no request id is brought twice, no start claims a row again. |
| `BrokerFrames.SameKeySameRequestId` | remote_agent_connector/store.py:612-657 | Over every run, whatever ids callers bring, two request frames under one key carry the same request id. |
| `BrokerFrames.StuckBreaksIff` | remote_agent_connector/service.py:628-654 | An event releases a key whose row is pending with no claimant left if and only if it is a start that brings the id of the row again and finds its collision slot free. |
| `BrokerFrames.StuckForGood` | remote_agent_connector/service.py:628-654 | Such a key stays stuck through every continuation without such a start, restarts included. |
| `BrokerFrames.StuckKeyRefuses` | remote_agent_connector/service.py:638-643 | Every call under a stuck key with another id is over at once: refused before the claim, or told of the conflict or of the pending request. |
| `BrokerFrames.ClaimedKeySentAgainIff` | remote_agent_connector/store.py:651-652 | A call that reaches the claim under a claimed key is sent if and only if it brings the very request id that claimed the row and its collision slot is free. |
| `BrokerFrames.LaterCallsSendNothing` | remote_agent_connector/service.py:628-643 | A call under a claimed key with another id sends nothing, changes no row and no slot, and is refused before the claim or told of the conflict, the pending call or the stored result, each exactly when the row says so. |
| `BrokerWitness.SameIdIsSentTwice` | remote_agent_connector/store.py:651-652 | A run from an empty store in which one id is sent twice under one key and the second call takes the first off file. |
| `BrokerReplays.ReplayAgreement` | remote_agent_connector/service.py:717-762 | Over every run, whatever ids callers bring, a replay returns what the call that settled the row returned, or `{"code": c}` for the error c it raised; that call claimed the row under this key and the id of the row, and the replay asks for what the row was first claimed for. |
| `BrokerReplays.AlikeBreaksIff` | remote_agent_connector/store.py:651-689 | An event settles a row with the answer to another command if and only if a call with another digest than the row concludes while the row is pending. |
| `BrokerReplays.SettledAlikeIff` | remote_agent_connector/store.py:651-689 | A run never settles a row with the answer to another command if and only if it contains no such event. |
| `BrokerReplays.ClaimsAlikeBreaksIff` | remote_agent_connector/store.py:651-652 | An event adds a claiming call with another digest than its row if and only if it is a start that claims an existing row for another tool, arguments, instance or epoch. |
| `BrokerReplays.ReplaysOfRowsSettledAlike` | remote_agent_connector/store.py:651-689 | Over every run that never settles a row with the answer to another command, each replay and the call whose answer it hands out asked for the same thing. |
| `BrokerReplays.ReplaysAnswerTheirCommand` | remote_agent_connector/service.py:619-643 | Over every run without such a start, each replay and the call whose answer it hands out asked for the same thing. |
| `BrokerWitness.ReplayAnswersAnotherCommand` | remote_agent_connector/store.py:651-657 | A run in which a listing of one folder is replayed to a call for another. |
| `BrokerReplays.SettledForGood` | remote_agent_connector/store.py:659-689 | Once a request row has left pending, no continuation of the run changes or removes it. |
| `BrokerLedger.ApplyLedger` | remote_agent_connector/service.py:565-762 | Every event, whatever id it brings, keeps the ledger: a pending row was claimed by unsettled calls only, and a settled row holds what a call that claimed it was told. |
| `BrokerLedger.PendingRowsExactly` | remote_agent_connector/service.py:628-762 | Over every run, whatever ids callers bring, a key has a row if and only if a call claimed it, and the row is pending if and only if every call that claimed it is live, was refused `command_in_flight`, or was lost. |
| `BrokerLedger.PendingBreaksIff` | remote_agent_connector/service.py:628-762 | An event leaves an unsettled call on a settled row if and only if it is a start that claims a settled row, or a call concludes while another that claimed the same row is unsettled. |
| `BrokerLedger.UnsettledPendingIff` | remote_agent_connector/service.py:628-762 | Unsettled calls sit on pending rows throughout a run if and only if it contains no such event. |
| `BrokerLedger.OneClaimPerKeyIff` | remote_agent_connector/store.py:633-652 | Throughout a run each row is claimed by one call if and only if no start claims a row again. |
| `BrokerWitness.LiveCallOnSettledRow` | remote_agent_connector/store.py:651-652 | A run in which a live call sits on a completed row. |
| `BrokerTheorems.GuardIsExact` | remote_agent_connector/service.py:51-84 | Over every run, `_in_flight` holds exactly the slots of live mutating calls under their request ids, and no two live calls share a slot. |
| `BrokerTheorems.SlotFreedByItsHolder` | remote_agent_connector/service.py:737-739 | A slot disappears only with the end of the call that holds it; a refused call never frees it. |
| `BrokerOrphans.DisplacesIff` | remote_agent_connector/service.py:655-738 | An event takes a call with an open future off file if and only if it is a start sent into the slot of an open call, or it ends a live call whose slot is also that of another open call. |
| `BrokerOrphans.OpenOnFileIff` | remote_agent_connector/service.py:655-738 | Every open call stays on file throughout a run if and only if it contains no such event. |
| `BrokerOrphans.OffFileStays` | remote_agent_connector/relay.py:38-69 | An open call off file stays open and off file under every event but its own timer, the cancellation of its own task, a cancel already under way, the failure of its own write, and a restart. |
| `BrokerOrphans.OffFileForGood` | remote_agent_connector/relay.py:38-69 | The same through every continuation: no response, takeover or connection loss ever reaches it. |
| `BrokerOrphans.SlotsBreakIff` | remote_agent_connector/service.py:655-655 | An event puts two live calls into one slot if and only if it is a start sent into a slot that a live call holds. |
| `BrokerOrphans.NoCallIsOrphaned` | remote_agent_connector/relay.py:38-69 | Over every run in which no call is sent into a slot that a live call holds, each call with an open future is filed under its own id in the session registered for its connector at that moment. |
| `BrokerWitness.EndingCallOrphansAnother` | remote_agent_connector/service.py:737-739 | A run in which a call that is answered but not resumed ends and pops the entry of another call under the same id. |
| `SessionLaws.ResponseIff` | remote_agent_connector/relay.py:302-338 | A response resolves exactly the call that waits for it, with its content in full, if and only if it is for the connector of its session, is a result or an error, and such a call waits; otherwise it ends the session and touches no call. |
| `SessionLaws.CancelIff` | remote_agent_connector/service.py:86-125 | A cancel sends one frame to the registered session, and marks the call filed there, if and only if the route found the row of that session and the request is on file. |
| `SessionLaws.CancelReachesCaller` | remote_agent_connector/service.py:126-130 | Through any continuation, the caller of a request cancelled while it waited is handed "cancelled" if it is handed any answer. |
| `SessionLaws.TeardownBreaks` | remote_agent_connector/relay.py:38-69 | The end of a connection breaks exactly the waiting calls it holds. |
| `SessionLaws.TakeoverBreaksIff` | remote_agent_connector/relay.py:50-55 | An accepted authentication breaks exactly the waiting calls of the session it replaces; one that is not accepted breaks nothing. |
| `BrokerTheorems.ResolvedOnceByItsOwn` | remote_agent_connector/relay.py:302-338 | A future changes at most once, and only by a response of its own session under its own id, a cancel, the timer, the cancellation of its task, the teardown of its session or a takeover of its connector. |
| `BrokerLaws.WakeTells` | remote_agent_connector/service.py:713-771 | A waiting call whose future is decided ends, with `device_timeout` exactly if its timer fired and its future was cancelled or its result comes too late, `device_offline` exactly for a broken future otherwise, `result_too_large` exactly for a result over the limit otherwise, and else with its result. |
| `BrokerLaws.WakeKeepsRow` | remote_agent_connector/service.py:717-762 | The pending row of a concluding call keeps exactly what the call was told, `{"code": c}` for an error; a settled row and all other rows stay. |
| `BrokerLaws.FailedWriteTells` | remote_agent_connector/service.py:727-736 | A call whose frame cannot be written is offline, and so is its pending row. |
| `BrokerLaws.EveryEndHasCause` | remote_agent_connector/service.py:643-771 | Over every run, each call that has ended did so with its own start or by an event of the run from which its outcome follows by its future, its timer, its size, a failed write, the cancellation of its task, or a restart. |
| `BrokerOutcomes.CallersAreToldTheTruth` | remote_agent_connector/service.py:713-771 | Over every run, a claimed call returns only what resolved its future and only within the size limit, fails as too large only when it is, and times out only when its timer fired. |
| `BrokerOutcomes.AnswerReachesCaller` | remote_agent_connector/relay.py:318-338 | Through any continuation, the call whose future a response resolves is the one of that session and id, and if it returns, it returns this answer: the members of an object intact, any other result or error in full. |
| `BrokerTheorems.EveryFrameEntitled` | remote_agent_connector/service.py:565-586 | Over every run, each request or cancel frame goes to the registered session of an enrolled device, authenticated under its present enrollment, and a request lies inside the capability profile of that enrollment: beyond files only the full profile, changing files only a writing one. |
| `DispatchLaws.RefusedVerbs` | remote_agent_connector/protocol.py:96-131 | Verbs that reach beyond files are refused exactly without the full profile, verbs that change files exactly under the read-only one, verbs that only look never. |
| `DispatchLaws.RefusalLeavesNoTrace` | remote_agent_connector/service.py:556-611 | A refused call, one for an assertion of another connector included, leaves one ended call with its code and nothing else. |
| `DispatchLaws.EveryRequestAllowed` | remote_agent_connector/service.py:579-586 | Over every run, each request frame that reaches beyond files went to a device whose spent token carries the full profile, and each that changes files to one whose token carries a writing profile. |
| `Catalog.ProfilesFormChain` | remote_agent_connector/protocol.py:96-131 | Each profile grants strictly more than the one before it. |
| `Catalog.BeyondFilesNeedsFullAgent` | remote_agent_connector/protocol.py:124-131 | Terminal, ssh, skill execution and MCP calls are granted by the full profile alone. |
| `Catalog.ChangingFilesNeedsWrite` | remote_agent_connector/protocol.py:112-123 | Verbs that change files are granted by the two writing profiles alone. |
| `DispatchLaws.NoRequestSentTwice` | remote_agent_connector/service.py:565-658 | Over every run in which no start claims a row again, no two request frames are for one connector, client and idempotency key. |
| `DispatchLaws.DigestIs` | remote_agent_connector/service.py:619-627 | A call that reaches the claim is submitted for its own connector, tool and arguments, the picked instance and the present context epoch of its row. |
| `DispatchLaws.ReplaysStayWithTheirRequest` | remote_agent_connector/store.py:633-657 | Over every run, the call whose answer a replay hands out came for the same connector, client and key; and for the same tool and arguments over a run that never settles a row with the answer to another command. |
| `DispatchLaws.NoDeedTwiceAtOnce` | remote_agent_connector/service.py:51-84 | Over every run, no two calls in progress have one connector, mutating tool and arguments, whatever their clients and keys. |
| `DispatchLaws.InFlightIff` | remote_agent_connector/service.py:644-654 | A call that claims its row is refused `command_in_flight` if and only if a call in progress does the same mutating deed on the same device; otherwise it is sent. |
| `BrokerTheorems.RouteIsCurrent` | remote_agent_connector/service.py:513-531 | A route that passes the registry check leads to a session of the current enrollment, even if a session of an earlier one is still open. |
| `BrokerRevocation.BarLiftedIff` | remote_agent_connector/service.py:184-277 | An event makes a revoked or unknown connector an enrolled one if and only if it is an enrollment of it that succeeds: free connector, first message of its connection, accepted token, usable challenge, valid signature. |
| `BrokerRevocation.AdmissionSpendsToken` | remote_agent_connector/store.py:187-230 | Such an enrollment takes an unspent, unexpired token issued for this connector, spends it, and gives the device the profile of the token. |
| `BrokerRevocation.RevokedStaysSilent` | remote_agent_connector/service.py:452-477 | From the moment a connector is revoked or unknown, and through failed attempts to come back, no continuation of the run sends a request or cancel for it until an enrollment of it succeeds. |
| `BrokerRevocation.RemovalSilences` | remote_agent_connector/store.py:360-409 | After any run, once a device is revoked, or deleted after it was, nothing is sent for its connector until an enrollment of it succeeds. |
| `BrokerRouting.LiveRowRefusedIff` | remote_agent_connector/service.py:565-578 | In a reachable registry a live row is refused as offline if and only if it does not carry the generation of the session registered for its connector. |
| `BrokerRouting.RefusedOfflineIff` | remote_agent_connector/service.py:565-578 | A call is refused as offline if and only if the route finds no live row or picks one that carries another generation than the registered session. |
| `BrokerRouting.OnlineIsServed` | remote_agent_connector/service.py:565-578 | While every live row of the connector carries the registered generation, no unpinned call for an online device is refused as offline, whatever row is picked. |
| `BrokerRouting.StraysIff` | remote_agent_connector/relay.py:50-69 | An event leaves an online row without its session if and only if it is a takeover of a connector beside another online row of it, or a restart while a row is online. |
| `BrokerRouting.NoStraysIff` | remote_agent_connector/relay.py:50-69 | Every online row has its registered session throughout a run if and only if the run contains no such event. |
| `BrokerRouting.OnlineMeansReachable` | remote_agent_connector/service.py:513-578 | Over every run without such an event, an unpinned call for an online device is never refused as offline. |
| `BrokerWitness.DeviceStaysOnline` | remote_agent_connector/relay.py:50-55 | A run after which a device is online, its second instance is live and registered, and the route query picks the first. |
| `BrokerWitness.OnlineDeviceRefused` | remote_agent_connector/service.py:571-578 | After that run every unpinned call for the device is refused as offline, whatever the route query answers. |
| `BrokerRouting.EveryRequestInTime` | remote_agent_connector/service.py:587-618 | Over every run, each request frame was sent by a start of the run whose command it carries out, whose assertion named this connector, gave the request id and had not expired at that moment, and whose own timeout fitted the relay window. |
| `BrokerTheorems.ReadOnlyNeverMutates` | remote_agent_connector/protocol.py:96-152 | No mutating relay verb lies inside the read-only profile. |
| `BrokerInvariants.ApplyKeeps` | remote_agent_connector/service.py:545-771 | Every event keeps the joint invariant of registry, idempotency table, guard, pending tables and sent frames. |
| `BrokerInvariants.RunKeeps` | remote_agent_connector/service.py:36-49 | The joint invariant holds in every reachable world. |
| `BrokerHistory.RunFollows` | remote_agent_connector/service.py:713-762 | No continuation of a run unsends a frame, changes a settled row, reopens an ended call or changes a resolved future. |
| `HubInvariants.StepKeeps` | remote_agent_connector/store.py:143-545 | Every registry event keeps the cross-table invariant of tokens, challenges, devices, instances, connections and sessions. |
| `HubLaws.SessionOpensIff` | remote_agent_connector/service.py:287-358 | An event opens a session if and only if it is an authentication message on a connection in handshake, with the id and secret of this connection's unspent and unexpired challenge, a valid signature of an enrolled device, and a non-negative epoch; then it writes the row, registers the session and spends the challenge, and otherwise nothing is opened, registered or brought online. |
| `SessionLaws.EverySessionIsSigned` | remote_agent_connector/service.py:320-334 | Over every run, each session was opened by such a signed message of the run for its connector and instance. |
| `HubLaws.EnrollmentIff` | remote_agent_connector/service.py:184-277 | A good token is spent before anything else, a good challenge next, and the device is admitted under the profile of the token exactly if the signature is valid and the connector free as well. |
| `HubLaws.TokenLives` | remote_agent_connector/store.py:143-171 | A fresh token is good for its own connector, until its time is up. |
| `HubLaws.ChallengeLives` | remote_agent_connector/store.py:232-254 | A fresh challenge is the one its connection has to answer, and is good for its own secret for two minutes. |
| `HubLaws.HeartbeatIff` | remote_agent_connector/store.py:466-499 | A beat moves its row and epoch if and only if the row is online under its generation and the epoch does not fall; otherwise it ends the session and moves nothing. |
| `HubLaws.SweepIff` | remote_agent_connector/store.py:526-545 | A sweep closes, at its last heartbeat, each online row not heard of after the second one window ago, and touches nothing else. |
| `HubLaws.RouteIff` | remote_agent_connector/store.py:547-586 | The route query answers the pinned row if and only if it is online and heard of within the window, or without a pin such a row that beat last, and nothing only if there is none. |
| `HubLaws.OnlineIff` | remote_agent_connector/service.py:394-421 | A device is online if and only if it has an online row heard of within the window. |
| `HubLaws.TeardownIff` | remote_agent_connector/relay.py:199-208 | The end of a connection takes the entry and closes the row of its session exactly if that session is the registered one. |
| `HubTheorems.SingleUse` | remote_agent_connector/store.py:187-335 | Enrollments map injectively to spent tokens of the same connector and profile, sessions map injectively to spent challenges issued on their own connection, and no challenge serves both. |
| `HubTheorems.Fenced` | remote_agent_connector/store.py:466-524 | Heartbeat, protocol error and teardown of a connection touch no instance row and no registry entry of another generation. |
| `BrokerTheorems.EpochNeverFalls` | remote_agent_connector/relay.py:286-295 | Over every run, the context epoch of a row never falls while the row carries one generation. |
| `BrokerTheorems.SessionEpochsRise` | remote_agent_connector/relay.py:292-295 | Over every run, the context epoch of a session never falls. |
| `HubTheorems.SweepTransparent` | remote_agent_connector/store.py:526-610 | The sweep inside a liveness read changes no answer of any liveness query at the same clock value. |
| `HubTheorems.InventoryMatchesStatus` | remote_agent_connector/service.py:394-450 | The devices listed by `online_agents` are exactly those whose `device_status` is online. |
| `HubTheorems.LivenessIsHonest` | remote_agent_connector/service.py:533-543 | A row counted live was silent for less than the window, a row reaped for more than the window less one second, and the reaper closes exactly the online rows that do not count. |
| `HubTheorems.RowsAreSound` | remote_agent_connector/store.py:411-545 | Connected, last heartbeat and disconnected times are in order, a row is online exactly when it has no closing time, and an online row belongs to an enrolled device. |
| `BrokerTheorems.RegistryPromises` | remote_agent_connector/store.py:187-610 | Single use, exact inventory, sound and honest rows hold after every run of the whole system. |
| `HubTheorems.RowSurvives` | remote_agent_connector/store.py:466-545 | A row with a steady heartbeat stays online under every event but the revocation of its device, the teardown of its session and a takeover of its instance. |
| `BrokerTheorems.SteadyInstanceStaysOnline` | remote_agent_connector/store.py:526-586 | An instance whose silence never exceeds the window less one second is never taken offline by any sequence of sweeps, calls and events of others. |
| `Service.RemoteAgentStore.ConsumeEnrollmentToken` | remote_agent_connector/store.py:187-230 | The verdict in the order of the checks, and the token is spent exactly when accepted. |
| `Service.RemoteAgentStore.ConsumeChallenge` | remote_agent_connector/store.py:256-290 | True exactly for an unspent, unexpired challenge with this secret, which is then spent. |
| `Service.RemoteAgentStore.UpsertPresence` | remote_agent_connector/store.py:411-464 | The instance row is inserted or taken over for an enrolled device and for no other. |
| `Service.RemoteAgentStore.DisconnectInstance` | remote_agent_connector/store.py:501-524 | The row is closed, again if need be, exactly when it still carries this generation. |
| `Service.RemoteAgentStore.RevokeDevice` | remote_agent_connector/store.py:360-388 | The device is revoked and precisely its online rows are closed. |
| `Service.RemoteAgentStore.DeleteRevokedDevice` | remote_agent_connector/store.py:390-409 | The three answers, and exactly the revoked device and its rows are removed. |
| `Service.RemoteAgentStore.MarkStaleInstances` | remote_agent_connector/store.py:526-545 | The table becomes the swept table at the cutoff. |
| `Service.RemoteAgentStore.ExactOnlineInstance` | remote_agent_connector/store.py:547-566 | Sweeps, then answers with the pinned row if and only if it is live. |
| `Service.RemoteAgentStore.LatestOnlineInstance` | remote_agent_connector/store.py:568-586 | Sweeps, then answers with a freshest live row, or with nothing only if there is none. |
| `Service.FreshestExists` | remote_agent_connector/store.py:568-586 | A connector with a live row has a freshest live row. |
| `Service.RemoteAgentStore.ClaimRequest` | remote_agent_connector/store.py:612-657 | Inserts a pending row only under a free key and answers new, conflict, pending or the stored result by the row found. |
| `Service.RemoteAgentStore.CompleteRequest` | remote_agent_connector/store.py:659-689 | Settles the row if it is pending and changes nothing otherwise. |
| `Service.AgentRelayRegistry.FailPending` | remote_agent_connector/relay.py:38-42 | The loop breaks exactly the open futures filed in the session and empties its pending table. |
| `Service.RemoteAgentStore.EnrollDevice` | remote_agent_connector/store.py:292-335 | A device row is inserted exactly when the connector id is free. |
| `Service.RemoteAgentStore.Heartbeat` | remote_agent_connector/store.py:466-499 | A beat is accepted exactly for the online row of this generation and a non-falling epoch, and then moves epoch and heartbeat time. |
| `Service.RemoteAgentStore.OnlineAgents` | remote_agent_connector/store.py:588-610 | Sweeps, then lists exactly the enrolled devices with a live row. |
| `Service.RemoteAgentService.constructor` | remote_agent_connector/service.py:36-49 | A new service holds the world of the empty run. |
| `Service.RemoteAgentService.Promises` | remote_agent_connector/service.py:36-84 | Objects that hold the world of their run keep the joint invariant: the guard is exact and every pending entry files a call in progress. |
| `Service.RemoteAgentService.AcquireCollisionGuard` | remote_agent_connector/service.py:66-77 | A mutating call takes its slot if it is free and is refused, leaving the holder in place, if not. |
| `Service.RemoteAgentService.SubmitCommand` | remote_agent_connector/service.py:619-658 | From the claim to the frame the desk moves as the submit step says, and the registry does not move. |
| `Service.RemoteAgentService.RelaySession` | remote_agent_connector/service.py:513-543 | Sweeps at the truncated cutoff and answers the pinned or a freshest live instance. |
| `Service.RemoteAgentService.CheckGate` | remote_agent_connector/service.py:569-611 | When it refuses nothing on a row the route query may return, the device is enrolled, the registered session belongs to its present enrollment, and the tool lies inside the profile of that enrollment: beyond files only the full profile, changing files only a writing one. |
| `Service.RemoteAgentService.DeviceCommand` | remote_agent_connector/service.py:545-658 | The recorded run gains this start; a frame that is written is for a device entitled to it, and the guard stays exact. |
| `Service.RemoteAgentService.FrameWritten` | remote_agent_connector/service.py:658-711 | The recorded run gains the write; the call waits and nothing else changes. |
| `Service.RemoteAgentService.ReleaseCall` | remote_agent_connector/service.py:737-739 | The `finally` block pops the entry and the slot under the keys of this call. |
| `Service.RemoteAgentService.FailDeviceCommand` | remote_agent_connector/service.py:717-736 | A failing call settles its row as failed with its code and raises this code. |
| `Service.RemoteAgentService.ConcludeCall` | remote_agent_connector/service.py:713-771 | The call is told exactly what its future, its timer and the size of its result decide, its pending row keeps exactly that, and the registry does not move. |
| `Service.RemoteAgentService.ResumeDeviceCommand` | remote_agent_connector/service.py:713-771 | The recorded run gains this wake, the call and its row are told what its future, timer and size decide, and the guard stays exact. |
| `Service.RemoteAgentService.FrameFails` | remote_agent_connector/service.py:727-736 | The recorded run gains the failed write; the call fails as offline. |
| `Service.RemoteAgentService.AbandonCall` | remote_agent_connector/service.py:727-739 | The recorded run gains the cancelled task; entry and slot go and the row stays pending. |
| `Service.RemoteAgentService.TimerExpires` | remote_agent_connector/service.py:713-717 | The recorded run gains the timer; an open future is cancelled if the runtime does so at once. |
| `Service.RemoteAgentService.ReceiveResponse` | remote_agent_connector/relay.py:302-338 | The recorded run gains the response: a matching one resolves its future, any other ends the session and changes no call. |
| `Service.RemoteAgentService.CancelRequest` | remote_agent_connector/service.py:86-125 | The recorded run gains the cancel; a frame that is written is for a device entitled to it. |
| `Service.RemoteAgentService.ResolveCancelled` | remote_agent_connector/service.py:126-130 | The recorded run gains the second half of the cancel: the future is resolved unless it is done. |
| `Service.RemoteAgentService.IssueEnrollmentToken` | remote_agent_connector/service.py:151-182 | The recorded run gains a fresh token. |
| `Service.RemoteAgentService.AcceptConnection` | remote_agent_connector/relay.py:105-113 | The recorded run gains a connection with its first challenge. |
| `Service.RemoteAgentService.ChallengeAgain` | remote_agent_connector/relay.py:142-151 | The recorded run gains the second challenge of an enrolling connection. |
| `Service.RemoteAgentService.ConsumeAndEnroll` | remote_agent_connector/service.py:184-277 | Token, then challenge, then signature and device row; what was spent stays spent when a later check fails. |
| `Service.RemoteAgentService.CompleteEnrollment` | remote_agent_connector/service.py:184-277 | The recorded run gains this enrollment. |
| `Service.RemoteAgentService.Register` | remote_agent_connector/relay.py:50-55 | The session takes over the registry entry and the calls of the session there fail. |
| `Service.RemoteAgentService.AuthenticateRelay` | remote_agent_connector/service.py:287-358 | A usable challenge is spent whatever comes of it; the presence row is written exactly when device, signature and epoch hold as well. |
| `Service.RemoteAgentService.OpenSession` | remote_agent_connector/relay.py:222-272 | The session, its row and its registration are written exactly for a signed answer to this connection's own challenge; otherwise none of them changes. |
| `Service.RemoteAgentService.AuthenticateSession` | remote_agent_connector/relay.py:150-163 | The recorded run gains this authentication; a session is opened exactly for a signed answer to this connection's own challenge. |
| `Service.RemoteAgentService.ServeHeartbeat` | remote_agent_connector/relay.py:274-296 | The recorded run gains the beat; an accepted one moves row and session, any other ends the session. |
| `Service.RemoteAgentService.RejectFrame` | remote_agent_connector/relay.py:181-198 | The recorded run gains a rejected frame, which ends the session or the handshake. |
| `Service.RemoteAgentService.RemoveAndDisconnect` | remote_agent_connector/relay.py:199-208 | Only the session still registered leaves the registry and closes its row; the calls of this session fail in any case. |
| `Service.RemoteAgentService.Teardown` | remote_agent_connector/relay.py:199-208 | The recorded run gains the end of this connection. |
| `Service.RemoteAgentService.RevokeDevice` | remote_agent_connector/service.py:452-461 | The recorded run gains the revocation, answered by whether the device exists. |
| `Service.RemoteAgentService.DeleteRevokedDevice` | remote_agent_connector/service.py:463-477 | The recorded run gains the deletion, which takes place exactly for a revoked device. |
| `Service.RemoteAgentService.DeviceStatus` | remote_agent_connector/service.py:394-421 | The sweep inside the read does not change its answer: online as of before it. |
| `Service.RemoteAgentService.OnlineAgents` | remote_agent_connector/service.py:430-450 | The devices listed are exactly those whose status is online, as of before the sweep inside the read. |
| `ReplayCache.CacheDecidesLikeFullLog` | remote_agent_connector/app_assertion.py:234-248 | If no (300 + skew)-second span holds more than the limit of acceptances, the bounded cache decides exactly as one that never forgets. |
| `ReplayCache.AcceptsIff` | remote_agent_connector/app_assertion.py:177-248 | One verification accepts if and only if its checks pass, both clock comparisons and the longest life included, and no entry of the cache with its id is unexpired. |
| `ReplayCache.DecidesExactly` | remote_agent_connector/app_assertion.py:234-248 | At any rate of acceptances the cache accepts exactly what passes the checks and whose every unexpired acceptance has been pushed out: at some later acceptance, that one and the unexpired ones between the two made the limit. |
| `ReplayCache.SameLog` | remote_agent_connector/app_assertion.py:234-248 | If a verifier that never forgets accepts at that rate over a whole run, the bounded one accepts exactly the same presentations. |
| `ReplayCache.AcceptedAgainIff` | remote_agent_connector/app_assertion.py:162-248 | At that rate, and if an id belongs to one assertion, one accepted before is accepted again if and only if its expiry falls between the two clock readings of the second verification. |
| `ReplayCache.AcceptedAcrossExpiry` | remote_agent_connector/app_assertion.py:177-185 | A concrete pair of presentations of one assertion that are both accepted. |
| `ReplayCache.TwiceNeedsLimitBetween` | remote_agent_connector/app_assertion.py:234-248 | Without any rate, two acceptances of an unexpired id have at least the limit of other acceptances strictly between them. |
| `ReplayCache.CacheIsBounded` | remote_agent_connector/app_assertion.py:246-248 | After any run the cache holds at most its limit. |
| `ReplayCache.AppAssertionVerifier.constructor` | remote_agent_connector/app_assertion.py:93-107 | An empty cache, with skew and limit raised to their minimum. |
| `ReplayCache.AppAssertionVerifier.StaleIds` | remote_agent_connector/app_assertion.py:237-241 | The collected ids are those of the expired entries and no others. |
| `ReplayCache.AppAssertionVerifier.Prune` | remote_agent_connector/app_assertion.py:237-243 | The unexpired entries remain, in order. |
| `ReplayCache.AppAssertionVerifier.Evict` | remote_agent_connector/app_assertion.py:247-248 | The newest entries up to the limit remain. |
| `ReplayCache.AppAssertionVerifier.RejectReplay` | remote_agent_connector/app_assertion.py:234-248 | Accepts exactly an id not among the unexpired entries, and remembers it. |
| `ReplayCache.AppAssertionVerifier.Verify` | remote_agent_connector/app_assertion.py:162-232 | Accepts exactly an admissible assertion that is no replay; an inadmissible one leaves the cache alone. |
| `Delegation.CanonicalInjective` | remote_agent_connector/protocol.py:446-480 | The canonical text is uniquely decodable for one-line audiences, even if the app id holds newlines, and the two forms are never confused. |
| `Delegation.SignatureFixesIdentity` | remote_agent_connector/protocol.py:504-550 | Two accepted header sets with one signature carry the same client, app, timestamp, nonce and scopes. |
| `Delegation.AcceptedIff` | remote_agent_connector/protocol.py:504-550 | Headers are accepted if and only if they can be read, their timestamp differs from the clock by at most the age limit, at least one second, in either direction, and their signature is the HMAC of the canonical text of what they say. |
| `Delegation.HeadersExpire` | remote_agent_connector/protocol.py:526-528 | Headers once accepted are rejected at every clock more than twice the limit later, under whatever secret and audience. |
| `Delegation.SignedStatementIsAccepted` | remote_agent_connector/protocol.py:504-550 | A normalized statement that is signed and sent is accepted as exactly itself if its timestamp differs from the clock by at most the larger of the age limit and one second, in either direction, and rejected as expired if not. |
| `Identifiers.ScopesAreASet` | remote_agent_connector/protocol.py:213-231 | Two scope lists normalize alike if and only if they hold the same scopes. |
| `Identifiers.ScopesParseIff` | remote_agent_connector/protocol.py:233-237 | A scope list is accepted if and only if it holds at least one scope and none but the seven. |
| `Identifiers.ScopesSurviveTheWire` | remote_agent_connector/protocol.py:213-237 | Normalized scopes come back unchanged from comma-joining and parsing. |
| `Identifiers.ParsedClientId` | remote_agent_connector/protocol.py:199-203 | A parsed client id is not blank and parses to itself. |
| `Assertion.ParseIdempotent` | remote_agent_connector/protocol.py:390-443 | Parsing a parsed assertion gives it back unchanged. |
| `Assertion.VerifiedIff` | remote_agent_connector/app_assertion.py:162-232 | The device accepts if and only if the envelope parses, its key is listed, usable and inside its window and verifies the signature, the five identity fields are the expected ones, the three lifetime checks hold, and its id is not remembered unexpired. |
| `Assertion.AcceptedForOneIdentity` | remote_agent_connector/app_assertion.py:211-221 | An envelope accepted for one binding is rejected by every binding that differs in client, app, connector, scopes or request. |
| `Assertion.ForwardingIsTransparent` | remote_agent_connector/service.py:684-686 | From the same cache and clock the device gives the same verdict, and keeps the same cache, on the forwarded envelope as on the original. |
| `Splitter.SplitStatements` | remote_agent_connector/db.py:170-198 | The character loop returns the stripped, non-blank segments of the scan. |
| `Splitter.SegmentsAreTheScript` | remote_agent_connector/db.py:176-198 | Raw segments and trailing text concatenate to the script. |
| `Splitter.ScanTracksQuote` | remote_agent_connector/db.py:178-182 | The scan's open quote is the one an independent reading of the text has open. |
| `Splitter.QuotedSemicolonKept` | remote_agent_connector/db.py:178-183 | A semicolon inside quotes ends no statement. |
| `Splitter.SegmentsAreWhole` | remote_agent_connector/db.py:183-195 | Every raw segment ends in a semicolon, and one that defines a trigger ends in `END;`. |
| `Splitter.CutsAlikeIff` | remote_agent_connector/db.py:176-198 | For every script the two splitters cut at the same places if and only if no semicolon sits in an open quote and every piece before a semicolon that begins like a trigger definition ends like one. |
| `Splitter.SplittersAgree` | remote_agent_connector/store.py:747-752 | On all such scripts, with quotes and complete triggers, both splitters return the same statements up to terminators and blanks. |
| `Splitter.AllQuotedIsOne` | remote_agent_connector/migrations/sqlite/003_request_client_isolation.sql:1-58 | A script whose every semicolon sits in an open quote is one statement to the quote-aware splitter. |
| `Splitter.SplittersDisagree` | remote_agent_connector/migrations/sqlite/003_request_client_isolation.sql:1-4 | Two statements after a comment with an apostrophe are two to the plain splitter and at most one to the quote-aware one. |
| `Migration.MigrationKeepsEveryRow` | remote_agent_connector/migrations/sqlite/003_request_client_isolation.sql:32-54 | For any legacy table and any backfill, old rows map one-to-one to new rows with unchanged content and no key clash. |
| `Migration.BackfillExists` | remote_agent_connector/migrations/sqlite/003_request_client_isolation.sql:38-46 | Every row gets a client, whatever the audit trail holds. |
| `Migration.BlankMeansUnattributed` | remote_agent_connector/migrations/sqlite/003_request_client_isolation.sql:38-46 | A row gets the blank client if and only if no audit event names a principal for it. |
| `Migration.TombstonesAreUnreachable` | remote_agent_connector/migrations/sqlite/003_request_client_isolation.sql:8-14 | Whatever runs on a migrated table, no parsed client id ever claims, settles or removes a row of the blank client. |

## Left out

- HTTP and MCP routing, configuration, start-up checks and error tables only forward to the service.
- Certificates, TLS publication, renewal scripts and deployment are plumbing around other programs.
- Redaction lives in regular expressions.
- `verify_keyset` and `pending_root`: the keyset is an input of the verdict; nothing is claimed about keyset expiry, which the code does not compare with the clock.
- Audit rows, display labels, platforms, fingerprints, `rename_device` and `list_devices` do not influence the protocol state; the audit trail appears only as input of the migration.
- Ed25519, base64, UUID and key formats are verdicts carried by events or function parameters; JSON is a datatype with integer numbers only, and identifiers arrive parsed.
- A frame is an already decoded value; message size limits, handshake timeouts and field checks appear as one event, a rejected frame. The app id and assertion fields of a request frame are not part of the sent frame; what forwarding does to an assertion is treated apart.
- A context epoch that is no integer is not modelled; it is a rejected frame.
- The creation and completion times of request rows are not modelled; nothing reads them.
- A service without a registry (`relay_unavailable`) is not modelled.
- Session objects are values in the registry's maps, so aliasing of a session object is not captured; pending tables are one map keyed by session and request id.
- Two delegations are compared up to the HMAC; the comparison of an attached assertion with the delegation is not modelled.
- Strings are sequences of characters; upper-casing is modelled for ASCII and lower-casing of connector ids is a parameter.
- The patterns of client, app, key, connector and scope ids, of nonces and of whitespace are definitions; no law beyond them is stated.
- Splitter.SplittersAgree: the exact condition is proved for where the splitters cut; after stripping, a script whose only quoted semicolon is its last character gives equal statements although the cuts differ.
