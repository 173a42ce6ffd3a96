# Robot fleet: verified model

A Dafny model of the robot fleet's device lifecycle, over-the-air updates, telemetry codec and cursor
pagination, with proofs of what they guarantee. `dafny verify dfyconfig.toml` checks everything.

**Device lifecycle (phases 0 to 2).** `DeviceStore` is the SQLite store as a class whose calls run their
statements inside BEGIN and COMMIT or ROLLBACK; `DeviceTables` are the atomic steps they refine.
`EnrollmentService` holds the two request handlers run alone; `ServerProtocol` is the same service as a
transition system in which any number of requests interleave between claim, sign and create, may stop
anywhere, and the whole server may crash. `AgentProgram` is the robot's start-up as a class over its disk,
with the power failing after any number of file writes; `Lifecycle` puts any number of such agents, lost
replies and arbitrary other clients around the server. The two agents have the same behaviours:
`AgentRefinement` is the inclusion of the protocol in the program, `AgentCoverage` the other one.
On top of these: `Claims` and `History` (runs without `register_serial`), `Conservation` (counting),
`Provenance` and `AgentProvenance` (who enrolls), `Recovery` (which agents can still come online) with `RecoveryCases` (each kind
of stuck agent is reached), `Manifest` (the FACTORY_MANIFEST text) and `Heartbeat`.

**Updates.** `JobTable`/`JobStore`, `Dispatch` (broadcast channels of eight) and `OtaServer` are the
service; `UpdateAgent` is the robot's loop. `OtaProtocol` composes them into a transition system with
disconnects, reconnects, lost acknowledgements, dropped handlers and restarts; `OtaDelivery`, `OtaResults` and `OtaProgress`
prove what it keeps and which jobs can still end, and `UpdateSession` that the robot's loop stays within it.

**Telemetry.** `Wire` is the frame codec at byte level, `TelemetryReader` the socket loop over arbitrarily
cut chunks. **Pagination.** `Ordering`, `DeviceQuery`, `DeviceWalk` and `DeviceServer` are the query builder, the
walk by unique id and the handler a client walks with; `JobWalk` is the walk by a one-second timestamp that may tie.

## What the code does not promise

Some properties one might expect fail, and the model says exactly when.

- A crash or a lost reply after a token or a claim is spent leaves an agent offline for ever
  (`register_serial` can reopen a claim, never a token). `Recovery.ComesOnlineIffNotStuck` gives the exact
  condition in every reachable state, and `RecoveryCases` reaches each of its four cases; one is a stop
  between writing `operational.pem` and `device-id`, because phase 2 is taken as done as soon as the
  certificate file exists.
- The stage of a serial falls exactly when `register_serial` reopens a claim that has no device row yet.
- The certificates name whatever the CSR names: an enrollment is by the party that spent the serial's token
  exactly when that party's provisioning CSR carried the same serial; `Provenance.NamesMayDiffer` is a run
  where it did not.
- A job's verdict can be overwritten, since `update_status` has no guard: it changes in a step exactly when
  the step is an acknowledgement of that job, from anyone, with the other outcome. Agents alone never do
  that; after one acknowledgement from someone else the agent's own may (`OtaResults.AgentOverwritesVerdict`).
- The agent never calls `check_update`, so a command that misses its session is never delivered, and as long
  as only agents acknowledge no further update of that device can be created
  (`OtaProgress.MissedCommandBlocksDevice`, reached in `OtaProgress.UnheardCommandIsMissed`).
- A job walk misses exactly the jobs cut off from a full page they tie with (`JobWalk.TiedWalkLosesJobs`,
  and on three jobs `JobWalk.ThreeTiedJobs`).
- A manifest survives printing and parsing exactly when every entry is free of the separators and of outer
  white space.
- A telemetry frame above 62499 joints passes the encoder but ends the reader.

Where code and documentation differ the model follows the code: the stored success status is `completed`
(proto/fleet.proto:208 says `success`), and nothing on the robot calls `RenewCert` although README.md:55
describes a 30-day rotation.

## Model

| member | source | states |
|---|---|---|
| DeviceStore.SqliteDeviceStore.ClaimManifestEntry | device-management-service/src/store/mod.rs:314-356 | which error for which cause, in order, whatever statement fails, and then every table as before; otherwise the row's model is returned, the row alone is marked spent at the given time, and a missing pre-enrollment row is added unclaimed, an existing one left alone |
| DeviceStore.SqliteDeviceStore.LookupAndClaim | device-management-service/src/store/mod.rs:257-297 | which error for which cause, and then every table as before; otherwise that serial's claimed flag alone is set and its model returned |
| DeviceStore.SqliteDeviceStore.Rollback | device-management-service/src/store/mod.rs:292-295 | restores the tables as they were at BEGIN |
| DeviceStore.SqliteDeviceStore.CreateDevice | device-management-service/src/store/mod.rs:115-141 | a duplicate id or serial or an engine error changes nothing; otherwise one row is added, active, with the given serial, model, firmware and certificate and both times now; serials stay unique |
| DeviceStore.SqliteDeviceStore.SeedManifest | device-management-service/src/store/mod.rs:305-312 | an existing manifest row is never changed |
| DeviceStore.SqliteDeviceStore.RegisterSerial | device-management-service/src/store/mod.rs:243-255 | an unknown serial gets an unclaimed row, a known one keeps its model and is unclaimed again, unless a device row has that serial |
| DeviceStore.SqliteDeviceStore.UpdateStatus | device-management-service/src/store/mod.rs:171-181 | sets the status of one known row, or NotFound and no change |
| DeviceStore.SqliteDeviceStore.TouchLastSeen | device-management-service/src/store/mod.rs:183-194 | sets last_seen_at of one known row, or NotFound and no change |
| DeviceStore.SqliteDeviceStore.ListDevices | device-management-service/src/store/mod.rs:196-241 | in fields of the rows: each returned record has the asked model and status and an id above the cursor, ids increase, every such device is returned or lies above the next cursor; at most `limit` rows, exactly that many with a cursor, which is the last id and means there are more |
| ServerProtocol.ServerStepKeepsInv | device-management-service/src/enrollment/mod.rs:56-96 | every interleaved step keeps: unique serials, provisioned implies pre-enrolled, each request agrees with the tables, one reply and one provisioning per serial |
| ServerProtocol.OperatorSteps | device-management-service/src/store/mod.rs:171-312 | seeding, changing a status and register_serial each write one row of one table, as the store does |
| ServerProtocol.StepGrowsTables | device-management-service/src/store/mod.rs:113-357 | no step unprovisions a serial, removes a device row, or changes its serial or certificate |
| ServerProtocol.StepGrowsRequests | device-management-service/src/enrollment/mod.rs:33-97 | requests keep what they asked for; a reply, once given, stays, and a request past its claim stays past it |
| ServerProtocol.OneEnrollResultPerSerial | device-management-service/src/enrollment/mod.rs:56-96 | in every interleaving, register_serial included, at most one request per serial is ever answered with an EnrollResult, no two device rows share a serial, and each answer matches its row |
| ServerProtocol.PastRequestsNameTheirSerial | device-management-service/src/enrollment/mod.rs:41-57 | over every run, a request past its claim showed a device-CA certificate and carries an empty serial field or the serial of that certificate |
| EnrollmentService.EnrollAloneIsEnrollOutcome | device-management-service/src/enrollment/mod.rs:41-96 | claim, sign and create taken without interruption equal the handler's outcome, for every request and every error, engine errors at any statement included |
| EnrollmentService.FailedEnrollmentSpendsTheClaim | device-management-service/src/enrollment/mod.rs:56-79 | a failed enrollment leaves the tables alone before its claim, and from the claim on leaves exactly that claim spent; the engine error is the answer exactly when the insert of a signed request fails |
| EnrollmentService.ProvisionAloneIsProvisionOutcome | device-management-service/src/provisioning/mod.rs:43-70 | claim and sign taken without interruption equal the provisioning handler's outcome, engine errors included |
| EnrollmentService.EnrollmentService.BootstrapEnroll | device-management-service/src/enrollment/mod.rs:33-97 | for every request and every failing statement the exact answer and tables: no certificate, a serial field that differs from it (tables unchanged), a foreign issuer, each claim error, an unreadable CSR, each insert error; success needs a device-CA certificate and an empty or equal serial field and answers with id, certificate of the CSR's name and key, CA chain and expiry |
| EnrollmentService.EnrollmentService.RenewCert | device-management-service/src/enrollment/mod.rs:99-120 | succeeds exactly for a known active device with a readable CSR, and changes no row |
| EnrollmentService.ProvisioningServer.ProvisionDevice | device-management-service/src/provisioning/mod.rs:37-71 | for every request and every failing statement the exact answer and tables: empty fields, each manifest error, an unreadable CSR after the token is spent, or a device-CA certificate of the CSR's name and key |
| Lifecycle.StepKeepsInv | robot-agent/src/main.rs:50-82 | one invariant of server, files and program positions is kept by every step of server, agents and crashes |
| Lifecycle.FilesNeverRunAhead | robot-agent/src/enrollment.rs:55-80 | in every reachable state device.pem pairs with device.key and the serial is provisioned; operational.pem pairs with operational.key and is the one row's certificate; device-id is that row's id; an online agent uses exactly those |
| Lifecycle.ServerOfRun | device-management-service/src/enrollment/mod.rs:33-97 | the server inside any lifecycle run is a run of the server protocol, so every result about server runs applies |
| AgentProgram.RobotAgent.Provision | robot-agent/src/provisioning.rs:28-55 | key, then call, then certificate: file by file the disk after any number of writes the power lasts for |
| AgentProgram.RobotAgent.Enroll | robot-agent/src/enrollment.rs:55-80 | operational.key, call, operational.pem, CA chain, device-id: file by file the disk after any number of writes the power lasts for |
| AgentProgram.RobotAgent.Startup | robot-agent/src/main.rs:50-85 | phase gating on file existence: file by file the disk it leaves for any replies and any power failure, exactly when it goes online and with which identity |
| AgentProgram.StartupKeepsPairsAtEveryCut | robot-agent/src/enrollment.rs:58-76 | cut after any number of writes, certificates still sit beside the keys they certify and device-id never without operational.pem |
| AgentRefinement.AgentStepGoesOn | robot-agent/src/main.rs:50-82 | every step of a protocol agent is a step of the start-up program, in the same start-up or the next |
| AgentRefinement.AgentsRunTheProgram | robot-agent/src/main.rs:50-82 | in every reachable state an agent's files are what some row of cut-off start-ups leaves on a blank disk, and it is online only if the last one goes online with that identity |
| AgentCoverage.ProgramIsProtocol | robot-agent/src/main.rs:50-85 | conversely every start-up of the program, with the server doing anything meanwhile and the power failing anywhere, is a run of the protocol with that disk and that server, online if and only if the program goes online |
| AgentCoverage.StartUpKeepsFilesBacked | robot-agent/src/main.rs:50-85 | so from any state of the invariant every cut-off start-up leaves files that pair with their keys and are backed by the server's tables |
| AgentCoverage.StartAgent | robot-agent/src/main.rs:50-85 | the same of the running agent: its files never run ahead of the server, and what it goes online with is the serial's device row |
| Recovery.StuckForever | robot-agent/src/main.rs:50-85 | a stuck agent comes online in no continuation of the run |
| Recovery.ComesOnlineIffNotStuck | robot-agent/src/main.rs:50-85 | in every reachable state some continuation brings the agent online if and only if it is in none of the named stuck situations |
| RecoveryCases.LostProvisioningReply | robot-agent/src/provisioning.rs:46-55 | a run that loses the provisioning reply after the token is spent; the agent can never come online |
| RecoveryCases.StopLosesClaim | robot-agent/src/enrollment.rs:58-74 | a run that stops the agent while the server holds its claim; it can come online if and only if register_serial may be called, which lowers the serial's stage |
| RecoveryCases.LostEnrollmentReply | robot-agent/src/enrollment.rs:63-74 | a run that loses the enrollment reply; the device row exists and the agent can never come online |
| RecoveryCases.StopLosesIdentity | robot-agent/src/enrollment.rs:74-76 | a run that stops the agent between operational.pem and device-id; enrolled on both sides, it can never come online |
| Claims.StepIsClaimStep | device-management-service/src/store/mod.rs:257-297 | without register_serial a step newly claims a serial exactly when one waiting request wins it |
| Claims.StageFallsOnlyOnReopening | device-management-service/src/store/mod.rs:243-255 | a serial's stage falls in a step if and only if register_serial reopens a claim without a device row |
| Claims.StageNeverFalls | device-management-service/src/store/mod.rs:257-356 | without register_serial the stage of a serial never falls over any run |
| History.RunKeepsRecorded | device-management-service/src/enrollment/mod.rs:41-96 | without register_serial the tables and requests always agree with the event log, and every event has its cause before it |
| History.EnrollmentHasItsCauses | device-management-service/src/enrollment/mod.rs:41-79 | each enrollment is preceded, in order, by the first seeding of its serial, the spending of exactly that token, one claim and one bootstrap signature, and its device row keeps that serial and the seeded model |
| History.NothingHappensTwice | device-management-service/src/enrollment/mod.rs:56-79 | per serial at most one token spent, one claim, one bootstrap signature, one enrollment |
| History.RepliesAreLogged | device-management-service/src/enrollment/mod.rs:71-96 | every EnrollResult is an enrollment event with its own signature, so the two results above apply to it, and its device row has the model of the manifest row |
| History.PastRequestsHoldTheirSerial | device-management-service/src/enrollment/mod.rs:56-79 | without register_serial that serial is claimed, and no other request for it gets past its claim |
| Conservation.ClaimsConserved | device-management-service/src/enrollment/mod.rs:56-79 | claimed serials = device rows + enrollments in flight past the claim + enrollments lost after it |
| Conservation.Funnel | device-management-service/src/store/mod.rs:314-356 | devices within claimed within pre-enrolled = provisioned within manifest, as sets of serials and in number |
| Conservation.AlreadyEnrolledOnlyOnIdCollision | device-management-service/src/store/mod.rs:120-129 | without register_serial a signed request gets its row unless the drawn id collides; the serial is never already enrolled |
| Provenance.EnrollerSpentTheToken | device-management-service/src/enrollment/mod.rs:42-60 | without forged device certificates each claimed enrollment is by exactly one provisioned party, holder of that CSR's key; it spent the token of the enrolled serial if and only if its CSR carried the serial it gave the token for |
| Provenance.HonestCsrsEnrollThemselves | robot-agent/src/provisioning.rs:31-51 | when accepted CSRs carry their own serial, only the party that spent a serial's token enrolls it |
| Provenance.CertificateNamesTheCsr | device-management-service/src/provisioning/mod.rs:49-61 | the issued certificate names the serial whose token was spent if and only if the CSR did |
| Provenance.OperationalNamesTheCsr | device-management-service/src/enrollment/mod.rs:56-79 | the operational certificate in the device row names the enrolled serial if and only if the enrollment CSR did |
| Provenance.NamesMayDiffer | device-management-service/src/provisioning/mod.rs:49-61 | a run without forged certificates in which a serial's claim goes to the spender of another serial's token, whose CSR named the first |
| AgentProvenance.DevicePemHasItsToken | robot-agent/src/provisioning.rs:31-55 | in every reachable state the request behind a robot's device.pem is its own, carried its serial and key, and is the one that spent the serial's token |
| AgentProvenance.ProjectedIsUnforged | robot-agent/src/main.rs:70-80 | robots present only certificates issued to them, so when nobody else forges one the server of a lifecycle run sees none |
| AgentProvenance.OnlineRobotsEnrolledThemselves | device-management-service/src/enrollment/mod.rs:42-79 | with nothing forged and CSRs that name their own serial, an online robot's device row was enrolled with the certificate of the very request that spent its token and is behind its device.pem |
| Manifest.RoundTripIffCanonical | device-management-service/src/main.rs:57-63 | printing entries and parsing them back gives the same entries if and only if all are canonical |
| Manifest.SeedFromText | device-management-service/src/main.rs:55-69 | the loop seeds exactly the parsed entries in order and counts them, skipping unreadable ones |
| Manifest.EntryForms | device-management-service/src/main.rs:58-63 | no colon is no entry, one colon leaves the model to the default, from the second colon on all is model |
| Manifest.PieceIsRead | device-management-service/src/main.rs:57-63 | each comma-separated piece is read for itself, with any white space around it; blank pieces and those without a colon are passed over |
| Manifest.JoinSplit | device-management-service/src/main.rs:57 | every text is its comma-separated pieces joined again, so the above is about every text |
| Manifest.TrimTakesOffSpace | device-management-service/src/main.rs:57 | trimming takes off white space on both sides and nothing else |
| Manifest.SpacesByCode | device-management-service/src/main.rs:57 | white space is the Unicode property, by code point |
| Manifest.FirstEntryWins | device-management-service/src/store/mod.rs:305-312 | after seeding a serial keeps its old row, or has the row of its first entry; the other tables are untouched |
| Manifest.ReseedingAfterAnyRunIsIdle | device-management-service/src/main.rs:55-69 | seeding the same text again after any run changes nothing, so no spent token is revived |
| Heartbeat.Handle | device-management-service/src/heartbeat/mod.rs:21-82 | the service ends as others' steps with one touch of the first message's id after each message whose touch the engine performs, and the device was last seen at the last of them; with a known device one response per good message up to the first error while the receiver is open and no NotFound whatever interleaves; otherwise NotFound can only answer the first touch performed |
| Heartbeat.TouchDevice | device-management-service/src/store/mod.rs:183-194 | a touch finds the device or not, and changes its last_seen_at and nothing else |
| JobStore.SqliteJobStore.Create | ota-service/src/store/mod.rs:85-105 | refused with the table unchanged when the device has a pending or in_progress job or the id is taken; otherwise the table gains, and the answer is, a pending job of that device and version with no error, created now |
| JobStore.SqliteJobStore.SetStatus | ota-service/src/store/mod.rs:123-133 | writes status and error of a known job without a guard, or NotFound and no change |
| JobStore.SqliteJobStore.GetPendingForDevice | ota-service/src/store/mod.rs:107-121 | an oldest pending or in_progress job of the device, or none exactly when there is none |
| JobStore.SqliteJobStore.ListForDevice | ota-service/src/store/mod.rs:135-162 | in fields of the jobs: rows are distinct jobs of the device older than the cursor, newest first, every other such job is no newer than the next cursor; at most `limit` rows, exactly that many with a cursor, which is the last time and means there are more; page sizes 0 and -1 give nothing, lower ones every match, none of them a cursor |
| Dispatch.Push | ota-service/src/dispatcher/mod.rs:10-30 | a command joins the end of the queue, the oldest falls off a queue of eight, and each command sent is held or counted as missed |
| Dispatch.Dispatcher.Send | ota-service/src/dispatcher/mod.rs:36-49 | the command reaches exactly the open receivers of the device and their number is returned, or nothing changes and NoActiveSubscribers says that there is none |
| Dispatch.Dispatcher.SubscribeDevice | ota-service/src/dispatcher/mod.rs:25-31 | adds an empty receiver: it sees only what is sent afterwards |
| OtaServer.OtaServer.DispatchUpdate | ota-service/src/server/mod.rs:114-147 | refused as the store refuses; otherwise the job with its version and time is stored and, if anyone listens, answered and put at the end of each open receiver's queue; without subscribers the error leaves it as the device's one active job |
| OtaServer.OtaServer.AckUpdate | ota-service/src/server/mod.rs:93-112 | any known job takes the acknowledged status and error, whatever it had; an unknown one is NotFound |
| OtaServer.OtaServer.CheckUpdate | ota-service/src/server/mod.rs:66-91 | answers with the device's oldest active job, or none when there is none |
| OtaServer.OtaServer.WatchUpdates | ota-service/src/server/mod.rs:54-64 | a fresh subscription to the device's channel |
| OtaServer.OtaServer.ListUpdateJobs | ota-service/src/server/mod.rs:149-165 | the store's page, in fields of the jobs, for a page size of 20 when the limit is zero or less |
| OtaServer.DispatchIsCreateThenSend | ota-service/src/server/mod.rs:114-147 | the protocol's two dispatch steps taken together equal the handler |
| OtaProtocol.StepKeepsTable | ota-service/src/store/mod.rs:85-133 | any step, foreign acknowledgements included, keeps one active job per device, never stores in_progress, reactivates nothing |
| OtaDelivery.RunKeepsDelivery | robot-agent/src/ota.rs:31-63 | with acknowledgements from agents only, the delivery invariant over jobs, channels, sessions and acknowledgements holds in every reachable state |
| OtaDelivery.FirstInFirstOut | ota-service/src/server/mod.rs:54-64 | commands reach the agent in the order they were sent |
| OtaResults.OneActiveJobPerDevice | ota-service/src/store/mod.rs:85-133 | over every run with arbitrary acknowledgements: one active job per device, no in_progress, each job keeps its device, version and creation time, a terminal job is never active again |
| OtaResults.UndeliveredJobIsOffered | ota-service/src/server/mod.rs:66-147 | in every run a job whose send finds nobody listening is, until someone acknowledges that very job, the only answer of check_update and in the way of every further job of its device |
| OtaResults.NothingLagsOrIsDropped | ota-service/src/server/mod.rs:54-64 | a live receiver holds at most one unread command and has missed none; what is unread, in hand or unanswered is the device's active job |
| OtaResults.AppliedAtMostOnce | robot-agent/src/ota.rs:38-61 | each job is applied at most once through disconnects, reconnects and lost acknowledgements |
| OtaResults.VerdictTellsTheApplication | ota-service/src/server/mod.rs:93-112 | a completed (failed) job was applied exactly once and that application succeeded (failed) |
| OtaResults.VerdictChangesIffContradicted | ota-service/src/store/mod.rs:123-133 | in every state a terminal status changes in a step if and only if the step is an acknowledgement of that job, from anyone, with the other outcome; it never becomes active again |
| OtaResults.AgentsNeverContradict | robot-agent/src/ota.rs:38-61 | while only agents acknowledge, no acknowledgement of a job with a terminal status is ever processed |
| OtaResults.AgentOverwritesVerdict | ota-service/src/server/mod.rs:93-112 | a run with one foreign acknowledgement after which the agent's own acknowledgement turns completed into failed |
| OtaResults.VerdictIsFinal | ota-service/src/store/mod.rs:123-133 | with acknowledgements from agents only a terminal status never changes |
| OtaProgress.SettlesIffOnItsWay | robot-agent/src/ota.rs:31-63 | over runs in which handlers may be dropped before their send, an active job can still reach a verdict if and only if it is about to be sent, held by the live session, in hand or acknowledged in flight |
| OtaProgress.MissedCommandBlocksDevice | robot-agent/src/ota.rs:17-63 | once a command has missed its session no further update of that device can be created, as long as only agents acknowledge |
| OtaProgress.UnheardCommandIsMissed | ota-service/src/server/mod.rs:114-147 | a two-step run, creating and sending to a device that is not connected, after which the job can never reach a verdict |
| UpdateAgent.RunStream | robot-agent/src/ota.rs:31-63 | applies each command once, in order, up to the first stream error or unanswered acknowledgement, and acknowledges it with its own outcome; ends well exactly when neither comes |
| UpdateAgent.RunStreams | robot-agent/src/ota.rs:17-29 | reconnects exactly until a session ends well, applying what each session up to it brought; the first wait is one second and each further one twice the last, at most 60 |
| UpdateSession.SessionIsARun | robot-agent/src/ota.rs:31-63 | a session of the loop, with anything others do in between, is a run of the protocol in which the agent applies and acknowledges exactly what the loop does and ends disconnected |
| UpdateSession.LoopIsARun | robot-agent/src/ota.rs:17-29 | the same of all sessions with their reconnects, up to the first that ends well |
| UpdateSession.RunFed | robot-agent/src/ota.rs:17-63 | the running loop, fed by the protocol from any state that agents alone bring about, applies no job twice and acknowledges just what it applied |
| Wire.PushJoints | robot-agent/src/telemetry.rs:179-192 | joint i has the i-th word of each of the two split arrays, the i-th of the six names, unknown beyond them, and 35 degrees |
| Wire.ParseFrame | robot-agent/src/telemetry.rs:167-204 | none exactly when shorter than the header or its joint count; otherwise the device, seconds and nanos adding up to the signed timestamp and sharing its sign, and each joint's name, position and torque; of any encoded reading, its own timestamp and arrays |
| Wire.EncodeFrame | simulator/controller/robot_controller.py:113-130 | succeeds exactly for an i64 timestamp, equal-length arrays and a length fitting u32; N joints take 16 + 16 N bytes |
| Wire.EncodedBytes | simulator/controller/robot_controller.py:113-130 | exactly which readings are encoded, and every field of the frame at its place: length, timestamp in two's complement, count, positions, torques |
| Wire.EightBytes | robot-agent/src/telemetry.rs:171-184 | a word is its eight bytes, most significant first |
| Wire.FourBytes | robot-agent/src/telemetry.rs:75 | a count or length is its four bytes, most significant first |
| Wire.DecodeEncode | robot-agent/src/telemetry.rs:167-204 | decoding any encoded payload gives back the timestamp and both arrays bit for bit |
| Wire.EncodeDecode | simulator/controller/robot_controller.py:124-130 | re-encoding what an accepted payload carries gives its first 12 + 16 N bytes |
| Wire.TimestampSplit | robot-agent/src/telemetry.rs:194-195 | seconds and nanos add up to the timestamp and share its sign; nonnegative timestamps give nanos in 0..999999999 |
| TelemetryReader.Socket.ReadExact | robot-agent/src/telemetry.rs:71-83 | fills the buffer however the stream is cut, or fails exactly when the stream is too short |
| TelemetryReader.ReadPayload | robot-agent/src/telemetry.rs:70-83 | a payload is read exactly when the prefix says 1 to 1000000 bytes and they all arrive, and it is those bytes |
| TelemetryReader.RunFromSocket | robot-agent/src/telemetry.rs:69-94 | emits exactly the frames of the whole input in order until the channel closes, each continuing iteration using at least 5 bytes |
| TelemetryReader.FrameReadIffInCap | robot-agent/src/telemetry.rs:75-78 | an encoded frame is read, and reading goes on, if and only if it has at most 62499 joints |
| TelemetryReader.UnreadablePayloadIsSkipped | robot-agent/src/telemetry.rs:85-88 | an in-cap payload that does not parse is skipped without losing sync |
| TelemetryReader.FramesThen | robot-agent/src/telemetry.rs:69-94 | the frames of any list of in-cap readings are read in order and then whatever follows |
| TelemetryReader.Deliver | robot-agent/src/telemetry.rs:69-94 | the socket loop, fed any list of encoded in-cap frames and part of one more, cut into any chunks, sends exactly the complete frames in order as far as the channel takes them |
| TelemetryReader.TruncatedTailDropsOnlyTheLast | robot-agent/src/telemetry.rs:81-83 | a stream cut inside its last frame delivers all the others |
| DeviceQuery.AddFilter | device-management-service/src/store/mod.rs:212-223 | adding an optional filter narrows the selection by exactly that column and text and disturbs no earlier placeholder |
| DeviceQuery.BuildQuery | device-management-service/src/store/mod.rs:205-225 | on every table, query and parameters select exactly the rows with the asked model and status and an id above the cursor, sorted by id, one more than the limit; the limit is bound last |
| Ordering.LessIsFirstDifference | device-management-service/src/store/mod.rs:220-224 | texts are ordered by their first different character, a prefix first |
| DeviceWalk.NextPageIsTheTail | device-management-service/src/store/mod.rs:233-238 | a page is the first `limit` matches, and its cursor selects exactly the rest |
| DeviceWalk.WalkListsEverything | device-management-service/src/store/mod.rs:196-241 | on a still table the pages concatenate to the sorted matches in exactly max(1, ceil(n / limit)) calls |
| DeviceWalk.ChangingTableWalk | device-management-service/src/store/mod.rs:196-241 | whatever changes between pages, ids strictly increase, none repeats, and a finished walk has every device that matched throughout |
| DeviceServer.DeviceManagementServer.ListDevices | device-management-service/src/server/mod.rs:136-156 | in fields of the rows, for the request's nonempty filters and cursor: what is returned, in which order, and that every other match lies above the returned cursor; at most the asked number of rows, 50 if none is asked, exactly that many with a cursor |
| DeviceServer.RequestsListEverything | device-management-service/src/server/mod.rs:136-156 | a client that follows the handler's cursors from the empty one gets the sorted matches, n of them in exactly max(1, ceil(n / page size)) requests |
| DeviceServer.RequestsMissNone | device-management-service/src/server/mod.rs:136-156 | the same client on a changing table gets strictly increasing ids and, once done, every device that matched throughout |
| JobWalk.PageFacts | ota-service/src/store/mod.rs:142-161 | a page's rows are matches in order, and everything newer than its cursor is on it |
| JobWalk.WalkIsBounded | ota-service/src/store/mod.rs:135-162 | following the cursors ends: however ties come out, no client gets more answers than there are jobs and one |
| JobWalk.WalkCanBeFinished | ota-service/src/store/mod.rs:156-161 | from wherever a client has got to, its answers can be continued to a finished walk; in particular one exists from every cursor |
| JobWalk.WalkInOrder | ota-service/src/store/mod.rs:143-148 | a walk repeats no job and never goes back in time |
| JobWalk.ListedIffNotCutOff | ota-service/src/store/mod.rs:156-160 | a job is listed if and only if it is not tied with, and cut off from, the last row of a full page |
| JobWalk.JobWalkResult | ota-service/src/store/mod.rs:135-162 | all of the above for a walk from the start, for every order of ties; with distinct timestamps it lists every job once |
| JobWalk.TiedJobsAreMissed | ota-service/src/store/mod.rs:156-160 | when all jobs of a device share one second, a walk lists one page and no more |
| JobWalk.TiedWalkLosesJobs | ota-service/src/store/mod.rs:156-160 | on every table with more jobs of one second than a page holds, a walk that exists leaves out a job, which is cut off |
| JobWalk.ThreeTiedJobs | ota-service/src/store/mod.rs:156-160 | a table of three jobs and its walk, two to a page, that leaves one out |

## Left out

- TLS, X.509 and CSR encoding (pki/): certificates are records of name, key and issuer; signing and the issuer check are abstract, and the agent's CSR carries its own serial.
- gRPC transport and the mapping of errors to status codes; messages are steps that may never happen.
- A failing COMMIT or ROLLBACK and a poisoned mutex; engine errors of the update service's store and of calls that only read. Each locked call either takes effect fully or errors without effect.
- UUIDs, keys and clocks are parameters; colliding ids are allowed, and no property here needs a clock that only advances.
- A power failure in the middle of writing one file: each file is written completely or not at all.
- JobStore.SqliteJobStore.ListForDevice: a page size of 0 wraps around in the source when built without overflow checks, as modelled; a build with them panics there. The handler never asks for it.
- Job timestamps and cursors are integer seconds instead of text; a cursor that is not a timestamp is not modelled.
- The protocol's jobs carry no error text (`OtaServer.AckUpdate` does), artifact URL, checksum or size.
- Applying an update (download, checksum, archive, install script) is a success or a failure chosen freely.
- A `usize` of 32 bits, on which the expected length of a payload could overflow; `usize` is taken as 64 bits.
- The reconnect loop of the telemetry client, the sine-wave source, /proc readings, the simulator backends and the directive socket.
- The artifact store, and reading a device by id or serial for display.
- That the robots eventually come online: only which of them still can is proved.
- DeviceServer.RequestsListEverything: needs that no device has the empty id, which would read as the end of a walk; ids are UUIDs.
- DeviceServer.RequestsMissNone: the same.
