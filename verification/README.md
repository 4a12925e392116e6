# RDesk: remote wake, screen demand, pairing, file relay, hashing and capture

RDesk lets a person see and wake their computers through a small relay server. This project models
its most intricate parts in Dafny and proves what they promise.

**Remote wake.** A request goes queued, claimed, sent and then to a terminal phase on the server, which
runs every change as a durable read-modify-write. A helper at home polls, makes a journal entry
durable, asks for a permit of at most two seconds, sends three packets and reports. `WakeProtocol` puts
the server, any number of helper processes with their disks, the messages in flight and the clocks into one
step relation in which every reply can be lost, repeated or delayed, and either side can crash at any
line; `WakeTheorems`, `WakeRetention`, `WakeLateness` and `WakeServed` state what holds over all runs. `WakeModel` and
`WakeRoutes` are the account and its routes, `WakeAnswers` what they answer and store in terms of the account alone,
`WakeAccount` the same routes as loops over mutable fields;
`WakeStore` and `UserStore` are the commit protocol, `WakeLedger`, `WakeServerSteps` and `WakeHelperSteps`
carry the invariant.
`HelperMachine` is the helper as a labelled transition system. `HelperWorld` keeps a record of everything the helper asks
of clocks, network, disk and server and is answered, `HelperActs` says what each move is made of, and `HelperEngine` is the
code, proved to make only that system's moves and each only by doing what it is made of; `AndroidEngine` is the phone's
second implementation with its concurrent stop.

**Screen demand.** Viewers hold timed leases; the first viewer of a new audience starts a new epoch, and
frames belong to the epoch they were uploaded in (`ScreenDemand`, `ScreenAudience`, `ScreenAnswers`, `ScreenServer`).

**Pairing** (`Pairing`, `PairingRuns`, `PairingTheorems`, `PairingProofs`, `PairingServer`), the **file relay**'s memory
(`FileRelay`, `FileServer`), **SHA-256, HMAC and HKDF** against their standards (`Fips180`,
`Sha256Code`), the **login hash** over them (`LoginHash`, and `KnownDigests` with particular digests worked out),
and the Windows host's **picture cache** (`ScreenCapture`).

## How to read it

A module named after a part of the system defines its state and its steps as functions; the modules beside it
state what holds over every run of those steps. A class is the code that changes the state in place, and each of
its methods is proved equal to the function of the step, so the results about runs are results about the code.
The modules named Answers, Served and Proofs say what the steps do without naming the functions: who is refused, why, and
what is stored otherwise.
Where the world decides (a clock, a reply, a failing write, a crash), the model takes any value.

## Assumptions

- The server's clock does not go back and is read once in a critical section. A helper's clocks have any offset; the
  monotonic one runs at the server's rate, or else only the wall clock is trusted.
- A handler's locked section, with the checks before it, is one step. A fetch is two: its renewal under the demand
  lock, and the read of the frame after it, with any other steps in between.
- A WebSocket viewer's check that its lease is alive and the renewal after it are one step; `ScreenDemand.LateRenewal`
  says exactly when it would make a difference if they were not.
- A commit is not cancelled between its write and its insertion into the live map, and a rename is atomic.
- New tokens and ids are unused ones, and digests of different tokens differ, so a digest is written as its token.
- A host that registers as on-demand has no frame stored but one of the audience now watching
  (`ScreenDemand.RegisterKeeps` shows that this is exactly what is needed), and no WebSocket upload is then open for it.
- The protocol follows one account. Its restarts recover the live account rather than reload the file; `WakeStore` shows
  that whenever the server serves the two are the same, because the recovered state is written back first.

## Where the code falls short of its description

- The 50 ms kept back from a permit guard 49 ms and one nanosecond of writing, because the server counts whole
  milliseconds: for a helper with an honest monotonic clock a delay between the last check and the packet is safe in
  every run exactly up to that (`WakeLateness.SafeDelays`). With only its wall clock honest no delay is safe: a packet
  can be late by the delay and 999,998 ns more, and never by more (`WakeLateness.WallClockLateness`). The late
  packets are those of runs from the first state (`WakeLateness.Written`).
- A frame fetched over HTTP is read after the viewer's lease was renewed and the lock released, so it can be one taken
  for a later audience: exactly when an audience begins in between (`ScreenAudience.FetchedFrameIsOfItsAudience`, and
  `ScreenAudience.AnotherAudiencesFrame` is such a run).
- The check after a WebSocket viewer's pong and the renewal after it lock separately. If its viewer stops in between, the
  socket goes on into the next epoch and is sent frames of both (`ScreenAudience.LateRenewalMixesEpochs`).
- A duplicated frame of another shape but with the very bytes retained counts as unchanged. From an encoding of the right
  shape, a capture returns one of the wrong shape exactly when the retained encoding was reusable and the mapped frame
  had the retained bytes but not the size of the display (`ScreenCapture.Capturer.Capture`, and two such captures in
  `ScreenCapture.OldShapeReturned`).
- `create_login_hash` hashes the password itself and `verify_login_hash` the decoded stored hash
  (`crates/rdesk_crypto/src/auth.rs`), so with the documented hash in store the right password is accepted exactly when
  it and its own digest hash alike under the nonce (`LoginHash.StoredDigestAccepts`). That takes a password that is its
  own digest, or two messages with one digest. The password and nonce of `test_create_and_verify_login_hash` in the same
  file, which expects them to be accepted, are refused (`KnownDigests.RightPasswordRefused`).

## Model

| member | source | states |
|---|---|---|
| WakeTheorems.AtMostThreePackets | tools/wake-helper/core.go:290-400 | in every run, with crashes, losses, repeats and several helper processes, a request id gets at most three packets, all from the call holding its only permit |
| WakeTheorems.OnePermitPerRequest | crates/rdesk_server/src/wake/routes.rs:547-582 | a permit is granted only for a request that never had one, and is recorded under that call |
| WakeTheorems.SendersReservedFirst | tools/wake-helper/core.go:320-380 | whoever emits a packet has a reserved entry for the request on its own disk and the permit answered that very call |
| WakeTheorems.PacketsBeatTheDeadline | tools/wake-helper/core.go:349-381 | with arbitrary clock offset and message delay, a packet written at most 49 ms and 1 ns after its deadline check is out before the request expires on the server's clock |
| WakeTheorems.ChecksBeatTheDeadline | tools/wake-helper/core.go:284-288 | when only the wall clock can be trusted, the check itself falls within the millisecond of expiry, a nanosecond before its end at the latest |
| WakeLateness.SafeDelays | tools/wake-helper/core.go:364-381 | with an honest monotonic clock a delay between check and write is safe for every packet of every run exactly when it is at most 49 ms and 1 ns: one millisecond of the margin of 50 pays for whole server milliseconds |
| WakeLateness.WallClockLateness | tools/wake-helper/core.go:284-288 | with only the wall clock honest, the bound on how late a packet of any run can be is exactly its delay after the check and less than a millisecond more |
| WakeLateness.Written | tools/wake-helper/core.go:284-381 | for either kind of clock, readings of it and any delay, a whole run from the first state to a packet written that long after the check |
| WakeTheorems.StatusIsTruthful | crates/rdesk_server/src/wake/routes.rs:588-637 | a request shown as sent, online or unconfirmed had three packets written; one shown online has a received heartbeat newer than itself |
| WakeServed.ReceiptsServed | crates/rdesk_server/src/wake/routes.rs:588-637 | in every reachable state a receipt is served exactly when its sender holds the token of the request's own enabled helper and the request is settled already, or claimed, authorized if the receipt says sent, and under 30 s old |
| WakeServed.ReceiptsAreRecorded | crates/rdesk_server/src/wake/routes.rs:611-634 | in every reachable state a served receipt on a claimed request is stored by its commit as it was reported: sent with the time it came, and online exactly when the target's last heartbeat is newer than the request, not after now and under 30 s old; failed with its code exactly when that is clean |
| WakeServed.PermitsServed | crates/rdesk_server/src/wake/routes.rs:547-582 | in every reachable state a permit is granted exactly to the request's own enabled helper, asking for the first time, for a claimed request under 30 s old |
| WakeServed.PermitsAreRecorded | crates/rdesk_server/src/wake/routes.rs:563-582 | and is stored with its time and answered with two seconds or what is left of the thirty |
| WakeServed.PollsServed | crates/rdesk_server/src/wake/routes.rs:491-528 | in every reachable state a poll finds a job exactly when its sender proves to be an enabled helper and a request queued or claimed without permit waits for it, under 30 s old |
| WakeServed.HeartbeatsAreRecorded | crates/rdesk_server/src/wake/routes.rs:277-285 | a heartbeat is accepted exactly with the target's own token, and is then the last one seen of it and on record for good |
| WakeServed.CommitsForgetSeen | crates/rdesk_server/src/wake/routes.rs:245-302 | a commit forgets when it last saw exactly a target deleted or given a new token, and a helper removed, stopped or enabled anew |
| WakeTheorems.JournalIsTruthful | tools/wake-helper/core.go:394-399 | a journal entry that says sent, in any process, means three packets were written |
| WakeTheorems.PacketsCarryThePermittedAddress | crates/rdesk_server/src/wake/routes.rs:563-576 | the bytes of every packet are the magic packet of the address recorded with the permit |
| WakeTheorems.PermitsRecordTheLiveAddress | crates/rdesk_server/src/wake/routes.rs:570-576 | at authorization a target of the request's revision exists, and its address is both the one recorded with the permit and the one the poll gave out |
| WakeTheorems.JobsCarryTheAddressOnRecord | crates/rdesk_server/src/wake/routes.rs:513-519 | every poll reply in flight carries the address on record for its request |
| WakeTheorems.ActiveRequestsAreBound | crates/rdesk_server/src/wake/routes.rs:211-256 | in every reachable state an active request has its completed target at its revision, an enabled helper, and no active rival for the target |
| WakeTheorems.StepsOnlyProgress | crates/rdesk_server/src/wake/model.rs:118-131 | no step of the system moves a stored request backwards or brings back a dropped one |
| WakeTheorems.PhasesOnlyAdvance | crates/rdesk_server/src/wake/model.rs:96-131 | along every run a request changes phase at most three times and never backwards, and from any point of the run on a terminal phase stays as it is |
| WakeTheorems.TidyingFinishesOldRequests | crates/rdesk_server/src/wake/routes.rs:96-122 | advancing at or after the end of observation leaves no such request active, from every reachable state |
| WakeRetention.ObservedRequestsAreKept | crates/rdesk_server/src/wake/model.rs:144-150 | in every reachable state no next step, be it any route's commit, a poll, a permit, a receipt or a restart, drops a stored request within its observation except by deleting its target |
| WakeTheorems.CreatedRequestIsStored | crates/rdesk_server/src/wake/routes.rs:415-450 | the request a create call returns is stored once the call's commit is done |
| WakeTheorems.StepKeeps | crates/rdesk_server/src/wake/routes.rs:392-637 | every step by server, helper, network or clock keeps the whole-system invariant behind the results above |
| WakeModel.HistoryCapIsSafe | crates/rdesk_server/src/wake/model.rs:144-150 | what pruning to fifty requests drops from a rate-limited history is at least five minutes old or past seven days, hence never still observed |
| WakeModel.PruneSub | crates/rdesk_server/src/wake/model.rs:144-150 | pruning yields at most fifty recent requests, newest first, with none changed, invented or repeated |
| WakeModel.PacedAfterCreation | crates/rdesk_server/src/wake/routes.rs:423-434 | the rate limit keeps every minute of the history at ten requests |
| WakeModel.NewestSurvivesPruning | crates/rdesk_server/src/wake/routes.rs:415-450 | the request just appended survives the pruning of its own commit |
| WakeModel.AdvanceProgresses | crates/rdesk_server/src/wake/model.rs:118-131 | advancing strictly raises a phase's rank or keeps the phase, and keeps recorded times ordered |
| WakeModel.AdvanceTerminates | crates/rdesk_server/src/wake/model.rs:118-131 | at or after the end of observation advancing ends in a terminal phase |
| WakeModel.AtMostThreePhaseChanges | crates/rdesk_server/src/wake/model.rs:96-131 | any chain of progressing versions changes phase at most three times |
| WakeRoutes.CreateTargetKeeps | crates/rdesk_server/src/wake/routes.rs:185-207 | creating a target keeps the account sound: distinct ids and devices, at most twenty, active requests bound |
| WakeRoutes.UpdateTargetKeeps | crates/rdesk_server/src/wake/routes.rs:220-235 | a new configuration cancels the target's active requests and keeps the account sound; no request goes backwards |
| WakeRoutes.CompleteTargetKeeps | crates/rdesk_server/src/wake/pairing.rs:421-436 | completing a target does the same |
| WakeRoutes.ClaimTargetKeeps | crates/rdesk_server/src/wake/pairing.rs:349-370 | a claimed target joins the account without touching any request |
| WakeRoutes.DeleteTargetKeeps | crates/rdesk_server/src/wake/routes.rs:245-252 | exactly the named target goes, with exactly its requests, and the rest stays sound |
| WakeRoutes.RotateTargetKeeps | crates/rdesk_server/src/wake/routes.rs:264-272 | rotating a token leaves targets bound as they were and requests untouched |
| WakeRoutes.CreateAgentKeeps | crates/rdesk_server/src/wake/routes.rs:140-170 | adding a helper keeps the account sound |
| WakeRoutes.RevokeKeeps | crates/rdesk_server/src/wake/routes.rs:286-302 | removing a helper cancels exactly its active requests; every other request and every target is as it was |
| WakeRoutes.StopHelperKeeps | crates/rdesk_server/src/wake/routes.rs:311-342 | a helper stopping itself or stopped by its owner does the same and leaves it disabled |
| WakeRoutes.EnableAgentKeeps | crates/rdesk_server/src/wake/routes.rs:359-388 | re-enabling under a new token cancels exactly the old active requests |
| WakeRoutes.CreateRequestKeeps | crates/rdesk_server/src/wake/routes.rs:415-450 | a created request is bound, alone for its target, keeps the minute paced and survives its commit |
| WakeRoutes.PollKeeps | crates/rdesk_server/src/wake/routes.rs:514-519 | a poll claims one unauthorized request of the helper, changes no other, and hands out its live target's address with the time left |
| WakeRoutes.AuthorizeKeeps | crates/rdesk_server/src/wake/routes.rs:564-576 | a permit goes only to a claimed request that never had one, lasts two seconds or to the end of the request if that is sooner, and changes no other request |
| WakeRoutes.ReportKeeps | crates/rdesk_server/src/wake/routes.rs:611-634 | a receipt keeps the account sound and changes the named request alone, and only from claimed |
| WakeAnswers.ReportAnswers | crates/rdesk_server/src/wake/routes.rs:601-634 | in a sound account: which receipt is refused and why, and which is recorded, with the stored request spelled out field by field |
| WakeAnswers.AuthorizeAnswers | crates/rdesk_server/src/wake/routes.rs:554-577 | which permit is refused and why; one granted is two seconds long or ends with the request, and marks that request alone |
| WakeAnswers.PollAnswers | crates/rdesk_server/src/wake/routes.rs:491-522 | a poll of an enabled helper hands out the first request waiting for it, and there is always a live, completed target for that |
| WakeAnswers.CreateRequestAnswers | crates/rdesk_server/src/wake/routes.rs:399-450 | a request is made exactly when the target is set up, idle, not seen for 30 s and not asked for within 30 s, its helper is enabled and seen within 30 s, and fewer than ten were made in the last minute; the active one is answered again |
| WakeAnswers.AdvanceAnswers | crates/rdesk_server/src/wake/routes.rs:96-122 | each request comes online exactly on a heartbeat newer than itself and under 30 s old, ends unconfirmed after two minutes, expires unsent after 30 s, and is otherwise as it was |
| WakeAnswers.PruneAnswers | crates/rdesk_server/src/wake/model.rs:144-150 | pruning keeps every request under a week old unless fifty at least as new are kept, and nothing else |
| WakeAnswers.CreateTargetAnswers | crates/rdesk_server/src/wake/routes.rs:185-207 | a target joins exactly below twenty, for an enabled helper and a free device |
| WakeAnswers.UpdateTargetAnswers | crates/rdesk_server/src/wake/routes.rs:220-235 | exactly the named target changes, to the next revision, and exactly its active requests are cancelled |
| WakeAnswers.CompleteTargetAnswers | crates/rdesk_server/src/wake/pairing.rs:421-436 | likewise when a target is set up |
| WakeAnswers.StopHelperAnswers | crates/rdesk_server/src/wake/routes.rs:311-342 | a helper stops itself exactly with its present token while enabled, its owner can always; the token is worthless afterwards |
| WakeAnswers.EnableAgentAnswers | crates/rdesk_server/src/wake/routes.rs:359-388 | re-enabling sets name and token and ends exactly the old active requests |
| WakeRoutes.AdvanceKeeps | crates/rdesk_server/src/wake/routes.rs:111-119 | advancing all requests keeps the account sound |
| WakeRoutes.PruneKeeps | crates/rdesk_server/src/wake/model.rs:144-150 | the pruning of every commit keeps the account sound |
| WakeRoutes.RestartKeeps | crates/rdesk_server/src/wake/model.rs:151-159 | a restart prunes, interrupts exactly the active requests and leaves all else as it was |
| WakeRestart.PruneTwice | crates/rdesk_server/src/wake/model.rs:144-150 | pruning again later is pruning once at the later time |
| WakeRestart.RestartTwice | crates/rdesk_server/src/wake/model.rs:151-159 | recovering the file again, before anything was committed, gives what the first restart gave |
| WakeAccount.WakeAccountData.constructor | crates/rdesk_server/src/wake/model.rs:138-143 | an account as loaded |
| WakeAccount.WakeAccountData.Prune | crates/rdesk_server/src/wake/model.rs:144-150 | in-place pruning equals the pure one |
| WakeAccount.WakeAccountData.RecoverAfterRestart | crates/rdesk_server/src/wake/model.rs:151-159 | in-place recovery equals the pure one |
| WakeAccount.WakeAccountData.CancelTarget | crates/rdesk_server/src/wake/model.rs:160-167 | the cancelling loop equals its map over the requests |
| WakeAccount.WakeAccountData.AdvanceAll | crates/rdesk_server/src/wake/routes.rs:113-117 | the advancing loop equals its map over the requests |
| WakeAccount.WakeAccountData.CreateTarget | crates/rdesk_server/src/wake/routes.rs:185-207 | the changed fields and reply are those of the route's function, or nothing changed and its error is returned |
| WakeAccount.WakeAccountData.UpdateTarget | crates/rdesk_server/src/wake/routes.rs:220-235 | likewise for a new configuration |
| WakeAccount.WakeAccountData.CompleteTarget | crates/rdesk_server/src/wake/pairing.rs:421-436 | likewise for completion |
| WakeAccount.WakeAccountData.RotateTarget | crates/rdesk_server/src/wake/routes.rs:264-272 | likewise for a new token |
| WakeAccount.WakeAccountData.DeleteTarget | crates/rdesk_server/src/wake/routes.rs:245-252 | likewise for deletion |
| WakeAccount.WakeAccountData.Revoke | crates/rdesk_server/src/wake/routes.rs:287-299 | likewise for removing a helper |
| WakeAccount.WakeAccountData.StopHelper | crates/rdesk_server/src/wake/routes.rs:311-342 | likewise for stopping one |
| WakeAccount.WakeAccountData.EnableAgent | crates/rdesk_server/src/wake/routes.rs:359-388 | likewise for enabling one |
| WakeAccount.WakeAccountData.CreateRequest | crates/rdesk_server/src/wake/routes.rs:399-450 | likewise for creating a request, every error case included |
| WakeAccount.WakeAccountData.Poll | crates/rdesk_server/src/wake/routes.rs:514-519 | likewise for a poll |
| WakeAccount.WakeAccountData.Authorize | crates/rdesk_server/src/wake/routes.rs:554-577 | likewise for a permit |
| WakeAccount.WakeAccountData.Report | crates/rdesk_server/src/wake/routes.rs:601-634 | likewise for a receipt |
| WakeStore.UpdatesAreSerial | crates/rdesk_server/src/wake/store.rs:5-24 | in every interleaving with crashes, an acknowledged update is in the serial order of commits exactly once, a refused or failed one never |
| WakeStore.FailedWriteChangesNothing | crates/rdesk_server/src/wake/store.rs:19-24 | a failed write changes neither the live map nor the file |
| WakeStore.RenamedUpdatesLand | crates/rdesk_server/src/wake/store.rs:22-24 | a renamed update can always be inserted, and then the live map is the file |
| WakeStore.CrashesReloadASerialState | crates/rdesk_server/src/main.rs:2103-2122 | a crash anywhere reloads the file, which is the replay of some prefix of commits, recovered |
| WakeStore.LiveIsTheFile | crates/rdesk_server/src/wake/store.rs:5-24 | whenever the server serves and no update is in flight the live map is the file; with one in flight too, but for that account between its rename and its insertion |
| WakeStore.RecoveryIsWrittenFirst | crates/rdesk_server/src/main.rs:430-431 | before a new process serves anything the recovered state is written back, and a crash before that recovers to the same state again |
| UserStore.FileRoundTrip | crates/rdesk_server/src/wake/store.rs:11-11 | a file that lists every record of a map once loads as that map |
| UserStore.AccountStore.Load | crates/rdesk_server/src/main.rs:2103-2122 | loading gives exactly the users of the file, each with its last record, recovered |
| UserStore.AccountStore.Snapshot | crates/rdesk_server/src/wake/store.rs:11-11 | the snapshot lists the live map |
| UserStore.AccountStore.Persist | crates/rdesk_server/src/main.rs:2124-2128 | writing back makes the file list the live map; a failed write leaves it |
| UserStore.AccountStore.UpdateWake | crates/rdesk_server/src/wake/store.rs:5-24 | on success map and file become the updated state; on any refusal or failed write neither changes; it is the update of the commit protocol |
| HelperMachine.MagicPacketNamesAddress | tools/wake-helper/core.go:25-35 | 102 bytes: six of 255, then sixteen copies of the address |
| HelperMachine.MagicPacketInjective | tools/wake-helper/core.go:25-35 | different addresses give different packets |
| HelperMachine.HealthyStep | tools/wake-helper/core.go:123-143 | after every action, crash included, the file loads, has at most 2048 valid ids, and equals memory |
| HelperMachine.EntriesAdvance | tools/wake-helper/core.go:236-283 | each entry only moves reserved, then sent or failed, then acknowledged; only acknowledged ones a week past expiry vanish |
| HelperMachine.HelperAloneSendsAtMostThree | tools/wake-helper/core.go:368-393 | whatever the server answers, a request in the journal has seen at most three packets since its reservation |
| HelperMachine.JournaledIsNeverResent | tools/wake-helper/core.go:294-303 | a request found in the journal is never sent again while its entry stays |
| HelperMachine.OwnershipStep | tools/wake-helper/core.go:290-322 | only a reservation takes ownership of an entry |
| HelperWorld.SentMeansTaken | tools/wake-helper/core.go:368-400 | in every run whose actions are witnessed by what was done and answered, an entry on disk is sent only after the network took three packets of it |
| HelperWorld.Home.Send | tools/wake-helper/core.go:379-379 | a packet may be handed over only while its reservation is on disk, unacknowledged and in the sender's hands; each is put on record with the answer, and nothing else is |
| HelperEngine.Engine.constructor | tools/wake-helper/core.go:123-141 | loading starts the machine on the file |
| HelperEngine.Engine.Record | tools/wake-helper/core.go:236-239 | the entry is set and the whole journal saved; the save lands, fails, or fails after the rename, and is on record |
| HelperEngine.Engine.Receipt | tools/wake-helper/core.go:240-263 | a receipt acknowledges the entry or leaves it and touches no other; the server was told what the entry says, and an error is what the server or the save answered |
| HelperEngine.Engine.Recover | tools/wake-helper/core.go:264-282 | when recovery returns without error every entry is acknowledged |
| HelperEngine.Engine.Forget | tools/wake-helper/core.go:311-315 | the pruning loop drops an entry exactly when it is acknowledged and a week past expiry on a clock read for it |
| HelperEngine.Engine.Reserve | tools/wake-helper/core.go:311-322 | a full journal is refused; otherwise the reserved entry is on disk before anything else happens |
| HelperEngine.Engine.Authorize | tools/wake-helper/core.go:346-367 | only an answer above zero and up to two seconds grants; the lease is the earlier of the deadline and the permit less 50 ms counted from before the question |
| HelperEngine.Engine.SendOne | tools/wake-helper/core.go:369-383 | answers sent exactly after handing over this packet once and the network taking it, after a stop check, a network check and both clocks, and 200 ms after the one before; else a failure is recorded |
| HelperEngine.Engine.Emit | tools/wake-helper/core.go:379-384 | exactly this packet is handed over, and counted as sent exactly when the network took it |
| HelperEngine.Engine.SendThree | tools/wake-helper/core.go:368-400 | an entry is left as sent only after the network took exactly three packets for it |
| HelperEngine.Engine.Execute | tools/wake-helper/core.go:290-400 | a new job ends as sent only after the network took three copies of the magic packet of its address; a job in the journal is only reported; a job is refused exactly for a malformed id or time, and for lateness or a full journal only as read and found; any other end is at rest, stopped by the user, or the error last answered |
| HelperEngine.Engine.Turns | tools/wake-helper/main.go:199-257 | any number of turns is a run of the machine each action of which was witnessed by what the world was asked and answered; unless stopped or ended by an error, every turn finds no network, is left owing a receipt for the fault answered, or polls; the process ends down, within the three-packet bound, and every entry then sent had three packets the network took |
| HelperEngine.Engine.PollOnce | tools/wake-helper/main.go:211-219 | exactly one poll goes out, its error is returned, and a job it brings is executed |
| AndroidEngine.NothingAfterStop | flutter_client/android/app/src/main/kotlin/com/qsw/rdesk/wake/WakeRelayEngine.kt:52-55 | for every interleaving, over any number of starts of the app, no packet follows stop's critical section until an engine is started anew |
| AndroidEngine.WakeRelayEngine.constructor | flutter_client/android/app/src/main/kotlin/com/qsw/rdesk/wake/WakeRelayStore.kt:38-47 | a new engine takes over the rows an earlier one stored, after everything that happened before |
| AndroidEngine.SentMeansThreePackets | flutter_client/android/app/src/main/kotlin/com/qsw/rdesk/wake/WakeRelayEngine.kt:28-39 | a job reported as sent, by this process or from the rows of an earlier one, had three packets, each sent before its poll deadline and its permit ran out |
| AndroidEngine.AtMostThreeWhileTheRowStays | flutter_client/android/app/src/main/kotlin/com/qsw/rdesk/wake/WakeRelayEngine.kt:18-39 | from its reservation on, while its row stays in the journal, a job gets at most three packets over any number of polls, stops and starts of the app |
| AndroidEngine.CurrentBatch | flutter_client/android/app/src/main/kotlin/com/qsw/rdesk/wake/WakeRelayEngine.kt:31-38 | the packets counted for the job polled last are at most three and all within both deadlines |
| AndroidEngine.UndisturbedStepSends | flutter_client/android/app/src/main/kotlin/com/qsw/rdesk/wake/WakeRelayEngine.kt:13-45 | in every log that follows the step's one order of events, a step in which nothing fails and no time runs out has sent exactly three packets by its end and told the server so |
| AndroidEngine.WakeRelayEngine.Step | flutter_client/android/app/src/main/kotlin/com/qsw/rdesk/wake/WakeRelayEngine.kt:13-45 | a step not stopped does all that the order of events asks for and ends as it says, with what is owed and thrown, whenever stop comes; with a receipt pending it sends and polls nothing; every step extends the log lawfully |
| AndroidEngine.WakeRelayEngine.Flush | flutter_client/android/app/src/main/kotlin/com/qsw/rdesk/wake/WakeRelayEngine.kt:46-51 | the pending receipt goes only once told, and after an exception stays unless the status is 401, 404, 409 or 410 |
| AndroidEngine.WakeRelayEngine.Stop | flutter_client/android/app/src/main/kotlin/com/qsw/rdesk/wake/WakeRelayEngine.kt:52-55 | stop ends sending in one step |
| AndroidEngine.WakeRelayEngine.Reserve | flutter_client/android/app/src/main/kotlin/com/qsw/rdesk/wake/WakeRelayStore.kt:38-42 | a reservation happens exactly when the row is new and saved; dropped rows are logged |
| AndroidEngine.WakeRelayEngine.SendBatch | flutter_client/android/app/src/main/kotlin/com/qsw/rdesk/wake/WakeRelayEngine.kt:29-43 | a note saying sent comes only after three packets 200 ms apart and a saved row, one saying failed only after a failure, and none when stopped or not saved |
| ScreenDemand.AfterKeeps | crates/rdesk_server/src/main.rs:1364-1485 | every handler and WebSocket step keeps the isolation invariant |
| ScreenDemand.RegisterKeeps | crates/rdesk_server/src/main.rs:894-907 | a registration keeps it exactly when turning on-demand leaves no frame but one of the audience now watching |
| ScreenDemand.HarmlessWhenUnchanged | crates/rdesk_server/src/main.rs:894-907 | what can be seen without epochs: no stored frame or an unchanged mode is harmless; turning on-demand with a frame stored and nobody watching never is |
| ScreenDemand.RenewShape | crates/rdesk_server/src/main.rs:1389-1408 | a renewal adds its lease to the live ones and bumps the epoch exactly when there were none |
| ScreenDemand.ReleaseShape | crates/rdesk_server/src/main.rs:1410-1418 | a release drops the named lease and expired ones, nothing else |
| ScreenAnswers.UploadAnswers | crates/rdesk_server/src/main.rs:1089-1158 | an upload is unauthorized exactly when no host of the device has that token from the last 30 s, a conflict exactly when the host captures on demand and nobody watches or the epoch is another, and otherwise stored and queued for every subscribed socket of the device and nowhere else |
| ScreenAnswers.PicturesAreVouched | crates/rdesk_server/src/main.rs:1089-1158 | in every run each picture stored for a device or queued for one of its sockets was brought by one step for that device, under the token registered for it at that time or over the legacy connection of a host not on demand |
| ScreenAnswers.ViewersAnswered | crates/rdesk_server/src/main.rs:2188-2197 | fetching, stopping, closing and joining are answered exactly for a token of a session of that device used in the last thirty minutes |
| ScreenAnswers.RenewalGrants | crates/rdesk_server/src/main.rs:1389-1408 | a renewal leaves exactly the living leases and its own of ten seconds, and begins an audience exactly when nobody watched |
| ScreenAnswers.PongAnswers | crates/rdesk_server/src/main.rs:1769-1773 | a pong keeps its socket exactly while its lease lives and its token is signed in |
| ScreenAnswers.DeliveryAnswers | crates/rdesk_server/src/main.rs:1733-1768 | the next queued picture is sent exactly while the socket's lease lives; otherwise the socket is closed |
| ScreenAnswers.RemovalAnswers | crates/rdesk_server/src/main.rs:2296-2319 | disconnecting ends exactly the sessions, leases and picture of the device, and removing also forgets the host |
| ScreenAudience.FramesAreWatched | crates/rdesk_server/src/main.rs:1366-1376 | an on-demand host has a stored frame only while its lease map is non-empty, and of that epoch |
| ScreenAudience.RenewalHoldsALease | crates/rdesk_server/src/main.rs:1389-1408 | the renewing half of a fetch is refused exactly for an invalid viewer, and else leaves it a live lease |
| ScreenAudience.ReadFramesAreCurrent | crates/rdesk_server/src/main.rs:1169-1176 | whenever the reading half comes, the frame was uploaded in the epoch then current, which has an audience |
| ScreenAudience.FetchedFrameIsOfItsAudience | crates/rdesk_server/src/main.rs:1160-1176 | with anything happening between the halves, the frame is of the audience the viewer renewed its lease in exactly when no audience began in between |
| ScreenAudience.AnotherAudiencesFrame | crates/rdesk_server/src/main.rs:1160-1176 | a run in which one did, and the viewer reads a frame of the next audience |
| ScreenAudience.EpochCounts | crates/rdesk_server/src/main.rs:1389-1408 | along any run the epoch of a device grows by the number of audiences that began |
| ScreenDemand.LateRenewal | crates/rdesk_server/src/main.rs:1769-1772 | a renewal split from its check after a pong keeps the invariant exactly when the socket's epoch is still current and somebody watches |
| ScreenAudience.LateRenewalMixesEpochs | crates/rdesk_server/src/main.rs:1769-1772 | a run in which a viewer stops between check and renewal, and its socket is sent a frame of the epoch it joined and then one of the next |
| ScreenAudience.SocketsSeeOneEpoch | crates/rdesk_server/src/main.rs:1733-1797 | a WebSocket viewer is sent only frames of the epoch it joined, still the current one |
| ScreenAudience.SocketKeepsItsEpoch | crates/rdesk_server/src/main.rs:1733-1773 | no step changes the joining epoch of a socket |
| ScreenAudience.EpochGrowsExactly | crates/rdesk_server/src/main.rs:1378-1408 | an epoch grows, by one, exactly when a valid viewer arrives while no lease is alive |
| ScreenAudience.EndedEpochIsRefused | crates/rdesk_server/src/main.rs:1101-1112 | once an audience has ended, an upload with its epoch is refused in every later state, storing and broadcasting nothing: no frame is new or changed |
| ScreenAudience.CloseEndsTheToken | crates/rdesk_server/src/main.rs:1471-1485 | closing a session removes every lease of its token, over either transport |
| ScreenAudience.ClosedStaysClosed | crates/rdesk_server/src/main.rs:1471-1485 | and none of its leases is ever alive again |
| ScreenAudience.OthersKeepTheirLeases | crates/rdesk_server/src/main.rs:1410-1418 | releasing one transport leaves every other live lease as it was |
| ScreenAudience.StopSparesOtherTokens | crates/rdesk_server/src/main.rs:1453-1469 | stopping a token ends exactly that token's leases of the device |
| ScreenAudience.ModeChangeLeavesAFrame | crates/rdesk_server/src/main.rs:1366-1375 | a run in which a change of capture mode would leave an old frame stored |
| ScreenServer.AppState.PruneScreenDemand | crates/rdesk_server/src/main.rs:1378-1387 | the retain loop keeps exactly the live leases and clears frames when the last goes |
| ScreenServer.AppState.RenewScreenLease | crates/rdesk_server/src/main.rs:1389-1408 | state and answer are those of the renewal step |
| ScreenServer.AppState.ReleaseScreenLease | crates/rdesk_server/src/main.rs:1410-1418 | likewise for a release |
| ScreenServer.AppState.UploadFrame | crates/rdesk_server/src/main.rs:1089-1158 | likewise for an upload and its refusals, which ScreenAnswers.UploadAnswers spells out |
| ScreenServer.AppState.Keep | crates/rdesk_server/src/main.rs:1128-1150 | a frame reaches every subscribed socket of its device, and the store |
| ScreenServer.AppState.RenewForFetch | crates/rdesk_server/src/main.rs:1160-1168 | likewise for the first half of a fetch |
| ScreenServer.AppState.FetchFrame | crates/rdesk_server/src/main.rs:1160-1180 | the reply is the frame stored when it is read, after other requests may have run, and of the epoch then current |
| ScreenServer.AppState.StopViewerScreen | crates/rdesk_server/src/main.rs:1453-1469 | likewise for stopping |
| ScreenServer.AppState.CloseViewerSession | crates/rdesk_server/src/main.rs:1471-1485 | likewise for closing |
| ScreenServer.AppState.DisconnectViewersForDevice | crates/rdesk_server/src/main.rs:2303-2319 | likewise for disconnecting all viewers of a device |
| ScreenServer.AppState.RemovePreviewState | crates/rdesk_server/src/main.rs:2296-2301 | likewise for removing a host |
| Pairing.SearchIsExact | crates/rdesk_server/src/wake/pairing.rs:222-227 | while no two sessions of an account share a code, searching by code answers exactly the session that has it |
| PairingTheorems.OneTargetPerPairing | crates/rdesk_server/src/wake/pairing.rs:317-376 | in every run a pairing makes at most one target ever, only once confirmed, never if cancelled before or after |
| PairingTheorems.ClaimNamesItsTarget | crates/rdesk_server/src/wake/pairing.rs:333-375 | a claim that answers names the pairing's own target for this token; a repeated one changes nothing |
| PairingTheorems.ClaimsAgree | crates/rdesk_server/src/wake/pairing.rs:333-346 | two claims of one pairing that answer, at any two times, name the same target and carry the same token |
| PairingProofs.EveryStepWasProved | crates/rdesk_server/src/wake/pairing.rs:208-390 | in every run: what was confirmed, a phone of the owner confirmed showing the pairing's QR secret or typing its code; each target was made by a claim of the owner with the desktop secret the pairing was opened with; what was cancelled, its owner cancelled with that secret or from the session that created it; all within five minutes and, but for that last, with the creator signed in |
| PairingProofs.AnsweredClaimsWereProved | crates/rdesk_server/src/wake/pairing.rs:283-298 | and so is every claim that is answered, the first and each repeated one |
| PairingProofs.ClaimAnswers | crates/rdesk_server/src/wake/pairing.rs:324-375 | a claim is answered exactly with a well-formed token, by the owner, with the desktop secret, in time, not cancelled, confirmed, the creator signed in, and room for the device or the same token still in place |
| PairingProofs.ClaimStores | crates/rdesk_server/src/wake/pairing.rs:349-375 | the first stores the pairing's own computer under the caller's token; every other claim changes nothing |
| PairingProofs.CancelAnswers | crates/rdesk_server/src/wake/pairing.rs:384-390 | a pairing is cancelled exactly by its owner with the desktop secret, while usable and unclaimed |
| PairingProofs.ConfirmAnswers | crates/rdesk_server/src/wake/pairing.rs:259-277 | a pairing is confirmed exactly once, by a phone of its owner with its secret, while usable and before twenty refusals |
| PairingProofs.CreateAnswers | crates/rdesk_server/src/wake/pairing.rs:151-189 | a pairing is opened exactly for an account signed in, below six a window, three open and a thousand in all |
| PairingTheorems.DevicesStayDistinct | crates/rdesk_server/src/wake/pairing.rs:352-357 | in every account at every time at most twenty targets, with distinct ids and devices |
| PairingTheorems.LimitsHold | crates/rdesk_server/src/wake/pairing.rs:140-192 | since the last restart at most forty refused phone proofs within five minutes, six creates a window, three open pairings an account, a thousand in all |
| PairingTheorems.GuessesAreBounded | crates/rdesk_server/src/wake/pairing.rs:208-239 | any forty-one refused proofs of one account span more than a pairing's life |
| PairingRuns.PairingsStep | crates/rdesk_server/src/wake/pairing.rs:259-404 | every interleaved step keeps sessions in agreement with what happened to them |
| PairingRuns.AccountsStep | crates/rdesk_server/src/wake/pairing.rs:349-370 | and every account sound |
| PairingServer.PairingRuntime.PruneTable | crates/rdesk_server/src/wake/pairing.rs:48-51 | the two retain loops drop exactly what has expired |
| PairingServer.PairingRuntime.LimitOf | crates/rdesk_server/src/wake/pairing.rs:52-61 | an account's window, opened when there is room |
| PairingServer.PairingRuntime.CreateSession | crates/rdesk_server/src/wake/pairing.rs:151-189 | table and refusal are those of the create step |
| PairingServer.PairingRuntime.Search | crates/rdesk_server/src/wake/pairing.rs:217-229 | the session found is the one named, if it fits, or for a code alone one that fits, and none only if none fits |
| PairingServer.PairingRuntime.FindForPhone | crates/rdesk_server/src/wake/pairing.rs:208-239 | a refused proof is counted, an accepted one is not, for whichever session the search finds |
| PairingServer.PairingRuntime.Resolve | crates/rdesk_server/src/wake/pairing.rs:243-258 | a proof of the wrong shape is refused and not counted; otherwise the answer is the session the phone means, or the reason for refusing it |
| PairingServer.PairingRuntime.ConfirmSession | crates/rdesk_server/src/wake/pairing.rs:259-277 | likewise for confirming, an id in the body refused first |
| PairingServer.PairingRuntime.ClaimSession | crates/rdesk_server/src/wake/pairing.rs:324-375 | table, account and reply are those of the claim step, every error case included; PairingProofs.ClaimAnswers and ClaimStores spell them out |
| PairingServer.PairingRuntime.CancelSession | crates/rdesk_server/src/wake/pairing.rs:384-390 | likewise for cancelling, with PairingProofs.CancelAnswers |
| PairingServer.PairingRuntime.CancelEverything | crates/rdesk_server/src/wake/pairing.rs:396-403 | the loop cancels exactly the caller's unclaimed pairings |
| FileRelay.MemoryIsConserved | crates/rdesk_server/src/main.rs:1864-1902 | in every run the counter is the sum of live reservations, at most 150 MiB, and bounds the bytes held; with no request left both are zero |
| FileRelay.HandedOnceToItsHost | crates/rdesk_server/src/main.rs:2005-2029 | `file_host_download` hands each file over at most once, to the host it was sent for, and it is gone from the store then |
| FileRelay.HandedAsSent | crates/rdesk_server/src/main.rs:1946-2028 | in every run what a host is handed, and what is still held, is byte for byte the body of one upload admitted for that host under exactly that size |
| FileRelay.NothingOutlivesItsRequest | crates/rdesk_server/src/main.rs:1891-1902 | when a request ends, however it does, its file is out of the store for good |
| FileRelay.StepKeeps | crates/rdesk_server/src/main.rs:1864-2029 | every step of every interleaving keeps the accounting |
| FileServer.Server.AdmitFile | crates/rdesk_server/src/main.rs:1906-1931 | admitted exactly when the size is declared, at most 50 MiB, and fits under 150 MiB; otherwise nothing is reserved, and the status says why |
| FileServer.Server.TakeBody | crates/rdesk_server/src/main.rs:1946-1971 | the store then holds exactly the bytes that came, under the new id, or the body has another length than declared and is refused |
| FileServer.Server.DropReservation | crates/rdesk_server/src/main.rs:1885-1889 | the room given back is the room taken; the subtraction never wraps |
| FileServer.Server.CheckOwner | crates/rdesk_server/src/main.rs:2013-2019 | only the file's own host passes |
| FileServer.Server.TakeFile | crates/rdesk_server/src/main.rs:2020-2028 | one download gets exactly the bytes received under the file's id, and the store forgets them |
| FileServer.Server.SweepFiles | crates/rdesk_server/src/main.rs:2264-2273 | exactly the files older than five minutes go |
| FileServer.Server.FileUpload | crates/rdesk_server/src/main.rs:1935-2001 | the reply says exactly how the upload ended; what was received under its id is its body; no reservation and no file is left behind on any path |
| Fips180.PaddingIsInjective | crates/rdesk_crypto/src/auth.rs:163-168 | no two messages are padded to the same bytes |
| Sha256Code.MessageSchedule | crates/rdesk_crypto/src/auth.rs:188-206 | the code's schedule is section 6.2.2's, in another order of addition |
| Sha256Code.OneRound | crates/rdesk_crypto/src/auth.rs:210-230 | one round of the code is one round of the standard |
| Sha256Code.CompressBlock | crates/rdesk_crypto/src/session_key.rs:127-178 | compressing a block in place is the standard's step on the intermediate hash value |
| Sha256Code.PadTail | crates/rdesk_crypto/src/session_key.rs:106-112 | the padding loop appends the least number of zeros and the 64-bit length |
| Sha256Code.OneShot | crates/rdesk_crypto/src/session_key.rs:102-125 | the one-shot hash is SHA-256 of FIPS 180-4 |
| Sha256Code.Hasher.constructor | crates/rdesk_crypto/src/auth.rs:141-147 | a new hasher has hashed the empty message |
| Sha256Code.Hasher.Update | crates/rdesk_crypto/src/auth.rs:149-158 | update appends to the message hashed so far, whatever the buffer held |
| Sha256Code.Hasher.Finalize | crates/rdesk_crypto/src/auth.rs:160-186 | the digest is SHA-256 of everything appended |
| Sha256Code.HashParts | crates/rdesk_crypto/src/auth.rs:149-186 | any split of a message below 2^61 bytes gives the digest of the whole |
| Sha256Code.HashTwo | crates/rdesk_crypto/src/auth.rs:81-86 | hashing two parts is hashing their concatenation |
| Sha256Code.ConstantTimeEq | crates/rdesk_crypto/src/auth.rs:88-98 | the accumulating comparison answers equality |
| LoginHash.HexDecode | crates/rdesk_crypto/src/auth.rs:100-109 | decoding succeeds, refuses or cuts a character, piece by piece from the front, as the specification says |
| LoginHash.DecodeSpells | crates/rdesk_crypto/src/auth.rs:100-109 | text decodes to given bytes exactly when every two characters are whole and spell the byte; a plus sign before one digit is accepted |
| LoginHash.HexRoundTrip | crates/rdesk_crypto/src/auth.rs:277-279 | among lower-case texts decoding is the inverse of writing each byte as two digits |
| LoginHash.CreateLoginHash | crates/rdesk_crypto/src/auth.rs:42-46 | the hash is SHA-256 of the password followed by the nonce |
| LoginHash.VerifyLoginHash | crates/rdesk_crypto/src/auth.rs:57-74 | the verdict on stored text, nonce and received hash, malformed text included |
| LoginHash.AcceptedExactlyWhen | crates/rdesk_crypto/src/auth.rs:57-74 | a hash made from a password is accepted exactly when the stored text spells bytes that hash alike under the nonce |
| LoginHash.StoredDigestAccepts | crates/rdesk_crypto/src/auth.rs:270-282 | with the digest of the password stored, the right password is accepted exactly when it and its digest hash alike under the nonce |
| LoginHash.AcceptanceIsACoincidence | crates/rdesk_crypto/src/auth.rs:48-56 | which takes a password that is its own digest, or two different messages with one digest |
| LoginHash.HashOfStoredBytesAccepted | crates/rdesk_crypto/src/auth.rs:57-74 | the hash made from the stored bytes themselves is always accepted |
| KnownDigests.ShortDigest | crates/rdesk_crypto/src/auth.rs:141-186 | the digest of any message of up to 55 bytes is what the written-out evaluation of its one padded block gives |
| KnownDigests.AbcDigest | crates/rdesk_crypto/src/auth.rs:259-267 | the digest of abc is the published one |
| KnownDigests.RightPasswordRefused | crates/rdesk_crypto/src/auth.rs:270-282 | the password and nonce of the test that expects acceptance are refused |
| Sha256Code.HmacSha256 | crates/rdesk_crypto/src/session_key.rs:45-79 | HMAC of section 2 of RFC 2104, long keys hashed first |
| Sha256Code.DeriveSessionKey | crates/rdesk_crypto/src/session_key.rs:24-38 | HKDF-Expand after HKDF-Extract of RFC 5869 with the fixed salt, for 32 bytes |
| ScreenCapture.CompareAndCopy | flutter_client/windows/runner/screen_capture.cpp:319-327 | the row loop leaves the buffer equal to the mapped frame and reports a difference exactly when there is one |
| ScreenCapture.RowDiffers | flutter_client/windows/runner/screen_capture.cpp:325-325 | one row compared |
| ScreenCapture.Capturer.Acquire | flutter_client/windows/runner/screen_capture.cpp:239-333 | a mapped frame counts as unchanged exactly when its bytes are those retained for the same display, so the picture is another one exactly when the shape is |
| ScreenCapture.Capturer.TryDuplication | flutter_client/windows/runner/screen_capture.cpp:338-363 | a picture is had exactly when duplication may be tried and the first try serves, or fails in passing and the second serves; the display is set aside for thirty seconds exactly when a try refuses it; duplication stays open exactly as the last try left it |
| ScreenCapture.Capturer.Refresh | flutter_client/windows/runner/screen_capture.cpp:336-379 | unchanged is reported exactly when the display is the same and so are the bytes, and for a picture that was not mapped the shape; what is retained is what was shown |
| ScreenCapture.Capturer.EncodeAnew | flutter_client/windows/runner/screen_capture.cpp:443-464 | a new encoding gets the next number; a failure leaves none valid |
| ScreenCapture.Capturer.Capture | flutter_client/windows/runner/screen_capture.cpp:398-467 | the status follows exactly from the desktop before and after, what the two tries and the copy gave, and how encoding went; a returned frame encodes the retained bytes as asked, numbers are never reused, an encoding is reused exactly when it fits and nothing new was reported, its shape is wrong exactly when a mapped frame had the retained bytes but another size than the display, and nothing survives a lock |
| ScreenCapture.Capturer.Release | flutter_client/windows/runner/screen_capture.cpp:391-396 | everything retained is dropped |
| ScreenCapture.OldShapeReturned | flutter_client/windows/runner/screen_capture.cpp:398-467 | two captures of one display, from a new cache, the second of which returns the encoding of the first one's shape for a picture of another |
| ScreenCapture.SameBytesOtherShape | flutter_client/windows/runner/screen_capture.cpp:319-331 | mapped frames of two different shapes with the same bytes exist, which the row loop cannot tell apart |

## Left out

- HTTP, JSON, headers, TLS, sockets, network interface checks, logging and the file system: their outcomes are choices of
  the environment.
- Noise, QUIC, X25519, Argon2, the rendezvous and relay clients, and everything in the Rust capture, codec and input crates.
- `file_download` (`crates/rdesk_server/src/main.rs:2031-2057`): it lets any valid viewer of the device read a held file, any number
  of times, and changes nothing; the results about handing over are about `file_host_download`.
- A helper enrolled again over the journal of an earlier enrolment; one enrolled again with a new journal is another helper.
- Session enum, chat, clipboard, device ids, NAT mapping, STUN, length prefixes and host geometry: comparatively easy.
- Account registration, login, device listing and command queues; several accounts at once appear only in the commit
  protocol and in pairing.
- WakeModel.HistoryCapIsSafe: relies on the rate limit that requests are created under, as every history the routes build does.
- WakeTheorems.PacketsBeatTheDeadline: does not bound how long a packet write takes; the code does not either, and
  WakeLateness.SafeDelays and WakeLateness.WallClockLateness say exactly which durations are safe.
- HelperEngine.Engine.Turns: runs for a given number of turns, any number, because Dafny wants loops to end; backoff
  delays and event logging are not modelled.
- HelperEngine.Engine.Receipt: does not model the JSON size of the journal file, only its number of entries.
- Text forms of addresses: an address is its bytes, so parsing and printing it are not modelled.
- Wrap-around of 64-bit millisecond times, revisions and frame numbers; the bit counter of the hash does wrap.
- ScreenDemand.AfterKeeps: does not model the size of the broadcast queue, only that a slow viewer may lose its oldest frames.
- DXGI, GDI, WIC and the desktop lock: a picture, an encoding and a refusal are arbitrary values.
- Scheduling inside a locked section, and clocks set back.
