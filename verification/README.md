# RestFleet protocol proofs

A Dafny model of the small protocols on which RestFleet's backups rest, and proofs
that they stay safe across crashes, lost messages, retries and interleavings.

RestFleet backs up a fleet of hosts. Agents run Restic on a schedule and reach storage
only through gateways. Gateways hold provider credentials for one admitted binding at a
time, enforce append-only access, keep working offline under signed authority, and queue
what the control plane must learn later. Each part below is a state machine whose steps
are single critical sections, transactions, file-system calls or messages, and the main
results are about every run of it.

| part | files | what is modelled |
|---|---|---|
| durable pending queue | `Pending*.dfy` | a bounded, hash-chained store of sealed records with fsync-ordered files, signed acknowledgement, freeze, one terminal marker, crash recovery |
| authority | `GatewayAuthorization.dfy`, `Authority.dfy` | the gateway's view of signed decisions, and the protocol of decision log, worker, wires, receipts and gateway |
| owner | `OwnerLifecycle.dfy`, `PendingEffects.dfy`, `OwnedQueue.dfy` | sessions, the watchdog, the freeze after the last session, and the owner together with its queue's directory |
| sessions | `SessionTable.dfy`, `Supervisor.dfy`, `Handshake.dfy` | session table, exclusive admission, and the agent's client loop over an unreliable network |
| objects | `ObjectGuard.dfy`, `ObjectGuardRuns.dfy`, `ObjectGuardExact.dfy`, `RetrySafety.dfy` | the append-only guard, and the retry hint on its way to the agent's next attempt |
| agent | `Operations.dfy`, `SchedulerSpec.dfy`, `SchedulerRuns.dfy`, `SchedulerSlots.dfy`, `RetryChains.dfy`, `Scheduler.dfy`, `ConfigActivation.dfy`, `ConfigAnswers.dfy`, `AgentSlots.dfy`, `SchedulerExact.dfy` | ticks, dispatch, workers, retries, recovery, configuration activation |
| log and sinks | `OperationLog.dfy`, `OperationLogExact.dfy`, `StreamSinks.dfy` | the bounded local log and the line-splitting sinks |
| rclone | `RcloneText.dfy`, `RcloneSpec.dfy`, `RcloneRoundTrip.dfy`, `RcloneAccepted.dfy`, `RcloneLongUrl.dfy`, `RcloneGuarantees.dfy`, `RcloneConfig.dfy`, `RefreshChain.dfy`, `RefreshQueue.dfy` | parser, printer, the same-except-token relation, the refresh chain built on it, and that chain in the queue's directory |

Code that updates fields or loops is a class or a method, and each such method is proved
equal to a function on values (`PendingSpec`, `SessionSpec`, `SchedulerSpec` and so on).
The theorems about runs are stated on those functions.

## How the environment appears

- Clocks, identifiers, network outcomes and results of system calls are parameters of the
  step that uses them, so every theorem ranges over all of their values.
- Signatures carry the key that made them and hashes carry what they hash: Ed25519 is
  unforgeable and SHA-256 injective by construction. The object guard takes its hash as a
  parameter that is assumed injective where that matters.
- The disk has durable and visible directory entries and files whose data may not be
  synced. A process may die between any two file-system calls. After a power loss every
  name independently keeps its durable or its newer entry, the temporary name may be left
  from a replacement whose rename was not kept, and unsynced data may read as anything.
- The backend behind the object guard tells the truth about reads, and has stored what it
  confirmed. Any other write may take effect at once, later or never.
- bbolt transactions are atomic. PostgreSQL is a compare-and-swap on the revision with the
  denials of its transaction.

## Where a promise needs a condition

- *Nothing accepted is lost.* Recovery removes a record as soon as it sees a receipt, and
  syncs afterwards. If the receipt was visible but not durable and power fails before that
  sync, the directory can become that of a fresh queue although an append succeeded
  (`PendingExposure.ExposedLoss`). A run is *orderly* while no power is lost on such an
  exposed disk, and `PendingPower.LosesIffExposed` shows that exactly these disks can lose a
  record. In orderly runs every accepted record is still in the log. In all runs a missing one has a verified
  receipt for its exact hash (`PendingRuns.RecoveryIsExact`).
- *One run per plan.* The comment on the scheduler's policy says that only FORBID changes
  behaviour, and dispatch treats every policy but ALLOW as exclusive. An empty policy
  passes validation, is not skipped by the tick, and so can run twice. Nor does validation
  look for two entries under one identifier, of which one may forbid overlap and the other
  not. `SchedulerRuns.OverlapIff` gives the exact condition, for every configuration.
- *One truncation marker.* Entry validation lets a caller submit the marker's own code.
  `LogSpec.OneMarkerIffNotSubmitted` gives the exact condition on callers.
- *Runtimes match the active plans.* Validation of a snapshot does not look for two plans
  under one identifier. `ConfigSpec.MatchesIffConsistent` gives the exact condition.
- *No slot is skipped.* A slot here is a plan's stored next run. Ticks, crashes and restarts
  never lose one, but an activation that removes or reschedules its plan may, even when the
  slot is already due (`AgentSlots.ActivationDropsSlot`). `AgentSlots.DroppedIff` gives the
  exact condition and `AgentSlots.SlotsAccounted` the account over whole runs. Instants of
  the schedule that are never stored, because the agent was down or busy when they passed,
  get no record: the tick that comes after them records the one stored slot and computes the
  next run from its own instant (`AgentSlots.DowntimeLeavesInstants`).
- *Acknowledged at most accepted.* A coordination round after release reports the central
  revision without delivering it. `Authority.ReleasedRoundOrder` gives the exact condition
  and `Authority.ReleasedRoundOutrunsGateway` a run that fails it.
- *What was accepted parses again.* A WebDAV URL is bounded at 4096 bytes before it is
  normalised, and normalising can lengthen it. The printed form is then refused
  (`RcloneLongUrl.LongUrlIsLost`). `RcloneAccepted.ParseOfPrint` gives the exact condition.
- *The runtime form parses back.* This holds, within the same bounds, exactly for WebDAV,
  the one backend with a socket (`RcloneAccepted.ParseOfRuntimeForm`).

## Model

| member | source | states |
|---|---|---|
| `PendingNames.ParseOfRecordName` | internal/gatewaypending/queue_linux.go:253-259 | a record name of any int64 sequence parses back to that sequence |
| `PendingNames.RecordNameOfParse` | internal/gatewaypending/queue_linux.go:253-259 | a name that parses is exactly the canonical name of its sequence, so no second spelling is accepted |
| `PendingNames.RecordNameOrder` | internal/gatewaypending/queue_linux.go:297 | the string order of record names is the numeric order of their sequences |
| `PendingNames.SortedListing` | internal/gatewaypending/queue_linux.go:236-259 | sorting a directory listing puts the records in sequence order before the three fixed names |
| `PendingRuns.AtomicReplaces` | internal/gatewaypending/queue_linux.go:182-202 | a replacement whose five steps all took effect leaves a durable directory with just that file changed and no temporary file |
| `PendingQueue.Queue.Atomic` | internal/gatewaypending/queue_linux.go:182-202 | create, write, sync, rename, sync of the directory: whichever step fails, the disk is the prefix of steps that took effect |
| `PendingQueue.Queue.Store` | internal/gatewaypending/queue_linux.go:330-363 | limits and signature are checked before any write; a failed write latches the queue; success means all five steps took effect |
| `PendingQueue.Queue.Append` | internal/gatewaypending/queue_linux.go:301-308 | a frozen queue and a caller's terminal marker are refused; otherwise the new queue and disk are those of the store |
| `PendingQueue.Queue.Finish` | internal/gatewaypending/queue_linux.go:313-328 | only a frozen, claimed, unfinished queue with its key stores the one terminal marker, and the attempt itself latches |
| `PendingQueue.Queue.Commit` | internal/gatewaypending/queue_linux.go:481-484 | the receipt is replaced atomically before the record it covers is unlinked |
| `PendingQueue.Queue.Acknowledge` | internal/gatewaypending/queue_linux.go:460-489 | success exactly for a confirmed repetition of the last receipt, and for a confirmed first one that names the oldest record while every step takes effect; the new queue and disk in every case; any failed step latches |
| `PendingReceipts.TakenIff` | internal/gatewaypending/queue_linux.go:460-489 | after every run, a receipt is taken exactly if it is confirmed and names identifier, sequence and hash of the record after the last one taken, and the queue then moves on by one; a repetition of the last one succeeds and changes nothing; any other is refused and changes nothing |
| `PendingReceipts.ReceiptRepeats` | internal/gatewaypending/queue_linux.go:460-489 | a receipt that succeeded succeeds again without a change until another one is taken, across crashes, recoveries and, if it was new, losses of power |
| `PendingReceipts.RecordsGenuine` | internal/gatewaypending/queue_linux.go:265-280 | every record of a queue's log is signed by its source for its binding, numbered from one and chained to the one before |
| `PendingAppends.AppendedIff` | internal/gatewaypending/queue_linux.go:301-363 | after every run, an append succeeds if and only if the queue is open, unfailed and unfrozen, holds its key and has room, the record is no marker, is well-formed and bound to nothing else, and all steps take effect; it is then the next of the chain and reads back; a refused one changes nothing |
| `PendingAppends.FinishedIff` | internal/gatewaypending/queue_linux.go:313-328 | after every run, the terminal marker is stored if and only if the queue is open, frozen, claimed, unfinished and has room, and all steps take effect; after any allowed attempt no second one is |
| `PendingQueue.Queue.Next` | internal/gatewaypending/queue_linux.go:365-381 | the oldest wire, or a latch when the directory contradicts the queue |
| `PendingQueue.Queue.ClaimProducer` | internal/gatewaypending/queue_linux.go:398-406 | one owner, once, on a queue that has never stored anything |
| `PendingQueue.Queue.Freeze` | internal/gatewaypending/queue_linux.go:493 | appends end, nothing else changes |
| `PendingQueue.Queue.Close` | internal/gatewaypending/queue_linux.go:504-526 | the key is gone and every later operation is refused |
| `PendingQueue.Queue.Measure` | internal/gatewaypending/queue_linux.go:238-248 | the physical bytes of everything listed |
| `PendingQueue.Queue.ScanListed` | internal/gatewaypending/queue_linux.go:249-280 | one pass over the sorted names equals the fold that checks hash chain, contiguity and receipt |
| `PendingQueue.Queue.Load` | internal/gatewaypending/queue_linux.go:221-283 | the checks of recovery succeed exactly when the specification does, with the same queue and the same names to remove |
| `PendingQueue.Queue.Remove` | internal/gatewaypending/queue_linux.go:284-295 | covered records are unlinked one by one, then the directory is synced |
| `PendingQueue.Queue.Recover` | internal/gatewaypending/queue_linux.go:221-295 | recovery of a directory: queue, remaining disk and success for every point at which a step may fail |
| `PendingRecovery.RecoversSuffix` | internal/gatewaypending/queue_linux.go:221-295 | a sound directory without a temporary file is recovered to exactly the records after its receipt, and the covered ones are listed for removal |
| `PendingRecovery.TemporaryRejected` | internal/gatewaypending/queue_linux.go:249-255 | a leftover temporary file makes recovery fail closed |
| `PendingRecovery.ScanContiguous` | internal/gatewaypending/queue_linux.go:265-280 | whatever a scan accepts is gapless and chained from the receipt |
| `PendingRecovery.Fits` | internal/gatewaypending/queue_linux.go:129-135 | every explained directory passes the name-count and physical-byte limits |
| `PendingPower.ExposedIff` | internal/gatewaypending/queue_linux.go:284-295 | a disk is exposed exactly when a durable record was already removed whose receipt is visible but not durable |
| `PendingPower.LosesIffExposed` | internal/gatewaypending/queue_linux.go:284-295 | some loss of power leaves an image without a durable record that no receipt in it covers, if and only if the disk is exposed |
| `PendingPower.PowerLoss` | internal/gatewaypending/queue_linux.go:175-202 | any image that a power loss leaves of a disk that is not exposed is again an explained directory with every durable record |
| `PendingPower.PowerLossExposed` | internal/gatewaypending/queue_linux.go:284-295 | from an exposed disk the image is explained in full, explained up to a removed record, or refused by recovery |
| `PendingPower.GapRefused` | internal/gatewaypending/queue_linux.go:273-275 | a record above a missing one makes recovery fail closed |
| `PendingRuns.StepInv` | internal/gatewaypending/queue_linux.go:301-489 | every operation, stopped after any of its steps, every restart, power loss and recovery keeps the queue's invariant |
| `PendingRuns.RunInv` | internal/gatewaypending/queue_linux.go:94-155 | the invariant holds after every run from a created queue |
| `PendingRuns.RecoveryIsExact` | internal/gatewaypending/queue_linux.go:221-295 | every successful recovery after any run yields exactly the hash-chained suffix after the receipt: nothing accepted is lost without a verified receipt for its exact hash, nothing is reordered or duplicated, only the one append that failed after its rename can be extra, and the terminal marker is last |
| `PendingRuns.RecoveryIffNoTemporary` | internal/gatewaypending/queue_linux.go:236-283 | in an orderly run recovery passes all its checks and limits exactly when no temporary file is left |
| `PendingRuns.DeliversInOrder` | internal/gatewaypending/queue_linux.go:365-381 | a running queue delivers the record after its receipt, for every run |
| `PendingRuns.ReadyAccepts` | internal/gatewaypending/queue_linux.go:443-450 | after any run, a successful producer check means that the next valid append is not refused for space |
| `PendingSpec.ReadyHasRoom` | internal/gatewaypending/queue_linux.go:443-450 | a ready producer has room for one record of the largest size |
| `PendingExposure.ExposedLoss` | internal/gatewaypending/queue_linux.go:284-295 | a concrete run in which power loss on an exposed disk leaves the directory of a fresh queue although an append reported success |
| `GatewayAuthorization.Authorization.constructor` | internal/gateway/authorization.go:42-47 | no decision, no deadline, clock not yet seen |
| `GatewayAuthorization.Authorization.ObserveClock` | internal/gateway/authorization.go:103-110 | an unset or earlier wall clock latches |
| `GatewayAuthorization.Authorization.Accept` | internal/gateway/authorization.go:52-78 | the new state in every case, and success exactly unless the specification refuses; AuthorizationSpec.TakenIff says when that is |
| `GatewayAuthorization.Authorization.Status` | internal/gateway/authorization.go:83-101 | the five statuses, revocation before clock before expiry |
| `AuthorizationSpec.RunInv` | internal/gateway/authorization.go:52-110 | after every run of calls: accepted revisions strictly rise, issue times never go back, a revocation is last, and state and deadline are those of the last acceptance, so a replay moves nothing |
| `AuthorizationSpec.NeverValidAgain` | internal/gateway/authorization.go:52-110 | after a revocation every later status is REVOKED, after a rollback none is VALID |
| `AuthorizationSpec.ValidIff` | internal/gateway/authorization.go:83-101 | VALID if and only if no sample went back, the last accepted decision is a grant, wall time is before its expiry, and monotonic time since its acceptance is below the life it then had left |
| `AuthorizationSpec.TakenIff` | internal/gateway/authorization.go:52-81 | after every run, a call takes its decision if and only if no clock sample up to its own went back, the decision is genuine, may follow the last one, and is a revocation or unexpired; it succeeds exactly for that and for a genuine repetition |
| `AuthorizationSpec.RevocationTakesEffect` | internal/gateway/authorization.go:52-101 | a newer genuine revocation on a sane clock makes every later status REVOKED, whatever else is called |
| `AuthorizationSpec.StatusExact` | internal/gateway/authorization.go:83-101 | the other statuses: a revocation outranks the clock, and an unsafe clock outranks expiry |
| `Authority.CommitAppends` | internal/persistence/postgres/gateway_decisions.go:38-157 | the store is a compare-and-swap: one more revision, never after a revocation or release, grants end with the admission |
| `Authority.ReceiveEffect` | internal/gateway/authorized_linux.go:98-118 | a delivery only moves the gateway to the delivered statement, and only forward |
| `Authority.StepInv` | internal/server/gateway_authority_worker_linux.go:125-173 | every step of worker, store, network and gateway keeps the protocol's invariant; what rounds and deliveries do is stated by the next rows |
| `Authority.WithdrawalRevokes` | internal/server/gateway_authority_worker_linux.go:134-149 | after every run, a round that learns of a withdrawn principal appends exactly one revocation of the next revision, whatever the gateway has acknowledged, and sends it if it can |
| `Authority.RoundIff` | internal/server/gateway_authority_worker_linux.go:131-160 | after every run, any other round resends exactly if the last decision is unacknowledged, decides on a renewal exactly if one is due, and otherwise does nothing; with unknown principals it resends a revocation only |
| `Authority.RenewedIff` | internal/server/gateway_authority_worker_linux.go:149-173 | after every run, a round and its decision append one grant of the next revision, with the lifetime asked for but not beyond the admission, if and only if a renewal is due and may be granted |
| `Authority.ResentIff` | internal/server/gateway_authority_linux.go:39-62 | after every run, a resend goes out exactly if the decision is still the last, the admission is unreleased and, for a grant, it has not expired |
| `Authority.RevocationDelivered` | internal/gateway/authorized_linux.go:98-118 | after every run, a revocation on its way that the gateway lacks is taken by an open owner on a sane clock, acknowledged unless the call was cancelled, and final |
| `Authority.GrantDelivered` | internal/gateway/authorized_linux.go:98-118 | after every run, a newer unexpired grant is taken by an open owner on a sane clock if and only if the owner is ready; otherwise the owner fails and takes nothing |
| `Authority.RequestDecidesOnce` | internal/persistence/postgres/gateway_decisions.go:38-157 | after every run, a request whose identifier already made a decision makes no other: the same one gets the last decision again, any other is refused |
| `Authority.RunInv` | internal/server/gateway_authority_worker_linux.go:81-123 | the invariant holds after every run with lost, late and repeated wires, lost receipts, restarts and stops |
| `Authority.RevisionsOrdered` | internal/server/gateway_authority_worker_linux.go:125-173 | while the admission is unreleased: acknowledged revision at most the gateway's, which is at most the central one and is exactly the central decision of its number |
| `Authority.IssuedOnlyAfterAcceptance` | internal/server/gateway_authority_linux.go:18-62 | a step that issues a live grant starts from an unreleased admission whose last decision is an unrevoked grant that the gateway has accepted and holds |
| `Authority.RevocationIsLast` | internal/server/gateway_decisions.go:27-55 | no decision is ever lost or rewritten, and none follows a revocation |
| `Authority.AcceptedWithinAdmission` | internal/gateway/authorized_linux.go:98-118 | no accepted grant outlives the original admission |
| `Authority.ReleasedRoundOrder` | internal/server/gateway_authority_worker_linux.go:125-133 | in every run a round after release acknowledges the central revision and delivers nothing, so the order holds after it if and only if the gateway already had that revision |
| `Authority.ReleasedRoundOutrunsGateway` | internal/server/gateway_authority_worker_linux.go:131-133 | a release before the first delivery is such a run: acknowledged 1, gateway 0 |
| `OwnerLifecycle.AuthorizedBackup.constructor` | internal/gateway/authorized_linux.go:45-85 | an idle, watching owner |
| `OwnerLifecycle.AuthorizedBackup.Enter` | internal/gateway/authorized_linux.go:167-196 | one session at a time; an owner that is not ready fails for good |
| `OwnerLifecycle.AuthorizedBackup.Release` | internal/gateway/authorized_linux.go:204-207 | the session gives up its place, and a failure is remembered; it is still counted |
| `OwnerLifecycle.AuthorizedBackup.Done` | internal/gateway/authorized_linux.go:208 | the wait group lets go of one session, nothing else changes |
| `OwnerLifecycle.AuthorizedBackup.Stop` | internal/gateway/authorized_linux.go:209-212 | the stop channel is closed by whoever failed or closed the owner |
| `OwnerLifecycle.AuthorizedBackup.WatchTurn` | internal/gateway/authorized_linux.go:123-143 | new sessions are refused before the join starts |
| `OwnerLifecycle.AuthorizedBackup.WatchJoin` | internal/gateway/authorized_linux.go:144-146 | the queue is frozen only when the running count is zero |
| `OwnerLifecycle.AuthorizedBackup.Close` | internal/gateway/authorized_linux.go:238-244 | closed for new sessions; the stop channel is a later step |
| `OwnerLifecycle.AuthorizedBackup.Ready` | internal/gateway/authorized_linux.go:87-91 | authority valid at one reading of the clock, admission not over at the next, queue and audit healthy; the first reading is observed |
| `OwnerLifecycle.AuthorizedBackup.AcceptAuthorization` | internal/gateway/authorized_linux.go:98-118 | success exactly when the wire was taken and the call not cancelled; a grant to an owner that is not ready fails it |
| `OwnerSpec.RunInv` | internal/gateway/authorized_linux.go:123-257 | every interleaving: the wait group counts exactly the sessions that are not done, at most one of them holds the place and the owner is busy exactly then, frozen means none, a session is open exactly between its confirmed start and its attempted end |
| `OwnerSpec.MarkerAfterEveryEnd` | internal/gateway/supervisor_linux.go:180-199 | the terminal marker is unique and last, no session runs then, and every recorded session has had its end recorded or attempted before it |
| `OwnerSpec.NeverFrozenUnderSession` | internal/gateway/authorized_linux.go:123-146 | no session finds its queue frozen while the wait group counts it, and only one at a time can append |
| `OwnerSpec.FreezesIff` | internal/gateway/authorized_linux.go:123-146 | after every run, the watchdog fails the owner if and only if it was stopped or is no longer ready, and then freezes the queue if and only if no session is left |
| `OwnerSpec.LeavesIff` | internal/gateway/authorized_linux.go:197-208 | after every run, a session gives up its place once it has no open start, and the wait group lets go of it if and only if it has |
| `OwnerSpec.StoppedIsFinal` | internal/gateway/authorized_linux.go:167-257 | a failed or closed owner admits nothing more and what is frozen stays frozen |
| `OwnedQueue.RunInv` | internal/gateway/authorized_linux.go:123-257 | over every run of owner and queue, crashes and recoveries included: the owner's log is entry by entry what the queue accepted, freeze and terminal latch agree while the process lives, and every record appended or attempted is one that the owner wrote as it says |
| `OwnedQueue.MarkerInDirectory` | internal/gatewaypending/queue_linux.go:310-328 | if any recovery succeeds after any run, each start, end and marker of its log is one that the owner wrote, and a terminal marker is the last record, with no session left, every begun session ended, and every recorded end before it |
| `SessionTable.Service.Scan` | internal/gateway/service_sessions_linux.go:216-224 | finds a live session that shares the repository or the agent, if and only if there is one |
| `SessionTable.Service.OpenSession` | internal/gateway/service_sessions_linux.go:184-250 | the answer and the new table for every branch: duplicate, conflict, past deadline, probing, stopping or full, busy, no identifier, opened |
| `SessionTable.Service.Activate` | internal/gateway/service_sessions_linux.go:257-262 | a starting session becomes active with its own route |
| `SessionTable.Service.End` | internal/gateway/service_sessions_linux.go:276-282 | a session that is not terminal closes or fails and loses its route |
| `SessionTable.Service.RequestFinish` | internal/gateway/service_sessions_linux.go:120-121 | a deletion asks the session to finish and changes nothing else |
| `SessionTable.Service.BeginProbe` | internal/gateway/service_readiness_linux.go:23-33 | a probe holds the repository exactly when no live session does |
| `SessionTable.Service.EndProbe` | internal/gateway/service_readiness_linux.go:43-45 | the repository is released |
| `SessionSpec.RunInv` | internal/gateway/service_sessions_linux.go:184-283 | every reachable table: at most one live session for each repository and each agent, none on a probed repository, a route exactly while active, at most 4096 records, none beyond the requested deadline |
| `SessionSpec.FirstSessionKept` | internal/gateway/service_sessions_linux.go:184-196 | an operation keeps its first session for ever, phases only move forward, terminal phases are final |
| `SessionSpec.RefusalConsumesNothing` | internal/gateway/service_sessions_linux.go:197-233 | busy and unavailable answers leave the table as it was and are given only to operations without a session |
| `SessionSpec.LifetimeIsGreatest` | internal/gateway/service_sessions_linux.go:234-249 | a new session lasts exactly as long as request, window, certificate and owner allow |
| `SessionSpec.SessionAfter` | internal/gateway/service_sessions_linux.go:184-283 | whatever happens after a request opened a session, the operation has that session, in the phase that its worker's events give it |
| `SessionSpec.RepeatIff` | internal/gateway/service_sessions_linux.go:184-196 | the same request, repeated after any events, finds that session; any other request for the operation conflicts with it |
| `SessionSpec.OpenedIff` | internal/gateway/service_sessions_linux.go:197-250 | a first request opens a session if and only if its deadline lies ahead, the service is not stopping and has room, the repository is not being probed, no live session has its repository or agent, and an identifier was drawn; what the other answers mean |
| `Supervisor.Router.Enter` | internal/gateway/supervisor_linux.go:139-156 | admits exactly when open, below the limit and without a clash in host, repository, gateway, operation or credential |
| `Supervisor.Router.Leave` | internal/gateway/supervisor_linux.go:157-162 | the entry is removed |
| `Supervisor.Router.Show` | internal/gateway/supervisor_linux.go:270-276 | a route appears only while the supervisor is open and the session live |
| `Supervisor.Router.Hide` | internal/gateway/supervisor_linux.go:257-263 | the route disappears before the session is closed |
| `Supervisor.Router.Close` | internal/gateway/supervisor_linux.go:398-406 | closed for good |
| `SupervisorSpec.RunInv` | internal/gateway/supervisor_linux.go:139-162 | entries never exceed the limit and differ pairwise in all five bindings |
| `SupervisorSpec.AdmittedIff` | internal/gateway/supervisor_linux.go:139-156 | after every run, a backup enters, without a route, if and only if the supervisor is open and below its limit and nothing that is in shares host, repository, gateway, operation or credential; otherwise nothing changes |
| `SupervisorSpec.RoutedIff` | internal/gateway/supervisor_linux.go:257-276 | after every run, showing gives a route exactly to a backup that is in and live while the supervisor is open, and hiding takes just that away |
| `SupervisorSpec.ClosedOnlyShrinks` | internal/gateway/supervisor_linux.go:398-406 | after closing, whatever follows, nothing is admitted and no route appears |
| `HandshakeSpec.PostOutcome` | internal/agent/gateway.go:121-165 | of all answers to a POST only a failed dial, a hinted refusal and a busy answer prove that no session was consumed or can be |
| `HandshakeSpec.DeleteOutcome` | internal/gateway/service_sessions_linux.go:120-142 | a 204 proves that the session is closed, that no POST of it is still on its way, and that its retry code is that of the requests it served |
| `HandshakeSpec.MeanwhileKeeps` | internal/gateway/service_sessions_linux.go:184-293 | late POSTs, other clients, workers, restarts and requests that find the guard closed keep what the client knows; what a settled session wrote is final, and its code can only be withdrawn |
| `Handshake.Network.Exchange` | internal/agent/gateway.go:121-138 | one request over a network that loses, delays and answers late |
| `Handshake.Network.Delete` | internal/agent/gateway.go:100-114 | the cleanup request and its answer |
| `Handshake.VerdictSound` | internal/agent/gateway.go:121-199 | each way the loop goes on or returns is justified by what the answer proves |
| `Handshake.WithSession` | internal/agent/gateway.go:77-201 | anything but a cleanup error leaves no live session of the operation and none can come alive; success means that the work ran and closure was confirmed; a failure code after the work started is the code, as of the 204, of a guard that has served every request of the closed session, and what that session wrote stays so while the 204 travels |
| `Handshake.Converse` | internal/agent/gateway.go:121-201 | the exchanges go on exactly while answers are starting or busy, and end with the verdict on the first other one; no session can have begun if that verdict asks for no cleanup |
| `Handshake.CleanUp` | internal/agent/gateway.go:97-120 | a cleanup error exactly unless the DELETE was confirmed, and then nothing of the operation lives; a session error after the work takes the code that the confirmation carries |
| `Handshake.JudgedAs` | internal/agent/gateway.go:122-201 | an answer runs the work, is polled or is repeated if and only if it is active, starting or busy; any other ends the loop with the code of its status, and without cleanup only if nothing can have begun |
| `Handshake.SettledStays` | internal/agent/gateway.go:77-201 | nothing that happens later revives the operation, changes what its session wrote, or gives the session another code |
| `Handshake.CleanupErrorCanLeaveSession` | internal/agent/gateway.go:96-120 | an unconfirmed cleanup can leave a live session |
| `ObjectPaths.ParseExact` | internal/gateway/session_linux.go:281-296 | a request reaches an object exactly under the session's prefix in its one spelling |
| `ObjectGuard.BackupSession.Deny` | internal/gateway/session_linux.go:450-461 | every denial forbids a retry, except the request limit |
| `ObjectGuard.BackupSession.Ask` | internal/gateway/retry_linux.go:38-63 | the flags that a backend read leaves |
| `ObjectGuard.BackupSession.Forward` | internal/gateway/session_linux.go:298-321 | a mutation sent to the backend: its effect, its record, and the flags it leaves |
| `ObjectGuard.BackupSession.Read` | internal/gateway/session_linux.go:323-359 | reads change only flags; a failed listing or a truncated copy forbids a retry |
| `ObjectGuard.BackupSession.Create` | internal/gateway/session_linux.go:361-418 | fresh lock, size, hash and absence are checked before the body leaves, and a lock is owned only once confirmed: the new session and history in every case; GuardExact says which requests go out |
| `ObjectGuard.BackupSession.RemoveLock` | internal/gateway/session_linux.go:420-441 | only an owned lock is removed, and only once |
| `ObjectGuard.BackupSession.Serve` | internal/gateway/session_linux.go:183-279 | which requests read, create, remove or are denied |
| `ObjectGuard.BackupSession.Close` | internal/gateway/session_linux.go:174-181 | nothing is served and no lock is owned afterwards |
| `GuardRuns.RunInv` | internal/gateway/session_linux.go:183-441 | the session's invariant holds after every sequence of requests, late writes and closing |
| `GuardRuns.AppendOnly` | internal/gateway/session_linux.go:361-441 | an object other than a lock, once there, keeps its content after anything that follows |
| `GuardRuns.AddedAreNamed` | internal/gateway/session_linux.go:381-400 | what was there before is unchanged, and every added object is named by the hash of its body and is no key or config |
| `GuardRuns.LocksAreOwn` | internal/gateway/session_linux.go:361-441 | at most 1024 lock paths ever, each created once at most, deleted once at most and only after its own confirmed creation |
| `GuardExact.PostForwardedIff` | internal/gateway/session_linux.go:361-418 | after every run of an open session, a POST is forwarded, with exactly its body, if and only if it is eligible, fits its path and, for a lock, the path is new and one of 1024 |
| `GuardExact.DeleteForwardedIff` | internal/gateway/session_linux.go:420-441 | after every run of an open session, a DELETE is forwarded if and only if it names a lock that the session created, confirmed and has not deleted since; any other forbids a retry |
| `GuardExact.OthersForwardNothing` | internal/gateway/session_linux.go:183-280 | no other request, and none to a closed session, forwards a mutation |
| `GuardExact.CodeIff` | internal/gateway/retry_linux.go:24-61 | over every run, a session gives a retry code if and only if every request left a retry possible: the rate limit if one was throttled, else unavailability if the backend could not be reached |
| `GuardRuns.RetryCodeIsSafe` | internal/gateway/retry_linux.go:24-36 | a guard that is reached by any run of requests and gives a retry code forwarded no snapshot write and had every forwarded mutation confirmed with 200 |
| `RetrySafety.GatewayCodesRetryable` | internal/domain/backup_execution.go:7-9 | of the codes that name the gateway exactly three are retryable |
| `RetrySafety.SelectedCode` | internal/agent/backup.go:142-232 | a gateway code is selected only for a busy session or for the session's own failure |
| `RetrySafety.SelectedTells` | internal/agent/backup.go:165-232 | a result is a success, a success with warnings, cancelled or retryable, each if and only if engine, contexts and session give exactly the findings for it |
| `RetrySafety.Execute` | internal/agent/backup.go:142-190 | a result that asks for a gateway retry means that the engine never started, or that the closed session's guard itself gives that code; the result is exactly that of the session, which is the one that the answers call for |
| `RetrySafety.Attempt` | internal/agent/scheduler.go:264-280 | no unsafe automatic retry, with client, network, gateway and object guard in one system: if a successor is created for a gateway code, Restic never started or its closed session wrote no snapshot and had every mutation confirmed; and the successor is created if and only if the result may be retried in time |
| `Operations.Backoff` | internal/domain/backup_execution.go:26-41 | the loop computes the minimum of the maximum and the initial delay doubled attempt minus one times |
| `Scheduler.AgentState.RunningOperations` | internal/agent/operations.go:216-235 | exactly the RUNNING records |
| `Scheduler.AgentState.AdvancePlan` | internal/agent/scheduler.go:104-174 | runtime and record for every case of a due, missed, skipped, repeated or new slot, the record under the identifier computed from plan and slot |
| `Scheduler.AgentState.PutWithRuntime` | internal/agent/operations.go:276-302 | record and runtime change together |
| `Scheduler.AgentState.TickOne` | internal/agent/scheduler.go:86-100 | capacity is read again for each plan, then the plan is skipped or advanced |
| `Scheduler.AgentState.TickScheduler` | internal/agent/scheduler.go:65-102 | a whole tick equals its steps in order |
| `Scheduler.AgentState.HandleJobDispatch` | internal/agent/client_stream.go:379-511 | a manual job is stored and started exactly when new, between its two instants, not cancelled, for the first entry under its identifier with its revision and hash, within capacity and not overlapping |
| `Scheduler.AgentState.FinishWithRetry` | internal/agent/scheduler.go:264-327 | the failed attempt and its successor are committed together, with delay, deadline and root as specified |
| `Scheduler.AgentState.RecoverRunningOperations` | internal/agent/operations.go:423-463 | every RUNNING record becomes LOST, nothing else changes, and their number is returned |
| `SchedulerRuns.RunInv` | internal/agent/scheduler.go:65-174 | for every configuration, what the holder of the scheduler mutex has checked about the capacity stays true while workers finish and retry beside it |
| `SchedulerRuns.RunSingle` | internal/agent/scheduler.go:65-174 | for a plan all of whose entries forbid overlap, what the holder believes about its runs stays true likewise |
| `SchedulerRuns.AdmissionBound` | internal/agent/scheduler.go:65-174 | in every interleaving under every configuration RUNNING records never exceed the job limit, and a plan all of whose entries forbid overlap never has two |
| `SchedulerRuns.OverlapIff` | internal/agent/schedule/schedule.go:154-158 | for every configuration and plan: no reachable state has two RUNNING records of it if and only if the limit is below two or every entry under its identifier forbids overlap |
| `SchedulerRuns.TwoRuns` | internal/agent/scheduler.go:86-171 | an entry that does not forbid overlap, under a limit above one, has a run with two RUNNING records |
| `SchedulerRuns.FinishCounts` | internal/agent/scheduler.go:264-327 | finishing, with or without a successor, adds to no count, and with one keeps the total |
| `SchedulerSlots.NoSlotTwice` | internal/agent/schedule/schedule.go:160-164 | in every run under one configuration, whatever the clock shows and restarts included, no slot becomes a record twice |
| `SchedulerSlots.PassedSlotIsRecorded` | internal/agent/scheduler.go:128-171 | in every run, each due slot that an unchanged plan has moved on from has its record at the end |
| `AgentSlots.RunInv` | internal/agent/config.go:53-178 | over every run in which activations, ticks, dispatches, workers and restarts share records and runtimes, each runtime is its active plan's and a job about to be stored is new |
| `AgentSlots.DroppedIff` | internal/agent/config.go:126-178 | after every such run, a step replaces or deletes a stored next run that has come due, and leaves no record for it, if and only if it is an activation that commits, removes the plan or gives it another revision, hash or clock, and finds no record there; ticks and restarts drop none |
| `AgentSlots.SlotsAccounted` | internal/agent/scheduler.go:36-63 | over every such run, every slot that was ever a stored next run still is one, or has its record, or an activation removed or rescheduled its plan meanwhile |
| `SchedulerExact.SlotRecordedIff` | internal/agent/scheduler.go:104-171 | after every such run, a tick that decides on a plan makes a record if and only if the stored next run is due and has none, and the schedule parses and the store takes it; the next run moves on exactly then or if the record was there |
| `SchedulerExact.SlotOutcome` | internal/agent/scheduler.go:128-171 | the new record is MISSED if and only if the wake-up is not ordinary and the grace period is over, else SKIPPED if and only if the plan forbids overlap and was seen running, else RUNNING with a worker that has a day |
| `SchedulerExact.TickSees` | internal/agent/scheduler.go:65-102 | over every such run, a tick sees a plan as running if and only if it ran when the tick began or the tick itself started it |
| `AgentSlots.NoSlotTwice` | internal/agent/schedule/schedule.go:160-164 | over every such run, whatever is activated, no slot becomes a record twice |
| `AgentSlots.PutNext` | internal/agent/config.go:137-164 | after any number of plans of a reconciliation a next run is the clock's if an entry under its identifier was rescheduled, and the old one otherwise |
| `AgentSlots.ActivationDropsSlot` | internal/agent/config.go:145-156 | a new revision that arrives while a slot is due and unrecorded drops it |
| `AgentSlots.DowntimeLeavesInstants` | internal/agent/scheduler.go:128-135 | the one tick after a downtime records the stored slot; an instant between it and the tick gets no record |
| `SchedulerSlots.SlotsRise` | internal/agent/scheduler.go:36-63 | if ticks do not go back in time the slots of a plan are moreover made in strictly rising order |
| `RetryChains.TerminalIsFinal` | internal/agent/operations.go:157-194 | no writer ever changes the status or error of a terminal record |
| `RetryChains.SuccessorDescends` | internal/agent/scheduler.go:278-324 | each successor is one attempt later under the same root, before a deadline that did not grow, and strictly closer to the allowed attempts |
| `RetryChains.RunChains` | internal/agent/scheduler.go:176-327 | over every run: each local attempt has a FAILED parent with a retryable error and is its only successor, attempts rise by one, the root is constant, deadlines never grow, retry times lie before them |
| `RetryChains.RetryKeepsCount` | internal/agent/scheduler.go:262-327 | finishing an attempt and creating its successor is one step that keeps the running count |
| `SchedulerExact.RetriedIff` | internal/agent/scheduler.go:264-327 | after every run, a finishing worker leaves a successor if and only if it failed with a retryable error, may retry, its plan is current, attempts are left, and the backoff ends before its deadline and the plan's next run; the successor waits until then |
| `SchedulerExact.WokenIff` | internal/agent/scheduler.go:227-258 | after every run, a waiting worker goes on if and only if it was neither cancelled nor superseded; otherwise its record is CANCELED with the reason, unless that could not be stored |
| `SchedulerExact.ReportedIff` | internal/agent/operations.go:157-194 | after every run, a report marks a record as uploaded if and only if its result is final |
| `SchedulerExact.DispatchedIff` | internal/agent/client_stream.go:379-511 | after every run, a job that is checked and stored runs if and only if it is new, made for the active plan, between its two instants, not cancelled, and finds a free place and, unless overlap is allowed, nothing of its plan running |
| `ConfigActivation.ConfigStore.Reconcile` | internal/agent/config.go:126-178 | the loop's bucket is the specified reconciliation, or nothing when a schedule does not parse |
| `ConfigActivation.ConfigStore.Prune` | internal/agent/config.go:165-177 | exactly the present plans are kept |
| `ConfigActivation.ConfigStore.ApplyDesiredState` | internal/agent/config.go:53-122 | rejection, confirmation, staging and activation, cut off after any of its transactions |
| `ConfigSpec.ReconcileExact` | internal/agent/config.go:126-178 | with distinct identifiers the table then holds exactly the new plans; unchanged schedules keep their next run, others get a new one |
| `ConfigSpec.MatchesIffConsistent` | internal/agent/config.go:126-178 | after a reconciliation the table's keys are the plans and each has its plan's revision and hash, if and only if no identifier stands for two different plans |
| `ConfigSpec.RuntimesMatch` | internal/agent/config.go:53-178 | over every sequence of consistent snapshots, crashes and scheduler steps the runtime table is exactly the active plans' |
| `ConfigSpec.PlanStepMatches` | internal/agent/scheduler.go:115-147 | a scheduler step on an active plan keeps that |
| `ConfigSpec.RevisionsNeverFall` | internal/agent/config.go:75-121 | the active revision never falls, and while it stays the whole active state stays, so no revision has two hashes |
| `ConfigAnswers.ActiveIff` | internal/agent/config.go:75-121 | over every run the active state is that of the last snapshot whose transactions committed, that was newer than all activated before it, and whose schedules parse |
| `ConfigAnswers.ResultIff` | internal/agent/config.go:53-121 | over every run the stored result is the answer to the last snapshot that has one, until it is sent: a rollback, a conflict or an acceptance by the snapshots activated before, and the code of an invalid one |
| `ConfigAnswers.PutSome` | internal/agent/config.go:126-178 | a reconciliation fails exactly if a new or changed schedule does not parse |
| `ConfigAnswers.NextRunIff` | internal/agent/config.go:137-164 | a reconciled plan keeps its next run if and only if the last plan under its identifier had the same revision, hash and schedule; any other gets the clock's; the rest of its runtime stays |
| `OperationLog.LocalLog.Append` | internal/agent/logs.go:40-123 | numbering, deduplication, truncation and the limit: outcome and new log in every case |
| `OperationLog.LocalLog.PendingChunk` | internal/agent/logs.go:160-184 | contiguous from the first unacknowledged entry, at most 200 entries and 32 KiB, as much as fits, and none exactly when nothing fits |
| `OperationLog.LocalLog.MarkSent` | internal/agent/logs.go:190-199 | only what exists can be marked as sent |
| `OperationLog.LocalLog.Acknowledge` | internal/agent/logs.go:201-222 | exactly the acknowledged prefix is deleted, and nothing beyond what was sent |
| `LogSpec.RunKeeps` | internal/agent/logs.go:40-123 | after every run the stored entries are exactly the numbers after the acknowledged one, and total bytes stay within the limit with the reserve free of progress |
| `LogExact.IgnoredIff` | internal/agent/logs.go:66-92 | after every run an entry is ignored if and only if it is valid and repeats section and code of a critical one that was stored, or is progress after the truncation |
| `LogExact.TakenIff` | internal/agent/logs.go:190-208 | after every run an acknowledgement is taken if and only if the last accepted mark of sent entries covers it |
| `LogExact.HeldIff` | internal/agent/logs.go:201-222 | over every run exactly the entries after the longest acknowledged prefix are still held |
| `LogSpec.FullOnlyBeyondReserve` | internal/agent/logs.go:93-108 | an append fails for space only if critical entries and the marker together outgrow 16 KiB |
| `LogSpec.OneMarker` | internal/agent/logs.go:93-105 | at most one truncation marker, and no progress after it, when callers do not submit it |
| `LogSpec.OneMarkerIffNotSubmitted` | internal/domain/backup_log.go:46-48 | for every encoder of short entries: every run has at most one marker, and none has progress after it, each if and only if the marker's code is not among the codes that callers may submit |
| `LogSpec.ForgedMarkerRepeats` | internal/agent/logs.go:71-105 | after a submitted marker progress follows, and enough of it makes a second marker |
| `StreamSinks.WarningSink.Write` | internal/agent/backup.go:242-265 | a write equals feeding its bytes one by one |
| `StreamSinks.WarningSink.Finish` | internal/agent/backup.go:267-279 | a finished line counts if it is an error line and was not discarded |
| `StreamSinks.ProgressSink.Write` | internal/agent/backup.go:335-356 | a write equals feeding its bytes one by one, and stops at the first failure |
| `StreamSinks.ProgressSink.ConsumeLine` | internal/agent/backup.go:375-423 | the counters after one parsed line |
| `StreamSinks.ProgressSink.Finish` | internal/agent/backup.go:358-363 | a last line without newline is consumed unless empty or failed |
| `WarningSpec.ChunkingIndependent` | internal/agent/backup.go:242-279 | for every way of cutting a stream into writes the count is the number of error lines of at most 1 MiB |
| `ProgressSpec.ChunkingIndependent` | internal/agent/backup.go:335-423 | for every way of cutting a stream into writes counters, summary and error code are those of the fold over its lines |
| `ProgressSpec.CountersExact` | internal/agent/backup.go:335-423 | for every way of cutting a stream into writes: an unreadable or overlong line or a second summary fails it; otherwise each counter is that of the last line that reports it, warnings are the error lines, and the summary is the one that was given |
| `Lines.JoinSplit` | internal/agent/backup.go:242-265 | splitting into lines loses nothing |
| `RcloneConfig.ParseConfig` | internal/rclone/config.go:36-107 | the line loop accepts exactly what the specification accepts, with the same normalised sections |
| `RcloneConfig.Bytes` | internal/rclone/config.go:167-189 | sections and keys in string order, empty values left out |
| `RcloneConfig.RuntimeBytes` | internal/rclone/webdav_linux.go:111-118 | the printed form with the socket injected |
| `RcloneConfig.Same` | internal/rclone/config.go:197-226 | the nested loops decide exactly the relation |
| `RcloneAccepted.BackendStable` | internal/rclone/backends.go:18-69 | a normalised backend normalises to itself if its URL has at most 4096 bytes and is refused otherwise; it never holds a socket |
| `RcloneAccepted.ParseOfPrint` | internal/rclone/config.go:36-107 | for every accepted configuration the printed form parses, to itself without empty values and with the same bytes, if and only if it has at most 256 KiB and its normalised URL at most 4096 bytes |
| `RcloneAccepted.ParseOfRuntimeForm` | internal/rclone/webdav_linux.go:111-118 | the runtime form parses back to the same configuration if and only if the backend is WebDAV and the same two bounds hold |
| `RcloneGuarantees.AcceptedGuarantees` | internal/rclone/backends.go:18-69 | every accepted configuration has an encrypted section over a safe path of one other section, which is of a known backend, holds only its keys, one WebDAV credential or a confined drive, a normalised token or URL, and no socket |
| `RcloneGuarantees.BackendIff` | internal/rclone/backends.go:18-69 | a backend section is accepted if and only if it is fit for its type once defaults are filled in; normalising overrides nothing that it gave but the spelling of token and URL |
| `RcloneGuarantees.CryptIff` | internal/rclone/config.go:73-90 | the encrypted section is accepted if and only if it holds only its keys and is properly encrypted once defaults are filled in, and gave nothing else for them |
| `RcloneGuarantees.RepeatedKeyRefused` | internal/rclone/config.go:60-75 | a key that one section gives twice refuses the whole configuration |
| `RcloneLongUrl.LongUrlIsLost` | internal/rclone/backends.go:72-119 | a URL of 4096 bytes without a final slash is accepted, and then neither the printed nor the runtime form is |
| `RcloneRelations.ExceptTokenIff` | internal/rclone/config.go:197-226 | same except token means the same remote, the same sections and the same value under every key but an OAuth token |
| `RcloneRelations.ExceptTokenEquivalence` | internal/rclone/config.go:192 | same except token is reflexive, symmetric and transitive |
| `RcloneRelations.ExceptTokenWithinTarget` | internal/rclone/config.go:195 | same except token implies same target |
| `RefreshChain.RefreshRecorder.constructor` | internal/gateway/pending_linux.go:47-57 | starts from the registered configuration and revision |
| `RefreshChain.RefreshRecorder.Persist` | internal/gateway/pending_linux.go:59-93 | only a token change is appended, the revision moves only after durable acceptance, an uncertain append moves nothing; success exactly if nothing changed or the record is stored and authority still holds, and then the recorder stands at what it was given |
| `RefreshChain.RefreshRecorder.Close` | internal/gateway/pending_linux.go:58 | no refresh is recorded afterwards |
| `RefreshSpec.RefreshesChain` | internal/gateway/pending_linux.go:47-95 | over every run record k expects the initial revision plus k, differs from its predecessor, and equals the registered configuration except for the token |
| `RefreshQueue.RunInv` | internal/gateway/pending_linux.go:47-95 | over every run of recorder, audits and queue, crashes and recoveries included, the queue holds the recorder's refreshes in order, and one that it may lack is the last and has stopped the recorder |
| `RefreshQueue.RefreshesInDirectory` | internal/gateway/pending_linux.go:47-95 | if any recovery succeeds after any run, the refresh records of its log form one chain: the k-th expects the initial revision plus k, differs from the one before it, and keeps the registered configuration but for the token, whatever audit records lie between |
| `RefreshSpec.RefreshesKeepTarget` | internal/gateway/pending_linux.go:47-95 | every queued configuration keeps the registered target |

## Left out

- Cryptography, TLS, X.509, JSON encoding and random identifiers: symbolic, as described above.
- File ownership and modes, peer identity, symbolic links, locks on files: taken as given.
- Subprocesses, hooks, sockets, HTTP and gRPC plumbing, tickers: only their outcomes and time samples appear.
- SQL, migrations and the rest of the PostgreSQL stores: only the decision transaction appears, by its contract.
- Cron, jitter and the computation of the next run: a parameter of each scheduler step.
- Value patterns and normalisers of the rclone backends (tokens, URLs, base64, identifiers, root paths): parameters, assumed to give clean non-empty results and to be idempotent, a URL's on results of at most 4096 bytes.
- bbolt cursors: a deletion while iterating is modelled as deleting the key, not by cursor positions.
- Cancel set, report batching, next-run telemetry: short list operations that the safety properties do not depend on.
- Provisioning, startup, rotation, enrolment, the control plane's other services and the web console.
- PendingPower.PowerLoss: of a receipt that was replaced twice without a sync in between, an image holds the durable or the newest one, not the one between them.
- Liveness: nothing is claimed about when a retry, renewal or cleanup eventually happens.
- Handshake.WithSession: one copy of each POST reaches the gateway at most once; duplication by an intermediary is not modelled.
- GuardRuns.AppendOnly: the probe and the write of one request are one step; a late write of the same path between them would carry the same content.
- Scheduler.AgentState.AdvancePlan: whether a tick is an ordinary wake-up just after a slot is a parameter of the step, so both answers are covered.
- OwnedQueue.RunInv: the owner is the queue's only producer, and audits of the gateway process itself have their own queue, which is not composed with anything.
- LogSpec.OneMarkerIffNotSubmitted: an entry's time of observation is part of its encoding only; that a marker or progress entry takes 1 to 512 bytes is assumed of the encoder.
