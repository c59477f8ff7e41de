# MiniPaaS: a verified model of the deployment control plane

MiniPaaS publishes an application by starting a candidate container, switching the Caddy route to it,
promoting its row in Postgres and retiring the release it replaces. Everything shared is changed by
several goroutines at once, and every call to Docker, Caddy or the database may fail. This project
models those protocols in Dafny and proves what they keep over whole runs.

| files | what they model |
|---|---|
| `Sequences`, `Domain`, `DeploymentTable` | deployment rows, and one method and one function per SQL statement |
| `RolloutMachine`, `RolloutSafety`, `RolloutTheorems` | builds, rollbacks, stops and cancellations of one app as a transition system; its inductive invariant; the whole-run theorems |
| `RowHistory` | what the status of a row tells about the calls that were made on it |
| `RolloutProgress` | why a rollout or a stop never hangs on to the lock by itself |
| `ControlPlane` | `RunBuild`, `Rollback` and `StopApp` as imperative code in which every call may fail and any other operation may run in between; a ghost log shows that each is a run of the transition system |
| `Recovery`, `CrashSafety` | `RecoverCandidates` and `ReconcileManagedContainers` after a crash at any step, their own included; which crashes they repair, and which they do not |
| `CancelHandshake` | `Cancel` against one build run, of an upload or of a repository, action by action, with failing reads of the flag |
| `FifoSlots`, `BuildQueue` | the build scheduler: what it promises on values, and the class updated in place |
| `SlotsAndLocks` | build slots and rollout locks of any number of runs of any number of apps |
| `CustomDomains` | the one-route-at-a-time custom domain updates and their compensation |
| `MetricsHub`, `FrameChannel` | the shared metrics streams and the drop-oldest buffers |
| `RateLimiter`, `RateBounds` | the fixed-window limiter with its bounded table, and its bounds over runs |
| `LineWriter` | the log writer that cuts a byte stream into lines |

## Assumptions

An external call either takes effect or fails without effect; which one happens is never known in
advance. A call that is given a context that is already done fails (`CancelHandshake.UsesContext` lists the run's).
The router is the atomic one (`SwitchRoute`). Ports are free when a container is started and containers do not stop
by themselves; so no two serving containers ever share a port (`RolloutTheorems.RunKeepsPortsApart`). The guarantees
about the route and the single running row need three calls to succeed, and `Benign` names them: the compensating
route write, the status write that retires the replaced row, and StopApp's status write. That these are needed is
proved as well (`CompensationIsNeeded`, `RetirementIsNeeded`, `StopMarkIsNeeded`). `Tidy` adds the removals of
containers, `Forgets` the writes that clear a candidate. A deployment row is built by one run only, as every caller
of `RunBuild` creates the row it builds.

What fails is a free choice in every method. To say what happens when nothing does, the classes carry a
constant that stands for "no call fails" (`smooth` for `ControlPlane.Service`, `reliable` for `Recovery.Host` and
`CustomDomains.CustomDomainService`), and the contracts say that the operations then succeed. `records` stands for
"no write of an outcome fails"; the outcome is then recorded as `Recorded` says.

## Where the code falls short of what is promised

- The comment on `RecoverCandidates` (api/internal/service/deployment.go:619-621) says that the route of the
  last committed running deployment is restored. The code restores the route of the newest-created running
  row, whether or not its container serves. That row is the last committed one exactly if the crash did not fall
  between a commit and the retirement of a row at least as new as the one promoted
  (`Recovery.CommittedIsAnswered`), and the restored route is served exactly if some running row's container was
  up on the answered row's port when the process died (`Recovery.RecoveredRouteServed`). Both fail if an earlier
  failed build has left its candidate on record and the crash falls into the retirement of a newer row by a
  rollback: the served route is moved to a container that is stopped (`CrashSafety.StoppedContainerIsRouted`) or
  gone (`CrashSafety.StaleCandidateBreaksRecovery`); `CrashSafety.UnluckyIsReached` gives the run. After a crash
  inside StopApp the route that was taken down comes back to a stopped container (`CrashSafety.StoppedAppIsRouted`).
- A start-up whose route write fails forgets the candidate all the same, so no later start-up tries again and the
  route can stay on the removed candidate (`CrashSafety.FailedRestore`, `CrashSafety.FailedRestoreIsFinal`).
- A failing read of the cancellation flag is ignored by the run. So after `Cancel` has found no execution the
  run can still build, exactly if it has yet to register and its context is live
  (`CancelHandshake.EmptyLookUpIsExact`), and a row that `Cancel` has marked cancelled can be left again,
  exactly in the states of `CancelHandshake.CanBeLeft` (`CancelHandshake.CancelledIsExact`).
  `CancelHandshake.CancelledIsRevived` is a run in which it goes back to building, and
  `CancelHandshake.CancelledIsPromoted` one in which it is marked late and ends up running. A successful
  read among its first two rules out both of these. A request accepted after the last check does not stop the
  promotion (`CancelHandshake.LateRequestIsTooLate`).
- A cancellation that was accepted may never be settled, although no call fails but those refused for a done context:
  a cancel that finds the run between its slot and its write of `building` ends the context, the write is refused,
  the run leaves without a mark, and the row stays `cancel_requested` (`CancelHandshake.RequestIsNeverSettled`).
  `CancelHandshake.OpenRowIsExact` says exactly when a row is left like that; asking once more settles it
  (`CancelHandshake.SecondRequestSettles`).
- A first deployment that fails after switching custom routes removes only the default route;
  `CustomDomains.DanglingAfterFirstBuild` says exactly which custom routes are left on the removed container.
- A metrics runner that was cancelled can publish into the next stream of the same container
  (`MetricsHub.StaleRunnerPublishes`). With a second publisher the newest frame can be lost, in two ways: a retry
  finds the buffer full again (`FrameChannel.NewestIsLost`), or a publisher that makes room takes it as the only
  one left (`FrameChannel.NewestIsDropped`). `FrameChannel.LossIsExact` says that there is no other way, over all
  interleavings of any number of publishers and the consumer.

## Model

| member | source | states |
|---|---|---|
| DeploymentTable.DeploymentStore.RequestCancel | api/internal/store/postgres/sqlc/deployment.sql.go:777-782 | sets the flag and the status exactly when the row is cancellable, and returns a row exactly then |
| DeploymentTable.DeploymentStore.MarkCancelled | api/internal/store/postgres/sqlc/deployment.sql.go:734-738 | the guarded cancel leaves every row that is not cancellable alone |
| DeploymentTable.DeploymentStore.GetActive | api/internal/store/postgres/sqlc/deployment.sql.go:273-278 | answers with a newest running row, and with none exactly if none runs |
| DeploymentTable.DeploymentStore.ListRunning | api/internal/store/postgres/sqlc/deployment.sql.go:687-689 | lists exactly the running rows, each once |
| DeploymentTable.DeploymentStore.ListCandidates | api/internal/store/postgres/sqlc/deployment.sql.go:344-349 | lists exactly the rows with a candidate that do not run, each once, by ascending creation time |
| DeploymentTable.DeploymentStore.Newest | api/internal/store/postgres/sqlc/deployment.sql.go:530-535 | the first row of the listing is a newest one |
| RolloutSafety.RunKeepsInv | api/internal/service/deployment.go:401-567 | every interleaving of builds, rollbacks, stops and cancellations, with every pre-commit failure, keeps the rollout invariant |
| RolloutSafety.RunKeepsExclusive | api/internal/service/deployment.go:602-617 | at most one operation is inside the rollout section, whichever calls fail |
| RolloutTheorems.OneRunningRelease | api/internal/service/deployment.go:401-567 | whenever the lock is free at most one row runs, its container exists, and a present route goes to it |
| RolloutTheorems.StaleRollbackCheckIsSafe | api/internal/service/deployment.go:734-758 | re-checking only that the target is not the active row passes exactly when the whole test made before the lock still would |
| RolloutTheorems.ServedForever | api/internal/service/deployment.go:443-567 | once a release is in service, the route goes to a serving container in every later state of every run in which StopApp does not take the route down |
| RolloutTheorems.ServedSincePromotion | api/internal/service/deployment.go:520-567 | after any promotion, a first one included, the same holds until StopApp takes the route down |
| RolloutTheorems.RouteIsSettledFirst | api/internal/service/deployment.go:483-548 | from the route switch on no container and no route is touched before the operation has compensated or committed, whichever calls fail |
| RolloutTheorems.OthersKeepOut | api/internal/service/deployment.go:598-617 | no step of another operation touches the containers, the route or the lock while it is held |
| RolloutTheorems.NothingLeaks | api/internal/service/deployment.go:420-567 | with removals taking effect every container is a running row's or the candidate in hand, and when the lock is free the containers are exactly those of the running rows |
| RolloutTheorems.CompensationIsNeeded | api/internal/service/deployment.go:494-502 | after the route switch, stopping the candidate keeps the route served if and only if the ignored compensating call took effect |
| RolloutTheorems.RetirementIsNeeded | api/internal/service/deployment.go:558-567 | one row runs after the commit if and only if the ignored status write on the replaced row took effect |
| RolloutTheorems.StopMarkIsNeeded | api/internal/service/deployment.go:959-968 | after StopApp removed a container the running rows name existing containers if and only if the status write took effect or the row was not running |
| RolloutTheorems.RunKeepsPortsApart | api/internal/service/deployment.go:423-442 | in no run do two serving containers share a port |
| RowHistory.StatusClasses | api/internal/service/deployment.go:201-209 | a row is cancellable exactly until it has been promoted, failed or been cancelled, and can be returned to exactly if it was promoted and does not run |
| RowHistory.StatementColumns | api/internal/store/postgres/sqlc/deployment.sql.go:734-756 | each UPDATE writes its own columns of its own row, the cancelling ones only on an open row, and nothing else |
| RowHistory.NewRow | api/internal/store/postgres/sqlc/deployment.sql.go:48-52 | a new deployment is pending, names no container and has not been asked to be cancelled |
| RowHistory.StatusTellsHistory | api/internal/service/deployment.go:201-567 | over all runs, whichever calls fail, the status of a row is the last one a call wrote on it: a build supersedes what it replaces, a rollback rolls it back, a stop stops, failures and cancellations are told apart, and no other call writes one |
| RowHistory.SuccessorRuns | api/internal/service/deployment.go:549-567 | a release is superseded or rolled back only when its successor runs, serves and has the route |
| RowHistory.StepKeepsFlag | api/internal/store/postgres/sqlc/deployment.sql.go:777-782 | the cancellation flag goes up exactly with the two cancellation statuses and never comes down |
| RolloutProgress.DeployMoves | api/internal/service/deployment.go:401-567 | whatever its calls answer, a rollout that holds the lock has a next call it can make |
| RolloutProgress.StopMoves | api/internal/service/deployment.go:928-977 | the same for a stop |
| RolloutProgress.OutsidersMove | api/internal/service/deployment.go:598-617 | cancellations and new operations are never held up by the lock, and whoever queues can give up, or enter when it is free |
| RolloutProgress.SectionIsBounded | api/internal/service/deployment.go:401-567 | over all runs, whichever calls fail, a rollout makes fewer than fourteen calls before its last one frees the lock, and a stop fewer than six |
| ControlPlane.Service.constructor | api/internal/service/deployment.go:104-143 | a service starts from any world that satisfies the invariant, with an empty log |
| ControlPlane.Service.NeverUnserved | api/internal/service/deployment.go:443-567 | after every single call of every exit path of builds and rollbacks, by whomever it was made, the route goes to a serving container |
| ControlPlane.Service.Others | api/internal/service/deployment.go:602-617 | any number of steps of others leaves the holder of the lock undisturbed |
| ControlPlane.Service.AcquireRollout | api/internal/service/deployment.go:602-617 | either takes the free lock or changes nothing |
| ControlPlane.Service.ReadActive | api/internal/service/deployment.go:407-413 | takes the snapshot of the active row; a rollback whose target is active goes no further |
| ControlPlane.Service.SaveCandidate | api/internal/service/deployment.go:443-450 | the row records the candidate, or is untouched and the candidate goes to clean-up |
| ControlPlane.Service.RestoreRoute | api/internal/service/deployment.go:496-501 | the route goes back to the previous port, or away when there was no release, or stays when the call fails |
| ControlPlane.Service.CleanUp | api/internal/service/deployment.go:589-596 | the candidate is gone exactly if its removal worked, no other container is, and whatever failed the operation goes on to record its outcome |
| ControlPlane.Service.ChooseMark | api/internal/service/deployment.go:979-990 | a failed build is to be marked failed, one that was cut short cancelled, and the target of a rollback not at all |
| ControlPlane.Service.Conclude | api/internal/service/deployment.go:979-990 | a rollout that did not commit records its outcome and frees the lock with the previous release standing where it stood |
| ControlPlane.Service.Retire | api/internal/service/deployment.go:558-567 | the replaced container is taken away only after the commit, and is the only one to go |
| ControlPlane.Service.Finish | api/internal/service/deployment.go:549-567 | after the commit the row runs the candidate, alone, the route goes to it, and the row it replaced is superseded by a build and rolled back by a rollback |
| ControlPlane.Service.Withdraw | api/internal/service/deployment.go:494-548 | after the route switch every failure ends with the previous release kept, the outcome recorded, the lock free, and exactly the candidate gone if its removal worked |
| ControlPlane.Service.Discard | api/internal/service/deployment.go:443-493 | before the route switch every failure removes the candidate, keeps the previous release and records the outcome |
| ControlPlane.Service.Publish | api/internal/service/deployment.go:443-567 | published, as it is when no call fails, the row is live and what it replaced retired; otherwise the previous release is kept; and exactly the right container is gone |
| ControlPlane.Service.Switch | api/internal/service/deployment.go:483-567 | the same from the route switch on |
| ControlPlane.Service.Commit | api/internal/service/deployment.go:494-567 | the same from the last checks on |
| ControlPlane.Service.LastChecks | api/internal/service/deployment.go:494-519 | a build that finds itself cancelled at its last check records that before it compensates |
| ControlPlane.Service.StartCandidate | api/internal/service/deployment.go:420-567 | with removals that work exactly the candidate has come or, if it was published, the previous container has gone for it |
| ControlPlane.Service.BuildSection | api/internal/service/deployment.go:401-567 | every exit of a build inside the lock settles the app, and frees the lock |
| ControlPlane.Service.RolloutBuild | api/internal/service/deployment.go:401-567 | a build from the lock on, with any interference: it leaves without ever having had the lock, or it is settled, with the containers of the moment it took the lock changed as said; and it is published when no call fails |
| ControlPlane.Service.RollbackSection | api/internal/service/deployment.go:745-893 | every exit of a rollback inside the lock settles the app; a target that became active is left alone |
| ControlPlane.Service.Rollback | api/internal/service/deployment.go:720-893 | the same for a rollback whose target was accepted before the lock, whatever happened meanwhile |
| ControlPlane.Service.FindVictim | api/internal/service/deployment.go:943-958 | the container to stop is that of a newest running row, or, when none runs, that of a newest row of all if it failed; a stop with nothing to do has found neither |
| ControlPlane.Service.TakeDown | api/internal/service/deployment.go:959-969 | on success exactly that container is gone and its row stopped; a failing stop alone is ignored |
| ControlPlane.Service.StopApp | api/internal/service/deployment.go:928-977 | a successful stop, as it is when no call fails, leaves no route and no running row, and every exit a quiet world |
| Recovery.CrashIsRecoverable | api/internal/service/deployment.go:622-656 | a crash at any step leaves a sound route or one to a recorded candidate |
| Recovery.Host.RestoreRoute | api/internal/service/deployment.go:632-647 | the route goes to the row GetActive answers with, or away when there is none or it cannot be read, or stays when the call fails |
| Recovery.Host.CleanUp | api/internal/service/deployment.go:589-596 | stop and then remove, whether or not the stop worked, and no other container |
| Recovery.Host.Settle | api/internal/service/deployment.go:651-652 | without errors the candidate is forgotten and the row failed |
| Recovery.Host.RecoverCandidate | api/internal/service/deployment.go:631-654 | one orphan: the route first, then its container, then its row, which ends failed; a served route stays served at every moment |
| Recovery.Host.RecoverCandidates | api/internal/service/deployment.go:622-656 | without errors, as when no call fails, every orphan is failed and has no candidate, its container is gone, and only orphans were touched |
| Recovery.Host.ReferencedIds | api/internal/service/reconcile.go:37-48 | exactly the ids the given rows name as container or candidate |
| Recovery.Host.ReconcileIds | api/internal/service/reconcile.go:50-71 | the survivors are exactly the referenced, the failed and the unlisted ids, and `removed` counts the rest |
| Recovery.Host.Reconcile | api/internal/service/reconcile.go:21-35 | no container named by a running row or by one with a candidate is removed; without errors every other one is; and the number removed is returned |
| Recovery.WindowIsExact | api/internal/service/deployment.go:549-567 | two rows run, or a running row lost its container, exactly between commit and retirement or between StopApp's removal and its status write |
| Recovery.RecoveredRouteServed | api/internal/service/deployment.go:632-647 | with orphans to recover, the restored route is served if and only if some running row's container was up on the answered row's port when the process died, and goes to a standing container if and only if one stood there |
| Recovery.CommittedIsAnswered | api/internal/store/postgres/sqlc/deployment.sql.go:273-278 | GetActive can answer with nothing but the last committed release if and only if the crash did not fall between a commit and the retirement of a row at least as new as the one promoted |
| Recovery.CommittedIsRestored | api/internal/service/deployment.go:619-647 | then the route goes back to the last committed release, and is served if that was just promoted |
| Recovery.CleanSoFarIsInHand | api/internal/service/deployment.go:622-656 | a start-up cut off before any of its calls failed leaves the route for the next one to settle |
| Recovery.CleanRestartIsSafe | api/internal/service/deployment.go:622-656 | after recovery and reconciliation without errors the protocol's invariant is back if and only if the crash missed the two windows |
| Recovery.Restart | api/cmd/server/main.go:122-131 | crash at any step of any run, any number of start-ups cut off anywhere, then one that works, as it does when no call fails: no candidate and no unreferenced container is left, and the rows that still had one are failed; with the route still in hand it is sound and never went unserved outside the windows, goes to the last committed release unless that replaced a newer one, and otherwise the answered row decides; without, it stays where it was |
| CrashSafety.EveryCrashIsSafe | api/internal/service/deployment.go:589-656 | over whole runs in which forgetting a candidate never failed, recovery can repair a crash at any moment |
| CrashSafety.UnluckyIsReached | api/internal/service/deployment.go:720-893 | a run from a good state to two between commit and retirement with an old candidate on record |
| CrashSafety.UnluckyIsInWindow | api/internal/service/deployment.go:861-893 | those states are served, and yet have an orphan and two running rows of which the replaced one is newer |
| CrashSafety.UnluckyKeepsInv | api/internal/service/deployment.go:720-893 | they keep the protocol's invariant |
| CrashSafety.StaleCandidateBreaksRecovery | api/internal/service/deployment.go:622-656 | after a crash in the later one even a recovery without errors routes to a container that is gone |
| CrashSafety.StoppedContainerIsRouted | api/internal/service/deployment.go:622-656 | after a crash in the earlier one it routes to a container that stands and does not serve |
| CrashSafety.UnluckyRestarts | api/cmd/server/main.go:122-131 | such start-ups without errors exist |
| CrashSafety.HalfStoppedIsReached | api/internal/service/deployment.go:928-966 | a run to a state outside the windows in which StopApp has taken the route down and stopped a container, with an old candidate on record |
| CrashSafety.StoppedAppIsRouted | api/internal/service/deployment.go:622-656 | after a crash there recovery puts the route back, to the stopped container |
| CrashSafety.Switched3IsReached | api/internal/service/deployment.go:443-493 | a run to a state with the route on a candidate not yet promoted, from which recovery is safe |
| CrashSafety.FailedRestore | api/internal/service/deployment.go:632-654 | one start-up whose route write fails removes that candidate and forgets it |
| CrashSafety.FailedRestoreIsFinal | api/internal/service/deployment.go:622-656 | no later start-up repairs the route |
| CancelHandshake.RunKeepsInv | api/internal/service/deployment.go:146-231 | the registry, the flag and the status agree with the run's position in every interleaving |
| CancelHandshake.EmptyLookUpStopsTheRun | api/internal/service/deployment.go:201-231 | when Cancel finds no execution the run starts no build and no container afterwards, unless all its reads of the flag up to the build failed |
| CancelHandshake.EmptyLookUpIsExact | api/internal/service/deployment.go:146-168 | after an empty look-up a continuation that builds or starts a container exists if and only if the run has yet to register and its context is live |
| CancelHandshake.LastCheckDecides | api/internal/service/deployment.go:508-519 | a flag up before the last check keeps the row from being promoted, unless that check fails to read it |
| CancelHandshake.LastCheckIsExact | api/internal/service/deployment.go:508-548 | with the flag up in time the run can still reach running, through a failing last read, if and only if it is under way and its context is live |
| CancelHandshake.LateRequestIsTooLate | api/internal/store/postgres/sqlc/deployment.sql.go:745-756 | a request accepted after the last check does not stop the promotion, if and only if the context is live |
| CancelHandshake.RunningIsTerminal | api/internal/store/postgres/sqlc/deployment.sql.go:734-738 | a running row is never turned into anything else by its run or by any cancel |
| CancelHandshake.CancelledIsTerminal | api/internal/service/deployment.go:658-680 | a cancelled row stays cancelled although the run's status writes are unguarded, unless both first reads of the flag failed |
| CancelHandshake.CancelledIsExact | api/internal/service/deployment.go:310-548 | a cancelled row can be left again if and only if its run is under way, or about to record a failure, with a live context, or is about to record that its build ran out of time |
| CancelHandshake.CancelledIsRevived | api/internal/service/deployment.go:222-226 | it happens: marked by Cancel before the run registers, the row goes back to building |
| CancelHandshake.CancelledIsPromoted | api/internal/store/postgres/sqlc/deployment.sql.go:745-756 | it happens: marked by Cancel just before the promotion, the row ends up running |
| CancelHandshake.FailureIsRecorded | api/internal/service/deployment.go:340-548 | every call that fails for a run with a live context ends it as failed; if the context ends before that is written only a build that ran out of time is still recorded |
| CancelHandshake.InterruptionIsRecorded | api/internal/service/deployment.go:340-548 | with the context done every refused call, abandoned wait and check ends the run as cancelled, apart from the four calls after which nothing is recorded |
| CancelHandshake.FlagIsHonoured | api/internal/service/deployment.go:658-667 | a check that reads the flag up ends the run as cancelled, any other lets it go on |
| CancelHandshake.CancelCourse | api/internal/service/deployment.go:201-231 | a cancel is let in while the row is open, asks, looks the run up, and then ends its context or marks the row, and nothing else |
| CancelHandshake.CancelledMeansAsked | api/internal/service/deployment.go:201-231 | over all runs a row is cancelled, or flagged for it, only after an accepted request or an ended context |
| CancelHandshake.InterruptedNeverFails | api/internal/service/deployment.go:340-380 | once the context is done no run turns its row to failed, unless its build had run out of time |
| CancelHandshake.StopsAtNextCheck | api/internal/service/deployment.go:310-519 | with the flag up and readable a run gets no further than to its next check |
| CancelHandshake.CallsInOrder | api/internal/service/deployment.go:310-567 | a run makes its calls once and in order, with a whole check before the slot, the build, the environment, the lock, the container and the promotion |
| CancelHandshake.WorkIsDoneOnce | api/internal/service/deployment.go:340-442 | over all runs at most one image is built and one container started for it, and a running row has both |
| CancelHandshake.OpenRowIsExact | api/internal/service/deployment.go:330-680 | a run that is over has left its row cancellable, an accepted request unsettled, if and only if its write of `building` or of its outcome failed or was refused and no cancel has marked the row since |
| CancelHandshake.RequestIsNeverSettled | api/internal/service/deployment.go:330-332 | it happens although every call that is not refused works |
| CancelHandshake.SecondRequestSettles | api/internal/service/deployment.go:201-226 | once the run is gone a second request settles such a row for good |
| FifoSlots.RunKeepsOrder | api/internal/service/build_queue.go:34-80 | in every run no more holders than slots, nobody waits beside a free slot, and the grants followed by the line are the arrivals in order less those who gave up |
| FifoSlots.StepMovesUp | api/internal/service/build_queue.go:72-91 | one event moves a waiter up one place if it is a departure, and not at all otherwise |
| FifoSlots.TurnComes | api/internal/service/build_queue.go:34-91 | a waiter with k others ahead is granted after exactly k + 1 departures and stands k - d places back after d |
| BuildQueue.BuildQueue.constructor | api/internal/service/build_queue.go:27-32 | an empty queue with at least one slot |
| BuildQueue.BuildQueue.Enqueue | api/internal/service/build_queue.go:34-39 | an arrival, dispatched at once |
| BuildQueue.BuildQueue.Collect | api/internal/service/build_queue.go:41-43 | a granted waiter gets the one handle for its slot |
| BuildQueue.BuildQueue.Abandon | api/internal/service/build_queue.go:44-55 | a cancelled waiter leaves the line, or returns the slot it was granted in the meantime |
| BuildQueue.ReleaseOnce.Call | api/internal/service/build_queue.go:58-61 | the first call returns the slot, every later one does nothing |
| BuildQueue.BuildQueue.Release | api/internal/service/build_queue.go:63-70 | one slot is returned and the next waiter served; the count is positive, so its guard is never needed |
| BuildQueue.BuildQueue.DispatchLocked | api/internal/service/build_queue.go:72-80 | hands out free slots from the head of the line; no ready channel is closed twice |
| BuildQueue.BuildQueue.RemoveWaiterLocked | api/internal/service/build_queue.go:82-91 | removes exactly the one waiter and keeps the order of the others |
| BuildQueue.BuildQueue.ReadStats | api/internal/service/build_queue.go:93-97 | active is within the limit, and equals it while anybody is queued |
| SlotsAndLocks.ReachedInv | api/internal/service/deployment.go:310-405 | every step of every run keeps slots, locks and program positions in agreement |
| SlotsAndLocks.SlotReturnedBeforeLock | api/internal/service/deployment.go:316-405 | no run holds or awaits a slot while it waits for a lock or holds one, and a finished run holds nothing |
| SlotsAndLocks.OneReturnPerGrant | api/internal/service/deployment.go:316-328 | on every way out a run has returned its slot exactly as often as it was granted one |
| SlotsAndLocks.SectionIsEarned | api/internal/service/deployment.go:316-405 | over all runs a build is in its section only with a slot, a build and a preparation that worked behind it |
| SlotsAndLocks.StraightThrough | api/internal/service/deployment.go:310-567 | and gets there when everything works |
| SlotsAndLocks.WaysOut | api/internal/service/deployment.go:310-405 | a run is given up only at its first check and its two waits, and once past the queue ends through its deferred release |
| SlotsAndLocks.NobodyWaitsForAWaiter | api/internal/service/deployment.go:380-405 | whoever is waited for waits for nobody, so the wait-for relation has no cycle |
| SlotsAndLocks.NoDeadlock | api/internal/service/deployment.go:310-405 | unless every run is finished some run can take a step of its own |
| SlotsAndLocks.EverybodyFinishes | api/internal/service/deployment.go:310-405 | without arrivals the system stops after a bounded number of steps, and only with every run finished |
| CustomDomains.CustomDomainService.SyncRoutes | api/internal/service/custom_domain.go:140-158 | the loop does what the value-level pass does, for every place it can stop, and gets to the end when no call fails |
| CustomDomains.CustomDomainService.RemoveRoutes | api/internal/service/custom_domain.go:160-177 | the same for removal |
| CustomDomains.SyncedRoute | api/internal/service/custom_domain.go:140-158 | a pass that stops anywhere switched the routes it reached and no other |
| CustomDomains.SyncedStatus | api/internal/service/custom_domain.go:140-158 | domain by domain, wherever the pass ends: served and active before the end; on the old route, with the error if that could be recorded, where the route failed; switched with its old record where the record failed; untouched behind it, or if unverified or pending |
| CustomDomains.RemovedStatus | api/internal/service/custom_domain.go:160-177 | the same for removal |
| CustomDomains.SyncedRecord | api/internal/service/custom_domain.go:145-153 | a pass that fails anywhere leaves the same domains eligible, so a later one reaches them again |
| CustomDomains.CompensationRestores | api/internal/service/deployment.go:494-502 | a failed switch followed by a successful one back leaves every eligible domain on the previous port and every other as it was |
| CustomDomains.DanglingAfterFirstBuild | api/internal/service/deployment.go:499-501 | without a previous release the custom routes left on the removed candidate are exactly those the pass reached |
| CustomDomains.NothingDanglesAfterRollback | api/internal/service/deployment.go:805-828 | a rollback's compensation leaves no custom route behind, however the switch had ended |
| MetricsHub.MetricsHub.Subscribe | api/internal/ws/metrics_stream.go:42-58 | joins the registered stream or starts one with one runner |
| MetricsHub.MetricsHub.Unsubscribe | api/internal/ws/metrics_stream.go:60-74 | takes out this subscriber only, once, and with the last one retires the stream |
| MetricsHub.MetricsHub.RunEnds | api/internal/ws/metrics_stream.go:78-88 | unregisters the stream if it is still the current one and closes done, which was open |
| MetricsHub.MetricsHub.Deliver | api/internal/ws/metrics_stream.go:147-160 | with no other runner sending meanwhile, every channel in the copied set gets the frame, whether or not its subscriber has left since |
| MetricsHub.MetricsHub.Publish | api/internal/ws/metrics_stream.go:134-161 | with no other runner sending meanwhile, the frame of any live runner, stale or not, goes to every subscriber of the stream now registered for its container |
| MetricsHub.StaleRunnerPublishes | api/internal/ws/metrics_stream.go:60-161 | two live runners of one container exist after a short visit, and the cancelled one's frame reaches the new subscriber |
| MetricsHub.OneLiveRunner | api/internal/ws/metrics_stream.go:42-88 | at most one uncancelled runner per container, and its stream is registered and has a subscriber |
| MetricsHub.NobodyWaitsInVain | api/internal/ws/metrics_stream.go:60-88 | whoever has not unsubscribed is in a registered stream with a live runner, or its done is closed |
| FrameChannel.FrameChannel.Receive | api/internal/ws/metrics_stream.go:238-248 | the consumer gets the oldest frame, in publication order |
| FrameChannel.FrameChannel.Offer | api/internal/ws/metrics_stream.go:147-160 | with one publisher and any consumer the frame always gets in, the buffer stays a contiguous end of what was published, and at most one older frame is lost, none when there was room |
| FrameChannel.ThreeSelects | api/internal/ws/metrics_stream.go:147-160 | a publisher is never held up, and its frame is sent or lost after at most three selects, depending on the room there is |
| FrameChannel.TrafficKeepsOrder | api/internal/ws/metrics_stream.go:147-160 | over all interleavings of any publishers and the consumer the buffer is a contiguous end of what got in, and the consumer receives in that order |
| FrameChannel.RetryIsExact | api/internal/ws/metrics_stream.go:147-160 | over all these interleavings a publisher that made room never gets its frame in if and only if the others' sends since, less all that was taken out since, refilled the buffer |
| FrameChannel.LossIsExact | api/internal/ws/metrics_stream.go:147-160 | the newest frame is lost if and only if a publisher makes room while it is the only one left, or a retry finds the buffer full, and nothing has got in since; it is kept throughout if and only if neither ever happens |
| FrameChannel.NewestIsLost | api/internal/ws/metrics_stream.go:147-160 | from any full buffer two publishers can end with the frame of one refused |
| FrameChannel.NewestIsDropped | api/internal/ws/metrics_stream.go:147-160 | from any full buffer two publishers can both get in and the newer frame be dropped unread |
| RateLimiter.SpaceCodes | api/internal/handler/middleware/ratelimit.go:53 | the characters that are trimmed, by code point |
| RateLimiter.NormalizeExact | api/internal/handler/middleware/ratelimit.go:53-56 | the normal form of a key is the one part of it that has no spaces at its ends and only spaces around it, and "unknown" if it is nothing but spaces |
| RateLimiter.CallersApart | api/internal/handler/middleware/ratelimit.go:49-97 | two callers whose keys have no spaces around them never share an entry, and one's call changes the other's only by evicting it |
| RateLimiter.NormalForm | api/internal/handler/middleware/ratelimit.go:53-56 | a key in use is never empty and is its own normal form, so the empty sentinel in the eviction is exact |
| RateLimiter.DenialIsExact | api/internal/handler/middleware/ratelimit.go:60-68 | a call is denied exactly within a window whose limit is used up; a clock set back begins a new one |
| RateLimiter.RateLimiter.constructor | api/internal/handler/middleware/ratelimit.go:32-45 | the limit is at least one and the window positive |
| RateLimiter.RateLimiter.Allow | api/internal/handler/middleware/ratelimit.go:49-97 | verdict, delay and the caller's entry follow the single-key step; the rest of the table changes by eviction only |
| RateLimiter.RateLimiter.Evict | api/internal/handler/middleware/ratelimit.go:74-96 | expired entries go, then an oldest live one, then no more than needed |
| RateLimiter.RateLimiter.DropExpired | api/internal/handler/middleware/ratelimit.go:75-86 | exactly the live entries stay, and an oldest of them is found |
| RateBounds.CountIsExact | api/internal/handler/middleware/ratelimit.go:60-71 | the stored count is exactly the number of calls admitted in the current window, and at most the limit |
| RateBounds.RateBound | api/internal/handler/middleware/ratelimit.go:60-71 | at most 2 * limit - 1 calls are admitted in any half-open interval of one window length |
| RateBounds.RateBoundIsReached | api/internal/handler/middleware/ratelimit.go:60-71 | that bound is tight for every limit and every window of at least two units |
| RateBounds.DelayIsExact | api/internal/handler/middleware/ratelimit.go:61-63 | a denial's delay is within the window, and whatever is tried meanwhile a call is admitted if and only if the delay has passed |
| RateBounds.EvictionIsMinimal | api/internal/handler/middleware/ratelimit.go:70-97 | an insertion leaves at most 1024 entries; of a table that fitted before, it costs at most expired entries and one oldest live one |
| RateBounds.TableStaysBounded | api/internal/handler/middleware/ratelimit.go:70-97 | no table of any run holds more than 1024 clients |
| RateBounds.TableRefinesReplay | api/internal/handler/middleware/ratelimit.go:49-97 | while a key's running window is not evicted the table answers as if the key were alone |
| LineWriter.LineWriter.IndexByte | api/internal/ws/log_stream.go:196 | the first occurrence, or -1 |
| LineWriter.LineWriter.Write | api/internal/ws/log_stream.go:193-206 | emits the terminated lines of buffer and chunk, trimmed and in order, and keeps the rest without a newline |
| LineWriter.LineWriter.Flush | api/internal/ws/log_stream.go:208-214 | emits the unterminated rest as it is, if any |
| LineWriter.Reconstruct | api/internal/ws/log_stream.go:193-206 | lines and rest put together again are the input, with no stray newline |
| LineWriter.OnlySplit | api/internal/ws/log_stream.go:193-206 | there is only one way to cut a stream into lines |
| LineWriter.ChunkIndependence | api/internal/ws/log_stream.go:193-206 | however the stream is cut into writes, the lines and the buffer are those of one write of the whole |
| LineWriter.TrimRightExact | api/internal/ws/log_stream.go:201 | trimming removes the carriage returns at the end of a line and nothing else |
| LineWriter.Example | api/internal/ws/log_stream.go:193-206 | the bytes of one line with its return and newline, and of a rest |
| LineWriter.FlushKeepsReturn | api/internal/ws/log_stream.go:208-214 | a last line keeps its carriage returns, a terminated one does not |

## Left out

- RolloutMachine models one application: rows, containers, routes and locks of different applications are disjoint. `SlotsAndLocks` has many.
- Custom-domain routes are not part of the rollout machine; whether their update succeeds is a free choice there, and `CustomDomains` models it exactly, with the app's domains fixed during a rollout.
- The cancellation flag is abstract in the rollout machine (a check may see it at any time); `CancelHandshake` has it exactly, for one run of one deployment, and ends the run's context at any time. A second concurrent run of the same deployment is not modelled.
- Waiting for a rollout lock is one attempt after any amount of interference; `SlotsAndLocks` models the waiting itself.
- The legacy branches are left out: stores without candidate columns (`UpdateRunning`), the non-atomic `UpsertRoute`, and `buildSlots`, which the constructor never sets.
- The health checker and `CustomDomainService.Verify` do not take the rollout lock; no rollout property holds across them, so they are not in the interleavings.
- App status, public URL, rollback history, deployment events and image pruning are not modelled: no decision of the protocols reads them.
- The contents of clones, archives and images; a clone and a build are calls that may fail, and a build may run out of time.
- Text of errors and log messages, and which of several errors is joined.
- The row a crash interrupts inside one SQL statement or one Caddy request: each is one atomic step.
- MetricsHub: the contents of a frame, which is a number here.
- RateLimiter: a nil limiter, and the saturation of durations beyond 292 years.
- ControlPlane.Service: its one-call methods each tie one call and its outcome to one label of the transition system; they and the plain UPDATE statements of DeploymentStore are not listed above.
- MetricsHub.MetricsHub.Deliver: sends of another runner between its own are not in this contract; `FrameChannel` has them, for each channel.
- MetricsHub.MetricsHub.Publish: the same.
- LineWriter: bytes are kept as bytes; the conversion to a Go string does not change them.
- Deleting an application and its rows.
- HTTP handlers, authentication, the real Docker, Caddy, GitHub and Postgres clients, the dashboard and the CLI.
