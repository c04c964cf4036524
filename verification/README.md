# GoblinDock: a verified model of its lifecycle protocol, recipe compiler and allocators

GoblinDock drives Proxmox virtual machines through a durable job queue. Two worker threads,
concurrent HTTP handlers, a process that may crash at any point and a remote cluster that answers
late or not at all act on the same tables. This project models that protocol as a state machine and
proves what holds in every run; beside it stand the recipe compiler, the address allocator, the lock
registry and the two caches. `dafny verify dfyconfig.toml` checks everything.

## How the project is organised

| modules | subject |
|---|---|
| `Rows`, `Machine` | the three tables, each transaction on them, and every step of handlers, job worker, waiting worker, reconciliation, clean-up retry, cluster, crash and restart |
| `CoreSafety`, `RunSafety` | one active job, final statuses, a post-boot plan that is never replayed: all runs, no hypothesis |
| `Guards`, `GuardSteps`, `GuardRest`, `GuardOrder`, `GuardedRuns` | every VM that exists or may still land is named by its row, in all runs in which five kinds of step look at the tables once more |
| `Ownership`, `OwnershipSteps`, `OwnershipRest`, `NoOrphans` | the same where operation keeps to four rules, with all that is then known of rows, jobs and evidence |
| `Tasks`, `Release`, `Patience` | rows are released only with proof: no VM, no request, no remote task still running; and what that asks of whoever goes on with a deployment |
| `StrandSteps`, `Strands` | no deployment is left marked as working with nobody working on it |
| `Transitions`, `Verdicts` | what every step writes on jobs and rows, and what every reconciliation makes of the row it looked at, as tables of literal results |
| `Successes`, `Spoils`, `SpoilRuns` | what a job that succeeded leaves: its deployment up, or after a destroy nothing; and the exact condition of the former |
| `Races`, `SharedVmids` | the exact conditions at the places where the code leaves a window |
| `Runs`, `OvertakenRuns`, `StrandRuns`, `TaskRuns` | short runs through these windows, so that none of the guards and rules below can be done without, but perhaps that on purging |
| `Store`, `Refinement` | the worker's routines and the handlers as methods that update the tables in place; each routine is a sequence of machine steps, each handler one step |
| `Probe` | how the tri-state evidence is obtained from the guest listing and the id registry |
| `LockRegistry` | the reference-counted registry of per-deployment locks and the order of the three locks |
| `StaticPool`, `Leases` | static address pools, the allocator, and the read-only preview |
| `Inventory`, `ImageCache` | the background inventory cache and the base image cache |
| `Scanner`, `Redactor`, `References`, `Placeholders`, `Tagging` | text substitution, log redaction, secret references, template filling, provenance tags |
| `Placement`, `DeployInputs`, `Bundles`, `SecretMigration` | placement addresses and answer merging, answer validation, bundle export and import, the credential migration |

## The hypotheses of the lifecycle model

A step of `Machine` is one committed transaction, one remote call, or one event in the cluster; all
interleavings of steps are runs. Some steps are coarser: the first half of a reconciliation takes its
two transactions and the look at the remote task together; a remote task is submitted and recorded in
one step; a VMID is found free and written in one step; and a power action, a confirmation and a local
clean-up, which the code runs under the lock of their deployment, are one step each with the remote
call in them. Of the environment the model assumes:

- an accepted create registers its VMID at once; a create whose response was lost may land later or
  never; a create answered with a 4xx status never lands;
- a probe reports presence and absence truthfully or says unknown (`Probe` shows why the code may
  rely on that), and a task reported as stopped has stopped;
- one connection, which does not change during a run; row ids are never reused; a transaction that
  is begun is committed; a job row is not purged while its reconciliation runs.

`RunSafety` needs nothing more. What the other theorems need comes in two forms.

*Guards* are conditions on one step, to be checked before it (`Guards.Guarded`). A
local-only clean-up and a clean-up retry need the tables to tell that no create can still land; a
confirmation of an uncertain identity has to be truthful; a commit that comes after its job has ended
drops the row only if no newer job of the deployment submitted a create or may be about to; a job that
submitted a create is not purged while an older job of its deployment is still reconciled. Every other
step, in any order and however long it takes, is as in the code. The first four guards are exact
(`Races`): weaker ones would let some continuation orphan a VM.

*Operating rules* are what operation would have to see to instead (`Ownership.Disciplined`): no handler
changes a deployment while a reconciliation that outlives its job runs on it; confirmations are
truthful; local-only clean-up is not used on an identity that is `submitting`; a freshly selected VMID
is on no other row (the code looks only at the cluster, app/proxmox.py:360-366). Where the rules are
kept the guards hold by themselves (`GuardedRuns.RulesAreGuards`). `Release` adds that the newest job's
recorded task has stopped before a job is admitted, a clean-up retry starts, or a record is cleaned up
locally (`Tasks.Patient`); `Strands` adds that the process does not crash between a terminal status and
the reconciliation that follows it.

`_execute` keeps the job active until its reconciliation ends, so its reconciliations need none of
this. `_finish_waiting_error`, the queued-cancel branch of `_claim_next_job` and `_recover_orphans`
commit the terminal status first (app/worker.py:1652-1665, 1082-1111, 1761-1776); the model takes their
steps one by one, and admits new jobs from the terminal status on.

## What was found

- A reconciliation that outlives its job can be overtaken: a cancelled waiting deploy is seen gone, a
  rebuild is admitted and builds the VM anew, and then the late commit drops the row of an existing VM
  (`OvertakenRuns.LateCommitCanOrphan`). It is no better if the commit comes before the rebuild has
  marked its create: the rebuild keeps its VMID in a local variable, skips the missing row, and sends the
  request all the same (`OvertakenRuns.LateCommitCanForestall`). Judged by everything that may follow,
  such a commit is safe exactly when the row is gone or names another VMID, none was looked up, or no
  newer job of the deployment has submitted a create or is running and may be about to
  (`Races.LateCommitSafeIff`).
- Such a commit can also spoil a success: a rebuild writes its deployment up, the late commit of the
  cancelled job before it marks the row for clean-up, and the rebuild is recorded as succeeded
  (`SpoilRuns.LateCommitCanSpoil`). Between these two transactions the deployment stays up, however it
  goes on, exactly when no reconciliation may still write its row (`Spoils.StaysUpIff`). A destroy that
  succeeds leaves nothing in every run (`Successes.DestroyLeavesNothing`).
- Local-only clean-up reports "upstream absence confirmed" after a probe, but does not look at the
  identity state: a create whose response was lost can land after the row is gone
  (`Runs.LocalCleanupCanOrphan`). It is safe exactly when the identity is not `submitting` or there is no
  VMID (`Races.LocalCleanupSafeIff`). The same holds of a clean-up retry, which a late commit can set on a
  row with a lost create (`OvertakenRuns.RetryCanOrphan`, `Races.RetrySafeIff`).
- A confirmation of an uncertain identity is safe exactly when the visible VM is the deployment's own;
  with another VM under that VMID a later clean-up can orphan a create (`Races.ConfirmSafeIff`,
  `Runs.ConfirmationCanOrphan`).
- "Released only after the remote task has stopped" holds of the task of the job at work, not of those
  before it. A clean-up retry records its task and waits; after a crash the next retry never looks at
  that task, and drops the row while it is running (`TaskRuns.RetryCanForgetTask`). Over all states that
  look the same on the deployment, going on with it is safe exactly when the task of its newest job has
  stopped (`Patience.PatienceIsExact`).
- A selected VMID that another row holds orphans nothing, but lets the best-effort destroy find that
  other row: every destroy to come finds its own row exactly when no other row holds the VMID
  (`SharedVmids.SelectSafeIff`), and otherwise a deployment can stay "working" for good without any crash
  (`StrandRuns.SharedVmidCanStrand`).
- Recovery is documented to keep deployments from staying "working" forever. A crash right after a
  terminal status was committed leaves one so (`StrandRuns.CrashCanStrand`); the exact condition is
  `Strands.CrashStrandsIffAtRisk`.
- Redaction can write a secret. For the masks of a set, applied in any order and number, every line is
  safe exactly when no mask is empty, starts or ends with a star, or contains the mask text
  (`Redactor.RedactionIsCompleteIff`). For the one longest-first list that is applied this is sufficient,
  not necessary: it is enough that each mask contains one of that kind (`Redactor.PartsAreEnough`).
- The identity check before a lock entry is deleted never fails (`LockRegistry.LastUserDeletes`).
- A preview differs from the allocation exactly when a stored address is not in canonical spelling
  (`Leases.PreviewDiffersIffSpelling`, `Leases.SpellingMakesADifference`).

## Model

| member | source | states |
|---|---|---|
| CoreSafety.CoreStep | app/worker.py:1073-1174 | every step of any thread, handler, crash or restart keeps the core invariant and moves statuses forward only |
| CoreSafety.HttpStep | app/api.py:1109-1121 | admission, cancellation, power, confirmation, local clean-up and pruning keep the core invariant, because admission is guarded by the absence of an active job |
| CoreSafety.WorkStep | app/worker.py:1073-1174 | claiming and executing a job keeps the core invariant |
| CoreSafety.WaitStep | app/worker.py:1578-1694 | the waiting worker's resumptions, time-outs, cancellations and successes keep the core invariant |
| CoreSafety.RecStep | app/worker.py:1371-1488 | reconciliation steps keep the core invariant |
| CoreSafety.CleanStep | app/worker.py:1506-1537 | clean-up retries keep the core invariant |
| CoreSafety.ClusterStep | app/worker.py:1756-1776 | crash, restart and all cluster events keep the core invariant |
| RunSafety.OneActiveJob | app/api.py:1109-1121 | in every reachable state two active jobs of one deployment are the same job |
| RunSafety.PlanStartedAtMostOnce | app/worker.py:1578-1626 | the captured post-boot plan of a job is started at most once over all deferrals, resumptions, crashes and restarts |
| RunSafety.CanceledOnlyOnRequest | app/worker.py:1127-1174 | a job ends as cancelled only if cancellation was requested |
| RunSafety.StatusesMoveOn | app/worker.py:1073-1174 | from any point of a run on, a terminal status is never overwritten, no job returns to the queue, and ids are not reused |
| Transitions.StatusTable | app/worker.py:1073-1174 | which steps change the status of a job, and to what, in every reachable state: a claim, a deferral, a resumption, a success, a finished replay of a job that still runs, a time-out that fails it, an abort, the end of a reconciliation, a restart |
| Transitions.CreateTable | app/worker.py:128-137 | which steps change a create state, and to what; nothing changes what a job is about, and a new job is queued under the next id |
| Transitions.PhaseTable | app/worker.py:731-785 | through which phases a thread executes its job, and which steps end or begin a thread |
| Transitions.RecTable | app/worker.py:1371-1488 | which steps start a reconciliation, on whose behalf, and through which phases it goes: only a cancelled deploy with a VMID destroys before it looks, an unconfirmed destroy ends it |
| Transitions.RetryTable | app/worker.py:1506-1537 | the same of a clean-up retry |
| Transitions.RemoteTable | app/worker.py:758-773 | which steps change what the cluster holds: a request is in flight from its sending until it is answered, lands late or is lost, a VM comes with an accepted or late create, a recorded task runs until it stops |
| Transitions.RowTable | app/worker.py:1578-1646 | what handlers and workers write on a row: a success up, a time-out an error, a power action the power state, a confirmation an accepted identity and the end of a pending clean-up, each with VMID and everything else kept |
| Transitions.AdmittedDeploy | app/api.py:1180-1195 | an admitted deploy is one new working row without VMID, its reservation if and only if the network is static, and one queued job that submitted nothing |
| Transitions.AdmittedJob | app/api.py:1269-1342 | an admitted job is queued with its deployment marked working; a configuration retry counts as created and keeps the clean-up origin |
| Transitions.AdmissionIff | app/api.py:1109-1121 | a request or a clean-up retry is admitted if and only if every job of the deployment is over, its identity is known, and, for a request, no clean-up is pending and a configuration retry has a VM |
| Verdicts.CanceledCommit | app/worker.py:1395-1444 | what the commit of a cancelled job writes, for every kind, presence, create state and power state read: dropped, the power state that was read, an error, or a pending clean-up of that kind; VMID, identity and every other row kept; nothing at all on a row renamed meanwhile |
| Verdicts.FailedCommit | app/worker.py:1466-1488 | what the commit of a failed job writes: dropped for a destroy whose VM is gone, otherwise an error, without its address for a deploy whose VM is not there |
| Verdicts.RetryCommit | app/worker.py:1524-1537 | what a clean-up retry writes: dropped, stopped when a destroy left the VM, or pending with its origin as before |
| Verdicts.ChecksOut | app/worker.py:1347-1391 | an unsettled task puts the identity in doubt, a doubtful identity stops the reconciliation with an error, and otherwise nothing is written |
| Verdicts.TearMoves | app/worker.py:1263-1304 | a submitted task goes on the newest job of the row that holds the VMID, an unconfirmed end puts that row in doubt, and nothing else is written |
| Verdicts.CanceledRoutine | app/worker.py:1371-1444 | the uninterrupted routine of a cancelled job that got past its checks and its destroy leaves the tables of that verdict |
| Verdicts.FailedRoutine | app/worker.py:1447-1488 | and that of a failed job those of its own |
| Verdicts.EveryCommit | app/worker.py:1371-1488 | in every run within the operating rules every commit of a reconciliation finds the row it looked at and gives its verdict on it |
| Verdicts.EveryRetry | app/worker.py:1506-1537 | and so does every clean-up retry |
| Successes.DestroyLeavesNothing | app/worker.py:972-1009 | in every run, a destroy that is recorded as succeeded leaves neither row nor reservation |
| Successes.SuccessIsUp | app/worker.py:859-865 | in every run within the operating rules, a deploy, rebuild or configuration retry that is recorded as succeeded, by either worker, leaves its deployment up, with the VMID and identity it had and no clean-up origin |
| Spoils.StaysUpIff | app/worker.py:859-865 | without these rules: from the row written up to the job recorded as succeeded the deployment stays up, however it goes on, if and only if no reconciliation may still write its row |
| SpoilRuns.LateCommitCanSpoil | app/worker.py:1647-1666 | a run in which a rebuild succeeds and leaves its deployment pending clean-up, because the late commit of the job before it came in between |
| Ownership.OneDep | app/worker.py:731-785 | a step that touches one live job and its deployment, and restores what concerns them, restores the whole ownership invariant |
| OwnershipSteps.SelectKept | app/worker.py:731-737 | writing a selected VMID that is on no other row keeps ownership in order |
| OwnershipSteps.MarkKept | app/worker.py:758-762 | the create state is marked before the request is sent, so a request is only ever in flight for a row marked submitting |
| OwnershipSteps.AcceptKept | app/worker.py:769-773 | an accepted create leaves its VM named by the row and nothing in flight |
| OwnershipSteps.RejectKept | app/worker.py:763-768 | a create refused with a 4xx status leaves nothing in flight |
| OwnershipSteps.ClearKept | app/worker.py:680-688 | the VMID is given back only after a create that was never submitted or was refused, when the deployment has no VM and no request |
| OwnershipSteps.CheckKept | app/worker.py:1347-1391 | stopping on an unsettled task or a lost response marks the row for recovery and keeps its VMID |
| OwnershipSteps.TearKept | app/worker.py:1263-1304 | each move of the best-effort destroy, be it a task submitted and recorded or its end, hits the row being reconciled and keeps ownership in order, a crash between two moves included |
| OwnershipSteps.CommitFailedRow | app/worker.py:1466-1488 | after a failed job the row is in error, or dropped on absence |
| OwnershipSteps.CommitCanceledRow | app/worker.py:1395-1444 | after a cancelled job the row has a final status, a pending clean-up has an origin, and it is dropped only on absence |
| OwnershipSteps.CommitKept | app/worker.py:1371-1488 | the commit of a reconciliation keeps ownership in order for every job type, presence and create state |
| OwnershipRest.ConfirmOwn | app/operations.py:171-216 | a confirmation keeps ownership in order while no create of an uncertain deployment can still land |
| OwnershipRest.TruthOwn | app/operations.py:171-216 | a truthful confirmation keeps ownership in order: the VM is there, so nothing else can land |
| OwnershipRest.PendingIsQuiet | app/worker.py:1491-1503 | nobody works on a deployment that is pending clean-up while the job worker retries it |
| OwnershipRest.CommitCleanupRow | app/worker.py:1524-1537 | a clean-up retry drops the row exactly on absence, and otherwise keeps it, stopped only when a destroy left the VM present |
| OwnershipRest.CleanOwn | app/worker.py:1491-1537 | each step of a clean-up retry, its destroy taken move by move, keeps ownership in order |
| OwnershipRest.LandOwn | app/worker.py:758-773 | a create that lands late is still named by its row |
| OwnershipRest.RecoverOwn | app/worker.py:1756-1776 | restart recovery keeps ownership in order |
| NoOrphans.OwnStep | app/worker.py:691-785 | every step that follows the operating rules keeps the ownership invariant |
| NoOrphans.NoOrphanEver | app/worker.py:731-785 | in every reachable state of a run that keeps to the operating rules each VM that exists or may still land is named by its deployment row |
| GuardSteps.CommitSound | app/worker.py:1395-1488 | a commit of a reconciliation, guarded if its job has ended, keeps every deployment in order, whoever overtook it |
| GuardSteps.SendSound | app/worker.py:758-773 | sending the request keeps the deployment in order: the row names it, and every late reconciliation finds a newer create in the tables |
| GuardRest.RetriesSound | app/worker.py:1491-1537 | a guarded clean-up retry keeps every deployment in order |
| GuardedRuns.SoundStep | app/worker.py:691-785 | every guarded step of any thread, handler, crash or restart keeps the invariant |
| GuardedRuns.NoOrphanWhenGuarded | app/worker.py:731-785 | in every state of every run of guarded steps each VM that exists or may still land because of a create request is named by its deployment row |
| GuardedRuns.RulesAreGuards | app/api.py:1109-1121 | where the operating rules are kept every step meets its guard |
| Release.InOrderStep | app/worker.py:1225-1304 | within the rules only the newest job of a deployment has a task still running, and while a retry runs only the task it submitted last |
| Release.ReleaseNeedsProof | app/worker.py:1225-1304 | in every run within the rules, whenever a row is dropped or its VMID cleared, the deployment has no VM, no request in flight, and no recorded task of any of its jobs is still running |
| Patience.PatienceIsExact | app/worker.py:1506-1537 | an admission, a clean-up retry or a local clean-up leads to no release with a task running, in any state that looks the same on the deployment, if and only if the task of its newest job has stopped |
| StrandSteps.CommitAnswers | app/worker.py:1371-1488 | the commit of a reconciliation writes a status other than working, or drops the row |
| Strands.NeverStranded | app/worker.py:1116-1174 | in every reachable state a deployment marked working has an active job or a reconciliation in progress |
| Strands.LeftInFinalStatus | app/worker.py:1240-1304 | once nobody works on a deployment it is up, stopped, in error, or pending clean-up with its origin recorded, or dropped, whatever became of its job; which of them it is, `Verdicts` and `Successes` say |
| Strands.CrashStrandsIffAtRisk | app/worker.py:1756-1776 | a crash strands no deployment if and only if no reconciliation that outlives its job still owes a status |
| Races.LocalCleanupSafeIff | app/api.py:1371-1416 | after a verified local clean-up nothing is orphaned, in any state in order with these tables and however it goes on, if and only if the identity is not submitting or there is no VMID |
| Races.LateCommitSafeIff | app/worker.py:1400-1403 | after a late commit on proof of absence nothing is orphaned, in any state that looks the same to it and however it goes on, if and only if the row is gone or names another VMID, none was looked up, or no newer job submitted a create or may be about to |
| OvertakenRuns.LateCommitCanOrphan | app/worker.py:1647-1666 | a run of guarded steps but for its last, a late commit that drops the row of a VM that a rebuild has built meanwhile |
| OvertakenRuns.LateCommitCanForestall | app/worker.py:731-773 | a late commit orphans nothing at once, but the rebuild that has chosen its VMID goes on without row and sends its create |
| OvertakenRuns.RetryCanOrphan | app/worker.py:1506-1537 | a late commit marks a row with a lost create for clean-up, and the retry drops it |
| Races.RetrySafeIff | app/worker.py:1506-1537 | after the start of a clean-up retry nothing is orphaned, in any state in order with these tables and however it goes on, if and only if they tell that no create can still land |
| Races.ConfirmSafeIff | app/operations.py:171-216 | after a confirmation nothing is orphaned, in any state in order with these tables and VMs and however it goes on, if and only if the identity is not submitting or the visible VM is the deployment's own |
| SharedVmids.SelectSafeIff | app/worker.py:731-737 | after a deploy wrote its VMID every best-effort destroy to come, however it goes on within the rules, finds the row it is done for, if and only if no other row holds the VMID |
| Runs.LocalCleanupCanOrphan | app/api.py:1371-1416 | a run whose steps all follow every rule, except the last, ends with a request whose row is gone |
| Runs.ConfirmationCanOrphan | app/operations.py:171-216 | a run whose steps all follow every rule, except a mistaken confirmation, ends with a request whose row is gone |
| StrandRuns.CrashCanStrand | app/worker.py:1080-1111 | a run whose steps all follow every rule, with one crash after a queued cancellation, ends with a stranded deployment |
| StrandRuns.SharedVmidCanStrand | app/worker.py:1276-1304 | a run without crash, in which one deploy selects the VMID of another's lost create and is cancelled, ends with a stranded deployment |
| TaskRuns.RetryCanForgetTask | app/worker.py:1506-1537 | a run with one crash, all of whose steps but the start of the second retry follow every rule, drops a row while a recorded task is running |
| Store.Database.AdmitDeploy | app/api.py:1180-1195 | an admitted deploy inserts one working row, its reservation and one queued job under fresh ids: the transaction of the machine step |
| Store.Database.AdmitRequest | app/api.py:1269-1342 | rebuild, destroy and configuration retry are refused for the first of their guards that applies, in the order of each handler, and otherwise queue one job |
| Store.Database.AdmitRetry | app/operations.py:223-238 | a clean-up retry is accepted exactly without an uncertain identity, an active job or a disabled source, and changes nothing when refused |
| Store.Database.ConfirmVm | app/operations.py:171-216 | the answer is that of the first guard that applies, a call that only looks changes nothing, and a confirmation goes through exactly for a listed VM of an idle deployment on a connection that is there and enabled, with nothing in doubt or its task stopped |
| Store.Database.CleanUpLocally | app/api.py:1371-1416 | the record is dropped exactly when idle and probed absent, or unverified with an administrator's acknowledgement |
| Store.Database.ActiveJob | app/api.py:1109-1114 | finds the newest active job of a deployment, if there is one |
| Store.Database.OldestQueued | app/worker.py:1076-1081 | finds the queued job with the smallest id |
| Store.Database.NewestJob | app/operations.py:181 | finds the newest job of a deployment |
| Store.Database.SetDepStatus | app/worker.py:1240-1260 | the guarded status write, which keeps or clears the clean-up origin |
| Store.Database.ClearSelectedVmid | app/worker.py:680-688 | a VMID is given back only from the row that still holds it |
| Store.Database.RecordCreation | app/worker.py:128-137 | the create state goes to the job and through to its deployment |
| Store.Database.BestEffortDestroy | app/worker.py:1263-1304 | tasks go to the newest job of the row found by VMID, and an unconfirmed one distrusts that row |
| Store.Database.RetainUncertain | app/worker.py:1347-1391 | reconciliation goes on only with a settled task and a known create response |
| Store.Database.ReconcileFailedJob | app/worker.py:1447-1488 | in-place reconciliation of a failed job is check, look, commit, with the result that `Verdicts.FailedRoutine` spells out |
| Store.Database.ReconcileCanceledJob | app/worker.py:1371-1444 | in-place reconciliation of a cancelled job is check, destroy of a half-built VM, look, commit, with the result that `Verdicts.CanceledRoutine` spells out |
| Store.Database.RetryCleanupDeployment | app/worker.py:1506-1537 | one clean-up retry, when due, by its recorded origin |
| Store.Database.ClaimNextJob | app/worker.py:1073-1113 | the oldest queued job is claimed, or honoured as cancelled, or failed when its source is disabled |
| Store.Database.Execute | app/worker.py:1116-1174 | the terminal status of a raised job is written after its reconciliation, on top of its result |
| Store.Database.FinishWaitingError | app/worker.py:1647-1666 | a waiting or running job gets its terminal status first and is reconciled second; any other is left alone |
| Store.Database.RecoverOrphans | app/worker.py:1756-1776 | exactly the running jobs are failed and then reconciled one after the other |
| Store.RequestIsAdmission | app/api.py:1269-1342 | what the guards let through the machine admits, to the same tables; without obstacles outside the tables that is all it admits |
| Store.RequestIsQueuedIff | app/api.py:1269-1342 | when a request is queued, in terms of the tables and of what the handler finds outside them; a destroy is reported as already queued only by an active destroy of that deployment |
| Store.ConfirmationIsStep | app/operations.py:171-216 | with true evidence the handler confirms only what the machine lets it confirm, and all of that when nothing outside the tables is in the way |
| Store.RetryIsAdmission | app/operations.py:223-238 | the guards of a clean-up retry let through exactly what the machine admits |
| Store.LocalCleanupIsStep | app/api.py:1371-1416 | a verified clean-up is a machine step, and the machine cleans up only what a definite probe reports absent |
| Refinement.FailedIsSteps | app/worker.py:1447-1488 | an uninterrupted failed reconciliation is a sequence of machine steps |
| Refinement.CanceledIsSteps | app/worker.py:1371-1444 | an uninterrupted cancelled reconciliation, destroy included, is a sequence of machine steps |
| Refinement.ClaimIsSteps | app/worker.py:1073-1113 | claiming, with the reconciliation of a job that is not executed, is a sequence of machine steps to the tables of the method |
| Refinement.ExecutionIsSteps | app/worker.py:1139-1173 | the end of a failed or cancelled job in every phase, from the VMID given back to the final status, is a sequence of machine steps |
| Refinement.WaitEndIsSteps | app/worker.py:1647-1666 | the end of a waiting or resumed job, final status first, is a sequence of machine steps |
| Refinement.CleanupIsSteps | app/worker.py:1506-1537 | a clean-up retry, destroy included, is a sequence of machine steps |
| Refinement.RecoveryIsSteps | app/worker.py:1756-1776 | both halves of restart recovery are a sequence of machine steps: one that fails the running jobs, and the reconciliation of each in turn |
| Refinement.CanceledRoutineKeepsOwnership | app/worker.py:1371-1444 | the tables that the cancelled routine leaves orphan no VM, whatever the cluster truthfully answered |
| Refinement.FailedRoutineKeepsOwnership | app/worker.py:1447-1488 | the tables that the failed routine leaves orphan no VM |
| Refinement.ExecutionKeepsOwnership | app/worker.py:1139-1173 | the tables that the end of an executed job leaves orphan no VM, whatever the cluster truthfully answered |
| Refinement.WaitEndKeepsOwnership | app/worker.py:1647-1666 | nor do those that the end of a waiting job leaves, if nothing comes in between |
| Refinement.CleanupKeepsOwnership | app/worker.py:1506-1537 | nor those of a clean-up retry |
| Refinement.RecoveryKeepsOwnership | app/worker.py:1756-1776 | nor those of restart recovery |
| Refinement.RecoverySettles | app/worker.py:1756-1776 | after recovery no job is running and every deployment of an interrupted job is in error or dropped |
| Probe.ListGuests | app/proxmox.py:191-220 | a listing is used exactly when it is permitted, every identity is complete and no id occurs twice |
| Probe.ProbeVmPresence | app/proxmox.py:834-850 | absent and present are reported exactly on complete evidence, everything else is unknown |
| Probe.FindVmNode | app/proxmox.py:222-231 | a listed VM is found on its node, and nowhere means a complete listing without the id and the registry's confirmation |
| Probe.NextFreeVmid | app/proxmox.py:360-366 | the smallest unlisted id in range, confirmed by the registry; a hidden guest makes the search fail |
| Probe.EvidenceIsTrue | app/proxmox.py:233-245 | of an honest cluster, whatever it hides, reported presence and absence are true |
| Probe.ListingAloneIsNotEnough | app/proxmox.py:233-245 | without the registry an existing guest could be taken for absent |
| Probe.ProbeIsTruthful | app/proxmox.py:834-850 | of an honest cluster the probe's answer is one the state machine allows |
| Probe.NowhereIsGone | app/proxmox.py:222-231 | proven absence lets a rebuild or a destroy go on in the state machine |
| Probe.FreshVmidIsFree | app/proxmox.py:360-366 | the VMID that the search finds is one the state machine lets a deploy select |
| LockRegistry.Registry.Enter | app/api.py:1091-1096 | a reference is taken to the entry everybody else has, and its count grows by one |
| LockRegistry.Registry.Leave | app/api.py:1102-1106 | a reference is given back, and the last one removes the entry |
| LockRegistry.InvStep | app/api.py:1083-1106 | every step of any thread keeps entries, counts, owners and lock order in agreement |
| LockRegistry.MutualExclusion | app/api.py:1083-1106 | at most one thread is inside the lock of a deployment, although entries come and go |
| LockRegistry.RegistryIsExact | app/api.py:1083-1106 | all threads of a deployment share one entry, its count is their number, and the registry holds exactly the ids in use |
| LockRegistry.LastUserDeletes | app/api.py:1104-1106 | the entry is deleted exactly by its last user: the identity check never fails |
| LockRegistry.SomeThreadCanStep | app/api.py:1261-1266 | with the order deployment lock, admission lock, address lock some engaged thread can always get on |
| LockRegistry.ReferIsEnter | app/api.py:1091-1096 | taking a reference in the thread model changes the counts as the class does |
| LockRegistry.UnreferIsLeave | app/api.py:1102-1106 | giving a reference back in the thread model changes the counts as the class does |
| StaticPool.Parse | app/network_pool.py:53-94 | which settings parse, and that what parses is exactly the range and the gateway that were given, ordered, of one address family, inside the network |
| StaticPool.FirstFailingCheck | app/network_pool.py:53-94 | the error is that of the first check, in the order of the code, that the settings fail |
| StaticPool.IterUsableExact | app/network_pool.py:33-39 | the generator yields every usable address once, in ascending order |
| StaticPool.UsableTotalIsLength | app/network_pool.py:41-50 | the constant-time count equals the length of the enumeration, for both families and coinciding reserved addresses |
| Leases.Allocator.Allocate | app/api.py:306-356 | a valid reservation is returned unchanged, otherwise the smallest free usable address is recorded, or the pool is exhausted |
| Leases.FirstFree | app/api.py:338-356 | the smallest usable address that is not taken, if there is one |
| Leases.FirstThatNobodyHas | app/api.py:338-356 | a deployment without valid reservation gets the first usable address that no other deployment has in this network, and none only when others have them all |
| Leases.AllocationIsSafe | app/api.py:306-356 | the address handed out is usable, no other row of the network has it, and no other row changed |
| Leases.AllocationIsStable | app/api.py:313-324 | asking again gives the same address and changes nothing |
| Leases.DistinctAlways | app/api.py:306-356 | over all sequences of allocations, releases and pool edits addresses stay pairwise distinct with one row per deployment |
| Leases.ExhaustedIffFull | app/api.py:326-356 | a deployment without valid reservation is refused exactly when others hold as many usable addresses as the pool has |
| Leases.Allocator.NetworkContext | app/api.py:359-382 | the job's network context, with the allocation it makes or the error it reports; `Leases.CommittedContext` and `Leases.ContextIsRefused` say what that is |
| Leases.Allocator.ReadOnlyContext | app/template_ops.py:44-84 | the previewed network context, without any change; `Leases.PreviewedContext` says what it holds |
| Leases.CommittedContext | app/api.py:359-382 | on a static network the context has the address recorded for the deployment, with the family and prefix of the network and exactly its gateway; in every other mode it has no address; VLAN, bridge and DNS are there exactly when set, as configured; nothing else is in it |
| Leases.PreviewedContext | app/template_ops.py:44-84 | the previewed context has the same contents, for the address that would be recorded |
| Leases.ContextIsRefused | app/api.py:359-382 | there is no context exactly on a static network whose settings do not parse or whose addresses are used up |
| Leases.ReservedIsNotHandedOut | app/network_pool.py:24-31 | no deployment gets the network's own address, its broadcast address, or its gateway |
| Leases.PreviewRefinesCommit | app/template_ops.py:44-84 | on canonical stored addresses the preview is the context, or the error, that the admission gives |
| Leases.PreviewDiffersIffSpelling | app/template_ops.py:57-62 | the answers differ if and only if the valid reservation is stored in another spelling, and name the same address even then |
| Leases.SpellingMakesADifference | app/template_ops.py:57-62 | for every pool and every usable address there are stored rows on which preview and allocation differ |
| Leases.PreviewOfNewcomer | app/template_ops.py:53 | a preview without deployment answers for the next new one |
| Inventory.InventoryCache.Refresh | app/inventory.py:82-94 | a probe is submitted exactly when allowed; at most one per connection and at most the given number are in flight |
| Inventory.InventoryCache.Invalidate | app/inventory.py:96-99 | an edit drops the snapshot and outdates the probe in flight |
| Inventory.InventoryCache.Complete | app/inventory.py:101-124 | a completion is published exactly when its generation is current |
| Inventory.InventoryCache.Read | app/inventory.py:69-80 | readers see the fold of the completions of exactly the probes submitted since the last invalidation |
| Inventory.FoldMeaning | app/inventory.py:115-122 | the data shown is that of the last success, online exactly when nothing failed since |
| Inventory.EditedProbeIsDropped | app/inventory.py:112-114 | a probe that ran across an edit never publishes, whatever happens elsewhere and however often its connection is edited again |
| ImageCache.InvAlways | app/worker.py:475-551 | in every reachable state trusted markers are true, running downloads cannot spoil trusted files, and the call in progress has distrusted its target |
| ImageCache.OnlyValidatedIsReturned | app/worker.py:496-508 | a request with a checksum gets only a volume whose download finished OK with that checksum |
| ImageCache.LeftoversAreNeverReturned | app/worker.py:509-511 | what a failed, cancelled or crashed download left is never returned |
| ImageCache.NothingOldIsDeleted | app/worker.py:462-472 | a call deletes no volume that was there when it began |
| ImageCache.ContentIsStable | app/worker.py:488-492 | no step changes the content of an existing volume |
| ImageCache.DownloadIsReused | app/worker.py:496-511 | a finished download is not fetched again: whatever happens in between, crashes included, the next request for the image gets the same file, until that is deleted or a refresh replaced it |
| ImageCache.Installation.EnsureBaseDisk | app/worker.py:475-551 | markers, active file and volumes after one call, by the outcome of its download |
| ImageCache.SuccessIsSteps | app/worker.py:509-551 | a successful call is a sequence of the crash-prone steps and ends with the markers of the method |
| Redactor.SelectMasks | app/worker.py:270-278 | exactly the secrets of four and the secret lines of eight characters or more are masked, longest first |
| Redactor.MasksAre | app/worker.py:270-278 | a text is masked if and only if it is a secret of four or more characters, or eight or more of them fill a line of a secret but for white space |
| Redactor.Redact | app/worker.py:280-285 | masks are replaced one after the other |
| Redactor.RedactionIsComplete | app/worker.py:265-286 | no mask occurs in the redacted line, whatever the line and the order of masks, if no mask is empty, starts or ends with a star, or contains the mask text |
| Redactor.RedactionIsCompleteIff | app/worker.py:280-285 | the masks of a set disappear from every line, in every order and number, if and only if each of them is of that kind |
| Redactor.PartsAreEnough | app/worker.py:280-285 | of one list every mask disappears from every line if each contains a mask of that kind |
| Redactor.HarmfulLine | app/worker.py:280-285 | for every other mask there is a line whose redaction contains it |
| Redactor.RedactSecrets | app/worker.py:265-286 | no secret, and no long line of one, is readable in the redacted line, unless a mask is harmful; secrets without stars never give one |
| Redactor.StarsBreakRedaction | app/worker.py:282-284 | hiding one secret can spell another that contains the mask text |
| References.MaskingIsComplete | app/recipes.py:248-249 | a masked text holds no reference, and masking twice is masking once |
| References.WithoutReferences | app/recipes.py:79-84 | a text without references is neither masked nor resolved |
| References.ReferenceResolves | app/recipes.py:79-84 | wherever a reference is written, and whatever stands around it, it becomes the value that its own namespace has for its name, or stays as it is without one; the value is not looked into, and the texts around it resolve as if they stood alone |
| References.ReferenceIsMasked | app/recipes.py:248-249 | and it is shown as `<secret NAME>` or `<variable NAME>` |
| References.WrittenIsRef | app/recipes.py:21 | what is written in double braces, as a namespace and a name with white space around them or not, is a reference, whatever follows |
| References.RefIsWritten | app/recipes.py:21 | and nothing else is one |
| References.UnknownIsKept | app/recipes.py:81-83 | references without a value are kept as they are |
| References.MaskedIsResolved | app/recipes.py:79-84 | nothing of a masked text resolves |
| Placeholders.TokensSpellTemplate | app/recipes.py:25 | the tokens of a template spell it out character for character |
| Placeholders.SlotsAreWords | app/recipes.py:25 | placeholders are words in braces with the white space before them |
| Placeholders.OnePass | app/recipes.py:61-76 | filling renders the tokens of the template alone: text is kept, values are inserted once and never rescanned |
| Placeholders.LineByLine | app/recipes.py:61-76 | filling a template is filling its lines |
| Placeholders.AloneOnItsLine | app/recipes.py:66-74 | a placeholder alone on its line, the first and the last line included, becomes the lines of its value, each behind the placeholder's indent |
| Placeholders.FilledAnywhere | app/recipes.py:61-76 | wherever a placeholder stands, the value of its key takes its place, each line behind the placeholder's indent, an unknown key leaves the indent alone, and the texts before and behind it are filled as if they stood alone |
| Placeholders.SplitJoin | app/recipes.py:73 | joining the lines of a value gives it back |
| Tagging.ErasingUndoesTagging | app/recipes.py:206-223 | taking the tags off gives the actual document back |
| Tagging.TaggingIsFaithful | app/recipes.py:206-223 | at every position the node is the actual one, tagged exactly when the marked document has a marker-bearing string there |
| Tagging.MarkerDecides | app/recipes.py:206-211 | a string is tagged exactly when the text in its place holds the marker prefix somewhere |
| Tagging.TaggingFailsIff | app/recipes.py:212-217 | tagging is refused if and only if aligned lists differ in length or aligned mappings in keys or key order |
| Placement.EnsurePlacementIds | app/recipes.py:438-455 | missing ids are filled in, and the recipe is accepted exactly when then every id is valid and unique |
| Placement.IdentifiedIsKept | app/recipes.py:438-455 | an accepted recipe is returned as it is |
| Placement.PositionalDeployInputs | app/recipes.py:458-476 | answers are resolved to positions, or refused exactly on duplicate ids or two answers for one block |
| Placement.AskMap | app/recipes.py:479-495 | exactly the positions that ask for something, with what they ask |
| Placement.MergeDeployInputs | app/recipes.py:498-526 | the recipe with each accepted answer laid over its block, or the error of the resolution |
| Placement.ResolvingTwiceIsOnce | app/execution_plan.py:140-142 | resolving addresses a second time changes nothing |
| Placement.MergeCommutesWithReordering | app/recipes.py:498-526 | answers given by id always resolve, and commute with any reordering of sections and blocks |
| Placement.OnlyAskedInputsChange | app/recipes.py:512-525 | only inputs on the addressed block's ask list change, and to the answer |
| Placement.MergeKeepsIds | app/execution_plan.py:140-143 | merging keeps the addresses, so the same answers mean the same afterwards |
| Placement.MergingTwiceIsOnce | app/recipes.py:498-526 | merging the same answers again changes nothing |
| DeployInputs.ValidateBlock | app/api.py:929-978 | one block's answers are accepted exactly when all are asked for, well typed and, for required texts, present and not blank |
| DeployInputs.RefusedIff | app/api.py:929-978 | the answers to a block are refused if and only if they are no mapping, answer what was not asked, have the wrong type, an unknown option, a control character outside code or a blank text, or leave a required text without answer and without stored value |
| DeployInputs.ValidateDeployInputs | app/api.py:904-981 | answers are accepted exactly when they resolve, address asking blocks only and are valid for each |
| DeployInputs.PlanRecipe | app/execution_plan.py:139-143 | the plan's recipe: ids filled in, answers resolved on it, and merged; the third resolution changes nothing |
| DeployInputs.WithIdsAt | app/recipes.py:438-455 | filling in ids gives each placed block without one the id generated for its position, and touches nothing else |
| DeployInputs.FrameIsKept | app/execution_plan.py:139-143 | the plan has the sections of the recipe in their order, with as many blocks and everything but the placed ones as it was |
| DeployInputs.AdmitAnswers | app/api.py:1157-1160 | answers get through exactly when accepted on a recipe whose ids can be filled in, and the plan is that recipe with the kept answers merged |
| DeployInputs.KeptKeysArePositions | app/execution_plan.py:140-143 | answers kept on the stored recipe, ids or not, resolve to themselves on the recipe with its ids filled in, and to nothing else |
| DeployInputs.AskedFieldsAreFilled | app/api.py:967-976 | in the plan, after ids are filled in and answers resolved again, every asked text, secret or password field of the schema is not blank |
| DeployInputs.UnaskedInputsAreKept | app/execution_plan.py:129-143 | in the plan every input that was not asked for is what the template stored |
| DeployInputs.AnswersArrive | app/api.py:945-968 | an accepted answer to a field of the schema arrives in the plan |
| Bundles.ExportPlaced | app/template_ops.py:327-340 | known inputs are exported, sensitive ones that are no reference are withheld and asked for instead |
| Bundles.ExportTemplate | app/template_ops.py:304-345 | a template exports exactly for its owner or an administrator, with all blocks there, no broken schema and no custom block of others; placement by placement, each custom block in use with its body and its fields in order, equal to the stored ones except that a sensitive default which is no deployer reference is left out |
| Bundles.ExportedBlock | app/template_ops.py:287-300 | a custom block is exported field by field as it is stored, but that a sensitive default which is no deployer reference is left out |
| Bundles.PlacementIsExported | app/template_ops.py:327-345 | a placement keeps its reference, address and name, and exactly the inputs that its block declares, but for sensitive ones that are no deployer reference, each with its stored value |
| Bundles.PlacementIsImported | app/template_ops.py:359-413 | a placement is imported with its address, inputs and questions; only the key of a custom block is new |
| Bundles.ExportPassesRuleIff | app/recipes.py:302-336 | an exported placement passes the sensitive-input rule if and only if every sensitive input was stored or asked for |
| Bundles.SavedIsImportable | app/template_ops.py:359-413 | a template that passed the checks of saving exports to a bundle that passes the checks of importing |
| Bundles.ReexportIsSame | app/template_ops.py:304-420 | exporting the imported template gives the same bundle, up to the new keys of custom blocks and defaults for what was absent |
| SecretMigration.RefToIsRef | app/recipes.py:252-254 | the reference that the migration writes is recognised as one and names the secret |
| SecretMigration.FreshName | app/seed.py:1896-1906 | counting up ends with the first candidate, the base name or the base name with a counter from 2, that is free in the owner's store |
| SecretMigration.MigrateAll | app/seed.py:1848-1919 | every literal of every template becomes a reference to a new secret of its owner, named after template and input, that holds it; every new secret took such a literal, nothing else changes, and a second run changes nothing |
| SecretMigration.MeaningIsKept | app/seed.py:1848-1919 | for the owner a migrated input resolves to the very literal that was stored, if that held no reference |
| SecretMigration.OldReferencesAreKept | app/worker.py:230-249 | exactly which references of other texts resolve as before: all but those a new secret of the owner shadows or a new global one answers |

## Left out

- NoOrphanWhenGuarded: holds for runs of guarded steps; the code takes some of them unguarded, and `Races` says exactly when that is safe. The guard on purging jobs is not shown to be exact.
- NoOrphanEver: holds under the operating rules of `Ownership.Disciplined`.
- ReleaseNeedsProof: holds for runs within the operating rules and `Tasks.Patient`; `Patience.PatienceIsExact` is the exact condition of the latter.
- SuccessIsUp: holds for runs within the operating rules; `StaysUpIff` is the exact condition of what it needs of them.
- StaysUpIff: speaks about deployments whose VMID is on no other row, and about the job worker, whose success takes two transactions.
- SelectSafeIff: speaks about deploys, whose half-built VMs alone are destroyed by VMID.
- NeverStranded: holds for runs without a crash between a terminal status and its reconciliation; `CrashStrandsIffAtRisk` is the exact condition of that crash.
- MeaningIsKept: does not speak about literals that embed references, whose value the migration moves as it is.
- SomeThreadCanStep: excludes deadlock, not starvation.
- ImageCache.InvAlways: assumes that a download ends OK only on a free name, that nobody deletes a file while it is downloaded, and that nobody else writes under names that carry a marker.
- Store.Database.RetryCleanupDeployment: has no clock; whether a minute has passed since the last attempt is a parameter.
- Store.Database.AdmitDeploy: leaves out what refuses a deploy before its rows are written (quotas, template, location, trust of blocks); answers and plan are in `DeployInputs`, the address in `Leases`.
- The straight-line bodies of deploy, rebuild, destroy and configure appear as phases of the state machine, not as methods: each of their commits and remote calls is a step of its own, so that everything else can happen in between.
- Wall-clock limits, progress, log wording, audit records, quotas, and the fields of a deployment that only describe it (address, sizes, credentials).
- Local clean-up by an administrator who acknowledges the risk is no step of the state machine: it gives up ownership without proof by design.
- Image jobs and the image's own build status; a rebuild that re-reserves a missing static address.
- Snapshots, consoles, SSH, snippets and the shape of Proxmox calls: only their accepted, refused or lost outcome is kept.
- The rest of the plan checks (sealing, owner checks, block snapshots), the rendering of shell and Ansible templates, linting, and the cross-owner reference rule.
- The move of legacy SSH blocks to the unified user block, block seeding, and the starter template.
- The base image entry, the list of secret references and the size limits of a bundle; trust rules on custom Ansible blocks.
- Key collisions of truncated hashes in file names and cache keys.
- Parsing of JSON, YAML, IP addresses and URLs, and encryption: values appear parsed and in plain text.
