/** The lifecycle protocol as a state machine: HTTP handlers, the job worker, the waiting
    worker, the cluster, and crashes.  A step is one committed transaction, one remote call or
    one event in the cluster, so that every interleaving between two steps is a run. */
module Machine {
  import opened Rows

  /** How far a thread got with the job it executes.  From the choice of a VMID to the answer of the
      create request the thread keeps the VMID itself and does not look at its row again.
      `Resumed` and `Replaying` belong to the waiting worker, the others to the job worker. */
  datatype Phase =
    | Begun | Gone | Chosen(vmid: nat) | Marked(vmid: nat) | Sent(vmid: nat) | Refused(vmid: nat)
    | Built | Booted | Playing | Played | Settled | Resumed | Replaying

  predicate Main(p: Phase) {
    p != Resumed && p != Replaying
  }

  /** A VMID was chosen, and the create request for it is not answered, or was refused. */
  predicate Creating(p: Phase) {
    p.Chosen? || p.Marked? || p.Sent? || p.Refused?
  }

  predicate PrePlay(p: Phase) {
    p == Begun || p == Gone || Creating(p) || p == Built || p == Booted || p == Resumed
  }

  /** `Inline` reconciles before the job ends; `Aftermath` (job worker) and `Waiter` (waiting
      worker) reconcile after the terminal status was committed. */
  datatype Host = Inline | Aftermath | Waiter

  /** `last` is the task that the destroy of a half-built VM submitted last. */
  datatype RecPhase =
    | Checking
    | Destroying(vmid: Option<nat>, last: Option<nat>)
    | Probing(vmid: Option<nat>)
    | Found(vmid: Option<nat>, presence: Presence)
    | Done

  datatype Rec = Rec(canceled: bool, host: Host, phase: RecPhase)

  datatype CleanPhase =
    | Tearing(vmid: Option<nat>, origin: Option<Kind>, last: Option<nat>)
    | Looking(vmid: Option<nat>, origin: Option<Kind>)
    | Seen(vmid: Option<nat>, origin: Option<Kind>, presence: Presence)

  /** A create request the cluster may still execute. */
  datatype Request = Request(job: nat, dep: nat, vmid: nat)

  datatype Owner = Foreign | Created(dep: nat)

  datatype World = World(
    db: Tables,
    nextJob: nat, nextDep: nat, nextTask: nat,
    procs: map<nat, Phase>,           // job -> its executing thread
    recs: map<nat, Rec>,              // job -> its reconciliation
    cleaners: map<nat, CleanPhase>,   // deployment -> clean-up retry holding its lock
    booting: bool,                    // restarted, recovery not yet run
    vms: map<nat, Owner>, pending: set<Request>, tasks: set<nat>,
    starts: map<nat, nat>)            // how often the captured post-boot plan of a job was started

  datatype HttpAction =
    | AdmitDeploy(lease: bool)
    | Admit(dep: nat, kind: Kind)
    | RetryCleanup(dep: nat)
    | CancelRequest(job: nat)
    | Power(dep: nat, on: bool)
    | Confirm(dep: nat, newest: Option<nat>)
    | LocalCleanup(dep: nat)
    | Prune(job: nat)

  /** The job worker executing one job. */
  datatype WorkAction =
    | Claim(job: nat, disabled: bool)
    | Track(job: nat)
    | ProveGone(job: nat)
    | SelectVmid(job: nat, vmid: nat)
    | MarkSubmitting(job: nat)
    | Send(job: nat)
    | AcceptCreate(job: nat)
    | RejectCreate(job: nat)
    | Boot(job: nat)
    | Defer(job: nat)
    | SkipPlay(job: nat)
    | Finish(job: nat)
    | DropRow(job: nat)
    | Succeed(job: nat)
    | Raise(job: nat, canceled: bool)

  /** Both workers: the post-boot plan, and the waiting worker's own transactions. */
  datatype WaitAction =
    | Play(job: nat)
    | PlayOk(job: nat)
    | WaitExpire(job: nat)
    | WaitAbort(job: nat, canceled: bool)
    | WaitResume(job: nat)
    | WaitRaise(job: nat, canceled: bool)

  datatype RecAction =
    | RecCheck(job: nat, settled: bool)
    | RecDestroy(job: nat, tear: Tear)
    | RecProbe(job: nat, presence: Presence)
    | RecCommit(job: nat, runtime: Option<DepStatus>)
    | RecFinish(job: nat)

  datatype CleanAction =
    | CleanBegin(dep: nat)
    | CleanDestroy(dep: nat, tear: Tear)
    | CleanProbe(dep: nat, presence: Presence)
    | CleanCommit(dep: nat)

  datatype ClusterAction =
    | Land(request: Request)
    | Discard(request: Request)
    | Vanish(vmid: nat)
    | Appear(vmid: nat)
    | TaskStop(upid: nat)
    | Crash
    | Recover

  datatype Action =
    | Http(http: HttpAction)
    | Work(work: WorkAction)
    | Wait(wait: WaitAction)
    | Reconcile(rec: RecAction)
    | Cleaning(clean: CleanAction)
    | Cluster(cluster: ClusterAction)

  /** The best-effort destroy submits and records tasks, each after the one before it stopped, and
      then ends. */
  datatype TearMove = Issue(upid: nat) | End(result: TearDown)

  /** One move of it, with the row that its VMID look-up hit and the newest job of that row. */
  datatype Tear = Tear(hit: nat, newest: Option<nat>, move: TearMove) {
    function Outcome(): TearDown {
      if move.End? then move.result else Untouched
    }

    function Task(): Option<nat> {
      if move.Issue? then Some(move.upid) else None
    }
  }

  // ------------------------------------------------------------------ evidence

  /** The recorded remote task of a job is known to have stopped. */
  predicate SettledTask(w: World, j: nat) {
    j in w.db.jobs && w.db.jobs[j].task.Some? ==> w.db.jobs[j].task.value !in w.tasks
  }

  /** A probe may report absence only of a VMID that is not in the cluster, and presence only
      of one that is; an unassigned VMID is absent. */
  predicate Truthful(w: World, vmid: Option<nat>, p: Presence) {
    match p
    case Absent => vmid.None? || vmid.value !in w.vms
    case Present => vmid.Some? && vmid.value in w.vms
    case Unknown => vmid.Some?
  }

  predicate At(w: World, j: nat, p: Phase) {
    j in w.procs && w.procs[j] == p
  }

  /** Job `j`, its deployment row and its VMID are all there. */
  predicate OnRow(w: World, j: nat) {
    j in w.db.jobs && w.db.jobs[j].dep in w.db.deps
  }

  predicate OnVmid(w: World, j: nat) {
    OnRow(w, j) && w.db.deps[w.db.jobs[j].dep].vmid.Some?
  }

  predicate RecAt(w: World, j: nat) {
    j in w.recs && j in w.db.jobs
  }

  /** The job worker is a single thread: it claims and cleans up only between two jobs. */
  predicate MainIdle(w: World) {
    && !w.booting
    && w.cleaners == map[]
    && (forall j | j in w.procs :: !Main(w.procs[j]))
    && (forall j | j in w.recs :: w.recs[j].host == Waiter)
  }

  /** Some row holds this VMID. */
  predicate Held(w: World, v: Option<nat>) {
    exists d | d in w.db.deps :: w.db.deps[d].vmid == v
  }

  predicate Over(w: World, task: Option<nat>) {
    task.Some? ==> task.value !in w.tasks
  }

  /** A move of the best-effort destroy, which looks for the row by its VMID.  Nothing is submitted
      before the last task stopped; it went through when that one did, and it may remain
      unconfirmed at any time. */
  predicate TearOk(w: World, v: Option<nat>, last: Option<nat>, t: Tear) {
    && v.Some?
    && (if Held(w, v) then t.hit in w.db.deps && w.db.deps[t.hit].vmid == v && Newest(w.db, t.hit, t.newest)
        else t.hit !in w.db.deps && t.newest.None?)
    && match t.move {
         case Issue(task) => task == w.nextTask && Over(w, last)
         case End(result) => (result == Untouched ==> last.None?) && (result == Torn ==> Over(w, last))
       }
  }

  /** The create request of job `j`. */
  function RequestOf(w: World, j: nat): Request
    requires j in w.db.jobs && j in w.procs && Creating(w.procs[j])
  {
    Request(j, w.db.jobs[j].dep, w.procs[j].vmid)
  }

  // ------------------------------------------------------------------ HTTP handlers

  function DoAdmitDeploy(w: World, lease: bool): World {
    w.(db := Opened(w.db, w.nextJob, w.nextDep, lease), nextJob := w.nextJob + 1, nextDep := w.nextDep + 1)
  }

  /** No active job and no clean-up retry on `d`: both are checked under its operation lock. */
  predicate Free(w: World, d: nat) {
    d in w.db.deps && d !in w.cleaners && !HasActive(w.db, d)
  }

  predicate CanAdmit(w: World, d: nat, kind: Kind) {
    && Free(w, d)
    && w.db.deps[d].identity != Submitting && w.db.deps[d].status != CleanupPending
    && kind != Deploy
    && (kind == Configure ==> w.db.deps[d].vmid.Some? && w.db.deps[d].identity != Rejected)
  }

  function DoAdmit(w: World, d: nat, kind: Kind): World
    requires d in w.db.deps
  {
    w.(db := Requested(w.db, w.nextJob, d, kind), nextJob := w.nextJob + 1)
  }

  predicate CanRetryCleanup(w: World, d: nat) {
    Free(w, d) && w.db.deps[d].identity != Submitting
  }

  predicate CanCancel(w: World, j: nat) {
    j in w.db.jobs && Active(w.db.jobs[j].status)
  }

  function DoCancel(w: World, j: nat): World
    requires CanCancel(w, j)
  {
    w.(db := WithJob(w.db, j, w.db.jobs[j].(cancelRequested := true)))
  }

  predicate CanPower(w: World, d: nat) {
    && Free(w, d)
    && w.db.deps[d].identity != Submitting && w.db.deps[d].status != CleanupPending
    && w.db.deps[d].vmid.Some?
  }

  function DoPower(w: World, d: nat, on: bool): World
    requires CanPower(w, d)
  {
    w.(db := WithDep(w.db, d, w.db.deps[d].(status := if on then Up else Stopped, origin := None)))
  }

  /** The operator confirms that the visible VM belongs to the deployment. */
  predicate CanConfirm(w: World, d: nat, newest: Option<nat>) {
    && Free(w, d)
    && w.db.deps[d].vmid.Some? && w.db.deps[d].vmid.value in w.vms
    && Newest(w.db, d, newest)
    && (newest.Some? && Uncertain(w.db, d, newest) ==> SettledTask(w, newest.value))
  }

  function DoConfirm(w: World, d: nat, newest: Option<nat>): World
    requires CanConfirm(w, d, newest)
  {
    w.(db := Confirmed(w.db, d, newest))
  }

  /** Local-only clean-up with absence verified by a probe. */
  predicate CanLocalCleanup(w: World, d: nat) {
    Free(w, d) && Truthful(w, w.db.deps[d].vmid, Absent)
  }

  function DoLocalCleanup(w: World, d: nat): World {
    w.(db := Drop(w.db, d))
  }

  predicate CanPrune(w: World, j: nat) {
    j in w.db.jobs && Terminal(w.db.jobs[j].status) && j !in w.recs
  }

  function DoPrune(w: World, j: nat): World {
    w.(db := w.db.(jobs := w.db.jobs - {j}))
  }

  predicate HttpEnabled(w: World, a: HttpAction) {
    match a
    case AdmitDeploy(_) => true
    case Admit(d, kind) => CanAdmit(w, d, kind)
    case RetryCleanup(d) => CanRetryCleanup(w, d)
    case CancelRequest(j) => CanCancel(w, j)
    case Power(d, _) => CanPower(w, d)
    case Confirm(d, newest) => CanConfirm(w, d, newest)
    case LocalCleanup(d) => CanLocalCleanup(w, d)
    case Prune(j) => CanPrune(w, j)
  }

  function HttpApply(w: World, a: HttpAction): World
    requires HttpEnabled(w, a)
  {
    match a
    case AdmitDeploy(lease) => DoAdmitDeploy(w, lease)
    case Admit(d, kind) => DoAdmit(w, d, kind)
    case RetryCleanup(d) => DoAdmit(w, d, Destroy)
    case CancelRequest(j) => DoCancel(w, j)
    case Power(d, on) => DoPower(w, d, on)
    case Confirm(d, newest) => DoConfirm(w, d, newest)
    case LocalCleanup(d) => DoLocalCleanup(w, d)
    case Prune(j) => DoPrune(w, j)
  }

  // ------------------------------------------------------------------ job worker

  function To(w: World, j: nat, p: Phase): World {
    w.(procs := w.procs[j := p])
  }

  function Put(w: World, db: Tables, j: nat, p: Phase): World {
    w.(db := db, procs := w.procs[j := p])
  }

  function StartRec(w: World, db: Tables, j: nat, canceled: bool, host: Host): World {
    w.(db := db, recs := w.recs[j := Rec(canceled, host, Checking)], procs := w.procs - {j})
  }

  /** The oldest queued job is claimed. */
  predicate CanClaim(w: World, j: nat) {
    && MainIdle(w)
    && j in w.db.jobs && w.db.jobs[j].status == Queued
    && forall k | k in w.db.jobs && w.db.jobs[k].status == Queued :: j <= k
  }

  function DoClaim(w: World, j: nat, disabled: bool): World
    requires CanClaim(w, j)
  {
    if w.db.jobs[j].cancelRequested then
      StartRec(w, WithStatus(w.db, j, Canceled), j, true, Aftermath)
    else if disabled then
      StartRec(w, WithStatus(w.db, j, Failed), j, false, Aftermath)
    else
      Put(w, WithStatus(w.db, j, Running), j, Begun)
  }

  /** A remote task was accepted and is recorded; the one before it was waited for. */
  predicate CanTrack(w: World, j: nat) {
    && j in w.db.jobs && SettledTask(w, j)
    && (At(w, j, Built) || (At(w, j, Begun) && (w.db.jobs[j].kind == Rebuild || w.db.jobs[j].kind == Destroy)))
  }

  function DoTrack(w: World, j: nat): World {
    w.(db := Remote(w.db, j, w.nextTask), nextTask := w.nextTask + 1, tasks := w.tasks + {w.nextTask})
  }

  /** Rebuild and destroy go on only after the old VM was probed absent. */
  predicate CanProveGone(w: World, j: nat) {
    && At(w, j, Begun) && OnRow(w, j)
    && (w.db.jobs[j].kind == Rebuild || w.db.jobs[j].kind == Destroy)
    && SettledTask(w, j)
    && Truthful(w, w.db.deps[w.db.jobs[j].dep].vmid, Absent)
  }

  predicate CanSelect(w: World, j: nat, v: nat) {
    && OnRow(w, j)
    && (if w.db.jobs[j].kind == Deploy then At(w, j, Begun) else w.db.jobs[j].kind == Rebuild && At(w, j, Gone))
    && (var own := w.db.deps[w.db.jobs[j].dep].vmid; if own.Some? then own.value == v else v !in w.vms)
  }

  function DoSelect(w: World, j: nat, v: nat): World
    requires CanSelect(w, j, v)
  {
    var d := w.db.jobs[j].dep;
    Put(w, WithDep(w.db, d, w.db.deps[d].(vmid := Some(v))), j, Chosen(v))
  }

  predicate CanMark(w: World, j: nat) {
    j in w.db.jobs && j in w.procs && w.procs[j].Chosen?
  }

  /** The row is marked as well, if it is still there. */
  function DoMark(w: World, j: nat): World
    requires CanMark(w, j)
  {
    Put(w, Creation(w.db, j, Submitting), j, Marked(w.procs[j].vmid))
  }

  predicate CanSend(w: World, j: nat) {
    j in w.db.jobs && j in w.procs && w.procs[j].Marked?
  }

  function DoSend(w: World, j: nat): World
    requires CanSend(w, j)
  {
    w.(pending := w.pending + {RequestOf(w, j)}, procs := w.procs[j := Sent(w.procs[j].vmid)])
  }

  predicate Awaiting(w: World, j: nat) {
    j in w.db.jobs && j in w.procs && w.procs[j].Sent?
  }

  /** The create was accepted, which registers the VMID at once. */
  predicate CanAccept(w: World, j: nat) {
    Awaiting(w, j) && (RequestOf(w, j) in w.pending ==> RequestOf(w, j).vmid !in w.vms)
  }

  function DoAccept(w: World, j: nat): World
    requires CanAccept(w, j)
  {
    var r := RequestOf(w, j);
    var vms := if r in w.pending then w.vms[r.vmid := Created(r.dep)] else w.vms;
    w.(db := Creation(w.db, j, Accepted), pending := w.pending - {r}, vms := vms, procs := w.procs[j := Built])
  }

  /** The create was answered with a 4xx status and will not be executed. */
  predicate CanReject(w: World, j: nat) {
    Awaiting(w, j) && RequestOf(w, j) in w.pending
  }

  function DoReject(w: World, j: nat): World
    requires CanReject(w, j)
  {
    w.(db := Creation(w.db, j, Rejected), pending := w.pending - {RequestOf(w, j)},
       procs := w.procs[j := Refused(w.procs[j].vmid)])
  }

  predicate CanBoot(w: World, j: nat) {
    At(w, j, Built) && SettledTask(w, j)
  }

  predicate CanDefer(w: World, j: nat) {
    At(w, j, Booted) && j in w.db.jobs
  }

  function DoDefer(w: World, j: nat): World {
    w.(db := WithStatus(w.db, j, Waiting), procs := w.procs - {j})
  }

  /** Deploy and rebuild raise when their row is gone; a configuration retry writes what is there. */
  predicate CanFinish(w: World, j: nat) {
    At(w, j, Played) && j in w.db.jobs && (OnRow(w, j) || w.db.jobs[j].kind == Configure)
  }

  function DoFinish(w: World, j: nat): World
    requires CanFinish(w, j)
  {
    var d := w.db.jobs[j].dep;
    var db := if d in w.db.deps then WithDep(w.db, d, w.db.deps[d].(status := Up, origin := None)) else w.db;
    Put(w, db, j, Settled)
  }

  predicate CanDropRow(w: World, j: nat) {
    At(w, j, Gone) && j in w.db.jobs && w.db.jobs[j].kind == Destroy
  }

  function DoDropRow(w: World, j: nat): World
    requires CanDropRow(w, j)
  {
    Put(w, Drop(w.db, w.db.jobs[j].dep), j, Settled)
  }

  predicate CanSucceed(w: World, j: nat) {
    At(w, j, Settled) && j in w.db.jobs
  }

  function DoSucceed(w: World, j: nat): World {
    w.(db := WithStatus(w.db, j, Succeeded), procs := w.procs - {j})
  }

  /** An exception.  Cancellation needs a request; a create in flight cannot be cancelled. */
  predicate CanRaise(w: World, j: nat, canceled: bool) {
    && j in w.procs && Main(w.procs[j]) && w.procs[j] != Settled && j in w.db.jobs
    && (canceled ==> w.db.jobs[j].cancelRequested && (Creating(w.procs[j]) ==> w.procs[j].Chosen?))
  }

  /** A create that was never submitted, or was refused, gives the VMID back. */
  function DoRaise(w: World, j: nat, canceled: bool): World
    requires CanRaise(w, j, canceled)
  {
    var d := w.db.jobs[j].dep;
    var db := if w.procs[j].Chosen? || w.procs[j].Refused? then ClearVmid(w.db, d, Some(w.procs[j].vmid)) else w.db;
    StartRec(w, WithStatus(db, j, Running), j, canceled, Inline)
  }

  predicate WorkEnabled(w: World, a: WorkAction) {
    match a
    case Claim(j, _) => CanClaim(w, j)
    case Track(j) => CanTrack(w, j)
    case ProveGone(j) => CanProveGone(w, j)
    case SelectVmid(j, v) => CanSelect(w, j, v)
    case MarkSubmitting(j) => CanMark(w, j)
    case Send(j) => CanSend(w, j)
    case AcceptCreate(j) => CanAccept(w, j)
    case RejectCreate(j) => CanReject(w, j)
    case Boot(j) => CanBoot(w, j)
    case Defer(j) => CanDefer(w, j)
    case SkipPlay(j) => At(w, j, Booted)
    case Finish(j) => CanFinish(w, j)
    case DropRow(j) => CanDropRow(w, j)
    case Succeed(j) => CanSucceed(w, j)
    case Raise(j, canceled) => CanRaise(w, j, canceled)
  }

  function WorkApply(w: World, a: WorkAction): World
    requires WorkEnabled(w, a)
  {
    match a
    case Claim(j, disabled) => DoClaim(w, j, disabled)
    case Track(j) => DoTrack(w, j)
    case ProveGone(j) => To(w, j, Gone)
    case SelectVmid(j, v) => DoSelect(w, j, v)
    case MarkSubmitting(j) => DoMark(w, j)
    case Send(j) => DoSend(w, j)
    case AcceptCreate(j) => DoAccept(w, j)
    case RejectCreate(j) => DoReject(w, j)
    case Boot(j) => To(w, j, Booted)
    case Defer(j) => DoDefer(w, j)
    case SkipPlay(j) => To(w, j, Played)
    case Finish(j) => DoFinish(w, j)
    case DropRow(j) => DoDropRow(w, j)
    case Succeed(j) => DoSucceed(w, j)
    case Raise(j, canceled) => DoRaise(w, j, canceled)
  }

  // ------------------------------------------------------------------ post-boot plan, waiting worker

  predicate CanPlay(w: World, j: nat) {
    || At(w, j, Booted) || At(w, j, Resumed)
    || (At(w, j, Begun) && j in w.db.jobs && w.db.jobs[j].kind == Configure)
  }

  function DoPlay(w: World, j: nat): World
    requires CanPlay(w, j)
  {
    var n := if j in w.starts then w.starts[j] else 0;
    w.(starts := w.starts[j := n + 1], procs := w.procs[j := if w.procs[j] == Resumed then Replaying else Playing])
  }

  predicate CanPlayOk(w: World, j: nat) {
    At(w, j, Playing) || At(w, j, Replaying)
  }

  /** The waiting worker commits success only while its job is still running. */
  function DoPlayOk(w: World, j: nat): World
    requires CanPlayOk(w, j)
  {
    if w.procs[j] == Playing then To(w, j, Played)
    else if OnRow(w, j) && w.db.jobs[j].status == Running then
      var d := w.db.jobs[j].dep;
      var db := WithDep(w.db, d, w.db.deps[d].(status := Up, origin := None));
      w.(db := WithStatus(db, j, Succeeded), procs := w.procs - {j})
    else w.(procs := w.procs - {j})
  }

  predicate CanExpire(w: World, j: nat) {
    j in w.db.jobs && w.db.jobs[j].status == Waiting && !w.db.jobs[j].cancelRequested
  }

  function DoExpire(w: World, j: nat): World
    requires CanExpire(w, j)
  {
    var d := w.db.jobs[j].dep;
    var db := if d in w.db.deps then WithDep(w.db, d, w.db.deps[d].(status := Error, origin := None)) else w.db;
    w.(db := WithStatus(db, j, Failed))
  }

  predicate CanAbort(w: World, j: nat, canceled: bool) {
    j in w.db.jobs && w.db.jobs[j].status == Waiting && (canceled ==> w.db.jobs[j].cancelRequested)
  }

  predicate CanResume(w: World, j: nat) {
    OnRow(w, j) && w.db.jobs[j].status == Waiting
  }

  function DoResume(w: World, j: nat): World {
    Put(w, WithStatus(w.db, j, Running), j, Resumed)
  }

  predicate CanWaitRaise(w: World, j: nat, canceled: bool) {
    && (At(w, j, Resumed) || At(w, j, Replaying))
    && (canceled ==> j in w.db.jobs && w.db.jobs[j].cancelRequested)
  }

  /** The terminal status is committed before the reconciliation starts. */
  function DoWaitError(w: World, j: nat, canceled: bool): World {
    if j in w.db.jobs && (w.db.jobs[j].status == Waiting || w.db.jobs[j].status == Running) then
      StartRec(w, WithStatus(w.db, j, if canceled then Canceled else Failed), j, canceled, Waiter)
    else w.(procs := w.procs - {j})
  }

  predicate WaitEnabled(w: World, a: WaitAction) {
    match a
    case Play(j) => CanPlay(w, j)
    case PlayOk(j) => CanPlayOk(w, j)
    case WaitExpire(j) => CanExpire(w, j)
    case WaitAbort(j, canceled) => CanAbort(w, j, canceled)
    case WaitResume(j) => CanResume(w, j)
    case WaitRaise(j, canceled) => CanWaitRaise(w, j, canceled)
  }

  function WaitApply(w: World, a: WaitAction): World
    requires WaitEnabled(w, a)
  {
    match a
    case Play(j) => DoPlay(w, j)
    case PlayOk(j) => DoPlayOk(w, j)
    case WaitExpire(j) => DoExpire(w, j)
    case WaitAbort(j, canceled) => DoWaitError(w, j, canceled)
    case WaitResume(j) => DoResume(w, j)
    case WaitRaise(j, canceled) => DoWaitError(w, j, canceled)
  }

  // ------------------------------------------------------------------ reconciliation

  function Advance(w: World, j: nat, p: RecPhase): World
    requires j in w.recs
  {
    w.(recs := w.recs[j := w.recs[j].(phase := p)])
  }

  function Conclude(w: World, db: Tables, j: nat, p: RecPhase): World
    requires j in w.recs
  {
    w.(db := db, recs := w.recs[j := w.recs[j].(phase := p)])
  }

  predicate CanCheck(w: World, j: nat, settled: bool) {
    RecAt(w, j) && w.recs[j].phase == Checking && (settled ==> SettledTask(w, j))
  }

  function DoCheck(w: World, j: nat, settled: bool): World
    requires CanCheck(w, j, settled)
  {
    match Check(w.db, j, settled)
    case Halt(db) => Conclude(w, db, j, Done)
    case Proceed(v) =>
      Advance(w, j, if w.recs[j].canceled && w.db.jobs[j].kind == Deploy && v.Some?
                    then Destroying(v, None) else Probing(v))
  }

  predicate CanTear(w: World, j: nat, t: Tear) {
    RecAt(w, j) && w.recs[j].phase.Destroying? && TearOk(w, w.recs[j].phase.vmid, w.recs[j].phase.last, t)
  }

  function Tracked(w: World, t: Tear): World {
    w.(db := TornDown(w.db, t.hit, t.newest, t.Outcome(), t.Task()),
       nextTask := if t.move.Issue? then w.nextTask + 1 else w.nextTask,
       tasks := if t.move.Issue? then w.tasks + {t.move.upid} else w.tasks)
  }

  function AfterMove(v: Option<nat>, move: TearMove): RecPhase {
    match move
    case Issue(task) => Destroying(v, Some(task))
    case End(result) => if result == Unconfirmed then Done else Probing(v)
  }

  function DoTear(w: World, j: nat, t: Tear): World
    requires CanTear(w, j, t)
  {
    Advance(Tracked(w, t), j, AfterMove(w.recs[j].phase.vmid, t.move))
  }

  predicate CanProbe(w: World, j: nat, p: Presence) {
    RecAt(w, j) && w.recs[j].phase.Probing? && Truthful(w, w.recs[j].phase.vmid, p)
  }

  function DoProbe(w: World, j: nat, p: Presence): World
    requires CanProbe(w, j, p)
  {
    Advance(w, j, Found(w.recs[j].phase.vmid, p))
  }

  predicate CanCommit(w: World, j: nat, runtime: Option<DepStatus>) {
    && RecAt(w, j) && w.recs[j].phase.Found?
    && (runtime == None || runtime == Some(Up) || runtime == Some(Stopped))
  }

  function DoCommit(w: World, j: nat, runtime: Option<DepStatus>): World
    requires CanCommit(w, j, runtime)
  {
    var f := w.recs[j].phase;
    var db := if w.recs[j].canceled then CommitCanceled(w.db, j, f.vmid, f.presence, runtime)
              else CommitFailed(w.db, j, f.vmid, f.presence);
    Conclude(w, db, j, Done)
  }

  predicate CanRecFinish(w: World, j: nat) {
    RecAt(w, j) && w.recs[j].phase == Done
  }

  function DoRecFinish(w: World, j: nat): World
    requires CanRecFinish(w, j)
  {
    var db := if w.recs[j].host == Inline
              then WithStatus(w.db, j, if w.recs[j].canceled then Canceled else Failed) else w.db;
    w.(db := db, recs := w.recs - {j})
  }

  predicate RecEnabled(w: World, a: RecAction) {
    match a
    case RecCheck(j, settled) => CanCheck(w, j, settled)
    case RecDestroy(j, t) => CanTear(w, j, t)
    case RecProbe(j, p) => CanProbe(w, j, p)
    case RecCommit(j, runtime) => CanCommit(w, j, runtime)
    case RecFinish(j) => CanRecFinish(w, j)
  }

  function RecApply(w: World, a: RecAction): World
    requires RecEnabled(w, a)
  {
    match a
    case RecCheck(j, settled) => DoCheck(w, j, settled)
    case RecDestroy(j, t) => DoTear(w, j, t)
    case RecProbe(j, p) => DoProbe(w, j, p)
    case RecCommit(j, runtime) => DoCommit(w, j, runtime)
    case RecFinish(j) => DoRecFinish(w, j)
  }

  // ------------------------------------------------------------------ clean-up retries

  predicate CanCleanBegin(w: World, d: nat) {
    MainIdle(w) && d in w.db.deps && w.db.deps[d].status == CleanupPending
  }

  function DoCleanBegin(w: World, d: nat): World
    requires CanCleanBegin(w, d)
  {
    var row := w.db.deps[d];
    w.(cleaners := w.cleaners[d :=
      if row.origin == Some(Deploy) && row.vmid.Some? then Tearing(row.vmid, row.origin, None)
      else Looking(row.vmid, row.origin)])
  }

  predicate CanCleanTear(w: World, d: nat, t: Tear) {
    d in w.cleaners && w.cleaners[d].Tearing? && TearOk(w, w.cleaners[d].vmid, w.cleaners[d].last, t)
  }

  function DoCleanTear(w: World, d: nat, t: Tear): World
    requires CanCleanTear(w, d, t)
  {
    var c := w.cleaners[d];
    Tracked(w, t).(cleaners := match t.move
      case Issue(task) => w.cleaners[d := Tearing(c.vmid, c.origin, Some(task))]
      case End(result) =>
        if result == Unconfirmed then w.cleaners - {d} else w.cleaners[d := Looking(c.vmid, c.origin)])
  }

  predicate CanCleanProbe(w: World, d: nat, p: Presence) {
    d in w.cleaners && w.cleaners[d].Looking? && Truthful(w, w.cleaners[d].vmid, p)
  }

  function DoCleanProbe(w: World, d: nat, p: Presence): World
    requires CanCleanProbe(w, d, p)
  {
    w.(cleaners := w.cleaners[d := Seen(w.cleaners[d].vmid, w.cleaners[d].origin, p)])
  }

  predicate CanCleanCommit(w: World, d: nat) {
    d in w.cleaners && w.cleaners[d].Seen?
  }

  function DoCleanCommit(w: World, d: nat): World
    requires CanCleanCommit(w, d)
  {
    var c := w.cleaners[d];
    w.(db := CommitCleanup(w.db, d, c.vmid, c.origin, c.presence), cleaners := w.cleaners - {d})
  }

  predicate CleanEnabled(w: World, a: CleanAction) {
    match a
    case CleanBegin(d) => CanCleanBegin(w, d)
    case CleanDestroy(d, t) => CanCleanTear(w, d, t)
    case CleanProbe(d, p) => CanCleanProbe(w, d, p)
    case CleanCommit(d) => CanCleanCommit(w, d)
  }

  function CleanApply(w: World, a: CleanAction): World
    requires CleanEnabled(w, a)
  {
    match a
    case CleanBegin(d) => DoCleanBegin(w, d)
    case CleanDestroy(d, t) => DoCleanTear(w, d, t)
    case CleanProbe(d, p) => DoCleanProbe(w, d, p)
    case CleanCommit(d) => DoCleanCommit(w, d)
  }

  // ------------------------------------------------------------------ cluster, crash, restart

  /** Restart: a job still marked running belongs to a dead process. */
  function DoRecover(w: World): World {
    var dead := set j | j in w.db.jobs && w.db.jobs[j].status == Running;
    w.(db := Interrupted(w.db),
       recs := map j | j in w.recs.Keys + dead :: if j in dead then Rec(false, Aftermath, Checking) else w.recs[j],
       booting := false)
  }

  function DoCrash(w: World): World {
    w.(procs := map[], recs := map[], cleaners := map[], booting := true)
  }

  function DoLand(w: World, r: Request): World {
    w.(pending := w.pending - {r}, vms := w.vms[r.vmid := Created(r.dep)])
  }

  predicate ClusterEnabled(w: World, a: ClusterAction) {
    match a
    case Land(r) => r in w.pending && r.vmid !in w.vms
    case Discard(r) => r in w.pending
    case Vanish(v) => v in w.vms
    case Appear(v) => v !in w.vms
    case TaskStop(t) => t in w.tasks
    case Crash => true
    case Recover => w.booting
  }

  function ClusterApply(w: World, a: ClusterAction): World
    requires ClusterEnabled(w, a)
  {
    match a
    case Land(r) => DoLand(w, r)
    case Discard(r) => w.(pending := w.pending - {r})
    case Vanish(v) => w.(vms := w.vms - {v})
    case Appear(v) => w.(vms := w.vms[v := Foreign])
    case TaskStop(t) => w.(tasks := w.tasks - {t})
    case Crash => DoCrash(w)
    case Recover => DoRecover(w)
  }

  // ------------------------------------------------------------------ steps and runs

  predicate Enabled(w: World, a: Action) {
    match a
    case Http(h) => HttpEnabled(w, h)
    case Work(x) => WorkEnabled(w, x)
    case Wait(x) => WaitEnabled(w, x)
    case Reconcile(r) => RecEnabled(w, r)
    case Cleaning(c) => CleanEnabled(w, c)
    case Cluster(c) => ClusterEnabled(w, c)
  }

  function Apply(w: World, a: Action): World
    requires Enabled(w, a)
  {
    match a
    case Http(h) => HttpApply(w, h)
    case Work(x) => WorkApply(w, x)
    case Wait(x) => WaitApply(w, x)
    case Reconcile(r) => RecApply(w, r)
    case Cleaning(c) => CleanApply(w, c)
    case Cluster(c) => ClusterApply(w, c)
  }

  predicate Init(w: World) {
    && w.db == Tables(map[], map[], {})
    && w.procs == map[] && w.recs == map[] && w.cleaners == map[] && w.starts == map[]
    && w.pending == {} && w.tasks == {}
    && forall v | v in w.vms :: w.vms[v] == Foreign
  }

  predicate Step(w: World, a: Action, w': World) {
    Enabled(w, a) && w' == Apply(w, a)
  }

  /** A sequence of steps, from any world. */
  ghost predicate Trace(ws: seq<World>, acts: seq<Action>) {
    && |ws| == |acts| + 1
    && forall i | 0 <= i < |acts| :: Step(ws[i], acts[i], ws[i + 1])
  }

  ghost predicate Run(ws: seq<World>, acts: seq<Action>) {
    Trace(ws, acts) && Init(ws[0])
  }

  lemma Extend(ws: seq<World>, acts: seq<Action>, a: Action, w': World)
    requires Trace(ws, acts) && Step(ws[|acts|], a, w')
    ensures Trace(ws + [w'], acts + [a])
  {
    hide Step;
  }

  lemma Prepend(w: World, a: Action, ws: seq<World>, acts: seq<Action>)
    requires Trace(ws, acts) && Step(w, a, ws[0])
    ensures Trace([w] + ws, [a] + acts)
  {
    hide Step;
    var v, b := [w] + ws, [a] + acts;
    forall i | 0 <= i < |b| ensures Step(v[i], b[i], v[i + 1]) {
      assert i > 0 ==> Step(ws[i - 1], acts[i - 1], ws[i]);
    }
  }

  /** One trace goes on where another one ends. */
  lemma Join(ws: seq<World>, acts: seq<Action>, ws': seq<World>, acts': seq<Action>)
    requires Trace(ws, acts) && Trace(ws', acts') && ws[|acts|] == ws'[0]
    ensures Trace(ws + ws'[1..], acts + acts')
    ensures (ws + ws'[1..])[|acts + acts'|] == ws'[|acts'|] && (ws + ws'[1..])[0] == ws[0]
  {
    hide Step;
    var v, b := ws + ws'[1..], acts + acts';
    forall i | 0 <= i < |b| ensures Step(v[i], b[i], v[i + 1]) {
      if i < |acts| {
        assert v[i] == ws[i] && v[i + 1] == ws[i + 1];
      } else {
        assert v[i] == ws'[i - |acts|] && v[i + 1] == ws'[i + 1 - |acts|];
      }
    }
  }
}
