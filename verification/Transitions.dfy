/** Every change of a job's status, of its create state, and of a row by its handlers, in tables. */
module Transitions {
  import opened Rows
  import opened Machine
  import opened CoreSafety

  // ------------------------------------------------------------------ job statuses

  function EndOf(canceled: bool): JobStatus {
    if canceled then Canceled else Failed
  }

  /** The status of job `j` after a step: the only steps that change it are these. */
  function StatusAfter(w: World, a: Action, j: nat): JobStatus
    requires j in w.db.jobs
  {
    var job := w.db.jobs[j];
    match a
    case Work(Claim(k, disabled)) =>
      if k != j then job.status
      else if job.cancelRequested then Canceled else if disabled then Failed else Running
    case Work(Defer(k)) => if k == j then Waiting else job.status
    case Work(Succeed(k)) => if k == j then Succeeded else job.status
    case Wait(PlayOk(k)) =>
      if k == j && At(w, j, Replaying) && job.status == Running && job.dep in w.db.deps then Succeeded else job.status
    case Wait(WaitExpire(k)) => if k == j then Failed else job.status
    case Wait(WaitResume(k)) => if k == j then Running else job.status
    case Wait(WaitAbort(k, canceled)) => if k == j then EndOf(canceled) else job.status
    case Wait(WaitRaise(k, canceled)) =>
      if k == j && Active(job.status) then EndOf(canceled) else job.status
    case Reconcile(RecFinish(k)) =>
      if k == j && k in w.recs && w.recs[k].host == Inline then EndOf(w.recs[k].canceled) else job.status
    case Cluster(Recover) => if job.status == Running then Failed else job.status
    case _ => job.status
  }

  lemma RaiseTables(w: World, j: nat, canceled: bool)
    requires CanRaise(w, j, canceled)
    ensures DoRaise(w, j, canceled).db.jobs == w.db.jobs[j := w.db.jobs[j].(status := Running)]
  {
  }

  predicate OnCreate(a: WorkAction) {
    a.SelectVmid? || a.MarkSubmitting? || a.Send? || a.AcceptCreate? || a.RejectCreate?
  }

  lemma CreateKeepsStatus(w: World, a: WorkAction, j: nat)
    requires WorkEnabled(w, a) && OnCreate(a) && j in w.db.jobs
    ensures j in WorkApply(w, a).db.jobs && WorkApply(w, a).db.jobs[j].status == w.db.jobs[j].status
  {
  }

  lemma WorkStatus(w: World, a: WorkAction, j: nat)
    requires Core(w) && WorkEnabled(w, a) && j in w.db.jobs
    ensures j in WorkApply(w, a).db.jobs && WorkApply(w, a).db.jobs[j].status == StatusAfter(w, Work(a), j)
  {
    assert Fine(ViewOf(w, a.job), w.booting);
    if a.Raise? {
      RaiseTables(w, a.job, a.canceled);
      hide DoRaise;
    } else if OnCreate(a) {
      CreateKeepsStatus(w, a, j);
      hide WorkApply;
    }
  }

  lemma WaitStatus(w: World, a: WaitAction, j: nat)
    requires Core(w) && WaitEnabled(w, a) && j in w.db.jobs
    ensures j in WaitApply(w, a).db.jobs && WaitApply(w, a).db.jobs[j].status == StatusAfter(w, Wait(a), j)
  {
    assert Fine(ViewOf(w, a.job), w.booting);
    match a {
      case WaitAbort(k, canceled) => WaitErrorStatus(w, k, canceled, j);
      case WaitRaise(k, canceled) => WaitErrorStatus(w, k, canceled, j);
      case PlayOk(k) => PlayOkStatus(w, k, j);
      case _ =>
    }
  }

  /** A replayed plan that ends well while its job is still running. */
  predicate Replayed(w: World, j: nat) {
    At(w, j, Replaying) && OnRow(w, j) && w.db.jobs[j].status == Running
  }

  lemma PlayOkTables(w: World, j: nat)
    requires CanPlayOk(w, j)
    ensures !Replayed(w, j) ==> DoPlayOk(w, j).db == w.db
    ensures Replayed(w, j) ==>
      var job, row := w.db.jobs[j], w.db.deps[w.db.jobs[j].dep];
      DoPlayOk(w, j).db == Tables(w.db.jobs[j := job.(status := Succeeded)],
                                  w.db.deps[job.dep := Deployment(Up, row.vmid, row.identity, None)], w.db.leases)
  {
  }

  lemma PlayOkStatus(w: World, k: nat, j: nat)
    requires CanPlayOk(w, k) && j in w.db.jobs
    ensures j in DoPlayOk(w, k).db.jobs && DoPlayOk(w, k).db.jobs[j].status == StatusAfter(w, Wait(PlayOk(k)), j)
  {
    PlayOkTables(w, k);
    hide DoPlayOk;
  }

  lemma WaitErrorStatus(w: World, k: nat, canceled: bool, j: nat)
    requires j in w.db.jobs && (k in w.db.jobs ==> w.db.jobs[k].status != Queued)
    ensures j in DoWaitError(w, k, canceled).db.jobs
    ensures DoWaitError(w, k, canceled).db.jobs[j].status ==
      if k == j && Active(w.db.jobs[j].status) then EndOf(canceled) else w.db.jobs[j].status
  {
  }

  /** Reconciliations touch nothing of a job but its task, until they end. */
  predicate SameButTask(db: Tables, db': Tables) {
    db'.jobs.Keys == db.jobs.Keys && forall j | j in db.jobs :: db'.jobs[j] == db.jobs[j].(task := db'.jobs[j].task)
  }

  lemma ReconcilesJobs(w: World, a: RecAction)
    requires RecEnabled(w, a) && !a.RecFinish?
    ensures SameButTask(w.db, RecApply(w, a).db)
  {
    match a {
      case RecDestroy(j, t) => TornBriefs(w.db, t);
      case _ =>
    }
  }

  lemma RecStatus(w: World, a: RecAction, j: nat)
    requires RecEnabled(w, a) && j in w.db.jobs
    ensures j in RecApply(w, a).db.jobs && RecApply(w, a).db.jobs[j].status == StatusAfter(w, Reconcile(a), j)
  {
    if !a.RecFinish? {
      ReconcilesJobs(w, a);
      hide RecApply;
      assert j in RecApply(w, a).db.jobs.Keys;
    }
  }

  /** Only the purge of old jobs removes a job, and no other step changes a status. */
  lemma StatusTable(w: World, a: Action, j: nat)
    requires Core(w) && Enabled(w, a) && j in w.db.jobs
    ensures j in Apply(w, a).db.jobs <==> a != Http(Prune(j))
    ensures j in Apply(w, a).db.jobs ==> Apply(w, a).db.jobs[j].status == StatusAfter(w, a, j)
  {
    hide Core, HttpEnabled, WorkEnabled, WaitEnabled, RecEnabled, CleanEnabled, ClusterEnabled;
    hide HttpApply, WorkApply, WaitApply, RecApply, CleanApply, ClusterApply;
    match a {
      case Http(h) => HttpStatus(w, h, j);
      case Work(x) => WorkStatus(w, x, j);
      case Wait(x) => WaitStatus(w, x, j);
      case Reconcile(r) => RecStatus(w, r, j);
      case Cleaning(c) => CleanStatus(w, c, j);
      case Cluster(c) => ClusterStatus(w, c, j);
    }
  }

  lemma ClusterStatus(w: World, a: ClusterAction, j: nat)
    requires ClusterEnabled(w, a) && j in w.db.jobs
    ensures j in ClusterApply(w, a).db.jobs
    ensures ClusterApply(w, a).db.jobs[j].status == StatusAfter(w, Cluster(a), j)
  {
  }

  lemma HttpStatus(w: World, a: HttpAction, j: nat)
    requires Core(w) && HttpEnabled(w, a) && j in w.db.jobs
    ensures j in HttpApply(w, a).db.jobs <==> a != Prune(j)
    ensures j in HttpApply(w, a).db.jobs ==> HttpApply(w, a).db.jobs[j].status == w.db.jobs[j].status
  {
    assert ViewOf(w, w.nextJob) == View(None, None, None, 0);
  }

  lemma CleanStatus(w: World, a: CleanAction, j: nat)
    requires CleanEnabled(w, a) && j in w.db.jobs
    ensures j in CleanApply(w, a).db.jobs && CleanApply(w, a).db.jobs[j].status == w.db.jobs[j].status
  {
  }

  // ------------------------------------------------------------------ create states

  /** The create state of job `j` after a step. */
  function CreateAfter(w: World, a: Action, j: nat): Identity
    requires j in w.db.jobs
  {
    match a
    case Work(MarkSubmitting(k)) => if k == j then Submitting else w.db.jobs[j].create
    case Work(AcceptCreate(k)) => if k == j then Accepted else w.db.jobs[j].create
    case Work(RejectCreate(k)) => if k == j then Rejected else w.db.jobs[j].create
    case Http(Confirm(d, newest)) =>
      if newest == Some(j) && Uncertain(w.db, d, newest) then Accepted else w.db.jobs[j].create
    case _ => w.db.jobs[j].create
  }

  /** Job `j` is as before but for its status, create state, task and cancel flag. */
  predicate SameJob(w: World, db': Tables, j: nat) {
    && j in w.db.jobs && j in db'.jobs
    && db'.jobs[j].kind == w.db.jobs[j].kind && db'.jobs[j].dep == w.db.jobs[j].dep
  }

  lemma CreateMoves(w: World, a: WorkAction, j: nat)
    requires WorkEnabled(w, a) && OnCreate(a) && j in WorkApply(w, a).db.jobs
    ensures SameJob(w, WorkApply(w, a).db, j)
    ensures WorkApply(w, a).db.jobs[j].create == CreateAfter(w, Work(a), j)
  {
  }

  lemma WorkCreate(w: World, a: WorkAction, j: nat)
    requires WorkEnabled(w, a) && j in WorkApply(w, a).db.jobs
    ensures SameJob(w, WorkApply(w, a).db, j)
    ensures WorkApply(w, a).db.jobs[j].create == CreateAfter(w, Work(a), j)
  {
    if a.Raise? {
      RaiseTables(w, a.job, a.canceled);
      hide DoRaise;
    } else if OnCreate(a) {
      CreateMoves(w, a, j);
      hide WorkApply;
    }
  }

  lemma HttpCreate(w: World, a: HttpAction, j: nat)
    requires Core(w) && HttpEnabled(w, a) && j in HttpApply(w, a).db.jobs
    ensures j in w.db.jobs ==>
      SameJob(w, HttpApply(w, a).db, j) && HttpApply(w, a).db.jobs[j].create == CreateAfter(w, Http(a), j)
    ensures j !in w.db.jobs ==> j == w.nextJob && HttpApply(w, a).db.jobs[j].status == Queued
  {
    assert ViewOf(w, w.nextJob) == View(None, None, None, 0);
  }

  lemma ErrorKeepsCreate(w: World, k: nat, canceled: bool, j: nat)
    requires j in DoWaitError(w, k, canceled).db.jobs
    ensures SameJob(w, DoWaitError(w, k, canceled).db, j)
    ensures DoWaitError(w, k, canceled).db.jobs[j].create == w.db.jobs[j].create
  {
  }

  lemma WaitCreate(w: World, a: WaitAction, j: nat)
    requires WaitEnabled(w, a) && j in WaitApply(w, a).db.jobs
    ensures SameJob(w, WaitApply(w, a).db, j) && WaitApply(w, a).db.jobs[j].create == w.db.jobs[j].create
  {
    if a.PlayOk? {
      PlayOkTables(w, a.job);
      hide DoPlayOk;
    } else if a.WaitAbort? || a.WaitRaise? {
      ErrorKeepsCreate(w, a.job, a.canceled, j);
      hide DoWaitError;
    }
  }

  lemma RecCreate(w: World, a: RecAction, j: nat)
    requires RecEnabled(w, a) && j in RecApply(w, a).db.jobs
    ensures SameJob(w, RecApply(w, a).db, j) && RecApply(w, a).db.jobs[j].create == w.db.jobs[j].create
  {
    if !a.RecFinish? {
      ReconcilesJobs(w, a);
      hide RecApply;
      assert j in w.db.jobs.Keys;
    }
  }

  lemma CleanCreate(w: World, a: CleanAction, j: nat)
    requires CleanEnabled(w, a) && j in CleanApply(w, a).db.jobs
    ensures SameJob(w, CleanApply(w, a).db, j) && CleanApply(w, a).db.jobs[j].create == w.db.jobs[j].create
  {
  }

  lemma ClusterCreate(w: World, a: ClusterAction, j: nat)
    requires ClusterEnabled(w, a) && j in ClusterApply(w, a).db.jobs
    ensures SameJob(w, ClusterApply(w, a).db, j) && ClusterApply(w, a).db.jobs[j].create == w.db.jobs[j].create
  {
  }

  /** Only these steps change a create state, nothing changes what a job is about, and a new job is
      queued under the next id. */
  lemma CreateTable(w: World, a: Action, j: nat)
    requires Core(w) && Enabled(w, a) && j in Apply(w, a).db.jobs
    ensures j in w.db.jobs ==>
      SameJob(w, Apply(w, a).db, j) && Apply(w, a).db.jobs[j].create == CreateAfter(w, a, j)
    ensures j !in w.db.jobs ==> a.Http? && j == w.nextJob && Apply(w, a).db.jobs[j].status == Queued
  {
    hide Core, HttpEnabled, WorkEnabled, WaitEnabled, RecEnabled, CleanEnabled, ClusterEnabled, SameJob;
    hide HttpApply, WorkApply, WaitApply, RecApply, CleanApply, ClusterApply;
    match a {
      case Http(h) => HttpCreate(w, h, j);
      case Work(x) => WorkCreate(w, x, j); InJobs(w, Apply(w, a).db, j);
      case Wait(x) => WaitCreate(w, x, j); InJobs(w, Apply(w, a).db, j);
      case Reconcile(r) => RecCreate(w, r, j); InJobs(w, Apply(w, a).db, j);
      case Cleaning(c) => CleanCreate(w, c, j); InJobs(w, Apply(w, a).db, j);
      case Cluster(c) => ClusterCreate(w, c, j); InJobs(w, Apply(w, a).db, j);
    }
  }

  lemma InJobs(w: World, db': Tables, j: nat)
    requires SameJob(w, db', j)
    ensures j in w.db.jobs
  {
  }

  // ------------------------------------------------------------------ threads

  function PhaseOf(w: World, j: nat): Option<Phase> {
    if j in w.procs then Some(w.procs[j]) else None
  }

  /** How far the thread of job `j` got after a step. */
  function PhaseAfter(w: World, a: Action, j: nat): Option<Phase> {
    match a
    case Work(x) => if x.job == j then WorkedPhase(w, x) else PhaseOf(w, j)
    case Wait(x) => if x.job == j then WaitedPhase(w, x) else PhaseOf(w, j)
    case Cluster(Crash) => None
    case _ => PhaseOf(w, j)
  }

  function WorkedPhase(w: World, a: WorkAction): Option<Phase> {
    var j := a.job;
    var vmid := if j in w.procs && Creating(w.procs[j]) then w.procs[j].vmid else 0;
    match a
    case Claim(_, disabled) =>
      if disabled || (j in w.db.jobs && w.db.jobs[j].cancelRequested) then None else Some(Begun)
    case Track(_) => PhaseOf(w, j)
    case ProveGone(_) => Some(Gone)
    case SelectVmid(_, v) => Some(Chosen(v))
    case MarkSubmitting(_) => Some(Marked(vmid))
    case Send(_) => Some(Sent(vmid))
    case AcceptCreate(_) => Some(Built)
    case RejectCreate(_) => Some(Refused(vmid))
    case Boot(_) => Some(Booted)
    case SkipPlay(_) => Some(Played)
    case Finish(_) => Some(Settled)
    case DropRow(_) => Some(Settled)
    case Defer(_) => None
    case Succeed(_) => None
    case Raise(_, _) => None
  }

  function WaitedPhase(w: World, a: WaitAction): Option<Phase> {
    match a
    case Play(j) => Some(if At(w, j, Resumed) then Replaying else Playing)
    case PlayOk(j) => if At(w, j, Playing) then Some(Played) else None
    case WaitResume(_) => Some(Resumed)
    case WaitExpire(j) => PhaseOf(w, j)
    case WaitAbort(_, _) => None
    case WaitRaise(_, _) => None
  }

  lemma WorkPhase(w: World, a: WorkAction, j: nat)
    requires Core(w) && WorkEnabled(w, a)
    ensures PhaseOf(WorkApply(w, a), j) == PhaseAfter(w, Work(a), j)
  {
    assert Fine(ViewOf(w, a.job), w.booting);
  }

  lemma WaitPhase(w: World, a: WaitAction, j: nat)
    requires WaitEnabled(w, a)
    ensures PhaseOf(WaitApply(w, a), j) == PhaseAfter(w, Wait(a), j)
  {
  }

  lemma HttpPhase(w: World, a: HttpAction)
    requires HttpEnabled(w, a)
    ensures HttpApply(w, a).procs == w.procs
  {
  }

  lemma ReconcilePhase(w: World, a: RecAction)
    requires RecEnabled(w, a)
    ensures RecApply(w, a).procs == w.procs
  {
  }

  lemma RetryPhase(w: World, a: CleanAction)
    requires CleanEnabled(w, a)
    ensures CleanApply(w, a).procs == w.procs
  {
  }

  lemma ClusterPhase(w: World, a: ClusterAction, j: nat)
    requires ClusterEnabled(w, a)
    ensures PhaseOf(ClusterApply(w, a), j) == PhaseAfter(w, Cluster(a), j)
  {
  }

  lemma PhaseTable(w: World, a: Action, j: nat)
    requires Core(w) && Enabled(w, a)
    ensures PhaseOf(Apply(w, a), j) == PhaseAfter(w, a, j)
  {
    hide Core, HttpEnabled, WorkEnabled, WaitEnabled, RecEnabled, CleanEnabled, ClusterEnabled;
    hide HttpApply, WorkApply, WaitApply, RecApply, CleanApply, ClusterApply, WorkedPhase, WaitedPhase;
    match a {
      case Http(h) => HttpPhase(w, h);
      case Work(x) => WorkPhase(w, x, j);
      case Wait(x) => WaitPhase(w, x, j);
      case Reconcile(r) => ReconcilePhase(w, r);
      case Cleaning(c) => RetryPhase(w, c);
      case Cluster(c) => ClusterPhase(w, c, j);
    }
  }

  // ------------------------------------------------------------------ reconciliations and retries

  function RecOf(w: World, j: nat): Option<Rec> {
    if j in w.recs then Some(w.recs[j]) else None
  }

  /** What stops a reconciliation at once: no row, a task that may still run, or a create without answer. */
  predicate Stopping(w: World, j: nat, settled: bool) {
    j !in w.db.jobs
    || var job := w.db.jobs[j];
    || job.dep !in w.db.deps || (job.task.Some? && !settled)
    || job.create == Submitting || w.db.deps[job.dep].identity == Submitting
  }

  /** A reconciliation looks for the VM after it has destroyed it, if it may: only a cancelled deploy does. */
  function NextPhase(w: World, rec: Rec, a: RecAction): RecPhase {
    match a
    case RecCheck(j, settled) =>
      if Stopping(w, j, settled) then Done
      else
        var vmid := w.db.deps[w.db.jobs[j].dep].vmid;
        if rec.canceled && w.db.jobs[j].kind == Deploy && vmid != None then Destroying(vmid, None) else Probing(vmid)
    case RecDestroy(_, Tear(_, _, Issue(task))) =>
      if rec.phase.Destroying? then Destroying(rec.phase.vmid, Some(task)) else rec.phase
    case RecDestroy(_, Tear(_, _, End(result))) =>
      if result == Unconfirmed then Done
      else if rec.phase.Destroying? then Probing(rec.phase.vmid) else rec.phase
    case RecProbe(_, p) => if rec.phase.Probing? then Found(rec.phase.vmid, p) else rec.phase
    case RecCommit(_, _) => Done
    case RecFinish(_) => rec.phase
  }

  function RecAfter(w: World, a: Action, j: nat): Option<Rec> {
    match a
    case Reconcile(RecFinish(k)) => if k == j then None else RecOf(w, j)
    case Reconcile(r) =>
      if r.job == j && j in w.recs then Some(Rec(w.recs[j].canceled, w.recs[j].host, NextPhase(w, w.recs[j], r)))
      else RecOf(w, j)
    case Work(Claim(k, disabled)) =>
      if k != j || j !in w.db.jobs then RecOf(w, j)
      else if w.db.jobs[j].cancelRequested then Some(Rec(true, Aftermath, Checking))
      else if disabled then Some(Rec(false, Aftermath, Checking)) else RecOf(w, j)
    case Work(Raise(k, canceled)) => if k == j then Some(Rec(canceled, Inline, Checking)) else RecOf(w, j)
    case Wait(WaitAbort(k, canceled)) => if k == j then Some(Rec(canceled, Waiter, Checking)) else RecOf(w, j)
    case Wait(WaitRaise(k, canceled)) =>
      if k == j && j in w.db.jobs && (w.db.jobs[j].status == Running || w.db.jobs[j].status == Waiting)
      then Some(Rec(canceled, Waiter, Checking)) else RecOf(w, j)
    case Cluster(Crash) => None
    case Cluster(Recover) =>
      if j in w.db.jobs && w.db.jobs[j].status == Running then Some(Rec(false, Aftermath, Checking)) else RecOf(w, j)
    case _ => RecOf(w, j)
  }

  lemma RecNext(w: World, a: RecAction, j: nat)
    requires RecEnabled(w, a)
    ensures RecOf(RecApply(w, a), j) == RecAfter(w, Reconcile(a), j)
  {
  }

  lemma WorkRecs(w: World, a: WorkAction, j: nat)
    requires WorkEnabled(w, a)
    ensures RecOf(WorkApply(w, a), j) == RecAfter(w, Work(a), j)
  {
  }

  lemma WaitRecs(w: World, a: WaitAction, j: nat)
    requires WaitEnabled(w, a)
    ensures RecOf(WaitApply(w, a), j) == RecAfter(w, Wait(a), j)
  {
  }

  lemma HttpRecs(w: World, a: HttpAction)
    requires HttpEnabled(w, a)
    ensures HttpApply(w, a).recs == w.recs
  {
  }

  lemma CleanRecs(w: World, a: CleanAction)
    requires CleanEnabled(w, a)
    ensures CleanApply(w, a).recs == w.recs
  {
  }

  lemma ClusterRecs(w: World, a: ClusterAction, j: nat)
    requires ClusterEnabled(w, a)
    ensures RecOf(ClusterApply(w, a), j) == RecAfter(w, Cluster(a), j)
  {
  }

  /** Which steps start a reconciliation, and through which phases it goes. */
  lemma RecTable(w: World, a: Action, j: nat)
    requires Enabled(w, a)
    ensures RecOf(Apply(w, a), j) == RecAfter(w, a, j)
  {
    hide HttpEnabled, WorkEnabled, WaitEnabled, RecEnabled, CleanEnabled, ClusterEnabled;
    hide HttpApply, WorkApply, WaitApply, RecApply, CleanApply, ClusterApply;
    match a {
      case Http(h) => HttpRecs(w, h);
      case Work(x) => WorkRecs(w, x, j);
      case Wait(x) => WaitRecs(w, x, j);
      case Reconcile(r) => RecNext(w, r, j);
      case Cleaning(c) => CleanRecs(w, c);
      case Cluster(c) => ClusterRecs(w, c, j);
    }
  }

  /** How far the retry on deployment `d` got: the VM of a deploy is destroyed before it is looked for. */
  function RetryAfter(w: World, a: CleanAction, c: Option<CleanPhase>): Option<CleanPhase> {
    match a
    case CleanBegin(d) =>
      if d !in w.db.deps then None
      else
        var row := w.db.deps[d];
        if row.origin == Some(Deploy) && row.vmid != None then Some(Tearing(row.vmid, row.origin, None))
        else Some(Looking(row.vmid, row.origin))
    case CleanDestroy(_, Tear(_, _, Issue(task))) =>
      if c.None? then None else Some(Tearing(c.value.vmid, c.value.origin, Some(task)))
    case CleanDestroy(_, Tear(_, _, End(result))) =>
      if c.None? || result == Unconfirmed then None else Some(Looking(c.value.vmid, c.value.origin))
    case CleanProbe(_, p) => if c.None? then None else Some(Seen(c.value.vmid, c.value.origin, p))
    case CleanCommit(_) => None
  }

  function RetryOf(w: World, d: nat): Option<CleanPhase> {
    if d in w.cleaners then Some(w.cleaners[d]) else None
  }

  lemma RetryTable(w: World, a: CleanAction, d: nat)
    requires CleanEnabled(w, a)
    ensures RetryOf(CleanApply(w, a), d) == if a.dep == d then RetryAfter(w, a, RetryOf(w, d)) else RetryOf(w, d)
  {
  }

  // ------------------------------------------------------------------ the cluster

  /** The create request of job `j`, as its thread knows it. */
  predicate IsRequest(w: World, j: nat, r: Request) {
    j in w.db.jobs && j in w.procs && Creating(w.procs[j]) && r == Request(j, w.db.jobs[j].dep, w.procs[j].vmid)
  }

  /** A request is in flight from its sending until it is answered, lands late or is lost for good. */
  predicate PendingAfter(w: World, a: Action, r: Request) {
    match a
    case Work(Send(j)) => r in w.pending || IsRequest(w, j, r)
    case Work(AcceptCreate(j)) => r in w.pending && !IsRequest(w, j, r)
    case Work(RejectCreate(j)) => r in w.pending && !IsRequest(w, j, r)
    case Cluster(Land(q)) => r in w.pending && r != q
    case Cluster(Discard(q)) => r in w.pending && r != q
    case _ => r in w.pending
  }

  function VmOf(w: World, v: nat): Option<Owner> {
    if v in w.vms then Some(w.vms[v]) else None
  }

  /** A VM comes with an accepted create that was in flight, with one that lands late, or from elsewhere. */
  function VmAfter(w: World, a: Action, v: nat): Option<Owner> {
    match a
    case Work(AcceptCreate(j)) =>
      if exists r | r in w.pending :: IsRequest(w, j, r) && r.vmid == v then Some(Created(w.db.jobs[j].dep))
      else VmOf(w, v)
    case Cluster(Land(r)) => if r.vmid == v then Some(Created(r.dep)) else VmOf(w, v)
    case Cluster(Vanish(u)) => if u == v then None else VmOf(w, v)
    case Cluster(Appear(u)) => if u == v then Some(Foreign) else VmOf(w, v)
    case _ => VmOf(w, v)
  }

  /** Remote tasks are numbered in order, and run until they stop. */
  predicate TaskAfter(w: World, a: Action, t: nat) {
    match a
    case Work(Track(_)) => t in w.tasks || t == w.nextTask
    case Reconcile(RecDestroy(_, Tear(_, _, Issue(task)))) => t in w.tasks || t == task
    case Cleaning(CleanDestroy(_, Tear(_, _, Issue(task)))) => t in w.tasks || t == task
    case Cluster(TaskStop(u)) => t in w.tasks && t != u
    case _ => t in w.tasks
  }

  lemma WorkRemote(w: World, a: WorkAction, r: Request, v: nat, t: nat)
    requires WorkEnabled(w, a)
    ensures Remotely(w, Work(a), WorkApply(w, a), r, v, t)
  {
    if a.AcceptCreate? {
      assert IsRequest(w, a.job, RequestOf(w, a.job));
    }
  }

  lemma HttpRemote(w: World, a: HttpAction)
    requires HttpEnabled(w, a)
    ensures HttpApply(w, a).pending == w.pending && HttpApply(w, a).vms == w.vms && HttpApply(w, a).tasks == w.tasks
  {
  }

  lemma ErrorIsLocal(w: World, j: nat, canceled: bool)
    ensures
      var w' := DoWaitError(w, j, canceled);
      w'.pending == w.pending && w'.vms == w.vms && w'.tasks == w.tasks
  {
    hide WithStatus;
  }

  lemma WaitRemote(w: World, a: WaitAction)
    requires WaitEnabled(w, a)
    ensures WaitApply(w, a).pending == w.pending && WaitApply(w, a).vms == w.vms && WaitApply(w, a).tasks == w.tasks
  {
    hide WithStatus, WithDep, WaitEnabled, Active;
    match a {
      case WaitAbort(j, canceled) => ErrorIsLocal(w, j, canceled);
      case WaitRaise(j, canceled) => ErrorIsLocal(w, j, canceled);
      case _ =>
    }
  }

  lemma RecRemote(w: World, a: RecAction, t: nat)
    requires RecEnabled(w, a)
    ensures RecApply(w, a).pending == w.pending && RecApply(w, a).vms == w.vms
    ensures t in RecApply(w, a).tasks <==> TaskAfter(w, Reconcile(a), t)
  {
    hide Check, Truthful, CommitCanceled, CommitFailed, TornDown, WithStatus;
  }

  lemma CleanRemote(w: World, a: CleanAction, t: nat)
    requires CleanEnabled(w, a)
    ensures CleanApply(w, a).pending == w.pending && CleanApply(w, a).vms == w.vms
    ensures t in CleanApply(w, a).tasks <==> TaskAfter(w, Cleaning(a), t)
  {
    hide Truthful, CommitCleanup, TornDown;
  }

  lemma ClusterRemote(w: World, a: ClusterAction, r: Request, v: nat, t: nat)
    requires ClusterEnabled(w, a)
    ensures Remotely(w, Cluster(a), ClusterApply(w, a), r, v, t)
  {
  }

  /** What the cluster holds of these. */
  predicate Remotely(w: World, a: Action, w': World, r: Request, v: nat, t: nat) {
    && (r in w'.pending <==> PendingAfter(w, a, r))
    && VmOf(w', v) == VmAfter(w, a, v)
    && (t in w'.tasks <==> TaskAfter(w, a, t))
  }

  /** What the cluster holds after a step: requests in flight, VMs, running tasks. */
  lemma RemoteTable(w: World, a: Action, r: Request, v: nat, t: nat)
    requires Enabled(w, a)
    ensures Remotely(w, a, Apply(w, a), r, v, t)
  {
    hide HttpEnabled, WorkEnabled, WaitEnabled, RecEnabled, CleanEnabled, ClusterEnabled, IsRequest;
    hide HttpApply, WorkApply, WaitApply, RecApply, CleanApply, ClusterApply;
    match a {
      case Http(x) => HttpRemote(w, x);
      case Work(x) => hide Remotely; WorkRemote(w, x, r, v, t);
      case Wait(x) => WaitRemote(w, x);
      case Reconcile(x) => RecRemote(w, x, t);
      case Cleaning(x) => CleanRemote(w, x, t);
      case Cluster(x) => hide Remotely; ClusterRemote(w, x, r, v, t);
    }
  }

  // ------------------------------------------------------------------ rows written outside reconciliations

  /** The row of deployment `d` after a step of a handler or of an executing thread, when both are there. */
  function RowAfter(w: World, a: Action, d: nat): Deployment
    requires d in w.db.deps
  {
    var row := w.db.deps[d];
    match a
    case Http(Admit(e, kind)) =>
      if e != d then row
      else Deployment(Working, row.vmid, row.identity, if kind == Configure then row.origin else None)
    case Http(RetryCleanup(e)) => if e == d then Deployment(Working, row.vmid, row.identity, None) else row
    case Http(Power(e, on)) =>
      if e == d then Deployment(if on then Up else Stopped, row.vmid, row.identity, None) else row
    case Http(Confirm(e, newest)) =>
      if e != d then row
      else
        var identity := if Uncertain(w.db, d, newest) then Accepted else row.identity;
        if row.status == CleanupPending then Deployment(Error, row.vmid, identity, None)
        else Deployment(row.status, row.vmid, identity, row.origin)
    case Work(x) => WorkedRow(w, x, d)
    case Wait(x) => WaitedRow(w, x, d)
    case _ => row
  }

  predicate On(w: World, j: nat, d: nat) {
    j in w.db.jobs && w.db.jobs[j].dep == d
  }

  function WorkedRow(w: World, a: WorkAction, d: nat): Deployment
    requires d in w.db.deps
  {
    var row := w.db.deps[d];
    if !On(w, a.job, d) then row
    else match a
      case SelectVmid(_, v) => Deployment(row.status, Some(v), row.identity, row.origin)
      case MarkSubmitting(_) => Deployment(row.status, row.vmid, Submitting, row.origin)
      case AcceptCreate(_) => Deployment(row.status, row.vmid, Accepted, row.origin)
      case RejectCreate(_) => Deployment(row.status, row.vmid, Rejected, row.origin)
      case Finish(_) => Deployment(Up, row.vmid, row.identity, None)
      case Raise(j, _) =>
        var given := j in w.procs && (w.procs[j].Chosen? || w.procs[j].Refused?) && row.vmid == Some(w.procs[j].vmid);
        Deployment(row.status, if given then None else row.vmid, row.identity, row.origin)
      case _ => row
  }

  function WaitedRow(w: World, a: WaitAction, d: nat): Deployment
    requires d in w.db.deps
  {
    var row := w.db.deps[d];
    if !On(w, a.job, d) then row
    else match a
      case PlayOk(j) =>
        if At(w, j, Replaying) && w.db.jobs[j].status == Running then Deployment(Up, row.vmid, row.identity, None)
        else row
      case WaitExpire(_) => Deployment(Error, row.vmid, row.identity, None)
      case _ => row
  }

  lemma WorkRow(w: World, a: WorkAction, d: nat)
    requires WorkEnabled(w, a) && d in w.db.deps
    ensures d in WorkApply(w, a).db.deps <==> !(a.DropRow? && On(w, a.job, d))
    ensures d in WorkApply(w, a).db.deps ==> WorkApply(w, a).db.deps[d] == RowAfter(w, Work(a), d)
  {
  }

  lemma WaitRow(w: World, a: WaitAction, d: nat)
    requires WaitEnabled(w, a) && d in w.db.deps
    ensures d in WaitApply(w, a).db.deps && WaitApply(w, a).db.deps[d] == RowAfter(w, Wait(a), d)
  {
    match a {
      case PlayOk(j) => PlayOkRow(w, j, d);
      case _ =>
    }
  }

  lemma PlayOkRow(w: World, j: nat, d: nat)
    requires CanPlayOk(w, j) && d in w.db.deps
    ensures d in DoPlayOk(w, j).db.deps && DoPlayOk(w, j).db.deps[d] == WaitedRow(w, PlayOk(j), d)
  {
    PlayOkTables(w, j);
    hide DoPlayOk;
  }

  lemma HttpRow(w: World, a: HttpAction, d: nat)
    requires Core(w) && HttpEnabled(w, a) && d in w.db.deps
    ensures d in HttpApply(w, a).db.deps <==> a != LocalCleanup(d)
    ensures d in HttpApply(w, a).db.deps ==> HttpApply(w, a).db.deps[d] == RowAfter(w, Http(a), d)
  {
  }

  /** Rows are written by handlers and executing threads in this way only; reconciliations and retries
      have their own tables. */
  lemma RowTable(w: World, a: Action, d: nat)
    requires Core(w) && Enabled(w, a) && d in w.db.deps && !a.Reconcile? && !a.Cleaning?
    ensures d in Apply(w, a).db.deps <==>
      !(a == Http(LocalCleanup(d)) || (a.Work? && a.work.DropRow? && On(w, a.work.job, d)))
    ensures d in Apply(w, a).db.deps ==> Apply(w, a).db.deps[d] == RowAfter(w, a, d)
  {
    hide Core, HttpEnabled, WorkEnabled, WaitEnabled, HttpApply, WorkApply, WaitApply, WorkedRow, WaitedRow;
    match a {
      case Http(h) => HttpRow(w, h, d);
      case Work(x) => WorkRow(w, x, d);
      case Wait(x) => WaitRow(w, x, d);
      case Cluster(c) =>
    }
  }

  /** The rows that an admission inserts: a deployment that is being worked on and has no VMID yet, with a
      reservation exactly on a static network, and one queued job. */
  lemma AdmittedDeploy(w: World, lease: bool)
    requires Core(w)
    ensures
      var db, db', d, j := w.db, DoAdmitDeploy(w, lease).db, w.nextDep, w.nextJob;
      && j !in db.jobs && d !in db.deps
      && db'.jobs == db.jobs[j := Job(Deploy, d, Queued, false, Unsubmitted, None)]
      && db'.deps == db.deps[d := Deployment(Working, None, Unsubmitted, None)]
      && (forall e :: e in db'.leases <==> e in db.leases || (lease && e == d))
  {
    Fresh(w);
  }

  /** What the tables have to say for a request to be admitted: no job of the deployment is queued, running
      or waiting, its identity is known, no clean-up is pending, and a configuration retry has a VM. */
  lemma AdmissionIff(w: World, d: nat, kind: Kind)
    ensures CanAdmit(w, d, kind) <==>
      && kind != Deploy && d !in w.cleaners && d in w.db.deps && Idle(w.db, d)
      && w.db.deps[d].identity != Submitting && w.db.deps[d].status != CleanupPending
      && (kind == Configure ==> w.db.deps[d].vmid != None && w.db.deps[d].identity != Rejected)
    ensures CanRetryCleanup(w, d) <==>
      d !in w.cleaners && d in w.db.deps && Idle(w.db, d) && w.db.deps[d].identity != Submitting
  {
    IdleIff(w.db, d);
  }

  /** A job that does not create a VM starts with its create accepted. */
  lemma AdmittedJob(w: World, d: nat, kind: Kind)
    requires Core(w) && d in w.db.deps
    ensures
      var db, db', j := w.db, DoAdmit(w, d, kind).db, w.nextJob;
      && j !in db.jobs && db'.leases == db.leases
      && (kind == Configure ==> db'.jobs == db.jobs[j := Job(kind, d, Queued, false, Accepted, None)])
      && (kind != Configure ==> db'.jobs == db.jobs[j := Job(kind, d, Queued, false, Unsubmitted, None)])
  {
    Fresh(w);
  }
}
