/** No VM is orphaned: under stated operating rules every VM that exists, or may still be
    created, on behalf of a deployment is named by that deployment's row.

    This module states the rules and the invariant, one deployment at a time. */
module Ownership {
  import opened Rows
  import opened Machine
  import opened CoreSafety

  // ------------------------------------------------------------------ operating rules

  /** A reconciliation of `d` is running although its job already has a final status. */
  predicate Detached(w: World, d: nat) {
    exists j | j in w.recs :: j in w.db.jobs && w.db.jobs[j].dep == d && w.recs[j].host != Inline
  }

  /** What operation has to guarantee: no handler changes a deployment while a detached
      reconciliation of it runs, confirmations are truthful, local clean-up is not used on an
      unconfirmed identity, and a fresh VMID is not written on another row already. */
  predicate Disciplined(w: World, a: Action) {
    match a
    case Http(Admit(d, _)) => !Detached(w, d)
    case Http(RetryCleanup(d)) => !Detached(w, d)
    case Http(Confirm(d, newest)) =>
      && !Detached(w, d)
      && (d in w.db.deps && Uncertain(w.db, d, newest) ==>
            w.db.deps[d].vmid.Some? && w.db.deps[d].vmid.value in w.vms
            && w.vms[w.db.deps[d].vmid.value] == Created(d))
    case Http(LocalCleanup(d)) =>
      !Detached(w, d) && (d in w.db.deps ==> w.db.deps[d].identity != Submitting)
    case Work(SelectVmid(j, v)) =>
      j in w.db.jobs ==> forall e | e in w.db.deps && e != w.db.jobs[j].dep :: w.db.deps[e].vmid != Some(v)
    case _ => true
  }

  /** No rule speaks about this action. */
  predicate Unruled(a: Action) {
    match a
    case Http(h) => h.AdmitDeploy? || h.CancelRequest? || h.Power? || h.Prune?
    case Work(x) => !x.SelectVmid?
    case _ => true
  }

  lemma UnruledIsDisciplined(w: World, a: Action)
    requires Unruled(a)
    ensures Disciplined(w, a)
  {
  }

  ghost predicate DisciplinedTrace(ws: seq<World>, acts: seq<Action>) {
    Trace(ws, acts) && forall i | 0 <= i < |acts| :: Disciplined(ws[i], acts[i])
  }

  ghost predicate DisciplinedRun(ws: seq<World>, acts: seq<Action>) {
    DisciplinedTrace(ws, acts) && Init(ws[0])
  }

  /** Every existing VM and every request that may still land is named by the row it was made for. */
  ghost predicate NoOrphan(w: World) {
    && (forall v | v in w.vms && w.vms[v].Created? ::
          w.vms[v].dep in w.db.deps && w.db.deps[w.vms[v].dep].vmid == Some(v))
    && (forall r | r in w.pending :: r.dep in w.db.deps && w.db.deps[r.dep].vmid == Some(r.vmid))
  }

  // ------------------------------------------------------------------ the invariant of one deployment

  /** Deployment `d` has no VM and no create request in flight. */
  ghost predicate Bare(w: World, d: nat) {
    && (forall v | v in w.vms :: w.vms[v] != Created(d))
    && (forall r | r in w.pending :: r.dep != d)
  }

  ghost predicate OwnOk(w: World, d: nat) {
    && (forall v | v in w.vms && w.vms[v] == Created(d) :: d in w.db.deps && w.db.deps[d].vmid == Some(v))
    && (forall r | r in w.pending && r.dep == d ::
          && d in w.db.deps && w.db.deps[d].vmid == Some(r.vmid) && w.db.deps[d].identity == Submitting
          && (forall v | v in w.vms :: w.vms[v] != Created(d))
          && (forall q | q in w.pending && q.dep == d :: q == r))
  }

  ghost predicate ProcOk(w: World, j: nat, p: Phase)
    requires j in w.db.jobs
  {
    var job := w.db.jobs[j];
    var d := job.dep;
    p != Settled ==>
      && d in w.db.deps
      && var row := w.db.deps[d];
      && (p == Begun && job.kind == Deploy ==> row.vmid.None? && job.task.None?)
      && (p == Gone || p.Chosen? || p.Marked? || p.Refused? ==> Bare(w, d))
      && (p == Gone || Creating(p) ==> SettledTask(w, j))
      && (Creating(p) ==> row.vmid == Some(p.vmid))
      && (p.Marked? || p.Sent? <==> row.identity == Submitting)
      && (p.Sent? ==> forall r | r in w.pending && r.dep == d :: r.job == j)
  }

  ghost predicate RecOk(w: World, j: nat, rec: Rec)
    requires j in w.db.jobs
  {
    var d := w.db.jobs[j].dep;
    && (rec.phase.Destroying? || rec.phase.Probing? || rec.phase.Found? ==>
          && d in w.db.deps
          && w.db.deps[d].vmid == rec.phase.vmid
          && w.db.deps[d].identity != Submitting
          && (if rec.phase.Destroying? && rec.phase.last.Some? then w.db.jobs[j].task == rec.phase.last
              else SettledTask(w, j)))
    && (rec.phase.Found? && rec.phase.presence == Absent ==> Bare(w, d))
  }

  ghost predicate JobOk(w: World, j: nat)
    requires j in w.db.jobs
  {
    var job := w.db.jobs[j];
    && (job.status == Queued || job.status == Waiting ==>
          && job.dep in w.db.deps
          && w.db.deps[job.dep].identity != Submitting
          && (job.status == Queued ==> job.task.None? && (job.kind == Deploy ==> w.db.deps[job.dep].vmid.None?)))
    && (job.status == Running && j in w.procs ==> ProcOk(w, j, w.procs[j]))
    && (j in w.recs ==> RecOk(w, j, w.recs[j]))
    && (job.status == Running && !w.booting ==> j in w.procs || j in w.recs)
  }

  predicate Live(w: World, j: nat)
    requires j in w.db.jobs
  {
    Active(w.db.jobs[j].status) || j in w.recs
  }

  /** A job that no thread but the job worker's restart recovery still acts on. */
  predicate Dormant(w: World, j: nat)
    requires j in w.db.jobs
  {
    if j in w.recs then w.recs[j].phase == Done || w.recs[j].host == Aftermath
    else w.db.jobs[j].status == Running && j !in w.procs
  }

  ghost predicate RowOk(w: World, d: nat)
    requires d in w.db.deps
  {
    var row := w.db.deps[d];
    row.status == CleanupPending ==>
      && row.identity != Submitting
      && (row.origin == Some(Deploy) || row.origin == Some(Destroy))
      && (forall j | j in w.db.jobs && w.db.jobs[j].dep == d && Live(w, j) :: Dormant(w, j))
  }

  ghost predicate CleanerOk(w: World, d: nat)
    requires d in w.cleaners
  {
    var c := w.cleaners[d];
    && d in w.db.deps
    && w.db.deps[d].status == CleanupPending && w.db.deps[d].vmid == c.vmid
    && (c.Seen? && c.presence == Absent ==> Bare(w, d))
  }

  /** All facts about deployment `d` and the jobs that work on it; the job that is being worked
      on is the newest one. */
  ghost predicate DepInv(w: World, d: nat) {
    && OwnOk(w, d)
    && (d in w.db.deps ==> RowOk(w, d))
    && (d in w.cleaners ==> CleanerOk(w, d))
    && (forall j | j in w.db.jobs && w.db.jobs[j].dep == d :: JobOk(w, j))
    && LiveIsNewest(w, d)
  }

  ghost predicate LiveIsNewest(w: World, d: nat) {
    forall j, k | j in w.db.jobs && k in w.db.jobs && w.db.jobs[j].dep == d && w.db.jobs[k].dep == d
                  && Live(w, j) :: k <= j
  }

  ghost predicate Distinct(db: Tables) {
    forall d, e | d in db.deps && e in db.deps && db.deps[d].vmid.Some? && db.deps[d].vmid == db.deps[e].vmid :: d == e
  }

  ghost predicate Globals(w: World) {
    && (forall j | j in w.db.jobs && w.db.jobs[j].task.Some? :: w.db.jobs[j].task.value < w.nextTask)
    && (forall t | t in w.tasks :: t < w.nextTask)
    && (w.cleaners != map[] ==>
          && !w.booting
          && (forall j | j in w.procs :: !Main(w.procs[j]))
          && (forall j | j in w.recs :: w.recs[j].host == Waiter))
    && w.db.leases <= w.db.deps.Keys
    && Distinct(w.db)
  }

  ghost predicate Own(w: World) {
    Core(w) && Globals(w) && forall d: nat :: DepInv(w, d)
  }

  // ------------------------------------------------------------------ one step touches one deployment

  ghost predicate SameJobs(w: World, w': World, d: nat) {
    && (forall j :: j in w'.db.jobs && w'.db.jobs[j].dep == d <==> j in w.db.jobs && w.db.jobs[j].dep == d)
    && (forall j | j in w.db.jobs && w.db.jobs[j].dep == d ::
          && w'.db.jobs[j] == w.db.jobs[j].(cancelRequested := w'.db.jobs[j].cancelRequested)
          && (j in w'.procs <==> j in w.procs) && (j in w.procs ==> w'.procs[j] == w.procs[j])
          && (j in w'.recs <==> j in w.recs) && (j in w.recs ==> w'.recs[j] == w.recs[j])
          && (SettledTask(w, j) ==> SettledTask(w', j)))
    && w'.booting == w.booting
  }

  ghost predicate SameRow(w: World, w': World, d: nat) {
    && (d in w.db.deps <==> d in w'.db.deps)
    && (d in w.db.deps ==> w'.db.deps[d] == w.db.deps[d])
    && (d in w.cleaners <==> d in w'.cleaners)
    && (d in w.cleaners ==> w'.cleaners[d] == w.cleaners[d])
  }

  ghost predicate SameAssets(w: World, w': World, d: nat) {
    && (forall v :: v in w'.vms && w'.vms[v] == Created(d) <==> v in w.vms && w.vms[v] == Created(d))
    && (forall r: Request | r.dep == d :: r in w'.pending <==> r in w.pending)
  }

  lemma SameOwn(w: World, w': World, d: nat)
    requires SameRow(w, w', d) && SameAssets(w, w', d)
    ensures OwnOk(w, d) ==> OwnOk(w', d)
    ensures Bare(w, d) ==> Bare(w', d)
  {
  }

  lemma SameJob(w: World, w': World, d: nat, j: nat)
    requires SameJobs(w, w', d) && SameRow(w, w', d) && SameAssets(w, w', d)
    requires j in w.db.jobs && w.db.jobs[j].dep == d && JobOk(w, j)
    ensures j in w'.db.jobs && JobOk(w', j)
  {
    assert Bare(w, d) ==> Bare(w', d);
  }

  lemma SameStatus(w: World, w': World, d: nat)
    requires SameJobs(w, w', d) && SameRow(w, w', d)
    ensures d in w.db.deps && RowOk(w, d) ==> RowOk(w', d)
    ensures LiveIsNewest(w, d) ==> LiveIsNewest(w', d)
  {
    forall j | j in w'.db.jobs && w'.db.jobs[j].dep == d
      ensures j in w.db.jobs && w.db.jobs[j].dep == d
      ensures Live(w', j) == Live(w, j) && Dormant(w', j) == Dormant(w, j)
    {
    }
  }

  /** Nothing that the invariant of `d` reads has changed. */
  lemma SameDep(w: World, w': World, d: nat)
    requires SameJobs(w, w', d) && SameRow(w, w', d) && SameAssets(w, w', d) && DepInv(w, d)
    ensures DepInv(w', d)
  {
    forall j | j in w'.db.jobs && w'.db.jobs[j].dep == d ensures JobOk(w', j) {
      SameJob(w, w', d, j);
    }
    SameOwn(w, w', d);
    SameStatus(w, w', d);
  }

  /** Only the row of `d`, and its reservation, change. */
  ghost predicate RowOnly(db: Tables, db': Tables, d: nat) {
    && db'.jobs == db.jobs
    && (forall e | e != d :: (e in db'.deps <==> e in db.deps) && (e in db.deps ==> db'.deps[e] == db.deps[e]))
    && db'.leases <= db.leases && (d in db'.leases ==> d in db'.deps)
    && (d in db'.deps ==>
          && d in db.deps
          && db'.deps[d].vmid == db.deps[d].vmid
          && (db'.deps[d].identity == db.deps[d].identity || db'.deps[d].identity == Submitting))
  }

  /** At most the job `j`, its threads, the row of its deployment `d`, and the assets of `d`
      change. */
  ghost predicate Local(w: World, w': World, j: nat, d: nat) {
    && w'.booting == w.booting && w'.cleaners == w.cleaners
    && (forall k | k != j ::
          && (k in w'.db.jobs <==> k in w.db.jobs)
          && (k in w.db.jobs ==> w'.db.jobs[k] == w.db.jobs[k])
          && (k in w'.procs <==> k in w.procs) && (k in w.procs ==> w'.procs[k] == w.procs[k])
          && (k in w'.recs <==> k in w.recs) && (k in w.recs ==> w'.recs[k] == w.recs[k]))
    && (forall e | e != d ::
      (e in w'.db.deps <==> e in w.db.deps) && (e in w.db.deps ==> w'.db.deps[e] == w.db.deps[e]))
    && (forall e | e != d :: SameAssets(w, w', e))
    && (forall t | t in w'.tasks :: t in w.tasks || w.nextTask <= t)
  }

  lemma OnlyLive(w: World, j: nat)
    requires Own(w) && j in w.db.jobs && Live(w, j)
    ensures forall k | k in w.db.jobs && k != j && w.db.jobs[k].dep == w.db.jobs[j].dep :: k <= j && !Live(w, k)
  {
    assert DepInv(w, w.db.jobs[j].dep);
  }

  /** The step re-establishes what concerns `d` and its only live job `j`. */
  ghost predicate Mended(w': World, j: nat, d: nat) {
    && Globals(w') && OwnOk(w', d)
    && (d in w'.db.deps ==> RowOk(w', d))
    && (d in w'.cleaners ==> CleanerOk(w', d))
    && j in w'.db.jobs && w'.db.jobs[j].dep == d && JobOk(w', j)
  }

  lemma Elsewhere(w: World, w': World, j: nat, d: nat, e: nat)
    requires Globals(w) && j in w.db.jobs && w.db.jobs[j].dep == d && e != d
    requires j in w'.db.jobs && w'.db.jobs[j].dep == d
    requires Local(w, w', j, d)
    ensures SameJobs(w, w', e) && SameRow(w, w', e) && SameAssets(w, w', e)
  {
  }

  lemma Siblings(w: World, w': World, j: nat, d: nat)
    requires j in w.db.jobs && w.db.jobs[j].dep == d && j in w'.db.jobs && w'.db.jobs[j].dep == d
    requires Core(w') && Local(w, w', j, d) && JobOk(w', j)
    requires forall k | k in w.db.jobs && k != j && w.db.jobs[k].dep == d :: k <= j && !Live(w, k)
    ensures LiveIsNewest(w', d)
    ensures forall k | k in w'.db.jobs && w'.db.jobs[k].dep == d :: JobOk(w', k)
  {
  }

  lemma OneDep(w: World, w': World, j: nat)
    requires Own(w) && j in w.db.jobs && Live(w, j)
    requires Core(w') && Local(w, w', j, w.db.jobs[j].dep) && Mended(w', j, w.db.jobs[j].dep)
    ensures Own(w')
  {
    var d := w.db.jobs[j].dep;
    OnlyLive(w, j);
    forall e: nat | e != d ensures DepInv(w', e) {
      Elsewhere(w, w', j, d, e);
      SameDep(w, w', e);
    }
    Siblings(w, w', j, d);
  }

  // ------------------------------------------------------------------ the best-effort destroy

  /** The tables after a destroy that hit row `d`: a task on its newest job, distrust of the row. */
  ghost predicate TornRow(db: Tables, db': Tables, d: nat, newest: Option<nat>, task: Option<nat>)
    requires d in db.deps
  {
    && db'.leases == db.leases
    && (db'.jobs == db.jobs
        || (newest.Some? && newest.value in db.jobs && db.jobs[newest.value].dep == d && task.Some?
            && db'.jobs == db.jobs[newest.value := db.jobs[newest.value].(task := task)]))
    && (db'.deps == db.deps || db'.deps == db.deps[d := db.deps[d].(identity := Submitting, status := Error)])
  }

  lemma TornTables(db: Tables, d: nat, t: Tear)
    requires t.hit == d && d in db.deps && Newest(db, d, t.newest)
    ensures TornRow(db, TornDown(db, d, t.newest, t.Outcome(), t.Task()), d, t.newest, t.Task())
    ensures t.Outcome() != Unconfirmed ==> TornDown(db, d, t.newest, t.Outcome(), t.Task()).deps == db.deps
  {
  }
}
