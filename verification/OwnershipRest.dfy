/** The steps that are not taken on behalf of one live job: handlers, clean-up retries, the
    cluster, crash and restart.

    A step on one row (`RowLocal`) leaves every other deployment alone; on a deployment on which
    nobody works (`Quiet`) only its row and its assets have to be looked at. */
module OwnershipRest {
  import opened Rows
  import opened Machine
  import opened CoreSafety
  import opened Ownership

  // ------------------------------------------------------------------ steps on one row

  /** Threads stay where they are, jobs keep their status, and apart from `d` nothing changes. */
  ghost predicate RowLocal(w: World, w': World, d: nat) {
    && w'.procs == w.procs && w'.recs == w.recs && w'.booting == w.booting
    && (forall k | k in w'.db.jobs ::
          && k in w.db.jobs && w'.db.jobs[k].dep == w.db.jobs[k].dep && w'.db.jobs[k].status == w.db.jobs[k].status
          && (w.db.jobs[k].dep != d ==> w'.db.jobs[k] == w.db.jobs[k]))
    && (forall k | k in w.db.jobs && w.db.jobs[k].dep != d :: k in w'.db.jobs)
    && (forall e | e != d :: SameRow(w, w', e))
    && (forall e | e != d :: SameAssets(w, w', e))
    && (forall t | t in w'.tasks :: t in w.tasks || w.nextTask <= t)
  }

  lemma RowStep(w: World, w': World, d: nat)
    requires Own(w) && Core(w') && Globals(w') && RowLocal(w, w', d)
    requires OwnOk(w', d) && (d in w'.db.deps ==> RowOk(w', d)) && (d in w'.cleaners ==> CleanerOk(w', d))
    requires forall j | j in w'.db.jobs && w'.db.jobs[j].dep == d :: JobOk(w', j)
    ensures Own(w')
  {
    forall e: nat | e != d ensures DepInv(w', e) {
      assert DepInv(w, e);
      RowElsewhere(w, w', d, e);
      SameDep(w, w', e);
    }
    assert DepInv(w, d);
    RowNewest(w, w', d);
  }

  lemma RowElsewhere(w: World, w': World, d: nat, e: nat)
    requires Globals(w) && RowLocal(w, w', d) && e != d
    ensures SameJobs(w, w', e) && SameRow(w, w', e) && SameAssets(w, w', e)
  {
  }

  lemma RowNewest(w: World, w': World, d: nat)
    requires RowLocal(w, w', d) && LiveIsNewest(w, d)
    ensures LiveIsNewest(w', d)
  {
    forall j | j in w'.db.jobs && w'.db.jobs[j].dep == d
      ensures j in w.db.jobs && w.db.jobs[j].dep == d && Live(w', j) == Live(w, j)
    {
    }
  }

  /** No job of `d` is worked on, apart from reconciliations that have nothing left to do. */
  ghost predicate Quiet(w: World, d: nat) {
    forall j | j in w.db.jobs && w.db.jobs[j].dep == d ::
      Terminal(w.db.jobs[j].status) && (j in w.recs ==> w.recs[j].phase == Done)
  }

  lemma QuietJobs(w: World, w': World, d: nat)
    requires RowLocal(w, w', d) && Quiet(w, d)
    ensures forall j | j in w'.db.jobs && w'.db.jobs[j].dep == d :: JobOk(w', j)
  {
  }

  lemma QuietRow(w: World, w': World, d: nat)
    requires RowLocal(w, w', d) && Quiet(w, d) && d in w'.db.deps
    requires w'.db.deps[d].status == CleanupPending ==>
      w'.db.deps[d].identity != Submitting
      && (w'.db.deps[d].origin == Some(Deploy) || w'.db.deps[d].origin == Some(Destroy))
    ensures RowOk(w', d)
  {
  }

  /** The lifecycle guard, and no detached reconciliation, leave the deployment quiet. */
  lemma FreeIsQuiet(w: World, d: nat)
    requires Core(w) && Free(w, d) && !Detached(w, d)
    ensures forall j | j in w.db.jobs && w.db.jobs[j].dep == d :: !Live(w, j)
    ensures Quiet(w, d)
  {
    forall j | j in w.db.jobs && w.db.jobs[j].dep == d ensures !Live(w, j) {
      assert Fine(ViewOf(w, j), w.booting);
    }
  }

  // ------------------------------------------------------------------ handlers

  lemma AdmitOwn(w: World, w': World, d: nat, row: Job)
    requires Own(w) && Core(w')
    requires forall j | j in w.db.jobs && w.db.jobs[j].dep == d :: !Live(w, j)
    requires row.dep == d && row.status == Queued && row.task.None?
    requires w'.db.jobs == w.db.jobs[w.nextJob := row]
    requires w'.procs == w.procs && w'.recs == w.recs && w'.cleaners == w.cleaners && w'.booting == w.booting
    requires w'.vms == w.vms && w'.pending == w.pending && w'.tasks == w.tasks && w'.nextTask == w.nextTask
    requires d !in w.cleaners
    requires d in w'.db.deps && w'.db.deps[d].status == Working && w'.db.deps[d].identity != Submitting
    requires w'.db.deps == w.db.deps[d := w'.db.deps[d]]
    requires w'.db.leases <= w.db.leases + {d}
    requires w'.db.deps[d].vmid == if d in w.db.deps then w.db.deps[d].vmid else None
    requires d in w.db.deps ==> w.db.deps[d].identity == w'.db.deps[d].identity
    requires row.kind == Deploy ==> w'.db.deps[d].vmid.None?
    ensures Own(w')
  {
    var n := w.nextJob;
    assert ViewOf(w, n) == View(None, None, None, 0);
    assert n !in w.db.jobs && n !in w.recs && n !in w.procs;
    forall e: nat | e != d ensures DepInv(w', e) {
      assert DepInv(w, e);
      AdmitElsewhere(w, w', d, row, e);
    }
    forall j | j in w.db.jobs && w.db.jobs[j].dep == d ensures j < w.nextJob {
      Known(w, j);
    }
    assert DepInv(w, d);
    AdmitDep(w, w', d, row);
    assert Globals(w');
  }

  lemma AdmitElsewhere(w: World, w': World, d: nat, row: Job, e: nat)
    requires DepInv(w, e) && e != d && row.dep == d && w.nextJob !in w.db.jobs
    requires w'.db.jobs == w.db.jobs[w.nextJob := row]
    requires w'.procs == w.procs && w'.recs == w.recs && w'.cleaners == w.cleaners && w'.booting == w.booting
    requires w'.vms == w.vms && w'.pending == w.pending && w'.tasks == w.tasks
    requires d in w'.db.deps && w'.db.deps == w.db.deps[d := w'.db.deps[d]]
    ensures DepInv(w', e)
  {
    SameDep(w, w', e);
  }

  lemma AdmitDep(w: World, w': World, d: nat, row: Job)
    requires DepInv(w, d) && w.nextJob !in w.db.jobs && w.nextJob !in w.recs && w.nextJob !in w.procs
    requires forall j | j in w.db.jobs && w.db.jobs[j].dep == d :: !Live(w, j) && j < w.nextJob
    requires row.dep == d && row.status == Queued && row.task.None?
    requires w'.db.jobs == w.db.jobs[w.nextJob := row]
    requires w'.procs == w.procs && w'.recs == w.recs && w'.cleaners == w.cleaners
    requires w'.vms == w.vms && w'.pending == w.pending && d !in w.cleaners
    requires d in w'.db.deps && w'.db.deps[d].status == Working && w'.db.deps[d].identity != Submitting
    requires w'.db.deps[d].vmid == if d in w.db.deps then w.db.deps[d].vmid else None
    requires d in w.db.deps ==> w.db.deps[d].identity == w'.db.deps[d].identity
    requires row.kind == Deploy ==> w'.db.deps[d].vmid.None?
    ensures DepInv(w', d)
  {
  }

  lemma FreshIsUnknown(w: World)
    requires Own(w)
    ensures w.nextDep !in w.db.deps && w.nextDep !in w.cleaners
    ensures forall j | j in w.db.jobs :: w.db.jobs[j].dep != w.nextDep
  {
    forall j | j in w.db.jobs ensures w.db.jobs[j].dep != w.nextDep {
      Known(w, j);
    }
    assert DepInv(w, w.nextDep);
  }

  lemma CancelOwn(w: World, j: nat)
    requires Own(w) && CanCancel(w, j)
    ensures Own(DoCancel(w, j))
  {
    CancelCore(w, j);
    var w' := DoCancel(w, j);
    forall d: nat ensures DepInv(w', d) {
      assert DepInv(w, d);
      SameDep(w, w', d);
    }
  }

  lemma CancelCore(w: World, j: nat)
    requires Core(w) && CanCancel(w, j)
    ensures Core(DoCancel(w, j))
  {
    HttpStep(w, CancelRequest(j));
  }

  lemma PruneOwn(w: World, j: nat)
    requires Own(w) && CanPrune(w, j)
    ensures Own(DoPrune(w, j))
  {
    HttpStep(w, Prune(j));
    var d := w.db.jobs[j].dep;
    assert DepInv(w, d);
    PruneLocal(w, j);
    PruneJobs(w, j, d);
    RowStep(w, DoPrune(w, j), d);
  }

  lemma PruneLocal(w: World, j: nat)
    requires Globals(w) && CanPrune(w, j)
    ensures RowLocal(w, DoPrune(w, j), w.db.jobs[j].dep) && Globals(DoPrune(w, j))
  {
  }

  lemma PruneJobs(w: World, j: nat, d: nat)
    requires DepInv(w, d) && CanPrune(w, j) && w.db.jobs[j].dep == d
    ensures
      var w' := DoPrune(w, j);
      && OwnOk(w', d) && (d in w'.db.deps ==> RowOk(w', d)) && (d in w'.cleaners ==> CleanerOk(w', d))
      && forall k | k in w'.db.jobs && w'.db.jobs[k].dep == d :: JobOk(w', k)
  {
    var w' := DoPrune(w, j);
    assert Bare(w, d) ==> Bare(w', d);
    forall k | k in w'.db.jobs && w'.db.jobs[k].dep == d ensures JobOk(w', k) {
      assert JobOk(w, k);
    }
    assert d in w.db.deps ==> RowOk(w, d);
    forall k | k in w'.db.jobs && w'.db.jobs[k].dep == d
      ensures Live(w', k) == Live(w, k) && Dormant(w', k) == Dormant(w, k)
    {
    }
  }

  lemma PowerOwn(w: World, d: nat, on: bool)
    requires Own(w) && CanPower(w, d)
    ensures Own(DoPower(w, d, on))
  {
    HttpStep(w, Power(d, on));
    var w' := DoPower(w, d, on);
    assert DepInv(w, d);
    PowerLocal(w, d, on);
    PowerJobs(w, d, on);
    RowStep(w, w', d);
  }

  lemma PowerLocal(w: World, d: nat, on: bool)
    requires Globals(w) && CanPower(w, d)
    ensures RowLocal(w, DoPower(w, d, on), d) && Globals(DoPower(w, d, on))
  {
  }

  /** The invariant of a job does not read the power status of its deployment. */
  lemma PowerJobs(w: World, d: nat, on: bool)
    requires DepInv(w, d) && CanPower(w, d)
    ensures
      var w' := DoPower(w, d, on);
      OwnOk(w', d) && forall k | k in w'.db.jobs && w'.db.jobs[k].dep == d :: JobOk(w', k)
  {
    var w' := DoPower(w, d, on);
    assert Bare(w, d) ==> Bare(w', d);
    forall k | k in w'.db.jobs && w'.db.jobs[k].dep == d ensures JobOk(w', k) {
      assert JobOk(w, k);
    }
  }

  lemma ConfirmLocal(w: World, d: nat, newest: Option<nat>)
    requires CanConfirm(w, d, newest)
    ensures RowLocal(w, DoConfirm(w, d, newest), d)
  {
  }

  lemma ConfirmGlobals(w: World, d: nat, newest: Option<nat>)
    requires Globals(w) && CanConfirm(w, d, newest)
    ensures Globals(DoConfirm(w, d, newest))
  {
  }

  lemma ConfirmRow(w: World, d: nat, newest: Option<nat>)
    requires CanConfirm(w, d, newest) && OwnOk(w, d) && RowOk(w, d)
    requires w.db.deps[d].identity == Submitting ==> forall r | r in w.pending :: r.dep != d
    ensures
      var w' := DoConfirm(w, d, newest);
      OwnOk(w', d) && d in w'.db.deps && w'.db.deps[d].status != CleanupPending
  {
  }

  /** A confirmation while no create of this deployment can still land. */
  lemma ConfirmOwn(w: World, d: nat, newest: Option<nat>)
    requires Own(w) && CanConfirm(w, d, newest) && !Detached(w, d)
    requires w.db.deps[d].identity == Submitting ==> forall r | r in w.pending :: r.dep != d
    ensures Own(DoConfirm(w, d, newest))
  {
    HttpStep(w, Confirm(d, newest));
    FreeIsQuiet(w, d);
    var w' := DoConfirm(w, d, newest);
    assert DepInv(w, d);
    ConfirmLocal(w, d, newest);
    ConfirmGlobals(w, d, newest);
    ConfirmRow(w, d, newest);
    QuietJobs(w, w', d);
    QuietRow(w, w', d);
    RowStep(w, w', d);
  }

  /** The confirmed VM is there, so no create of its deployment can still land. */
  lemma LandedIsAll(w: World, d: nat, v: nat)
    requires OwnOk(w, d) && v in w.vms && w.vms[v] == Created(d)
    ensures forall r | r in w.pending :: r.dep != d
  {
  }

  /** A truthful confirmation keeps ownership in order. */
  lemma TruthOwn(w: World, d: nat, newest: Option<nat>)
    requires Own(w) && CanConfirm(w, d, newest) && Disciplined(w, Http(Confirm(d, newest)))
    ensures Own(DoConfirm(w, d, newest))
  {
    assert DepInv(w, d);
    if w.db.deps[d].identity == Submitting {
      LandedIsAll(w, d, w.db.deps[d].vmid.value);
    }
    ConfirmOwn(w, d, newest);
  }

  lemma LocalCleanupOwn(w: World, d: nat)
    requires Own(w) && CanLocalCleanup(w, d) && Disciplined(w, Http(LocalCleanup(d)))
    ensures Own(DoLocalCleanup(w, d))
  {
    HttpStep(w, LocalCleanup(d));
    FreeIsQuiet(w, d);
    var w' := DoLocalCleanup(w, d);
    assert DepInv(w, d);
    assert RowLocal(w, w', d);
    QuietJobs(w, w', d);
    RowStep(w, w', d);
  }

  lemma HandlerOwn(w: World, a: HttpAction)
    requires Own(w) && HttpEnabled(w, a) && Disciplined(w, Http(a))
    ensures Own(HttpApply(w, a))
  {
    match a {
      case AdmitDeploy(lease) =>
        FreshIsUnknown(w);
        HttpStep(w, a);
        AdmitOwn(w, DoAdmitDeploy(w, lease), w.nextDep, NewRow(Deploy, w.nextDep));
      case Admit(d, kind) =>
        FreeIsQuiet(w, d);
        HttpStep(w, a);
        AdmitOwn(w, DoAdmit(w, d, kind), d, NewRow(kind, d));
      case RetryCleanup(d) =>
        FreeIsQuiet(w, d);
        HttpStep(w, a);
        AdmitOwn(w, DoAdmit(w, d, Destroy), d, NewRow(Destroy, d));
      case CancelRequest(j) => CancelOwn(w, j);
      case Power(d, on) => PowerOwn(w, d, on);
      case Confirm(d, newest) => TruthOwn(w, d, newest);
      case LocalCleanup(d) => LocalCleanupOwn(w, d);
      case Prune(j) => PruneOwn(w, j);
    }
  }

  // ------------------------------------------------------------------ clean-up retries

  /** While a deployment is pending clean-up and the job worker is between two jobs, nobody works on it. */
  lemma PendingIsQuiet(w: World, d: nat)
    requires Own(w) && d in w.db.deps && w.db.deps[d].status == CleanupPending
    requires !w.booting && forall j | j in w.recs :: w.recs[j].host == Waiter
    ensures Quiet(w, d)
  {
    assert DepInv(w, d);
    forall j | j in w.db.jobs && w.db.jobs[j].dep == d
      ensures Terminal(w.db.jobs[j].status) && (j in w.recs ==> w.recs[j].phase == Done)
    {
      assert Fine(ViewOf(w, j), w.booting);
      assert JobOk(w, j);
      assert Live(w, j) ==> Dormant(w, j);
    }
  }

  lemma CleanTearOwn(w: World, d: nat, t: Tear)
    requires Own(w) && CanCleanTear(w, d, t)
    ensures Own(DoCleanTear(w, d, t))
  {
    CleanStep(w, CleanDestroy(d, t));
    assert DepInv(w, d);
    assert CleanerOk(w, d) && Held(w, w.cleaners[d].vmid) && t.hit == d;
    PendingIsQuiet(w, d);
    var w' := DoCleanTear(w, d, t);
    CleanTearLocal(w, d, t);
    QuietJobs(w, w', d);
    QuietRow(w, w', d);
    RowStep(w, w', d);
  }

  lemma TornGlobals(w: World, w': World, d: nat, newest: Option<nat>, task: Option<nat>)
    requires Globals(w) && d in w.db.deps && TornRow(w.db, w'.db, d, newest, task)
    requires task.Some? ==> task.value < w'.nextTask
    requires w.nextTask <= w'.nextTask && (forall t | t in w'.tasks :: t < w'.nextTask)
    requires w'.cleaners != map[] ==> w.cleaners != map[]
    requires w'.procs == w.procs && w'.recs == w.recs && w'.booting == w.booting
    ensures Globals(w')
  {
  }

  lemma TornLocal(w: World, w': World, d: nat, newest: Option<nat>, task: Option<nat>)
    requires d in w.db.deps && OwnOk(w, d) && TornRow(w.db, w'.db, d, newest, task)
    requires w'.procs == w.procs && w'.recs == w.recs && w'.booting == w.booting
    requires w'.vms == w.vms && w'.pending == w.pending
    requires forall e | e != d ::
      (e in w'.cleaners <==> e in w.cleaners) && (e in w.cleaners ==> w'.cleaners[e] == w.cleaners[e])
    requires forall t | t in w'.tasks :: t in w.tasks || w.nextTask <= t
    ensures RowLocal(w, w', d) && OwnOk(w', d)
  {
  }

  lemma CleanTearLocal(w: World, d: nat, t: Tear)
    requires Globals(w) && CanCleanTear(w, d, t) && t.hit == d && d in w.db.deps && OwnOk(w, d)
    requires Newest(w.db, d, t.newest)
    ensures RowLocal(w, DoCleanTear(w, d, t), d) && Globals(DoCleanTear(w, d, t)) && OwnOk(DoCleanTear(w, d, t), d)
  {
    TornTables(w.db, d, t);
    TornGlobals(w, DoCleanTear(w, d, t), d, t.newest, t.Task());
    TornLocal(w, DoCleanTear(w, d, t), d, t.newest, t.Task());
  }

  lemma CleanOwn(w: World, a: CleanAction)
    requires Own(w) && CleanEnabled(w, a)
    ensures Own(CleanApply(w, a))
  {
    CleanStep(w, a);
    var w', d := CleanApply(w, a), a.dep;
    assert DepInv(w, d);
    match a {
      case CleanBegin(_) => PendingIsQuiet(w, d); CleanLook(w, w', d);
      case CleanDestroy(_, t) => CleanTearOwn(w, d, t);
      case CleanProbe(_, _) => PendingIsQuiet(w, d); CleanLook(w, w', d);
      case CleanCommit(_) => CleanCommitOwn(w, d);
    }
  }

  /** A step of the retry that writes no row. */
  lemma CleanLook(w: World, w': World, d: nat)
    requires Own(w) && Core(w') && Quiet(w, d) && d in w'.cleaners
    requires w' == w.(cleaners := w.cleaners[d := w'.cleaners[d]])
    requires !w.booting && (forall j | j in w.procs :: !Main(w.procs[j])) && (forall j | j in w.recs ::
      w.recs[j].host == Waiter)
    requires d in w.db.deps && w.db.deps[d].status == CleanupPending && w.db.deps[d].vmid == w'.cleaners[d].vmid
    requires w'.cleaners[d].Seen? && w'.cleaners[d].presence == Absent ==> Truthful(w, w'.cleaners[d].vmid, Absent)
    ensures Own(w')
  {
    assert DepInv(w, d);
    assert RowLocal(w, w', d);
    assert OwnOk(w', d);
    QuietJobs(w, w', d);
    QuietRow(w, w', d);
    assert CleanerOk(w', d);
    RowStep(w, w', d);
  }

  lemma CommitCleanupRow(db: Tables, d: nat, vmid: Option<nat>, origin: Option<Kind>, presence: Presence)
    requires d in db.deps && db.deps[d].vmid == vmid && db.deps[d].status == CleanupPending
    ensures
      var db' := CommitCleanup(db, d, vmid, origin, presence);
      && RowOnly(db, db', d)
      && (d !in db'.deps <==> presence == Absent)
      && (d in db'.deps ==>
            && db'.deps[d].identity == db.deps[d].identity
            && (db'.deps[d] == db.deps[d] || (db'.deps[d].status == Stopped && presence == Present)))
  {
  }

  lemma CleanCommitLocal(w: World, w': World, d: nat)
    requires Globals(w) && OwnOk(w, d) && d in w.db.deps && d in w.cleaners
    requires w' == w.(db := w'.db, cleaners := w.cleaners - {d})
    requires RowOnly(w.db, w'.db, d)
    requires d in w'.db.deps ==> w'.db.deps[d].identity == w.db.deps[d].identity
    requires d !in w'.db.deps ==> Bare(w, d)
    ensures RowLocal(w, w', d) && Globals(w') && OwnOk(w', d)
  {
  }

  lemma CleanCommitOwn(w: World, d: nat)
    requires Own(w) && CanCleanCommit(w, d)
    ensures Own(DoCleanCommit(w, d))
  {
    CleanStep(w, CleanCommit(d));
    assert DepInv(w, d);
    PendingIsQuiet(w, d);
    var w' := DoCleanCommit(w, d);
    var c := w.cleaners[d];
    CommitCleanupRow(w.db, d, c.vmid, c.origin, c.presence);
    CleanCommitLocal(w, w', d);
    QuietJobs(w, w', d);
    if d in w'.db.deps {
      QuietRow(w, w', d);
    }
    RowStep(w, w', d);
  }

  // ------------------------------------------------------------------ cluster, crash, restart

  /** A VM disappears, a request is dropped, a task stops, a foreign VM appears. */
  lemma FewerAssets(w: World, w': World)
    requires Own(w) && Core(w')
    requires w' == w.(vms := w'.vms, pending := w'.pending, tasks := w'.tasks)
    requires forall v, d | v in w'.vms && w'.vms[v] == Created(d) :: v in w.vms && w.vms[v] == Created(d)
    requires w'.pending <= w.pending && w'.tasks <= w.tasks
    ensures Own(w')
  {
    forall d: nat ensures DepInv(w', d) {
      assert DepInv(w, d);
      FewerDep(w, w', d);
    }
  }

  lemma FewerDep(w: World, w': World, d: nat)
    requires DepInv(w, d)
    requires w' == w.(vms := w'.vms, pending := w'.pending, tasks := w'.tasks)
    requires forall v | v in w'.vms && w'.vms[v] == Created(d) :: v in w.vms && w.vms[v] == Created(d)
    requires w'.pending <= w.pending && w'.tasks <= w.tasks
    ensures DepInv(w', d)
  {
    assert Bare(w, d) ==> Bare(w', d);
    forall j | j in w'.db.jobs && w'.db.jobs[j].dep == d
      ensures JobOk(w', j) && Live(w', j) == Live(w, j) && Dormant(w', j) == Dormant(w, j)
    {
      assert JobOk(w, j);
    }
  }

  /** A create lands: it was named by its row, and nothing else is in flight for it. */
  lemma LandOwn(w: World, r: Request)
    requires Own(w) && r in w.pending && r.vmid !in w.vms
    ensures Own(DoLand(w, r))
  {
    ClusterStep(w, Land(r));
    var w', d := DoLand(w, r), r.dep;
    assert DepInv(w, d);
    forall e: nat | e != d ensures DepInv(w', e) {
      assert DepInv(w, e);
      LandElsewhere(w, r, e);
    }
    LandDep(w, r);
  }

  lemma LandElsewhere(w: World, r: Request, e: nat)
    requires DepInv(w, e) && e != r.dep && r in w.pending && r.vmid !in w.vms
    ensures DepInv(DoLand(w, r), e)
  {
    SameDep(w, DoLand(w, r), e);
  }

  lemma LandDep(w: World, r: Request)
    requires DepInv(w, r.dep) && r in w.pending && r.vmid !in w.vms
    ensures DepInv(DoLand(w, r), r.dep)
  {
    var w', d := DoLand(w, r), r.dep;
    forall j | j in w'.db.jobs && w'.db.jobs[j].dep == d
      ensures JobOk(w', j) && Live(w', j) == Live(w, j) && Dormant(w', j) == Dormant(w, j)
    {
      assert JobOk(w, j);
    }
  }

  lemma CrashOwn(w: World)
    requires Own(w)
    ensures Own(DoCrash(w))
  {
    ClusterStep(w, Crash);
    var w' := DoCrash(w);
    forall d: nat ensures DepInv(w', d) {
      assert DepInv(w, d);
      CrashDep(w, d);
    }
  }

  lemma CrashDep(w: World, d: nat)
    requires DepInv(w, d) && Core(w)
    ensures DepInv(DoCrash(w), d)
  {
    var w' := DoCrash(w);
    forall j | j in w'.db.jobs && w'.db.jobs[j].dep == d
      ensures JobOk(w', j) && (Live(w', j) ==> Live(w, j)) && (Live(w', j) && Dormant(w, j) ==> Dormant(w', j))
    {
      assert JobOk(w, j);
      assert Fine(ViewOf(w, j), w.booting);
    }
  }

  lemma RecoverOwn(w: World)
    requires Own(w) && w.booting
    ensures Own(DoRecover(w))
  {
    ClusterStep(w, Recover);
    var w' := DoRecover(w);
    forall d: nat ensures DepInv(w', d) {
      assert DepInv(w, d);
      RecoverDep(w, d);
    }
  }

  lemma RecoverDep(w: World, d: nat)
    requires DepInv(w, d) && Core(w) && w.booting && d !in w.cleaners
    ensures DepInv(DoRecover(w), d)
  {
    var w' := DoRecover(w);
    assert Bare(w, d) ==> Bare(w', d);
    forall j | j in w'.db.jobs && w'.db.jobs[j].dep == d
      ensures JobOk(w', j) && Live(w', j) == Live(w, j) && (Live(w, j) && Dormant(w, j) ==> Dormant(w', j))
    {
      assert JobOk(w, j);
      assert Fine(ViewOf(w, j), w.booting);
    }
  }

  lemma ClusterOwn(w: World, a: ClusterAction)
    requires Own(w) && ClusterEnabled(w, a)
    ensures Own(ClusterApply(w, a))
  {
    match a {
      case Land(r) => LandOwn(w, r);
      case Crash => CrashOwn(w);
      case Recover => RecoverOwn(w);
      case _ =>
        ClusterStep(w, a);
        FewerAssets(w, ClusterApply(w, a));
    }
  }

  // ------------------------------------------------------------------ the waiting worker after a restart

  /** A thread that still plays a job which recovery has already failed changes nothing. */
  lemma StrayOwn(w: World, w': World, j: nat)
    requires Own(w) && Core(w')
    requires j in w.db.jobs ==> w.db.jobs[j].status != Running
    requires j in w.procs && !Main(w.procs[j])
    requires w' == w.(procs := w'.procs, starts := w'.starts)
    requires forall k | k != j :: (k in w'.procs <==> k in w.procs) && (k in w.procs ==> w'.procs[k] == w.procs[k])
    requires j in w'.procs ==> !Main(w'.procs[j])
    ensures Own(w')
  {
    forall d: nat ensures DepInv(w', d) {
      assert DepInv(w, d);
      StrayDep(w, w', j, d);
    }
  }

  lemma StrayDep(w: World, w': World, j: nat, d: nat)
    requires DepInv(w, d)
    requires j in w.db.jobs ==> w.db.jobs[j].status != Running
    requires w' == w.(procs := w'.procs, starts := w'.starts)
    requires forall k | k != j :: (k in w'.procs <==> k in w.procs) && (k in w.procs ==> w'.procs[k] == w.procs[k])
    ensures DepInv(w', d)
  {
    assert Bare(w, d) ==> Bare(w', d);
    forall k | k in w'.db.jobs && w'.db.jobs[k].dep == d
      ensures JobOk(w', k) && Live(w', k) == Live(w, k) && (Live(w, k) && Dormant(w, k) ==> Dormant(w', k))
    {
      assert JobOk(w, k);
    }
  }
}
