/** Ownership is released only when no recorded remote task of the deployment is still running. */
module Release {
  import opened Rows
  import opened Machine
  import opened Ownership
  import opened OwnershipSteps
  import opened OwnershipRest
  import opened NoOrphans
  import opened Tasks

  lemma TasksStep(w: World, a: Action, e: nat)
    requires InOrder(w) && Enabled(w, a) && Disciplined(w, a) && Patient(w, a)
    ensures DepTasks(Apply(w, a), e)
  {
    assert DepTasks(w, e);
    match a {
      case Http(h) => HandlerTasks(w, h, e);
      case Work(x) => WorkTasks(w, x, e);
      case Wait(x) => WaitTasks(w, x, e);
      case Reconcile(r) => RecTasks(w, r, e);
      case Cleaning(c) => RetriesTasks(w, c, e);
      case Cluster(c) => EventTasks(w, c, e);
    }
  }

  lemma InOrderStep(w: World, a: Action)
    requires InOrder(w) && Enabled(w, a) && Disciplined(w, a) && Patient(w, a)
    ensures InOrder(Apply(w, a))
  {
    OwnStep(w, a);
    forall e: nat ensures DepTasks(Apply(w, a), e) {
      TasksStep(w, a, e);
    }
  }

  // ------------------------------------------------------------------ release

  /** The row of `d` is dropped, or its VMID cleared, by this step. */
  predicate Releases(w: World, w': World, d: nat) {
    && d in w.db.deps
    && (d !in w'.db.deps || (w.db.deps[d].vmid.Some? && w'.db.deps[d].vmid.None?))
  }

  /** The deployment has no VM and no request in flight, and no task recorded on any of its jobs is
      still running. */
  ghost predicate ProvenGone(w: World, d: nat) {
    Bare(w, d) && AllSettled(w, d)
  }

  lemma HandlersHold(w: World, a: HttpAction, d: nat)
    requires HttpEnabled(w, a) && !a.LocalCleanup?
    requires Own(w)
    ensures !Releases(w, HttpApply(w, a), d)
  {
    FreshIsUnknown(w);
  }

  lemma WorkHolds(w: World, a: WorkAction, d: nat)
    requires WorkEnabled(w, a) && !a.DropRow? && !a.Raise?
    ensures !Releases(w, WorkApply(w, a), d)
  {
  }

  lemma WaitHolds(w: World, a: WaitAction, d: nat)
    requires WaitEnabled(w, a)
    ensures !Releases(w, WaitApply(w, a), d)
  {
  }

  /** Recording a task, or distrusting a row, keeps every row and its VMID. */
  lemma TornHolds(db: Tables, t: Tear, d: nat)
    requires d in db.deps
    ensures
      var db' := TornDown(db, t.hit, t.newest, t.Outcome(), t.Task());
      d in db'.deps && db'.deps[d].vmid == db.deps[d].vmid
  {
  }

  lemma CheckHolds(db: Tables, j: nat, settled: bool, d: nat)
    requires d in db.deps && Check(db, j, settled).Halt?
    ensures d in Check(db, j, settled).db.deps && Check(db, j, settled).db.deps[d].vmid == db.deps[d].vmid
  {
  }

  lemma RecHolds(w: World, a: RecAction, d: nat)
    requires RecEnabled(w, a) && !a.RecCommit?
    ensures !Releases(w, RecApply(w, a), d)
  {
    if d in w.db.deps {
      match a {
        case RecCheck(j, settled) => if Check(w.db, j, settled).Halt? { CheckHolds(w.db, j, settled, d); }
        case RecDestroy(_, t) => TornHolds(w.db, t, d);
        case _ =>
      }
    }
  }

  lemma CleanHolds(w: World, a: CleanAction, d: nat)
    requires CleanEnabled(w, a) && !a.CleanCommit?
    ensures !Releases(w, CleanApply(w, a), d)
  {
    if d in w.db.deps && a.CleanDestroy? {
      TornHolds(w.db, a.tear, d);
    }
  }

  /** The newest job has settled its task, and the older ones have. */
  lemma LastTask(w: World, j: nat)
    requires Near(w, j) && SettledTask(w, j) && Bare(w, w.db.jobs[j].dep) && OlderSettled(w, w.db.jobs[j].dep)
    ensures ProvenGone(w, w.db.jobs[j].dep)
  {
  }

  /** The job worker drops the row, or gives the VMID back, only in phases in which nothing is left. */
  lemma ReleaserIsDone(w: World, a: WorkAction, d: nat)
    requires (a.DropRow? || a.Raise?) && WorkEnabled(w, a) && Near(w, a.job) && Releases(w, WorkApply(w, a), d)
    ensures w.db.jobs[a.job].dep == d && Bare(w, d) && SettledTask(w, a.job)
  {
    assert JobOk(w, a.job) && ProcOk(w, a.job, w.procs[a.job]);
  }

  lemma WorkReleases(w: World, a: WorkAction, d: nat)
    requires InOrder(w) && WorkEnabled(w, a) && Releases(w, WorkApply(w, a), d)
    ensures ProvenGone(w, d)
  {
    assert DepTasks(w, d);
    if !a.DropRow? && !a.Raise? {
      WorkHolds(w, a, d);
    } else {
      HeldIsNear(w, a.job);
      ReleaserIsDone(w, a, d);
      LastTask(w, a.job);
    }
  }

  lemma RecReleases(w: World, a: RecAction, d: nat)
    requires InOrder(w) && RecEnabled(w, a) && Releases(w, RecApply(w, a), d)
    ensures ProvenGone(w, d)
  {
    assert DepTasks(w, d);
    if !a.RecCommit? {
      RecHolds(w, a, d);
    } else {
      var j := a.job;
      LiveIsNear(w, j);
      assert JobOk(w, j) && RecOk(w, j, w.recs[j]);
      var f := w.recs[j].phase;
      if w.recs[j].canceled {
        CommitCanceledRow(w.db, j, f.vmid, f.presence, a.runtime);
      } else {
        CommitFailedRow(w.db, j, f.vmid, f.presence);
      }
      LastTask(w, j);
    }
  }

  lemma CleanReleases(w: World, a: CleanAction, d: nat)
    requires InOrder(w) && CleanEnabled(w, a) && Releases(w, CleanApply(w, a), d)
    ensures ProvenGone(w, d)
  {
    assert DepTasks(w, d);
    if !a.CleanCommit? {
      CleanHolds(w, a, d);
    } else {
      var c := w.cleaners[a.dep];
      assert DepInv(w, a.dep);
      CommitCleanupRow(w.db, a.dep, c.vmid, c.origin, c.presence);
    }
  }

  lemma CleanupReleases(w: World, d: nat, e: nat)
    requires InOrder(w) && CanLocalCleanup(w, e) && Disciplined(w, Http(LocalCleanup(e)))
    requires Patient(w, Http(LocalCleanup(e))) && Releases(w, DoLocalCleanup(w, e), d)
    ensures ProvenGone(w, d)
  {
    assert DepInv(w, e) && DepTasks(w, e);
    assert Resumes(Http(LocalCleanup(e)), e);
    NewestIsAll(w, e);
  }

  lemma HandlerReleases(w: World, a: HttpAction, d: nat)
    requires InOrder(w) && HttpEnabled(w, a) && Disciplined(w, Http(a)) && Patient(w, Http(a))
    requires Releases(w, HttpApply(w, a), d)
    ensures ProvenGone(w, d)
  {
    if a.LocalCleanup? {
      CleanupReleases(w, d, a.dep);
    } else {
      HandlersHold(w, a, d);
    }
  }

  lemma EventsHold(w: World, a: ClusterAction, d: nat)
    requires ClusterEnabled(w, a)
    ensures !Releases(w, ClusterApply(w, a), d)
  {
  }

  lemma ReleaseIsProven(w: World, a: Action, d: nat)
    requires InOrder(w) && Enabled(w, a) && Disciplined(w, a) && Patient(w, a) && Releases(w, Apply(w, a), d)
    ensures ProvenGone(w, d)
  {
    match a {
      case Http(h) => HandlerReleases(w, h, d);
      case Work(x) => WorkReleases(w, x, d);
      case Wait(x) => WaitHolds(w, x, d);
      case Reconcile(r) => RecReleases(w, r, d);
      case Cleaning(c) => CleanReleases(w, c, d);
      case Cluster(c) => EventsHold(w, c, d);
    }
  }

  // ------------------------------------------------------------------ runs

  ghost predicate PatientTrace(ws: seq<World>, acts: seq<Action>) {
    DisciplinedTrace(ws, acts) && forall i | 0 <= i < |acts| :: Patient(ws[i], acts[i])
  }

  lemma {:induction false} InOrderAlways(ws: seq<World>, acts: seq<Action>, i: nat)
    requires PatientTrace(ws, acts) && InOrder(ws[0]) && i < |ws|
    ensures InOrder(ws[i])
  {
    if i > 0 {
      InOrderAlways(ws, acts, i - 1);
      assert Step(ws[i - 1], acts[i - 1], ws[i]);
      InOrderStep(ws[i - 1], acts[i - 1]);
    }
  }

  /** Ownership is released only with proof, whichever step drops the row or clears the VMID: no VM,
      no request in flight, and no unsettled task on any job of the deployment. */
  lemma ReleaseNeedsProof(ws: seq<World>, acts: seq<Action>, i: nat, d: nat)
    requires PatientTrace(ws, acts) && Init(ws[0]) && i < |acts| && Releases(ws[i], ws[i + 1], d)
    ensures ProvenGone(ws[i], d)
  {
    OwnInit(ws[0]);
    InOrderAlways(ws, acts, i);
    assert Step(ws[i], acts[i], ws[i + 1]);
    ReleaseIsProven(ws[i], acts[i], d);
  }
}
