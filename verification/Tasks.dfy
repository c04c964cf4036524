/** The remote tasks recorded on the jobs of a deployment: only the newest job's may still be running.

    A thread looks at the task of its own job only.  That the tasks of the older jobs have stopped
    is a fact about runs: each job is admitted, and each clean-up retry started, after the task of
    the job before it was settled (`Patient`).  Nothing in the code sees to that. */
module Tasks {
  import opened Rows
  import opened Machine
  import opened CoreSafety
  import opened Ownership
  import opened OwnershipSteps
  import opened OwnershipRest
  import opened NoOrphans

  ghost predicate AllSettled(w: World, d: nat) {
    forall j | j in w.db.jobs && w.db.jobs[j].dep == d :: SettledTask(w, j)
  }

  /** The task recorded on the newest job of the deployment has stopped. */
  predicate NewestSettled(w: World, d: nat) {
    forall j | j in w.db.jobs && Newest(w.db, d, Some(j)) :: SettledTask(w, j)
  }

  /** The steps that go on with a deployment after its newest job ended. */
  predicate Resumes(a: Action, d: nat) {
    || (a.Http? && (a.http.Admit? || a.http.RetryCleanup? || a.http.LocalCleanup?) && a.http.dep == d)
    || (a.Cleaning? && a.clean.CleanBegin? && a.clean.dep == d)
  }

  /** What the code leaves to luck: the newest job's task is looked at before going on. */
  ghost predicate Patient(w: World, a: Action) {
    forall d | Resumes(a, d) :: NewestSettled(w, d)
  }

  // ------------------------------------------------------------------ the invariant

  ghost predicate OlderSettled(w: World, d: nat) {
    forall j, k | j in w.db.jobs && k in w.db.jobs && w.db.jobs[j].dep == d && w.db.jobs[k].dep == d && j < k ::
      SettledTask(w, j)
  }

  /** While a retry runs, the only task that may be running is the one it submitted last. */
  ghost predicate RetryTasks(w: World, d: nat) {
    d in w.cleaners ==> forall j | j in w.db.jobs && w.db.jobs[j].dep == d ::
      SettledTask(w, j)
      || (w.cleaners[d].Tearing? && w.cleaners[d].last.Some? && w.db.jobs[j].task == w.cleaners[d].last)
  }

  ghost predicate DepTasks(w: World, d: nat) {
    OlderSettled(w, d) && RetryTasks(w, d)
  }

  ghost predicate InOrder(w: World) {
    Own(w) && forall d: nat :: DepTasks(w, d)
  }

  lemma NewestIsAll(w: World, d: nat)
    requires OlderSettled(w, d) && NewestSettled(w, d)
    ensures AllSettled(w, d)
  {
    forall j | j in w.db.jobs && w.db.jobs[j].dep == d ensures SettledTask(w, j) {
      if k :| k in w.db.jobs && w.db.jobs[k].dep == d && j < k {
      } else {
        assert Newest(w.db, d, Some(j));
      }
    }
  }

  // ------------------------------------------------------------------ steps keep it

  /** Jobs of `e` only leave, their tasks stay and only stop, and no retry on `e` starts or goes on. */
  ghost predicate TasksStay(w: World, w': World, e: nat) {
    && (forall j | j in w'.db.jobs && w'.db.jobs[j].dep == e ::
          && j in w.db.jobs && w.db.jobs[j].dep == e && w'.db.jobs[j].task == w.db.jobs[j].task
          && (SettledTask(w, j) ==> SettledTask(w', j)))
    && (e in w'.cleaners ==> e in w.cleaners && w'.cleaners[e] == w.cleaners[e])
  }

  lemma StaysInOrder(w: World, w': World, e: nat)
    requires TasksStay(w, w', e) && DepTasks(w, e)
    ensures DepTasks(w', e)
  {
  }

  /** The live job of a deployment is its newest one, so what becomes of its task does not matter. */
  lemma KeptTasks(w: World, w': World, j: nat, e: nat)
    requires Near(w, j) && Kept(w, w', j) && DepTasks(w, e)
    requires e == w.db.jobs[j].dep ==> e !in w.cleaners
    ensures DepTasks(w', e)
  {
    if e != w.db.jobs[j].dep {
      StaysInOrder(w, w', e);
    }
  }

  /** The job worker does not retry clean-ups while it executes a job. */
  lemma NoneRetried(w: World, a: WorkAction)
    requires Own(w) && WorkEnabled(w, a)
    ensures w.cleaners == map[]
  {
    assert a.Claim? || (a.job in w.procs && Main(w.procs[a.job]));
  }

  lemma WorkTasks(w: World, a: WorkAction, e: nat)
    requires Own(w) && WorkEnabled(w, a) && Disciplined(w, Work(a)) && DepTasks(w, e)
    ensures DepTasks(WorkApply(w, a), e)
  {
    hide *;
    WorkKept(w, a);
    NoneRetried(w, a);
    KeptTasks(w, WorkApply(w, a), a.job, e);
  }

  lemma RetriedIsQuiet(w: World, d: nat)
    requires Own(w) && d in w.cleaners
    ensures Quiet(w, d)
  {
    assert DepInv(w, d) && CleanerOk(w, d);
    PendingIsQuiet(w, d);
  }

  lemma WaitTasks(w: World, a: WaitAction, e: nat)
    requires Own(w) && WaitEnabled(w, a) && DepTasks(w, e)
    ensures DepTasks(WaitApply(w, a), e)
  {
    var j := a.job;
    if j in w.db.jobs && Active(w.db.jobs[j].status) {
      if w.db.jobs[j].dep in w.cleaners {
        RetriedIsQuiet(w, w.db.jobs[j].dep);
      }
      WaitKept(w, a);
      KeptTasks(w, WaitApply(w, a), j, e);
    } else {
      Known(w, j);
      StrayTasks(w, a, e);
    }
  }

  /** A thread that still plays a job which has ended writes nothing. */
  lemma StrayWritesNothing(w: World, a: WaitAction)
    requires WaitEnabled(w, a) && Fine(ViewOf(w, a.job), w.booting)
    requires !(a.job in w.db.jobs && Active(w.db.jobs[a.job].status))
    ensures
      var w' := WaitApply(w, a);
      w'.db == w.db && w'.cleaners == w.cleaners && w'.tasks == w.tasks
  {
  }

  lemma StrayTasks(w: World, a: WaitAction, e: nat)
    requires WaitEnabled(w, a) && DepTasks(w, e) && Fine(ViewOf(w, a.job), w.booting)
    requires !(a.job in w.db.jobs && Active(w.db.jobs[a.job].status))
    ensures DepTasks(WaitApply(w, a), e)
  {
    StrayWritesNothing(w, a);
    hide WaitApply, WaitEnabled, Fine, ViewOf;
    StaysInOrder(w, WaitApply(w, a), e);
  }

  lemma RecTasks(w: World, a: RecAction, e: nat)
    requires Own(w) && RecEnabled(w, a) && DepTasks(w, e)
    ensures DepTasks(RecApply(w, a), e)
  {
    var j := a.job;
    if w.db.jobs[j].dep in w.cleaners {
      RetriedIsQuiet(w, w.db.jobs[j].dep);
      StaysInOrder(w, DoRecFinish(w, j), e);
    } else {
      RecKept(w, a);
      KeptTasks(w, RecApply(w, a), j, e);
    }
  }

  /** Nothing of the deployment is running when its next job joins. */
  lemma JoinTasks(w: World, w': World, d: nat, row: Job, e: nat)
    requires DepTasks(w, e) && row.dep == d && row.task.None?
    requires e == d ==> AllSettled(w, d) && d !in w.cleaners
    requires w'.db.jobs == w.db.jobs[w.nextJob := row] && w.nextJob !in w.db.jobs
    requires w'.cleaners == w.cleaners && w'.tasks == w.tasks
    ensures DepTasks(w', e)
  {
    forall j | j in w'.db.jobs && w'.db.jobs[j].dep == e && j != w.nextJob
      ensures SettledTask(w, j) ==> SettledTask(w', j)
    {
    }
  }

  lemma HandlerTasks(w: World, a: HttpAction, e: nat)
    requires InOrder(w) && HttpEnabled(w, a) && Patient(w, Http(a))
    ensures DepTasks(HttpApply(w, a), e)
  {
    assert DepTasks(w, e);
    assert ViewOf(w, w.nextJob) == View(None, None, None, 0);
    match a {
      case AdmitDeploy(lease) =>
        FreshIsUnknown(w);
        JoinTasks(w, DoAdmitDeploy(w, lease), w.nextDep, NewRow(Deploy, w.nextDep), e);
      case Admit(d, kind) => AdmitTasks(w, d, kind, e);
      case RetryCleanup(d) => AdmitTasks(w, d, Destroy, e);
      case _ => StaysInOrder(w, HttpApply(w, a), e);
    }
  }

  lemma AdmitTasks(w: World, d: nat, kind: Kind, e: nat)
    requires InOrder(w) && Free(w, d) && NewestSettled(w, d)
    ensures DepTasks(DoAdmit(w, d, kind), e)
  {
    assert ViewOf(w, w.nextJob) == View(None, None, None, 0);
    assert DepTasks(w, e) && DepTasks(w, d);
    NewestIsAll(w, d);
    JoinTasks(w, DoAdmit(w, d, kind), d, NewRow(kind, d), e);
  }

  /** The retry goes on from a state in which all tasks but its own have stopped. */
  lemma RetryTearTasks(w: World, d: nat, t: Tear, e: nat)
    requires Own(w) && CanCleanTear(w, d, t) && DepTasks(w, d) && DepTasks(w, e)
    ensures DepTasks(DoCleanTear(w, d, t), e)
  {
    assert DepInv(w, d) && CleanerOk(w, d) && Held(w, w.cleaners[d].vmid) && t.hit == d;
    TornTables(w.db, d, t);
    TornBriefs(w.db, t);
    var w' := DoCleanTear(w, d, t);
    if e != d {
      StaysInOrder(w, w', e);
    } else {
      OwnTearTasks(w, d, t);
    }
  }

  lemma OwnTearTasks(w: World, d: nat, t: Tear)
    requires Globals(w) && CanCleanTear(w, d, t) && DepTasks(w, d) && t.hit == d && d in w.db.deps
    requires TornRow(w.db, TornDown(w.db, d, t.newest, t.Outcome(), t.Task()), d, t.newest, t.Task())
    ensures DepTasks(DoCleanTear(w, d, t), d)
  {
    var w' := DoCleanTear(w, d, t);
    if t.move.Issue? {
      assert AllSettled(w, d);
      forall j | j in w'.db.jobs && w'.db.jobs[j].dep == d && Some(j) != t.newest ensures SettledTask(w', j) {
        assert w'.db.jobs[j] == w.db.jobs[j] && SettledTask(w, j);
      }
    }
  }

  lemma RetriesTasks(w: World, a: CleanAction, e: nat)
    requires InOrder(w) && CleanEnabled(w, a) && Patient(w, Cleaning(a))
    ensures DepTasks(CleanApply(w, a), e)
  {
    assert DepTasks(w, e) && DepTasks(w, a.dep);
    match a {
      case CleanBegin(d) => assert Resumes(Cleaning(a), d); NewestIsAll(w, d);
      case CleanDestroy(d, t) => RetryTearTasks(w, d, t, e);
      case CleanProbe(d, p) =>
      case CleanCommit(d) => CommitTasks(w, d, e);
    }
  }

  lemma CommitTasks(w: World, d: nat, e: nat)
    requires CanCleanCommit(w, d) && DepTasks(w, e)
    ensures DepTasks(DoCleanCommit(w, d), e)
  {
    var c := w.cleaners[d];
    CleanupKeys(w.db, d, c.vmid, c.origin, c.presence);
    StaysInOrder(w, DoCleanCommit(w, d), e);
  }

  lemma EventTasks(w: World, a: ClusterAction, e: nat)
    requires ClusterEnabled(w, a) && DepTasks(w, e)
    ensures DepTasks(ClusterApply(w, a), e)
  {
    StaysInOrder(w, ClusterApply(w, a), e);
  }
}
