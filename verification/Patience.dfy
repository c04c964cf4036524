/** Going on with a deployment is safe for its remote tasks exactly when its newest job's has stopped. */
module Patience {
  import opened Rows
  import opened Machine
  import opened CoreSafety
  import opened Ownership
  import opened OwnershipRest
  import opened Tasks
  import opened Release

  /** However it goes on from `w` within the rules, `d` is released only when all its recorded tasks
      have stopped. */
  ghost predicate GoesWell(w: World, d: nat) {
    forall ws, acts, i: nat | PatientTrace(ws, acts) && ws[0] == w && i < |acts| && Releases(ws[i], ws[i + 1], d) ::
      AllSettled(ws[i], d)
  }

  /** So it is from this step on, which itself need not follow the rules. */
  ghost predicate StepGoesWell(w: World, a: Action, d: nat)
    requires Enabled(w, a)
  {
    (Releases(w, Apply(w, a), d) ==> AllSettled(w, d)) && GoesWell(Apply(w, a), d)
  }

  lemma InOrderGoesWell(w: World, d: nat)
    requires InOrder(w)
    ensures GoesWell(w, d)
  {
    forall ws, acts, i: nat | PatientTrace(ws, acts) && ws[0] == w && i < |acts| && Releases(ws[i], ws[i + 1], d)
      ensures AllSettled(ws[i], d)
    {
      InOrderAlways(ws, acts, i);
      assert Step(ws[i], acts[i], ws[i + 1]);
      ReleaseIsProven(ws[i], acts[i], d);
    }
  }

  ghost predicate ByRule(w: World, a: Action, w': World) {
    Step(w, a, w') && Disciplined(w, a) && Patient(w, a)
  }

  lemma BadRelease(w: World, a: Action, w': World, d: nat)
    requires ByRule(w, a, w') && Releases(w, w', d) && !AllSettled(w, d)
    ensures !GoesWell(w, d)
  {
    var ws, acts := [w, w'], [a];
    assert PatientTrace(ws, acts) && ws[0] == w && Releases(ws[0], ws[0 + 1], d);
  }

  lemma BadStep(w: World, a: Action, w': World, d: nat)
    requires ByRule(w, a, w') && !GoesWell(w', d)
    ensures !GoesWell(w, d)
  {
    hide Step, Disciplined, Patient, Releases, AllSettled;
    var ws, acts, i: nat :| PatientTrace(ws, acts) && ws[0] == w' && i < |acts| && Releases(ws[i], ws[i + 1], d)
      && !AllSettled(ws[i], d);
    var more, first := [w] + ws, [a] + acts;
    Prepend(w, a, ws, acts);
    forall n | 0 <= n < |first| ensures Disciplined(more[n], first[n]) && Patient(more[n], first[n]) {
      assert n > 0 ==> Disciplined(ws[n - 1], acts[n - 1]) && Patient(ws[n - 1], acts[n - 1]);
    }
    assert more[i + 1] == ws[i] && more[i + 1 + 1] == ws[i + 1];
    assert PatientTrace(more, first) && more[0] == w && Releases(more[i + 1], more[i + 1 + 1], d);
  }

  // ------------------------------------------------------------------ the deployment by itself

  /** All that a handler can read of the deployment: its row, its jobs, and which tasks are running. */
  ghost predicate AlikeOn(w: World, w': World, d: nat) {
    && (d in w'.db.deps <==> d in w.db.deps) && (d in w.db.deps ==> w'.db.deps[d] == w.db.deps[d])
    && (forall j :: j in w'.db.jobs && w'.db.jobs[j].dep == d <==> j in w.db.jobs && w.db.jobs[j].dep == d)
    && (forall j | j in w.db.jobs && w.db.jobs[j].dep == d :: w'.db.jobs[j] == w.db.jobs[j])
    && w'.tasks == w.tasks
  }

  /** Nobody is at work, nothing else is there, and the VM is gone. */
  function Only(w: World, d: nat): World
    requires d in w.db.deps
  {
    World(Tables(map j | j in w.db.jobs && w.db.jobs[j].dep == d :: w.db.jobs[j], map[d := w.db.deps[d]], {}),
          w.nextJob, w.nextDep, w.nextTask, map[], map[], map[], false, map[], {}, w.tasks, map[])
  }

  ghost predicate Idle(w: World, d: nat) {
    forall j | j in w.db.jobs && w.db.jobs[j].dep == d :: Terminal(w.db.jobs[j].status)
  }

  lemma OnlyCore(w: World, d: nat)
    requires Core(w) && d in w.db.deps
    ensures Core(Only(w, d))
  {
    var w' := Only(w, d);
    forall j: nat
      ensures Fine(ViewOf(w', j), w'.booting)
      ensures w'.nextJob <= j ==> ViewOf(w', j) == View(None, None, None, 0)
      ensures ViewOf(w', j).row.Some? ==> ViewOf(w', j).row == ViewOf(w, j).row
    {
      assert Fine(ViewOf(w, j), w.booting);
    }
    forall j: nat | ViewOf(w', j).row.Some? ensures ViewOf(w', j).row.value.dep < w'.nextDep {
      assert ViewOf(w, j).row.value.dep < w.nextDep;
    }
    forall e, j, k: nat | ActiveOn(ViewOf(w', j), e) && ActiveOn(ViewOf(w', k), e) ensures j == k {
      assert ActiveOn(ViewOf(w, j), e) && ActiveOn(ViewOf(w, k), e);
    }
  }

  lemma OnlyInOrder(w: World, d: nat)
    requires InOrder(w) && d in w.db.deps && Idle(w, d)
    ensures InOrder(Only(w, d)) && AlikeOn(w, Only(w, d), d)
  {
    OnlyCore(w, d);
    assert DepInv(w, d) && DepTasks(w, d);
    forall e: nat ensures DepInv(Only(w, d), e) && DepTasks(Only(w, d), e) {
      OnlyDep(w, d, e);
    }
  }

  lemma OnlyDep(w: World, d: nat, e: nat)
    requires DepInv(w, d) && DepTasks(w, d) && d in w.db.deps && Idle(w, d)
    ensures DepInv(Only(w, d), e) && DepTasks(Only(w, d), e)
  {
  }

  // ------------------------------------------------------------------ what can follow

  lemma CleanupGoesWrong(w: World, d: nat)
    requires CanLocalCleanup(w, d) && Disciplined(w, Http(LocalCleanup(d))) && NewestSettled(w, d) && !AllSettled(w, d)
    ensures !GoesWell(w, d)
  {
    BadRelease(w, Http(LocalCleanup(d)), DoLocalCleanup(w, d), d);
  }

  /** One more job, in this status, and its reconciliation. */
  function Joined(w: World, d: nat, kind: Kind, status: JobStatus, recs: map<nat, Rec>, booting: bool): World
    requires d in w.db.deps
  {
    var db := Requested(Only(w, d).db, w.nextJob, d, kind);
    Only(w, d).(db := WithStatus(db, w.nextJob, status), nextJob := w.nextJob + 1, recs := recs, booting := booting)
  }

  /** The deployment can be given up: nobody works on it, and its newest job recorded no task. */
  lemma JoinedIsOpen(w: World, d: nat, kind: Kind)
    requires d in w.db.deps && Idle(w, d) && w.db.deps[d].identity != Submitting
    requires forall j | j in w.db.jobs :: j < w.nextJob
    ensures
      var w' := Joined(w, d, kind, Failed, map[], true);
      CanLocalCleanup(w', d) && Disciplined(w', Http(LocalCleanup(d))) && NewestSettled(w', d)
  {
    var w' := Joined(w, d, kind, Failed, map[], true);
    assert w'.db.jobs[w.nextJob].task.None?;
    assert CanLocalCleanup(w', d);
    assert Disciplined(w', Http(LocalCleanup(d)));
    forall j | j in w'.db.jobs && Newest(w'.db, d, Some(j)) ensures SettledTask(w', j) {
      assert w'.db.jobs[w.nextJob].dep == d;
      assert j == w.nextJob;
    }
  }

  lemma JoinedUnsettled(w: World, d: nat, kind: Kind, status: JobStatus, recs: map<nat, Rec>, booting: bool)
    requires d in w.db.deps && w.nextJob !in w.db.jobs && !AllSettled(w, d)
    ensures !AllSettled(Joined(w, d, kind, status, recs, booting), d)
  {
    var j :| j in w.db.jobs && w.db.jobs[j].dep == d && !SettledTask(w, j);
    assert !SettledTask(Joined(w, d, kind, status, recs, booting), j);
  }

  lemma JoinedAdmit(w: World, d: nat, kind: Kind)
    requires d in w.db.deps
    ensures DoAdmit(Only(w, d), d, kind) == Joined(w, d, kind, Queued, map[], false)
  {
    var db, n := DoAdmit(Only(w, d), d, kind).db, w.nextJob;
    assert db.jobs[n] == NewRow(kind, d);
    assert db.jobs[n := db.jobs[n]] == db.jobs;
    assert WithStatus(db, n, Queued) == db;
  }

  lemma JoinedClaim(w: World, d: nat, kind: Kind, late: map<nat, Rec>)
    requires d in w.db.deps && Idle(w, d) && w.nextJob !in w.db.jobs
    requires late == map[w.nextJob := Rec(false, Aftermath, Checking)]
    ensures ByRule(Joined(w, d, kind, Queued, map[], false), Work(Claim(w.nextJob, true)),
                   Joined(w, d, kind, Failed, late, false))
  {
    var w1, n := Joined(w, d, kind, Queued, map[], false), w.nextJob;
    assert CanClaim(w1, n);
    assert w1.db.jobs[n := w1.db.jobs[n].(status := Failed)] == Joined(w, d, kind, Failed, late, false).db.jobs;
    assert DoClaim(w1, n, true) == Joined(w, d, kind, Failed, late, false);
  }

  lemma JoinedCrash(w: World, d: nat, kind: Kind, late: map<nat, Rec>)
    requires d in w.db.deps
    ensures ByRule(Joined(w, d, kind, Failed, late, false), Cluster(Crash), Joined(w, d, kind, Failed, map[], true))
  {
  }

  lemma NextIsUnused(w: World)
    requires Core(w)
    ensures w.nextJob !in w.db.jobs && forall j | j in w.db.jobs :: j < w.nextJob
  {
    assert ViewOf(w, w.nextJob) == View(None, None, None, 0);
    forall j | j in w.db.jobs ensures j < w.nextJob {
      Known(w, j);
    }
  }

  /** The admitted job is failed on a disabled source, the process crashes, and local clean-up looks at
      that job only. */
  lemma AdmissionGoesWrong(w: World, d: nat, kind: Kind)
    requires d in w.db.deps && Idle(w, d) && Core(w) && !AllSettled(w, d) && w.db.deps[d].identity != Submitting
    ensures !GoesWell(DoAdmit(Only(w, d), d, kind), d)
  {
    NextIsUnused(w);
    hide Step, Disciplined, Joined, NewestSettled, AllSettled;
    var late := map[w.nextJob := Rec(false, Aftermath, Checking)];
    var w1, w2 := Joined(w, d, kind, Queued, map[], false), Joined(w, d, kind, Failed, late, false);
    var w3 := Joined(w, d, kind, Failed, map[], true);
    JoinedAdmit(w, d, kind);
    JoinedClaim(w, d, kind, late);
    JoinedCrash(w, d, kind, late);
    JoinedIsOpen(w, d, kind);
    JoinedUnsettled(w, d, kind, Failed, map[], true);
    CleanupGoesWrong(w3, d);
    BadStep(w2, Cluster(Crash), w3, d);
    BadStep(w1, Work(Claim(w.nextJob, true)), w2, d);
  }

  /** The retry looks at the VM only. */
  lemma RetryGoesWrong(w: World, d: nat)
    requires d in w.db.deps && w.db.deps[d].status == CleanupPending && !AllSettled(w, d)
    ensures CanCleanBegin(Only(w, d), d) && !GoesWell(DoCleanBegin(Only(w, d), d), d)
  {
    var w1 := DoCleanBegin(Only(w, d), d);
    OnlyUnsettled(w, d);
    if w1.cleaners[d].Tearing? {
      var newest := SomeNewest(w1.db, d);
      TearGoesWrong(w1, d, newest);
    } else {
      LookGoesWrong(w1, d);
    }
  }

  lemma OnlyUnsettled(w: World, d: nat)
    requires d in w.db.deps && !AllSettled(w, d)
    ensures !AllSettled(Only(w, d), d)
  {
    var j :| j in w.db.jobs && w.db.jobs[j].dep == d && !SettledTask(w, j);
    assert !SettledTask(Only(w, d), j);
  }

  predicate Retrying(w: World, d: nat) {
    && d in w.cleaners && d in w.db.deps && w.db.deps[d].vmid == w.cleaners[d].vmid
    && w.db.deps[d].status == CleanupPending && w.vms == map[]
  }

  lemma TearGoesWrong(w: World, d: nat, newest: Option<nat>)
    requires Retrying(w, d) && w.cleaners[d].Tearing? && w.cleaners[d].last.None? && w.cleaners[d].vmid.Some?
    requires Newest(w.db, d, newest) && !AllSettled(w, d)
    ensures !GoesWell(w, d)
  {
    var t := Tear(d, newest, End(Untouched));
    assert Held(w, w.cleaners[d].vmid);
    var w' := DoCleanTear(w, d, t);
    assert AllSettled(w', d) ==> AllSettled(w, d);
    LookGoesWrong(w', d);
    BadStep(w, Cleaning(CleanDestroy(d, t)), w', d);
  }

  lemma LookGoesWrong(w: World, d: nat)
    requires Retrying(w, d) && w.cleaners[d].Looking? && !AllSettled(w, d)
    ensures !GoesWell(w, d)
  {
    var w1 := DoCleanProbe(w, d, Absent);
    assert AllSettled(w1, d) ==> AllSettled(w, d);
    BadRelease(w1, Cleaning(CleanCommit(d)), DoCleanCommit(w1, d), d);
    BadStep(w, Cleaning(CleanProbe(d, Absent)), w1, d);
  }

  // ------------------------------------------------------------------ the exact condition

  /** Whoever goes on with a deployment is idle on it. */
  lemma ResumedIsIdle(w: World, a: Action, d: nat)
    requires Own(w) && Enabled(w, a) && Resumes(a, d)
    ensures d in w.db.deps && Idle(w, d)
  {
    if a.Cleaning? {
      PendingIsQuiet(w, d);
    }
  }

  lemma PatientGoesWell(w: World, a: Action, d: nat)
    requires InOrder(w) && Enabled(w, a) && Disciplined(w, a) && Resumes(a, d) && NewestSettled(w, d)
    ensures StepGoesWell(w, a, d)
  {
    InOrderStep(w, a);
    InOrderGoesWell(Apply(w, a), d);
    if Releases(w, Apply(w, a), d) {
      ReleaseIsProven(w, a, d);
    }
  }

  lemma ImpatientGoesWrong(w: World, a: Action, d: nat)
    requires InOrder(w) && Enabled(w, a) && Disciplined(w, a) && Resumes(a, d) && !AllSettled(w, d)
    requires d in w.db.deps && Idle(w, d)
    ensures Enabled(Only(w, d), a) && Disciplined(Only(w, d), a) && !StepGoesWell(Only(w, d), a, d)
  {
    OnlyUnsettled(w, d);
    match a {
      case Http(LocalCleanup(_)) =>
      case Http(Admit(_, kind)) => AdmissionGoesWrong(w, d, kind);
      case Http(RetryCleanup(_)) => AdmissionGoesWrong(w, d, Destroy);
      case Cleaning(CleanBegin(_)) => RetryGoesWrong(w, d);
    }
  }

  /** To admit a job, to clean up locally, or to start a clean-up retry is safe for the recorded tasks,
      in every state in order that looks the same on the deployment, exactly when the task of its
      newest job has stopped. */
  lemma PatienceIsExact(w: World, a: Action, d: nat)
    requires InOrder(w) && Enabled(w, a) && Disciplined(w, a) && Resumes(a, d)
    ensures
      (forall w': World | InOrder(w') && AlikeOn(w, w', d) && Enabled(w', a) && Disciplined(w', a) ::
         StepGoesWell(w', a, d))
      <==> NewestSettled(w, d)
  {
    if NewestSettled(w, d) {
      forall w': World | InOrder(w') && AlikeOn(w, w', d) && Enabled(w', a) && Disciplined(w', a)
        ensures StepGoesWell(w', a, d)
      {
        AlikeNewest(w, w', d);
        PatientGoesWell(w', a, d);
      }
    } else {
      ResumedIsIdle(w, a, d);
      OnlyInOrder(w, d);
      assert !AllSettled(w, d);
      ImpatientGoesWrong(w, a, d);
    }
  }

  lemma AlikeNewest(w: World, w': World, d: nat)
    requires AlikeOn(w, w', d) && NewestSettled(w, d)
    ensures NewestSettled(w', d)
  {
    forall j | j in w'.db.jobs && Newest(w'.db, d, Some(j)) ensures SettledTask(w', j) {
      assert Newest(w.db, d, Some(j));
      assert SettledTask(w, j);
    }
  }
}
