/** What it takes that no deployment is left marked as `working` with nobody working on it: some job,
    or its reconciliation, still owes the status (`Attended`).

    A step either lets everybody owe what they owed (`StillOwed`), or is taken on behalf of one job
    which still owes the status afterwards or has written one (`Answered`).  The sections follow the
    threads. */
module StrandSteps {
  import opened Rows
  import opened Machine
  import opened CoreSafety
  import opened Ownership
  import opened OwnershipSteps
  import opened NoOrphans

  /** Some job of `d` is active, or its reconciliation has not yet committed. */
  ghost predicate WorkedOn(w: World, d: nat) {
    exists j :: j in w.db.jobs && w.db.jobs[j].dep == d
                && (Active(w.db.jobs[j].status) || (j in w.recs && w.recs[j].phase != Done))
  }

  ghost predicate NotStranded(w: World) {
    forall d | d in w.db.deps && w.db.deps[d].status == Working :: WorkedOn(w, d)
  }

  /** Job `j` still has to write the status of its deployment. */
  predicate Owes(w: World, j: nat) {
    && j in w.db.jobs
    && (Active(w.db.jobs[j].status) || j in w.recs)
    && !(j in w.recs && w.recs[j].phase == Done)
    && !At(w, j, Settled)
  }

  ghost predicate Awaited(w: World, d: nat) {
    exists j :: Owes(w, j) && w.db.jobs[j].dep == d
  }

  ghost predicate Attended(w: World) {
    forall d | d in w.db.deps && w.db.deps[d].status == Working :: Awaited(w, d)
  }

  lemma AttendedMeansNotStranded(w: World)
    requires Attended(w)
    ensures NotStranded(w)
  {
    forall d | d in w.db.deps && w.db.deps[d].status == Working ensures WorkedOn(w, d) {
      assert Awaited(w, d);
      var j :| Owes(w, j) && w.db.jobs[j].dep == d;
    }
  }

  // ------------------------------------------------------------------ two kinds of steps

  /** Nobody stops owing a status, and no row becomes `working`. */
  ghost predicate StillOwed(w: World, w': World) {
    && (forall j | Owes(w, j) :: Owes(w', j) && w'.db.jobs[j].dep == w.db.jobs[j].dep)
    && (forall d | d in w'.db.deps && w'.db.deps[d].status == Working ::
          d in w.db.deps && w.db.deps[d].status == Working)
  }

  lemma OwedStep(w: World, w': World)
    requires Attended(w) && StillOwed(w, w')
    ensures Attended(w')
  {
    forall d | d in w'.db.deps && w'.db.deps[d].status == Working ensures Awaited(w', d) {
      assert Awaited(w, d);
      var j :| Owes(w, j) && w.db.jobs[j].dep == d;
      assert Owes(w', j) && w'.db.jobs[j].dep == d;
    }
  }

  /** The step keeps job `j` owing, or writes the status, or finds it written. */
  ghost predicate Answered(w: World, w': World, j: nat, d: nat) {
    d in w'.db.deps && w'.db.deps[d].status == Working ==>
      || (Owes(w', j) && w'.db.jobs[j].dep == d)
      || (!Owes(w, j) && d in w.db.deps && w.db.deps[d].status == Working)
  }

  lemma LocalStep(w: World, w': World, j: nat)
    requires Attended(w) && Near(w, j) && Local(w, w', j, w.db.jobs[j].dep)
    requires Answered(w, w', j, w.db.jobs[j].dep)
    ensures Attended(w')
  {
    forall d | d in w'.db.deps && w'.db.deps[d].status == Working ensures Awaited(w', d) {
      if d != w.db.jobs[j].dep {
        assert Awaited(w, d);
        var k :| Owes(w, k) && w.db.jobs[k].dep == d;
        assert k != j;
        assert Owes(w', k) && w'.db.jobs[k].dep == d;
      } else if Owes(w', j) && w'.db.jobs[j].dep == d {
      } else {
        assert Awaited(w, d);
        var k :| Owes(w, k) && w.db.jobs[k].dep == d;
        assert Live(w, k);
        assert false;
      }
    }
  }

  // ------------------------------------------------------------------ the job worker

  lemma StayAnswers(w: World, a: WorkAction)
    requires Here(w, a.job) && WorkEnabled(w, a)
    requires a.Track? || a.ProveGone? || a.SelectVmid? || a.MarkSubmitting? || a.Send? || a.AcceptCreate?
             || a.RejectCreate? || a.Boot? || a.SkipPlay?
    ensures a.job in w.db.jobs && Answered(w, WorkApply(w, a), a.job, w.db.jobs[a.job].dep)
  {
  }

  lemma ClaimAnswers(w: World, j: nat, disabled: bool)
    requires Here(w, j) && CanClaim(w, j)
    ensures Answered(w, DoClaim(w, j, disabled), j, w.db.jobs[j].dep)
  {
  }

  lemma EndAnswers(w: World, a: WorkAction)
    requires Here(w, a.job) && WorkEnabled(w, a) && (a.Defer? || a.Finish? || a.DropRow? || a.Succeed?)
    ensures a.job in w.db.jobs && Answered(w, WorkApply(w, a), a.job, w.db.jobs[a.job].dep)
  {
  }

  lemma RaiseAnswers(w: World, j: nat, canceled: bool)
    requires Here(w, j) && CanRaise(w, j, canceled)
    ensures Answered(w, DoRaise(w, j, canceled), j, w.db.jobs[j].dep)
  {
  }

  lemma WorkAttended(w: World, a: WorkAction)
    requires Own(w) && Attended(w) && WorkEnabled(w, a) && Disciplined(w, Work(a))
    ensures Attended(WorkApply(w, a))
  {
    var j := a.job;
    WorkKept(w, a);
    Known(w, j);
    match a {
      case Claim(_, disabled) => ClaimAnswers(w, j, disabled);
      case Defer(_) => EndAnswers(w, a);
      case Finish(_) => EndAnswers(w, a);
      case DropRow(_) => EndAnswers(w, a);
      case Succeed(_) => EndAnswers(w, a);
      case Raise(_, canceled) => RaiseAnswers(w, j, canceled);
      case _ => StayAnswers(w, a);
    }
    LocalStep(w, WorkApply(w, a), j);
  }

  // ------------------------------------------------------------------ post-boot plan, waiting worker

  lemma PlayAnswers(w: World, j: nat)
    requires Here(w, j) && j in w.db.jobs && Active(w.db.jobs[j].status)
    requires CanPlay(w, j)
    ensures Answered(w, DoPlay(w, j), j, w.db.jobs[j].dep)
  {
  }

  lemma PlayOkAnswers(w: World, j: nat)
    requires Here(w, j) && j in w.db.jobs && Active(w.db.jobs[j].status)
    requires CanPlayOk(w, j)
    ensures Answered(w, DoPlayOk(w, j), j, w.db.jobs[j].dep)
  {
  }

  lemma WaitErrorAnswers(w: World, j: nat, canceled: bool)
    requires Here(w, j) && j in w.db.jobs && Active(w.db.jobs[j].status)
    requires CanAbort(w, j, canceled) || CanWaitRaise(w, j, canceled)
    ensures Answered(w, DoWaitError(w, j, canceled), j, w.db.jobs[j].dep)
  {
  }

  lemma WaitAnswers(w: World, a: WaitAction)
    requires Here(w, a.job) && WaitEnabled(w, a)
    requires a.job in w.db.jobs && Active(w.db.jobs[a.job].status)
    ensures Answered(w, WaitApply(w, a), a.job, w.db.jobs[a.job].dep)
  {
    match a {
      case Play(j) => PlayAnswers(w, j);
      case PlayOk(j) => PlayOkAnswers(w, j);
      case WaitAbort(j, canceled) => WaitErrorAnswers(w, j, canceled);
      case WaitRaise(j, canceled) => WaitErrorAnswers(w, j, canceled);
      case _ =>
    }
  }

  /** A thread whose job has ended, or was pruned, owes nothing. */
  lemma StrayOwes(w: World, a: WaitAction)
    requires Here(w, a.job) && WaitEnabled(w, a)
    requires a.job in w.db.jobs ==> Terminal(w.db.jobs[a.job].status)
    ensures StillOwed(w, WaitApply(w, a))
  {
  }

  lemma WaitAttended(w: World, a: WaitAction)
    requires Own(w) && Attended(w) && WaitEnabled(w, a)
    ensures Attended(WaitApply(w, a))
  {
    var j := a.job;
    Known(w, j);
    if j in w.db.jobs && Active(w.db.jobs[j].status) {
      WaitKept(w, a);
      WaitAnswers(w, a);
      LocalStep(w, WaitApply(w, a), j);
    } else {
      StrayOwes(w, a);
      OwedStep(w, WaitApply(w, a));
    }
  }

  // ------------------------------------------------------------------ reconciliation

  lemma CheckAnswers(w: World, j: nat, settled: bool)
    requires Near(w, j) && CanCheck(w, j, settled)
    ensures Answered(w, DoCheck(w, j, settled), j, w.db.jobs[j].dep)
  {
  }

  lemma TearAnswers(w: World, j: nat, t: Tear)
    requires Near(w, j) && CanTear(w, j, t)
    ensures Answered(w, DoTear(w, j, t), j, w.db.jobs[j].dep)
  {
    TearHitsOwnRow(w, j, t);
  }

  lemma CommitAnswers(w: World, j: nat, runtime: Option<DepStatus>)
    requires Near(w, j) && CanCommit(w, j, runtime)
    ensures Answered(w, DoCommit(w, j, runtime), j, w.db.jobs[j].dep)
  {
    var f := w.recs[j].phase;
    assert RecOk(w, j, w.recs[j]);
    if w.recs[j].canceled {
      CommitCanceledRow(w.db, j, f.vmid, f.presence, runtime);
    } else {
      CommitFailedRow(w.db, j, f.vmid, f.presence);
    }
  }

  lemma LookAnswers(w: World, a: RecAction)
    requires RecEnabled(w, a) && (a.RecProbe? || a.RecFinish?)
    ensures Answered(w, RecApply(w, a), a.job, w.db.jobs[a.job].dep)
  {
  }

  lemma RecAttended(w: World, a: RecAction)
    requires Own(w) && Attended(w) && RecEnabled(w, a)
    ensures Attended(RecApply(w, a))
  {
    var j := a.job;
    RecKept(w, a);
    match a {
      case RecCheck(_, settled) => CheckAnswers(w, j, settled);
      case RecDestroy(_, t) => TearAnswers(w, j, t);
      case RecCommit(_, runtime) => CommitAnswers(w, j, runtime);
      case _ => LookAnswers(w, a);
    }
    LocalStep(w, RecApply(w, a), j);
  }

  // ------------------------------------------------------------------ handlers, clean-up retries

  /** The admitted job owes the status of its deployment. */
  lemma AdmitAttended(w: World, w': World, d: nat)
    requires Core(w) && Attended(w)
    requires w.nextJob in w'.db.jobs && w'.db.jobs[w.nextJob].dep == d && w'.db.jobs[w.nextJob].status == Queued
    requires w'.db.jobs == w.db.jobs[w.nextJob := w'.db.jobs[w.nextJob]]
    requires w'.procs == w.procs && w'.recs == w.recs
    requires d in w'.db.deps && w'.db.deps == w.db.deps[d := w'.db.deps[d]]
    ensures Attended(w')
  {
    var n := w.nextJob;
    assert ViewOf(w, n) == View(None, None, None, 0);
    assert n !in w.db.jobs && n !in w.recs && n !in w.procs;
    forall e | e in w'.db.deps && w'.db.deps[e].status == Working ensures Awaited(w', e) {
      if e == d {
        assert Owes(w', n);
      } else {
        assert Awaited(w, e);
        var j :| Owes(w, j) && w.db.jobs[j].dep == e;
        assert Owes(w', j) && w'.db.jobs[j].dep == e;
      }
    }
  }

  lemma HandlerOwes(w: World, a: HttpAction)
    requires HttpEnabled(w, a) && !a.AdmitDeploy? && !a.Admit? && !a.RetryCleanup?
    ensures StillOwed(w, HttpApply(w, a))
  {
  }

  lemma HandlerAttended(w: World, a: HttpAction)
    requires Core(w) && Attended(w) && HttpEnabled(w, a)
    ensures Attended(HttpApply(w, a))
  {
    match a {
      case AdmitDeploy(lease) => AdmitAttended(w, DoAdmitDeploy(w, lease), w.nextDep);
      case Admit(d, kind) => AdmitAttended(w, DoAdmit(w, d, kind), d);
      case RetryCleanup(d) => AdmitAttended(w, DoAdmit(w, d, Destroy), d);
      case _ =>
        HandlerOwes(w, a);
        OwedStep(w, HttpApply(w, a));
    }
  }

  lemma TornOwes(w: World, w': World, d: nat, newest: Option<nat>, task: Option<nat>)
    requires d in w.db.deps && TornRow(w.db, w'.db, d, newest, task)
    requires w'.procs == w.procs && w'.recs == w.recs
    ensures StillOwed(w, w')
  {
  }

  /** A destroy that found no row of its VMID. */
  lemma MissOwes(w: World, w': World, t: Tear)
    requires t.hit !in w.db.deps && t.newest.None?
    requires w'.db == TornDown(w.db, t.hit, t.newest, t.Outcome(), t.Task())
    requires w'.procs == w.procs && w'.recs == w.recs
    ensures StillOwed(w, w')
  {
  }

  lemma CleanupOwes(w: World, w': World, d: nat, vmid: Option<nat>, origin: Option<Kind>, presence: Presence)
    requires w'.db == CommitCleanup(w.db, d, vmid, origin, presence)
    requires w'.procs == w.procs && w'.recs == w.recs
    ensures StillOwed(w, w')
  {
  }

  lemma CleanAttended(w: World, a: CleanAction)
    requires Attended(w) && CleanEnabled(w, a)
    ensures Attended(CleanApply(w, a))
  {
    var w' := CleanApply(w, a);
    match a {
      case CleanDestroy(d, t) =>
        if Held(w, w.cleaners[d].vmid) {
          TornTables(w.db, t.hit, t);
          TornOwes(w, w', t.hit, t.newest, t.Task());
        } else {
          MissOwes(w, w', t);
        }
      case CleanCommit(d) =>
        var c := w.cleaners[d];
        CleanupOwes(w, w', d, c.vmid, c.origin, c.presence);
      case _ =>
    }
    OwedStep(w, w');
  }
}
