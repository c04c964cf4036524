/** The steps that are not taken on behalf of one job in progress: handlers, clean-up retries, the
    cluster, crash and restart.  Each keeps what `Guards` says of every deployment.

    Most of them leave a deployment as it was (`Stays`); what is left is the deployment that is
    admitted to, confirmed, cleaned up, or on which a create lands. */
module GuardRest {
  import opened Rows
  import opened Machine
  import opened CoreSafety
  import opened Ownership
  import opened Guards
  import opened GuardSteps

  // ------------------------------------------------------------------ handlers

  /** Job `n` joins the queue of a deployment on which nothing is in progress or in flight. */
  lemma JoinSound(w: World, w': World, d: nat, row: Job)
    requires DepSound(w, d) && NothingPending(w, d) && d !in w.cleaners
    requires w.nextJob !in w.db.jobs && w.nextJob !in w.recs
    requires forall k | k in w.db.jobs && w.db.jobs[k].dep == d :: !Active(w.db.jobs[k].status)
    requires row.dep == d && row.status == Queued
    requires w'.db.jobs == w.db.jobs[w.nextJob := row]
    requires w'.procs == w.procs && w'.recs == w.recs && w'.cleaners == w.cleaners
    requires w'.vms == w.vms && w'.pending == w.pending
    requires d in w'.db.deps && (d in w.db.deps ==> w'.db.deps[d].vmid == w.db.deps[d].vmid)
    requires d !in w.db.deps ==> Bare(w, d)
    requires row.kind == Deploy ==> w'.db.deps[d].vmid.None?
    ensures DepSound(w', d)
  {
    assert Bare(w, d) ==> Bare(w', d);
    forall k | k in w'.db.jobs && w'.db.jobs[k].dep == d ensures JobSound(w', k) {
      if k != w.nextJob {
        assert JobSound(w, k);
        if Resubmitted(w.db, k) {
          StillResubmitted(w.db, w'.db, k);
        }
      }
    }
  }

  lemma JoinStays(w: World, w': World, d: nat, row: Job, e: nat)
    requires e != d && row.dep == d && w.nextJob !in w.db.jobs
    requires w'.db.jobs == w.db.jobs[w.nextJob := row]
    requires w'.procs == w.procs && w'.recs == w.recs && w'.cleaners == w.cleaners
    requires w'.vms == w.vms && w'.pending == w.pending
    requires d in w'.db.deps && w'.db.deps == w.db.deps[d := w'.db.deps[d]]
    ensures Stays(w, w', e)
  {
  }

  /** The ids to come are unused. */
  lemma Unused(w: World)
    requires Sound(w)
    ensures w.nextJob !in w.db.jobs && w.nextJob !in w.recs && w.nextJob !in w.procs
    ensures w.nextDep !in w.db.deps && Bare(w, w.nextDep)
    ensures forall j | j in w.db.jobs :: j < w.nextJob && w.db.jobs[j].dep < w.nextDep
  {
    assert ViewOf(w, w.nextJob) == View(None, None, None, 0);
    forall j | j in w.db.jobs ensures j < w.nextJob && w.db.jobs[j].dep < w.nextDep {
      Known(w, j);
    }
    assert DepSound(w, w.nextDep);
  }

  lemma AdmitDeploySound(w: World, lease: bool, e: nat)
    requires Sound(w)
    ensures DepSound(DoAdmitDeploy(w, lease), e)
  {
    Unused(w);
    assert DepSound(w, e);
    var w', d := DoAdmitDeploy(w, lease), w.nextDep;
    if e == d {
      FreshSound(w, lease);
    } else {
      JoinStays(w, w', d, NewRow(Deploy, d), e);
      StaysSound(w, w', e);
    }
  }

  lemma FreshSound(w: World, lease: bool)
    requires Sound(w)
    ensures DepSound(DoAdmitDeploy(w, lease), w.nextDep)
  {
    Unused(w);
    var w', d := DoAdmitDeploy(w, lease), w.nextDep;
    assert DepSound(w, d) && Bare(w', d);
    forall k | k in w'.db.jobs && w'.db.jobs[k].dep == d ensures JobSound(w', k) {
      assert k == w.nextJob;
    }
  }

  lemma AdmitSound(w: World, d: nat, kind: Kind, e: nat)
    requires Sound(w) && Free(w, d) && w.db.deps[d].identity != Submitting && kind != Deploy
    ensures DepSound(DoAdmit(w, d, kind), e)
  {
    Unused(w);
    assert DepSound(w, e) && DepSound(w, d);
    var w' := DoAdmit(w, d, kind);
    if e == d {
      JoinSound(w, w', d, NewRow(kind, d));
    } else {
      JoinStays(w, w', d, NewRow(kind, d), e);
      StaysSound(w, w', e);
    }
  }

  lemma ConfirmStays(w: World, d: nat, newest: Option<nat>, e: nat)
    requires CanConfirm(w, d, newest) && (e != d || !Uncertain(w.db, d, newest))
    ensures Stays(w, DoConfirm(w, d, newest), e)
  {
  }

  /** The confirmed VM is there, so nothing else can land, whatever becomes of the doubt. */
  lemma DoubtSound(w: World, d: nat, newest: Option<nat>)
    requires CanConfirm(w, d, newest) && Guarded(w, Http(Confirm(d, newest))) && Uncertain(w.db, d, newest)
    requires Orderly(w) && DepSound(w, d)
    ensures DepSound(DoConfirm(w, d, newest), d)
  {
    var w' := DoConfirm(w, d, newest);
    assert NothingPending(w, d) && NothingPending(w', d);
    forall k | k in w'.db.jobs && w'.db.jobs[k].dep == d ensures JobSound(w', k) {
      assert JobSound(w, k) && !Active(w.db.jobs[k].status);
      if Resubmitted(w.db, k) {
        ConfirmRemembers(w, d, newest);
        StillResubmitted(w.db, w'.db, k);
      }
    }
  }

  lemma ConfirmRemembers(w: World, d: nat, newest: Option<nat>)
    requires CanConfirm(w, d, newest)
    ensures Remembers(w.db, DoConfirm(w, d, newest).db, d)
  {
  }

  lemma ConfirmSound(w: World, d: nat, newest: Option<nat>, e: nat)
    requires Sound(w) && CanConfirm(w, d, newest) && Guarded(w, Http(Confirm(d, newest)))
    ensures DepSound(DoConfirm(w, d, newest), e)
  {
    assert DepSound(w, e);
    if e == d && Uncertain(w.db, d, newest) {
      DoubtSound(w, d, newest);
    } else {
      ConfirmStays(w, d, newest, e);
      StaysSound(w, DoConfirm(w, d, newest), e);
    }
  }

  lemma LocalCleanupSound(w: World, d: nat, e: nat)
    requires Sound(w) && CanLocalCleanup(w, d) && Guarded(w, Http(LocalCleanup(d)))
    ensures DepSound(DoLocalCleanup(w, d), e)
  {
    assert DepSound(w, e) && DepSound(w, d);
    NothingLostIsGone(w, d);
    assert Bare(w, d);
    DropSound(w, d, e);
  }

  /** No reconciliation of an older job counts on the pruned one. */
  lemma PruneSound(w: World, k: nat, e: nat)
    requires Sound(w) && CanPrune(w, k) && Guarded(w, Http(Prune(k)))
    ensures DepSound(DoPrune(w, k), e)
  {
    assert DepSound(w, e);
    var w' := DoPrune(w, k);
    assert Bare(w, e) ==> Bare(w', e);
    forall j | j in w'.db.jobs && w'.db.jobs[j].dep == e ensures JobSound(w', j) {
      assert JobSound(w, j);
      if j in w.recs && w.recs[j].host == Waiter && Resubmitted(w.db, j) {
        PruneRemembers(w, k, j);
      }
    }
  }

  lemma PruneRemembers(w: World, k: nat, j: nat)
    requires CanPrune(w, k) && Guarded(w, Http(Prune(k)))
    requires j != k && j in w.recs && j in w.db.jobs && w.recs[j].host == Waiter && Resubmitted(w.db, j)
    ensures Resubmitted(DoPrune(w, k).db, j)
  {
    var n :| n in w.db.jobs && Newer(w.db, j, n) && Creates(w.db.jobs[n]);
    assert Newer(DoPrune(w, k).db, j, n);
  }

  lemma CancelStays(w: World, j: nat, e: nat)
    requires CanCancel(w, j)
    ensures Stays(w, DoCancel(w, j), e)
  {
  }

  lemma PowerStays(w: World, d: nat, on: bool, e: nat)
    requires CanPower(w, d)
    ensures Stays(w, DoPower(w, d, on), e)
  {
  }

  lemma HandlerSound(w: World, a: HttpAction, e: nat)
    requires Sound(w) && HttpEnabled(w, a) && Guarded(w, Http(a))
    ensures DepSound(HttpApply(w, a), e)
  {
    assert DepSound(w, e);
    match a {
      case AdmitDeploy(lease) => AdmitDeploySound(w, lease, e);
      case Admit(d, kind) => AdmitSound(w, d, kind, e);
      case RetryCleanup(d) => AdmitSound(w, d, Destroy, e);
      case CancelRequest(j) => CancelStays(w, j, e); StaysSound(w, DoCancel(w, j), e);
      case Power(d, on) => PowerStays(w, d, on, e); StaysSound(w, DoPower(w, d, on), e);
      case Confirm(d, newest) => ConfirmSound(w, d, newest, e);
      case LocalCleanup(d) => LocalCleanupSound(w, d, e);
      case Prune(k) => PruneSound(w, k, e);
    }
  }

  // ------------------------------------------------------------------ clean-up retries

  /** Only the retry on `d` goes on, or ends. */
  lemma RetrySound(w: World, w': World, d: nat, e: nat)
    requires DepSound(w, e) && w' == w.(cleaners := w'.cleaners)
    requires e != d && e in w'.cleaners ==> e in w.cleaners && w'.cleaners[e] == w.cleaners[e]
    requires e == d ==> CleanSound(w', d)
    ensures DepSound(w', e)
  {
    assert Bare(w, e) ==> Bare(w', e);
    forall k | k in w'.db.jobs && w'.db.jobs[k].dep == e ensures JobSound(w', k) {
      assert JobSound(w, k);
    }
  }

  lemma BeginSound(w: World, d: nat, e: nat)
    requires Sound(w) && CanCleanBegin(w, d) && Guarded(w, Cleaning(CleanBegin(d)))
    ensures DepSound(DoCleanBegin(w, d), e)
  {
    assert DepSound(w, e) && DepSound(w, d);
    NothingLostIsGone(w, d);
    RetrySound(w, DoCleanBegin(w, d), d, e);
  }

  lemma CleanTearSound(w: World, d: nat, t: Tear, e: nat)
    requires Sound(w) && CanCleanTear(w, d, t)
    ensures DepSound(DoCleanTear(w, d, t), e)
  {
    assert DepSound(w, e) && DepSound(w, d);
    var w1 := Tracked(w, t);
    TrackedStays(w, t, e);
    StaysSound(w, w1, e);
    assert NothingPending(w1, d);
    RetrySound(w1, DoCleanTear(w, d, t), d, e);
  }

  lemma LookSound(w: World, d: nat, p: Presence, e: nat)
    requires Sound(w) && CanCleanProbe(w, d, p)
    ensures DepSound(DoCleanProbe(w, d, p), e)
  {
    assert DepSound(w, e) && DepSound(w, d);
    RetrySound(w, DoCleanProbe(w, d, p), d, e);
  }

  /** While a retry runs nobody is about to create. */
  lemma RetryIsAlone(w: World, d: nat, k: nat)
    requires Core(w) && Alone(w) && d in w.cleaners && k in w.procs
    ensures !Creating(w.procs[k])
  {
  }

  lemma CleanCommitShape(w: World, d: nat)
    requires CanCleanCommit(w, d)
    ensures
      var db, c := DoCleanCommit(w, d).db, w.cleaners[d];
      || KeepsRows(w.db, db)
      || (c.presence == Absent && d in w.db.deps && w.db.deps[d].vmid == c.vmid && db == Drop(w.db, d))
  {
  }

  lemma CleanCommitSound(w: World, d: nat, e: nat)
    requires Sound(w) && CanCleanCommit(w, d)
    ensures DepSound(DoCleanCommit(w, d), e)
  {
    assert DepSound(w, e) && DepSound(w, d);
    var db := DoCleanCommit(w, d).db;
    CleanCommitShape(w, d);
    if KeepsRows(w.db, db) {
      KeptRowsStay(w, db, e);
      StaysSound(w, w.(db := db), e);
    } else {
      forall k | k in w.procs ensures !Creating(w.procs[k]) {
        RetryIsAlone(w, d, k);
      }
      DropSound(w, d, e);
    }
    RetrySound(w.(db := db), DoCleanCommit(w, d), d, e);
  }

  lemma RetriesSound(w: World, a: CleanAction, e: nat)
    requires Sound(w) && CleanEnabled(w, a) && Guarded(w, Cleaning(a))
    ensures DepSound(CleanApply(w, a), e)
  {
    match a {
      case CleanBegin(d) => BeginSound(w, d, e);
      case CleanDestroy(d, t) => CleanTearSound(w, d, t, e);
      case CleanProbe(d, p) => LookSound(w, d, p, e);
      case CleanCommit(d) => CleanCommitSound(w, d, e);
    }
  }

  // ------------------------------------------------------------------ cluster, crash, restart

  /** A request lands while nothing that needs the deployment bare goes on. */
  lemma LandSound(w: World, r: Request)
    requires r in w.pending && r.vmid !in w.vms && DepSound(w, r.dep)
    ensures DepSound(DoLand(w, r), r.dep)
  {
    var w', d := DoLand(w, r), r.dep;
    assert !Bare(w, d) && !NothingPending(w, d);
    forall k | k in w'.db.jobs && w'.db.jobs[k].dep == d ensures JobSound(w', k) {
      assert JobSound(w, k);
    }
  }

  lemma LandStays(w: World, r: Request, e: nat)
    requires r in w.pending && r.vmid !in w.vms && e != r.dep
    ensures Stays(w, DoLand(w, r), e)
  {
  }

  /** A VM disappears, a request is dropped, a task stops, a foreign VM appears. */
  lemma EventStays(w: World, a: ClusterAction, e: nat)
    requires ClusterEnabled(w, a) && (a.Discard? || a.Vanish? || a.Appear? || a.TaskStop?)
    ensures Stays(w, ClusterApply(w, a), e)
  {
  }

  lemma CrashSound(w: World, e: nat)
    requires DepSound(w, e)
    ensures DepSound(DoCrash(w), e)
  {
    var w' := DoCrash(w);
    forall k | k in w'.db.jobs && w'.db.jobs[k].dep == e ensures JobSound(w', k) {
      assert JobSound(w, k);
    }
  }

  lemma RecoverSound(w: World, e: nat)
    requires DepSound(w, e)
    ensures DepSound(DoRecover(w), e)
  {
    var w' := DoRecover(w);
    assert Bare(w, e) ==> Bare(w', e);
    forall k | k in w'.db.jobs && w'.db.jobs[k].dep == e ensures JobSound(w', k) {
      assert JobSound(w, k);
      if Resubmitted(w.db, k) {
        StillResubmitted(w.db, w'.db, k);
      }
    }
  }

  lemma EventsSound(w: World, a: ClusterAction, e: nat)
    requires Sound(w) && ClusterEnabled(w, a)
    ensures DepSound(ClusterApply(w, a), e)
  {
    assert DepSound(w, e);
    match a {
      case Land(r) =>
        if e == r.dep {
          LandSound(w, r);
        } else {
          LandStays(w, r, e);
          StaysSound(w, DoLand(w, r), e);
        }
      case Crash => CrashSound(w, e);
      case Recover => RecoverSound(w, e);
      case _ =>
        EventStays(w, a, e);
        StaysSound(w, ClusterApply(w, a), e);
    }
  }
}
