/** What holds in every run, whatever the interleaving: one active lifecycle job for each
    deployment, final statuses, and a post-boot plan that is never replayed.

    The invariant reads only a `View` of each job.  A step is shown to touch at most one view
    (`Touches`), which is enough to restore the invariant for all the others (`OneJob`). */
module CoreSafety {
  import opened Rows
  import opened Machine

  /** All that the core invariant reads of one job. */
  datatype View = View(row: Option<Brief>, proc: Option<Phase>, rec: Option<Rec>, starts: nat)

  datatype Brief = Brief(dep: nat, status: JobStatus, cancelRequested: bool)

  function Starts(w: World, j: nat): nat {
    if j in w.starts then w.starts[j] else 0
  }

  function ViewOf(w: World, j: nat): View {
    View(
      if j in w.db.jobs
      then Some(Brief(w.db.jobs[j].dep, w.db.jobs[j].status, w.db.jobs[j].cancelRequested)) else None,
      if j in w.procs then Some(w.procs[j]) else None,
      if j in w.recs then Some(w.recs[j]) else None,
      Starts(w, j))
  }

  /** Which thread may hold a job in which status, how often its plan was started, and that
      cancellation was asked for. */
  predicate Fine(v: View, booting: bool) {
    && v.starts <= 1
    && (v.proc.Some? ==>
          && (Main(v.proc.value) ==> v.row.Some? && v.row.value.status == Running && v.rec.None? && !booting)
          && (PrePlay(v.proc.value) ==> v.starts == 0))
    && (v.rec.Some? ==>
          && v.row.Some?
          && (v.rec.value.host == Inline ==> v.row.value.status == Running && !booting && v.proc.None?)
          && (v.rec.value.host != Inline ==> Terminal(v.row.value.status))
          && (v.rec.value.canceled ==> v.row.value.cancelRequested))
    && (v.row.Some? ==>
          var row := v.row.value;
          && (row.status == Queued || row.status == Waiting ==> v.proc.None? && v.rec.None? && v.starts == 0)
          && (row.status == Canceled ==> row.cancelRequested))
  }

  predicate ActiveOn(v: View, d: nat) {
    v.row.Some? && v.row.value.dep == d && Active(v.row.value.status)
  }

  ghost predicate Core(w: World) {
    && (forall j: nat :: Fine(ViewOf(w, j), w.booting))
    && (forall j: nat :: w.nextJob <= j ==> ViewOf(w, j) == View(None, None, None, 0))
    && (forall j: nat :: ViewOf(w, j).row.Some? ==> ViewOf(w, j).row.value.dep < w.nextDep)
    && (forall d | d in w.db.deps :: d < w.nextDep)
    && (forall d, j, k: nat :: ActiveOn(ViewOf(w, j), d) && ActiveOn(ViewOf(w, k), d) ==> j == k)
  }

  // ------------------------------------------------------------------ one step touches one job

  /** A final status stays, and nothing goes back to the queue. */
  predicate Onward(s: JobStatus, s': JobStatus) {
    (Terminal(s) ==> s' == s) && (s' == Queued ==> s == Queued)
  }

  ghost predicate Forward(w: World, w': World) {
    && w.nextJob <= w'.nextJob
    && (forall j | j in w'.db.jobs && j < w.nextJob :: j in w.db.jobs)
    && (forall j | j in w.db.jobs && j in w'.db.jobs :: Onward(w.db.jobs[j].status, w'.db.jobs[j].status))
  }

  /** The step changes at most job `j`, leaves it in order, and makes it active on a deployment
      only if it was, or no other job is. */
  ghost predicate Touches(w: World, w': World, j: nat) {
    && w'.booting == w.booting && w.nextJob <= w'.nextJob && w.nextDep <= w'.nextDep
    && (forall k: nat | k != j :: ViewOf(w', k) == ViewOf(w, k))
    && Fine(ViewOf(w', j), w.booting)
    && (j in w'.db.jobs ==>
          var d := w'.db.jobs[j].dep;
          && d < w'.nextDep
          && (j < w.nextJob ==> j in w.db.jobs)
          && (j in w.db.jobs ==> d == w.db.jobs[j].dep && Onward(w.db.jobs[j].status, w'.db.jobs[j].status))
          && (Active(w'.db.jobs[j].status) ==>
                (j in w.db.jobs && Active(w.db.jobs[j].status)) || !HasActive(w.db, d)))
    && (forall d | d in w'.db.deps :: d in w.db.deps || d < w'.nextDep)
  }

  lemma OneJob(w: World, w': World, j: nat)
    requires Core(w) && Touches(w, w', j) && j < w'.nextJob
    ensures Core(w') && Forward(w, w')
  {
    forall k | k in w'.db.jobs && k != j
      ensures k in w.db.jobs && w'.db.jobs[k].status == w.db.jobs[k].status
    {
      assert ViewOf(w', k) == ViewOf(w, k);
    }
    forall d, k: nat | k != j && ActiveOn(ViewOf(w', j), d) && ActiveOn(ViewOf(w', k), d) ensures false {
      assert ActiveOn(ViewOf(w, k), d);
      assert k in w.db.jobs && w.db.jobs[k].dep == d && Active(w.db.jobs[k].status);
      assert HasActive(w.db, d);
      assert ActiveOn(ViewOf(w, j), d);
    }
  }

  ghost predicate SameViews(w: World, w': World) {
    forall k: nat :: ViewOf(w', k) == ViewOf(w, k)
  }

  lemma NoJob(w: World, w': World)
    requires Core(w)
    requires w'.booting == w.booting && w.nextJob == w'.nextJob && w.nextDep == w'.nextDep
    requires SameViews(w, w')
    requires w'.db.deps.Keys <= w.db.deps.Keys
    ensures Core(w') && Forward(w, w')
  {
    forall k | k in w'.db.jobs
      ensures k in w.db.jobs && w'.db.jobs[k].status == w.db.jobs[k].status
    {
      assert ViewOf(w', k) == ViewOf(w, k);
    }
  }

  /** What the steps below need to know of the job they touch. */
  ghost predicate Here(w: World, j: nat) {
    Fine(ViewOf(w, j), w.booting) && (j in w.db.jobs ==> w.db.jobs[j].dep < w.nextDep)
  }

  lemma Known(w: World, j: nat)
    requires Core(w) && (j in w.db.jobs || j in w.procs || j in w.recs)
    ensures j < w.nextJob && Here(w, j)
  {
    assert ViewOf(w, j) != View(None, None, None, 0);
    assert ViewOf(w, j).row.Some? ==> ViewOf(w, j).row.value.dep < w.nextDep;
  }

  lemma Fresh(w: World)
    requires Core(w)
    ensures ViewOf(w, w.nextJob) == View(None, None, None, 0)
    ensures !HasActive(w.db, w.nextDep)
    ensures forall d | d in w.db.deps :: d < w.nextDep
  {
    if HasActive(w.db, w.nextDep) {
      var j :| j in w.db.jobs && w.db.jobs[j].dep == w.nextDep;
      Known(w, j);
    }
  }

  /** Admission of one queued job on a deployment without active job. */
  lemma AdmitStep(w: World, w': World, row: Job)
    requires Core(w) && !HasActive(w.db, row.dep)
    requires row.status == Queued && row.dep < w'.nextDep && w.nextDep <= w'.nextDep
    requires w'.db.jobs == w.db.jobs[w.nextJob := row] && w'.nextJob == w.nextJob + 1
    requires w'.procs == w.procs && w'.recs == w.recs && w'.starts == w.starts && w'.booting == w.booting
    requires forall d | d in w'.db.deps :: d in w.db.deps || d < w'.nextDep
    ensures Core(w') && Forward(w, w')
  {
    Fresh(w);
    OneJob(w, w', w.nextJob);
  }

  lemma CancelTouches(w: World, j: nat)
    requires Here(w, j) && CanCancel(w, j)
    ensures Touches(w, DoCancel(w, j), j)
  {
  }

  lemma PruneTouches(w: World, j: nat)
    requires Here(w, j) && CanPrune(w, j)
    ensures Touches(w, DoPrune(w, j), j)
  {
  }

  /** A job without thread starts its reconciliation together with its status write. */
  lemma StartTouches(w: World, s: JobStatus, j: nat, canceled: bool, host: Host)
    requires Here(w, j) && j in w.db.jobs && Active(w.db.jobs[j].status)
    requires host == Inline ==> s == Running && !w.booting
    requires host != Inline ==> Terminal(s)
    requires (canceled || s == Canceled) ==> w.db.jobs[j].cancelRequested
    ensures Touches(w, StartRec(w, WithStatus(w.db, j, s), j, canceled, host), j)
  {
  }

  lemma BeginTouches(w: World, j: nat)
    requires Here(w, j) && CanClaim(w, j)
    ensures Touches(w, Put(w, WithStatus(w.db, j, Running), j, Begun), j)
  {
  }

  lemma ClaimTouches(w: World, j: nat, disabled: bool)
    requires Here(w, j) && CanClaim(w, j)
    ensures Touches(w, DoClaim(w, j, disabled), j)
  {
    if w.db.jobs[j].cancelRequested {
      StartTouches(w, Canceled, j, true, Aftermath);
    } else if disabled {
      StartTouches(w, Failed, j, false, Aftermath);
    } else {
      BeginTouches(w, j);
    }
  }

  lemma MoveTouches(w: World, j: nat, p: Phase)
    requires Here(w, j) && j in w.procs && Main(w.procs[j]) && PrePlay(w.procs[j]) && Main(p)
    ensures Touches(w, To(w, j, p), j)
  {
  }

  lemma SelectTouches(w: World, j: nat, v: nat)
    requires Here(w, j) && CanSelect(w, j, v)
    ensures Touches(w, DoSelect(w, j, v), j)
  {
  }

  lemma MarkTouches(w: World, j: nat)
    requires Here(w, j) && CanMark(w, j)
    ensures Touches(w, DoMark(w, j), j)
  {
  }

  lemma SendTouches(w: World, j: nat)
    requires Here(w, j) && CanSend(w, j)
    ensures Touches(w, DoSend(w, j), j)
  {
  }

  lemma AcceptTouches(w: World, j: nat)
    requires Here(w, j) && CanAccept(w, j)
    ensures Touches(w, DoAccept(w, j), j)
  {
  }

  lemma RejectTouches(w: World, j: nat)
    requires Here(w, j) && CanReject(w, j)
    ensures Touches(w, DoReject(w, j), j)
  {
  }

  lemma TrackTouches(w: World, j: nat)
    requires Here(w, j) && CanTrack(w, j)
    ensures Touches(w, DoTrack(w, j), j)
  {
  }

  lemma DeferTouches(w: World, j: nat)
    requires Here(w, j) && CanDefer(w, j)
    ensures Touches(w, DoDefer(w, j), j)
  {
  }

  lemma FinishTouches(w: World, j: nat)
    requires Here(w, j) && CanFinish(w, j)
    ensures Touches(w, DoFinish(w, j), j)
  {
  }

  lemma DropRowTouches(w: World, j: nat)
    requires Here(w, j) && CanDropRow(w, j)
    ensures Touches(w, DoDropRow(w, j), j)
  {
  }

  lemma SucceedTouches(w: World, j: nat)
    requires Here(w, j) && CanSucceed(w, j)
    ensures Touches(w, DoSucceed(w, j), j)
  {
  }

  lemma RaiseTouches(w: World, j: nat, canceled: bool)
    requires Here(w, j) && CanRaise(w, j, canceled)
    ensures Touches(w, DoRaise(w, j, canceled), j)
  {
  }

  lemma PlayTouches(w: World, j: nat)
    requires Here(w, j) && CanPlay(w, j)
    ensures Touches(w, DoPlay(w, j), j)
  {
  }

  lemma PlayedTouches(w: World, j: nat)
    requires Here(w, j) && At(w, j, Playing)
    ensures Touches(w, To(w, j, Played), j)
  {
  }

  lemma StrayTouches(w: World, j: nat)
    requires Here(w, j) && j in w.procs
    ensures Touches(w, w.(procs := w.procs - {j}), j)
  {
  }

  lemma ReplayedTouches(w: World, j: nat)
    requires Here(w, j) && At(w, j, Replaying) && OnRow(w, j) && w.db.jobs[j].status == Running
    ensures Touches(w, DoPlayOk(w, j), j)
  {
  }

  lemma PlayOkTouches(w: World, j: nat)
    requires Here(w, j) && CanPlayOk(w, j)
    ensures Touches(w, DoPlayOk(w, j), j)
  {
    if At(w, j, Playing) {
      PlayedTouches(w, j);
    } else if OnRow(w, j) && w.db.jobs[j].status == Running {
      ReplayedTouches(w, j);
    } else {
      StrayTouches(w, j);
    }
  }

  lemma ExpireTouches(w: World, j: nat)
    requires Here(w, j) && CanExpire(w, j)
    ensures Touches(w, DoExpire(w, j), j)
  {
  }

  lemma ResumeTouches(w: World, j: nat)
    requires Here(w, j) && CanResume(w, j)
    ensures Touches(w, DoResume(w, j), j)
  {
  }

  lemma WaitErrorTouches(w: World, j: nat, canceled: bool)
    requires Here(w, j) && (CanAbort(w, j, canceled) || CanWaitRaise(w, j, canceled))
    ensures Touches(w, DoWaitError(w, j, canceled), j)
  {
    if j in w.db.jobs && (w.db.jobs[j].status == Waiting || w.db.jobs[j].status == Running) {
      StartTouches(w, if canceled then Canceled else Failed, j, canceled, Waiter);
    } else {
      StrayTouches(w, j);
    }
  }

  /** A reconciliation step: only its own phase, and rows other than the read ones, change. */
  lemma AdvanceTouches(w: World, w1: World, j: nat, p: RecPhase)
    requires Here(w, j) && j in w.recs
    requires w1.procs == w.procs && w1.recs == w.recs && w1.starts == w.starts && w1.booting == w.booting
    requires w1.nextJob == w.nextJob && w1.nextDep == w.nextDep
    requires w1.db.deps.Keys <= w.db.deps.Keys
    requires SameViews(w, w1)
    ensures Touches(w, Advance(w1, j, p), j)
  {
    assert ViewOf(w1, j) == ViewOf(w, j);
  }

  lemma CheckTouches(w: World, j: nat, settled: bool)
    requires Here(w, j) && CanCheck(w, j, settled)
    ensures Touches(w, DoCheck(w, j, settled), j)
  {
    match Check(w.db, j, settled) {
      case Halt(db) => AdvanceTouches(w, w.(db := db), j, Done);
      case Proceed(_) => AdvanceTouches(w, w, j, DoCheck(w, j, settled).recs[j].phase);
    }
  }

  lemma CommitTouches(w: World, j: nat, runtime: Option<DepStatus>)
    requires Here(w, j) && CanCommit(w, j, runtime)
    ensures Touches(w, DoCommit(w, j, runtime), j)
  {
    AdvanceTouches(w, w.(db := DoCommit(w, j, runtime).db), j, Done);
  }

  /** Recording a task and distrusting a row leave every brief as it was. */
  lemma TornBriefs(db: Tables, t: Tear)
    ensures
      var db' := TornDown(db, t.hit, t.newest, t.Outcome(), t.Task());
      && db'.deps.Keys == db.deps.Keys
      && db'.jobs.Keys == db.jobs.Keys
      && forall k | k in db.jobs :: db'.jobs[k] == db.jobs[k].(task := db'.jobs[k].task)
  {
  }

  lemma TrackedSame(w: World, t: Tear)
    ensures SameViews(w, Tracked(w, t))
    ensures Tracked(w, t).db.deps.Keys == w.db.deps.Keys
  {
    TornBriefs(w.db, t);
    TrackedFrame(w, t);
    BriefsAreViews(w, Tracked(w, t));
  }

  lemma TrackedFrame(w: World, t: Tear)
    ensures
      var w1 := Tracked(w, t);
      && w1.procs == w.procs && w1.recs == w.recs && w1.starts == w.starts
      && w1.db == TornDown(w.db, t.hit, t.newest, t.Outcome(), t.Task())
  {
  }

  lemma BriefsAreViews(w: World, w1: World)
    requires w1.procs == w.procs && w1.recs == w.recs && w1.starts == w.starts
    requires w1.db.jobs.Keys == w.db.jobs.Keys
    requires forall k | k in w.db.jobs :: w1.db.jobs[k] == w.db.jobs[k].(task := w1.db.jobs[k].task)
    ensures SameViews(w, w1)
  {
    forall k: nat ensures ViewOf(w1, k) == ViewOf(w, k) {
      assert k in w1.db.jobs <==> k in w1.db.jobs.Keys;
    }
  }

  lemma TearTouches(w: World, j: nat, t: Tear)
    requires Here(w, j) && CanTear(w, j, t)
    ensures Touches(w, DoTear(w, j, t), j)
  {
    TrackedSame(w, t);
    AdvanceTouches(w, Tracked(w, t), j, DoTear(w, j, t).recs[j].phase);
  }

  lemma RecFinishTouches(w: World, j: nat)
    requires Here(w, j) && CanRecFinish(w, j)
    ensures Touches(w, DoRecFinish(w, j), j)
  {
  }

  // ------------------------------------------------------------------ the invariant is inductive

  lemma HttpStep(w: World, a: HttpAction)
    requires Core(w) && HttpEnabled(w, a)
    ensures Core(HttpApply(w, a)) && Forward(w, HttpApply(w, a))
  {
    Fresh(w);
    match a {
      case AdmitDeploy(lease) => AdmitStep(w, DoAdmitDeploy(w, lease), NewRow(Deploy, w.nextDep));
      case Admit(d, kind) => AdmitStep(w, DoAdmit(w, d, kind), NewRow(kind, d));
      case RetryCleanup(d) => AdmitStep(w, DoAdmit(w, d, Destroy), NewRow(Destroy, d));
      case CancelRequest(j) => Known(w, j); CancelTouches(w, j); OneJob(w, DoCancel(w, j), j);
      case Power(d, on) => NoJob(w, DoPower(w, d, on));
      case Confirm(d, newest) => NoJob(w, DoConfirm(w, d, newest));
      case LocalCleanup(d) => NoJob(w, DoLocalCleanup(w, d));
      case Prune(j) => Known(w, j); PruneTouches(w, j); OneJob(w, DoPrune(w, j), j);
    }
  }

  lemma WorkStep(w: World, a: WorkAction)
    requires Core(w) && WorkEnabled(w, a)
    ensures Core(WorkApply(w, a)) && Forward(w, WorkApply(w, a))
  {
    var j := a.job;
    Known(w, j);
    match a {
      case Claim(_, disabled) => ClaimTouches(w, j, disabled);
      case ProveGone(_) => MoveTouches(w, j, Gone);
      case Boot(_) => MoveTouches(w, j, Booted);
      case SkipPlay(_) => MoveTouches(w, j, Played);
      case SelectVmid(_, v) => SelectTouches(w, j, v);
      case MarkSubmitting(_) => MarkTouches(w, j);
      case Send(_) => SendTouches(w, j);
      case AcceptCreate(_) => AcceptTouches(w, j);
      case RejectCreate(_) => RejectTouches(w, j);
      case Track(_) => TrackTouches(w, j);
      case Defer(_) => DeferTouches(w, j);
      case Raise(_, canceled) => RaiseTouches(w, j, canceled);
      case Finish(_) => FinishTouches(w, j);
      case DropRow(_) => DropRowTouches(w, j);
      case Succeed(_) => SucceedTouches(w, j);
    }
    OneJob(w, WorkApply(w, a), j);
  }

  lemma WaitStep(w: World, a: WaitAction)
    requires Core(w) && WaitEnabled(w, a)
    ensures Core(WaitApply(w, a)) && Forward(w, WaitApply(w, a))
  {
    var j := a.job;
    Known(w, j);
    match a {
      case Play(_) => PlayTouches(w, j);
      case PlayOk(_) => PlayOkTouches(w, j);
      case WaitAbort(_, canceled) => WaitErrorTouches(w, j, canceled);
      case WaitRaise(_, canceled) => WaitErrorTouches(w, j, canceled);
      case WaitExpire(_) => ExpireTouches(w, j);
      case WaitResume(_) => ResumeTouches(w, j);
    }
    OneJob(w, WaitApply(w, a), j);
  }

  lemma RecStep(w: World, a: RecAction)
    requires Core(w) && RecEnabled(w, a)
    ensures Core(RecApply(w, a)) && Forward(w, RecApply(w, a))
  {
    var j := a.job;
    Known(w, j);
    match a {
      case RecCheck(_, settled) => CheckTouches(w, j, settled);
      case RecDestroy(_, t) => TearTouches(w, j, t);
      case RecProbe(_, p) => AdvanceTouches(w, w, j, Found(w.recs[j].phase.vmid, p));
      case RecCommit(_, runtime) => CommitTouches(w, j, runtime);
      case RecFinish(_) => RecFinishTouches(w, j);
    }
    OneJob(w, RecApply(w, a), j);
  }

  lemma CleanTearStep(w: World, d: nat, t: Tear)
    requires Core(w) && CanCleanTear(w, d, t)
    ensures Core(DoCleanTear(w, d, t)) && Forward(w, DoCleanTear(w, d, t))
  {
    TrackedSame(w, t);
    var w1, w' := Tracked(w, t), DoCleanTear(w, d, t);
    forall k: nat ensures ViewOf(w', k) == ViewOf(w1, k) {
    }
    NoJob(w, w');
  }

  lemma CleanCommitStep(w: World, d: nat)
    requires Core(w) && CanCleanCommit(w, d)
    ensures Core(DoCleanCommit(w, d)) && Forward(w, DoCleanCommit(w, d))
  {
    var c, w' := w.cleaners[d], DoCleanCommit(w, d);
    CleanupKeys(w.db, d, c.vmid, c.origin, c.presence);
    NoJob(w, w');
  }

  lemma CleanupKeys(db: Tables, d: nat, vmid: Option<nat>, origin: Option<Kind>, presence: Presence)
    ensures CommitCleanup(db, d, vmid, origin, presence).jobs == db.jobs
    ensures CommitCleanup(db, d, vmid, origin, presence).deps.Keys <= db.deps.Keys
  {
  }

  lemma CleanStep(w: World, a: CleanAction)
    requires Core(w) && CleanEnabled(w, a)
    ensures Core(CleanApply(w, a)) && Forward(w, CleanApply(w, a))
  {
    match a {
      case CleanBegin(d) => NoJob(w, DoCleanBegin(w, d));
      case CleanDestroy(d, t) => CleanTearStep(w, d, t);
      case CleanProbe(d, p) => NoJob(w, DoCleanProbe(w, d, p));
      case CleanCommit(d) => CleanCommitStep(w, d);
    }
  }

  lemma ClusterStep(w: World, a: ClusterAction)
    requires Core(w) && ClusterEnabled(w, a)
    ensures Core(ClusterApply(w, a)) && Forward(w, ClusterApply(w, a))
  {
    var w' := ClusterApply(w, a);
    if a.Crash? || a.Recover? {
      forall j: nat
        ensures Fine(ViewOf(w', j), w'.booting)
        ensures w'.nextJob <= j ==> ViewOf(w', j) == View(None, None, None, 0)
        ensures ViewOf(w', j).row.Some? ==> ViewOf(w', j).row.value.dep < w'.nextDep
        ensures forall d :: ActiveOn(ViewOf(w', j), d) ==> ActiveOn(ViewOf(w, j), d)
      {
        assert Fine(ViewOf(w, j), w.booting);
      }
    } else {
      NoJob(w, w');
    }
  }

  lemma CoreStep(w: World, a: Action)
    requires Core(w) && Enabled(w, a)
    ensures Core(Apply(w, a)) && Forward(w, Apply(w, a))
  {
    match a {
      case Http(h) => HttpStep(w, h);
      case Work(x) => WorkStep(w, x);
      case Wait(x) => WaitStep(w, x);
      case Reconcile(r) => RecStep(w, r);
      case Cleaning(c) => CleanStep(w, c);
      case Cluster(c) => ClusterStep(w, c);
    }
  }

  lemma CoreInit(w: World)
    requires Init(w)
    ensures Core(w)
  {
  }
}
