/** A guarded step keeps the whole invariant of `Guards`.

    What `GuardSteps` and `GuardRest` say of one deployment is put together here, thread by thread,
    with what does not concern a single deployment: the core invariant, the order of the jobs, the
    create states that jobs carry (`JobNote`), and that the job worker does one thing at a time
    (`Alone`). */
module GuardOrder {
  import opened Rows
  import opened Machine
  import opened CoreSafety
  import opened Ownership
  import opened Guards
  import opened GuardSteps
  import opened GuardRest

  // ------------------------------------------------------------------ what does not concern one deployment

  /** Jobs only leave, end, or go on; no thread enters the execution of one. */
  predicate Calm(w: World, w': World) {
    && (forall k | k in w'.db.jobs ::
          && k in w.db.jobs && w'.db.jobs[k].dep == w.db.jobs[k].dep && w'.db.jobs[k].kind == w.db.jobs[k].kind
          && w'.db.jobs[k].create == w.db.jobs[k].create
          && (Active(w'.db.jobs[k].status) ==> Active(w.db.jobs[k].status))
          && (w'.db.jobs[k].status == Queued ==> w.db.jobs[k].status == Queued))
    && (forall k | k in w'.procs :: k in w.procs && w'.procs[k] == w.procs[k])
  }

  lemma CalmNotes(w: World, w': World)
    requires Calm(w, w') && ActiveNewest(w.db) && forall k: nat :: JobNote(w, k)
    ensures ActiveNewest(w'.db) && forall k: nat :: JobNote(w', k)
  {
    forall k: nat ensures JobNote(w', k) {
      assert JobNote(w, k);
    }
  }

  /** No retry starts, no thread enters the execution of a job, no reconciliation of the job worker starts. */
  predicate Unhurried(w: World, w': World) {
    && (forall e | e in w'.cleaners :: e in w.cleaners)
    && (forall k | k in w'.procs && Main(w'.procs[k]) :: k in w.procs && Main(w.procs[k]))
    && (forall j | j in w'.recs && w'.recs[j].host != Waiter :: j in w.recs && w.recs[j].host != Waiter)
  }

  lemma NobodyNew(w: World, w': World)
    requires Alone(w) && Unhurried(w, w')
    ensures Alone(w')
  {
    forall k | k in w'.procs && Main(w'.procs[k]) ensures w'.cleaners == map[] {
      assert w.cleaners == map[];
    }
  }

  /** A step on behalf of one job: what is left to show of its threads and its create state. */
  lemma MovedOrderly(w: World, w': World, j: nat)
    requires Orderly(w) && Core(w') && Forward(w, w') && j in w.db.jobs && j in w'.db.jobs
    requires w'.db.jobs[j].dep == w.db.jobs[j].dep && Local(w, w', j, w.db.jobs[j].dep)
    requires Alone(w') && JobNote(w', j)
    ensures Orderly(w')
  {
    forall k: nat | k != j ensures JobNote(w', k) {
      assert JobNote(w, k);
    }
  }

  // ------------------------------------------------------------------ the job worker

  /** The executing thread of `j` goes on, or starts to reconcile, or ends. */
  lemma MainAlone(w: World, w': World, j: nat)
    requires Alone(w) && j in w.procs && Main(w.procs[j]) && w'.cleaners == w.cleaners
    requires forall k | k != j ::
      && (k in w'.procs ==> k in w.procs && w'.procs[k] == w.procs[k])
      && (k in w'.recs ==> k in w.recs && w'.recs[k] == w.recs[k])
    requires j !in w'.recs || w'.recs[j].host == Waiter || j !in w'.procs
    ensures Alone(w')
  {
  }

  /** Nobody was at work when the job was claimed. */
  lemma ClaimAlone(w: World, j: nat, disabled: bool)
    requires CanClaim(w, j) && Fine(ViewOf(w, j), w.booting)
    ensures Alone(DoClaim(w, j, disabled))
  {
  }

  lemma WorkAlone(w: World, a: WorkAction)
    requires WorkEnabled(w, a) && !a.Claim? && a.job in w.db.jobs && Fine(ViewOf(w, a.job), w.booting)
    requires Local(w, WorkApply(w, a), a.job, w.db.jobs[a.job].dep) && Alone(w)
    ensures Alone(WorkApply(w, a))
  {
    var j, w' := a.job, WorkApply(w, a);
    assert j in w.procs && Main(w.procs[j]);
    WorkThreads(w, a);
    MainAlone(w, w', j);
  }

  lemma WorkThreads(w: World, a: WorkAction)
    requires WorkEnabled(w, a) && !a.Claim? && Fine(ViewOf(w, a.job), w.booting)
    ensures
      var w' := WorkApply(w, a);
      a.job !in w'.recs || a.job !in w'.procs
  {
  }

  lemma CreateNote(w: World, a: WorkAction)
    requires WorkEnabled(w, a) && Scene(w, a.job) && AroundCreate(a)
    ensures JobNote(WorkApply(w, a), a.job)
  {
  }

  lemma WorkNote(w: World, a: WorkAction)
    requires WorkEnabled(w, a) && Scene(w, a.job)
    ensures JobNote(WorkApply(w, a), a.job)
  {
    if AroundCreate(a) {
      CreateNote(w, a);
    } else if a.Claim? {
      ClaimNote(w, a.job, a.disabled);
    } else {
      AssetlessNote(w, a);
    }
  }

  lemma ClaimNote(w: World, j: nat, disabled: bool)
    requires CanClaim(w, j) && Scene(w, j)
    ensures JobNote(DoClaim(w, j, disabled), j)
  {
  }

  lemma AssetlessNote(w: World, a: WorkAction)
    requires WorkEnabled(w, a) && Scene(w, a.job) && !AroundCreate(a) && !a.Claim?
    ensures JobNote(WorkApply(w, a), a.job)
  {
  }

  lemma WorkIsSound(w: World, a: WorkAction)
    requires Sound(w) && WorkEnabled(w, a)
    ensures Sound(WorkApply(w, a))
  {
    var j, w' := a.job, WorkApply(w, a);
    JobScene(w, j);
    WorkStep(w, a);
    WorkSound(w, a);
    WorkNote(w, a);
    if a.Claim? {
      ClaimAlone(w, j, a.disabled);
    } else {
      WorkAlone(w, a);
    }
    MovedOrderly(w, w', j);
    MovedDeps(w, w', j);
  }

  lemma JobScene(w: World, j: nat)
    requires Sound(w) && (j in w.db.jobs || (j in w.procs && Main(w.procs[j])))
    ensures Scene(w, j)
  {
    Known(w, j);
    assert JobNote(w, j) && DepSound(w, w.db.jobs[j].dep);
  }

  lemma MovedDeps(w: World, w': World, j: nat)
    requires Moves(w, w', j) && DepSound(w', w.db.jobs[j].dep) && forall e: nat :: DepSound(w, e)
    ensures forall e: nat :: DepSound(w', e)
  {
    forall e: nat | e != w.db.jobs[j].dep ensures DepSound(w', e) {
      ElsewhereStays(w, w', j, e);
      StaysSound(w, w', e);
    }
  }

  // ------------------------------------------------------------------ the waiting worker

  lemma WaitNote(w: World, a: WaitAction)
    requires WaitEnabled(w, a) && Scene(w, a.job)
    ensures JobNote(WaitApply(w, a), a.job)
  {
    match a {
      case PlayOk(j) => PlayOkNote(w, j);
      case WaitAbort(j, canceled) => WaitErrorNote(w, j, canceled);
      case WaitRaise(j, canceled) => WaitErrorNote(w, j, canceled);
      case _ =>
    }
  }

  lemma PlayOkNote(w: World, j: nat)
    requires CanPlayOk(w, j) && Scene(w, j)
    ensures JobNote(DoPlayOk(w, j), j)
  {
  }

  lemma WaitErrorNote(w: World, j: nat, canceled: bool)
    requires (CanAbort(w, j, canceled) || CanWaitRaise(w, j, canceled)) && Scene(w, j)
    ensures JobNote(DoWaitError(w, j, canceled), j)
  {
  }

  lemma PlayOkThreads(w: World, j: nat)
    requires CanPlayOk(w, j)
    ensures Unhurried(w, DoPlayOk(w, j))
  {
  }

  lemma WaitErrorThreads(w: World, j: nat, canceled: bool)
    ensures Unhurried(w, DoWaitError(w, j, canceled))
  {
  }

  lemma WaitThreads(w: World, a: WaitAction)
    requires WaitEnabled(w, a)
    ensures Unhurried(w, WaitApply(w, a))
  {
    match a {
      case PlayOk(j) => PlayOkThreads(w, j);
      case WaitAbort(j, canceled) => WaitErrorThreads(w, j, canceled);
      case WaitRaise(j, canceled) => WaitErrorThreads(w, j, canceled);
      case _ =>
    }
  }

  lemma WaitAlone(w: World, a: WaitAction)
    requires WaitEnabled(w, a) && Alone(w)
    ensures Alone(WaitApply(w, a))
  {
    WaitThreads(w, a);
    hide WaitApply, WaitEnabled;
    NobodyNew(w, WaitApply(w, a));
  }

  /** A thread without job row. */
  lemma StrayIsSound(w: World, w': World, j: nat)
    requires Sound(w) && j !in w.db.jobs && w' == w.(procs := w'.procs, starts := w'.starts)
    requires forall k | k != j :: (k in w'.procs <==> k in w.procs) && (k in w.procs ==> w'.procs[k] == w.procs[k])
    requires Core(w') && Alone(w')
    ensures Sound(w')
  {
    forall k: nat ensures JobNote(w', k) {
      assert JobNote(w, k);
    }
    forall e: nat ensures DepSound(w', e) {
      assert DepSound(w, e);
      StrayStays(w, w', j, e);
      StaysSound(w, w', e);
    }
  }

  lemma WaitIsSound(w: World, a: WaitAction)
    requires Sound(w) && WaitEnabled(w, a)
    ensures Sound(WaitApply(w, a))
  {
    var j, w' := a.job, WaitApply(w, a);
    WaitStep(w, a);
    WaitAlone(w, a);
    if j in w.db.jobs {
      JobScene(w, j);
      WaitSound(w, a);
      WaitNote(w, a);
      PlainSound(w, w', j);
      MovedOrderly(w, w', j);
      MovedDeps(w, w', j);
    } else {
      StrayIsSound(w, w', j);
    }
  }

  // ------------------------------------------------------------------ reconciliations

  lemma RecCalm(w: World, a: RecAction)
    requires RecEnabled(w, a) && Forward(w, RecApply(w, a))
    ensures Calm(w, RecApply(w, a))
  {
    match a {
      case RecCheck(j, settled) => if Check(w.db, j, settled).Halt? { CheckKeepsRows(w.db, j, settled); }
      case RecDestroy(j, t) => TornKeepsRows(w.db, t);
      case RecCommit(j, runtime) => CommitShape(w, j, runtime);
      case _ =>
    }
  }

  lemma RecAlone(w: World, a: RecAction)
    requires RecEnabled(w, a) && Alone(w)
    ensures Alone(RecApply(w, a))
  {
    NobodyNew(w, RecApply(w, a));
  }

  lemma RecSoundAt(w: World, a: RecAction, e: nat)
    requires RecEnabled(w, a) && Guarded(w, Reconcile(a)) && Sound(w)
    ensures DepSound(RecApply(w, a), e)
  {
    var j := a.job;
    JobScene(w, j);
    assert DepSound(w, e);
    match a {
      case RecCheck(_, settled) => CheckSound(w, j, settled, e);
      case RecDestroy(_, t) => TearSound(w, j, t, e);
      case RecProbe(_, p) => ProbeSound(w, j, p, e);
      case RecCommit(_, runtime) => CommitSound(w, j, runtime, e);
      case RecFinish(_) => EndSound(w, j, e);
    }
  }

  lemma EndSound(w: World, j: nat, e: nat)
    requires Sound(w) && CanRecFinish(w, j)
    ensures DepSound(DoRecFinish(w, j), e)
  {
    JobScene(w, j);
    assert DepSound(w, e);
    RecFinishPlain(w, j);
    if e == w.db.jobs[j].dep {
      PlainSound(w, DoRecFinish(w, j), j);
    } else {
      ElsewhereStays(w, DoRecFinish(w, j), j, e);
      StaysSound(w, DoRecFinish(w, j), e);
    }
  }

  lemma RecIsSound(w: World, a: RecAction)
    requires Sound(w) && RecEnabled(w, a) && Guarded(w, Reconcile(a))
    ensures Sound(RecApply(w, a))
  {
    RecStep(w, a);
    RecCalm(w, a);
    CalmNotes(w, RecApply(w, a));
    RecAlone(w, a);
    forall e: nat ensures DepSound(RecApply(w, a), e) {
      RecSoundAt(w, a, e);
    }
  }

  // ------------------------------------------------------------------ handlers, retries, cluster

  lemma JoinNotes(w: World, w': World, row: Job)
    requires Sound(w) && row.status == Queued && (CreatingKind(row.kind) ==> row.create == Unsubmitted)
    requires forall k | k in w.db.jobs && w.db.jobs[k].dep == row.dep :: !Active(w.db.jobs[k].status)
    requires w'.db.jobs == w.db.jobs[w.nextJob := row] && w'.procs == w.procs
    ensures ActiveNewest(w'.db) && forall k: nat :: JobNote(w', k)
  {
    Unused(w);
    forall k: nat ensures JobNote(w', k) {
      assert JobNote(w, k);
    }
  }

  lemma ConfirmNotes(w: World, d: nat, newest: Option<nat>)
    requires Sound(w) && CanConfirm(w, d, newest)
    ensures ActiveNewest(DoConfirm(w, d, newest).db) && forall k: nat :: JobNote(DoConfirm(w, d, newest), k)
  {
    forall k: nat ensures JobNote(DoConfirm(w, d, newest), k) {
      assert JobNote(w, k) && Fine(ViewOf(w, k), w.booting);
    }
  }

  lemma HandlerNotes(w: World, a: HttpAction)
    requires Sound(w) && HttpEnabled(w, a)
    ensures ActiveNewest(HttpApply(w, a).db) && forall k: nat :: JobNote(HttpApply(w, a), k)
  {
    match a {
      case AdmitDeploy(lease) => Unused(w); JoinNotes(w, DoAdmitDeploy(w, lease), NewRow(Deploy, w.nextDep));
      case Admit(d, kind) => JoinNotes(w, DoAdmit(w, d, kind), NewRow(kind, d));
      case RetryCleanup(d) => JoinNotes(w, DoAdmit(w, d, Destroy), NewRow(Destroy, d));
      case Confirm(d, newest) => ConfirmNotes(w, d, newest);
      case _ => CalmNotes(w, HttpApply(w, a));
    }
  }

  lemma HttpIsSound(w: World, a: HttpAction)
    requires Sound(w) && HttpEnabled(w, a) && Guarded(w, Http(a))
    ensures Sound(HttpApply(w, a))
  {
    HttpStep(w, a);
    HandlerNotes(w, a);
    NobodyNew(w, HttpApply(w, a));
    forall e: nat ensures DepSound(HttpApply(w, a), e) {
      HandlerSound(w, a, e);
    }
  }

  lemma RetryCalm(w: World, a: CleanAction)
    requires CleanEnabled(w, a)
    ensures Calm(w, CleanApply(w, a))
  {
    match a {
      case CleanDestroy(d, t) => TornKeepsRows(w.db, t);
      case CleanCommit(d) => CleanCommitShape(w, d);
      case _ =>
    }
  }

  lemma RetryAlone(w: World, a: CleanAction)
    requires CleanEnabled(w, a) && Alone(w)
    ensures Alone(CleanApply(w, a))
  {
    if !a.CleanBegin? {
      NobodyNew(w, CleanApply(w, a));
    }
  }

  lemma CleanIsSound(w: World, a: CleanAction)
    requires Sound(w) && CleanEnabled(w, a) && Guarded(w, Cleaning(a))
    ensures Sound(CleanApply(w, a))
  {
    CleanStep(w, a);
    RetryCalm(w, a);
    CalmNotes(w, CleanApply(w, a));
    RetryAlone(w, a);
    forall e: nat ensures DepSound(CleanApply(w, a), e) {
      RetriesSound(w, a, e);
    }
  }

  lemma EventsAlone(w: World, a: ClusterAction)
    requires Core(w) && Alone(w) && ClusterEnabled(w, a)
    ensures Alone(ClusterApply(w, a))
  {
    if a.Recover? {
      forall k | k in w.procs ensures !Main(w.procs[k]) {
        assert Fine(ViewOf(w, k), w.booting);
      }
    } else {
      NobodyNew(w, ClusterApply(w, a));
    }
  }

  lemma ClusterIsSound(w: World, a: ClusterAction)
    requires Sound(w) && ClusterEnabled(w, a)
    ensures Sound(ClusterApply(w, a))
  {
    ClusterStep(w, a);
    CalmNotes(w, ClusterApply(w, a));
    EventsAlone(w, a);
    forall e: nat ensures DepSound(ClusterApply(w, a), e) {
      EventsSound(w, a, e);
    }
  }
}
