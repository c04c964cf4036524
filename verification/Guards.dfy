/** The guards under which no VM is orphaned, whatever overtakes what, and the invariant behind it.

    No rule keeps handlers away from a deployment whose ended job is still reconciled, and none asks
    for distinct VMIDs.  Instead the few steps that give up a row, or free one for others to give up,
    have to look at the tables once more (`Guarded`).

    The invariant speaks about one deployment at a time (`DepSound`).  Most steps leave all of them
    as they were (`Stays`), or touch one job and its deployment (`Moves`). */
module Guards {
  import opened Rows
  import opened Machine
  import opened CoreSafety
  import opened Ownership

  // ------------------------------------------------------------------ the guards

  predicate CreatingKind(kind: Kind) {
    kind == Deploy || kind == Rebuild
  }

  /** The job submitted a create that was not refused. */
  predicate Creates(job: Job) {
    CreatingKind(job.kind) && (job.create == Submitting || job.create == Accepted)
  }

  /** The job runs and may be about to submit a create. */
  predicate Starting(job: Job) {
    CreatingKind(job.kind) && job.status == Running && job.create == Unsubmitted
  }

  predicate Newer(db: Tables, j: nat, k: nat)
    requires j in db.jobs
  {
    k in db.jobs && j < k && db.jobs[k].dep == db.jobs[j].dep
  }

  /** A newer job of the same deployment submitted a create that was not refused. */
  predicate Resubmitted(db: Tables, j: nat)
    requires j in db.jobs
  {
    exists k | k in db.jobs :: Newer(db, j, k) && Creates(db.jobs[k])
  }

  /** What the tables tell a thread that is about to drop the row of job `j`: the row is gone, or
      names another VMID than the one looked up, or none was looked up, or no newer job submitted a
      create or may be about to. */
  predicate StillGone(db: Tables, j: nat, vmid: Option<nat>)
    requires j in db.jobs
  {
    var d := db.jobs[j].dep;
    || d !in db.deps || db.deps[d].vmid != vmid || vmid.None?
    || forall k | k in db.jobs && Newer(db, j, k) :: !Creates(db.jobs[k]) && !Starting(db.jobs[k])
  }

  /** On absence the commit of a destroy, or of a cancelled deploy, drops the row. */
  predicate Drops(w: World, j: nat) {
    && RecAt(w, j) && w.recs[j].phase.Found? && w.recs[j].phase.presence == Absent
    && (w.db.jobs[j].kind == Destroy || (w.db.jobs[j].kind == Deploy && w.recs[j].canceled))
  }

  /** The tables tell that no create of the deployment can still land: its identity is not in doubt,
      or it has no VMID, or the job in progress has not come to its create, or is past it. */
  predicate NothingLost(db: Tables, d: nat) {
    d in db.deps ==>
      || db.deps[d].identity != Submitting || db.deps[d].vmid.None?
      || exists k | k in db.jobs ::
           db.jobs[k].dep == d && (db.jobs[k].status == Queued || db.jobs[k].status == Waiting)
  }

  /** The VM under the VMID of the deployment is its own. */
  predicate SeesOwn(w: World, d: nat)
    requires d in w.db.deps
  {
    var v := w.db.deps[d].vmid;
    v.Some? && v.value in w.vms && w.vms[v.value] == Created(d)
  }

  /** What each kind of step has to look at before it is taken.  Nothing else is asked of anybody:
      handlers may admit jobs while an ended job is still reconciled, and VMIDs may be shared. */
  predicate Guarded(w: World, a: Action) {
    match a
    case Http(Confirm(d, _)) => d in w.db.deps && w.db.deps[d].identity == Submitting ==> SeesOwn(w, d)
    case Http(LocalCleanup(d)) => NothingLost(w.db, d)
    case Cleaning(CleanBegin(d)) => NothingLost(w.db, d)
    case Http(Prune(k)) =>
      k in w.db.jobs && Creates(w.db.jobs[k]) ==>
        forall j | j in w.recs && j in w.db.jobs && w.recs[j].host == Waiter :: !Newer(w.db, j, k)
    case Reconcile(RecCommit(j, _)) =>
      Drops(w, j) && w.recs[j].host == Waiter ==> StillGone(w.db, j, w.recs[j].phase.vmid)
    case _ => true
  }

  // ------------------------------------------------------------------ the invariant

  /** The create state a job carries in each phase. */
  ghost predicate JobNote(w: World, k: nat) {
    k in w.db.jobs ==>
      var job := w.db.jobs[k];
      && (CreatingKind(job.kind) && job.status == Queued ==> job.create == Unsubmitted)
      && (k in w.procs ==>
            var p := w.procs[k];
            && (CreatingKind(job.kind) && (p == Begun || p == Gone) ==> job.create == Unsubmitted)
            && (Creating(p) ==> CreatingKind(job.kind))
            && (p.Chosen? ==> job.create == Unsubmitted)
            && (p.Marked? || p.Sent? ==> job.create == Submitting))
  }

  /** While the job worker executes a job it neither reconciles nor cleans up. */
  ghost predicate Alone(w: World) {
    forall k | k in w.procs && Main(w.procs[k]) ::
      && w.cleaners == map[]
      && (forall j | j in w.procs && Main(w.procs[j]) :: j == k)
      && (forall j | j in w.recs :: w.recs[j].host == Waiter)
  }

  ghost predicate ActiveNewest(db: Tables) {
    forall j, k | j in db.jobs && k in db.jobs && db.jobs[j].dep == db.jobs[k].dep ::
      Active(db.jobs[k].status) ==> j <= k
  }

  ghost predicate NothingPending(w: World, d: nat) {
    forall r | r in w.pending :: r.dep != d
  }

  ghost predicate ProcSound(w: World, k: nat)
    requires k in w.db.jobs
  {
    var d := w.db.jobs[k].dep;
    k in w.procs && w.db.jobs[k].status == Running ==>
      var p := w.procs[k];
      && (p == Begun && w.db.jobs[k].kind == Deploy && d in w.db.deps ==> w.db.deps[d].vmid.None?)
      && (p == Gone || p.Chosen? || p.Marked? || p.Refused? ==> Bare(w, d))
      && (p.Chosen? || p.Marked? || p.Sent? ==> d in w.db.deps && w.db.deps[d].vmid == Some(p.vmid))
      && (p.Marked? || p.Sent? ==> w.db.deps[d].identity == Submitting)
  }

  /** A request in flight belongs to the job in progress, if there is one. */
  ghost predicate PendingSound(w: World, k: nat)
    requires k in w.db.jobs
  {
    Active(w.db.jobs[k].status) ==>
      forall r | r in w.pending && r.dep == w.db.jobs[k].dep ::
        r.job == k && w.db.jobs[k].status == Running && (k in w.procs ==> w.procs[k].Sent?)
  }

  ghost predicate RecSound(w: World, j: nat, rec: Rec)
    requires j in w.db.jobs
  {
    var d := w.db.jobs[j].dep;
    var excused := rec.host == Waiter && Resubmitted(w.db, j);
    && (rec.phase.Destroying? || rec.phase.Probing? || rec.phase.Found? ==> NothingPending(w, d) || excused)
    && (rec.phase.Found? && rec.phase.presence == Absent && d in w.db.deps && w.db.deps[d].vmid == rec.phase.vmid ==>
          Bare(w, d) || excused)
  }

  ghost predicate JobSound(w: World, k: nat)
    requires k in w.db.jobs
  {
    var d := w.db.jobs[k].dep;
    && ProcSound(w, k) && PendingSound(w, k)
    && (k in w.recs ==> RecSound(w, k, w.recs[k]))
    && (w.db.jobs[k].status == Queued && w.db.jobs[k].kind == Deploy && d in w.db.deps ==> w.db.deps[d].vmid.None?)
  }

  ghost predicate CleanSound(w: World, d: nat) {
    d in w.cleaners ==>
      var c := w.cleaners[d];
      && NothingPending(w, d)
      && (c.Seen? && c.presence == Absent && d in w.db.deps && w.db.deps[d].vmid == c.vmid ==> Bare(w, d))
  }

  ghost predicate DepSound(w: World, d: nat) {
    && OwnOk(w, d) && CleanSound(w, d)
    && forall k | k in w.db.jobs && w.db.jobs[k].dep == d :: JobSound(w, k)
  }

  ghost predicate Orderly(w: World) {
    Core(w) && Alone(w) && ActiveNewest(w.db) && forall k: nat :: JobNote(w, k)
  }

  ghost predicate Sound(w: World) {
    Orderly(w) && forall d: nat :: DepSound(w, d)
  }

  lemma NothingLostIsGone(w: World, d: nat)
    requires DepSound(w, d) && NothingLost(w.db, d)
    ensures NothingPending(w, d)
  {
    if d in w.db.deps && w.db.deps[d].identity == Submitting && w.db.deps[d].vmid.Some? {
      var k :| k in w.db.jobs && w.db.jobs[k].dep == d
               && (w.db.jobs[k].status == Queued || w.db.jobs[k].status == Waiting);
      assert JobSound(w, k) && PendingSound(w, k);
    }
  }

  // ------------------------------------------------------------------ what a step leaves alone

  ghost predicate Fewer(w: World, w': World, d: nat) {
    && (forall v | v in w'.vms && w'.vms[v] == Created(d) :: v in w.vms && w.vms[v] == Created(d))
    && (forall r | r in w'.pending && r.dep == d :: r in w.pending)
  }

  /** The row is still there with its VMID; its identity may have come into doubt. */
  ghost predicate RowStays(w: World, w': World, d: nat) {
    && (d in w'.db.deps <==> d in w.db.deps)
    && (d in w.db.deps ==>
          && w'.db.deps[d].vmid == w.db.deps[d].vmid
          && (w'.db.deps[d].identity == w.db.deps[d].identity || w'.db.deps[d].identity == Submitting))
  }

  /** Job `k` and its threads are as before, but for its task and its cancel flag. */
  predicate JobStays(w: World, w': World, k: nat) {
    && k in w.db.jobs && k in w'.db.jobs
    && w'.db.jobs[k] == w.db.jobs[k].(task := w'.db.jobs[k].task, cancelRequested := w'.db.jobs[k].cancelRequested)
    && (k in w'.procs <==> k in w.procs) && (k in w.procs ==> w'.procs[k] == w.procs[k])
    && (k in w'.recs <==> k in w.recs) && (k in w.recs ==> w'.recs[k] == w.recs[k])
  }

  ghost predicate Stays(w: World, w': World, e: nat) {
    && RowStays(w, w', e) && Fewer(w, w', e)
    && (e in w'.cleaners ==> e in w.cleaners && w'.cleaners[e] == w.cleaners[e])
    && (forall k | k in w.db.jobs && w.db.jobs[k].dep == e :: JobStays(w, w', k))
    && (forall k | k in w'.db.jobs && w'.db.jobs[k].dep == e :: k in w.db.jobs && w.db.jobs[k].dep == e)
  }

  lemma FewerBare(w: World, w': World, d: nat)
    requires Fewer(w, w', d)
    ensures Bare(w, d) ==> Bare(w', d)
    ensures NothingPending(w, d) ==> NothingPending(w', d)
  {
  }

  lemma FewerOwn(w: World, w': World, d: nat)
    requires Fewer(w, w', d) && RowStays(w, w', d) && OwnOk(w, d)
    ensures OwnOk(w', d)
  {
  }

  /** Newer creates are not forgotten. */
  ghost predicate Remembers(db: Tables, db': Tables, d: nat) {
    forall k | k in db.jobs && db.jobs[k].dep == d && Creates(db.jobs[k]) ::
      k in db'.jobs && db'.jobs[k].dep == d && Creates(db'.jobs[k])
  }

  lemma StillResubmitted(db: Tables, db': Tables, j: nat)
    requires j in db.jobs && j in db'.jobs && db'.jobs[j].dep == db.jobs[j].dep
    requires Remembers(db, db', db.jobs[j].dep) && Resubmitted(db, j)
    ensures Resubmitted(db', j)
  {
    var k :| k in db.jobs && Newer(db, j, k) && Creates(db.jobs[k]);
    assert Newer(db', j, k);
  }

  lemma JobStaysSound(w: World, w': World, k: nat, d: nat)
    requires JobStays(w, w', k) && w.db.jobs[k].dep == d && JobSound(w, k)
    requires RowStays(w, w', d) && Fewer(w, w', d) && Remembers(w.db, w'.db, d)
    ensures JobSound(w', k)
  {
    FewerBare(w, w', d);
    if Resubmitted(w.db, k) {
      StillResubmitted(w.db, w'.db, k);
    }
  }

  lemma StaysSound(w: World, w': World, e: nat)
    requires Stays(w, w', e) && DepSound(w, e)
    ensures DepSound(w', e)
  {
    FewerOwn(w, w', e);
    FewerBare(w, w', e);
    assert Remembers(w.db, w'.db, e);
    forall k | k in w'.db.jobs && w'.db.jobs[k].dep == e ensures JobSound(w', k) {
      JobStaysSound(w, w', k, e);
    }
  }

  // ------------------------------------------------------------------ steps on behalf of one job

  /** What such a step has to establish of its own job and deployment. */
  ghost predicate Moves(w: World, w': World, j: nat) {
    && j in w.db.jobs && j in w'.db.jobs && w'.db.jobs[j].dep == w.db.jobs[j].dep
    && Local(w, w', j, w.db.jobs[j].dep)
    && OwnOk(w', w.db.jobs[j].dep)
    && JobSound(w', j)
  }

  /** The step writes neither VMID nor asset. */
  ghost predicate Plain(w: World, w': World, j: nat) {
    && Moves(w, w', j)
    && RowStays(w, w', w.db.jobs[j].dep) && Fewer(w, w', w.db.jobs[j].dep)
    && (Creates(w.db.jobs[j]) ==> Creates(w'.db.jobs[j]))
  }

  lemma ElsewhereStays(w: World, w': World, j: nat, e: nat)
    requires Moves(w, w', j) && e != w.db.jobs[j].dep
    ensures Stays(w, w', e)
  {
    assert SameAssets(w, w', e);
  }

  lemma PlainSound(w: World, w': World, j: nat)
    requires Plain(w, w', j) && DepSound(w, w.db.jobs[j].dep)
    ensures DepSound(w', w.db.jobs[j].dep)
  {
    var d := w.db.jobs[j].dep;
    FewerBare(w, w', d);
    assert Remembers(w.db, w'.db, d);
    forall k | k in w'.db.jobs && w'.db.jobs[k].dep == d ensures JobSound(w', k) {
      if k != j {
        JobStaysSound(w, w', k, d);
      }
    }
  }

  /** The facts about job `j` and its deployment that its next step relies on. */
  ghost predicate Scene(w: World, j: nat) {
    && j in w.db.jobs && Fine(ViewOf(w, j), w.booting) && Alone(w) && ActiveNewest(w.db) && JobNote(w, j)
    && DepSound(w, w.db.jobs[j].dep)
  }
}
