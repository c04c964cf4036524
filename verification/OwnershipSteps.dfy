/** Every step taken on behalf of a live job keeps the ownership invariant.

    The live job of a deployment is its newest one, and the only one anybody works on (`Near`).  A
    step changes nothing but that job, its threads, the row of its deployment and the assets of
    that deployment (`Local`), and has to leave those in order (`Kept`).  The lemmas come in pairs:
    first that a step is local, then that it keeps what it may touch.  Reconciliation steps and
    the best-effort destroy follow in sections of their own. */
module OwnershipSteps {
  import opened Rows
  import opened Machine
  import opened CoreSafety
  import opened Ownership

  /** The facts about a live job, its deployment and its siblings that its next step relies on. */
  ghost predicate Near(w: World, j: nat) {
    && j in w.db.jobs && Live(w, j)
    && Fine(ViewOf(w, j), w.booting)
    && Globals(w)
    && DepInv(w, w.db.jobs[j].dep)
    && forall k | k in w.db.jobs && k != j && w.db.jobs[k].dep == w.db.jobs[j].dep :: !Live(w, k)
  }

  /** The row, the assets and the cleaner of `d` are still in order. */
  ghost predicate RowMoved(w: World, w': World, j: nat, d: nat)
    requires j in w'.db.jobs
  {
    && (d in w'.db.deps ==> d in w.db.deps)
    && (d in w.cleaners ==>
          && d in w.db.deps && d in w'.db.deps && w'.db.deps[d] == w.db.deps[d]
          && (Bare(w, d) ==> Bare(w', d)))
    && (d in w'.db.deps ==>
          var row, row' := w.db.deps[d], w'.db.deps[d];
          && (row'.vmid == row.vmid || row'.vmid.None?
              || forall e | e in w.db.deps && e != d :: w.db.deps[e].vmid != row'.vmid)
          && (row'.status == CleanupPending ==>
                && row'.identity != Submitting
                && (row'.origin == Some(Deploy) || row'.origin == Some(Destroy))
                && (Live(w', j) ==> Dormant(w', j))))
    && (OwnOk(w', d)
        || (d in w'.db.deps && w'.db.deps[d].vmid == w.db.deps[d].vmid
            && (w'.db.deps[d].identity == w.db.deps[d].identity || w'.db.deps[d].identity == Submitting)
            && SameAssets(w, w', d)))
  }

  /** What a step on the live job `j` has to establish. */
  ghost predicate Kept(w: World, w': World, j: nat)
    requires j in w.db.jobs
  {
    var d := w.db.jobs[j].dep;
    && Local(w, w', j, d)
    && j in w'.db.jobs && w'.db.jobs[j].dep == d
    && w.nextTask <= w'.nextTask
    && (w'.db.jobs[j].task.Some? ==> w'.db.jobs[j].task.value < w'.nextTask)
    && (forall t | t in w'.tasks :: t < w'.nextTask)
    && w'.db.leases <= w.db.leases && (d in w'.db.leases ==> d in w'.db.deps)
    && (w.cleaners != map[] ==>
          (j in w'.procs ==> !Main(w'.procs[j])) && (j in w'.recs ==> w'.recs[j].host == Waiter))
    && RowMoved(w, w', j, d)
    && JobOk(w', j)
  }

  lemma KeptGlobals(w: World, w': World, j: nat)
    requires j in w.db.jobs && Globals(w) && Kept(w, w', j)
    ensures Globals(w')
  {
  }

  lemma KeptOwn(w: World, w': World, j: nat, d: nat)
    requires Near(w, j) && Kept(w, w', j) && d == w.db.jobs[j].dep
    ensures OwnOk(w', d)
    ensures d in w'.db.deps ==> RowOk(w', d)
    ensures d in w'.cleaners ==> CleanerOk(w', d)
  {
  }

  lemma KeptStep(w: World, w': World, j: nat)
    requires Own(w) && Core(w') && Near(w, j) && Kept(w, w', j)
    ensures Own(w')
  {
    KeptGlobals(w, w', j);
    KeptOwn(w, w', j, w.db.jobs[j].dep);
    OneDep(w, w', j);
  }

  /** A step that writes neither the row nor the assets of its deployment. */
  lemma Untouched(w: World, w': World, j: nat)
    requires Near(w, j)
    requires Local(w, w', j, w.db.jobs[j].dep)
    requires j in w'.db.jobs && w'.db.jobs[j].dep == w.db.jobs[j].dep && JobOk(w', j)
    requires w'.db.deps == w.db.deps && w'.db.leases == w.db.leases && w'.vms == w.vms && w'.pending == w.pending
    requires w.nextTask <= w'.nextTask && (forall t | t in w'.tasks :: t < w'.nextTask)
    requires w'.db.jobs[j].task.Some? ==> w'.db.jobs[j].task.value < w'.nextTask
    requires w.cleaners != map[] ==>
      (j in w'.procs ==> !Main(w'.procs[j])) && (j in w'.recs ==> w'.recs[j].host == Waiter)
    requires Live(w', j) && Dormant(w, j) ==> Dormant(w', j)
    ensures Kept(w, w', j)
  {
  }

  // ------------------------------------------------------------------ locality

  lemma ToLocal(w: World, j: nat, p: Phase)
    requires j in w.db.jobs
    ensures Local(w, To(w, j, p), j, w.db.jobs[j].dep)
  {
  }

  lemma TrackLocal(w: World, j: nat)
    requires j in w.db.jobs && CanTrack(w, j)
    ensures Local(w, DoTrack(w, j), j, w.db.jobs[j].dep)
  {
  }

  lemma DeferLocal(w: World, j: nat)
    requires j in w.db.jobs && CanDefer(w, j)
    ensures Local(w, DoDefer(w, j), j, w.db.jobs[j].dep)
  {
  }

  lemma SucceedLocal(w: World, j: nat)
    requires j in w.db.jobs && CanSucceed(w, j)
    ensures Local(w, DoSucceed(w, j), j, w.db.jobs[j].dep)
  {
  }

  lemma ResumeLocal(w: World, j: nat)
    requires j in w.db.jobs && CanResume(w, j)
    ensures Local(w, DoResume(w, j), j, w.db.jobs[j].dep)
  {
  }

  lemma BeginLocal(w: World, j: nat)
    requires j in w.db.jobs && CanClaim(w, j)
    ensures Local(w, Put(w, WithStatus(w.db, j, Running), j, Begun), j, w.db.jobs[j].dep)
  {
  }

  lemma SendLocal(w: World, j: nat)
    requires j in w.db.jobs && CanSend(w, j)
    ensures Local(w, DoSend(w, j), j, w.db.jobs[j].dep)
  {
  }

  lemma FinishLocal(w: World, j: nat)
    requires j in w.db.jobs && CanFinish(w, j)
    ensures Local(w, DoFinish(w, j), j, w.db.jobs[j].dep)
  {
  }

  lemma DropRowLocal(w: World, j: nat)
    requires j in w.db.jobs && CanDropRow(w, j)
    ensures Local(w, DoDropRow(w, j), j, w.db.jobs[j].dep)
  {
  }

  lemma ExpireLocal(w: World, j: nat)
    requires j in w.db.jobs && CanExpire(w, j)
    ensures Local(w, DoExpire(w, j), j, w.db.jobs[j].dep)
  {
  }

  lemma AcceptLocal(w: World, j: nat)
    requires j in w.db.jobs && CanAccept(w, j)
    ensures Local(w, DoAccept(w, j), j, w.db.jobs[j].dep)
  {
  }

  lemma RejectLocal(w: World, j: nat)
    requires j in w.db.jobs && CanReject(w, j)
    ensures Local(w, DoReject(w, j), j, w.db.jobs[j].dep)
  {
  }

  lemma MarkLocal(w: World, j: nat)
    requires j in w.db.jobs && CanMark(w, j)
    ensures Local(w, DoMark(w, j), j, w.db.jobs[j].dep)
  {
  }

  lemma SelectLocal(w: World, j: nat, v: nat)
    requires j in w.db.jobs && CanSelect(w, j, v)
    ensures Local(w, DoSelect(w, j, v), j, w.db.jobs[j].dep)
  {
  }

  lemma PlayLocal(w: World, j: nat)
    requires j in w.db.jobs && CanPlay(w, j)
    ensures Local(w, DoPlay(w, j), j, w.db.jobs[j].dep)
  {
  }

  lemma ReplayedLocal(w: World, j: nat)
    requires OnRow(w, j) && At(w, j, Replaying) && w.db.jobs[j].status == Running
    ensures Local(w, DoPlayOk(w, j), j, w.db.jobs[j].dep)
  {
    var d := w.db.jobs[j].dep;
    var jobs := w.db.jobs[j := w.db.jobs[j].(status := Succeeded)];
    var deps := w.db.deps[d := w.db.deps[d].(status := Up, origin := None)];
    assert DoPlayOk(w, j) == w.(db := Tables(jobs, deps, w.db.leases), procs := w.procs - {j});
  }

  lemma RecFinishLocal(w: World, j: nat)
    requires j in w.db.jobs && CanRecFinish(w, j)
    ensures Local(w, DoRecFinish(w, j), j, w.db.jobs[j].dep)
  {
  }

  lemma RaiseLocal(w: World, j: nat, canceled: bool)
    requires j in w.db.jobs && CanRaise(w, j, canceled)
    ensures Local(w, DoRaise(w, j, canceled), j, w.db.jobs[j].dep)
  {
  }

  lemma StartLocal(w: World, s: JobStatus, j: nat, canceled: bool, host: Host)
    requires j in w.db.jobs
    ensures Local(w, StartRec(w, WithStatus(w.db, j, s), j, canceled, host), j, w.db.jobs[j].dep)
  {
  }

  lemma AdvanceLocal(w: World, db: Tables, j: nat, p: RecPhase)
    requires j in w.db.jobs && j in w.recs && RowOnly(w.db, db, w.db.jobs[j].dep)
    ensures Local(w, Conclude(w, db, j, p), j, w.db.jobs[j].dep)
  {
  }

  // ------------------------------------------------------------------ the job worker

  lemma ProveGoneKept(w: World, j: nat)
    requires Near(w, j) && CanProveGone(w, j)
    ensures Kept(w, To(w, j, Gone), j)
  {
    ToLocal(w, j, Gone);
    Untouched(w, To(w, j, Gone), j);
  }

  lemma BootKept(w: World, j: nat)
    requires Near(w, j) && CanBoot(w, j)
    ensures Kept(w, To(w, j, Booted), j)
  {
    ToLocal(w, j, Booted);
    Untouched(w, To(w, j, Booted), j);
  }

  lemma SkipPlayKept(w: World, j: nat)
    requires Near(w, j) && At(w, j, Booted)
    ensures Kept(w, To(w, j, Played), j)
  {
    ToLocal(w, j, Played);
    Untouched(w, To(w, j, Played), j);
  }

  lemma TrackKept(w: World, j: nat)
    requires Near(w, j) && CanTrack(w, j)
    ensures Kept(w, DoTrack(w, j), j)
  {
    TrackLocal(w, j);
    Untouched(w, DoTrack(w, j), j);
  }

  lemma SelectJob(w: World, j: nat, v: nat)
    requires Near(w, j) && CanSelect(w, j, v)
    ensures j in DoSelect(w, j, v).db.jobs && JobOk(DoSelect(w, j, v), j)
  {
  }

  lemma SelectKept(w: World, j: nat, v: nat)
    requires Near(w, j) && CanSelect(w, j, v) && Disciplined(w, Work(SelectVmid(j, v)))
    ensures Kept(w, DoSelect(w, j, v), j)
  {
    SelectLocal(w, j, v);
    SelectJob(w, j, v);
  }

  lemma MarkJob(w: World, j: nat)
    requires Near(w, j) && CanMark(w, j)
    ensures j in DoMark(w, j).db.jobs && JobOk(DoMark(w, j), j)
  {
  }

  lemma MarkKept(w: World, j: nat)
    requires Near(w, j) && CanMark(w, j)
    ensures Kept(w, DoMark(w, j), j)
  {
    MarkLocal(w, j);
    MarkJob(w, j);
  }

  lemma SendOwn(w: World, j: nat)
    requires Near(w, j) && CanSend(w, j)
    ensures OwnOk(DoSend(w, j), w.db.jobs[j].dep)
  {
    assert JobOk(w, j) && ProcOk(w, j, w.procs[j]);
  }

  lemma SendJob(w: World, j: nat)
    requires Near(w, j) && CanSend(w, j)
    ensures j in DoSend(w, j).db.jobs && JobOk(DoSend(w, j), j)
  {
    assert JobOk(w, j) && ProcOk(w, j, w.procs[j]);
  }

  lemma SendKept(w: World, j: nat)
    requires Near(w, j) && CanSend(w, j)
    ensures Kept(w, DoSend(w, j), j)
  {
    SendLocal(w, j);
    SendOwn(w, j);
    SendJob(w, j);
  }

  lemma AcceptJob(w: World, j: nat)
    requires Near(w, j) && CanAccept(w, j)
    ensures j in DoAccept(w, j).db.jobs && JobOk(DoAccept(w, j), j)
  {
  }

  lemma AcceptOwn(w: World, j: nat)
    requires Near(w, j) && CanAccept(w, j)
    ensures OwnOk(DoAccept(w, j), w.db.jobs[j].dep)
  {
    assert JobOk(w, j) && ProcOk(w, j, w.procs[j]);
  }

  lemma AcceptKept(w: World, j: nat)
    requires Near(w, j) && CanAccept(w, j)
    ensures Kept(w, DoAccept(w, j), j)
  {
    AcceptLocal(w, j);
    AcceptJob(w, j);
    AcceptOwn(w, j);
  }

  lemma RejectJob(w: World, j: nat)
    requires Near(w, j) && CanReject(w, j)
    ensures j in DoReject(w, j).db.jobs && JobOk(DoReject(w, j), j)
  {
  }

  lemma RejectKept(w: World, j: nat)
    requires Near(w, j) && CanReject(w, j)
    ensures Kept(w, DoReject(w, j), j)
  {
    RejectLocal(w, j);
    RejectJob(w, j);
  }

  lemma DeferKept(w: World, j: nat)
    requires Near(w, j) && CanDefer(w, j)
    ensures Kept(w, DoDefer(w, j), j)
  {
    DeferLocal(w, j);
    Untouched(w, DoDefer(w, j), j);
  }

  lemma FinishKept(w: World, j: nat)
    requires Near(w, j) && CanFinish(w, j)
    ensures Kept(w, DoFinish(w, j), j)
  {
    FinishLocal(w, j);
  }

  lemma DropRowKept(w: World, j: nat)
    requires Near(w, j) && CanDropRow(w, j)
    ensures Kept(w, DoDropRow(w, j), j)
  {
    DropRowLocal(w, j);
  }

  lemma SucceedKept(w: World, j: nat)
    requires Near(w, j) && CanSucceed(w, j)
    ensures Kept(w, DoSucceed(w, j), j)
  {
    SucceedLocal(w, j);
    Untouched(w, DoSucceed(w, j), j);
  }

  lemma PlayKept(w: World, j: nat)
    requires Near(w, j) && CanPlay(w, j) && w.db.jobs[j].status == Running
    ensures Kept(w, DoPlay(w, j), j)
  {
    PlayLocal(w, j);
    assert ProcOk(w, j, w.procs[j]);
    Untouched(w, DoPlay(w, j), j);
  }

  lemma ExpireKept(w: World, j: nat)
    requires Near(w, j) && CanExpire(w, j)
    ensures Kept(w, DoExpire(w, j), j)
  {
    ExpireLocal(w, j);
  }

  lemma ResumeKept(w: World, j: nat)
    requires Near(w, j) && CanResume(w, j)
    ensures Kept(w, DoResume(w, j), j)
  {
    ResumeLocal(w, j);
    Untouched(w, DoResume(w, j), j);
  }

  lemma RecFinishKept(w: World, j: nat)
    requires Near(w, j) && CanRecFinish(w, j)
    ensures Kept(w, DoRecFinish(w, j), j)
  {
    RecFinishLocal(w, j);
    Untouched(w, DoRecFinish(w, j), j);
  }

  lemma ProbeKept(w: World, j: nat, p: Presence)
    requires Near(w, j) && CanProbe(w, j, p)
    ensures Kept(w, DoProbe(w, j, p), j)
  {
    AdvanceLocal(w, w.db, j, Found(w.recs[j].phase.vmid, p));
    Untouched(w, DoProbe(w, j, p), j);
  }

  // ------------------------------------------------------------------ starting a reconciliation

  /** A reconciliation of `j` starts and has not looked at anything yet. */
  lemma StartKept(w: World, s: JobStatus, j: nat, canceled: bool, host: Host)
    requires Near(w, j)
    requires s == Queued || s == Waiting ==> false
    requires host == Inline ==> s == Running
    requires host != Waiter ==> w.cleaners == map[]
    requires host == Aftermath || !Dormant(w, j)
    ensures Kept(w, StartRec(w, WithStatus(w.db, j, s), j, canceled, host), j)
  {
    StartLocal(w, s, j, canceled, host);
    Untouched(w, StartRec(w, WithStatus(w.db, j, s), j, canceled, host), j);
  }

  lemma BeginKept(w: World, j: nat)
    requires Near(w, j) && CanClaim(w, j)
    ensures Kept(w, Put(w, WithStatus(w.db, j, Running), j, Begun), j)
  {
    BeginLocal(w, j);
    Untouched(w, Put(w, WithStatus(w.db, j, Running), j, Begun), j);
  }

  lemma ClaimKept(w: World, j: nat, disabled: bool)
    requires Near(w, j) && CanClaim(w, j)
    ensures Kept(w, DoClaim(w, j, disabled), j)
  {
    if w.db.jobs[j].cancelRequested {
      StartKept(w, Canceled, j, true, Aftermath);
    } else if disabled {
      StartKept(w, Failed, j, false, Aftermath);
    } else {
      BeginKept(w, j);
    }
  }

  lemma WaitErrorKept(w: World, j: nat, canceled: bool)
    requires Near(w, j) && (CanAbort(w, j, canceled) || CanWaitRaise(w, j, canceled))
    requires Active(w.db.jobs[j].status)
    ensures Kept(w, DoWaitError(w, j, canceled), j)
  {
    StartKept(w, if canceled then Canceled else Failed, j, canceled, Waiter);
  }

  /** A create that was never submitted, or was refused. */
  predicate Undoing(w: World, j: nat) {
    j in w.procs && (w.procs[j].Chosen? || w.procs[j].Refused?)
  }

  /** Before a create was submitted, and after it was refused, nothing is there. */
  lemma ClearBare(w: World, j: nat)
    requires Near(w, j) && Undoing(w, j) && w.db.jobs[j].status == Running
    ensures w.db.jobs[j].dep in w.db.deps && Bare(w, w.db.jobs[j].dep) && w.db.jobs[j].dep !in w.cleaners
    ensures w.db.deps[w.db.jobs[j].dep].vmid == Some(w.procs[j].vmid) && !Dormant(w, j)
  {
    assert JobOk(w, j) && ProcOk(w, j, w.procs[j]);
  }

  /** What giving the VMID back does to the row, and to the job that starts to be reconciled. */
  lemma ClearRow(w: World, j: nat, canceled: bool)
    requires j in w.db.jobs && CanRaise(w, j, canceled) && Undoing(w, j)
    requires w.db.jobs[j].dep in w.db.deps && w.db.deps[w.db.jobs[j].dep].vmid == Some(w.procs[j].vmid)
    ensures
      var w', d := DoRaise(w, j, canceled), w.db.jobs[j].dep;
      && w'.db.deps == w.db.deps[d := w.db.deps[d].(vmid := None)]
      && w'.db.jobs == w.db.jobs[j := w.db.jobs[j].(status := Running)]
      && w' == w.(db := Tables(w'.db.jobs, w'.db.deps, w.db.leases), procs := w.procs - {j},
                  recs := w.recs[j := Rec(canceled, Inline, Checking)])
  {
  }

  /** A create that was never submitted, or was refused, gives the VMID back: nothing is there. */
  lemma ClearKept(w: World, j: nat, canceled: bool)
    requires Near(w, j) && Undoing(w, j) && CanRaise(w, j, canceled)
    ensures Kept(w, DoRaise(w, j, canceled), j)
  {
    RaiseLocal(w, j, canceled);
    ClearBare(w, j);
    ClearRow(w, j, canceled);
    ClearedKept(w, DoRaise(w, j, canceled), j, w.db.jobs[j].dep, canceled);
  }

  lemma ClearedKept(w: World, w': World, j: nat, d: nat, canceled: bool)
    requires Near(w, j) && w.db.jobs[j].dep == d && Local(w, w', j, d) && d in w.db.deps
    requires Bare(w, d) && d !in w.cleaners && w.cleaners == map[] && !Dormant(w, j)
    requires w'.db.deps == w.db.deps[d := w.db.deps[d].(vmid := None)]
    requires w'.db.jobs == w.db.jobs[j := w.db.jobs[j].(status := Running)]
    requires w' == w.(db := Tables(w'.db.jobs, w'.db.deps, w.db.leases), procs := w.procs - {j},
                      recs := w.recs[j := Rec(canceled, Inline, Checking)])
    ensures Kept(w, w', j)
  {
    assert RowOk(w, d);
    assert Bare(w', d);
  }

  lemma RaiseKept(w: World, j: nat, canceled: bool)
    requires Near(w, j) && CanRaise(w, j, canceled)
    ensures Kept(w, DoRaise(w, j, canceled), j)
  {
    if Undoing(w, j) {
      ClearKept(w, j, canceled);
    } else {
      StartKept(w, Running, j, canceled, Inline);
    }
  }

  // ------------------------------------------------------------------ driving a reconciliation

  /** A reconciliation step that writes at most the row it reconciles. */
  ghost predicate Advances(w: World, db: Tables, j: nat, p: RecPhase) {
    && j in w.db.jobs && j in w.recs && w.recs[j].phase != Done
    && var d := w.db.jobs[j].dep;
      && RowOnly(w.db, db, d)
      && (d in w.db.deps && d !in db.deps ==> Bare(w, d))
      && (d in db.deps && db.deps[d].status == CleanupPending ==>
            && db.deps[d].identity != Submitting
            && (db.deps[d].origin == Some(Deploy) || db.deps[d].origin == Some(Destroy))
            && (p == Done || w.recs[j].host == Aftermath))
      && RecOk(w.(db := db), j, w.recs[j].(phase := p))
  }

  lemma AdvanceJob(w: World, db: Tables, j: nat, p: RecPhase)
    requires Near(w, j) && Advances(w, db, j, p)
    ensures j in Conclude(w, db, j, p).db.jobs && JobOk(Conclude(w, db, j, p), j)
  {
  }

  lemma AdvanceRow(w: World, db: Tables, j: nat, p: RecPhase)
    requires Near(w, j) && Advances(w, db, j, p)
    ensures j in db.jobs && RowMoved(w, Conclude(w, db, j, p), j, w.db.jobs[j].dep)
  {
    assert Dormant(w, j) ==> w.recs[j].host == Aftermath;
  }

  lemma AdvanceKept(w: World, db: Tables, j: nat, p: RecPhase)
    requires Near(w, j) && Advances(w, db, j, p)
    ensures Kept(w, Conclude(w, db, j, p), j)
  {
    AdvanceLocal(w, db, j, p);
    AdvanceJob(w, db, j, p);
    AdvanceRow(w, db, j, p);
  }

  lemma CheckKept(w: World, j: nat, settled: bool)
    requires Near(w, j) && CanCheck(w, j, settled)
    ensures Kept(w, DoCheck(w, j, settled), j)
  {
    match Check(w.db, j, settled) {
      case Halt(db) => AdvanceKept(w, db, j, Done);
      case Proceed(_) => AdvanceKept(w, w.db, j, DoCheck(w, j, settled).recs[j].phase);
    }
  }

  lemma CommitFailedRow(db: Tables, j: nat, vmid: Option<nat>, presence: Presence)
    requires j in db.jobs && db.jobs[j].dep in db.deps && db.deps[db.jobs[j].dep].vmid == vmid
    ensures
      var d, db' := db.jobs[j].dep, CommitFailed(db, j, vmid, presence);
      && RowOnly(db, db', d)
      && (d in db'.deps ==> db'.deps[d].status == Error && db'.deps[d].identity == db.deps[d].identity)
      && (d !in db'.deps ==> presence == Absent)
  {
  }

  lemma CommitCanceledRow(db: Tables, j: nat, vmid: Option<nat>, presence: Presence, runtime: Option<DepStatus>)
    requires j in db.jobs && db.jobs[j].dep in db.deps && db.deps[db.jobs[j].dep].vmid == vmid
    requires runtime == None || runtime == Some(Up) || runtime == Some(Stopped)
    ensures
      var d, db' := db.jobs[j].dep, CommitCanceled(db, j, vmid, presence, runtime);
      && RowOnly(db, db', d)
      && (d in db'.deps ==>
            var row := db'.deps[d];
            && row.identity == db.deps[d].identity && row.status != Working
            && (row.status == CleanupPending ==> row.origin == Some(Deploy) || row.origin == Some(Destroy)))
      && (d !in db'.deps ==> presence == Absent)
  {
  }

  lemma CanceledAdvances(w: World, j: nat, runtime: Option<DepStatus>)
    requires Near(w, j) && CanCommit(w, j, runtime) && w.recs[j].canceled
    ensures
      var f := w.recs[j].phase;
      Advances(w, CommitCanceled(w.db, j, f.vmid, f.presence, runtime), j, Done)
  {
    assert RecOk(w, j, w.recs[j]);
    CommitCanceledRow(w.db, j, w.recs[j].phase.vmid, w.recs[j].phase.presence, runtime);
  }

  lemma FailedAdvances(w: World, j: nat, runtime: Option<DepStatus>)
    requires Near(w, j) && CanCommit(w, j, runtime) && !w.recs[j].canceled
    ensures
      var f := w.recs[j].phase;
      Advances(w, CommitFailed(w.db, j, f.vmid, f.presence), j, Done)
  {
    assert RecOk(w, j, w.recs[j]);
    CommitFailedRow(w.db, j, w.recs[j].phase.vmid, w.recs[j].phase.presence);
  }

  lemma CommitKept(w: World, j: nat, runtime: Option<DepStatus>)
    requires Near(w, j) && CanCommit(w, j, runtime)
    ensures Kept(w, DoCommit(w, j, runtime), j)
  {
    var f := w.recs[j].phase;
    if w.recs[j].canceled {
      CanceledAdvances(w, j, runtime);
      AdvanceKept(w, CommitCanceled(w.db, j, f.vmid, f.presence, runtime), j, Done);
    } else {
      FailedAdvances(w, j, runtime);
      AdvanceKept(w, CommitFailed(w.db, j, f.vmid, f.presence), j, Done);
    }
  }

  /** The VMID look-up of the best-effort destroy hits the row being reconciled, and the newest
      job of that row is the one being reconciled. */
  lemma TearHitsOwnRow(w: World, j: nat, t: Tear)
    requires Near(w, j) && CanTear(w, j, t)
    ensures t.hit == w.db.jobs[j].dep && t.newest == Some(j)
  {
  }

  /** The destroy of a half-built VM on behalf of job `j`, reconciling deployment `d`. */
  ghost predicate Tore(w: World, w': World, j: nat, d: nat, task: Option<nat>, p: RecPhase) {
    && j in w.db.jobs && w.db.jobs[j].dep == d && d in w.db.deps && j in w.recs
    && w.recs[j].phase.Destroying? && w.recs[j].phase.vmid == w.db.deps[d].vmid
    && TornRow(w.db, w'.db, d, Some(j), task) && j in w'.db.jobs
    && w' == w.(db := w'.db, recs := w.recs[j := w.recs[j].(phase := p)], nextTask := w'.nextTask, tasks := w'.tasks)
    && w.nextTask <= w'.nextTask && (task.Some? ==> w.nextTask <= task.value < w'.nextTask)
    && (forall u | u in w'.tasks :: u in w.tasks || task == Some(u))
    && (p == Done || w'.db.deps == w.db.deps)
    && (p != Done ==>
          if task.Some? then p == Destroying(w.recs[j].phase.vmid, task) && w'.db.jobs[j].task == task
          else p == Probing(w.recs[j].phase.vmid) && SettledTask(w, j))
  }

  lemma TearTore(w: World, j: nat, t: Tear)
    requires Near(w, j) && CanTear(w, j, t)
    ensures Tore(w, DoTear(w, j, t), j, w.db.jobs[j].dep, t.Task(), DoTear(w, j, t).recs[j].phase)
  {
    TearHitsOwnRow(w, j, t);
    TornTables(w.db, w.db.jobs[j].dep, t);
    assert RecOk(w, j, w.recs[j]);
  }

  lemma ToreLocal(w: World, w': World, j: nat, d: nat, task: Option<nat>, p: RecPhase)
    requires Tore(w, w', j, d, task, p)
    ensures Local(w, w', j, d) && j in w'.db.jobs && w'.db.jobs[j].dep == d
  {
  }

  lemma ToreJob(w: World, w': World, j: nat, d: nat, task: Option<nat>, p: RecPhase)
    requires Near(w, j) && Tore(w, w', j, d, task, p)
    ensures JobOk(w', j)
  {
  }

  /** Distrust neither moves the VMID nor makes a pending row look retryable. */
  lemma ToreRow(w: World, w': World, j: nat, d: nat, task: Option<nat>, p: RecPhase)
    requires Near(w, j) && Tore(w, w', j, d, task, p) && j in w'.db.jobs
    ensures RowMoved(w, w', j, d)
  {
    assert Dormant(w, j) ==> w.recs[j].host == Aftermath;
    assert d !in w.cleaners;
  }

  lemma TearKept(w: World, j: nat, t: Tear)
    requires Near(w, j) && CanTear(w, j, t)
    ensures Kept(w, DoTear(w, j, t), j)
  {
    TearTore(w, j, t);
    var w', d := DoTear(w, j, t), w.db.jobs[j].dep;
    var p := w'.recs[j].phase;
    ToreLocal(w, w', j, d, t.Task(), p);
    ToreJob(w, w', j, d, t.Task(), p);
    ToreRow(w, w', j, d, t.Task(), p);
  }

  // ------------------------------------------------------------------ the waiting worker's success

  /** The job ended well: its row is up, and no thread works on it any more. */
  lemma EndKept(w: World, w': World, j: nat, d: nat)
    requires Near(w, j) && w.db.jobs[j].dep == d && d in w.db.deps && d !in w.cleaners
    requires Local(w, w', j, d) && j !in w'.recs && j !in w'.procs
    requires j in w'.db.jobs && w'.db.jobs[j] == w.db.jobs[j].(status := Succeeded)
    requires d in w'.db.deps && w'.db.deps[d] == w.db.deps[d].(status := Up, origin := None)
    requires w'.vms == w.vms && w'.pending == w.pending && w'.tasks == w.tasks && w'.nextTask == w.nextTask
    requires w'.db.leases == w.db.leases
    ensures Kept(w, w', j)
  {
  }

  lemma ReplayedKept(w: World, j: nat)
    requires Near(w, j) && At(w, j, Replaying) && w.db.jobs[j].status == Running
    ensures Kept(w, DoPlayOk(w, j), j)
  {
    assert JobOk(w, j);
    var d := w.db.jobs[j].dep;
    assert !Dormant(w, j) && RowOk(w, d);
    ReplayedLocal(w, j);
    EndKept(w, DoPlayOk(w, j), j, d);
  }

  lemma PlayedKept(w: World, j: nat)
    requires Near(w, j) && At(w, j, Playing)
    ensures Kept(w, DoPlayOk(w, j), j)
  {
    ToLocal(w, j, Played);
    Untouched(w, DoPlayOk(w, j), j);
  }
}
