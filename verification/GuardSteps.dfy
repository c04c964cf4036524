/** The steps of the job worker, of the waiting worker and of reconciliations keep what `Guards` says
    of their deployment.

    A step that writes neither VMID nor asset (`Plain`) leaves the other jobs of its deployment alone;
    for the steps around a create the ended jobs' reconciliations are seen to separately
    (`SiblingSound`).

    The sections follow the threads: the job worker, its steps around a create, the waiting worker,
    and reconciliation with its commits. */
module GuardSteps {
  import opened Rows
  import opened Machine
  import opened CoreSafety
  import opened Ownership
  import opened OwnershipSteps
  import opened Guards

  // ------------------------------------------------------------------ plain steps of the job worker

  lemma ToPlain(w: World, j: nat, p: Phase)
    requires Scene(w, j) && j in w.procs && !w.procs[j].Sent?
    requires p != Begun && !Creating(p) && (p == Gone ==> Bare(w, w.db.jobs[j].dep))
    ensures Plain(w, To(w, j, p), j)
  {
    ToLocal(w, j, p);
    assert JobSound(w, j);
  }

  lemma TrackPlain(w: World, j: nat)
    requires Scene(w, j) && CanTrack(w, j)
    ensures Plain(w, DoTrack(w, j), j)
  {
    TrackLocal(w, j);
    assert JobSound(w, j);
  }

  lemma MarkPlain(w: World, j: nat)
    requires Scene(w, j) && CanMark(w, j)
    ensures Plain(w, DoMark(w, j), j)
  {
    MarkLocal(w, j);
    assert JobSound(w, j);
  }

  lemma DeferPlain(w: World, j: nat)
    requires Scene(w, j) && CanDefer(w, j)
    ensures Plain(w, DoDefer(w, j), j)
  {
    DeferLocal(w, j);
    assert JobSound(w, j);
  }

  lemma FinishPlain(w: World, j: nat)
    requires Scene(w, j) && CanFinish(w, j)
    ensures Plain(w, DoFinish(w, j), j)
  {
    FinishLocal(w, j);
    assert JobSound(w, j);
  }

  lemma SucceedPlain(w: World, j: nat)
    requires Scene(w, j) && CanSucceed(w, j)
    ensures Plain(w, DoSucceed(w, j), j)
  {
    SucceedLocal(w, j);
    assert JobSound(w, j);
  }

  lemma BeginPlain(w: World, j: nat)
    requires Scene(w, j) && CanClaim(w, j)
    ensures Plain(w, Put(w, WithStatus(w.db, j, Running), j, Begun), j)
  {
    BeginLocal(w, j);
    assert JobSound(w, j);
  }

  /** A reconciliation of `j` starts and has not looked at anything yet. */
  lemma StartPlain(w: World, s: JobStatus, j: nat, canceled: bool, host: Host)
    requires Scene(w, j) && Active(w.db.jobs[j].status) && (Terminal(s) || s == Running)
    ensures Plain(w, StartRec(w, WithStatus(w.db, j, s), j, canceled, host), j)
  {
    StartLocal(w, s, j, canceled, host);
    assert JobSound(w, j);
  }

  lemma ClaimPlain(w: World, j: nat, disabled: bool)
    requires Scene(w, j) && CanClaim(w, j)
    ensures Plain(w, DoClaim(w, j, disabled), j)
  {
    if w.db.jobs[j].cancelRequested {
      StartPlain(w, Canceled, j, true, Aftermath);
    } else if disabled {
      StartPlain(w, Failed, j, false, Aftermath);
    } else {
      BeginPlain(w, j);
    }
  }

  /** The old VM was seen absent, and nothing is in flight while this job runs. */
  lemma ProveGonePlain(w: World, j: nat)
    requires Scene(w, j) && CanProveGone(w, j)
    ensures Plain(w, To(w, j, Gone), j)
  {
    assert JobSound(w, j);
    ToPlain(w, j, Gone);
  }

  // ------------------------------------------------------------------ the steps around a create

  /** The other jobs of the deployment are not in progress. */
  lemma OthersEnded(w: World, j: nat, k: nat)
    requires Scene(w, j) && Active(w.db.jobs[j].status)
    requires k in w.db.jobs && k != j && w.db.jobs[k].dep == w.db.jobs[j].dep
    ensures k < j && !Active(w.db.jobs[k].status)
  {
  }

  /** What the ended siblings of the job in progress may rely on. */
  ghost predicate SiblingSound(w: World, k: nat)
    requires k in w.db.jobs
  {
    k in w.recs ==> RecSound(w, k, w.recs[k])
  }

  /** A step that touches VMID or assets; the siblings' reconciliations are seen to separately. */
  lemma MoveSound(w: World, w': World, j: nat)
    requires Moves(w, w', j) && Scene(w, j) && Active(w.db.jobs[j].status)
    requires CleanSound(w', w.db.jobs[j].dep)
    requires forall k | k in w'.db.jobs && k != j && w'.db.jobs[k].dep == w.db.jobs[j].dep :: SiblingSound(w', k)
    ensures DepSound(w', w.db.jobs[j].dep)
  {
    var d := w.db.jobs[j].dep;
    forall k | k in w'.db.jobs && w'.db.jobs[k].dep == d ensures JobSound(w', k) {
      if k != j {
        OthersEnded(w, j, k);
      }
    }
  }

  lemma SelectMoves(w: World, j: nat, v: nat)
    requires Scene(w, j) && CanSelect(w, j, v)
    ensures Moves(w, DoSelect(w, j, v), j) && Bare(w, w.db.jobs[j].dep)
  {
    SelectLocal(w, j, v);
    assert JobSound(w, j);
  }

  lemma SelectSound(w: World, j: nat, v: nat)
    requires Scene(w, j) && CanSelect(w, j, v)
    ensures Moves(w, DoSelect(w, j, v), j) && DepSound(DoSelect(w, j, v), w.db.jobs[j].dep)
  {
    SelectMoves(w, j, v);
    var w', d := DoSelect(w, j, v), w.db.jobs[j].dep;
    assert Bare(w', d) && NothingPending(w', d);
    MoveSound(w, w', j);
  }

  lemma SendMoves(w: World, j: nat)
    requires Scene(w, j) && CanSend(w, j)
    ensures Moves(w, DoSend(w, j), j)
  {
    SendLocal(w, j);
    assert JobSound(w, j);
  }

  /** A sibling's reconciliation sees the mark of the newer create. */
  lemma SiblingExcused(w: World, w': World, j: nat, k: nat)
    requires Scene(w, j) && Active(w.db.jobs[j].status) && Local(w, w', j, w.db.jobs[j].dep)
    requires k in w'.db.jobs && k != j && w'.db.jobs[k].dep == w.db.jobs[j].dep
    requires j in w'.db.jobs && w'.db.jobs[j].dep == w.db.jobs[j].dep && Creates(w'.db.jobs[j])
    requires j in w.procs && Main(w.procs[j])
    ensures SiblingSound(w', k)
  {
    assert k in w.db.jobs && w.db.jobs[k] == w'.db.jobs[k];
    OthersEnded(w, j, k);
    assert Newer(w'.db, k, j);
  }

  lemma SendSound(w: World, j: nat)
    requires Scene(w, j) && CanSend(w, j)
    ensures Moves(w, DoSend(w, j), j) && DepSound(DoSend(w, j), w.db.jobs[j].dep)
  {
    SendMoves(w, j);
    var w' := DoSend(w, j);
    forall k | k in w'.db.jobs && k != j && w'.db.jobs[k].dep == w.db.jobs[j].dep ensures SiblingSound(w', k) {
      SiblingExcused(w, w', j, k);
    }
    MoveSound(w, w', j);
  }

  lemma AcceptMoves(w: World, j: nat)
    requires Scene(w, j) && CanAccept(w, j)
    ensures Moves(w, DoAccept(w, j), j)
  {
    AcceptLocal(w, j);
    assert JobSound(w, j);
  }

  lemma AcceptSound(w: World, j: nat)
    requires Scene(w, j) && CanAccept(w, j)
    ensures Moves(w, DoAccept(w, j), j) && DepSound(DoAccept(w, j), w.db.jobs[j].dep)
  {
    AcceptMoves(w, j);
    var w' := DoAccept(w, j);
    forall k | k in w'.db.jobs && k != j && w'.db.jobs[k].dep == w.db.jobs[j].dep ensures SiblingSound(w', k) {
      SiblingExcused(w, w', j, k);
    }
    MoveSound(w, w', j);
  }

  /** A refused create was the only asset of its deployment. */
  lemma RejectMoves(w: World, j: nat)
    requires Scene(w, j) && CanReject(w, j)
    ensures Moves(w, DoReject(w, j), j) && Bare(DoReject(w, j), w.db.jobs[j].dep)
  {
    RejectLocal(w, j);
    assert JobSound(w, j);
    var r := RequestOf(w, j);
    assert forall q | q in w.pending && q.dep == r.dep :: q == r;
  }

  lemma RejectSound(w: World, j: nat)
    requires Scene(w, j) && CanReject(w, j)
    ensures Moves(w, DoReject(w, j), j) && DepSound(DoReject(w, j), w.db.jobs[j].dep)
  {
    RejectMoves(w, j);
    MoveSound(w, DoReject(w, j), j);
  }

  /** Nothing is there when a VMID is given back. */
  lemma UndoMoves(w: World, j: nat, canceled: bool)
    requires Scene(w, j) && CanRaise(w, j, canceled) && Undoing(w, j)
    ensures Moves(w, DoRaise(w, j, canceled), j) && Bare(DoRaise(w, j, canceled), w.db.jobs[j].dep)
  {
    RaiseLocal(w, j, canceled);
    assert JobSound(w, j);
  }

  lemma RaiseSound(w: World, j: nat, canceled: bool)
    requires Scene(w, j) && CanRaise(w, j, canceled)
    ensures Moves(w, DoRaise(w, j, canceled), j) && DepSound(DoRaise(w, j, canceled), w.db.jobs[j].dep)
  {
    if Undoing(w, j) {
      UndoMoves(w, j, canceled);
      MoveSound(w, DoRaise(w, j, canceled), j);
    } else {
      StartPlain(w, Running, j, canceled, Inline);
      PlainSound(w, DoRaise(w, j, canceled), j);
    }
  }

  lemma DropMoves(w: World, j: nat)
    requires Scene(w, j) && CanDropRow(w, j)
    ensures Moves(w, DoDropRow(w, j), j) && Bare(DoDropRow(w, j), w.db.jobs[j].dep)
  {
    DropRowLocal(w, j);
    assert JobSound(w, j);
  }

  lemma DropRowSound(w: World, j: nat)
    requires Scene(w, j) && CanDropRow(w, j)
    ensures Moves(w, DoDropRow(w, j), j) && DepSound(DoDropRow(w, j), w.db.jobs[j].dep)
  {
    DropMoves(w, j);
    MoveSound(w, DoDropRow(w, j), j);
  }

  /** The steps from the choice of a VMID to the answer of the create request. */
  predicate AroundCreate(a: WorkAction) {
    a.SelectVmid? || a.MarkSubmitting? || a.Send? || a.AcceptCreate? || a.RejectCreate?
  }

  lemma CreateSound(w: World, a: WorkAction)
    requires WorkEnabled(w, a) && Scene(w, a.job) && AroundCreate(a)
    ensures Moves(w, WorkApply(w, a), a.job) && DepSound(WorkApply(w, a), w.db.jobs[a.job].dep)
  {
    var j := a.job;
    match a {
      case SelectVmid(_, v) => SelectSound(w, j, v);
      case MarkSubmitting(_) => MarkPlain(w, j); PlainSound(w, DoMark(w, j), j);
      case Send(_) => SendSound(w, j);
      case AcceptCreate(_) => AcceptSound(w, j);
      case RejectCreate(_) => RejectSound(w, j);
    }
  }

  lemma PlainWork(w: World, a: WorkAction)
    requires WorkEnabled(w, a) && Scene(w, a.job) && !AroundCreate(a) && !a.DropRow? && !a.Raise?
    ensures Plain(w, WorkApply(w, a), a.job)
  {
    var j := a.job;
    match a {
      case Claim(_, disabled) => ClaimPlain(w, j, disabled);
      case Track(_) => TrackPlain(w, j);
      case ProveGone(_) => ProveGonePlain(w, j);
      case Boot(_) => ToPlain(w, j, Booted);
      case Defer(_) => DeferPlain(w, j);
      case SkipPlay(_) => ToPlain(w, j, Played);
      case Finish(_) => FinishPlain(w, j);
      case Succeed(_) => SucceedPlain(w, j);
    }
  }

  lemma WorkSound(w: World, a: WorkAction)
    requires WorkEnabled(w, a) && Scene(w, a.job)
    ensures Moves(w, WorkApply(w, a), a.job) && DepSound(WorkApply(w, a), w.db.jobs[a.job].dep)
  {
    var j := a.job;
    if AroundCreate(a) {
      CreateSound(w, a);
    } else if a.DropRow? {
      DropRowSound(w, j);
    } else if a.Raise? {
      RaiseSound(w, j, a.canceled);
    } else {
      PlainWork(w, a);
      PlainSound(w, WorkApply(w, a), j);
    }
  }

  // ------------------------------------------------------------------ the waiting worker

  /** A thread that plays a job without row, or without part in it any more. */
  lemma StrayStays(w: World, w': World, j: nat, e: nat)
    requires j !in w.db.jobs && w' == w.(procs := w'.procs, starts := w'.starts)
    requires forall k | k != j :: (k in w'.procs <==> k in w.procs) && (k in w.procs ==> w'.procs[k] == w.procs[k])
    ensures Stays(w, w', e)
  {
  }

  lemma LeavePlain(w: World, j: nat)
    requires Scene(w, j)
    ensures Plain(w, w.(procs := w.procs - {j}), j)
  {
    assert JobSound(w, j);
  }

  lemma PlayPlain(w: World, j: nat)
    requires Scene(w, j) && CanPlay(w, j)
    ensures Plain(w, DoPlay(w, j), j)
  {
    PlayLocal(w, j);
    assert JobSound(w, j);
  }

  /** The job ended well: its row is up, and no thread works on it any more. */
  lemma EndPlain(w: World, w': World, j: nat)
    requires Scene(w, j) && w.db.jobs[j].dep in w.db.deps && Local(w, w', j, w.db.jobs[j].dep)
    requires j in w'.db.jobs && w'.db.jobs[j] == w.db.jobs[j].(status := Succeeded)
    requires j !in w'.recs && j !in w'.procs && w'.vms == w.vms && w'.pending == w.pending
    requires
      var d := w.db.jobs[j].dep;
      d in w'.db.deps && w'.db.deps[d] == w.db.deps[d].(status := Up, origin := None)
    ensures Plain(w, w', j)
  {
    assert JobSound(w, j);
  }

  lemma ReplayedPlain(w: World, j: nat)
    requires Scene(w, j) && OnRow(w, j) && At(w, j, Replaying) && w.db.jobs[j].status == Running
    ensures Plain(w, DoPlayOk(w, j), j)
  {
    ReplayedLocal(w, j);
    EndPlain(w, DoPlayOk(w, j), j);
  }

  lemma PlayOkPlain(w: World, j: nat)
    requires Scene(w, j) && CanPlayOk(w, j)
    ensures Plain(w, DoPlayOk(w, j), j)
  {
    if w.procs[j] == Playing {
      ToPlain(w, j, Played);
    } else if OnRow(w, j) && w.db.jobs[j].status == Running {
      ReplayedPlain(w, j);
    } else {
      LeavePlain(w, j);
    }
  }

  lemma ExpirePlain(w: World, j: nat)
    requires Scene(w, j) && CanExpire(w, j)
    ensures Plain(w, DoExpire(w, j), j)
  {
    ExpireLocal(w, j);
    assert JobSound(w, j);
  }

  lemma ResumePlain(w: World, j: nat)
    requires Scene(w, j) && CanResume(w, j)
    ensures Plain(w, DoResume(w, j), j)
  {
    ResumeLocal(w, j);
    assert JobSound(w, j);
  }

  lemma WaitErrorPlain(w: World, j: nat, canceled: bool)
    requires Scene(w, j) && (CanAbort(w, j, canceled) || CanWaitRaise(w, j, canceled))
    ensures Plain(w, DoWaitError(w, j, canceled), j)
  {
    if w.db.jobs[j].status == Waiting || w.db.jobs[j].status == Running {
      StartPlain(w, if canceled then Canceled else Failed, j, canceled, Waiter);
    } else {
      LeavePlain(w, j);
    }
  }

  lemma WaitSound(w: World, a: WaitAction)
    requires WaitEnabled(w, a) && Scene(w, a.job)
    ensures Plain(w, WaitApply(w, a), a.job)
  {
    var j := a.job;
    match a {
      case Play(_) => PlayPlain(w, j);
      case PlayOk(_) => PlayOkPlain(w, j);
      case WaitExpire(_) => ExpirePlain(w, j);
      case WaitAbort(_, canceled) => WaitErrorPlain(w, j, canceled);
      case WaitResume(_) => ResumePlain(w, j);
      case WaitRaise(_, canceled) => WaitErrorPlain(w, j, canceled);
    }
  }

  // ------------------------------------------------------------------ reconciliation

  /** Only the reconciliation of `j` goes on to another phase. */
  lemma PhaseSound(w: World, j: nat, p: RecPhase, e: nat)
    requires RecAt(w, j) && DepSound(w, e)
    requires e == w.db.jobs[j].dep ==> RecSound(w, j, w.recs[j].(phase := p))
    ensures DepSound(Advance(w, j, p), e)
  {
    var w' := Advance(w, j, p);
    assert Bare(w, e) ==> Bare(w', e);
    forall k | k in w'.db.jobs && w'.db.jobs[k].dep == e ensures JobSound(w', k) {
      assert JobSound(w, k);
    }
  }

  /** The writes of a reconciliation that keep every row and its VMID. */
  predicate KeepsRows(db: Tables, db': Tables) {
    && db'.deps.Keys == db.deps.Keys && db'.jobs.Keys == db.jobs.Keys
    && (forall k | k in db.jobs :: db'.jobs[k] == db.jobs[k].(task := db'.jobs[k].task))
    && forall d | d in db.deps ::
         && db'.deps[d].vmid == db.deps[d].vmid
         && (db'.deps[d].identity == db.deps[d].identity || db'.deps[d].identity == Submitting)
  }

  lemma KeptRowsStay(w: World, db: Tables, e: nat)
    requires KeepsRows(w.db, db)
    ensures Stays(w, w.(db := db), e)
  {
    assert forall k :: k in db.jobs <==> k in db.jobs.Keys;
    assert forall d :: d in db.deps <==> d in db.deps.Keys;
  }

  lemma CheckKeepsRows(db: Tables, j: nat, settled: bool)
    requires Check(db, j, settled).Halt?
    ensures KeepsRows(db, Check(db, j, settled).db)
  {
  }

  lemma TornKeepsRows(db: Tables, t: Tear)
    ensures KeepsRows(db, TornDown(db, t.hit, t.newest, t.Outcome(), t.Task()))
  {
  }

  /** A commit drops the row it looked up, or writes its status. */
  lemma CommitShape(w: World, j: nat, runtime: Option<DepStatus>)
    requires CanCommit(w, j, runtime)
    ensures
      var db, d := DoCommit(w, j, runtime).db, w.db.jobs[j].dep;
      || KeepsRows(w.db, db)
      || (Drops(w, j) && d in w.db.deps && w.db.deps[d].vmid == w.recs[j].phase.vmid && db == Drop(w.db, d))
  {
    var f := w.recs[j].phase;
    if w.recs[j].canceled {
      CanceledShape(w.db, j, f.vmid, f.presence, runtime);
    } else {
      FailedShape(w.db, j, f.vmid, f.presence);
    }
  }

  predicate DropsRow(db: Tables, db': Tables, d: nat, vmid: Option<nat>) {
    d in db.deps && db.deps[d].vmid == vmid && db' == Drop(db, d)
  }

  lemma CanceledShape(db: Tables, j: nat, vmid: Option<nat>, presence: Presence, runtime: Option<DepStatus>)
    requires j in db.jobs
    ensures
      var db' := CommitCanceled(db, j, vmid, presence, runtime);
      || KeepsRows(db, db')
      || (presence == Absent && (db.jobs[j].kind == Deploy || db.jobs[j].kind == Destroy)
          && DropsRow(db, db', db.jobs[j].dep, vmid))
  {
  }

  lemma FailedShape(db: Tables, j: nat, vmid: Option<nat>, presence: Presence)
    requires j in db.jobs
    ensures
      var db' := CommitFailed(db, j, vmid, presence);
      || KeepsRows(db, db')
      || (presence == Absent && db.jobs[j].kind == Destroy && DropsRow(db, db', db.jobs[j].dep, vmid))
  {
  }

  /** With nobody about to create, and nothing there, the row can go. */
  lemma DropSound(w: World, d: nat, e: nat)
    requires DepSound(w, e) && Bare(w, d)
    requires forall k | k in w.procs && k in w.db.jobs && w.db.jobs[k].dep == d && w.db.jobs[k].status == Running ::
      !Creating(w.procs[k]) || w.procs[k].Refused?
    ensures DepSound(w.(db := Drop(w.db, d)), e)
  {
    var w' := w.(db := Drop(w.db, d));
    assert Bare(w, e) ==> Bare(w', e);
    forall k | k in w'.db.jobs && w'.db.jobs[k].dep == e ensures JobSound(w', k) {
      assert JobSound(w, k);
    }
  }

  /** A guarded drop comes when nothing is there, and nobody is about to create. */
  lemma DropIsDue(w: World, j: nat)
    requires Drops(w, j) && Orderly(w) && DepSound(w, w.db.jobs[j].dep)
    requires w.db.jobs[j].dep in w.db.deps && w.db.deps[w.db.jobs[j].dep].vmid == w.recs[j].phase.vmid
    requires w.recs[j].host == Waiter ==> StillGone(w.db, j, w.recs[j].phase.vmid)
    ensures Bare(w, w.db.jobs[j].dep)
    ensures forall k | k in w.procs && k in w.db.jobs && w.db.jobs[k].dep == w.db.jobs[j].dep
                       && w.db.jobs[k].status == Running :: !Creating(w.procs[k]) || w.procs[k].Refused?
  {
    var d := w.db.jobs[j].dep;
    assert JobSound(w, j) && RecSound(w, j, w.recs[j]);
    assert Fine(ViewOf(w, j), w.booting);
    forall k | k in w.procs && k in w.db.jobs && w.db.jobs[k].dep == d && w.db.jobs[k].status == Running
      ensures !Creating(w.procs[k]) || w.procs[k].Refused?
    {
      assert JobSound(w, k) && JobNote(w, k) && Fine(ViewOf(w, k), w.booting);
      assert k != j ==> Newer(w.db, j, k);
    }
  }

  lemma CommitSound(w: World, j: nat, runtime: Option<DepStatus>, e: nat)
    requires CanCommit(w, j, runtime) && Guarded(w, Reconcile(RecCommit(j, runtime)))
    requires Orderly(w) && DepSound(w, w.db.jobs[j].dep) && DepSound(w, e)
    ensures DepSound(DoCommit(w, j, runtime), e)
  {
    var db, d := DoCommit(w, j, runtime).db, w.db.jobs[j].dep;
    CommitShape(w, j, runtime);
    if KeepsRows(w.db, db) {
      KeptRowsStay(w, db, e);
      StaysSound(w, w.(db := db), e);
    } else {
      DropIsDue(w, j);
      DropSound(w, d, e);
    }
    PhaseSound(w.(db := db), j, Done, e);
  }

  lemma CheckSound(w: World, j: nat, settled: bool, e: nat)
    requires CanCheck(w, j, settled) && DepSound(w, w.db.jobs[j].dep) && DepSound(w, e)
    ensures DepSound(DoCheck(w, j, settled), e)
  {
    match Check(w.db, j, settled) {
      case Halt(db) =>
        CheckKeepsRows(w.db, j, settled);
        KeptRowsStay(w, db, e);
        StaysSound(w, w.(db := db), e);
        PhaseSound(w.(db := db), j, Done, e);
      case Proceed(_) =>
        PhaseSound(w, j, DoCheck(w, j, settled).recs[j].phase, e);
    }
  }

  lemma TearSound(w: World, j: nat, t: Tear, e: nat)
    requires CanTear(w, j, t) && DepSound(w, w.db.jobs[j].dep) && DepSound(w, e)
    ensures DepSound(DoTear(w, j, t), e)
  {
    var w1, d := Tracked(w, t), w.db.jobs[j].dep;
    TornKeepsRows(w.db, t);
    TrackedStays(w, t, e);
    TrackedStays(w, t, d);
    StaysSound(w, w1, e);
    StaysSound(w, w1, d);
    assert JobSound(w1, j);
    PhaseSound(w1, j, AfterMove(w.recs[j].phase.vmid, t.move), e);
  }

  lemma TrackedStays(w: World, t: Tear, e: nat)
    ensures Stays(w, Tracked(w, t), e)
  {
    TornKeepsRows(w.db, t);
    KeptRowsStay(w, Tracked(w, t).db, e);
  }

  lemma ProbeSound(w: World, j: nat, p: Presence, e: nat)
    requires CanProbe(w, j, p) && DepSound(w, w.db.jobs[j].dep) && DepSound(w, e)
    ensures DepSound(DoProbe(w, j, p), e)
  {
    assert JobSound(w, j);
    PhaseSound(w, j, Found(w.recs[j].phase.vmid, p), e);
  }

  lemma RecFinishPlain(w: World, j: nat)
    requires Scene(w, j) && CanRecFinish(w, j)
    ensures Plain(w, DoRecFinish(w, j), j)
  {
    RecFinishLocal(w, j);
    assert JobSound(w, j);
  }
}
