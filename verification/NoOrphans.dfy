/** The ownership theorems on whole runs. */
module NoOrphans {
  import opened Rows
  import opened Machine
  import opened CoreSafety
  import opened Ownership
  import opened OwnershipSteps
  import opened OwnershipRest

  lemma LiveIsNear(w: World, j: nat)
    requires Own(w) && j in w.db.jobs && Live(w, j)
    ensures Near(w, j)
  {
    OnlyLive(w, j);
    Known(w, j);
    assert DepInv(w, w.db.jobs[j].dep);
  }

  lemma HeldIsNear(w: World, j: nat)
    requires Own(w) && j in w.procs && Main(w.procs[j])
    ensures j in w.db.jobs && Near(w, j)
  {
    Known(w, j);
    LiveIsNear(w, j);
  }

  lemma WorkKept(w: World, a: WorkAction)
    requires Own(w) && WorkEnabled(w, a) && Disciplined(w, Work(a))
    ensures Near(w, a.job) && Kept(w, WorkApply(w, a), a.job)
  {
    var j := a.job;
    if a.Claim? {
      LiveIsNear(w, j);
    } else {
      assert j in w.procs && Main(w.procs[j]);
      HeldIsNear(w, j);
    }
    match a {
      case Claim(_, disabled) => ClaimKept(w, j, disabled);
      case Track(_) => TrackKept(w, j);
      case ProveGone(_) => ProveGoneKept(w, j);
      case SelectVmid(_, v) => SelectKept(w, j, v);
      case MarkSubmitting(_) => MarkKept(w, j);
      case Send(_) => SendKept(w, j);
      case AcceptCreate(_) => AcceptKept(w, j);
      case RejectCreate(_) => RejectKept(w, j);
      case Boot(_) => BootKept(w, j);
      case Defer(_) => DeferKept(w, j);
      case SkipPlay(_) => SkipPlayKept(w, j);
      case Finish(_) => FinishKept(w, j);
      case DropRow(_) => DropRowKept(w, j);
      case Succeed(_) => SucceedKept(w, j);
      case Raise(_, canceled) => RaiseKept(w, j, canceled);
    }
  }

  lemma WorkOwn(w: World, a: WorkAction)
    requires Own(w) && WorkEnabled(w, a) && Disciplined(w, Work(a))
    ensures Own(WorkApply(w, a))
  {
    WorkStep(w, a);
    WorkKept(w, a);
    KeptStep(w, WorkApply(w, a), a.job);
  }

  lemma WaitKept(w: World, a: WaitAction)
    requires Own(w) && WaitEnabled(w, a) && a.job in w.db.jobs && Active(w.db.jobs[a.job].status)
    ensures Near(w, a.job) && Kept(w, WaitApply(w, a), a.job)
  {
    var j := a.job;
    LiveIsNear(w, j);
    match a {
      case Play(_) => PlayKept(w, j);
      case PlayOk(_) => if At(w, j, Playing) { PlayedKept(w, j); } else { ReplayedKept(w, j); }
      case WaitExpire(_) => ExpireKept(w, j);
      case WaitAbort(_, canceled) => WaitErrorKept(w, j, canceled);
      case WaitResume(_) => ResumeKept(w, j);
      case WaitRaise(_, canceled) => WaitErrorKept(w, j, canceled);
    }
  }

  lemma WaitOwn(w: World, a: WaitAction)
    requires Own(w) && WaitEnabled(w, a)
    ensures Own(WaitApply(w, a))
  {
    var j := a.job;
    WaitStep(w, a);
    if j in w.db.jobs && Active(w.db.jobs[j].status) {
      WaitKept(w, a);
      KeptStep(w, WaitApply(w, a), j);
    } else {
      Known(w, j);
      StrayOwn(w, WaitApply(w, a), j);
    }
  }

  lemma RecKept(w: World, a: RecAction)
    requires Own(w) && RecEnabled(w, a)
    ensures Near(w, a.job) && Kept(w, RecApply(w, a), a.job)
  {
    var j := a.job;
    LiveIsNear(w, j);
    match a {
      case RecCheck(_, settled) => CheckKept(w, j, settled);
      case RecDestroy(_, t) => TearKept(w, j, t);
      case RecProbe(_, p) => ProbeKept(w, j, p);
      case RecCommit(_, runtime) => CommitKept(w, j, runtime);
      case RecFinish(_) => RecFinishKept(w, j);
    }
  }

  lemma RecOwn(w: World, a: RecAction)
    requires Own(w) && RecEnabled(w, a)
    ensures Own(RecApply(w, a))
  {
    RecStep(w, a);
    RecKept(w, a);
    KeptStep(w, RecApply(w, a), a.job);
  }

  /** The ownership invariant is inductive under the operating rules. */
  lemma OwnStep(w: World, a: Action)
    requires Own(w) && Enabled(w, a) && Disciplined(w, a)
    ensures Own(Apply(w, a))
  {
    match a {
      case Http(h) => HandlerOwn(w, h);
      case Work(x) => WorkOwn(w, x);
      case Wait(x) => WaitOwn(w, x);
      case Reconcile(r) => RecOwn(w, r);
      case Cleaning(c) => CleanOwn(w, c);
      case Cluster(c) => ClusterOwn(w, c);
    }
  }

  lemma OwnInit(w: World)
    requires Init(w)
    ensures Own(w)
  {
    CoreInit(w);
  }

  lemma {:induction false} OwnAlways(ws: seq<World>, acts: seq<Action>, i: nat)
    requires DisciplinedTrace(ws, acts) && Own(ws[0]) && i < |ws|
    ensures Own(ws[i])
  {
    if i > 0 {
      OwnAlways(ws, acts, i - 1);
      assert Step(ws[i - 1], acts[i - 1], ws[i]);
      OwnStep(ws[i - 1], acts[i - 1]);
    }
  }

  lemma OwnMeansNoOrphan(w: World)
    requires Own(w)
    ensures NoOrphan(w)
  {
    forall v | v in w.vms && w.vms[v].Created?
      ensures w.vms[v].dep in w.db.deps && w.db.deps[w.vms[v].dep].vmid == Some(v)
    {
      assert DepInv(w, w.vms[v].dep);
    }
    forall r | r in w.pending ensures r.dep in w.db.deps && w.db.deps[r.dep].vmid == Some(r.vmid) {
      assert DepInv(w, r.dep);
    }
  }

  /** No orphan in any reachable state: each VM that exists, or may still land, because of a
      create request is named by the row of the deployment it was requested for. */
  lemma NoOrphanEver(ws: seq<World>, acts: seq<Action>, i: nat)
    requires DisciplinedRun(ws, acts) && i < |ws|
    ensures NoOrphan(ws[i])
  {
    OwnInit(ws[0]);
    OwnAlways(ws, acts, i);
    OwnMeansNoOrphan(ws[i]);
  }
}
