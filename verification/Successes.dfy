/** What a job that succeeded leaves: its deployment up, or, after a destroy, nothing. */
module Successes {
  import opened Rows
  import opened Machine
  import opened CoreSafety
  import opened Ownership
  import opened NoOrphans
  import opened Transitions

  /** Job `j` becomes succeeded. */
  predicate Succeeds(w: World, w': World, j: nat) {
    && j in w.db.jobs && j in w'.db.jobs
    && w.db.jobs[j].status != Succeeded && w'.db.jobs[j].status == Succeeded
  }

  /** The deployment is there and up, and no clean-up origin is left on it. */
  predicate IsUp(db: Tables, d: nat) {
    d in db.deps && db.deps[d].status == Up && db.deps[d].origin == None
  }

  /** There are two ways: the job worker's last transaction, and a replayed plan that ends well. */
  lemma SuccessSteps(w: World, a: Action, j: nat)
    requires Core(w) && Enabled(w, a) && Succeeds(w, Apply(w, a), j)
    ensures (a == Work(Succeed(j)) && At(w, j, Settled)) || (a == Wait(PlayOk(j)) && Replayed(w, j))
  {
    StatusTable(w, a, j);
  }

  // ------------------------------------------------------------------ a destroy, in every run

  /** A destroy goes through three phases and never waits; at its end row and reservation are gone. */
  ghost predicate Razing(w: World, j: nat) {
    j in w.db.jobs && w.db.jobs[j].kind == Destroy ==>
      && w.db.jobs[j].status != Waiting
      && (j in w.procs ==> w.procs[j] == Begun || w.procs[j] == Gone || w.procs[j] == Settled)
      && (At(w, j, Settled) ==> w.db.jobs[j].dep !in w.db.deps && w.db.jobs[j].dep !in w.db.leases)
  }

  predicate IsGone(db: Tables, d: nat) {
    d !in db.deps && d !in db.leases
  }

  lemma HttpReturnsNone(w: World, a: HttpAction, d: nat)
    requires HttpEnabled(w, a) && IsGone(w.db, d) && d < w.nextDep
    ensures IsGone(HttpApply(w, a).db, d)
  {
  }

  lemma WorkReturnsNone(w: World, a: WorkAction, d: nat)
    requires WorkEnabled(w, a) && IsGone(w.db, d)
    ensures IsGone(WorkApply(w, a).db, d)
  {
  }

  lemma WaitReturnsNone(w: World, a: WaitAction, d: nat)
    requires WaitEnabled(w, a) && IsGone(w.db, d)
    ensures IsGone(WaitApply(w, a).db, d)
  {
    if a.PlayOk? {
      PlayOkTables(w, a.job);
      hide DoPlayOk;
    }
  }

  lemma RecReturnsNone(w: World, a: RecAction, d: nat)
    requires RecEnabled(w, a) && IsGone(w.db, d)
    ensures IsGone(RecApply(w, a).db, d)
  {
  }

  lemma CleanReturnsNone(w: World, a: CleanAction, d: nat)
    requires CleanEnabled(w, a) && IsGone(w.db, d)
    ensures IsGone(CleanApply(w, a).db, d)
  {
  }

  /** A deployment that is gone does not come back. */
  lemma NoneReturns(w: World, a: Action, d: nat)
    requires Enabled(w, a) && IsGone(w.db, d) && d < w.nextDep
    ensures IsGone(Apply(w, a).db, d)
  {
    hide HttpEnabled, WorkEnabled, WaitEnabled, RecEnabled, CleanEnabled;
    hide HttpApply, WorkApply, WaitApply, RecApply, CleanApply;
    match a {
      case Http(h) => HttpReturnsNone(w, h, d);
      case Work(x) => WorkReturnsNone(w, x, d);
      case Wait(x) => WaitReturnsNone(w, x, d);
      case Reconcile(r) => RecReturnsNone(w, r, d);
      case Cleaning(c) => CleanReturnsNone(w, c, d);
      case Cluster(c) =>
    }
  }

  // ------------------------------------------------------------------ threads of a destroy

  /** The phases of a destroy. */
  predicate Demolishing(p: Phase) {
    p == Begun || p == Gone || p == Settled
  }

  lemma WorkRazes(w: World, a: WorkAction)
    requires WorkEnabled(w, a) && Razing(w, a.job) && a.job in w.db.jobs && w.db.jobs[a.job].kind == Destroy
    ensures WorkedPhase(w, a).Some? ==> Demolishing(WorkedPhase(w, a).value)
    ensures WorkedPhase(w, a) == Some(Settled) ==> IsGone(WorkApply(w, a).db, w.db.jobs[a.job].dep)
  {
  }

  lemma WaitRazes(w: World, a: WaitAction)
    requires WaitEnabled(w, a) && Razing(w, a.job) && a.job in w.db.jobs && w.db.jobs[a.job].kind == Destroy
    ensures WaitedPhase(w, a).None? || WaitedPhase(w, a) == PhaseOf(w, a.job)
  {
  }

  lemma ThreadRazes(w: World, a: Action, j: nat)
    requires Core(w) && Enabled(w, a) && Razing(w, j) && j in w.db.jobs && w.db.jobs[j].kind == Destroy
    ensures j in Apply(w, a).procs ==> Demolishing(Apply(w, a).procs[j])
    ensures At(Apply(w, a), j, Settled) ==> At(w, j, Settled) || IsGone(Apply(w, a).db, w.db.jobs[j].dep)
  {
    PhaseTable(w, a, j);
    match a {
      case Work(x) => if x.job == j { WorkRazes(w, x); }
      case Wait(x) => if x.job == j { WaitRazes(w, x); }
      case _ =>
    }
  }

  /** A destroy never waits. */
  lemma NeverWaits(w: World, a: Action, j: nat)
    requires Core(w) && Enabled(w, a) && Razing(w, j) && j in w.db.jobs && w.db.jobs[j].kind == Destroy
    requires j in Apply(w, a).db.jobs
    ensures Apply(w, a).db.jobs[j].status != Waiting
  {
    StatusTable(w, a, j);
    hide Apply;
  }

  lemma RazingStep(w: World, a: Action, j: nat)
    requires Core(w) && Enabled(w, a) && Razing(w, j)
    ensures Razing(Apply(w, a), j)
  {
    var w' := Apply(w, a);
    if j in w'.db.jobs && w'.db.jobs[j].kind == Destroy {
      CreateTable(w, a, j);
      if j in w.db.jobs {
        Known(w, j);
        NeverWaits(w, a, j);
        ThreadRazes(w, a, j);
        if At(w, j, Settled) {
          NoneReturns(w, a, w.db.jobs[j].dep);
        }
      } else {
        NewThreads(w, a, j);
      }
    }
  }

  lemma NewThreads(w: World, a: Action, j: nat)
    requires Core(w) && Enabled(w, a) && a.Http? && j == w.nextJob
    ensures j !in Apply(w, a).procs
  {
    assert ViewOf(w, w.nextJob) == View(None, None, None, 0);
    HttpPhase(w, a.http);
    hide HttpApply;
  }

  lemma {:induction false} RazingAlways(ws: seq<World>, acts: seq<Action>, i: nat, j: nat)
    requires Run(ws, acts) && i < |ws|
    ensures Core(ws[i]) && Razing(ws[i], j)
  {
    if i == 0 {
      CoreInit(ws[0]);
    } else {
      RazingAlways(ws, acts, i - 1, j);
      assert Step(ws[i - 1], acts[i - 1], ws[i]);
      CoreStep(ws[i - 1], acts[i - 1]);
      RazingStep(ws[i - 1], acts[i - 1], j);
    }
  }

  /** In every run a destroy that succeeds leaves neither row nor reservation. */
  lemma DestroyLeavesNothing(ws: seq<World>, acts: seq<Action>, i: nat, j: nat)
    requires Run(ws, acts) && i < |acts| && Succeeds(ws[i], ws[i + 1], j) && ws[i].db.jobs[j].kind == Destroy
    ensures ws[i].db.jobs[j].dep !in ws[i + 1].db.deps && ws[i].db.jobs[j].dep !in ws[i + 1].db.leases
  {
    RazingAlways(ws, acts, i, j);
    assert Step(ws[i], acts[i], ws[i + 1]);
    SuccessSteps(ws[i], acts[i], j);
    Known(ws[i], j);
    NoneReturns(ws[i], acts[i], ws[i].db.jobs[j].dep);
  }

  // ------------------------------------------------------------------ everything else, within the rules

  /** The deployment of a job that is all but recorded as succeeded is up. */
  ghost predicate Rewarded(w: World, j: nat) {
    At(w, j, Settled) && j in w.db.jobs && w.db.jobs[j].kind != Destroy && w.db.jobs[j].dep in w.db.deps ==>
      IsUp(w.db, w.db.jobs[j].dep)
  }

  /** Nobody else has a hand in the deployment of a job in progress. */
  lemma OnlyOwnJob(w: World, j: nat, k: nat)
    requires Core(w) && j in w.db.jobs && k in w.db.jobs && w.db.jobs[j].dep == w.db.jobs[k].dep
    requires Active(w.db.jobs[j].status) && Active(w.db.jobs[k].status)
    ensures j == k
  {
    var d := w.db.jobs[j].dep;
    assert ActiveOn(ViewOf(w, j), d) && ActiveOn(ViewOf(w, k), d);
  }

  predicate RowKept(w: World, w': World, d: nat) {
    d in w'.db.deps ==> d in w.db.deps && w'.db.deps[d] == w.db.deps[d]
  }

  lemma HttpKeepsRow(w: World, a: HttpAction, j: nat)
    requires Core(w) && HttpEnabled(w, a) && j in w.db.jobs && w.db.jobs[j].status == Running
    ensures RowKept(w, HttpApply(w, a), w.db.jobs[j].dep)
  {
    var d := w.db.jobs[j].dep;
    Known(w, j);
    assert HasActive(w.db, d);
    if d in w.db.deps {
      HttpRow(w, a, d);
    }
  }

  lemma WorkKeepsRow(w: World, a: WorkAction, j: nat)
    requires Core(w) && WorkEnabled(w, a) && At(w, j, Settled) && j in w.db.jobs
    requires At(WorkApply(w, a), j, Settled)
    ensures RowKept(w, WorkApply(w, a), w.db.jobs[j].dep)
  {
    var d := w.db.jobs[j].dep;
    assert Fine(ViewOf(w, j), w.booting) && Fine(ViewOf(w, a.job), w.booting);
    if a.job in w.db.jobs && w.db.jobs[a.job].dep == d {
      OnlyOwnJob(w, j, a.job);
    }
    OtherRow(w, a, d);
  }

  /** A step on behalf of a job of another deployment. */
  lemma OtherRow(w: World, a: WorkAction, d: nat)
    requires WorkEnabled(w, a) && !On(w, a.job, d)
    ensures RowKept(w, WorkApply(w, a), d)
  {
  }

  lemma WaitKeepsRow(w: World, a: WaitAction, j: nat)
    requires Core(w) && WaitEnabled(w, a) && At(w, j, Settled) && j in w.db.jobs
    ensures RowKept(w, WaitApply(w, a), w.db.jobs[j].dep)
  {
    var d := w.db.jobs[j].dep;
    assert Fine(ViewOf(w, j), w.booting);
    if d in w.db.deps {
      WaitRow(w, a, d);
      if On(w, a.job, d) && Active(w.db.jobs[a.job].status) {
        OnlyOwnJob(w, j, a.job);
      }
    } else {
      WaitAddsNone(w, a, d);
    }
  }

  lemma WaitAddsNone(w: World, a: WaitAction, d: nat)
    requires WaitEnabled(w, a) && d !in w.db.deps
    ensures d !in WaitApply(w, a).db.deps
  {
    if a.PlayOk? {
      PlayOkTables(w, a.job);
      hide DoPlayOk;
    }
  }

  lemma RecKeepsRow(w: World, a: RecAction, j: nat)
    requires Own(w) && RecEnabled(w, a) && At(w, j, Settled) && j in w.db.jobs
    ensures RowKept(w, RecApply(w, a), w.db.jobs[j].dep)
  {
    assert Fine(ViewOf(w, j), w.booting) && Live(w, j);
    RecKept(w, a);
    OnlyLive(w, a.job);
  }

  lemma SettledIsKept(w: World, a: Action, j: nat)
    requires Own(w) && Enabled(w, a) && At(w, j, Settled) && j in w.db.jobs && At(Apply(w, a), j, Settled)
    ensures RowKept(w, Apply(w, a), w.db.jobs[j].dep)
  {
    assert Fine(ViewOf(w, j), w.booting);
    match a {
      case Http(h) => HttpKeepsRow(w, h, j);
      case Work(x) => WorkKeepsRow(w, x, j);
      case Wait(x) => WaitKeepsRow(w, x, j);
      case Reconcile(r) => RecKeepsRow(w, r, j);
      case Cleaning(c) => assert Main(w.procs[j]); NoRetryNow(w, c, j);
      case Cluster(c) =>
    }
  }

  lemma NoRetryNow(w: World, a: CleanAction, j: nat)
    requires Globals(w) && j in w.procs && Main(w.procs[j])
    ensures !CleanEnabled(w, a)
  {
  }

  /** A job gets to its last transaction by finishing, which writes the row, or by dropping it. */
  lemma BecomesSettled(w: World, a: Action, j: nat)
    requires Core(w) && Enabled(w, a) && !At(w, j, Settled) && At(Apply(w, a), j, Settled)
    ensures a == Work(Finish(j)) || (a == Work(DropRow(j)) && CanDropRow(w, j))
  {
    PhaseTable(w, a, j);
    hide Apply, Core;
  }

  lemma RewardedStep(w: World, a: Action, j: nat)
    requires Own(w) && Enabled(w, a) && Rewarded(w, j)
    ensures Rewarded(Apply(w, a), j)
  {
    var w' := Apply(w, a);
    if At(w', j, Settled) && j in w'.db.jobs {
      CreateTable(w, a, j);
      if !At(w, j, Settled) {
        BecomesSettled(w, a, j);
        FinishedIsUp(w, a, j);
      } else {
        Known(w, j);
        SettledIsKept(w, a, j);
      }
    }
  }

  lemma FinishedIsUp(w: World, a: Action, j: nat)
    requires Enabled(w, a) && (a == Work(Finish(j)) || (a == Work(DropRow(j)) && CanDropRow(w, j)))
    ensures j in w.db.jobs && Rewarded(Apply(w, a), j)
  {
  }

  lemma {:induction false} RewardedAlways(ws: seq<World>, acts: seq<Action>, i: nat, j: nat)
    requires DisciplinedRun(ws, acts) && i < |ws|
    ensures Own(ws[i]) && Rewarded(ws[i], j)
  {
    if i == 0 {
      OwnInit(ws[0]);
    } else {
      RewardedAlways(ws, acts, i - 1, j);
      assert Step(ws[i - 1], acts[i - 1], ws[i]);
      OwnStep(ws[i - 1], acts[i - 1]);
      RewardedStep(ws[i - 1], acts[i - 1], j);
    }
  }

  /** Within the operating rules every step by which a deploy, a rebuild or a configuration succeeds, by
      either worker, leaves its deployment up, if it is still there, with the VMID it had. */
  lemma SuccessIsUp(ws: seq<World>, acts: seq<Action>, i: nat, j: nat)
    requires DisciplinedRun(ws, acts) && i < |acts| && Succeeds(ws[i], ws[i + 1], j)
    requires ws[i].db.jobs[j].kind != Destroy && ws[i].db.jobs[j].dep in ws[i + 1].db.deps
    ensures
      var d := ws[i].db.jobs[j].dep;
      && IsUp(ws[i + 1].db, d) && d in ws[i].db.deps
      && ws[i + 1].db.deps[d] == Deployment(Up, ws[i].db.deps[d].vmid, ws[i].db.deps[d].identity, None)
  {
    RewardedAlways(ws, acts, i, j);
    assert Step(ws[i], acts[i], ws[i + 1]);
    SuccessSteps(ws[i], acts[i], j);
    SuccessRow(ws[i], acts[i], j);
  }

  lemma SuccessRow(w: World, a: Action, j: nat)
    requires Enabled(w, a) && Rewarded(w, j) && j in w.db.jobs && w.db.jobs[j].kind != Destroy
    requires (a == Work(Succeed(j)) && At(w, j, Settled)) || (a == Wait(PlayOk(j)) && Replayed(w, j))
    requires w.db.jobs[j].dep in Apply(w, a).db.deps
    ensures
      var d := w.db.jobs[j].dep;
      && d in w.db.deps
      && Apply(w, a).db.deps[d] == Deployment(Up, w.db.deps[d].vmid, w.db.deps[d].identity, None)
  {
    if a.Wait? {
      PlayOkTables(w, j);
      hide DoPlayOk;
    }
  }
}
