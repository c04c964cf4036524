/** The exact condition under which a deployment stays up between the last two transactions of its job. */
module Spoils {
  import opened Rows
  import opened Machine
  import opened CoreSafety
  import opened Guards
  import opened GuardSteps
  import opened GuardOrder
  import opened Transitions
  import opened Successes

  // A job that ended well writes its deployment up, and only in its next transaction that it
  // succeeded.  In between, and with no operating rule to prevent it, a reconciliation that outlived
  // an older job may still write.

  /** No other row holds the VMID of `d`. */
  predicate Unshared(db: Tables, d: nat)
    requires d in db.deps
  {
    forall e | e in db.deps && e != d && db.deps[e].vmid.Some? :: db.deps[e].vmid != db.deps[d].vmid
  }

  /** The reconciliation of job `k` may still write row `d`: it has not looked yet, or goes by the VMID
      that the row holds. */
  predicate MayWrite(w: World, k: nat, d: nat)
    requires d in w.db.deps
  {
    && k in w.recs && k in w.db.jobs && w.recs[k].phase != Done
    && var p, vmid := w.recs[k].phase, w.db.deps[d].vmid;
    || (w.db.jobs[k].dep == d && (p.Checking? || ((p.Probing? || p.Found?) && p.vmid == vmid)))
    || (p.Destroying? && p.vmid == vmid && vmid.Some?)
  }

  /** However it goes on from `w`, row `d` stays up for as long as job `j` is not recorded as succeeded. */
  ghost predicate StaysUp(w: World, j: nat, d: nat) {
    forall ws: seq<World>, acts, i: nat | Trace(ws, acts) && ws[0] == w && i < |ws| && SettledTo(ws, i, j) ::
      IsUp(ws[i].db, d)
  }

  ghost predicate SettledTo(ws: seq<World>, i: nat, j: nat)
    requires i < |ws|
  {
    forall k | 0 <= k <= i :: At(ws[k], j, Settled)
  }

  /** Job `j` is about to be recorded as succeeded, on its deployment `d`, which is up. */
  ghost predicate Ending(w: World, j: nat, d: nat) {
    Core(w) && Alone(w) && At(w, j, Settled) && On(w, j, d) && IsUp(w.db, d) && Unshared(w.db, d)
  }

  ghost predicate Undisturbed(w: World, j: nat, d: nat) {
    Ending(w, j, d) && forall k: nat :: !MayWrite(w, k, d)
  }

  // ------------------------------------------------------------------ nobody writes

  /** Row `d`, and the VMIDs of the others, are as before; new rows have none. */
  ghost predicate RowsStay(w: World, w': World, d: nat) {
    && d in w.db.deps && d in w'.db.deps && w'.db.deps[d] == w.db.deps[d]
    && forall e | e in w'.db.deps && w'.db.deps[e].vmid.Some? ::
         e in w.db.deps && w'.db.deps[e].vmid == w.db.deps[e].vmid
  }

  /** No reconciliation comes closer to writing `d`. */
  ghost predicate RecsStay(w: World, w': World, d: nat) {
    forall k | k in w'.recs && k in w'.db.jobs && (w'.db.jobs[k].dep == d || w'.recs[k].phase.Destroying?) ::
      k in w.recs && k in w.db.jobs && w'.db.jobs[k].dep == w.db.jobs[k].dep && w'.recs[k] == w.recs[k]
  }

  lemma StayUndisturbed(w: World, w': World, j: nat, d: nat)
    requires Undisturbed(w, j, d) && RowsStay(w, w', d) && RecsStay(w, w', d)
    requires Core(w') && Alone(w') && At(w', j, Settled) && On(w', j, d)
    ensures Undisturbed(w', j, d)
  {
    forall k: nat ensures !MayWrite(w', k, d) {
      assert !MayWrite(w, k, d);
    }
  }

  lemma HttpStays(w: World, a: HttpAction, j: nat, d: nat)
    requires Undisturbed(w, j, d) && HttpEnabled(w, a)
    ensures RowsStay(w, HttpApply(w, a), d) && RecsStay(w, HttpApply(w, a), d) && Alone(HttpApply(w, a))
  {
    assert Fine(ViewOf(w, j), w.booting);
    HttpKeepsRow(w, a, j);
    assert HasActive(w.db, d);
    HttpRow(w, a, d);
    assert ViewOf(w, w.nextJob) == View(None, None, None, 0);
    NobodyNew(w, HttpApply(w, a));
    HttpVmids(w, a);
  }

  lemma HttpVmids(w: World, a: HttpAction)
    requires HttpEnabled(w, a)
    ensures
      var w' := HttpApply(w, a);
      && w'.recs == w.recs
      && (forall e | e in w'.db.deps && w'.db.deps[e].vmid.Some? ::
            e in w.db.deps && w'.db.deps[e].vmid == w.db.deps[e].vmid)
      && (forall k | k in w'.db.jobs && k != w.nextJob :: k in w.db.jobs && w'.db.jobs[k].dep == w.db.jobs[k].dep)
  {
  }

  /** While the job is settled its thread is the only one of the job worker. */
  lemma WorkStays(w: World, a: WorkAction, j: nat, d: nat)
    requires Ending(w, j, d) && WorkEnabled(w, a)
    ensures a == Succeed(j)
  {
    assert Fine(ViewOf(w, a.job), w.booting);
    assert Main(w.procs[j]);
  }

  lemma WaitStays(w: World, a: WaitAction, j: nat, d: nat)
    requires Undisturbed(w, j, d) && WaitEnabled(w, a)
    ensures RowsStay(w, WaitApply(w, a), d) && RecsStay(w, WaitApply(w, a), d)
  {
    assert Fine(ViewOf(w, j), w.booting);
    if On(w, a.job, d) && Active(w.db.jobs[a.job].status) {
      OnlyOwnJob(w, j, a.job);
    }
    WaitRow(w, a, d);
    WaitVmids(w, a);
  }

  lemma PlayOkVmids(w: World, j: nat)
    requires CanPlayOk(w, j)
    ensures DoPlayOk(w, j).recs == w.recs
    ensures SameVmids(w, DoPlayOk(w, j)) && SameDeps(w, DoPlayOk(w, j))
  {
    PlayOkTables(w, j);
    PlayOkRecs(w, j);
    hide DoPlayOk;
  }

  lemma PlayOkRecs(w: World, j: nat)
    requires CanPlayOk(w, j)
    ensures DoPlayOk(w, j).recs == w.recs
  {
  }

  predicate SameVmids(w: World, w': World) {
    forall e | e in w'.db.deps :: e in w.db.deps && w'.db.deps[e].vmid == w.db.deps[e].vmid
  }

  predicate SameDeps(w: World, w': World) {
    forall k | k in w'.db.jobs :: k in w.db.jobs && w'.db.jobs[k].dep == w.db.jobs[k].dep
  }

  /** A reconciliation that the waiting worker starts has not looked at anything, and is for the job that
      was still in progress. */
  lemma WaitVmids(w: World, a: WaitAction)
    requires WaitEnabled(w, a)
    ensures
      var w' := WaitApply(w, a);
      && SameVmids(w, w') && SameDeps(w, w')
      && forall k | k in w'.recs ::
           (k in w.recs && w'.recs[k] == w.recs[k])
           || (k == a.job && w'.recs[k].phase == Checking && k in w.db.jobs && Active(w.db.jobs[k].status))
  {
    if a.PlayOk? {
      PlayOkVmids(w, a.job);
      hide DoPlayOk;
    }
  }

  // ------------------------------------------------------------------ reconciliations of others

  /** What such a step has to establish besides. */
  ghost predicate RecQuiet(w: World, w': World, j: nat, d: nat, k: nat) {
    && RowsStay(w, w', d) && SameDeps(w, w') && On(w', j, d) && w'.procs == w.procs
    && (forall i | i != k && i in w'.recs :: i in w.recs && w'.recs[i] == w.recs[i])
    && !MayWrite(w', k, d)
  }

  lemma CheckQuiet(w: World, j: nat, d: nat, k: nat, settled: bool)
    requires Undisturbed(w, j, d) && CanCheck(w, k, settled)
    ensures RecQuiet(w, DoCheck(w, k, settled), j, d, k)
  {
    assert !MayWrite(w, k, d);
    match Check(w.db, k, settled) {
      case Halt(db) => HaltElsewhere(w, k, settled, d); ConcludeQuiet(w, db, j, d, k);
      case Proceed(v) => ProceedsElsewhere(w.db, k, settled);
    }
  }

  /** The tables with the reconciliation done. */
  lemma ConcludeQuiet(w: World, db: Tables, j: nat, d: nat, k: nat)
    requires Undisturbed(w, j, d) && k in w.recs && RowsStay(w, w.(db := db), d) && SameDeps(w, w.(db := db))
    requires On(w.(db := db), j, d)
    ensures RecQuiet(w, Conclude(w, db, k, Done), j, d, k)
  {
  }

  lemma HaltElsewhere(w: World, k: nat, settled: bool, d: nat)
    requires d in w.db.deps && (k in w.db.jobs ==> w.db.jobs[k].dep != d) && Check(w.db, k, settled).Halt?
    ensures
      var w' := w.(db := Check(w.db, k, settled).db);
      RowsStay(w, w', d) && SameDeps(w, w') && w'.db.jobs == w.db.jobs
  {
  }

  lemma ProceedsElsewhere(db: Tables, k: nat, settled: bool)
    requires Check(db, k, settled).Proceed?
    ensures k in db.jobs && db.jobs[k].dep in db.deps && Check(db, k, settled).vmid == db.deps[db.jobs[k].dep].vmid
  {
  }

  /** The destroy finds another row, or none. */
  lemma TearQuiet(w: World, j: nat, d: nat, k: nat, t: Tear)
    requires Undisturbed(w, j, d) && CanTear(w, k, t)
    ensures RecQuiet(w, DoTear(w, k, t), j, d, k)
  {
    assert !MayWrite(w, k, d);
    TornKeepsRows(w.db, t);
    assert forall e :: e in w.db.deps <==> e in w.db.deps.Keys;
    assert forall i :: i in w.db.jobs <==> i in w.db.jobs.Keys;
    TornElsewhere(w.db, t, d);
  }

  lemma TornElsewhere(db: Tables, t: Tear, d: nat)
    requires d in db.deps && t.hit != d
    ensures
      var db' := TornDown(db, t.hit, t.newest, t.Outcome(), t.Task());
      d in db'.deps && db'.deps[d] == db.deps[d]
  {
  }

  lemma ProbeQuiet(w: World, j: nat, d: nat, k: nat, p: Presence)
    requires Undisturbed(w, j, d) && CanProbe(w, k, p)
    ensures RecQuiet(w, DoProbe(w, k, p), j, d, k)
  {
    assert !MayWrite(w, k, d);
  }

  lemma CommitQuiet(w: World, j: nat, d: nat, k: nat, runtime: Option<DepStatus>)
    requires Undisturbed(w, j, d) && CanCommit(w, k, runtime)
    ensures RecQuiet(w, DoCommit(w, k, runtime), j, d, k)
  {
    assert !MayWrite(w, k, d);
    CommitElsewhere(w, k, runtime, d);
    ConcludeQuiet(w, DoCommit(w, k, runtime).db, j, d, k);
  }

  lemma CommitElsewhere(w: World, k: nat, runtime: Option<DepStatus>, d: nat)
    requires CanCommit(w, k, runtime) && d in w.db.deps
    requires w.db.jobs[k].dep == d ==> w.recs[k].phase.vmid != w.db.deps[d].vmid
    ensures
      var w' := w.(db := DoCommit(w, k, runtime).db);
      RowsStay(w, w', d) && SameDeps(w, w') && w'.db.jobs == w.db.jobs
  {
  }

  lemma RecFinishQuiet(w: World, j: nat, d: nat, k: nat)
    requires Undisturbed(w, j, d) && CanRecFinish(w, k)
    ensures RecQuiet(w, DoRecFinish(w, k), j, d, k)
  {
  }

  lemma RecStaysQuiet(w: World, a: RecAction, j: nat, d: nat)
    requires Undisturbed(w, j, d) && RecEnabled(w, a)
    ensures RecQuiet(w, RecApply(w, a), j, d, a.job)
  {
    var k := a.job;
    match a {
      case RecCheck(_, settled) => CheckQuiet(w, j, d, k, settled);
      case RecDestroy(_, t) => TearQuiet(w, j, d, k, t);
      case RecProbe(_, p) => ProbeQuiet(w, j, d, k, p);
      case RecCommit(_, runtime) => CommitQuiet(w, j, d, k, runtime);
      case RecFinish(_) => RecFinishQuiet(w, j, d, k);
    }
  }

  lemma QuietUndisturbed(w: World, w': World, j: nat, d: nat, k: nat)
    requires Undisturbed(w, j, d) && RecQuiet(w, w', j, d, k) && Core(w') && Alone(w')
    ensures Undisturbed(w', j, d)
  {
    forall i: nat ensures !MayWrite(w', i, d) {
      assert !MayWrite(w, i, d);
    }
  }

  lemma RecUndisturbed(w: World, a: RecAction, j: nat, d: nat)
    requires Undisturbed(w, j, d) && RecEnabled(w, a)
    ensures Undisturbed(RecApply(w, a), j, d)
  {
    RecStep(w, a);
    RecAlone(w, a);
    RecStaysQuiet(w, a, j, d);
    QuietUndisturbed(w, RecApply(w, a), j, d, a.job);
  }

  lemma HttpUndisturbed(w: World, a: HttpAction, j: nat, d: nat)
    requires Undisturbed(w, j, d) && HttpEnabled(w, a)
    ensures Undisturbed(HttpApply(w, a), j, d)
  {
    HttpStep(w, a);
    HttpStays(w, a, j, d);
    HttpPhase(w, a);
    assert Fine(ViewOf(w, j), w.booting);
    JobIsKept(w, Http(a), j);
    StayUndisturbed(w, HttpApply(w, a), j, d);
  }

  /** A running job stays in its table with its deployment. */
  lemma JobIsKept(w: World, a: Action, j: nat)
    requires Core(w) && Enabled(w, a) && j in w.db.jobs && w.db.jobs[j].status == Running
    ensures j in Apply(w, a).db.jobs && Apply(w, a).db.jobs[j].dep == w.db.jobs[j].dep
  {
    StatusTable(w, a, j);
    CreateTable(w, a, j);
    hide Apply;
  }

  lemma WaitUndisturbed(w: World, a: WaitAction, j: nat, d: nat)
    requires Undisturbed(w, j, d) && WaitEnabled(w, a) && At(WaitApply(w, a), j, Settled)
    ensures Undisturbed(WaitApply(w, a), j, d)
  {
    WaitStep(w, a);
    WaitAlone(w, a);
    WaitStays(w, a, j, d);
    assert Fine(ViewOf(w, j), w.booting);
    JobIsKept(w, Wait(a), j);
    hide WaitApply;
    StayUndisturbed(w, WaitApply(w, a), j, d);
  }

  lemma NothingIsRetried(w: World, a: CleanAction, j: nat, d: nat)
    requires Ending(w, j, d)
    ensures !CleanEnabled(w, a)
  {
    assert Main(w.procs[j]);
  }

  lemma ClusterUndisturbed(w: World, a: ClusterAction, j: nat, d: nat)
    requires Undisturbed(w, j, d) && ClusterEnabled(w, a) && At(ClusterApply(w, a), j, Settled)
    ensures Undisturbed(ClusterApply(w, a), j, d)
  {
    ClusterStep(w, a);
    EventsAlone(w, a);
    assert Fine(ViewOf(w, j), w.booting) && Main(w.procs[j]);
    assert !a.Recover?;
    StayUndisturbed(w, ClusterApply(w, a), j, d);
  }

  lemma UndisturbedStep(w: World, a: Action, j: nat, d: nat)
    requires Undisturbed(w, j, d) && Enabled(w, a) && At(Apply(w, a), j, Settled)
    ensures Undisturbed(Apply(w, a), j, d)
  {
    match a {
      case Http(h) => HttpUndisturbed(w, h, j, d);
      case Work(x) => WorkStays(w, x, j, d); PhaseTable(w, a, j);
      case Wait(x) => WaitUndisturbed(w, x, j, d);
      case Reconcile(r) => RecUndisturbed(w, r, j, d);
      case Cleaning(c) => NothingIsRetried(w, c, j, d);
      case Cluster(c) => ClusterUndisturbed(w, c, j, d);
    }
  }

  lemma {:induction false} UndisturbedAlways(ws: seq<World>, acts: seq<Action>, i: nat, j: nat, d: nat)
    requires Trace(ws, acts) && i < |ws| && Undisturbed(ws[0], j, d) && SettledTo(ws, i, j)
    ensures Undisturbed(ws[i], j, d)
  {
    if i > 0 {
      UndisturbedAlways(ws, acts, i - 1, j, d);
      assert Step(ws[i - 1], acts[i - 1], ws[i]);
      UndisturbedStep(ws[i - 1], acts[i - 1], j, d);
    }
  }

  // ------------------------------------------------------------------ somebody writes

  lemma DownAtOnce(w: World, j: nat, d: nat)
    requires At(w, j, Settled) && !IsUp(w.db, d)
    ensures !StaysUp(w, j, d)
  {
    assert Trace([w], []) && [w][0] == w && SettledTo([w], 0, j);
  }

  lemma DownLater(w: World, a: Action, w': World, j: nat, d: nat)
    requires Step(w, a, w') && At(w, j, Settled) && !StaysUp(w', j, d)
    ensures !StaysUp(w, j, d)
  {
    hide Step, At, IsUp;
    var ws: seq<World>, acts, i: nat :| Trace(ws, acts) && ws[0] == w' && i < |ws| && SettledTo(ws, i, j)
      && !IsUp(ws[i].db, d);
    var more := [w] + ws;
    Prepend(w, a, ws, acts);
    assert SettledTo(more, i + 1, j) by {
      forall k | 0 <= k <= i + 1 ensures At(more[k], j, Settled) {
        assert k > 0 ==> At(ws[k - 1], j, Settled);
      }
    }
    assert more[0] == w && more[i + 1] == ws[i];
  }

  lemma FoundSpoils(w: World, j: nat, d: nat, k: nat)
    requires At(w, j, Settled) && RecAt(w, k) && w.recs[k].phase.Found? && On(w, k, d) && d in w.db.deps
    requires w.recs[k].phase.vmid == w.db.deps[d].vmid
    ensures !StaysUp(w, j, d)
  {
    var w' := DoCommit(w, k, None);
    CommitSpoils(w, d, k);
    DownAtOnce(w', j, d);
    DownLater(w, Reconcile(RecCommit(k, None)), w', j, d);
  }

  /** Without a power state to write no commit leaves the row up. */
  lemma CommitSpoils(w: World, d: nat, k: nat)
    requires RecAt(w, k) && w.recs[k].phase.Found? && On(w, k, d) && d in w.db.deps
    requires w.recs[k].phase.vmid == w.db.deps[d].vmid
    ensures !IsUp(DoCommit(w, k, None).db, d) && DoCommit(w, k, None).procs == w.procs
  {
  }

  lemma ProbingSpoils(w: World, j: nat, d: nat, k: nat)
    requires At(w, j, Settled) && RecAt(w, k) && w.recs[k].phase.Probing? && On(w, k, d) && d in w.db.deps
    requires w.recs[k].phase.vmid == w.db.deps[d].vmid
    ensures !StaysUp(w, j, d)
  {
    var p := if w.recs[k].phase.vmid.Some? then Unknown else Absent;
    FoundSpoils(DoProbe(w, k, p), j, d, k);
    DownLater(w, Reconcile(RecProbe(k, p)), DoProbe(w, k, p), j, d);
  }

  lemma DestroyingSpoils(w: World, j: nat, d: nat, k: nat)
    requires At(w, j, Settled) && RecAt(w, k) && w.recs[k].phase.Destroying? && d in w.db.deps
    requires w.recs[k].phase.vmid == w.db.deps[d].vmid && w.db.deps[d].vmid.Some?
    ensures !StaysUp(w, j, d)
  {
    var newest := SomeNewest(w.db, d);
    var t := Tear(d, newest, End(Unconfirmed));
    assert Held(w, w.db.deps[d].vmid);
    var w' := DoTear(w, k, t);
    assert w'.db.deps[d].status == Error;
    DownAtOnce(w', j, d);
    DownLater(w, Reconcile(RecDestroy(k, t)), w', j, d);
  }

  lemma CheckingSpoils(w: World, j: nat, d: nat, k: nat)
    requires At(w, j, Settled) && RecAt(w, k) && w.recs[k].phase == Checking && On(w, k, d) && d in w.db.deps
    ensures !StaysUp(w, j, d)
  {
    var w' := DoCheck(w, k, false);
    match Check(w.db, k, false) {
      case Halt(db) =>
        assert db.deps[d].status == Error;
        DownAtOnce(w', j, d);
      case Proceed(v) =>
        if w'.recs[k].phase.Destroying? {
          DestroyingSpoils(w', j, d, k);
        } else {
          ProbingSpoils(w', j, d, k);
        }
    }
    DownLater(w, Reconcile(RecCheck(k, false)), w', j, d);
  }

  lemma WriterSpoils(w: World, j: nat, d: nat, k: nat)
    requires Ending(w, j, d) && MayWrite(w, k, d)
    ensures !StaysUp(w, j, d)
  {
    match w.recs[k].phase {
      case Checking => CheckingSpoils(w, j, d, k);
      case Destroying(_, _) => DestroyingSpoils(w, j, d, k);
      case Probing(_) => ProbingSpoils(w, j, d, k);
      case Found(_, _) => FoundSpoils(w, j, d, k);
    }
  }

  /** A deployment stays up until its job is recorded as succeeded, however it goes on, exactly when no
      reconciliation may still write it. */
  lemma StaysUpIff(w: World, j: nat, d: nat)
    requires Ending(w, j, d)
    ensures StaysUp(w, j, d) <==> forall k: nat :: !MayWrite(w, k, d)
  {
    if forall k: nat :: !MayWrite(w, k, d) {
      forall ws: seq<World>, acts, i: nat | Trace(ws, acts) && ws[0] == w && i < |ws| && SettledTo(ws, i, j)
        ensures IsUp(ws[i].db, d)
      {
        UndisturbedAlways(ws, acts, i, j, d);
      }
    } else {
      var k: nat :| MayWrite(w, k, d);
      WriterSpoils(w, j, d, k);
    }
  }
}
