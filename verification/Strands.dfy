/** No deployment is stranded: marked `working`, it is worked on; left alone, its status is final. */
module Strands {
  import opened Rows
  import opened Machine
  import opened CoreSafety
  import opened Ownership
  import opened NoOrphans
  import opened StrandSteps

  // ------------------------------------------------------------------ crash and restart

  /** A reconciliation that outlives its job has not yet written the status of its deployment. */
  ghost predicate AtRisk(w: World) {
    exists j :: j in w.recs && j in w.db.jobs && w.recs[j].host != Inline && w.recs[j].phase != Done
                && w.db.jobs[j].dep in w.db.deps && w.db.deps[w.db.jobs[j].dep].status == Working
  }

  lemma CrashAttended(w: World)
    requires Core(w) && Attended(w) && !AtRisk(w)
    ensures Attended(DoCrash(w))
  {
    var w' := DoCrash(w);
    forall d | d in w'.db.deps && w'.db.deps[d].status == Working ensures Awaited(w', d) {
      assert Awaited(w, d);
      var j :| Owes(w, j) && w.db.jobs[j].dep == d;
      assert Fine(ViewOf(w, j), w.booting);
      assert Owes(w', j);
    }
  }

  /** Exactly when a crash strands a deployment: job status first, reconciliation second, is the
      order that leaves the window. */
  lemma CrashStrandsIffAtRisk(w: World)
    requires Own(w) && Attended(w)
    ensures NotStranded(DoCrash(w)) <==> !AtRisk(w)
  {
    if AtRisk(w) {
      var j :| j in w.recs && j in w.db.jobs && w.recs[j].host != Inline && w.recs[j].phase != Done
               && w.db.jobs[j].dep in w.db.deps && w.db.deps[w.db.jobs[j].dep].status == Working;
      OnlyLive(w, j);
      assert Fine(ViewOf(w, j), w.booting);
      assert !WorkedOn(DoCrash(w), w.db.jobs[j].dep);
    } else {
      CrashAttended(w);
      AttendedMeansNotStranded(DoCrash(w));
    }
  }

  lemma RecoverOwes(w: World)
    requires Core(w) && w.booting
    ensures StillOwed(w, DoRecover(w))
  {
    forall j | Owes(w, j) ensures Owes(DoRecover(w), j) {
      assert Fine(ViewOf(w, j), w.booting);
    }
  }

  lemma ClusterAttended(w: World, a: ClusterAction)
    requires Core(w) && Attended(w) && ClusterEnabled(w, a) && (a.Crash? ==> !AtRisk(w))
    ensures Attended(ClusterApply(w, a))
  {
    if a.Crash? {
      CrashAttended(w);
    } else {
      if a.Recover? {
        RecoverOwes(w);
      }
      OwedStep(w, ClusterApply(w, a));
    }
  }

  // ------------------------------------------------------------------ theorems on runs

  ghost predicate Careful(w: World, a: Action) {
    Disciplined(w, a) && (a == Cluster(Crash) ==> !AtRisk(w))
  }

  /** The operating rules, and no crash between a terminal status and its reconciliation. */
  ghost predicate CarefulRun(ws: seq<World>, acts: seq<Action>) {
    Run(ws, acts) && forall i | 0 <= i < |acts| :: Careful(ws[i], acts[i])
  }

  lemma AttendedStep(w: World, a: Action)
    requires Own(w) && Attended(w) && Enabled(w, a) && Careful(w, a)
    ensures Attended(Apply(w, a))
  {
    match a {
      case Http(h) => HandlerAttended(w, h);
      case Work(x) => WorkAttended(w, x);
      case Wait(x) => WaitAttended(w, x);
      case Reconcile(r) => RecAttended(w, r);
      case Cleaning(c) => CleanAttended(w, c);
      case Cluster(c) => ClusterAttended(w, c);
    }
  }

  lemma CarefulIsDisciplined(ws: seq<World>, acts: seq<Action>)
    requires CarefulRun(ws, acts)
    ensures DisciplinedRun(ws, acts)
  {
    forall i | 0 <= i < |acts| ensures Disciplined(ws[i], acts[i]) {
      assert Careful(ws[i], acts[i]);
    }
  }

  lemma CarefulStep(ws: seq<World>, acts: seq<Action>, i: nat)
    requires CarefulRun(ws, acts) && i < |acts|
    ensures Own(ws[i]) && Step(ws[i], acts[i], ws[i + 1]) && Careful(ws[i], acts[i])
  {
    CarefulIsDisciplined(ws, acts);
    OwnInit(ws[0]);
    OwnAlways(ws, acts, i);
  }

  lemma AttendedInit(w: World)
    requires Init(w)
    ensures Attended(w)
  {
  }

  lemma {:induction false} AttendedAlways(ws: seq<World>, acts: seq<Action>, i: nat)
    requires CarefulRun(ws, acts) && i < |ws|
    ensures Attended(ws[i])
  {
    if i == 0 {
      AttendedInit(ws[0]);
    } else {
      AttendedAlways(ws, acts, i - 1);
      CarefulStep(ws, acts, i - 1);
      AttendedStep(ws[i - 1], acts[i - 1]);
    }
  }

  /** In every reachable state a deployment marked `working` has an active job or a
      reconciliation in progress. */
  lemma NeverStranded(ws: seq<World>, acts: seq<Action>, i: nat)
    requires CarefulRun(ws, acts) && i < |ws|
    ensures NotStranded(ws[i])
  {
    AttendedAlways(ws, acts, i);
    AttendedMeansNotStranded(ws[i]);
  }

  /** Where a deployment can be left: every job that ended, however it ended, and whatever its
      reconciliation saw, leaves a final status, and a pending clean-up knows where it came from. */
  lemma LeftInFinalStatus(ws: seq<World>, acts: seq<Action>, i: nat, d: nat)
    requires CarefulRun(ws, acts) && i < |ws|
    requires d in ws[i].db.deps && !WorkedOn(ws[i], d)
    ensures
      var row := ws[i].db.deps[d];
      || row.status == Up || row.status == Stopped || row.status == Error
      || (row.status == CleanupPending && (row.origin == Some(Deploy) || row.origin == Some(Destroy)))
  {
    NeverStranded(ws, acts, i);
    CarefulIsDisciplined(ws, acts);
    OwnInit(ws[0]);
    OwnAlways(ws, acts, i);
    assert DepInv(ws[i], d);
  }
}
