/** The safety theorems on whole runs: no hypothesis beyond the steps of the machine. */
module RunSafety {
  import opened Rows
  import opened Machine
  import opened CoreSafety

  lemma {:induction false} CoreAlways(ws: seq<World>, acts: seq<Action>, i: nat)
    requires Run(ws, acts) && i < |ws|
    ensures Core(ws[i])
  {
    if i == 0 {
      CoreInit(ws[0]);
    } else {
      CoreAlways(ws, acts, i - 1);
      assert Step(ws[i - 1], acts[i - 1], ws[i]);
      CoreStep(ws[i - 1], acts[i - 1]);
    }
  }

  /** At most one queued, running or waiting lifecycle job for each deployment. */
  lemma OneActiveJob(ws: seq<World>, acts: seq<Action>, i: nat, j: nat, k: nat)
    requires Run(ws, acts) && i < |ws|
    requires j in ws[i].db.jobs && k in ws[i].db.jobs
    requires ws[i].db.jobs[j].dep == ws[i].db.jobs[k].dep
    requires Active(ws[i].db.jobs[j].status) && Active(ws[i].db.jobs[k].status)
    ensures j == k
  {
    CoreAlways(ws, acts, i);
    var d := ws[i].db.jobs[j].dep;
    assert ActiveOn(ViewOf(ws[i], j), d) && ActiveOn(ViewOf(ws[i], k), d);
  }

  /** The captured post-boot plan of a job is started at most once, over any number of
      deferrals, resumptions, cancellations, crashes and restarts, by either worker. */
  lemma PlanStartedAtMostOnce(ws: seq<World>, acts: seq<Action>, i: nat, j: nat)
    requires Run(ws, acts) && i < |ws|
    ensures Starts(ws[i], j) <= 1
  {
    CoreAlways(ws, acts, i);
    assert Fine(ViewOf(ws[i], j), ws[i].booting);
  }

  /** A job ends as cancelled only when somebody asked for it. */
  lemma CanceledOnlyOnRequest(ws: seq<World>, acts: seq<Action>, i: nat, j: nat)
    requires Run(ws, acts) && i < |ws|
    requires j in ws[i].db.jobs && ws[i].db.jobs[j].status == Canceled
    ensures ws[i].db.jobs[j].cancelRequested
  {
    CoreAlways(ws, acts, i);
    assert Fine(ViewOf(ws[i], j), ws[i].booting);
  }

  /** From any point of a run on, a job with a final status keeps it for as long as its row is
      kept, its id is never given to another job, and a job that left the queue stays out. */
  lemma {:induction false} StatusesMoveOn(ws: seq<World>, acts: seq<Action>, i: nat, n: nat, j: nat)
    requires Run(ws, acts) && i <= n < |ws|
    requires j in ws[i].db.jobs
    ensures j < ws[n].nextJob
    ensures j in ws[n].db.jobs ==> Onward(ws[i].db.jobs[j].status, ws[n].db.jobs[j].status)
  {
    CoreAlways(ws, acts, i);
    Known(ws[i], j);
    if i < n {
      StatusesMoveOn(ws, acts, i, n - 1, j);
      CoreAlways(ws, acts, n - 1);
      assert Step(ws[n - 1], acts[n - 1], ws[n]);
      CoreStep(ws[n - 1], acts[n - 1]);
    }
  }
}
