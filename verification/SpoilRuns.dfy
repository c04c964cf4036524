/** A run that ends with a rebuild recorded as succeeded and its deployment marked for clean-up.

    As in `OvertakenRuns` a cancelled deploy is overtaken by a rebuild, but the late reconciliation could
    not tell whether the VM is there.  The rebuild creates the VM anew, boots it, and writes its
    deployment up; then the late commit comes, for the VMID is the same.

    Every step meets its guard, so nothing is orphaned; but the next clean-up retry will destroy what
    was just built. */
module SpoilRuns {
  import opened Rows
  import opened Machine
  import opened Successes
  import opened Runs
  import opened OvertakenRuns

  /** The rebuild is this far, and the late reconciliation has not committed. */
  function Rebuilt(
      status: JobStatus, row: DepStatus, origin: Option<Kind>, procs: map<nat, Phase>, p: RecPhase): World
  {
    World(Tables(map[0 := First(Canceled, true, Accepted), 1 := Job(Rebuild, 0, status, false, Accepted, None)],
                 map[0 := Deployment(row, Some(100), Accepted, origin)], {}), 2, 1, 0,
          procs, map[0 := Rec(true, Waiter, p)], map[], false, BUILT, {}, {}, map[])
  }

  const LOOKED := Found(Some(100), Unknown)

  const REMADE := Rebuilt(Running, Working, None, map[1 := Built], LOOKED)
  const REBOOTED := Rebuilt(Running, Working, None, map[1 := Booted], LOOKED)
  const REPLAYED := Rebuilt(Running, Working, None, map[1 := Played], LOOKED)
  const FINISHED := Rebuilt(Running, Up, None, map[1 := Settled], LOOKED)
  const SPOILED := Rebuilt(Running, CleanupPending, Some(Deploy), map[1 := Settled], Done)
  const SUCCEEDED := Rebuilt(Succeeded, CleanupPending, Some(Deploy), map[], Done)

  lemma Remaking()
    ensures Rightly(Guards, Resent(Unknown), Work(AcceptCreate(1)), REMADE)
  {
    assert DoAccept(Resent(Unknown), 1) == REMADE;
  }

  lemma Rebooting()
    ensures Rightly(Guards, REMADE, Work(Boot(1)), REBOOTED) && Rightly(Guards, REBOOTED, Work(SkipPlay(1)), REPLAYED)
  {
    assert To(REMADE, 1, Booted) == REBOOTED;
    assert To(REBOOTED, 1, Played) == REPLAYED;
  }

  lemma Finishing()
    ensures Rightly(Guards, REPLAYED, Work(Finish(1)), FINISHED)
  {
    assert DoFinish(REPLAYED, 1) == FINISHED;
  }

  lemma Spoiling()
    ensures Rightly(Guards, FINISHED, Reconcile(RecCommit(0, None)), SPOILED)
  {
    assert DoCommit(FINISHED, 0, None) == SPOILED;
  }

  lemma Succeeding()
    ensures Rightly(Guards, SPOILED, Work(Succeed(1)), SUCCEEDED)
  {
    assert DoSucceed(SPOILED, 1) == SUCCEEDED;
  }

  lemma Spoilt()
    ensures IsUp(FINISHED.db, 0) && Succeeds(SPOILED, SUCCEEDED, 1) && !IsUp(SUCCEEDED.db, 0)
    ensures 0 in SUCCEEDED.db.deps && SUCCEEDED.db.deps[0].status == CleanupPending
  {
  }

  /** A job succeeds and leaves its deployment waiting for clean-up. */
  lemma LateCommitCanSpoil()
    ensures Leads(Guards, EMPTY, FINISHED) && IsUp(FINISHED.db, 0)
    ensures Rightly(Guards, FINISHED, Reconcile(RecCommit(0, None)), SPOILED)
    ensures Rightly(Guards, SPOILED, Work(Succeed(1)), SUCCEEDED)
    ensures Succeeds(SPOILED, SUCCEEDED, 1) && 0 in SUCCEEDED.db.deps
    ensures SUCCEEDED.db.deps[0].status == CleanupPending && !IsUp(SUCCEEDED.db, 0)
  {
    Spoilt();
    hide *;
    Overtaking(Unknown);
    Remaking();
    Rebooting();
    Finishing();
    Spoiling();
    Succeeding();
    Go(Guards, EMPTY, Resent(Unknown), Work(AcceptCreate(1)), REMADE);
    Go(Guards, EMPTY, REMADE, Work(Boot(1)), REBOOTED);
    Go(Guards, EMPTY, REBOOTED, Work(SkipPlay(1)), REPLAYED);
    Go(Guards, EMPTY, REPLAYED, Work(Finish(1)), FINISHED);
  }
}
