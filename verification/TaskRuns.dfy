/** A run that drops a row while a recorded task is still running.

    A deploy is cancelled when its VM is built, and nobody can tell whether the VM is there.  The
    clean-up retry submits a task and records it; the process crashes while it waits for it.  The
    next retry finds the row pending and starts over: it never looks at the recorded task.

    Most lemmas check a single step. */
module TaskRuns {
  import opened Rows
  import opened Machine
  import opened Tasks
  import opened Release
  import opened Runs

  /** The deploy was cancelled after its VM was built; its row has this status. */
  function Ended(status: JobStatus, row: DepStatus, procs: map<nat, Phase>, recs: map<nat, Rec>): World {
    var origin := if row == Working then None else Some(Deploy);
    Solo(First(status, true, Accepted), Deployment(row, Some(100), Accepted, origin), procs, recs, BUILT, {})
  }

  const REVOKED := Ended(Running, Working, map[0 := Built], map[])

  function Reconciled(p: RecPhase): World {
    Ended(Running, Working, map[], map[0 := Rec(true, Inline, p)])
  }

  const CHECKING := Reconciled(Checking)
  const DESTROYING := Reconciled(Destroying(Some(100), None))
  const PROBING := Reconciled(Probing(Some(100)))
  const FOUND := Reconciled(Found(Some(100), Unknown))
  const NOTED := Ended(Running, CleanupPending, map[], map[0 := Rec(true, Inline, Done)])
  const PENDING := Ended(Canceled, CleanupPending, map[], map[])

  /** The clean-up retry has submitted task 0. */
  function Tasked(cleaners: map<nat, CleanPhase>, booting: bool, vms: map<nat, Owner>): World {
    World(Tables(map[0 := First(Canceled, true, Accepted).(task := Some(0))],
                 map[0 := Deployment(CleanupPending, Some(100), Accepted, Some(Deploy))], {}),
          1, 1, 1, map[], map[], cleaners, booting, vms, {}, {0}, map[])
  }

  const RETRIED := PENDING.(cleaners := map[0 := Tearing(Some(100), Some(Deploy), None)])
  const TASKED := Tasked(map[0 := Tearing(Some(100), Some(Deploy), Some(0))], false, BUILT)
  const CRASHED := Tasked(map[], true, BUILT)
  const RESTARTED := Tasked(map[], false, BUILT)
  const AGAIN := Tasked(map[0 := Tearing(Some(100), Some(Deploy), None)], false, BUILT)
  const SKIPPED := Tasked(map[0 := Looking(Some(100), Some(Deploy))], false, BUILT)
  const VANISHED := Tasked(map[0 := Looking(Some(100), Some(Deploy))], false, map[])
  const UNSEEN := Tasked(map[0 := Seen(Some(100), Some(Deploy), Absent)], false, map[])
  const RELEASED := DoCleanCommit(UNSEEN, 0)

  const UNTOUCHED := Tear(0, Some(0), End(Untouched))
  const SUBMIT := Tear(0, Some(0), Issue(0))

  lemma Revoking()
    ensures Rightly(All, CREATED, Http(CancelRequest(0)), REVOKED)
  {
    assert DoCancel(CREATED, 0) == REVOKED;
  }

  lemma Raising()
    ensures Rightly(All, REVOKED, Work(Raise(0, true)), CHECKING)
  {
    assert DoRaise(REVOKED, 0, true) == CHECKING;
  }

  lemma Examining()
    ensures Rightly(All, CHECKING, Reconcile(RecCheck(0, true)), DESTROYING)
  {
    assert DoCheck(CHECKING, 0, true) == DESTROYING;
  }

  lemma Sparing()
    ensures Rightly(All, DESTROYING, Reconcile(RecDestroy(0, UNTOUCHED)), PROBING)
  {
    assert DoTear(DESTROYING, 0, UNTOUCHED) == PROBING;
  }

  lemma Wondering()
    ensures Rightly(All, PROBING, Reconcile(RecProbe(0, Unknown)), FOUND)
  {
    assert DoProbe(PROBING, 0, Unknown) == FOUND;
  }

  lemma Noting()
    ensures DoCommit(FOUND, 0, None) == NOTED
  {
    var w := FOUND;
    assert CommitCanceled(w.db, 0, Some(100), Unknown, None) == NOTED.db;
  }

  lemma Committing()
    ensures Rightly(All, FOUND, Reconcile(RecCommit(0, None)), NOTED)
  {
    Noting();
    hide NOTED;
  }

  /** The deploy is cancelled when its VM is built, and nobody can tell whether the VM is there. */
  lemma Canceling()
    ensures Leads(All, EMPTY, NOTED)
  {
    hide *;
    Deployed();
    Revoking();
    Raising();
    Examining();
    Sparing();
    Wondering();
    Committing();
    Go(All, EMPTY, CREATED, Http(CancelRequest(0)), REVOKED);
    Go(All, EMPTY, REVOKED, Work(Raise(0, true)), CHECKING);
    Go(All, EMPTY, CHECKING, Reconcile(RecCheck(0, true)), DESTROYING);
    Go(All, EMPTY, DESTROYING, Reconcile(RecDestroy(0, UNTOUCHED)), PROBING);
    Go(All, EMPTY, PROBING, Reconcile(RecProbe(0, Unknown)), FOUND);
    Go(All, EMPTY, FOUND, Reconcile(RecCommit(0, None)), NOTED);
  }

  lemma Retrying()
    ensures Leads(All, NOTED, RETRIED)
  {
    assert DoRecFinish(NOTED, 0) == PENDING;
    assert DoCleanBegin(PENDING, 0) == RETRIED;
    Two(All, NOTED, Reconcile(RecFinish(0)), PENDING, Cleaning(CleanBegin(0)), RETRIED);
  }

  lemma Tasking()
    ensures Rightly(All, RETRIED, Cleaning(CleanDestroy(0, SUBMIT)), TASKED)
  {
    assert DoCleanTear(RETRIED, 0, SUBMIT) == TASKED;
  }

  lemma Crashing()
    ensures Rightly(All, TASKED, Cluster(Crash), CRASHED)
  {
    assert DoCrash(TASKED) == CRASHED;
  }

  lemma Restarting()
    ensures Leads(All, CRASHED, RESTARTED) && Step(RESTARTED, Cleaning(CleanBegin(0)), AGAIN)
  {
    assert DoRecover(CRASHED) == RESTARTED;
    assert DoCleanBegin(RESTARTED, 0) == AGAIN;
    One(All, CRASHED, Cluster(Recover), RESTARTED);
  }

  lemma Skipping()
    ensures Rightly(All, AGAIN, Cleaning(CleanDestroy(0, UNTOUCHED)), SKIPPED)
  {
    assert DoCleanTear(AGAIN, 0, UNTOUCHED) == SKIPPED;
  }

  lemma Vanishing()
    ensures Rightly(All, SKIPPED, Cluster(Vanish(100)), VANISHED)
  {
    assert BUILT - {100} == map[];
  }

  lemma Missing()
    ensures Rightly(All, VANISHED, Cleaning(CleanProbe(0, Absent)), UNSEEN)
  {
    assert DoCleanProbe(VANISHED, 0, Absent) == UNSEEN;
  }

  lemma Releasing()
    ensures Rightly(All, UNSEEN, Cleaning(CleanCommit(0)), RELEASED)
    ensures Releases(UNSEEN, RELEASED, 0) && !AllSettled(UNSEEN, 0)
  {
    assert !SettledTask(UNSEEN, 0);
  }

  /** A cancelled deploy is pending clean-up; the retry submits and records a task, and the process
      crashes.  The next retry does not look at that task.  Every other step follows every rule, and
      the row is dropped while the task is running. */
  lemma RetryCanForgetTask()
    ensures Leads(All, EMPTY, RESTARTED) && Step(RESTARTED, Cleaning(CleanBegin(0)), AGAIN)
    ensures Leads(All, AGAIN, UNSEEN) && Rightly(All, UNSEEN, Cleaning(CleanCommit(0)), RELEASED)
    ensures Releases(UNSEEN, RELEASED, 0) && !AllSettled(UNSEEN, 0)
  {
    hide *;
    Canceling();
    Retrying();
    Tasking();
    Crashing();
    Restarting();
    Skipping();
    Vanishing();
    Missing();
    Releasing();
    Then(All, EMPTY, NOTED, RETRIED);
    Go(All, EMPTY, RETRIED, Cleaning(CleanDestroy(0, SUBMIT)), TASKED);
    Go(All, EMPTY, TASKED, Cluster(Crash), CRASHED);
    Then(All, EMPTY, CRASHED, RESTARTED);
    Three(All, AGAIN, Cleaning(CleanDestroy(0, UNTOUCHED)), SKIPPED, Cluster(Vanish(100)), VANISHED,
          Cleaning(CleanProbe(0, Absent)), UNSEEN);
  }
}
