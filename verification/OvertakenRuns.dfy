/** Runs in which a reconciliation that outlives its job is overtaken by a rebuild.

    A deploy waits for its reboot and is cancelled.  Its VM disappears; the waiting worker looks for it,
    and a rebuild is admitted before it commits what it saw.  The commit comes too late in three ways:
    the VM is built anew, or is about to be, or its create request is not answered. */
module OvertakenRuns {
  import opened Rows
  import opened Machine
  import opened Ownership
  import opened Runs

  // ------------------------------------------------------------------ a reconciliation that outlives its job

  const BOOTED := Solo(First(Running, false, Accepted), Bearing(Accepted), map[0 := Booted], map[], BUILT, {})
  const DEFERRED := Solo(First(Waiting, false, Accepted), Bearing(Accepted), map[], map[], BUILT, {})
  const UNWANTED := Solo(First(Waiting, true, Accepted), Bearing(Accepted), map[], map[], BUILT, {})

  /** The deploy job was cancelled while it waited, and its reconciliation got this far. */
  function Late(p: RecPhase, vms: map<nat, Owner>): World {
    Solo(First(Canceled, true, Accepted), Bearing(Accepted), map[], map[0 := Rec(true, Waiter, p)], vms, {})
  }

  const UNTOUCHED := Tear(0, Some(0), End(Untouched))

  lemma Deferring()
    ensures Leads(All, CREATED, UNWANTED)
  {
    assert To(CREATED, 0, Booted) == BOOTED;
    assert DoDefer(BOOTED, 0) == DEFERRED;
    assert DoCancel(DEFERRED, 0) == UNWANTED;
    Three(All, CREATED, Work(Boot(0)), BOOTED, Work(Defer(0)), DEFERRED, Http(CancelRequest(0)), UNWANTED);
  }

  lemma Aborting()
    ensures Leads(All, UNWANTED, Late(Destroying(Some(100), None), BUILT))
  {
    var w1, w2 := Late(Checking, BUILT), Late(Destroying(Some(100), None), BUILT);
    assert DoWaitError(UNWANTED, 0, true) == w1;
    assert DoCheck(w1, 0, true) == w2;
    Two(All, UNWANTED, Wait(WaitAbort(0, true)), w1, Reconcile(RecCheck(0, true)), w2);
  }

  lemma Sparing()
    ensures Leads(All, Late(Destroying(Some(100), None), BUILT), Late(Probing(Some(100)), BUILT))
  {
    var w1, w2 := Late(Destroying(Some(100), None), BUILT), Late(Probing(Some(100)), BUILT);
    assert w1.db.deps[0].vmid == Some(100);
    assert DoTear(w1, 0, UNTOUCHED) == w2;
    One(All, w1, Reconcile(RecDestroy(0, UNTOUCHED)), w2);
  }

  lemma Vanishing()
    ensures Leads(All, Late(Destroying(Some(100), None), BUILT), Late(Probing(Some(100)), map[]))
  {
    var w1, w2 := Late(Probing(Some(100)), BUILT), Late(Probing(Some(100)), map[]);
    Sparing();
    assert BUILT - {100} == map[];
    Go(All, Late(Destroying(Some(100), None), BUILT), w1, Cluster(Vanish(100)), w2);
  }

  /** A deploy waits for its reboot and is cancelled; the waiting worker is about to look whether the VM,
      which is gone meanwhile, is there. */
  lemma Overdue()
    ensures Leads(All, EMPTY, Late(Probing(Some(100)), map[]))
  {
    hide *;
    Deployed();
    Deferring();
    Aborting();
    Vanishing();
    Then(All, EMPTY, CREATED, UNWANTED);
    Then(All, EMPTY, UNWANTED, Late(Destroying(Some(100), None), BUILT));
    Then(All, EMPTY, Late(Destroying(Some(100), None), BUILT), Late(Probing(Some(100)), map[]));
  }

  /** The late reconciliation has looked; job 1 rebuilds. */
  function Again(seen: Presence, status: JobStatus, create: Identity, procs: map<nat, Phase>,
                 vms: map<nat, Owner>, pending: set<Request>): World {
    World(Tables(map[0 := First(Canceled, true, Accepted), 1 := Job(Rebuild, 0, status, false, create, None)],
                 map[0 := Bearing(if create == Unsubmitted then Accepted else create)], {}), 2, 1, 0,
          procs, map[0 := Rec(true, Waiter, Found(Some(100), seen))], map[], false, vms, pending, {}, map[])
  }

  const RECREATE := Request(1, 0, 100)

  /** The rebuild is about to mark its create, has submitted it, and has built the VM anew. */
  function Rechosen(seen: Presence): World {
    Again(seen, Running, Unsubmitted, map[1 := Chosen(100)], map[], {})
  }

  function Remarked(seen: Presence): World {
    Again(seen, Running, Submitting, map[1 := Marked(100)], map[], {})
  }

  function Resent(seen: Presence): World {
    Again(seen, Running, Submitting, map[1 := Sent(100)], map[], {RECREATE})
  }

  const REBUILT := Again(Absent, Running, Accepted, map[1 := Built], BUILT, {})

  lemma LookingOut(seen: Presence)
    requires seen == Absent || seen == Unknown
    ensures Leads(All, Late(Probing(Some(100)), map[]), Late(Found(Some(100), seen), map[]))
  {
    var w1, w2 := Late(Probing(Some(100)), map[]), Late(Found(Some(100), seen), map[]);
    assert DoProbe(w1, 0, seen) == w2;
    One(All, w1, Reconcile(RecProbe(0, seen)), w2);
  }

  lemma Admitting(seen: Presence)
    ensures Leads(Guards, Late(Found(Some(100), seen), map[]), Again(seen, Queued, Unsubmitted, map[], map[], {}))
  {
    var w1, w2 := Late(Found(Some(100), seen), map[]), Again(seen, Queued, Unsubmitted, map[], map[], {});
    assert DoAdmit(w1, 0, Rebuild) == w2;
    One(Guards, w1, Http(Admit(0, Rebuild)), w2);
  }

  lemma Reclaiming(seen: Presence)
    ensures Leads(Guards, Again(seen, Queued, Unsubmitted, map[], map[], {}),
                  Again(seen, Running, Unsubmitted, map[1 := Begun], map[], {}))
  {
    var w1 := Again(seen, Queued, Unsubmitted, map[], map[], {});
    var w2 := Again(seen, Running, Unsubmitted, map[1 := Begun], map[], {});
    assert DoClaim(w1, 1, false) == w2;
    One(Guards, w1, Work(Claim(1, false)), w2);
  }

  lemma Reproving(seen: Presence)
    ensures Leads(Guards, Again(seen, Running, Unsubmitted, map[1 := Begun], map[], {}),
                  Again(seen, Running, Unsubmitted, map[1 := Gone], map[], {}))
  {
    var w1 := Again(seen, Running, Unsubmitted, map[1 := Begun], map[], {});
    var w2 := Again(seen, Running, Unsubmitted, map[1 := Gone], map[], {});
    assert To(w1, 1, Gone) == w2;
    One(Guards, w1, Work(ProveGone(1)), w2);
  }

  lemma Rechoosing(seen: Presence)
    ensures Leads(Guards, Again(seen, Running, Unsubmitted, map[1 := Gone], map[], {}), Rechosen(seen))
  {
    var w1 := Again(seen, Running, Unsubmitted, map[1 := Gone], map[], {});
    assert DoSelect(w1, 1, 100) == Rechosen(seen);
    One(Guards, w1, Work(SelectVmid(1, 100)), Rechosen(seen));
  }

  lemma Remarking(seen: Presence)
    ensures Rightly(Guards, Rechosen(seen), Work(MarkSubmitting(1)), Remarked(seen))
  {
    assert DoMark(Rechosen(seen), 1) == Remarked(seen);
  }

  lemma Resending(seen: Presence)
    ensures Rightly(Guards, Remarked(seen), Work(Send(1)), Resent(seen))
  {
    assert DoSend(Remarked(seen), 1) == Resent(seen);
  }

  lemma Rebuilding()
    ensures Leads(Guards, Resent(Absent), REBUILT)
  {
    assert DoAccept(Resent(Absent), 1) == REBUILT;
    One(Guards, Resent(Absent), Work(AcceptCreate(1)), REBUILT);
  }

  lemma Overtaking(seen: Presence)
    requires seen == Absent || seen == Unknown
    ensures Leads(Guards, EMPTY, Rechosen(seen)) && Leads(Guards, EMPTY, Resent(seen))
  {
    hide *;
    var w1, w2 := Late(Found(Some(100), seen), map[]), Again(seen, Queued, Unsubmitted, map[], map[], {});
    var w3 := Again(seen, Running, Unsubmitted, map[1 := Begun], map[], {});
    var w4 := Again(seen, Running, Unsubmitted, map[1 := Gone], map[], {});
    Overdue();
    LookingOut(seen);
    Admitting(seen);
    Reclaiming(seen);
    Reproving(seen);
    Rechoosing(seen);
    Remarking(seen);
    Resending(seen);
    Then(All, EMPTY, Late(Probing(Some(100)), map[]), w1);
    Weaken(EMPTY, w1);
    Then(Guards, EMPTY, w1, w2);
    Then(Guards, EMPTY, w2, w3);
    Then(Guards, EMPTY, w3, w4);
    Then(Guards, EMPTY, w4, Rechosen(seen));
    Go(Guards, EMPTY, Rechosen(seen), Work(MarkSubmitting(1)), Remarked(seen));
    Go(Guards, EMPTY, Remarked(seen), Work(Send(1)), Resent(seen));
  }

  /** A rebuild is admitted while the reconciliation has seen the VM gone, and builds it anew; then the
      late commit drops the row of an existing VM. */
  lemma LateCommitCanOrphan()
    ensures Leads(Guards, EMPTY, REBUILT)
    ensures
      var w' := DoCommit(REBUILT, 0, None);
      Step(REBUILT, Reconcile(RecCommit(0, None)), w') && !NoOrphan(w')
  {
    hide Leads;
    Overtaking(Absent);
    Rebuilding();
    Then(Guards, EMPTY, Resent(Absent), REBUILT);
    assert 100 in DoCommit(REBUILT, 0, None).vms;
  }

  /** What the late commit leaves of the rebuild. */
  function Rowless(create: Identity, procs: map<nat, Phase>, pending: set<Request>): World {
    World(Tables(map[0 := First(Canceled, true, Accepted), 1 := Job(Rebuild, 0, Running, false, create, None)],
                 map[], {}), 2, 1, 0, procs, map[0 := Rec(true, Waiter, Done)], map[], false, map[], pending, {}, map[])
  }

  lemma Forestalling()
    ensures Step(Rechosen(Absent), Reconcile(RecCommit(0, None)), Rowless(Unsubmitted, map[1 := Chosen(100)], {}))
  {
    assert DoCommit(Rechosen(Absent), 0, None) == Rowless(Unsubmitted, map[1 := Chosen(100)], {});
  }

  lemma GoingOn()
    ensures Leads(All, Rowless(Unsubmitted, map[1 := Chosen(100)], {}),
                  Rowless(Submitting, map[1 := Sent(100)], {RECREATE}))
  {
    var w1 := Rowless(Unsubmitted, map[1 := Chosen(100)], {});
    var w2 := Rowless(Submitting, map[1 := Marked(100)], {});
    var w3 := Rowless(Submitting, map[1 := Sent(100)], {RECREATE});
    assert DoMark(w1, 1) == w2;
    assert DoSend(w2, 1) == w3;
    Two(All, w1, Work(MarkSubmitting(1)), w2, Work(Send(1)), w3);
  }

  /** The late commit comes before the rebuild has even marked its create, and orphans nothing at once;
      but the rebuild, which has chosen its VMID, does not look at its row again. */
  lemma LateCommitCanForestall()
    ensures Leads(Guards, EMPTY, Rechosen(Absent))
    ensures
      var w1 := Rowless(Unsubmitted, map[1 := Chosen(100)], {});
      var w2 := Rowless(Submitting, map[1 := Sent(100)], {RECREATE});
      && Step(Rechosen(Absent), Reconcile(RecCommit(0, None)), w1) && NoOrphan(w1)
      && Leads(All, w1, w2) && !NoOrphan(w2)
  {
    hide Leads, Step, Rechosen;
    Overtaking(Absent);
    Forestalling();
    GoingOn();
    assert RECREATE in Rowless(Submitting, map[1 := Sent(100)], {RECREATE}).pending;
  }

  // ------------------------------------------------------------------ a retry after a late commit

  /** The late reconciliation could not tell whether the VM is there; the create of the rebuild is not
      answered. */
  function Unanswered(status: JobStatus, row: Deployment, recs: map<nat, Rec>, cleaners: map<nat, CleanPhase>): World {
    World(Tables(map[0 := First(Canceled, true, Accepted), 1 := Job(Rebuild, 0, status, false, Submitting, None)],
                 map[0 := row], {}), 2, 1, 0, map[], recs, cleaners, false, map[], {RECREATE}, {}, map[])
  }

  const UNSEEN := Rec(true, Waiter, Found(Some(100), Unknown))
  const PENDING := Deployment(CleanupPending, Some(100), Submitting, Some(Deploy))

  const RERAISED := Unanswered(Running, Bearing(Submitting), map[0 := UNSEEN, 1 := Rec(false, Inline, Checking)], map[])
  const REHALTED := Unanswered(Running, DOUBTED, map[0 := UNSEEN, 1 := Rec(false, Inline, Done)], map[])
  const REFAILED := Unanswered(Failed, DOUBTED, map[0 := UNSEEN], map[])
  const COMMITTED := Unanswered(Failed, PENDING, map[0 := Rec(true, Waiter, Done)], map[])
  const LEFT := Unanswered(Failed, PENDING, map[], map[])
  const RETRIED := Unanswered(Failed, PENDING, map[], map[0 := Tearing(Some(100), Some(Deploy), None)])
  const RETORN := Unanswered(Failed, PENDING, map[], map[0 := Looking(Some(100), Some(Deploy))])
  const RESEEN := Unanswered(Failed, PENDING, map[], map[0 := Seen(Some(100), Some(Deploy), Absent)])

  const GIVEN_UP := DoCleanCommit(RESEEN, 0)

  lemma Reraising()
    ensures Rightly(Guards, Resent(Unknown), Work(Raise(1, false)), RERAISED)
  {
    assert DoRaise(Resent(Unknown), 1, false) == RERAISED;
  }

  lemma Rehalting()
    ensures Rightly(Guards, RERAISED, Reconcile(RecCheck(1, true)), REHALTED)
  {
    assert DoCheck(RERAISED, 1, true) == REHALTED;
  }

  lemma Refailing()
    ensures Rightly(Guards, REHALTED, Reconcile(RecFinish(1)), REFAILED)
  {
    assert DoRecFinish(REHALTED, 1) == REFAILED;
  }

  lemma Committing()
    ensures Leads(Guards, REFAILED, LEFT)
  {
    assert DoCommit(REFAILED, 0, None) == COMMITTED;
    assert DoRecFinish(COMMITTED, 0) == LEFT;
    Two(Guards, REFAILED, Reconcile(RecCommit(0, None)), COMMITTED, Reconcile(RecFinish(0)), LEFT);
  }

  lemma Retrying()
    ensures Step(LEFT, Cleaning(CleanBegin(0)), RETRIED) && Leads(All, RETRIED, RESEEN)
  {
    var t := Tear(0, Some(1), End(Untouched));
    assert DoCleanBegin(LEFT, 0) == RETRIED;
    assert DoCleanTear(RETRIED, 0, t) == RETORN;
    assert DoCleanProbe(RETORN, 0, Absent) == RESEEN;
    Two(All, RETRIED, Cleaning(CleanDestroy(0, t)), RETORN, Cleaning(CleanProbe(0, Absent)), RESEEN);
  }

  lemma Dropping()
    ensures Rightly(All, RESEEN, Cleaning(CleanCommit(0)), GIVEN_UP)
    ensures !NoOrphan(GIVEN_UP)
  {
    assert RECREATE in GIVEN_UP.pending;
  }

  /** The late commit marks the deployment for clean-up although the create of the rebuild is not
      answered; the retry sees no VM and drops the row while the create may still land. */
  lemma RetryCanOrphan()
    ensures Leads(Guards, EMPTY, LEFT) && Step(LEFT, Cleaning(CleanBegin(0)), RETRIED)
    ensures Leads(All, RETRIED, GIVEN_UP) && !NoOrphan(GIVEN_UP)
  {
    hide *;
    Overtaking(Unknown);
    Reraising();
    Rehalting();
    Refailing();
    Committing();
    Retrying();
    Dropping();
    Go(Guards, EMPTY, Resent(Unknown), Work(Raise(1, false)), RERAISED);
    Go(Guards, EMPTY, RERAISED, Reconcile(RecCheck(1, true)), REHALTED);
    Go(Guards, EMPTY, REHALTED, Reconcile(RecFinish(1)), REFAILED);
    Then(Guards, EMPTY, REFAILED, LEFT);
    Go(All, RETRIED, RESEEN, Cleaning(CleanCommit(0)), GIVEN_UP);
  }
}
