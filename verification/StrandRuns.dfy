/** Runs that leave a deployment marked as working with nobody working on it.

    One goes through a crash right after a final status.  In the other nothing crashes: a deploy
    selects a VMID that another row holds.

    Most lemmas check one or two steps. */
module StrandRuns {
  import opened Rows
  import opened Machine
  import opened StrandSteps
  import opened Runs

  // ------------------------------------------------------------------ a crash

  const UNWISHED := Solo(First(Queued, true, Unsubmitted), NEW, map[], map[], map[], {})
  const CANCELED := Solo(First(Canceled, true, Unsubmitted), NEW, map[],
    map[0 := Rec(true, Aftermath, Checking)], map[], {})
  const CRASHED := DoCrash(CANCELED)

  lemma Canceling()
    ensures Rightly(All, EMPTY, Http(AdmitDeploy(false)), ADMITTED)
    ensures Rightly(All, ADMITTED, Http(CancelRequest(0)), UNWISHED)
  {
    assert DoAdmitDeploy(EMPTY, false) == ADMITTED;
    assert DoCancel(ADMITTED, 0) == UNWISHED;
  }

  lemma Crashing()
    ensures Rightly(All, UNWISHED, Work(Claim(0, false)), CANCELED) && Rightly(All, CANCELED, Cluster(Crash), CRASHED)
  {
    assert DoClaim(UNWISHED, 0, false) == CANCELED;
  }

  lemma CrashStrands()
    ensures !NotStranded(CRASHED)
  {
    assert !WorkedOn(CRASHED, 0);
  }

  /** A crash right after a queued job was marked cancelled strands its deployment: every step follows
      every rule, and no restart writes its status. */
  lemma CrashCanStrand()
    ensures Leads(All, EMPTY, CANCELED) && Rightly(All, CANCELED, Cluster(Crash), CRASHED) && !NotStranded(CRASHED)
  {
    hide *;
    Canceling();
    Crashing();
    CrashStrands();
    Three(All, EMPTY, Http(AdmitDeploy(false)), ADMITTED, Http(CancelRequest(0)), UNWISHED,
          Work(Claim(0, false)), CANCELED);
  }

  // ------------------------------------------------------------------ a VMID on two rows

  /** Deployment 0 waits for recovery with its create not answered; job 1 deploys deployment 1. */
  function Second(status: JobStatus, canceled: bool, create: Identity, row: Deployment, procs: map<nat, Phase>,
                  recs: map<nat, Rec>, vms: map<nat, Owner>, pending: set<Request>): World {
    World(Tables(map[0 := First(Failed, false, Submitting), 1 := Job(Deploy, 1, status, canceled, create, None)],
                 map[0 := DOUBTED, 1 := row], {}), 2, 2, 0, procs, recs, map[], false, vms, pending, {}, map[])
  }

  const TWIN := Request(1, 1, 100)
  const OTHER: map<nat, Owner> := map[100 := Created(1)]

  const QUEUED := Second(Queued, false, Unsubmitted, NEW, map[], map[], map[], {CREATE})
  const STARTED := Second(Running, false, Unsubmitted, NEW, map[1 := Begun], map[], map[], {CREATE})
  const SHARED := Second(Running, false, Unsubmitted, Bearing(Unsubmitted),
    map[1 := Chosen(100)], map[], map[], {CREATE})
  const NOTED := Second(Running, false, Submitting, Bearing(Submitting),
    map[1 := Marked(100)], map[], map[], {CREATE})
  const ISSUED := Second(Running, false, Submitting, Bearing(Submitting),
    map[1 := Sent(100)], map[], map[], {CREATE, TWIN})
  const MADE := Second(Running, false, Accepted, Bearing(Accepted), map[1 := Built], map[], OTHER, {CREATE})

  function Undone(status: JobStatus, procs: map<nat, Phase>, recs: map<nat, Rec>): World {
    Second(status, true, Accepted, Bearing(Accepted), procs, recs, OTHER, {CREATE})
  }

  const REVOKED := Undone(Running, map[1 := Built], map[])
  const STOPPED := Undone(Running, map[], map[1 := Rec(true, Inline, Checking)])
  const TEARING := Undone(Running, map[], map[1 := Rec(true, Inline, Destroying(Some(100), None))])
  const ASTRAY := Undone(Running, map[], map[1 := Rec(true, Inline, Done)])
  const STRANDED := Undone(Canceled, map[], map[])

  const WRONG := Tear(0, Some(0), End(Unconfirmed))

  lemma Beginning()
    ensures Leads(All, FAILED, STARTED)
  {
    assert DoAdmitDeploy(FAILED, false) == QUEUED;
    assert DoClaim(QUEUED, 1, false) == STARTED;
    Two(All, FAILED, Http(AdmitDeploy(false)), QUEUED, Work(Claim(1, false)), STARTED);
  }

  lemma Sharing()
    ensures Step(STARTED, Work(SelectVmid(1, 100)), SHARED)
  {
    assert DoSelect(STARTED, 1, 100) == SHARED;
  }

  lemma Issuing()
    ensures Leads(All, SHARED, ISSUED)
  {
    assert DoMark(SHARED, 1) == NOTED;
    assert DoSend(NOTED, 1) == ISSUED;
    Two(All, SHARED, Work(MarkSubmitting(1)), NOTED, Work(Send(1)), ISSUED);
  }

  lemma Making()
    ensures Leads(All, ISSUED, REVOKED)
  {
    assert DoAccept(ISSUED, 1) == MADE;
    assert DoCancel(MADE, 1) == REVOKED;
    Two(All, ISSUED, Work(AcceptCreate(1)), MADE, Http(CancelRequest(1)), REVOKED);
  }

  lemma Stopping()
    ensures Rightly(All, REVOKED, Work(Raise(1, true)), STOPPED)
  {
    assert DoRaise(REVOKED, 1, true) == STOPPED;
  }

  lemma Examining()
    ensures Rightly(All, STOPPED, Reconcile(RecCheck(1, true)), TEARING)
  {
    assert DoCheck(STOPPED, 1, true) == TEARING;
  }

  /** The destroy finds row 0, distrusts it, and ends the reconciliation of job 1. */
  lemma Straying()
    ensures Rightly(All, TEARING, Reconcile(RecDestroy(1, WRONG)), ASTRAY)
  {
    assert DoTear(TEARING, 1, WRONG) == ASTRAY;
  }

  lemma Ending()
    ensures Rightly(All, ASTRAY, Reconcile(RecFinish(1)), STRANDED)
  {
    assert DoRecFinish(ASTRAY, 1) == STRANDED;
  }

  lemma NobodyIsLeft()
    ensures !NotStranded(STRANDED)
  {
    assert !WorkedOn(STRANDED, 1);
  }

  /** The create of a deploy is not answered.  A second deploy selects the same VMID, which the cluster
      does not list, is built, and is cancelled; the destroy that stays unconfirmed is noted on the row of
      the first.  No step but the selection breaks a rule, and nothing crashes. */
  lemma SharedVmidCanStrand()
    ensures Leads(All, EMPTY, STARTED) && Step(STARTED, Work(SelectVmid(1, 100)), SHARED)
    ensures Leads(All, SHARED, STRANDED) && !NotStranded(STRANDED)
  {
    hide *;
    Lost();
    Beginning();
    Sharing();
    Issuing();
    Making();
    Stopping();
    Examining();
    Straying();
    Ending();
    NobodyIsLeft();
    Then(All, EMPTY, FAILED, STARTED);
    Then(All, SHARED, ISSUED, REVOKED);
    Go(All, SHARED, REVOKED, Work(Raise(1, true)), STOPPED);
    Go(All, SHARED, STOPPED, Reconcile(RecCheck(1, true)), TEARING);
    Go(All, SHARED, TEARING, Reconcile(RecDestroy(1, WRONG)), ASTRAY);
    Go(All, SHARED, ASTRAY, Reconcile(RecFinish(1)), STRANDED);
  }
}
