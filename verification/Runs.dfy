/** Short runs through the windows that the code leaves.

    The worlds of a run are constants.  All its steps follow every rule there is (`All`), or at
    least the guards (`Guards`), but for the one step that is named, so that none of the rules can be
    done without.  Most lemmas check one to three steps; the others string them together.

    This module has what all runs need, and two runs of a deploy whose create request is not
    answered: a clean-up that disregards it, and a mistaken confirmation. */
module Runs {
  import opened Rows
  import opened Machine
  import opened Ownership
  import opened Guards
  import opened Tasks

  // ------------------------------------------------------------------ following the rules

  datatype Rules = All | Guards

  ghost predicate Follows(r: Rules, w: World, a: Action) {
    Guarded(w, a) && (r == All ==> Disciplined(w, a) && Patient(w, a))
  }

  /** The step is one of the machine, and follows the rules. */
  ghost predicate Rightly(r: Rules, w: World, a: Action, w': World) {
    Step(w, a, w') && Follows(r, w, a)
  }

  ghost predicate FollowingTrace(r: Rules, ws: seq<World>, acts: seq<Action>) {
    Trace(ws, acts) && forall i | 0 <= i < |acts| :: Follows(r, ws[i], acts[i])
  }

  /** By steps that follow the rules one gets from `w` to `w'`. */
  ghost predicate Leads(r: Rules, w: World, w': World) {
    exists ws, acts :: FollowingTrace(r, ws, acts) && ws[0] == w && ws[|acts|] == w'
  }

  lemma Here(r: Rules, w: World)
    ensures Leads(r, w, w)
  {
    assert FollowingTrace(r, [w], []) && [w][0] == w;
  }

  lemma Go(r: Rules, w0: World, w: World, a: Action, w': World)
    requires Leads(r, w0, w) && Rightly(r, w, a, w')
    ensures Leads(r, w0, w')
  {
    hide Step, Follows;
    var ws, acts :| FollowingTrace(r, ws, acts) && ws[0] == w0 && ws[|acts|] == w;
    Extend(ws, acts, a, w');
    var more, first := ws + [w'], acts + [a];
    forall i | 0 <= i < |first| ensures Follows(r, more[i], first[i]) {
      assert i < |acts| ==> Follows(r, ws[i], acts[i]);
    }
    assert FollowingTrace(r, more, first) && more[0] == w0 && more[|first|] == w';
  }

  lemma One(r: Rules, w: World, a: Action, w': World)
    requires Rightly(r, w, a, w')
    ensures Leads(r, w, w')
  {
    hide Rightly;
    Here(r, w);
    Go(r, w, w, a, w');
  }

  lemma Two(r: Rules, w: World, a: Action, w1: World, b: Action, w2: World)
    requires Rightly(r, w, a, w1) && Rightly(r, w1, b, w2)
    ensures Leads(r, w, w2)
  {
    hide *;
    One(r, w, a, w1);
    Go(r, w, w1, b, w2);
  }

  lemma Three(r: Rules, w: World, a: Action, w1: World, b: Action, w2: World, c: Action, w3: World)
    requires Rightly(r, w, a, w1) && Rightly(r, w1, b, w2) && Rightly(r, w2, c, w3)
    ensures Leads(r, w, w3)
  {
    hide *;
    Two(r, w, a, w1, b, w2);
    Go(r, w, w2, c, w3);
  }

  lemma Then(r: Rules, w: World, w1: World, w2: World)
    requires Leads(r, w, w1) && Leads(r, w1, w2)
    ensures Leads(r, w, w2)
  {
    hide Step, Follows;
    var ws, acts :| FollowingTrace(r, ws, acts) && ws[0] == w && ws[|acts|] == w1;
    var ws', acts' :| FollowingTrace(r, ws', acts') && ws'[0] == w1 && ws'[|acts'|] == w2;
    Join(ws, acts, ws', acts');
    var more, first := ws + ws'[1..], acts + acts';
    forall i | 0 <= i < |first| ensures Follows(r, more[i], first[i]) {
      if i < |acts| {
        assert Follows(r, ws[i], acts[i]);
      } else {
        assert Follows(r, ws'[i - |acts|], acts'[i - |acts|]);
      }
    }
    assert FollowingTrace(r, more, first);
  }

  lemma Weaken(w: World, w': World)
    requires Leads(All, w, w')
    ensures Leads(Guards, w, w')
  {
    hide Step, Guarded, Disciplined, Patient;
    var ws, acts :| FollowingTrace(All, ws, acts) && ws[0] == w && ws[|acts|] == w';
    assert FollowingTrace(Guards, ws, acts);
  }

  // ------------------------------------------------------------------ a deploy on VMID 100

  const EMPTY := World(Tables(map[], map[], {}), 0, 0, 0, map[], map[], map[], false, map[], {}, {}, map[])

  /** Deployment 0, its deploy job, the threads at work, the VMs and the requests. */
  function Solo(job: Job, row: Deployment, procs: map<nat, Phase>, recs: map<nat, Rec>,
                vms: map<nat, Owner>, pending: set<Request>): World {
    World(Tables(map[0 := job], map[0 := row], {}), 1, 1, 0, procs, recs, map[], false, vms, pending, {}, map[])
  }

  function First(status: JobStatus, canceled: bool, create: Identity): Job {
    Job(Deploy, 0, status, canceled, create, None)
  }

  function Bearing(identity: Identity): Deployment {
    Deployment(Working, Some(100), identity, None)
  }

  const NEW := Deployment(Working, None, Unsubmitted, None)
  const CREATE := Request(0, 0, 100)
  const BUILT: map<nat, Owner> := map[100 := Created(0)]

  const ADMITTED := Solo(First(Queued, false, Unsubmitted), NEW, map[], map[], map[], {})
  const CLAIMED := Solo(First(Running, false, Unsubmitted), NEW, map[0 := Begun], map[], map[], {})
  const CHOSEN := Solo(First(Running, false, Unsubmitted), Bearing(Unsubmitted),
    map[0 := Chosen(100)], map[], map[], {})
  const MARKED := Solo(First(Running, false, Submitting), Bearing(Submitting),
    map[0 := Marked(100)], map[], map[], {})
  const SENT := Solo(First(Running, false, Submitting), Bearing(Submitting),
    map[0 := Sent(100)], map[], map[], {CREATE})

  lemma Claiming()
    ensures Leads(All, EMPTY, CLAIMED)
  {
    assert DoAdmitDeploy(EMPTY, false) == ADMITTED;
    assert DoClaim(ADMITTED, 0, false) == CLAIMED;
    Two(All, EMPTY, Http(AdmitDeploy(false)), ADMITTED, Work(Claim(0, false)), CLAIMED);
  }

  lemma Selecting()
    ensures Leads(All, CLAIMED, CHOSEN)
  {
    assert DoSelect(CLAIMED, 0, 100) == CHOSEN;
    One(All, CLAIMED, Work(SelectVmid(0, 100)), CHOSEN);
  }

  lemma Sending()
    ensures Leads(All, CHOSEN, SENT)
  {
    assert DoMark(CHOSEN, 0) == MARKED;
    assert DoSend(MARKED, 0) == SENT;
    Two(All, CHOSEN, Work(MarkSubmitting(0)), MARKED, Work(Send(0)), SENT);
  }

  const CREATED := Solo(First(Running, false, Accepted), Bearing(Accepted), map[0 := Built], map[], BUILT, {})

  lemma Accepting()
    ensures Leads(All, SENT, CREATED)
  {
    assert DoAccept(SENT, 0) == CREATED;
    One(All, SENT, Work(AcceptCreate(0)), CREATED);
  }

  /** The create request is sent, and answered. */
  lemma Deployed()
    ensures Leads(All, EMPTY, SENT) && Leads(All, EMPTY, CREATED)
  {
    hide *;
    Claiming();
    Selecting();
    Sending();
    Accepting();
    Then(All, EMPTY, CLAIMED, CHOSEN);
    Then(All, EMPTY, CHOSEN, SENT);
    Then(All, EMPTY, SENT, CREATED);
  }

  // ------------------------------------------------------------------ a create without answer

  const DOUBTED := Deployment(Error, Some(100), Submitting, None)

  const RAISED := Solo(First(Running, false, Submitting), Bearing(Submitting), map[],
    map[0 := Rec(false, Inline, Checking)], map[], {CREATE})
  const HALTED := Solo(First(Running, false, Submitting), DOUBTED, map[],
    map[0 := Rec(false, Inline, Done)], map[], {CREATE})
  const FAILED := Solo(First(Failed, false, Submitting), DOUBTED, map[], map[], map[], {CREATE})
  const CLEANED := DoLocalCleanup(FAILED, 0)

  lemma Raising()
    ensures Rightly(All, SENT, Work(Raise(0, false)), RAISED)
  {
    assert DoRaise(SENT, 0, false) == RAISED;
  }

  lemma Halting()
    ensures Rightly(All, RAISED, Reconcile(RecCheck(0, true)), HALTED)
  {
    assert DoCheck(RAISED, 0, true) == HALTED;
  }

  lemma Failing()
    ensures Rightly(All, HALTED, Reconcile(RecFinish(0)), FAILED)
  {
    assert DoRecFinish(HALTED, 0) == FAILED;
  }

  lemma Lost()
    ensures Leads(All, EMPTY, FAILED)
  {
    hide *;
    Deployed();
    Raising();
    Halting();
    Failing();
    Go(All, EMPTY, SENT, Work(Raise(0, false)), RAISED);
    Go(All, EMPTY, RAISED, Reconcile(RecCheck(0, true)), HALTED);
    Go(All, EMPTY, HALTED, Reconcile(RecFinish(0)), FAILED);
  }

  /** The response to the create request of a deploy is lost; the job fails and keeps the row for
      recovery; the operator asks for local-only clean-up while the probe sees no VM.  The request may
      still land, and its row is gone. */
  lemma LocalCleanupCanOrphan()
    ensures Leads(All, EMPTY, FAILED) && Step(FAILED, Http(LocalCleanup(0)), CLEANED) && !NoOrphan(CLEANED)
  {
    Lost();
    assert CREATE in CLEANED.pending;
  }

  const SQUATTED := Solo(First(Failed, false, Submitting), DOUBTED, map[], map[], map[100 := Foreign], {CREATE})
  const CONFIRMED := Solo(First(Failed, false, Accepted), DOUBTED.(identity := Accepted), map[], map[],
    map[100 := Foreign], {CREATE})
  const VACATED := Solo(First(Failed, false, Accepted), DOUBTED.(identity := Accepted), map[], map[], map[], {CREATE})
  const FORGOTTEN := DoLocalCleanup(VACATED, 0)

  lemma Squatting()
    ensures Rightly(All, FAILED, Cluster(Appear(100)), SQUATTED)
    ensures Step(SQUATTED, Http(Confirm(0, Some(0))), CONFIRMED)
  {
    assert DoConfirm(SQUATTED, 0, Some(0)) == CONFIRMED;
  }

  lemma Forgetting()
    ensures Leads(All, CONFIRMED, FORGOTTEN)
  {
    assert CONFIRMED.vms - {100} == map[];
    Two(All, CONFIRMED, Cluster(Vanish(100)), VACATED, Http(LocalCleanup(0)), FORGOTTEN);
  }

  /** As before; then a foreign VM takes the VMID and the operator confirms it.  From then on every step
      follows the rules again: the VM disappears, and local-only clean-up finds an accepted identity. */
  lemma ConfirmationCanOrphan()
    ensures Leads(All, EMPTY, SQUATTED) && Step(SQUATTED, Http(Confirm(0, Some(0))), CONFIRMED)
    ensures Leads(All, CONFIRMED, FORGOTTEN) && !NoOrphan(FORGOTTEN)
  {
    Lost();
    Squatting();
    Forgetting();
    Go(All, EMPTY, FAILED, Cluster(Appear(100)), SQUATTED);
    assert CREATE in FORGOTTEN.pending;
  }
}
