/** The imperative routines refine the state machine: uninterrupted, each is a sequence of its steps. */
module Refinement {
  import opened Rows
  import opened Machine
  import opened CoreSafety
  import opened Ownership
  import opened NoOrphans
  import opened Store

  /** A trace from `w`. */
  ghost predicate From(w: World, ws: seq<World>, acts: seq<Action>) {
    Trace(ws, acts) && ws[0] == w && forall i | 0 <= i < |acts| :: Unruled(acts[i])
  }

  lemma OneStep(w: World, a: Action) returns (ws: seq<World>, acts: seq<Action>)
    requires Enabled(w, a) && Unruled(a)
    ensures From(w, ws, acts) && ws[|acts|] == Apply(w, a)
  {
    ws, acts := [w, Apply(w, a)], [a];
  }

  /** A trace, and the trace from where it ends. */
  lemma Then(w: World, ws: seq<World>, acts: seq<Action>, ws': seq<World>, acts': seq<Action>)
    returns (us: seq<World>, bs: seq<Action>)
    requires From(w, ws, acts) && From(ws[|acts|], ws', acts')
    ensures From(w, us, bs) && us[|bs|] == ws'[|acts'|]
  {
    Join(ws, acts, ws', acts');
    us, bs := ws + ws'[1..], acts + acts';
  }

  // ------------------------------------------------------------------ one reconciliation

  predicate Fresh(w: World, j: nat, canceled: bool) {
    RecAt(w, j) && w.recs[j].phase == Checking && w.recs[j].canceled == canceled
  }

  /** The reconciliation of `j` is through and wrote `db`; apart from tasks and VMs that the destroy
      of a half-built VM touched, nothing else changed. */
  predicate Through(w: World, w': World, j: nat, db: Tables) {
    && w'.db == db && RecAt(w, j) && RecAt(w', j)
    && w'.recs == w.recs[j := w.recs[j].(phase := Done)]
    && (!w.recs[j].canceled ==> w'.vms == w.vms && w'.tasks == w.tasks && w'.nextTask == w.nextTask)
  }

  /** A task that the destroy submitted is the next one. */
  predicate NextTask(w: World, ev: Evidence) {
    ev.task.Some? ==> ev.task.value == w.nextTask && ev.tear != Untouched
  }

  /** What the cluster answered is true of it; absence after a destroy that went through may be
      its doing. */
  predicate Honest(w: World, j: nat, canceled: bool, ev: Evidence) {
    && (ev.settled ==> SettledTask(w, j))
    && (ev.runtime == None || ev.runtime == Some(Up) || ev.runtime == Some(Stopped))
    && NextTask(w, ev)
    && match Check(w.db, j, ev.settled) {
         case Halt(_) => true
         case Proceed(v) =>
           Truthful(w, v, ev.presence)
           || (canceled && w.db.jobs[j].kind == Deploy && v.Some? && ev.presence == Absent && ev.tear == Torn)
       }
  }

  lemma CheckIsStep(w: World, j: nat, canceled: bool, ev: Evidence)
    requires Fresh(w, j, canceled) && Honest(w, j, canceled, ev)
    ensures CanCheck(w, j, ev.settled)
    ensures Check(w.db, j, ev.settled).Halt? ==>
      Through(w, DoCheck(w, j, ev.settled), j, Check(w.db, j, ev.settled).db)
    ensures Check(w.db, j, ev.settled).Proceed? ==>
      var v := Check(w.db, j, ev.settled).vmid;
      DoCheck(w, j, ev.settled)
        == Advance(w, j, if canceled && w.db.jobs[j].kind == Deploy && v.Some? then Destroying(v, None) else Probing(v))
  {
  }

  lemma CommitIsStep(w: World, j: nat, v: Option<nat>, ev: Evidence)
    requires RecAt(w, j) && w.recs[j].phase == Found(v, ev.presence)
    requires ev.runtime == None || ev.runtime == Some(Up) || ev.runtime == Some(Stopped)
    ensures CanCommit(w, j, ev.runtime)
    ensures Through(w, DoCommit(w, j, ev.runtime), j,
                    if w.recs[j].canceled then CommitCanceled(w.db, j, v, ev.presence, ev.runtime)
                    else CommitFailed(w.db, j, v, ev.presence))
  {
  }

  lemma ThroughFrom(w: World, w1: World, w': World, j: nat, db: Tables)
    requires Through(w1, w', j, db) && j in w.recs && RecAt(w, j)
    requires w1.recs == w.recs[j := w.recs[j].(phase := w1.recs[j].phase)]
    requires !w.recs[j].canceled ==> w1.vms == w.vms && w1.tasks == w.tasks && w1.nextTask == w.nextTask
    ensures Through(w, w', j, db)
  {
  }

  /** Look up and commit. */
  lemma LookAndCommit(w: World, j: nat, v: Option<nat>, ev: Evidence) returns (ws: seq<World>, acts: seq<Action>)
    requires RecAt(w, j) && w.recs[j].phase == Probing(v) && Truthful(w, v, ev.presence)
    requires ev.runtime == None || ev.runtime == Some(Up) || ev.runtime == Some(Stopped)
    ensures From(w, ws, acts)
    ensures Through(w, ws[|acts|], j,
                    if w.recs[j].canceled then CommitCanceled(w.db, j, v, ev.presence, ev.runtime)
                    else CommitFailed(w.db, j, v, ev.presence))
  {
    var w1 := DoProbe(w, j, ev.presence);
    CommitIsStep(w1, j, v, ev);
    var ws1, acts1 := OneStep(w, Reconcile(RecProbe(j, ev.presence)));
    var ws2, acts2 := OneStep(w1, Reconcile(RecCommit(j, ev.runtime)));
    ThroughFrom(w, w1, ws2[|acts2|], j, ws2[|acts2|].db);
    ws, acts := Then(w, ws1, acts1, ws2, acts2);
  }

  /** Reconciling a failed job is a sequence of machine steps. */
  lemma FailedIsSteps(w: World, j: nat, ev: Evidence) returns (ws: seq<World>, acts: seq<Action>)
    requires Fresh(w, j, false) && Honest(w, j, false, ev)
    ensures From(w, ws, acts) && Through(w, ws[|acts|], j, FailedResult(w.db, j, ev))
  {
    CheckIsStep(w, j, false, ev);
    var w1 := DoCheck(w, j, ev.settled);
    ws, acts := OneStep(w, Reconcile(RecCheck(j, ev.settled)));
    if Check(w.db, j, ev.settled).Proceed? {
      var ws1, acts1 := LookAndCommit(w1, j, Check(w.db, j, ev.settled).vmid, ev);
      ThroughFrom(w, w1, ws1[|acts1|], j, ws1[|acts1|].db);
      ws, acts := Then(w, ws, acts, ws1, acts1);
    }
  }

  // ------------------------------------------------------------------ the destroy of a half-built VM

  /** What the destroy did, or did not do, explains what is seen of the VM. */
  predicate Plausible(w: World, v: Option<nat>, ev: Evidence) {
    && v.Some?
    && (Truthful(w, v, ev.presence) || (ev.presence == Absent && ev.tear == Torn))
  }

  /** The row that the destroy of the method found, and what it did there. */
  lemma TearOf(w: World, d: nat, v: Option<nat>, torn: Tables, ev: Evidence) returns (hit: nat, newest: Option<nat>)
    requires Named(w.db, d, v) && TearsDown(w.db, torn, v, ev) && v.Some?
    ensures Named(w.db, hit, v) && Newest(w.db, hit, newest)
    ensures torn == TornDown(w.db, hit, newest, ev.tear, ev.task)
  {
    hit, newest :| Named(w.db, hit, v) && Newest(w.db, hit, newest)
                   && torn == TornDown(w.db, hit, newest, ev.tear, ev.task);
  }

  /** The first move, when a task was submitted, and the task that may have stopped. */
  function Issued(w: World, hit: nat, newest: Option<nat>): Tear {
    Tear(hit, newest, Issue(w.nextTask))
  }

  function Stopping(w: World, upid: nat, ev: Evidence): World {
    if ev.tear == Torn then w.(tasks := w.tasks - {upid}) else w
  }

  lemma StoppingIsSteps(w: World, upid: nat, ev: Evidence) returns (ws: seq<World>, acts: seq<Action>)
    requires upid in w.tasks
    ensures From(w, ws, acts) && ws[|acts|] == Stopping(w, upid, ev)
  {
    if ev.tear == Torn {
      ws, acts := OneStep(w, Cluster(TaskStop(upid)));
    } else {
      ws, acts := [w], [];
    }
  }

  /** A recorded task changes neither the look-up nor which job is the newest. */
  lemma RecordedIsFound(w: World, v: Option<nat>, hit: nat, newest: Option<nat>, ev: Evidence)
    requires Named(w.db, hit, v) && v.Some? && Newest(w.db, hit, newest)
    ensures TearOk(w, v, None, Issued(w, hit, newest))
    ensures
      var w1 := Stopping(Tracked(w, Issued(w, hit, newest)), w.nextTask, ev);
      ev.tear != Untouched ==> TearOk(w1, v, Some(w.nextTask), Tear(hit, newest, End(ev.tear)))
  {
    TornBriefs(w.db, Issued(w, hit, newest));
  }

  /** The VM may have gone because of the destroy. */
  function Vacated(w: World, v: Option<nat>, ev: Evidence): World {
    if v.Some? && ev.tear == Torn && ev.presence == Absent && v.value in w.vms
    then w.(vms := w.vms - {v.value}) else w
  }

  lemma VacatedIsSteps(w: World, v: Option<nat>, ev: Evidence) returns (ws: seq<World>, acts: seq<Action>)
    ensures From(w, ws, acts) && ws[|acts|] == Vacated(w, v, ev)
  {
    if Vacated(w, v, ev) == w {
      ws, acts := [w], [];
    } else {
      ws, acts := OneStep(w, Cluster(Vanish(v.value)));
    }
  }

  /** The end of the destroy is the last of its moves. */
  lemma EndIsStep(w: World, j: nat, hit: nat, newest: Option<nat>, ev: Evidence)
    returns (ws: seq<World>, acts: seq<Action>)
    requires CanTear(w, j, Tear(hit, newest, End(ev.tear)))
    ensures From(w, ws, acts)
    ensures
      var w', v := ws[|acts|], w.recs[j].phase.vmid;
      && w'.db == TornDown(w.db, hit, newest, ev.tear, None) && w'.vms == w.vms && RecAt(w', j)
      && w'.recs == w.recs[j := w.recs[j].(phase := if ev.tear == Unconfirmed then Done else Probing(v))]
  {
    var t := Tear(hit, newest, End(ev.tear));
    TornBriefs(w.db, t);
    ws, acts := OneStep(w, Reconcile(RecDestroy(j, t)));
  }

  /** A destroy that submitted a task. */
  lemma IssueIsSteps(w: World, j: nat, v: Option<nat>, hit: nat, newest: Option<nat>, ev: Evidence)
    returns (ws: seq<World>, acts: seq<Action>)
    requires RecAt(w, j) && w.recs[j].phase == Destroying(v, None) && v.Some?
    requires Named(w.db, hit, v) && Newest(w.db, hit, newest)
    requires ev.tear != Untouched
    ensures From(w, ws, acts)
    ensures
      var w1 := ws[|acts|];
      && CanTear(w1, j, Tear(hit, newest, End(ev.tear)))
      && w1.db == TornDown(w.db, hit, newest, Untouched, Some(w.nextTask)) && w1.vms == w.vms
      && w1.recs == w.recs[j := w.recs[j].(phase := Destroying(v, Some(w.nextTask)))]
  {
    var t := Issued(w, hit, newest);
    RecordedIsFound(w, v, hit, newest, ev);
    TornBriefs(w.db, t);
    ws, acts := OneStep(w, Reconcile(RecDestroy(j, t)));
    var ws1, acts1 := StoppingIsSteps(DoTear(w, j, t), w.nextTask, ev);
    ws, acts := Then(w, ws, acts, ws1, acts1);
  }

  /** Recording and ending are together what the method does to the tables. */
  lemma TornInTwo(db: Tables, hit: nat, newest: Option<nat>, outcome: TearDown, task: nat)
    ensures TornDown(TornDown(db, hit, newest, Untouched, Some(task)), hit, newest, outcome, None)
         == TornDown(db, hit, newest, outcome, Some(task))
  {
  }

  lemma TearIsSteps(w: World, j: nat, v: Option<nat>, torn: Tables, ev: Evidence)
    returns (ws: seq<World>, acts: seq<Action>)
    requires RecAt(w, j) && w.recs[j].phase == Destroying(v, None) && v.Some? && NextTask(w, ev)
    requires Named(w.db, w.db.jobs[j].dep, v) && TearsDown(w.db, torn, v, ev)
    ensures From(w, ws, acts)
    ensures
      var w' := ws[|acts|];
      && w'.db == torn && w'.vms == w.vms && RecAt(w', j)
      && w'.recs == w.recs[j := w.recs[j].(phase := if ev.tear == Unconfirmed then Done else Probing(v))]
  {
    var hit, newest := TearOf(w, w.db.jobs[j].dep, v, torn, ev);
    if ev.task.None? {
      ws, acts := EndIsStep(w, j, hit, newest, ev);
    } else {
      TornInTwo(w.db, hit, newest, ev.tear, w.nextTask);
      ws, acts := IssueIsSteps(w, j, v, hit, newest, ev);
      var ws1, acts1 := EndIsStep(ws[|acts|], j, hit, newest, ev);
      ws, acts := Then(w, ws, acts, ws1, acts1);
    }
  }

  /** After a destroy that went through: the VM may go, look up, commit. */
  lemma AfterTear(w: World, j: nat, v: Option<nat>, ev: Evidence) returns (ws: seq<World>, acts: seq<Action>)
    requires RecAt(w, j) && w.recs[j].phase == Probing(v) && w.recs[j].canceled && Plausible(w, v, ev)
    requires ev.runtime == None || ev.runtime == Some(Up) || ev.runtime == Some(Stopped)
    ensures From(w, ws, acts)
    ensures Through(w, ws[|acts|], j, CommitCanceled(w.db, j, v, ev.presence, ev.runtime))
  {
    var w1 := Vacated(w, v, ev);
    var ws1, acts1 := VacatedIsSteps(w, v, ev);
    var ws2, acts2 := LookAndCommit(w1, j, v, ev);
    ThroughFrom(w, w1, ws2[|acts2|], j, ws2[|acts2|].db);
    ws, acts := Then(w, ws1, acts1, ws2, acts2);
  }

  /** From the destroy of a half-built VM to the commit. */
  lemma TeardownIsSteps(w: World, db': Tables, j: nat, v: Option<nat>, ev: Evidence)
    returns (ws: seq<World>, acts: seq<Action>)
    requires RecAt(w, j) && w.recs[j].phase == Destroying(v, None) && w.recs[j].canceled
    requires Plausible(w, v, ev) && NextTask(w, ev)
    requires Named(w.db, w.db.jobs[j].dep, v) && TearsAndCommits(w.db, db', j, v, ev)
    requires ev.runtime == None || ev.runtime == Some(Up) || ev.runtime == Some(Stopped)
    ensures From(w, ws, acts) && Through(w, ws[|acts|], j, db')
  {
    var torn :| TearsDown(w.db, torn, v, ev)
      && db' == (if ev.tear == Unconfirmed then torn else CommitCanceled(torn, j, v, ev.presence, ev.runtime));
    ws, acts := TearIsSteps(w, j, v, torn, ev);
    if ev.tear != Unconfirmed {
      var w1 := ws[|acts|];
      var ws1, acts1 := AfterTear(w1, j, v, ev);
      ThroughFrom(w, w1, ws1[|acts1|], j, db');
      ws, acts := Then(w, ws, acts, ws1, acts1);
    }
  }

  /** Reconciling a cancelled job is a sequence of machine steps. */
  lemma CanceledIsSteps(w: World, db': Tables, j: nat, ev: Evidence) returns (ws: seq<World>, acts: seq<Action>)
    requires Fresh(w, j, true) && Honest(w, j, true, ev) && CancelsTo(w.db, db', j, ev)
    ensures From(w, ws, acts) && Through(w, ws[|acts|], j, db')
  {
    CheckIsStep(w, j, true, ev);
    var w1 := DoCheck(w, j, ev.settled);
    ws, acts := OneStep(w, Reconcile(RecCheck(j, ev.settled)));
    if Check(w.db, j, ev.settled).Proceed? {
      var v := Check(w.db, j, ev.settled).vmid;
      var ws1, acts1;
      if w.db.jobs[j].kind == Deploy && v.Some? {
        ws1, acts1 := TeardownIsSteps(w1, db', j, v, ev);
      } else {
        ws1, acts1 := LookAndCommit(w1, j, v, ev);
      }
      ThroughFrom(w, w1, ws1[|acts1|], j, db');
      ws, acts := Then(w, ws, acts, ws1, acts1);
    }
  }

  // ------------------------------------------------------------------ the end of a job

  /** A reconciliation and its end: a job that was still active gets its final status now. */
  lemma ReconciliationIsSteps(w: World, db': Tables, j: nat, canceled: bool, ev: Evidence)
    returns (ws: seq<World>, acts: seq<Action>)
    requires Fresh(w, j, canceled) && Honest(w, j, canceled, ev) && Reconciles(w.db, db', j, canceled, ev)
    ensures From(w, ws, acts) && j !in ws[|acts|].recs
    ensures ws[|acts|].db == if w.recs[j].host == Inline then WithStatus(db', j, Ending(canceled)) else db'
  {
    if canceled {
      ws, acts := CanceledIsSteps(w, db', j, ev);
    } else {
      ws, acts := FailedIsSteps(w, j, ev);
    }
    var ws1, acts1 := OneStep(ws[|acts|], Reconcile(RecFinish(j)));
    ws, acts := Then(w, ws, acts, ws1, acts1);
  }

  /** Claiming the oldest queued job, and reconciling it when it is not executed. */
  lemma ClaimIsSteps(w: World, db': Tables, j: nat, disabled: bool, ev: Evidence)
    returns (ws: seq<World>, acts: seq<Action>)
    requires MainIdle(w) && FirstQueued(w.db, j) && ClaimsTo(w.db, db', j, disabled, ev)
    requires w.db.jobs[j].cancelRequested || disabled ==>
      Honest(DoClaim(w, j, disabled), j, w.db.jobs[j].cancelRequested, ev)
    ensures From(w, ws, acts) && ws[|acts|].db == db'
    ensures !w.db.jobs[j].cancelRequested && !disabled ==> At(ws[|acts|], j, Begun)
  {
    ws, acts := OneStep(w, Work(Claim(j, disabled)));
    if w.db.jobs[j].cancelRequested || disabled {
      var ws1, acts1 := ReconciliationIsSteps(DoClaim(w, j, disabled), db', j, w.db.jobs[j].cancelRequested, ev);
      ws, acts := Then(w, ws, acts, ws1, acts1);
    }
  }

  /** What the raising routine undid first: a VMID that the cluster never accepted. */
  function GivenBack(w: World, j: nat): Tables
    requires j in w.db.jobs
  {
    var d := w.db.jobs[j].dep;
    if j in w.procs && (w.procs[j].Chosen? || w.procs[j].Refused?) then ClearVmid(w.db, d, Some(w.procs[j].vmid))
    else w.db
  }

  /** The end of a job that raised, in whatever phase: the VMID given back if the create was never
      submitted or was refused, then running, reconciliation, final status. */
  lemma ExecutionIsSteps(w: World, db': Tables, j: nat, canceled: bool, ev: Evidence)
    returns (ws: seq<World>, acts: seq<Action>)
    requires CanRaise(w, j, canceled) && Honest(DoRaise(w, j, canceled), j, canceled, ev)
    requires EndsTo(GivenBack(w, j), db', j, canceled, ev)
    ensures From(w, ws, acts) && ws[|acts|].db == db'
  {
    ws, acts := OneStep(w, Work(Raise(j, canceled)));
    var w1 := DoRaise(w, j, canceled);
    assert w1.db == WithStatus(GivenBack(w, j), j, Running);
    var r :| Reconciles(w1.db, r, j, canceled, ev) && db' == WithStatus(r, j, Ending(canceled));
    var ws1, acts1 := ReconciliationIsSteps(w1, r, j, canceled, ev);
    ws, acts := Then(w, ws, acts, ws1, acts1);
  }

  lemma WaitErrorIsStep(w: World, j: nat, canceled: bool) returns (ws: seq<World>, acts: seq<Action>)
    requires CanAbort(w, j, canceled) || CanWaitRaise(w, j, canceled)
    ensures From(w, ws, acts) && ws[|acts|] == DoWaitError(w, j, canceled)
  {
    if CanAbort(w, j, canceled) {
      ws, acts := OneStep(w, Wait(WaitAbort(j, canceled)));
    } else {
      ws, acts := OneStep(w, Wait(WaitRaise(j, canceled)));
    }
  }

  /** A job that a waiting worker may end. */
  predicate Pausing(db: Tables, j: nat) {
    j in db.jobs && (db.jobs[j].status == Waiting || db.jobs[j].status == Running)
  }

  lemma WaitErrorStarts(w: World, j: nat, canceled: bool)
    ensures
      var w1 := DoWaitError(w, j, canceled);
      if Pausing(w.db, j) then
        w1.db == WithStatus(w.db, j, Ending(canceled)) && Fresh(w1, j, canceled) && w1.recs[j].host == Waiter
      else w1.db == w.db
  {
  }

  /** The end of a waiting or resumed job: final status first, reconciliation second. */
  lemma WaitEndIsSteps(w: World, db': Tables, j: nat, canceled: bool, ev: Evidence)
    returns (ws: seq<World>, acts: seq<Action>)
    requires CanAbort(w, j, canceled) || CanWaitRaise(w, j, canceled)
    requires WaitEndsTo(w.db, db', j, canceled, ev)
    requires Pausing(w.db, j) ==> Honest(DoWaitError(w, j, canceled), j, canceled, ev)
    ensures From(w, ws, acts) && ws[|acts|].db == db'
  {
    ws, acts := WaitErrorIsStep(w, j, canceled);
    WaitErrorStarts(w, j, canceled);
    if Pausing(w.db, j) {
      var ws1, acts1 := ReconciliationIsSteps(DoWaitError(w, j, canceled), db', j, canceled, ev);
      ws, acts := Then(w, ws, acts, ws1, acts1);
    }
  }

  // ------------------------------------------------------------------ clean-up retries

  /** The cluster's answers to a clean-up retry. */
  predicate CleanHonest(w: World, d: nat, ev: Evidence)
    requires d in w.db.deps
  {
    var row := w.db.deps[d];
    if row.origin == Some(Deploy) && row.vmid.Some? then Plausible(w, row.vmid, ev) && NextTask(w, ev)
    else Truthful(w, row.vmid, ev.presence)
  }

  /** The look-up and the commit of a retry. */
  lemma SightIsSteps(w: World, d: nat, c: CleanPhase, presence: Presence) returns (ws: seq<World>, acts: seq<Action>)
    requires d in w.cleaners && w.cleaners[d] == c && c.Looking? && Truthful(w, c.vmid, presence)
    ensures From(w, ws, acts)
    ensures
      var w' := ws[|acts|];
      d !in w'.cleaners && w'.db == CommitCleanup(w.db, d, c.vmid, c.origin, presence)
  {
    var w1 := DoCleanProbe(w, d, presence);
    var ws1, acts1 := OneStep(w, Cleaning(CleanProbe(d, presence)));
    var ws2, acts2 := OneStep(w1, Cleaning(CleanCommit(d)));
    ws, acts := Then(w, ws1, acts1, ws2, acts2);
  }

  lemma RetryEndIsStep(w: World, d: nat, hit: nat, newest: Option<nat>, ev: Evidence)
    returns (ws: seq<World>, acts: seq<Action>)
    requires CanCleanTear(w, d, Tear(hit, newest, End(ev.tear)))
    ensures From(w, ws, acts)
    ensures
      var w', c := ws[|acts|], w.cleaners[d];
      && w'.db == TornDown(w.db, hit, newest, ev.tear, None) && w'.vms == w.vms
      && w'.cleaners == if ev.tear == Unconfirmed then w.cleaners - {d} else w.cleaners[d := Looking(c.vmid, c.origin)]
  {
    ws, acts := OneStep(w, Cleaning(CleanDestroy(d, Tear(hit, newest, End(ev.tear)))));
  }

  lemma RetryIssueIsSteps(w: World, d: nat, hit: nat, newest: Option<nat>, ev: Evidence)
    returns (ws: seq<World>, acts: seq<Action>)
    requires d in w.cleaners && w.cleaners[d].Tearing? && w.cleaners[d].last.None? && w.cleaners[d].vmid.Some?
    requires Named(w.db, hit, w.cleaners[d].vmid) && Newest(w.db, hit, newest)
    requires ev.tear != Untouched
    ensures From(w, ws, acts)
    ensures
      var w1, c := ws[|acts|], w.cleaners[d];
      && CanCleanTear(w1, d, Tear(hit, newest, End(ev.tear)))
      && w1.db == TornDown(w.db, hit, newest, Untouched, Some(w.nextTask)) && w1.vms == w.vms
      && w1.cleaners == w.cleaners[d := Tearing(c.vmid, c.origin, Some(w.nextTask))]
  {
    var t := Issued(w, hit, newest);
    RecordedIsFound(w, w.cleaners[d].vmid, hit, newest, ev);
    ws, acts := OneStep(w, Cleaning(CleanDestroy(d, t)));
    var ws1, acts1 := StoppingIsSteps(DoCleanTear(w, d, t), w.nextTask, ev);
    ws, acts := Then(w, ws, acts, ws1, acts1);
  }

  lemma RetryDestroyIsSteps(w: World, torn: Tables, d: nat, c: CleanPhase, ev: Evidence)
    returns (ws: seq<World>, acts: seq<Action>)
    requires d in w.cleaners && w.cleaners[d] == c && c.Tearing? && c.last.None? && Named(w.db, d, c.vmid)
    requires TearsDown(w.db, torn, c.vmid, ev) && c.vmid.Some? && NextTask(w, ev)
    ensures From(w, ws, acts) && ws[|acts|].db == torn && ws[|acts|].vms == w.vms
    ensures ws[|acts|].cleaners
      == if ev.tear == Unconfirmed then w.cleaners - {d} else w.cleaners[d := Looking(c.vmid, c.origin)]
  {
    var hit, newest := TearOf(w, d, c.vmid, torn, ev);
    if ev.task.None? {
      ws, acts := RetryEndIsStep(w, d, hit, newest, ev);
    } else {
      TornInTwo(w.db, hit, newest, ev.tear, w.nextTask);
      ws, acts := RetryIssueIsSteps(w, d, hit, newest, ev);
      var ws1, acts1 := RetryEndIsStep(ws[|acts|], d, hit, newest, ev);
      ws, acts := Then(w, ws, acts, ws1, acts1);
    }
  }

  /** The destroy of a retry, and what follows it. */
  lemma RetryTearIsSteps(w: World, db': Tables, torn: Tables, d: nat, c: CleanPhase, ev: Evidence)
    returns (ws: seq<World>, acts: seq<Action>)
    requires d in w.cleaners && w.cleaners[d] == c && c.Tearing? && c.last.None? && Named(w.db, d, c.vmid)
    requires TearsDown(w.db, torn, c.vmid, ev) && Plausible(w, c.vmid, ev) && NextTask(w, ev)
    requires db' == (if ev.tear == Unconfirmed then torn else CommitCleanup(torn, d, c.vmid, c.origin, ev.presence))
    ensures From(w, ws, acts) && d !in ws[|acts|].cleaners && ws[|acts|].db == db'
  {
    ws, acts := RetryDestroyIsSteps(w, torn, d, c, ev);
    if ev.tear != Unconfirmed {
      var w1 := ws[|acts|];
      var ws1, acts1 := VacatedIsSteps(w1, c.vmid, ev);
      ws, acts := Then(w, ws, acts, ws1, acts1);
      var ws2, acts2 := SightIsSteps(Vacated(w1, c.vmid, ev), d, Looking(c.vmid, c.origin), ev.presence);
      ws, acts := Then(w, ws, acts, ws2, acts2);
    }
  }

  /** A clean-up retry between two jobs is a sequence of machine steps. */
  lemma CleanupIsSteps(w: World, db': Tables, d: nat, due: bool, ev: Evidence)
    returns (ws: seq<World>, acts: seq<Action>)
    requires MainIdle(w) && CleansTo(w.db, db', d, due, ev)
    requires d in w.db.deps ==> CleanHonest(w, d, ev)
    ensures From(w, ws, acts) && ws[|acts|].db == db' && d !in ws[|acts|].cleaners
  {
    if d !in w.db.deps || w.db.deps[d].status != CleanupPending || !due {
      ws, acts := [w], [];
    } else {
      var w1 := DoCleanBegin(w, d);
      ws, acts := OneStep(w, Cleaning(CleanBegin(d)));
      var c := w1.cleaners[d];
      var ws1, acts1;
      if c.Tearing? {
        var torn :| TearsDown(w.db, torn, c.vmid, ev)
          && db' == (if ev.tear == Unconfirmed then torn else CommitCleanup(torn, d, c.vmid, c.origin, ev.presence));
        ws1, acts1 := RetryTearIsSteps(w1, db', torn, d, c, ev);
      } else {
        ws1, acts1 := SightIsSteps(w1, d, c, ev.presence);
      }
      ws, acts := Then(w, ws, acts, ws1, acts1);
    }
  }

  // ------------------------------------------------------------------ restart

  /** The evidence for the `n`-th interrupted job, looked at on the tables the ones before it left. */
  predicate RecoveryHonest(w: World, ids: seq<nat>, evs: map<nat, Evidence>, n: nat)
    requires n < |ids| && forall j | j in ids :: j in evs
  {
    var db, j := Recovered(Interrupted(w.db), ids[..n], evs), ids[n];
    Honest(w.(db := db), j, false, evs[j])
  }

  /** After `n` of them: the tables, and the others still to be reconciled. */
  predicate RecoveredTo(w: World, w': World, ids: seq<nat>, evs: map<nat, Evidence>, n: nat)
    requires n <= |ids| && forall j | j in ids :: j in evs
  {
    && w'.db == Recovered(Interrupted(w.db), ids[..n], evs)
    && w'.vms == w.vms && w'.tasks == w.tasks && w'.nextTask == w.nextTask
    && (forall m | n <= m < |ids| :: Fresh(w', ids[m], false) && w'.recs[ids[m]].host == Aftermath)
  }

  ghost predicate Interrupts(w: World, ids: seq<nat>) {
    && (forall j :: j in ids <==> j in w.db.jobs && w.db.jobs[j].status == Running)
    && (forall a, b | 0 <= a < b < |ids| :: ids[a] != ids[b])
  }

  lemma RecoverStarts(w: World, ids: seq<nat>, evs: map<nat, Evidence>)
    requires Interrupts(w, ids) && forall j | j in ids :: j in evs
    ensures RecoveredTo(w, DoRecover(w), ids, evs, 0)
  {
    assert ids[..0] == [];
  }

  /** One more of the interrupted jobs. */
  lemma NextIsSteps(w: World, w1: World, ids: seq<nat>, evs: map<nat, Evidence>, n: nat)
    returns (ws: seq<World>, acts: seq<Action>)
    requires n < |ids| && (forall j | j in ids :: j in evs) && Interrupts(w, ids)
    requires RecoveredTo(w, w1, ids, evs, n) && RecoveryHonest(w, ids, evs, n)
    ensures From(w1, ws, acts) && RecoveredTo(w, ws[|acts|], ids, evs, n + 1)
  {
    var j := ids[n];
    ws, acts := FailedIsSteps(w1, j, evs[j]);
    var w2 := ws[|acts|];
    var ws1, acts1 := OneStep(w2, Reconcile(RecFinish(j)));
    ws, acts := Then(w1, ws, acts, ws1, acts1);
    assert ids[..n + 1][..n] == ids[..n];
  }

  /** Restart recovery, both halves, is a sequence of machine steps: the running jobs are failed in
      one of them, and reconciled one after the other in the rest. */
  lemma {:induction false} RecoveryIsSteps(w: World, ids: seq<nat>, evs: map<nat, Evidence>, n: nat)
    returns (ws: seq<World>, acts: seq<Action>)
    requires w.booting && Interrupts(w, ids) && n <= |ids| && forall j | j in ids :: j in evs
    requires forall m | 0 <= m < n :: RecoveryHonest(w, ids, evs, m)
    ensures From(w, ws, acts) && RecoveredTo(w, ws[|acts|], ids, evs, n)
  {
    if n == 0 {
      RecoverStarts(w, ids, evs);
      ws, acts := OneStep(w, Cluster(Recover));
    } else {
      ws, acts := RecoveryIsSteps(w, ids, evs, n - 1);
      var ws1, acts1 := NextIsSteps(w, ws[|acts|], ids, evs, n - 1);
      ws, acts := Then(w, ws, acts, ws1, acts1);
    }
  }

  /** A failed reconciliation leaves its own deployment in error, or dropped, and no other one
      is touched. */
  lemma FailedSettles(db: Tables, j: nat, ev: Evidence)
    requires j in db.jobs
    ensures
      var db', d := FailedResult(db, j, ev), db.jobs[j].dep;
      && db'.jobs == db.jobs
      && (d in db'.deps ==> d in db.deps && db'.deps[d].status == Error)
      && (forall e | e != d :: (e in db'.deps <==> e in db.deps) && (e in db.deps ==> db'.deps[e] == db.deps[e]))
  {
  }

  /** After recovery no job is running, and no deployment an interrupted job worked on is left
      in progress. */
  lemma {:induction false} RecoverySettles(db: Tables, ids: seq<nat>, evs: map<nat, Evidence>)
    requires forall j | j in ids :: j in evs && j in db.jobs
    ensures
      var db' := Recovered(Interrupted(db), ids, evs);
      && db'.jobs == Interrupted(db).jobs
      && (forall j | j in db'.jobs :: db'.jobs[j].status != Running)
      && (forall j | j in ids && db.jobs[j].dep in db'.deps :: db'.deps[db.jobs[j].dep].status == Error)
  {
    if ids != [] {
      var n := |ids| - 1;
      RecoverySettles(db, ids[..n], evs);
      var db1 := Recovered(Interrupted(db), ids[..n], evs);
      FailedSettles(db1, ids[n], evs[ids[n]]);
      assert ids == ids[..n] + [ids[n]];
    }
  }

  // ------------------------------------------------------------------ no routine orphans a VM

  lemma {:induction false} TraceKeepsOwn(w: World, ws: seq<World>, acts: seq<Action>, n: nat)
    requires Own(w) && From(w, ws, acts) && n <= |acts|
    ensures Own(ws[n])
  {
    if n > 0 {
      TraceKeepsOwn(w, ws, acts, n - 1);
      assert Step(ws[n - 1], acts[n - 1], ws[n]) && Unruled(acts[n - 1]);
      UnruledIsDisciplined(ws[n - 1], acts[n - 1]);
      OwnStep(ws[n - 1], acts[n - 1]);
    }
  }

  /** From a state in order every trace of steps without rule ends in order. */
  lemma TraceIsSafe(w: World, ws: seq<World>, acts: seq<Action>) returns (w': World)
    requires Own(w) && From(w, ws, acts)
    ensures w' == ws[|acts|] && Own(w') && NoOrphan(w')
  {
    w' := ws[|acts|];
    TraceKeepsOwn(w, ws, acts, |acts|);
    OwnMeansNoOrphan(w');
  }

  /** From a state in order, whatever the cluster truthfully answers, the tables that a cancelled
      reconciliation leaves name every VM that is still there; likewise the routines below. */
  lemma CanceledRoutineKeepsOwnership(w: World, db': Tables, j: nat, ev: Evidence) returns (w': World)
    requires Own(w) && Fresh(w, j, true) && Honest(w, j, true, ev) && CancelsTo(w.db, db', j, ev)
    ensures Own(w') && NoOrphan(w') && w'.db == db'
  {
    var ws, acts := CanceledIsSteps(w, db', j, ev);
    w' := TraceIsSafe(w, ws, acts);
  }

  lemma FailedRoutineKeepsOwnership(w: World, j: nat, ev: Evidence) returns (w': World)
    requires Own(w) && Fresh(w, j, false) && Honest(w, j, false, ev)
    ensures Own(w') && NoOrphan(w') && w'.db == FailedResult(w.db, j, ev)
  {
    var ws, acts := FailedIsSteps(w, j, ev);
    w' := TraceIsSafe(w, ws, acts);
  }

  lemma ExecutionKeepsOwnership(w: World, db': Tables, j: nat, canceled: bool, ev: Evidence) returns (w': World)
    requires Own(w) && CanRaise(w, j, canceled) && Honest(DoRaise(w, j, canceled), j, canceled, ev)
    requires EndsTo(GivenBack(w, j), db', j, canceled, ev)
    ensures Own(w') && NoOrphan(w') && w'.db == db'
  {
    var ws, acts := ExecutionIsSteps(w, db', j, canceled, ev);
    w' := TraceIsSafe(w, ws, acts);
  }

  lemma WaitEndKeepsOwnership(w: World, db': Tables, j: nat, canceled: bool, ev: Evidence) returns (w': World)
    requires Own(w) && (CanAbort(w, j, canceled) || CanWaitRaise(w, j, canceled))
    requires WaitEndsTo(w.db, db', j, canceled, ev)
    requires Pausing(w.db, j) ==> Honest(DoWaitError(w, j, canceled), j, canceled, ev)
    ensures Own(w') && NoOrphan(w') && w'.db == db'
  {
    var ws, acts := WaitEndIsSteps(w, db', j, canceled, ev);
    w' := TraceIsSafe(w, ws, acts);
  }

  lemma CleanupKeepsOwnership(w: World, db': Tables, d: nat, due: bool, ev: Evidence) returns (w': World)
    requires Own(w) && MainIdle(w) && CleansTo(w.db, db', d, due, ev)
    requires d in w.db.deps ==> CleanHonest(w, d, ev)
    ensures Own(w') && NoOrphan(w') && w'.db == db'
  {
    var ws, acts := CleanupIsSteps(w, db', d, due, ev);
    w' := TraceIsSafe(w, ws, acts);
  }

  lemma RecoveryKeepsOwnership(w: World, ids: seq<nat>, evs: map<nat, Evidence>) returns (w': World)
    requires Own(w) && w.booting && Interrupts(w, ids) && forall j | j in ids :: j in evs
    requires forall m | 0 <= m < |ids| :: RecoveryHonest(w, ids, evs, m)
    ensures Own(w') && NoOrphan(w') && w'.db == Recovered(Interrupted(w.db), ids, evs)
  {
    var ws, acts := RecoveryIsSteps(w, ids, evs, |ids|);
    assert ids[..|ids|] == ids;
    w' := TraceIsSafe(w, ws, acts);
  }
}
