/** The database as handlers and workers update it: in place, one routine at a time. */
module Store {
  import opened Rows
  import opened Machine

  /** What the cluster answered during one routine. */
  datatype Evidence = Evidence(
    settled: bool,               // the recorded task was reported stopped
    tear: TearDown,              // outcome of the best-effort destroy, and the task it submitted
    task: Option<nat>,
    presence: Presence,
    runtime: Option<DepStatus>)

  datatype Outcome = Completed | Deferred | Raised(canceled: bool)

  predicate FirstQueued(db: Tables, j: nat) {
    && j in db.jobs && db.jobs[j].status == Queued
    && forall k | k in db.jobs && db.jobs[k].status == Queued :: j <= k
  }

  predicate Named(db: Tables, d: nat, vmid: Option<nat>) {
    d in db.deps && db.deps[d].vmid == vmid
  }

  /** A failed job: check, look, commit. */
  function FailedResult(db: Tables, j: nat, ev: Evidence): Tables {
    match Check(db, j, ev.settled)
    case Halt(db') => db'
    case Proceed(v) => CommitFailed(db, j, v, ev.presence)
  }

  /** The destroy hit some row with this VMID, if there is one. */
  ghost predicate TearsDown(db: Tables, db': Tables, vmid: Option<nat>, ev: Evidence) {
    if vmid.None? || (forall d | d in db.deps :: !Named(db, d, vmid)) then db' == db
    else exists hit, newest :: Named(db, hit, vmid) && Newest(db, hit, newest)
                               && db' == TornDown(db, hit, newest, ev.tear, ev.task)
  }

  /** A destroy of a half-built VM, and the commit unless a task stayed unconfirmed. */
  ghost predicate TearsAndCommits(db: Tables, db': Tables, j: nat, v: Option<nat>, ev: Evidence) {
    exists torn :: TearsDown(db, torn, v, ev)
      && db' == (if ev.tear == Unconfirmed then torn else CommitCanceled(torn, j, v, ev.presence, ev.runtime))
  }

  /** A cancelled job: check, destroy a half-built VM, look, commit. */
  ghost predicate CancelsTo(db: Tables, db': Tables, j: nat, ev: Evidence) {
    match Check(db, j, ev.settled)
    case Halt(halted) => db' == halted
    case Proceed(v) =>
      if db.jobs[j].kind == Deploy && v.Some? then TearsAndCommits(db, db', j, v, ev)
      else db' == CommitCanceled(db, j, v, ev.presence, ev.runtime)
  }

  /** The reconciliation of a job that ended either way. */
  ghost predicate Reconciles(db: Tables, db': Tables, j: nat, canceled: bool, ev: Evidence) {
    if canceled then CancelsTo(db, db', j, ev) else db' == FailedResult(db, j, ev)
  }

  function Ending(canceled: bool): JobStatus {
    if canceled then Canceled else Failed
  }

  /** The end of a job that raised: running, reconciled, and only then its final status. */
  ghost predicate EndsTo(db: Tables, db': Tables, j: nat, canceled: bool, ev: Evidence) {
    exists r :: Reconciles(WithStatus(db, j, Running), r, j, canceled, ev) && db' == WithStatus(r, j, Ending(canceled))
  }

  /** The end of a waiting job: its final status first, the reconciliation second. */
  ghost predicate WaitEndsTo(db: Tables, db': Tables, j: nat, canceled: bool, ev: Evidence) {
    if j !in db.jobs || (db.jobs[j].status != Waiting && db.jobs[j].status != Running) then db' == db
    else Reconciles(WithStatus(db, j, Ending(canceled)), db', j, canceled, ev)
  }

  /** A claim: the job runs, or ends at once and is reconciled. */
  ghost predicate ClaimsTo(db: Tables, db': Tables, j: nat, disabled: bool, ev: Evidence)
    requires j in db.jobs
  {
    if db.jobs[j].cancelRequested || disabled then
      var canceled := db.jobs[j].cancelRequested;
      Reconciles(WithStatus(db, j, Ending(canceled)), db', j, canceled, ev)
    else db' == WithStatus(db, j, Running)
  }

  ghost predicate CleansTo(db: Tables, db': Tables, d: nat, due: bool, ev: Evidence) {
    if d !in db.deps || db.deps[d].status != CleanupPending || !due then db' == db
    else
      var vmid, origin := db.deps[d].vmid, db.deps[d].origin;
      if origin == Some(Deploy) && vmid.Some? then
        exists torn :: TearsDown(db, torn, vmid, ev)
          && db' == (if ev.tear == Unconfirmed then torn else CommitCleanup(torn, d, vmid, origin, ev.presence))
      else db' == CommitCleanup(db, d, vmid, origin, ev.presence)
  }

  /** Restart, second half: the interrupted jobs are reconciled one after the other. */
  function Recovered(db: Tables, ids: seq<nat>, evs: map<nat, Evidence>): Tables
    requires forall j | j in ids :: j in evs
  {
    if ids == [] then db else FailedResult(Recovered(db, ids[..|ids| - 1], evs), ids[|ids| - 1], evs[ids[|ids| - 1]])
  }

  /** The answer of a handler: accepted with a job id, or the refusal. */
  datatype Reply =
    | Queueing(job: nat)
    | AlreadyQueued(job: nat)
    | NotFound
    | IdentityUnconfirmed
    | CleanupIsPending
    | Busy(kind: Kind)
    | SourceDisabled
    | QuotaReached
    | NotProvisioned
    | Unprepared
    | StillPresent
    | Unverified
    | SourceMissing
    | Located
    | Committed

  /** What a handler finds outside the three tables: the source is switched off, the user has
      reached the quota of active jobs, or the job's plan cannot be had. */
  datatype Obstacles = Obstacles(disabled: bool, crowded: bool, planless: bool)

  /** The refusal on account of an active job; the same destroy is not queued twice. */
  ghost predicate TurnedDown(db: Tables, d: nat, kind: Kind, r: Reply) {
    exists j :: ActiveFor(db, d, j)
      && r == if kind == Destroy && db.jobs[j].kind == Destroy then AlreadyQueued(j) else Busy(db.jobs[j].kind)
  }

  /** The guards of a lifecycle request, in the order in which each handler tries them. */
  ghost predicate Answered(db: Tables, d: nat, kind: Kind, o: Obstacles, r: Reply) {
    if d !in db.deps then r == NotFound
    else if db.deps[d].identity == Submitting then r == IdentityUnconfirmed
    else if db.deps[d].status == CleanupPending then r == CleanupIsPending
    else if kind == Destroy then
      if o.disabled then r == SourceDisabled
      else if HasActive(db, d) then TurnedDown(db, d, kind, r)
      else r.Queueing?
    else if HasActive(db, d) then TurnedDown(db, d, kind, r)
    else if kind == Configure then
      if db.deps[d].vmid.None? then r == NotProvisioned
      else if o.disabled then r == SourceDisabled
      else if o.planless || db.deps[d].identity == Rejected then r == Unprepared
      else if o.crowded then r == QuotaReached
      else r.Queueing?
    else
      if o.crowded then r == QuotaReached
      else if o.disabled then r == SourceDisabled
      else if o.planless then r == Unprepared
      else r.Queueing?
  }

  predicate Retryable(db: Tables, d: nat) {
    d in db.deps && db.deps[d].identity != Submitting && !HasActive(db, d)
  }

  /** What the confirmation handler is called with and finds outside the tables: the connection of the
      deployment, whether the VM is listed, whether the user confirms or only looks, and whether the
      recorded task was seen stopped. */
  datatype Visit = Visit(source: Source, visible: bool, confirms: bool, settled: bool)

  datatype Source = NoSource | SwitchedOff | SwitchedOn

  /** A confirmation that gets past the look at the cluster has to settle a recorded task if there is
      something in doubt. */
  predicate Unsettled(db: Tables, d: nat, newest: Option<nat>, o: Visit) {
    && Uncertain(db, d, newest) && newest.Some? && newest.value in db.jobs
    && db.jobs[newest.value].task.Some? && !o.settled
  }

  predicate Confirmable(db: Tables, d: nat, newest: Option<nat>, o: Visit) {
    && d in db.deps && !HasActive(db, d) && o.source == SwitchedOn && db.deps[d].vmid.Some? && o.visible
    && o.confirms && !Unsettled(db, d, newest, o)
  }

  /** The answer of the confirmation handler: the first of its guards that applies. */
  ghost predicate Visited(db: Tables, d: nat, newest: Option<nat>, o: Visit, r: Reply) {
    if d !in db.deps then r == NotFound
    else if HasActive(db, d) then exists j :: ActiveFor(db, d, j) && r == Busy(db.jobs[j].kind)
    else if o.source == NoSource then r == SourceMissing
    else if o.source == SwitchedOff then r == SourceDisabled
    else if db.deps[d].vmid.None? || !o.visible then r == NotProvisioned
    else if !o.confirms then r == if Uncertain(db, d, newest) then Unverified else Located
    else if Unsettled(db, d, newest, o) then r == IdentityUnconfirmed
    else r == Committed
  }

  /** The newest active job of `d`. */
  predicate ActiveFor(db: Tables, d: nat, j: nat) {
    && j in db.jobs && db.jobs[j].dep == d && Active(db.jobs[j].status)
    && forall k | k in db.jobs && db.jobs[k].dep == d && Active(db.jobs[k].status) :: k <= j
  }

  class Database {
    var jobs: map<nat, Job>
    var deps: map<nat, Deployment>
    var leases: set<nat>
    var nextJob: nat    // row ids are handed out in order and never reused
    var nextDep: nat

    constructor ()
      ensures Rows() == Tables(map[], map[], {}) && nextJob == 0 && nextDep == 0
    {
      jobs, deps, leases, nextJob, nextDep := map[], map[], {}, 0, 0;
    }

    function Rows(): Tables
      reads this
    {
      Tables(jobs, deps, leases)
    }

    // ---------------------------------------------------------------- look-ups

    method OldestQueued() returns (first: Option<nat>)
      ensures first.Some? ==> FirstQueued(Rows(), first.value)
      ensures first.None? ==> forall j | j in jobs :: jobs[j].status != Queued
    {
      first := None;
      var left := jobs.Keys;
      while left != {}
        invariant left <= jobs.Keys
        invariant first.None? ==> forall j | j in jobs && j !in left :: jobs[j].status != Queued
        invariant first.Some? ==>
          && first.value in jobs && jobs[first.value].status == Queued
          && forall k | k in jobs && k !in left && jobs[k].status == Queued :: first.value <= k
        decreases left
      {
        var j :| j in left;
        left := left - {j};
        if jobs[j].status == Queued && (first.None? || j < first.value) {
          first := Some(j);
        }
      }
    }

    method RowOf(vmid: nat) returns (hit: Option<nat>)
      ensures hit.Some? ==> Named(Rows(), hit.value, Some(vmid))
      ensures hit.None? ==> forall d | d in deps :: !Named(Rows(), d, Some(vmid))
    {
      hit := None;
      var left := deps.Keys;
      while left != {}
        invariant left <= deps.Keys
        invariant hit.None? ==> forall d | d in deps && d !in left :: deps[d].vmid != Some(vmid)
        invariant hit.Some? ==> hit.value in deps && deps[hit.value].vmid == Some(vmid)
        decreases left
      {
        var d :| d in left;
        left := left - {d};
        if deps[d].vmid == Some(vmid) {
          hit := Some(d);
        }
      }
    }

    method NewestJob(d: nat) returns (newest: Option<nat>)
      ensures Newest(Rows(), d, newest)
    {
      newest := None;
      var left := jobs.Keys;
      while left != {}
        invariant left <= jobs.Keys
        invariant newest.None? ==> forall j | j in jobs && j !in left :: jobs[j].dep != d
        invariant newest.Some? ==>
          && newest.value in jobs && jobs[newest.value].dep == d
          && forall j | j in jobs && j !in left && jobs[j].dep == d :: j <= newest.value
        decreases left
      {
        var j :| j in left;
        left := left - {j};
        if jobs[j].dep == d && (newest.None? || newest.value < j) {
          newest := Some(j);
        }
      }
    }

    method ActiveJob(d: nat) returns (active: Option<nat>)
      ensures active.None? <==> !HasActive(Rows(), d)
      ensures active.Some? ==> ActiveFor(Rows(), d, active.value)
    {
      active := None;
      var left := jobs.Keys;
      while left != {}
        invariant left <= jobs.Keys
        invariant active.None? ==> forall j | j in jobs && j !in left :: !(jobs[j].dep == d && Active(jobs[j].status))
        invariant active.Some? ==>
          && active.value in jobs && jobs[active.value].dep == d && Active(jobs[active.value].status)
          && forall j | j in jobs && j !in left && jobs[j].dep == d && Active(jobs[j].status) :: j <= active.value
        decreases left
      {
        var j :| j in left;
        left := left - {j};
        if jobs[j].dep == d && Active(jobs[j].status) && (active.None? || active.value < j) {
          active := Some(j);
        }
      }
    }

    // ---------------------------------------------------------------- handlers

    method AdmitDeploy(lease: bool) returns (d: nat, j: nat)
      modifies this
      ensures d == old(nextDep) && j == old(nextJob) && nextDep == d + 1 && nextJob == j + 1
      ensures Rows() == Opened(old(Rows()), j, d, lease)
    {
      d, j := nextDep, nextJob;
      deps := deps[d := Deployment(Working, None, Unsubmitted, None)];
      if lease {
        leases := leases + {d};
      }
      jobs := jobs[j := NewRow(Deploy, d)];
      nextDep, nextJob := nextDep + 1, nextJob + 1;
    }

    /** Rebuild, destroy and configuration retry. */
    method AdmitRequest(d: nat, kind: Kind, o: Obstacles) returns (r: Reply)
      modifies this
      ensures Answered(old(Rows()), d, kind, o, r)
      ensures r.Queueing? ==>
        && r.job == old(nextJob) && nextJob == old(nextJob) + 1
        && Rows() == Requested(old(Rows()), r.job, d, kind)
      ensures !r.Queueing? ==> Rows() == old(Rows()) && nextJob == old(nextJob)
      ensures nextDep == old(nextDep)
    {
      if d !in deps {
        return NotFound;
      }
      var row := deps[d];
      if row.identity == Submitting {
        return IdentityUnconfirmed;
      }
      if row.status == CleanupPending {
        return CleanupIsPending;
      }
      if kind == Destroy && o.disabled {
        return SourceDisabled;
      }
      var active := ActiveJob(d);
      if active.Some? {
        return if kind == Destroy && jobs[active.value].kind == Destroy then AlreadyQueued(active.value)
               else Busy(jobs[active.value].kind);
      }
      if kind == Configure {
        if row.vmid.None? {
          return NotProvisioned;
        }
        if o.disabled {
          return SourceDisabled;
        }
        if o.planless || row.identity == Rejected {
          return Unprepared;
        }
        if o.crowded {
          return QuotaReached;
        }
      } else if kind != Destroy {
        if o.crowded {
          return QuotaReached;
        }
        if o.disabled {
          return SourceDisabled;
        }
        if o.planless {
          return Unprepared;
        }
      }
      r := Queueing(nextJob);
      if kind != Configure {
        row := row.(origin := None);
      }
      deps := deps[d := row.(status := Working)];
      jobs := jobs[nextJob := NewRow(kind, d)];
      nextJob := nextJob + 1;
    }

    /** A clean-up retry asked for by the operator: the pending mark is lifted, then a destroy is
        requested; a refusal rolls the mark back. */
    method AdmitRetry(d: nat, o: Obstacles) returns (r: Reply)
      modifies this
      ensures r.Queueing? <==> Retryable(old(Rows()), d) && !o.disabled
      ensures r.Queueing? ==> r.job == old(nextJob) && Rows() == Requested(old(Rows()), r.job, d, Destroy)
      ensures !r.Queueing? ==> Rows() == old(Rows())
    {
      if d !in deps {
        return NotFound;
      }
      if deps[d].identity == Submitting {
        return IdentityUnconfirmed;
      }
      var active := ActiveJob(d);
      if active.Some? {
        return Busy(jobs[active.value].kind);
      }
      ghost var before := Rows();
      var row := deps[d];
      if row.status == CleanupPending {
        deps := deps[d := row.(status := Error)];
      }
      assert HasActive(Rows(), d) == HasActive(before, d);
      r := AdmitRequest(d, Destroy, o);
      if !r.Queueing? {
        deps := deps[d := row];
      }
      assert Rows().deps == if r.Queueing? then Requested(before, r.job, d, Destroy).deps else before.deps;
    }

    /** The operator looks for the VM, or confirms that the one listed is the deployment's own. */
    method ConfirmVm(d: nat, o: Visit) returns (r: Reply, ghost newest: Option<nat>)
      modifies this
      ensures Newest(old(Rows()), d, newest)
      ensures Visited(old(Rows()), d, newest, o, r)
      ensures r == Committed <==> Confirmable(old(Rows()), d, newest, o)
      ensures r == Committed ==> Rows() == Confirmed(old(Rows()), d, newest)
      ensures r != Committed ==> Rows() == old(Rows())
    {
      var last := NewestJob(d);
      newest := last;
      if d !in deps {
        return NotFound, newest;
      }
      var active := ActiveJob(d);
      if active.Some? {
        return Busy(jobs[active.value].kind), newest;
      }
      if o.source == NoSource {
        return SourceMissing, newest;
      }
      if o.source == SwitchedOff {
        return SourceDisabled, newest;
      }
      if deps[d].vmid.None? || !o.visible {
        return NotProvisioned, newest;
      }
      var doubt := deps[d].identity == Submitting || (last.Some? && jobs[last.value].create == Submitting);
      if !o.confirms {
        return if doubt then Unverified else Located, newest;
      }
      var row := deps[d];
      if doubt {
        if last.Some? && jobs[last.value].task.Some? && !o.settled {
          return IdentityUnconfirmed, newest;
        }
        if last.Some? {
          jobs := jobs[last.value := jobs[last.value].(create := Accepted)];
        }
        row := row.(identity := Accepted);
      }
      if row.status == CleanupPending {
        row := row.(status := Error, origin := None);
      }
      deps := deps[d := row];
      r := Committed;
    }

    /** Local-only clean-up; without evidence only for an administrator who acknowledges the risk. */
    method CleanUpLocally(d: nat, presence: Presence, admin: bool, acknowledged: bool) returns (r: Reply)
      modifies this
      ensures r == Committed <==>
        && d in old(deps) && !HasActive(old(Rows()), d)
        && (presence == Absent || (presence == Unknown && admin && acknowledged))
      ensures Rows() == if r == Committed then Drop(old(Rows()), d) else old(Rows())
    {
      if d !in deps {
        return NotFound;
      }
      var active := ActiveJob(d);
      if active.Some? {
        return Busy(jobs[active.value].kind);
      }
      if presence == Present {
        return StillPresent;
      }
      if presence == Unknown && (!admin || !acknowledged) {
        return Unverified;
      }
      leases := leases - {d};
      deps := deps - {d};
      r := Committed;
    }

    // ---------------------------------------------------------------- single transactions

    method DropIfSame(d: nat, vmid: Option<nat>, required: Option<DepStatus>)
      modifies this
      ensures Rows() == DropIfMatches(old(Rows()), d, vmid, required)
    {
      if d !in deps || deps[d].vmid != vmid || (required.Some? && deps[d].status != required.value) {
        return;
      }
      leases := leases - {d};
      deps := deps - {d};
    }

    /** Undo a local choice of VMID that the cluster never accepted. */
    method ClearSelectedVmid(d: nat, vmid: Option<nat>)
      modifies this
      ensures Rows() == ClearVmid(old(Rows()), d, vmid)
    {
      if d in deps && deps[d].vmid == vmid {
        deps := deps[d := deps[d].(vmid := None)];
      }
    }

    method SetDepStatus(d: nat, status: DepStatus, expected: Option<nat>, origin: Option<Kind>)
      modifies this
      ensures Rows() == SetStatus(old(Rows()), d, status, expected, origin)
    {
      if d in deps && deps[d].vmid == expected {
        var row := deps[d];
        if status == CleanupPending {
          if origin == Some(Deploy) || origin == Some(Destroy) {
            row := row.(origin := origin);
          }
        } else {
          row := row.(origin := None);
        }
        deps := deps[d := row.(status := status)];
      }
    }

    /** The create state goes to the job and through to its deployment. */
    method RecordCreation(j: nat, state: Identity)
      modifies this
      ensures Rows() == Creation(old(Rows()), j, state)
    {
      if j in jobs {
        jobs := jobs[j := jobs[j].(create := state)];
        var d := jobs[j].dep;
        if d in deps {
          deps := deps[d := deps[d].(identity := state)];
        }
      }
    }

    method RecordTask(j: nat, task: nat)
      modifies this
      ensures Rows() == Remote(old(Rows()), j, task)
    {
      if j in jobs {
        jobs := jobs[j := jobs[j].(task := Some(task))];
      }
    }

    method SetJobStatus(j: nat, status: JobStatus)
      modifies this
      ensures Rows() == WithStatus(old(Rows()), j, status)
    {
      if j in jobs {
        jobs := jobs[j := jobs[j].(status := status)];
      }
    }

    // ---------------------------------------------------------------- reconciliation

    method BestEffortDestroy(vmid: Option<nat>, ev: Evidence)
      modifies this
      ensures TearsDown(old(Rows()), Rows(), vmid, ev)
    {
      if vmid.None? {
        return;
      }
      var hit := RowOf(vmid.value);
      if hit.None? {
        return;
      }
      var newest := NewestJob(hit.value);
      ghost var db := Rows();
      if ev.task.Some? && newest.Some? {
        RecordTask(newest.value, ev.task.value);
      }
      if ev.tear == Unconfirmed {
        deps := deps[hit.value := deps[hit.value].(identity := Submitting, status := Error)];
      }
      assert Named(db, hit.value, vmid) && Newest(db, hit.value, newest)
             && Rows() == TornDown(db, hit.value, newest, ev.tear, ev.task);
    }

    /** Stop on an unsettled task or a lost create response. */
    method RetainUncertain(j: nat, settled: bool) returns (go: bool)
      modifies this
      ensures go ==> Rows() == old(Rows()) && j in jobs && jobs[j].dep in deps
      ensures Check(old(Rows()), j, settled) == if go then Proceed(deps[jobs[j].dep].vmid) else Halt(Rows())
    {
      if j !in jobs || jobs[j].dep !in deps {
        return false;
      }
      var d := jobs[j].dep;
      if jobs[j].task.Some? && !settled {
        deps := deps[d := deps[d].(identity := Submitting, status := Error)];
        return false;
      }
      if deps[d].identity == Submitting || jobs[j].create == Submitting {
        deps := deps[d := deps[d].(status := Error)];
        return false;
      }
      return true;
    }

    method ReconcileFailedJob(j: nat, ev: Evidence)
      modifies this
      ensures Rows() == FailedResult(old(Rows()), j, ev)
    {
      var go := RetainUncertain(j, ev.settled);
      if !go {
        return;
      }
      var kind, d := jobs[j].kind, jobs[j].dep;
      var vmid := deps[d].vmid;
      if ev.presence == Absent && kind == Destroy {
        DropIfSame(d, vmid, None);
        return;
      }
      deps := deps[d := deps[d].(status := Error, origin := None)];
      if kind == Deploy && ev.presence == Absent {
        leases := leases - {d};
      }
    }

    method ReconcileCanceledJob(j: nat, ev: Evidence)
      modifies this
      ensures CancelsTo(old(Rows()), Rows(), j, ev)
    {
      ghost var db := Rows();
      var go := RetainUncertain(j, ev.settled);
      if !go {
        return;
      }
      var kind, d, created := jobs[j].kind, jobs[j].dep, jobs[j].create;
      var vmid := deps[d].vmid;
      if kind == Deploy && vmid.Some? {
        BestEffortDestroy(vmid, ev);
        TearKeepsJobs(db, Rows(), vmid, ev, j);
        if ev.tear == Unconfirmed {
          return;
        }
      }
      ghost var torn := Rows();
      if ev.presence == Absent {
        if kind == Deploy || kind == Destroy {
          DropIfSame(d, vmid, None);
        } else {
          SetDepStatus(d, Error, vmid, None);
        }
      } else if kind == Rebuild && created == Accepted {
        SetDepStatus(d, Error, vmid, None);
      } else if ev.presence == Present && (kind == Rebuild || kind == Destroy) {
        SetDepStatus(d, if ev.runtime.Some? then ev.runtime.value else Error, vmid, None);
      } else if kind == Deploy || kind == Destroy {
        SetDepStatus(d, CleanupPending, vmid, Some(kind));
      } else {
        SetDepStatus(d, Error, vmid, None);
      }
      assert Rows() == CommitCanceled(torn, j, vmid, ev.presence, ev.runtime);
    }

    /** `due`: a minute has passed since the last attempt on this deployment. */
    method RetryCleanupDeployment(d: nat, due: bool, ev: Evidence)
      modifies this
      ensures CleansTo(old(Rows()), Rows(), d, due, ev)
    {
      if d !in deps || deps[d].status != CleanupPending || !due {
        return;
      }
      var vmid, origin := deps[d].vmid, deps[d].origin;
      if origin == Some(Deploy) && vmid.Some? {
        BestEffortDestroy(vmid, ev);
        if ev.tear == Unconfirmed {
          return;
        }
      }
      if ev.presence == Absent {
        DropIfSame(d, vmid, Some(CleanupPending));
      } else if ev.presence == Present && origin == Some(Destroy) {
        SetDepStatus(d, Stopped, vmid, None);
      } else {
        SetDepStatus(d, CleanupPending, vmid, None);
      }
    }

    // ---------------------------------------------------------------- the job worker

    /** `disabled` are the queued jobs whose source was switched off. */
    method ClaimNextJob(disabled: set<nat>, ev: Evidence) returns (claimed: Option<nat>, ghost seen: Option<nat>)
      modifies this
      ensures seen.None? ==> claimed.None? && Rows() == old(Rows()) && forall j | j in jobs :: jobs[j].status != Queued
      ensures seen.Some? ==>
        var db, j := old(Rows()), seen.value;
        && FirstQueued(db, j)
        && (claimed == if db.jobs[j].cancelRequested || j in disabled then None else seen)
        && ClaimsTo(db, Rows(), j, j in disabled, ev)
    {
      claimed := None;
      var first := OldestQueued();
      seen := first;
      if first.None? {
        return;
      }
      var j := first.value;
      if jobs[j].cancelRequested {
        SetJobStatus(j, Canceled);
        ReconcileCanceledJob(j, ev);
      } else if j in disabled {
        SetJobStatus(j, Failed);
        ReconcileFailedJob(j, ev);
      } else {
        SetJobStatus(j, Running);
        claimed := Some(j);
      }
    }

    /** The job stays active until its reconciliation is through. */
    method Execute(j: nat, outcome: Outcome, ev: Evidence)
      modifies this
      ensures outcome == Completed ==> Rows() == WithStatus(old(Rows()), j, Succeeded)
      ensures outcome == Deferred ==> Rows() == old(Rows())
      ensures outcome.Raised? ==> EndsTo(old(Rows()), Rows(), j, outcome.canceled, ev)
    {
      match outcome {
        case Completed => SetJobStatus(j, Succeeded);
        case Deferred =>
        case Raised(canceled) =>
          SetJobStatus(j, Running);
          if canceled {
            ReconcileCanceledJob(j, ev);
          } else {
            ReconcileFailedJob(j, ev);
          }
          ghost var db := Rows();
          SetJobStatus(j, Ending(canceled));
          assert Rows() == WithStatus(db, j, Ending(canceled));
      }
    }

    /** The terminal status comes first, the reconciliation second. */
    method FinishWaitingError(j: nat, canceled: bool, ev: Evidence)
      modifies this
      ensures WaitEndsTo(old(Rows()), Rows(), j, canceled, ev)
    {
      if j !in jobs || (jobs[j].status != Waiting && jobs[j].status != Running) {
        return;
      }
      SetJobStatus(j, Ending(canceled));
      if canceled {
        ReconcileCanceledJob(j, ev);
      } else {
        ReconcileFailedJob(j, ev);
      }
    }

    method InterruptRunning() returns (ids: seq<nat>)
      modifies this
      ensures Rows() == Interrupted(old(Rows()))
      ensures forall j :: j in ids <==> j in old(jobs) && old(jobs)[j].status == Running
      ensures forall a, b | 0 <= a < b < |ids| :: ids[a] != ids[b]
    {
      ids := [];
      var left := jobs.Keys;
      ghost var was := Rows();
      while left != {}
        invariant left <= was.jobs.Keys && jobs.Keys == was.jobs.Keys
        invariant deps == was.deps && leases == was.leases
        invariant forall j | j in was.jobs ::
          jobs[j] == if j !in left && was.jobs[j].status == Running then was.jobs[j].(status := Failed) else was.jobs[j]
        invariant forall j :: j in ids <==> j in was.jobs && j !in left && was.jobs[j].status == Running
        invariant forall a, b | 0 <= a < b < |ids| :: ids[a] != ids[b]
        decreases left
      {
        var j :| j in left;
        left := left - {j};
        if jobs[j].status == Running {
          jobs := jobs[j := jobs[j].(status := Failed)];
          ids := ids + [j];
        }
      }
      assert jobs == Interrupted(was).jobs;
    }

    method RecoverOrphans(evs: map<nat, Evidence>) returns (ids: seq<nat>)
      requires forall j | j in jobs && jobs[j].status == Running :: j in evs
      modifies this
      ensures forall j :: j in ids <==> j in old(jobs) && old(jobs)[j].status == Running
      ensures Rows() == Recovered(Interrupted(old(Rows())), ids, evs)
    {
      ids := InterruptRunning();
      ghost var db := Rows();
      var i := 0;
      while i < |ids|
        invariant 0 <= i <= |ids|
        invariant Rows() == Recovered(db, ids[..i], evs)
      {
        ReconcileFailedJob(ids[i], evs[ids[i]]);
        i := i + 1;
        assert ids[..i][..i - 1] == ids[..i - 1];
      }
      assert ids[..|ids|] == ids;
    }
  }

  lemma TearKeepsJobs(db: Tables, db': Tables, vmid: Option<nat>, ev: Evidence, j: nat)
    requires TearsDown(db, db', vmid, ev) && j in db.jobs
    ensures j in db'.jobs && db'.jobs[j] == db.jobs[j].(task := db'.jobs[j].task)
  {
  }

  // ------------------------------------------------------------------ handlers are machine steps

  /** What a handler lets through the machine admits, and to the same tables; and without
      obstacles outside the tables that is all that the machine admits. */
  lemma RequestIsAdmission(w: World, d: nat, kind: Kind, o: Obstacles, r: Reply)
    requires Answered(w.db, d, kind, o, r) && kind != Deploy && d !in w.cleaners
    ensures r.Queueing? ==> CanAdmit(w, d, kind) && DoAdmit(w, d, kind).db == Requested(w.db, w.nextJob, d, kind)
    ensures CanAdmit(w, d, kind) && o == Obstacles(false, false, false) ==> r.Queueing?
  {
  }

  /** When a request is queued, in so many words. */
  lemma RequestIsQueuedIff(db: Tables, d: nat, kind: Kind, o: Obstacles, r: Reply)
    requires Answered(db, d, kind, o, r)
    ensures r.Queueing? <==>
      && d in db.deps && Idle(db, d) && db.deps[d].identity != Submitting && db.deps[d].status != CleanupPending
      && !o.disabled && (kind != Destroy ==> !o.crowded && !o.planless)
      && (kind == Configure ==> db.deps[d].vmid != None && db.deps[d].identity != Rejected)
    ensures r.AlreadyQueued? ==>
      && kind == Destroy && r.job in db.jobs && db.jobs[r.job].dep == d && db.jobs[r.job].kind == Destroy
      && db.jobs[r.job].status in {Queued, Running, Waiting}
  {
    IdleIff(db, d);
  }

  lemma RetryIsAdmission(w: World, d: nat)
    requires d !in w.cleaners
    ensures Retryable(w.db, d) <==> CanRetryCleanup(w, d)
    ensures CanRetryCleanup(w, d) ==>
      HttpApply(w, RetryCleanup(d)).db == Requested(w.db, w.nextJob, d, Destroy)
  {
  }

  /** What the handler sees of the cluster is true; then it confirms only what the machine lets it
      confirm, and all of that if it sees everything. */
  lemma ConfirmationIsStep(w: World, d: nat, newest: Option<nat>, o: Visit)
    requires Newest(w.db, d, newest) && d !in w.cleaners
    requires o.visible ==> d in w.db.deps && w.db.deps[d].vmid.Some? && w.db.deps[d].vmid.value in w.vms
    requires o.settled && newest.Some? ==> SettledTask(w, newest.value)
    ensures Confirmable(w.db, d, newest, o) ==>
      CanConfirm(w, d, newest) && DoConfirm(w, d, newest).db == Confirmed(w.db, d, newest)
    ensures CanConfirm(w, d, newest) && o == Visit(SwitchedOn, true, true, true) ==> Confirmable(w.db, d, newest, o)
  {
  }

  lemma LocalCleanupIsStep(w: World, d: nat, presence: Presence)
    requires d !in w.cleaners && (d in w.db.deps ==> Truthful(w, w.db.deps[d].vmid, presence))
    ensures d in w.db.deps && !HasActive(w.db, d) && presence == Absent ==>
      CanLocalCleanup(w, d) && DoLocalCleanup(w, d).db == Drop(w.db, d)
    ensures CanLocalCleanup(w, d) && presence != Unknown ==> presence == Absent
  {
  }
}
