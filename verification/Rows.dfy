/** The three tables the lifecycle protocol is kept in, and the row updates the worker
    and the HTTP handlers commit to them.  Every function here is one transaction. */
module Rows {
  datatype Option<+T> = None | Some(value: T)

  datatype Kind = Deploy | Rebuild | Destroy | Configure

  datatype JobStatus = Queued | Running | Waiting | Succeeded | Failed | Canceled

  /** What is known of the create request of a job, or of the identity of a deployment. */
  datatype Identity = Unsubmitted | Submitting | Accepted | Rejected

  datatype DepStatus = Up | Stopped | Working | Error | CleanupPending

  /** The tri-state answer of the inventory probe. */
  datatype Presence = Present | Absent | Unknown

  datatype Job = Job(
    kind: Kind, dep: nat, status: JobStatus, cancelRequested: bool,
    create: Identity, task: Option<nat>)

  datatype Deployment = Deployment(
    status: DepStatus, vmid: Option<nat>, identity: Identity, origin: Option<Kind>)

  /** `leases` holds the deployments that own a static-address reservation. */
  datatype Tables = Tables(jobs: map<nat, Job>, deps: map<nat, Deployment>, leases: set<nat>)

  predicate Active(s: JobStatus) {
    s == Queued || s == Running || s == Waiting
  }

  predicate Terminal(s: JobStatus) {
    !Active(s)
  }

  /** The lifecycle guard: some queued, running or waiting job works on deployment `d`. */
  predicate HasActive(db: Tables, d: nat) {
    exists j | j in db.jobs :: db.jobs[j].dep == d && Active(db.jobs[j].status)
  }

  /** All jobs of the deployment are over. */
  predicate Idle(db: Tables, d: nat) {
    forall j | j in db.jobs && db.jobs[j].dep == d ::
      db.jobs[j].status == Succeeded || db.jobs[j].status == Failed || db.jobs[j].status == Canceled
  }

  lemma IdleIff(db: Tables, d: nat)
    ensures Idle(db, d) <==> !HasActive(db, d)
  {
  }

  /** `k` is the newest job of deployment `d` (`None` when its history was pruned). */
  predicate Newest(db: Tables, d: nat, k: Option<nat>) {
    match k
    case None => forall j | j in db.jobs :: db.jobs[j].dep != d
    case Some(n) =>
      && n in db.jobs && db.jobs[n].dep == d
      && forall j | j in db.jobs && db.jobs[j].dep == d :: j <= n
  }

  lemma {:induction false} Greatest(js: set<nat>) returns (k: nat)
    requires js != {}
    ensures k in js && forall j | j in js :: j <= k
    decreases js
  {
    k :| k in js;
    var rest := js - {k};
    if rest != {} {
      var n := Greatest(rest);
      k := if n < k then k else n;
    }
    forall j | j in js ensures j <= k {
      assert j in rest || j !in rest;
    }
  }

  /** Each deployment has a newest job, or none. */
  lemma SomeNewest(db: Tables, d: nat) returns (k: Option<nat>)
    ensures Newest(db, d, k)
  {
    var js := set j | j in db.jobs && db.jobs[j].dep == d;
    assert forall j | j in db.jobs && db.jobs[j].dep == d :: j in js;
    if js == {} {
      k := None;
    } else {
      var n := Greatest(js);
      k := Some(n);
    }
  }

  function WithJob(db: Tables, j: nat, row: Job): Tables {
    db.(jobs := db.jobs[j := row])
  }

  function WithDep(db: Tables, d: nat, row: Deployment): Tables {
    db.(deps := db.deps[d := row])
  }

  function WithStatus(db: Tables, j: nat, s: JobStatus): Tables {
    if j in db.jobs then WithJob(db, j, db.jobs[j].(status := s)) else db
  }

  /** Write the create state of job `j` through to the deployment it works on. */
  function Creation(db: Tables, j: nat, state: Identity): Tables {
    if j !in db.jobs then db else
    var db' := WithJob(db, j, db.jobs[j].(create := state));
    var d := db.jobs[j].dep;
    if d in db.deps then WithDep(db', d, db.deps[d].(identity := state)) else db'
  }

  function Remote(db: Tables, j: nat, t: nat): Tables {
    if j in db.jobs then WithJob(db, j, db.jobs[j].(task := Some(t))) else db
  }

  function ClearVmid(db: Tables, d: nat, vmid: Option<nat>): Tables {
    if d in db.deps && db.deps[d].vmid == vmid
    then WithDep(db, d, db.deps[d].(vmid := None)) else db
  }

  /** Status write guarded by the VMID the caller reconciled; the clean-up origin is kept
      while the row stays pending and cleared by every other status. */
  function SetStatus(db: Tables, d: nat, s: DepStatus, expected: Option<nat>, origin: Option<Kind>): Tables {
    if d !in db.deps || db.deps[d].vmid != expected then db else
    var row := db.deps[d];
    if s == CleanupPending then
      WithDep(db, d, row.(status := s,
        origin := if origin == Some(Deploy) || origin == Some(Destroy) then origin else row.origin))
    else
      WithDep(db, d, row.(status := s, origin := None))
  }

  /** The row is marked for operator recovery; its VMID is kept. */
  function Distrust(db: Tables, d: nat): Tables {
    if d in db.deps then WithDep(db, d, db.deps[d].(identity := Submitting, status := Error)) else db
  }

  function Drop(db: Tables, d: nat): Tables {
    db.(deps := db.deps - {d}, leases := db.leases - {d})
  }

  function DropIfMatches(db: Tables, d: nat, vmid: Option<nat>, required: Option<DepStatus>): Tables {
    if d !in db.deps || db.deps[d].vmid != vmid
       || (required.Some? && db.deps[d].status != required.value)
    then db else Drop(db, d)
  }

  /** First half of a reconciliation: stop on an unsettled task or a lost create response,
      otherwise hand on the VMID that has to be looked up. */
  datatype Verdict = Halt(db: Tables) | Proceed(vmid: Option<nat>)

  function Check(db: Tables, j: nat, settled: bool): Verdict {
    if j !in db.jobs || db.jobs[j].dep !in db.deps then Halt(db) else
    var job := db.jobs[j];
    var row := db.deps[job.dep];
    if job.task.Some? && !settled then Halt(Distrust(db, job.dep))
    else if row.identity == Submitting || job.create == Submitting then
      Halt(WithDep(db, job.dep, row.(status := Error)))
    else Proceed(row.vmid)
  }

  /** Outcome of the best-effort destroy of a half-built VM. */
  datatype TearDown = Torn | Untouched | Unconfirmed

  /** The destroy records its tasks on the newest job of the row that holds the VMID, and
      distrusts that row when a submitted task stays unconfirmed. */
  function TornDown(db: Tables, hit: nat, newest: Option<nat>, outcome: TearDown, task: Option<nat>): Tables {
    var db' := if newest.Some? && task.Some? then Remote(db, newest.value, task.value) else db;
    if outcome == Unconfirmed then Distrust(db', hit) else db'
  }

  function CommitFailed(db: Tables, j: nat, vmid: Option<nat>, presence: Presence): Tables {
    if j !in db.jobs then db else
    var job := db.jobs[j];
    var d := job.dep;
    if presence == Absent && job.kind == Destroy then DropIfMatches(db, d, vmid, None)
    else if d !in db.deps || db.deps[d].vmid != vmid then db
    else
      var db' := WithDep(db, d, db.deps[d].(status := Error, origin := None));
      if job.kind == Deploy && presence == Absent then db'.(leases := db'.leases - {d}) else db'
  }

  /** `runtime` is the power state read back from a present VM, when it could be read. */
  function CommitCanceled(db: Tables, j: nat, vmid: Option<nat>, presence: Presence,
                          runtime: Option<DepStatus>): Tables {
    if j !in db.jobs then db else
    var job := db.jobs[j];
    var d := job.dep;
    if presence == Absent then
      if job.kind == Deploy || job.kind == Destroy then DropIfMatches(db, d, vmid, None)
      else SetStatus(db, d, Error, vmid, None)
    else if job.kind == Rebuild && job.create == Accepted then SetStatus(db, d, Error, vmid, None)
    else if presence == Present && (job.kind == Rebuild || job.kind == Destroy) then
      SetStatus(db, d, if runtime.Some? then runtime.value else Error, vmid, None)
    else if job.kind == Deploy || job.kind == Destroy then
      SetStatus(db, d, CleanupPending, vmid, Some(job.kind))
    else SetStatus(db, d, Error, vmid, None)
  }

  function CommitCleanup(db: Tables, d: nat, vmid: Option<nat>, origin: Option<Kind>, presence: Presence): Tables {
    if presence == Absent then DropIfMatches(db, d, vmid, Some(CleanupPending))
    else if presence == Present && origin == Some(Destroy) then SetStatus(db, d, Stopped, vmid, None)
    else SetStatus(db, d, CleanupPending, vmid, None)
  }

  // ------------------------------------------------------------------ transactions of the handlers

  function NewRow(kind: Kind, d: nat): Job {
    Job(kind, d, Queued, false, if kind == Configure then Accepted else Unsubmitted, None)
  }

  /** Admission of a deploy: row `d`, its reservation if the network is static, and job `n`. */
  function Opened(db: Tables, n: nat, d: nat, lease: bool): Tables {
    Tables(db.jobs[n := NewRow(Deploy, d)], db.deps[d := Deployment(Working, None, Unsubmitted, None)],
           db.leases + if lease then {d} else {})
  }

  /** Admission of job `n` on the existing row `d`. */
  function Requested(db: Tables, n: nat, d: nat, kind: Kind): Tables
    requires d in db.deps
  {
    var row := db.deps[d];
    var row' := if kind == Configure then row.(status := Working) else row.(status := Working, origin := None);
    WithJob(WithDep(db, d, row'), n, NewRow(kind, d))
  }

  predicate Uncertain(db: Tables, d: nat, newest: Option<nat>) {
    || (d in db.deps && db.deps[d].identity == Submitting)
    || (newest.Some? && newest.value in db.jobs && db.jobs[newest.value].create == Submitting)
  }

  /** The operator's confirmation: an uncertain identity is accepted, a pending clean-up is ended. */
  function Confirmed(db: Tables, d: nat, newest: Option<nat>): Tables
    requires d in db.deps && Newest(db, d, newest)
  {
    var row := db.deps[d];
    var doubt := Uncertain(db, d, newest);
    var db1 := if doubt && newest.Some?
               then WithJob(db, newest.value, db.jobs[newest.value].(create := Accepted)) else db;
    var row1 := if doubt then row.(identity := Accepted) else row;
    WithDep(db1, d, if row.status == CleanupPending then row1.(status := Error, origin := None) else row1)
  }

  /** Restart: every job still marked running is failed. */
  function Interrupted(db: Tables): Tables {
    db.(jobs := map j | j in db.jobs ::
      if db.jobs[j].status == Running then db.jobs[j].(status := Failed) else db.jobs[j])
  }
}
