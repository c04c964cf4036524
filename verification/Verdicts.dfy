/** What a reconciliation, or a clean-up retry, makes of the row it looked at, case by case. */
module Verdicts {
  import opened Rows
  import opened Machine
  import opened Ownership
  import opened NoOrphans
  import opened Store

  // ------------------------------------------------------------------ decision tables

  /** Row `d` with its reservation is dropped. */
  predicate Dropped(db': Tables, d: nat) {
    d !in db'.deps && d !in db'.leases
  }

  /** Row `d` has this status and origin, and its VMID, identity and reservation as before. */
  predicate Written(db: Tables, db': Tables, d: nat, status: DepStatus, origin: Option<Kind>)
    requires d in db.deps
  {
    && d in db'.deps && db'.deps[d] == Deployment(status, db.deps[d].vmid, db.deps[d].identity, origin)
    && (d in db'.leases <==> d in db.leases)
  }

  /** All other rows and reservations are as before. */
  ghost predicate OthersKept(db: Tables, db': Tables, d: nat) {
    forall e | e != d ::
      && (e in db'.deps <==> e in db.deps) && (e in db.deps ==> db'.deps[e] == db.deps[e])
      && (e in db'.leases <==> e in db.leases)
  }

  /** A cancelled job: a proven absence ends a deploy and a destroy; a VM that is there and was not
      replaced has the power state that was read; a VM that should go, or that nobody could see, is
      left for the clean-up retry; everything else is an error. */
  ghost predicate CanceledVerdict(db: Tables, db': Tables, job: Job, presence: Presence, runtime: Option<DepStatus>)
    requires job.dep in db.deps
  {
    var d, kind, replaced := job.dep, job.kind, job.kind == Rebuild && job.create == Accepted;
    && OthersKept(db, db', d)
    && (presence == Absent && (kind == Deploy || kind == Destroy) ==> Dropped(db', d))
    && (presence == Present && (kind == Rebuild || kind == Destroy) && !replaced && runtime.Some? ==>
          Written(db, db', d, runtime.value, None))
    && (presence == Present && (kind == Rebuild || kind == Destroy) && !replaced && runtime.None? ==>
          Written(db, db', d, Error, None))
    && (presence == Present && kind == Deploy ==> Written(db, db', d, CleanupPending, Some(Deploy)))
    && (presence == Unknown && kind == Deploy ==> Written(db, db', d, CleanupPending, Some(Deploy)))
    && (presence == Unknown && kind == Destroy ==> Written(db, db', d, CleanupPending, Some(Destroy)))
    && (kind == Rebuild && (presence != Present || replaced) ==> Written(db, db', d, Error, None))
    && (kind == Configure ==> Written(db, db', d, Error, None))
  }

  /** A failed job: a destroy whose VM is gone is done; everything else is an error, and a deploy whose
      VM is not there gives its address back. */
  ghost predicate FailedVerdict(db: Tables, db': Tables, job: Job, presence: Presence)
    requires job.dep in db.deps
  {
    var d := job.dep;
    && OthersKept(db, db', d)
    && (presence == Absent && job.kind == Destroy ==> Dropped(db', d))
    && (presence == Absent && job.kind == Deploy ==>
          d in db'.deps && d !in db'.leases
          && db'.deps[d] == Deployment(Error, db.deps[d].vmid, db.deps[d].identity, None))
    && (presence != Absent || job.kind == Rebuild || job.kind == Configure ==> Written(db, db', d, Error, None))
  }

  /** A clean-up retry: absence ends it; a VM that a destroy left is stopped; otherwise the row waits for
      the next retry as it is. */
  ghost predicate RetryVerdict(db: Tables, db': Tables, d: nat, origin: Option<Kind>, presence: Presence)
    requires d in db.deps
  {
    && OthersKept(db, db', d)
    && (presence == Absent ==> Dropped(db', d))
    && (presence == Present && origin == Some(Destroy) ==> Written(db, db', d, Stopped, None))
    && (presence == Unknown || (presence == Present && origin != Some(Destroy)) ==>
          Written(db, db', d, CleanupPending, db.deps[d].origin))
  }

  /** The first half of a reconciliation: an unsettled task puts the identity in doubt, and a doubtful
      identity stops it; otherwise nothing is written. */
  predicate CheckVerdict(db: Tables, v: Verdict, job: Job, settled: bool)
    requires job.dep in db.deps
  {
    var d, row := job.dep, db.deps[job.dep];
    if job.task.Some? && !settled then
      v.Halt? && v.db == db.(deps := db.deps[d := Deployment(Error, row.vmid, Submitting, row.origin)])
    else if row.identity == Submitting || job.create == Submitting then
      v.Halt? && v.db == db.(deps := db.deps[d := Deployment(Error, row.vmid, row.identity, row.origin)])
    else v == Proceed(row.vmid)
  }

  // ------------------------------------------------------------------ the steps of the machine

  /** The row still holds the VMID that was looked up. */
  predicate OnLookedUp(w: World, j: nat, vmid: Option<nat>)
    requires j in w.db.jobs
  {
    w.db.jobs[j].dep in w.db.deps && w.db.deps[w.db.jobs[j].dep].vmid == vmid
  }

  lemma CanceledCommit(w: World, j: nat, runtime: Option<DepStatus>)
    requires CanCommit(w, j, runtime) && w.recs[j].canceled
    ensures DoCommit(w, j, runtime).db.jobs == w.db.jobs
    ensures if OnLookedUp(w, j, w.recs[j].phase.vmid)
            then CanceledVerdict(w.db, DoCommit(w, j, runtime).db, w.db.jobs[j], w.recs[j].phase.presence, runtime)
            else DoCommit(w, j, runtime).db == w.db
  {
  }

  lemma FailedCommit(w: World, j: nat, runtime: Option<DepStatus>)
    requires CanCommit(w, j, runtime) && !w.recs[j].canceled
    ensures DoCommit(w, j, runtime).db.jobs == w.db.jobs
    ensures if OnLookedUp(w, j, w.recs[j].phase.vmid)
            then FailedVerdict(w.db, DoCommit(w, j, runtime).db, w.db.jobs[j], w.recs[j].phase.presence)
            else DoCommit(w, j, runtime).db == w.db
  {
  }

  /** A retry writes only a row that is still pending and holds the VMID that was looked up. */
  lemma RetryCommit(w: World, d: nat)
    requires CanCleanCommit(w, d) && d in w.db.deps && w.db.deps[d].vmid == w.cleaners[d].vmid
    requires w.db.deps[d].status == CleanupPending
    ensures DoCleanCommit(w, d).db.jobs == w.db.jobs
    ensures RetryVerdict(w.db, DoCleanCommit(w, d).db, d, w.cleaners[d].origin, w.cleaners[d].presence)
  {
  }

  lemma ChecksOut(db: Tables, j: nat, settled: bool)
    requires j in db.jobs && db.jobs[j].dep in db.deps
    ensures CheckVerdict(db, Check(db, j, settled), db.jobs[j], settled)
  {
  }

  /** A move of the best-effort destroy: a submitted task goes on the newest job of the row that holds the
      VMID, an unconfirmed end puts that row in doubt, and nothing else is written. */
  lemma TearMoves(w: World, v: Option<nat>, last: Option<nat>, t: Tear)
    requires TearOk(w, v, last, t) && Held(w, v)
    ensures t.hit in w.db.deps && w.db.deps[t.hit].vmid == v && Newest(w.db, t.hit, t.newest)
    ensures
      var db, db', row := w.db, Tracked(w, t).db, w.db.deps[t.hit];
      && db'.leases == db.leases
      && (t.move.Issue? && t.newest.Some? ==>
            && db'.deps == db.deps
            && db'.jobs == db.jobs[t.newest.value := db.jobs[t.newest.value].(task := Some(t.move.upid))])
      && (t.move == End(Unconfirmed) ==>
            db'.jobs == db.jobs && db'.deps == db.deps[t.hit := Deployment(Error, v, Submitting, row.origin)])
      && (t.move == End(Torn) || t.move == End(Untouched) ==> db' == db)
  {
  }

  // ------------------------------------------------------------------ the routines

  /** A confirmed or skipped destroy writes no row. */
  lemma TearKeepsRows(db: Tables, torn: Tables, vmid: Option<nat>, ev: Evidence, j: nat)
    requires TearsDown(db, torn, vmid, ev) && ev.tear != Unconfirmed && j in db.jobs
    ensures torn.deps == db.deps && torn.leases == db.leases
    ensures j in torn.jobs && torn.jobs[j] == db.jobs[j].(task := torn.jobs[j].task)
  {
    if torn != db {
      var hit, newest :| Named(db, hit, vmid) && Newest(db, hit, newest)
        && torn == TornDown(db, hit, newest, ev.tear, ev.task);
    }
  }

  /** What can be read back of a VM: nothing, or that it runs or does not. */
  predicate ReadBack(runtime: Option<DepStatus>) {
    runtime == None || runtime == Some(Up) || runtime == Some(Stopped)
  }

  lemma CommitIsVerdict(db: Tables, j: nat, presence: Presence, runtime: Option<DepStatus>)
    requires j in db.jobs && db.jobs[j].dep in db.deps && ReadBack(runtime)
    ensures
      var v := db.deps[db.jobs[j].dep].vmid;
      CanceledVerdict(db, CommitCanceled(db, j, v, presence, runtime), db.jobs[j], presence, runtime)
  {
  }

  /** The tables after the uninterrupted routine of a cancelled job that got past its checks. */
  lemma CanceledRoutine(db: Tables, db': Tables, j: nat, ev: Evidence)
    requires CancelsTo(db, db', j, ev) && Check(db, j, ev.settled).Proceed?
    requires db.jobs[j].kind == Deploy && db.deps[db.jobs[j].dep].vmid.Some? ==> ev.tear != Unconfirmed
    requires ReadBack(ev.runtime)
    ensures CanceledVerdict(db, db', db.jobs[j], ev.presence, ev.runtime)
  {
    var v := db.deps[db.jobs[j].dep].vmid;
    if db.jobs[j].kind == Deploy && v.Some? {
      var torn :| TearsDown(db, torn, v, ev) && db' == CommitCanceled(torn, j, v, ev.presence, ev.runtime);
      TearKeepsRows(db, torn, v, ev, j);
      CommitIsVerdict(torn, j, ev.presence, ev.runtime);
    } else {
      CommitIsVerdict(db, j, ev.presence, ev.runtime);
    }
  }

  lemma FailedRoutine(db: Tables, j: nat, ev: Evidence)
    requires Check(db, j, ev.settled).Proceed?
    ensures FailedVerdict(db, FailedResult(db, j, ev), db.jobs[j], ev.presence)
  {
  }

  // ------------------------------------------------------------------ runs

  /** Within the operating rules every commit of a reconciliation finds the row it looked at, and gives
      its verdict on it. */
  lemma EveryCommit(ws: seq<World>, acts: seq<Action>, i: nat, j: nat, runtime: Option<DepStatus>)
    requires DisciplinedRun(ws, acts) && i < |acts| && acts[i] == Reconcile(RecCommit(j, runtime))
    ensures j in ws[i].recs && ws[i].recs[j].phase.Found? && j in ws[i].db.jobs
    ensures ws[i].db.jobs[j].dep in ws[i].db.deps
    ensures
      var db, db', rec := ws[i].db, ws[i + 1].db, ws[i].recs[j];
      if rec.canceled then CanceledVerdict(db, db', db.jobs[j], rec.phase.presence, runtime)
      else FailedVerdict(db, db', db.jobs[j], rec.phase.presence)
  {
    OwnInit(ws[0]);
    OwnAlways(ws, acts, i);
    assert Step(ws[i], acts[i], ws[i + 1]);
    LiveIsNear(ws[i], j);
    assert JobOk(ws[i], j) && RecOk(ws[i], j, ws[i].recs[j]);
    if ws[i].recs[j].canceled {
      CanceledCommit(ws[i], j, runtime);
    } else {
      FailedCommit(ws[i], j, runtime);
    }
  }

  /** And so does every clean-up retry. */
  lemma EveryRetry(ws: seq<World>, acts: seq<Action>, i: nat, d: nat)
    requires DisciplinedRun(ws, acts) && i < |acts| && acts[i] == Cleaning(CleanCommit(d))
    ensures d in ws[i].cleaners && ws[i].cleaners[d].Seen? && d in ws[i].db.deps
    ensures RetryVerdict(ws[i].db, ws[i + 1].db, d, ws[i].cleaners[d].origin, ws[i].cleaners[d].presence)
  {
    OwnInit(ws[0]);
    OwnAlways(ws, acts, i);
    assert Step(ws[i], acts[i], ws[i + 1]);
    assert DepInv(ws[i], d) && CleanerOk(ws[i], d);
    RetryCommit(ws[i], d);
  }
}
