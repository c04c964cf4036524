/** The exact conditions at the places where the code leaves a window. */
module Races {
  import opened Rows
  import opened Machine
  import opened CoreSafety
  import opened Ownership
  import opened Guards
  import opened GuardedRuns

  // A step is judged by everything that may follow it: it is safe when no continuation by guarded
  // steps orphans a VM.  What the caller can see before the step is the same in many states; the
  // condition is exact when it holds just in case the step is safe in all of them.

  /** However it goes on from `w` by guarded steps, no VM is orphaned. */
  ghost predicate SafeFrom(w: World) {
    forall ws, acts, i: nat | GuardedTrace(ws, acts) && ws[0] == w && i < |ws| :: NoOrphan(ws[i])
  }

  lemma SoundIsSafe(w: World)
    requires Sound(w)
    ensures SafeFrom(w)
  {
    forall ws, acts, i: nat | GuardedTrace(ws, acts) && ws[0] == w && i < |ws| ensures NoOrphan(ws[i]) {
      SoundAlways(ws, acts, i);
      SoundMeansNoOrphan(ws[i]);
    }
  }

  lemma OrphanIsUnsafe(w: World)
    requires !NoOrphan(w)
    ensures !SafeFrom(w)
  {
    assert GuardedTrace([w], []) && [w][0] == w;
  }

  /** A guarded step to a state from which it can go wrong. */
  lemma StepIsUnsafe(w: World, a: Action, w': World)
    requires Step(w, a, w') && Guarded(w, a) && !SafeFrom(w')
    ensures !SafeFrom(w)
  {
    hide Step, Guarded, NoOrphan;
    var ws, acts, i: nat :| GuardedTrace(ws, acts) && ws[0] == w' && i < |ws| && !NoOrphan(ws[i]);
    var more, first := [w] + ws, [a] + acts;
    Prepend(w, a, ws, acts);
    forall n | 0 <= n < |first| ensures Guarded(more[n], first[n]) {
      assert n > 0 ==> Guarded(ws[n - 1], acts[n - 1]);
    }
    assert GuardedTrace(more, first) && more[0] == w && more[i + 1] == ws[i];
  }

  // ------------------------------------------------------------------ states with the same tables

  /** The tables of `w` with at most these threads at work, and these assets. */
  function Stage(w: World, procs: map<nat, Phase>, recs: map<nat, Rec>, vms: map<nat, Owner>,
                 pending: set<Request>): World {
    World(w.db, w.nextJob, w.nextDep, w.nextTask, procs, recs, map[], false, vms, pending, w.tasks, map[])
  }

  predicate CanStage(w: World, procs: map<nat, Phase>, recs: map<nat, Rec>) {
    && (forall j | j in procs ::
          && Main(procs[j]) && PrePlay(procs[j]) && j in w.db.jobs && w.db.jobs[j].status == Running && j !in recs)
    && (forall j | j in recs :: j in w.recs && recs[j] == w.recs[j] && recs[j].host == Waiter)
  }

  lemma StageCore(w: World, procs: map<nat, Phase>, recs: map<nat, Rec>, vms: map<nat, Owner>, pending: set<Request>)
    requires Core(w) && CanStage(w, procs, recs)
    ensures Core(Stage(w, procs, recs, vms, pending))
  {
    var w' := Stage(w, procs, recs, vms, pending);
    forall j: nat
      ensures Fine(ViewOf(w', j), w'.booting) && ViewOf(w', j).row == ViewOf(w, j).row
      ensures w.nextJob <= j ==> ViewOf(w', j) == View(None, None, None, 0)
      ensures forall d :: ActiveOn(ViewOf(w', j), d) ==> ActiveOn(ViewOf(w, j), d)
    {
      assert Fine(ViewOf(w, j), w.booting);
      if j in w.db.jobs || j in w.recs {
        Known(w, j);
      }
    }
    forall j: nat | ViewOf(w', j).row.Some? ensures ViewOf(w', j).row.value.dep < w'.nextDep {
      assert ViewOf(w, j).row.value.dep < w.nextDep;
    }
  }

  lemma StageNotes(w: World, vms: map<nat, Owner>, recs: map<nat, Rec>, pending: set<Request>)
    requires Sound(w)
    ensures
      var w' := Stage(w, map[], recs, vms, pending);
      Alone(w') && ActiveNewest(w'.db) && forall k: nat :: JobNote(w', k)
  {
    forall k: nat ensures JobNote(Stage(w, map[], recs, vms, pending), k) {
      assert JobNote(w, k);
    }
  }

  /** Nobody at work, and one request in flight that no table shows. */
  function Adrift(w: World, vms: map<nat, Owner>, r: Request): World {
    Stage(w, map[], map[], vms, {r})
  }

  /** The VMID of the deployment is that of a create without answer, and `r` may be that create. */
  predicate MayBe(w: World, d: nat, r: Request) {
    && d in w.db.deps && w.db.deps[d].identity == Submitting && w.db.deps[d].vmid == Some(r.vmid) && r.dep == d
    && forall k | k in w.db.jobs && w.db.jobs[k].dep == d && Active(w.db.jobs[k].status) ::
         k == r.job && w.db.jobs[k].status == Running
  }

  lemma AdriftDep(w: World, vms: map<nat, Owner>, d: nat, r: Request, e: nat)
    requires DepSound(w, e) && MayBe(w, d, r)
    requires vms == map[] || (vms == w.vms && forall v | v in vms :: vms[v] != Created(d))
    ensures DepSound(Adrift(w, vms, r), e)
  {
    var w' := Adrift(w, vms, r);
    forall k | k in w'.db.jobs && w'.db.jobs[k].dep == e ensures JobSound(w', k) {
      assert JobSound(w, k);
    }
  }

  lemma AdriftSound(w: World, vms: map<nat, Owner>, d: nat, r: Request)
    requires Sound(w) && MayBe(w, d, r)
    requires vms == map[] || (vms == w.vms && forall v | v in vms :: vms[v] != Created(d))
    ensures Sound(Adrift(w, vms, r))
  {
    StageCore(w, map[], map[], vms, {r});
    StageNotes(w, vms, map[], {r});
    forall e: nat ensures DepSound(Adrift(w, vms, r), e) {
      assert DepSound(w, e);
      AdriftDep(w, vms, d, r, e);
    }
  }

  // ------------------------------------------------------------------ local clean-up

  lemma DropIsUnsafe(w: World, d: nat, r: Request)
    requires r in w.pending && r.dep == d
    ensures !SafeFrom(DoLocalCleanup(w, d))
  {
    assert r in DoLocalCleanup(w, d).pending;
    OrphanIsUnsafe(DoLocalCleanup(w, d));
  }

  /** Local-only clean-up after a probe of absence is safe, in every state in order with these tables,
      exactly when they tell that no create can still land: the probe cannot see a create whose
      response was lost. */
  lemma LocalCleanupSafeIff(w: World, d: nat)
    requires Sound(w) && CanLocalCleanup(w, d)
    ensures (forall w': World | w'.db == w.db && Sound(w') && CanLocalCleanup(w', d) :: SafeFrom(DoLocalCleanup(w', d)))
       <==> w.db.deps[d].identity != Submitting || w.db.deps[d].vmid.None?
  {
    if w.db.deps[d].identity != Submitting || w.db.deps[d].vmid.None? {
      forall w': World | w'.db == w.db && Sound(w') && CanLocalCleanup(w', d)
        ensures SafeFrom(DoLocalCleanup(w', d))
      {
        assert NothingLost(w'.db, d);
        SoundStep(w', Http(LocalCleanup(d)));
        SoundIsSafe(DoLocalCleanup(w', d));
      }
    } else {
      var r := Request(0, d, w.db.deps[d].vmid.value);
      var w' := Adrift(w, map[], r);
      AdriftSound(w, map[], d, r);
      assert CanLocalCleanup(w', d);
      DropIsUnsafe(w', d, r);
    }
  }

  // ------------------------------------------------------------------ confirmation

  /** The foreign VM goes, and local clean-up finds an accepted identity. */
  lemma MistakeIsUnsafe(w: World, d: nat, newest: Option<nat>, r: Request)
    requires CanConfirm(w, d, newest) && w.db.deps[d].identity == Submitting && r in w.pending && r.dep == d
    ensures !SafeFrom(DoConfirm(w, d, newest))
  {
    var w1 := DoConfirm(w, d, newest);
    var v := w.db.deps[d].vmid.value;
    ConfirmedIsFree(w, d, newest);
    var w2 := w1.(vms := w1.vms - {v});
    assert Step(w1, Cluster(Vanish(v)), w2);
    assert CanLocalCleanup(w2, d) && NothingLost(w2.db, d);
    DropIsUnsafe(w2, d, r);
    StepIsUnsafe(w2, Http(LocalCleanup(d)), DoLocalCleanup(w2, d));
    StepIsUnsafe(w1, Cluster(Vanish(v)), w2);
  }

  lemma ConfirmedIsFree(w: World, d: nat, newest: Option<nat>)
    requires CanConfirm(w, d, newest) && w.db.deps[d].identity == Submitting
    ensures
      var w' := DoConfirm(w, d, newest);
      Free(w', d) && w'.db.deps[d].vmid == w.db.deps[d].vmid && w'.db.deps[d].identity == Accepted
  {
  }

  /** The operator's confirmation is safe, in every state in order with these tables and VMs, exactly
      when the identity is not in doubt, or the visible VM is the deployment's own. */
  lemma ConfirmSafeIff(w: World, d: nat, newest: Option<nat>)
    requires Sound(w) && CanConfirm(w, d, newest)
    ensures
      (forall w': World | w'.db == w.db && w'.vms == w.vms && Sound(w') && CanConfirm(w', d, newest)
         :: SafeFrom(DoConfirm(w', d, newest)))
      <==> w.db.deps[d].identity != Submitting || w.vms[w.db.deps[d].vmid.value] == Created(d)
  {
    var v := w.db.deps[d].vmid.value;
    if w.db.deps[d].identity != Submitting || w.vms[v] == Created(d) {
      forall w': World | w'.db == w.db && w'.vms == w.vms && Sound(w') && CanConfirm(w', d, newest)
        ensures SafeFrom(DoConfirm(w', d, newest))
      {
        SoundStep(w', Http(Confirm(d, newest)));
        SoundIsSafe(DoConfirm(w', d, newest));
      }
    } else {
      var r := Request(0, d, v);
      var w' := Adrift(w, w.vms, r);
      assert DepSound(w, d) && OwnOk(w, d);
      AdriftSound(w, w.vms, d, r);
      assert CanConfirm(w', d, newest);
      MistakeIsUnsafe(w', d, newest, r);
    }
  }

  // ------------------------------------------------------------------ clean-up retries

  lemma CommitIsUnsafe(w: World, d: nat, r: Request)
    requires CanCleanCommit(w, d) && w.cleaners[d].presence == Absent && r in w.pending && r.dep == d
    requires d in w.db.deps && w.db.deps[d].vmid == w.cleaners[d].vmid && w.db.deps[d].status == CleanupPending
    ensures !SafeFrom(w)
  {
    var w' := DoCleanCommit(w, d);
    assert r in w'.pending && d !in w'.db.deps;
    OrphanIsUnsafe(w');
    StepIsUnsafe(w, Cleaning(CleanCommit(d)), w');
  }

  /** The retry sees no VM, whose create is still on its way. */
  lemma LookIsUnsafe(w: World, d: nat, r: Request)
    requires d in w.cleaners && w.cleaners[d].Looking? && r in w.pending && r.dep == d
    requires d in w.db.deps && w.db.deps[d].vmid == w.cleaners[d].vmid && w.db.deps[d].status == CleanupPending
    requires Truthful(w, w.cleaners[d].vmid, Absent)
    ensures !SafeFrom(w)
  {
    CommitIsUnsafe(DoCleanProbe(w, d, Absent), d, r);
    StepIsUnsafe(w, Cleaning(CleanProbe(d, Absent)), DoCleanProbe(w, d, Absent));
  }

  lemma TearingIsUnsafe(w: World, d: nat, newest: Option<nat>, r: Request)
    requires d in w.cleaners && w.cleaners[d].Tearing? && w.cleaners[d].last.None? && r in w.pending && r.dep == d
    requires d in w.db.deps && w.db.deps[d].vmid == w.cleaners[d].vmid && w.db.deps[d].status == CleanupPending
    requires w.db.deps[d].vmid.Some? && Truthful(w, w.cleaners[d].vmid, Absent) && Newest(w.db, d, newest)
    ensures !SafeFrom(w)
  {
    var t := Tear(d, newest, End(Untouched));
    assert Held(w, w.cleaners[d].vmid);
    LookIsUnsafe(DoCleanTear(w, d, t), d, r);
    StepIsUnsafe(w, Cleaning(CleanDestroy(d, t)), DoCleanTear(w, d, t));
  }

  lemma BeginIsUnsafe(w: World, d: nat, r: Request)
    requires CanCleanBegin(w, d) && r in w.pending && r.dep == d && w.vms == map[]
    ensures !SafeFrom(DoCleanBegin(w, d))
  {
    var w' := DoCleanBegin(w, d);
    if w'.cleaners[d].Tearing? {
      var newest := SomeNewest(w.db, d);
      TearingIsUnsafe(w', d, newest, r);
    } else {
      LookIsUnsafe(w', d, r);
    }
  }

  /** The start of a clean-up retry is safe, in every state in order with these tables, exactly when
      they tell that no create can still land. */
  lemma RetrySafeIff(w: World, d: nat)
    requires Sound(w) && CanCleanBegin(w, d)
    ensures (forall w': World | w'.db == w.db && Sound(w') && CanCleanBegin(w', d) :: SafeFrom(DoCleanBegin(w', d)))
       <==> NothingLost(w.db, d)
  {
    if NothingLost(w.db, d) {
      forall w': World | w'.db == w.db && Sound(w') && CanCleanBegin(w', d) ensures SafeFrom(DoCleanBegin(w', d)) {
        SoundStep(w', Cleaning(CleanBegin(d)));
        SoundIsSafe(DoCleanBegin(w', d));
      }
    } else {
      var r := LostCreate(w, d);
      AdriftSound(w, map[], d, r);
      assert CanCleanBegin(Adrift(w, map[], r), d);
      BeginIsUnsafe(Adrift(w, map[], r), d, r);
    }
  }

  lemma LostCreate(w: World, d: nat) returns (r: Request)
    requires Core(w) && !NothingLost(w.db, d)
    ensures MayBe(w, d, r)
  {
    var v := w.db.deps[d].vmid.value;
    if k :| k in w.db.jobs && w.db.jobs[k].dep == d && Active(w.db.jobs[k].status) {
      forall j | j in w.db.jobs && w.db.jobs[j].dep == d && Active(w.db.jobs[j].status) ensures j == k {
        assert ActiveOn(ViewOf(w, j), d) && ActiveOn(ViewOf(w, k), d);
      }
      r := Request(k, d, v);
    } else {
      r := Request(0, d, v);
    }
  }

  // ------------------------------------------------------------------ late commits

  /** What the committing thread can see: the tables and its own evidence. */
  predicate LooksTheSame(w: World, w': World, j: nat) {
    w'.db == w.db && j in w.recs && j in w'.recs && w'.recs[j] == w.recs[j]
  }

  /** The commit is that of a reconciliation that outlived its job and is about to drop the row. */
  predicate LateDrop(w: World, j: nat, runtime: Option<DepStatus>) {
    && CanCommit(w, j, runtime) && Drops(w, j) && w.recs[j].host == Waiter
    && w.db.jobs[j].dep in w.db.deps && w.db.deps[w.db.jobs[j].dep].vmid == w.recs[j].phase.vmid
    && w.recs[j].phase.vmid.Some?
  }

  lemma LateDropDrops(w: World, j: nat, runtime: Option<DepStatus>)
    requires LateDrop(w, j, runtime)
    ensures DoCommit(w, j, runtime).db == Drop(w.db, w.db.jobs[j].dep)
  {
  }

  /** The newer job has created the VM anew. */
  function Recreated(w: World, j: nat, v: nat): World
    requires j in w.recs && j in w.db.jobs
  {
    Stage(w, map[], map[j := w.recs[j]], map[v := Created(w.db.jobs[j].dep)], {})
  }

  lemma RecreatedDep(w: World, j: nat, runtime: Option<DepStatus>, k: nat, e: nat)
    requires DepSound(w, e) && LateDrop(w, j, runtime)
    requires k in w.db.jobs && Newer(w.db, j, k) && Creates(w.db.jobs[k])
    ensures DepSound(Recreated(w, j, w.recs[j].phase.vmid.value), e)
  {
    var w' := Recreated(w, j, w.recs[j].phase.vmid.value);
    assert Resubmitted(w'.db, j);
    forall i | i in w'.db.jobs && w'.db.jobs[i].dep == e ensures JobSound(w', i) {
      assert JobSound(w, i);
    }
  }

  lemma RecreatedSound(w: World, j: nat, runtime: Option<DepStatus>, k: nat)
    requires Sound(w) && LateDrop(w, j, runtime)
    requires k in w.db.jobs && Newer(w.db, j, k) && Creates(w.db.jobs[k])
    ensures Sound(Recreated(w, j, w.recs[j].phase.vmid.value))
  {
    var v, d := w.recs[j].phase.vmid.value, w.db.jobs[j].dep;
    StageCore(w, map[], map[j := w.recs[j]], map[v := Created(d)], {});
    StageNotes(w, map[v := Created(d)], map[j := w.recs[j]], {});
    forall e: nat ensures DepSound(Recreated(w, j, v), e) {
      assert DepSound(w, e);
      RecreatedDep(w, j, runtime, k, e);
    }
  }

  lemma RecreatedIsUnsafe(w: World, j: nat, runtime: Option<DepStatus>)
    requires LateDrop(w, j, runtime)
    ensures
      var w' := Recreated(w, j, w.recs[j].phase.vmid.value);
      CanCommit(w', j, runtime) && !SafeFrom(DoCommit(w', j, runtime))
  {
    var v := w.recs[j].phase.vmid.value;
    var w' := Recreated(w, j, v);
    LateDropDrops(w', j, runtime);
    assert v in DoCommit(w', j, runtime).vms;
    OrphanIsUnsafe(DoCommit(w', j, runtime));
  }

  /** The newer job has chosen the VMID and is about to mark its create. */
  function Rechosen(w: World, j: nat, k: nat, v: nat): World
    requires j in w.recs
  {
    Stage(w, map[k := Chosen(v)], map[j := w.recs[j]], map[], {})
  }

  lemma RechosenDep(w: World, j: nat, runtime: Option<DepStatus>, k: nat, e: nat)
    requires DepSound(w, e) && LateDrop(w, j, runtime)
    requires k in w.db.jobs && Newer(w.db, j, k) && Starting(w.db.jobs[k])
    ensures DepSound(Rechosen(w, j, k, w.recs[j].phase.vmid.value), e)
  {
    var w' := Rechosen(w, j, k, w.recs[j].phase.vmid.value);
    assert Bare(w', e);
    forall i | i in w'.db.jobs && w'.db.jobs[i].dep == e ensures JobSound(w', i) {
      assert JobSound(w, i);
    }
  }

  lemma RechosenNotes(w: World, j: nat, runtime: Option<DepStatus>, k: nat)
    requires Sound(w) && LateDrop(w, j, runtime) && k in w.db.jobs && Starting(w.db.jobs[k])
    ensures
      var w' := Rechosen(w, j, k, w.recs[j].phase.vmid.value);
      Alone(w') && ActiveNewest(w'.db) && forall i: nat :: JobNote(w', i)
  {
    forall i: nat ensures JobNote(Rechosen(w, j, k, w.recs[j].phase.vmid.value), i) {
      assert JobNote(w, i);
    }
  }

  lemma RechosenSound(w: World, j: nat, runtime: Option<DepStatus>, k: nat)
    requires Sound(w) && LateDrop(w, j, runtime)
    requires k in w.db.jobs && Newer(w.db, j, k) && Starting(w.db.jobs[k])
    ensures Sound(Rechosen(w, j, k, w.recs[j].phase.vmid.value))
  {
    var v := w.recs[j].phase.vmid.value;
    StageCore(w, map[k := Chosen(v)], map[j := w.recs[j]], map[], {});
    RechosenNotes(w, j, runtime, k);
    forall e: nat ensures DepSound(Rechosen(w, j, k, v), e) {
      assert DepSound(w, e);
      RechosenDep(w, j, runtime, k, e);
    }
  }

  /** A thread past the choice of its VMID does not look at its row again. */
  lemma ChosenIsUnsafe(w: World, k: nat)
    requires CanMark(w, k) && w.db.jobs[k].dep !in w.db.deps
    ensures !SafeFrom(w)
  {
    var w1 := DoMark(w, k);
    assert CanSend(w1, k) && w1.db.jobs[k].dep == w.db.jobs[k].dep;
    var w2 := DoSend(w1, k);
    assert RequestOf(w1, k) in w2.pending && w2.db.deps == w.db.deps;
    OrphanIsUnsafe(w2);
    StepIsUnsafe(w1, Work(Send(k)), w2);
    StepIsUnsafe(w, Work(MarkSubmitting(k)), w1);
  }

  lemma RechosenIsUnsafe(w: World, j: nat, runtime: Option<DepStatus>, k: nat)
    requires LateDrop(w, j, runtime) && k in w.db.jobs && Newer(w.db, j, k)
    ensures
      var w' := Rechosen(w, j, k, w.recs[j].phase.vmid.value);
      CanCommit(w', j, runtime) && !SafeFrom(DoCommit(w', j, runtime))
  {
    var w' := Rechosen(w, j, k, w.recs[j].phase.vmid.value);
    LateDropDrops(w', j, runtime);
    ChosenIsUnsafe(DoCommit(w', j, runtime), k);
  }

  /** The commit of a reconciliation that outlived its job and is about to drop the row on absence is
      safe, in every state in order that looks the same to it, exactly when the row is gone or names
      another VMID, none was looked up, or no newer job of the deployment has submitted a create or
      may be about to. */
  lemma LateCommitSafeIff(w: World, j: nat, runtime: Option<DepStatus>)
    requires Sound(w) && CanCommit(w, j, runtime) && Drops(w, j) && w.recs[j].host == Waiter
    ensures
      (forall w': World | LooksTheSame(w, w', j) && Sound(w') :: SafeFrom(DoCommit(w', j, runtime)))
      <==> StillGone(w.db, j, w.recs[j].phase.vmid)
  {
    if StillGone(w.db, j, w.recs[j].phase.vmid) {
      forall w': World | LooksTheSame(w, w', j) && Sound(w') ensures SafeFrom(DoCommit(w', j, runtime)) {
        SoundStep(w', Reconcile(RecCommit(j, runtime)));
        SoundIsSafe(DoCommit(w', j, runtime));
      }
    } else {
      var k :| k in w.db.jobs && Newer(w.db, j, k) && (Creates(w.db.jobs[k]) || Starting(w.db.jobs[k]));
      if Creates(w.db.jobs[k]) {
        RecreatedSound(w, j, runtime, k);
        RecreatedIsUnsafe(w, j, runtime);
        assert LooksTheSame(w, Recreated(w, j, w.recs[j].phase.vmid.value), j);
      } else {
        RechosenSound(w, j, runtime, k);
        RechosenIsUnsafe(w, j, runtime, k);
        assert LooksTheSame(w, Rechosen(w, j, k, w.recs[j].phase.vmid.value), j);
      }
    }
  }
}
