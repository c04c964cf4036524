/** No run of guarded steps orphans a VM, whoever overtakes whom. */
module GuardedRuns {
  import opened Rows
  import opened Machine
  import opened CoreSafety
  import opened Ownership
  import opened Guards
  import opened GuardOrder

  // ------------------------------------------------------------------ runs

  lemma SoundStep(w: World, a: Action)
    requires Sound(w) && Enabled(w, a) && Guarded(w, a)
    ensures Sound(Apply(w, a))
  {
    match a {
      case Http(h) => HttpIsSound(w, h);
      case Work(x) => WorkIsSound(w, x);
      case Wait(x) => WaitIsSound(w, x);
      case Reconcile(r) => RecIsSound(w, r);
      case Cleaning(c) => CleanIsSound(w, c);
      case Cluster(c) => ClusterIsSound(w, c);
    }
  }

  lemma SoundInit(w: World)
    requires Init(w)
    ensures Sound(w)
  {
    CoreInit(w);
  }

  ghost predicate GuardedTrace(ws: seq<World>, acts: seq<Action>) {
    Trace(ws, acts) && forall i | 0 <= i < |acts| :: Guarded(ws[i], acts[i])
  }

  lemma {:induction false} SoundAlways(ws: seq<World>, acts: seq<Action>, i: nat)
    requires GuardedTrace(ws, acts) && Sound(ws[0]) && i < |ws|
    ensures Sound(ws[i])
  {
    if i > 0 {
      SoundAlways(ws, acts, i - 1);
      assert Step(ws[i - 1], acts[i - 1], ws[i]);
      SoundStep(ws[i - 1], acts[i - 1]);
    }
  }

  lemma SoundMeansNoOrphan(w: World)
    requires Sound(w)
    ensures NoOrphan(w)
  {
    forall v | v in w.vms && w.vms[v].Created?
      ensures w.vms[v].dep in w.db.deps && w.db.deps[w.vms[v].dep].vmid == Some(v)
    {
      assert DepSound(w, w.vms[v].dep);
    }
    forall r | r in w.pending ensures r.dep in w.db.deps && w.db.deps[r.dep].vmid == Some(r.vmid) {
      assert DepSound(w, r.dep);
    }
  }

  /** No orphan in any state of any run of guarded steps: each VM that exists, or may still land,
      because of a create request is named by the row of the deployment it was requested for. */
  lemma NoOrphanWhenGuarded(ws: seq<World>, acts: seq<Action>, i: nat)
    requires GuardedTrace(ws, acts) && Init(ws[0]) && i < |ws|
    ensures NoOrphan(ws[i])
  {
    SoundInit(ws[0]);
    SoundAlways(ws, acts, i);
    SoundMeansNoOrphan(ws[i]);
  }

  // ------------------------------------------------------------------ rules and guards

  /** A reconciliation that outlives its job belongs to the newest job of its deployment. */
  lemma NoneIsNewer(w: World, j: nat, k: nat)
    requires Own(w) && j in w.recs && j in w.db.jobs
    ensures !Newer(w.db, j, k)
  {
    assert DepInv(w, w.db.jobs[j].dep) && Live(w, j);
  }

  /** Where everybody keeps to the operating rules the guards hold by themselves. */
  lemma RulesAreGuards(w: World, a: Action)
    requires Own(w) && Enabled(w, a) && Disciplined(w, a)
    ensures Guarded(w, a)
  {
    match a {
      case Http(Prune(k)) =>
        forall j | j in w.recs && j in w.db.jobs ensures !Newer(w.db, j, k) {
          NoneIsNewer(w, j, k);
        }
      case Reconcile(RecCommit(j, _)) =>
        forall k | k in w.db.jobs ensures !Newer(w.db, j, k) {
          NoneIsNewer(w, j, k);
        }
      case Cleaning(CleanBegin(d)) => assert DepInv(w, d);
      case _ =>
    }
  }
}
