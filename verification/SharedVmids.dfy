/** The exact condition for the choice of a VMID. */
module SharedVmids {
  import opened Rows
  import opened Machine
  import opened Ownership
  import opened OwnershipSteps
  import opened NoOrphans

  // The code looks for a VMID that is free in the cluster; the best-effort destroy later looks for
  // the row that holds it.

  /** A best-effort destroy finds the row it is done for. */
  predicate HitsOwnRow(w: World, a: Action) {
    match a
    case Reconcile(RecDestroy(j, t)) => j in w.db.jobs ==> t.hit == w.db.jobs[j].dep
    case Cleaning(CleanDestroy(d, t)) => t.hit == d
    case _ => true
  }

  /** However it goes on from `w` within the rules, every destroy finds its own row. */
  ghost predicate HitsOnly(w: World) {
    forall ws, acts, i: nat | DisciplinedTrace(ws, acts) && ws[0] == w && i < |acts| :: HitsOwnRow(ws[i], acts[i])
  }

  lemma OwnHits(w: World, a: Action)
    requires Own(w) && Enabled(w, a)
    ensures HitsOwnRow(w, a)
  {
    if a.Reconcile? && a.rec.RecDestroy? {
      LiveIsNear(w, a.rec.job);
      TearHitsOwnRow(w, a.rec.job, a.rec.tear);
    } else if a.Cleaning? && a.clean.CleanDestroy? {
      var d := a.clean.dep;
      assert DepInv(w, d) && CleanerOk(w, d) && Held(w, w.cleaners[d].vmid);
    }
  }

  lemma OwnHitsOnly(w: World)
    requires Own(w)
    ensures HitsOnly(w)
  {
    forall ws, acts, i: nat | DisciplinedTrace(ws, acts) && ws[0] == w && i < |acts|
      ensures HitsOwnRow(ws[i], acts[i])
    {
      OwnAlways(ws, acts, i);
      assert Step(ws[i], acts[i], ws[i + 1]);
      OwnHits(ws[i], acts[i]);
    }
  }

  lemma Mishit(w: World, a: Action, w': World)
    requires Step(w, a, w') && Disciplined(w, a) && !HitsOwnRow(w, a)
    ensures !HitsOnly(w)
  {
    var ws, acts := [w, w'], [a];
    assert DisciplinedTrace(ws, acts) && ws[0] == w && !HitsOwnRow(ws[0], acts[0]);
  }

  lemma BeforeMishit(w: World, a: Action, w': World)
    requires Step(w, a, w') && Disciplined(w, a) && !HitsOnly(w')
    ensures !HitsOnly(w)
  {
    hide Step, Disciplined, HitsOwnRow;
    var ws, acts, i: nat :| DisciplinedTrace(ws, acts) && ws[0] == w' && i < |acts| && !HitsOwnRow(ws[i], acts[i]);
    var more, first := [w] + ws, [a] + acts;
    Prepend(w, a, ws, acts);
    forall n | 0 <= n < |first| ensures Disciplined(more[n], first[n]) {
      assert n > 0 ==> Disciplined(ws[n - 1], acts[n - 1]);
    }
    assert DisciplinedTrace(more, first) && more[0] == w && !HitsOwnRow(more[i + 1], first[i + 1]);
  }

  // ------------------------------------------------------------------ a deploy that shares its VMID

  /** The running deploy job `j` writes a VMID that row `e` of another deployment holds as well. */
  predicate Shares(w: World, j: nat, e: nat, v: nat) {
    && j in w.db.jobs && w.db.jobs[j].kind == Deploy && w.db.jobs[j].status == Running && w.db.jobs[j].task.None?
    && w.db.jobs[j].dep in w.db.deps && e in w.db.deps && e != w.db.jobs[j].dep
    && w.db.deps[w.db.jobs[j].dep].vmid == Some(v) && w.db.deps[e].vmid == Some(v)
  }

  lemma DestroyMishits(w: World, j: nat, e: nat, v: nat)
    requires Shares(w, j, e, v) && j in w.recs && w.recs[j].phase == Destroying(Some(v), None)
    ensures !HitsOnly(w)
  {
    var newest := SomeNewest(w.db, e);
    var t := Tear(e, newest, End(Untouched));
    assert Held(w, Some(v));
    Mishit(w, Reconcile(RecDestroy(j, t)), DoTear(w, j, t));
  }

  lemma CheckMishits(w: World, j: nat, e: nat, v: nat)
    requires Shares(w, j, e, v) && j in w.recs && w.recs[j].phase == Checking && w.recs[j].canceled
    requires w.db.jobs[j].create == Accepted && w.db.deps[w.db.jobs[j].dep].identity == Accepted
    ensures !HitsOnly(w)
  {
    DestroyMishits(DoCheck(w, j, true), j, e, v);
    BeforeMishit(w, Reconcile(RecCheck(j, true)), DoCheck(w, j, true));
  }

  lemma RaiseMishits(w: World, j: nat, e: nat, v: nat)
    requires Shares(w, j, e, v) && At(w, j, Built) && w.db.jobs[j].cancelRequested
    requires w.db.jobs[j].create == Accepted && w.db.deps[w.db.jobs[j].dep].identity == Accepted
    ensures !HitsOnly(w)
  {
    CheckMishits(DoRaise(w, j, true), j, e, v);
    BeforeMishit(w, Work(Raise(j, true)), DoRaise(w, j, true));
  }

  lemma AcceptMishits(w: World, j: nat, e: nat, v: nat)
    requires Shares(w, j, e, v) && At(w, j, Sent(v)) && w.db.jobs[j].cancelRequested && v !in w.vms
    ensures !HitsOnly(w)
  {
    RaiseMishits(DoAccept(w, j), j, e, v);
    BeforeMishit(w, Work(AcceptCreate(j)), DoAccept(w, j));
  }

  lemma SendMishits(w: World, j: nat, e: nat, v: nat)
    requires Shares(w, j, e, v) && At(w, j, Marked(v)) && w.db.jobs[j].cancelRequested && v !in w.vms
    ensures !HitsOnly(w)
  {
    AcceptMishits(DoSend(w, j), j, e, v);
    BeforeMishit(w, Work(Send(j)), DoSend(w, j));
  }

  lemma MarkMishits(w: World, j: nat, e: nat, v: nat)
    requires Shares(w, j, e, v) && At(w, j, Chosen(v)) && w.db.jobs[j].cancelRequested && v !in w.vms
    ensures !HitsOnly(w)
  {
    SendMishits(DoMark(w, j), j, e, v);
    BeforeMishit(w, Work(MarkSubmitting(j)), DoMark(w, j));
  }

  /** The deploy is cancelled, its create accepted, and the destroy finds the other row. */
  lemma SharedMishits(w: World, j: nat, e: nat, v: nat)
    requires Shares(w, j, e, v) && At(w, j, Chosen(v)) && v !in w.vms
    ensures !HitsOnly(w)
  {
    MarkMishits(DoCancel(w, j), j, e, v);
    BeforeMishit(w, Http(CancelRequest(j)), DoCancel(w, j));
  }

  /** Writing the VMID of a deploy is safe for every destroy to come exactly when no other row holds
      it; the code looks at the cluster only. */
  lemma SelectSafeIff(w: World, j: nat, v: nat)
    requires Own(w) && CanSelect(w, j, v) && w.db.jobs[j].kind == Deploy
    ensures
      HitsOnly(DoSelect(w, j, v))
      <==> forall e | e in w.db.deps && e != w.db.jobs[j].dep :: w.db.deps[e].vmid != Some(v)
  {
    var d, w' := w.db.jobs[j].dep, DoSelect(w, j, v);
    if e :| e in w.db.deps && e != d && w.db.deps[e].vmid == Some(v) {
      HeldIsNear(w, j);
      assert JobOk(w, j) && ProcOk(w, j, w.procs[j]);
      SharedMishits(w', j, e, v);
    } else {
      OwnStep(w, Work(SelectVmid(j, v)));
      OwnHitsOnly(w');
    }
  }
}
