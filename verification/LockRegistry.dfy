/** The registry of per-deployment locks: entries come with their first user and go with their last one. */
module LockRegistry {
  import opened Rows

  // ------------------------------------------------------------------ the registry itself

  /** Number of users of each deployment id that has an entry. */
  type Counts = map<nat, nat>

  function Entered(c: Counts, d: nat): Counts {
    c[d := if d in c then c[d] + 1 else 1]
  }

  function Left(c: Counts, d: nat): Counts
    requires d in c && c[d] > 0
  {
    if c[d] == 1 then c - {d} else c[d := c[d] - 1]
  }

  class Entry {
    var users: nat

    constructor ()
      ensures users == 0
    {
      users := 0;
    }
  }

  class Registry {
    var locks: map<nat, Entry>

    /** Entries are not shared between ids, and exist only while somebody uses them. */
    ghost predicate Valid()
      reads this, locks.Values
    {
      && (forall d, e | d in locks && e in locks && locks[d] == locks[e] :: d == e)
      && (forall d | d in locks :: locks[d].users > 0)
    }

    ghost function Uses(): Counts
      reads this, locks.Values
    {
      map d | d in locks :: locks[d].users
    }

    constructor ()
      ensures Valid() && Uses() == map[]
    {
      locks := map[];
    }

    /** Take a reference to the entry of `d`; the entry is the one everybody else has. */
    method Enter(d: nat) returns (entry: Entry)
      requires Valid()
      modifies this, locks.Values
      ensures Valid() && d in locks && locks[d] == entry
      ensures d in old(locks) ==> locks == old(locks)
      ensures d !in old(locks) ==> fresh(entry) && locks == old(locks)[d := entry]
      ensures Uses() == Entered(old(Uses()), d)
    {
      if d in locks {
        entry := locks[d];
      } else {
        entry := new Entry();
        locks := locks[d := entry];
      }
      assert forall k | k in locks && k != d :: locks[k] != entry;
      entry.users := entry.users + 1;
    }

    /** Give the reference back; the last user removes the entry. */
    method Leave(d: nat, entry: Entry)
      requires Valid() && d in locks && locks[d] == entry
      modifies this, entry
      ensures Valid()
      ensures Uses() == Left(old(Uses()), d)
      ensures forall k | k != d :: (k in locks <==> k in old(locks)) && (k in locks ==> locks[k] == old(locks)[k])
      ensures d in locks ==> locks[d] == entry
    {
      assert forall k | k in locks && k != d :: locks[k] != entry;
      entry.users := entry.users - 1;
      if entry.users == 0 && d in locks && locks[d] == entry {
        locks := locks - {d};
      }
    }
  }

  // ------------------------------------------------------------------ all threads together

  /** Where a thread is with respect to the deployment lock. */
  datatype Stage = Queueing | Inside | Leaving

  datatype Place = Place(dep: nat, entry: nat, stage: Stage)

  datatype Slot = Slot(users: nat, owner: Option<nat>)

  /** `places` are the threads that hold a reference; `entries` are all entry objects ever made,
      of which `registry` names the current ones.  The admission lock and the address lock are
      global. */
  datatype Locks = Locks(
    registry: map<nat, nat>, entries: map<nat, Slot>, places: map<nat, Place>,
    wantsAdmission: set<nat>, admission: Option<nat>, wantsIp: set<nat>, ip: Option<nat>)

  datatype LockStep =
    | Refer(thread: nat, dep: nat, spare: nat)
    | Acquire(thread: nat)
    | Release(thread: nat)
    | Unrefer(thread: nat)
    | AskAdmission(thread: nat)
    | TakeAdmission(thread: nat)
    | DropAdmission(thread: nat)
    | AskIp(thread: nat)
    | TakeIp(thread: nat)
    | DropIp(thread: nat)

  /** The thread neither holds nor awaits one of the two global locks. */
  predicate Unattached(s: Locks, t: nat) {
    && t !in s.wantsAdmission && s.admission != Some(t) && t !in s.wantsIp && s.ip != Some(t)
  }

  predicate At(s: Locks, t: nat, stage: Stage) {
    t in s.places && s.places[t].stage == stage
  }

  /** The fixed order: deployment lock, then admission lock, then address lock; a lock is given
      back only when those after it are. */
  predicate Enabled(s: Locks, a: LockStep) {
    var t := a.thread;
    match a
    case Refer(_, _, spare) => t !in s.places && Unattached(s, t) && spare !in s.entries
    case Acquire(_) => At(s, t, Queueing) && s.places[t].entry in s.entries && s.entries[s.places[t].entry].owner.None?
    case Release(_) => At(s, t, Inside) && Unattached(s, t) && s.places[t].entry in s.entries
    case Unrefer(_) => At(s, t, Leaving) && s.places[t].entry in s.entries && s.entries[s.places[t].entry].users > 0
    case AskAdmission(_) => (t !in s.places || At(s, t, Inside)) && Unattached(s, t)
    case TakeAdmission(_) => t in s.wantsAdmission && s.admission.None?
    case DropAdmission(_) => s.admission == Some(t) && t !in s.wantsIp && s.ip != Some(t)
    case AskIp(_) => s.admission == Some(t) && t !in s.wantsIp && s.ip != Some(t)
    case TakeIp(_) => t in s.wantsIp && s.ip.None?
    case DropIp(_) => s.ip == Some(t)
  }

  function SetOwner(s: Locks, t: nat, stage: Stage, owner: Option<nat>): Locks
    requires t in s.places && s.places[t].entry in s.entries
  {
    var p := s.places[t];
    s.(entries := s.entries[p.entry := s.entries[p.entry].(owner := owner)],
       places := s.places[t := p.(stage := stage)])
  }

  function Referred(s: Locks, t: nat, d: nat, spare: nat): Locks {
    var e := if d in s.registry then s.registry[d] else spare;
    var slot := if e in s.entries then s.entries[e] else Slot(0, None);
    s.(registry := s.registry[d := e], entries := s.entries[e := slot.(users := slot.users + 1)],
       places := s.places[t := Place(d, e, Queueing)])
  }

  function Unreferred(s: Locks, t: nat): Locks
    requires t in s.places && s.places[t].entry in s.entries && s.entries[s.places[t].entry].users > 0
  {
    var p := s.places[t];
    var slot := s.entries[p.entry];
    var gone := slot.users == 1 && p.dep in s.registry && s.registry[p.dep] == p.entry;
    s.(registry := if gone then s.registry - {p.dep} else s.registry,
       entries := s.entries[p.entry := slot.(users := slot.users - 1)],
       places := s.places - {t})
  }

  function Apply(s: Locks, a: LockStep): Locks
    requires Enabled(s, a)
  {
    var t := a.thread;
    match a
    case Refer(_, d, spare) => Referred(s, t, d, spare)
    case Acquire(_) => SetOwner(s, t, Inside, Some(t))
    case Release(_) => SetOwner(s, t, Leaving, None)
    case Unrefer(_) => Unreferred(s, t)
    case AskAdmission(_) => s.(wantsAdmission := s.wantsAdmission + {t})
    case TakeAdmission(_) => s.(wantsAdmission := s.wantsAdmission - {t}, admission := Some(t))
    case DropAdmission(_) => s.(admission := None)
    case AskIp(_) => s.(wantsIp := s.wantsIp + {t})
    case TakeIp(_) => s.(wantsIp := s.wantsIp - {t}, ip := Some(t))
    case DropIp(_) => s.(ip := None)
  }

  const UNUSED := Locks(map[], map[], map[], {}, None, {}, None)

  ghost predicate Run(ss: seq<Locks>, acts: seq<LockStep>) {
    && |ss| == |acts| + 1 && ss[0] == UNUSED
    && forall i | 0 <= i < |acts| :: Enabled(ss[i], acts[i]) && ss[i + 1] == Apply(ss[i], acts[i])
  }

  // ------------------------------------------------------------------ the invariant

  /** The threads that hold a reference to entry `e`. */
  function Users(s: Locks, e: nat): set<nat> {
    set t | t in s.places && s.places[t].entry == e
  }

  /** Deployment and entry of every reference agree with the registry, which names nothing else. */
  ghost predicate Named(s: Locks) {
    && (forall t | t in s.places :: s.places[t].dep in s.registry && s.registry[s.places[t].dep] == s.places[t].entry)
    && (forall d | d in s.registry :: s.registry[d] in s.entries && s.entries[s.registry[d]].users > 0)
    && (forall d, e | d in s.registry && e in s.registry && s.registry[d] == s.registry[e] :: d == e)
  }

  ghost predicate Counted(s: Locks) {
    forall e | e in s.entries :: s.entries[e].users == |Users(s, e)|
  }

  ghost predicate Owned(s: Locks) {
    && (forall e | e in s.entries && s.entries[e].owner.Some? ::
          At(s, s.entries[e].owner.value, Inside) && s.places[s.entries[e].owner.value].entry == e)
    && (forall t | At(s, t, Inside) :: s.places[t].entry in s.entries && s.entries[s.places[t].entry].owner == Some(t))
  }

  ghost predicate Ordered(s: Locks) {
    && (forall t | t in s.wantsAdmission ::
      (t !in s.places || At(s, t, Inside)) && s.admission != Some(t) && t !in s.wantsIp)
    && (s.admission.Some? ==> s.admission.value !in s.places || At(s, s.admission.value, Inside))
    && (forall t | t in s.wantsIp :: s.admission == Some(t) && s.ip != Some(t))
    && (s.ip.Some? ==> s.admission == s.ip)
  }

  ghost predicate Inv(s: Locks) {
    Named(s) && Counted(s) && Owned(s) && Ordered(s)
  }

  lemma ReferNames(s: Locks, t: nat, d: nat, spare: nat)
    requires Named(s) && t !in s.places && spare !in s.entries
    ensures Named(Referred(s, t, d, spare))
  {
  }

  lemma ReferCounts(s: Locks, t: nat, d: nat, spare: nat)
    requires Named(s) && Counted(s) && t !in s.places && spare !in s.entries
    ensures Counted(Referred(s, t, d, spare))
  {
    var s' := Referred(s, t, d, spare);
    var e := s'.places[t].entry;
    forall f | f in s'.entries ensures s'.entries[f].users == |Users(s', f)| {
      if f == e {
        assert Users(s', e) == Users(s, e) + {t};
        assert e !in s.entries ==> Users(s, e) == {};
      } else {
        assert Users(s', f) == Users(s, f);
      }
    }
  }

  lemma ReferOwns(s: Locks, t: nat, d: nat, spare: nat)
    requires Named(s) && Owned(s) && t !in s.places && spare !in s.entries
    ensures Owned(Referred(s, t, d, spare))
  {
  }

  lemma ReferKeeps(s: Locks, t: nat, d: nat, spare: nat)
    requires Inv(s) && Enabled(s, Refer(t, d, spare))
    ensures Inv(Referred(s, t, d, spare))
  {
    ReferNames(s, t, d, spare);
    ReferCounts(s, t, d, spare);
    ReferOwns(s, t, d, spare);
    assert Ordered(Referred(s, t, d, spare));
  }

  lemma UnreferCounts(s: Locks, t: nat)
    requires Named(s) && Counted(s) && At(s, t, Leaving)
    requires s.places[t].entry in s.entries && s.entries[s.places[t].entry].users > 0
    ensures Counted(Unreferred(s, t))
  {
    var s' := Unreferred(s, t);
    var p := s.places[t];
    assert t in Users(s, p.entry);
    forall f | f in s'.entries ensures s'.entries[f].users == |Users(s', f)| {
      if f == p.entry {
        assert Users(s', f) == Users(s, f) - {t};
      } else {
        assert Users(s', f) == Users(s, f);
      }
    }
  }

  lemma UnreferNames(s: Locks, t: nat)
    requires Named(s) && Counted(s) && At(s, t, Leaving)
    requires s.places[t].entry in s.entries && s.entries[s.places[t].entry].users > 0
    ensures Named(Unreferred(s, t))
  {
    var p := s.places[t];
    assert t in Users(s, p.entry);
    if s.entries[p.entry].users == 1 {
      Alone(Users(s, p.entry), t);
      assert forall u | u in s.places && s.places[u].dep == p.dep :: u in Users(s, p.entry);
    }
  }

  lemma UnreferOwns(s: Locks, t: nat)
    requires Owned(s) && Ordered(s) && At(s, t, Leaving)
    requires s.places[t].entry in s.entries && s.entries[s.places[t].entry].users > 0
    ensures Owned(Unreferred(s, t)) && Ordered(Unreferred(s, t))
  {
  }

  lemma UnreferKeeps(s: Locks, t: nat)
    requires Inv(s) && Enabled(s, Unrefer(t))
    ensures Inv(Unreferred(s, t))
  {
    UnreferCounts(s, t);
    UnreferNames(s, t);
    UnreferOwns(s, t);
  }

  lemma Alone(users: set<nat>, t: nat)
    requires t in users && |users| == 1
    ensures users == {t}
  {
    assert |users - {t}| == 0;
  }

  /** Taking or giving back the lock itself moves nobody to another entry. */
  lemma SameUsers(s: Locks, s': Locks)
    requires Counted(s) && s'.entries.Keys == s.entries.Keys && s'.places.Keys == s.places.Keys
    requires forall t | t in s.places :: s'.places[t].entry == s.places[t].entry
    requires forall e | e in s.entries :: s'.entries[e].users == s.entries[e].users
    ensures Counted(s')
  {
    forall e | e in s'.entries ensures s'.entries[e].users == |Users(s', e)| {
      assert Users(s', e) == Users(s, e);
    }
  }

  lemma OwnerNames(s: Locks, t: nat, stage: Stage, owner: Option<nat>)
    requires Named(s) && t in s.places && s.places[t].entry in s.entries
    ensures Named(SetOwner(s, t, stage, owner))
  {
  }

  lemma AcquireOwns(s: Locks, t: nat)
    requires Owned(s) && Enabled(s, Acquire(t))
    ensures Owned(SetOwner(s, t, Inside, Some(t)))
  {
  }

  lemma ReleaseOwns(s: Locks, t: nat)
    requires Owned(s) && Enabled(s, Release(t))
    ensures Owned(SetOwner(s, t, Leaving, None))
  {
  }

  lemma AcquireOrders(s: Locks, t: nat)
    requires Ordered(s) && At(s, t, Queueing) && s.places[t].entry in s.entries
    ensures Ordered(SetOwner(s, t, Inside, Some(t)))
  {
  }

  lemma ReleaseOrders(s: Locks, t: nat)
    requires Ordered(s) && At(s, t, Inside) && Unattached(s, t) && s.places[t].entry in s.entries
    ensures Ordered(SetOwner(s, t, Leaving, None))
  {
  }

  lemma AcquireKeeps(s: Locks, t: nat)
    requires Inv(s) && Enabled(s, Acquire(t))
    ensures Inv(SetOwner(s, t, Inside, Some(t)))
  {
    SameUsers(s, SetOwner(s, t, Inside, Some(t)));
    OwnerNames(s, t, Inside, Some(t));
    AcquireOwns(s, t);
    AcquireOrders(s, t);
  }

  lemma ReleaseKeeps(s: Locks, t: nat)
    requires Inv(s) && Enabled(s, Release(t))
    ensures Inv(SetOwner(s, t, Leaving, None))
  {
    SameUsers(s, SetOwner(s, t, Leaving, None));
    OwnerNames(s, t, Leaving, None);
    ReleaseOwns(s, t);
    ReleaseOrders(s, t);
  }

  /** The global locks do not touch the registry. */
  lemma GlobalKeeps(s: Locks, a: LockStep)
    requires Inv(s) && Enabled(s, a) && !a.Refer? && !a.Acquire? && !a.Release? && !a.Unrefer?
    ensures Inv(Apply(s, a))
  {
    var s' := Apply(s, a);
    assert s'.registry == s.registry && s'.entries == s.entries && s'.places == s.places;
    SameUsers(s, s');
  }

  lemma InvStep(s: Locks, a: LockStep)
    requires Inv(s) && Enabled(s, a)
    ensures Inv(Apply(s, a))
  {
    match a {
      case Refer(t, d, spare) => ReferKeeps(s, t, d, spare);
      case Acquire(t) => AcquireKeeps(s, t);
      case Release(t) => ReleaseKeeps(s, t);
      case Unrefer(t) => UnreferKeeps(s, t);
      case _ => GlobalKeeps(s, a);
    }
  }

  lemma {:induction false} InvAlways(ss: seq<Locks>, acts: seq<LockStep>, i: nat)
    requires Run(ss, acts) && i < |ss|
    ensures Inv(ss[i])
  {
    if i > 0 {
      InvAlways(ss, acts, i - 1);
      InvStep(ss[i - 1], acts[i - 1]);
    }
  }

  // ------------------------------------------------------------------ theorems on runs

  /** At most one thread is inside the lock of a deployment. */
  lemma MutualExclusion(ss: seq<Locks>, acts: seq<LockStep>, i: nat, t: nat, u: nat)
    requires Run(ss, acts) && i < |ss|
    requires At(ss[i], t, Inside) && At(ss[i], u, Inside) && ss[i].places[t].dep == ss[i].places[u].dep
    ensures t == u
  {
    InvAlways(ss, acts, i);
  }

  /** All threads of one deployment share one entry, its count is their number, and the registry
      holds exactly the ids in use. */
  lemma RegistryIsExact(ss: seq<Locks>, acts: seq<LockStep>, i: nat, d: nat)
    requires Run(ss, acts) && i < |ss|
    ensures d in ss[i].registry <==> exists t :: t in ss[i].places && ss[i].places[t].dep == d
    ensures d in ss[i].registry ==>
      && ss[i].registry[d] in ss[i].entries
      && ss[i].entries[ss[i].registry[d]].users == |set t | t in ss[i].places && ss[i].places[t].dep == d|
      && forall t | t in ss[i].places && ss[i].places[t].dep == d :: ss[i].places[t].entry == ss[i].registry[d]
  {
    InvAlways(ss, acts, i);
    var s := ss[i];
    if d in s.registry {
      var e := s.registry[d];
      assert Users(s, e) == set t | t in s.places && s.places[t].dep == d;
      assert |Users(s, e)| > 0;
      var t :| t in Users(s, e);
      assert t in s.places && s.places[t].dep == d;
    }
  }

  /** The identity check before an entry is deleted never fails. */
  lemma LastUserDeletes(ss: seq<Locks>, acts: seq<LockStep>, i: nat, t: nat)
    requires Run(ss, acts) && i < |ss| && Enabled(ss[i], Unrefer(t))
    ensures
      var p := ss[i].places[t];
      p.dep in Unreferred(ss[i], t).registry <==> ss[i].entries[p.entry].users > 1
  {
    InvAlways(ss, acts, i);
  }

  /** A step with which a thread gets on: it takes a lock or gives one back. */
  predicate Progress(a: LockStep) {
    !a.Refer? && !a.AskAdmission? && !a.AskIp?
  }

  predicate Engaged(s: Locks) {
    s.places != map[] || s.wantsAdmission != {} || s.admission.Some? || s.wantsIp != {} || s.ip.Some?
  }

  /** The fixed lock order excludes deadlock: while any thread holds or awaits a lock, one of
      them can get on. */
  lemma SomeThreadCanStep(ss: seq<Locks>, acts: seq<LockStep>, i: nat) returns (a: LockStep)
    requires Run(ss, acts) && i < |ss| && Engaged(ss[i])
    ensures Enabled(ss[i], a) && Progress(a)
  {
    InvAlways(ss, acts, i);
    var s := ss[i];
    if s.ip.Some? {
      a := DropIp(s.ip.value);
    } else if s.wantsIp != {} {
      var t :| t in s.wantsIp;
      a := TakeIp(t);
    } else if s.admission.Some? {
      a := DropAdmission(s.admission.value);
    } else if s.wantsAdmission != {} {
      var t :| t in s.wantsAdmission;
      a := TakeAdmission(t);
    } else {
      var t :| t in s.places;
      a := Onward(s, t);
    }
  }

  lemma Onward(s: Locks, t: nat) returns (a: LockStep)
    requires Inv(s) && t in s.places && s.admission.None? && s.wantsAdmission == {} && s.ip.None? && s.wantsIp == {}
    ensures Enabled(s, a) && Progress(a)
  {
    var p := s.places[t];
    assert t in Users(s, p.entry);
    match p.stage {
      case Inside => a := Release(t);
      case Leaving => a := Unrefer(t);
      case Queueing =>
        if s.entries[p.entry].owner.None? {
          a := Acquire(t);
        } else {
          a := Release(s.entries[p.entry].owner.value);
        }
    }
  }

  /** The class and the threads agree: taking and giving back a reference changes the counts of
      the registry exactly as `Registry.Enter` and `Registry.Leave` do. */
  function Counters(s: Locks): Counts {
    map d | d in s.registry && s.registry[d] in s.entries :: s.entries[s.registry[d]].users
  }

  /** What taking a reference to `d` does to the count of id `k`. */
  predicate OneMore(s: Locks, s': Locks, d: nat, k: nat) {
    && k in s'.registry && s'.registry[k] in s'.entries
    && (k in s.registry ==> s.registry[k] in s.entries)
    && (k != d ==> k in s.registry)
    && s'.entries[s'.registry[k]].users
       == if k in s.registry then s.entries[s.registry[k]].users + (if k == d then 1 else 0) else 1
  }

  lemma ReferCount(s: Locks, t: nat, d: nat, spare: nat, k: nat)
    requires Named(s) && spare !in s.entries && k in Referred(s, t, d, spare).registry
    ensures OneMore(s, Referred(s, t, d, spare), d, k)
  {
  }

  lemma OneMoreIsEnter(s: Locks, s': Locks, d: nat)
    requires s'.registry.Keys == s.registry.Keys + {d}
    requires forall k | k in s'.registry :: OneMore(s, s', d, k)
    ensures Counters(s') == Entered(Counters(s), d)
  {
    var c, c' := Entered(Counters(s), d), Counters(s');
    forall k ensures k in c' <==> k in c ensures k in c' ==> c'[k] == c[k] {
      assert k in s'.registry <==> k in s'.registry.Keys;
      assert k in s'.registry ==> OneMore(s, s', d, k);
    }
  }

  lemma ReferIsEnter(s: Locks, t: nat, d: nat, spare: nat)
    requires Named(s) && spare !in s.entries
    ensures Counters(Referred(s, t, d, spare)) == Entered(Counters(s), d)
  {
    var s' := Referred(s, t, d, spare);
    forall k | k in s'.registry ensures OneMore(s, s', d, k) {
      ReferCount(s, t, d, spare, k);
    }
    OneMoreIsEnter(s, s', d);
  }

  lemma SameCounts(c: Counts, c': Counts)
    requires c.Keys == c'.Keys && forall d | d in c :: c[d] == c'[d]
    ensures c == c'
  {
  }

  lemma UnreferIsLeave(s: Locks, t: nat)
    requires Named(s) && At(s, t, Leaving)
    requires s.places[t].entry in s.entries && s.entries[s.places[t].entry].users > 0
    ensures s.places[t].dep in Counters(s) && Counters(s)[s.places[t].dep] > 0
    ensures Counters(Unreferred(s, t)) == Left(Counters(s), s.places[t].dep)
  {
    SameCounts(Counters(Unreferred(s, t)), Left(Counters(s), s.places[t].dep));
  }
}
