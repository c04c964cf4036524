/** The background inventory cache: bounded probing, and snapshots that survive edits of the
    connection they were taken from. */
module Inventory {
  import opened Rows

  /** What a finished probe brought: an inventory, or an error. */
  datatype Outcome = Success(inventory: nat, at: int) | Failure(at: int)

  /** A published snapshot; `inventory` is absent while no probe has succeeded. */
  datatype Snapshot = Snapshot(
    online: bool, inventory: Option<nat>, updatedAt: Option<int>, completed: int, failed: bool)

  /** What a reader gets: defaults filled in, and whether the data is fresh. */
  datatype View = View(known: bool, online: bool, inventory: Option<nat>, updatedAt: Option<int>,
                       completed: Option<int>, failed: bool, stale: bool)

  // ------------------------------------------------------------------ the reference: a log of events

  datatype Event = Submitted(conn: nat) | Invalidated(conn: nat) | Completed(conn: nat, outcome: Outcome)

  /** What the log says about one connection: whether a probe is in flight, whether it was
      submitted since the last invalidation, and the outcomes of the completed ones that were. */
  datatype Track = Track(inflight: bool, current: bool, outcomes: seq<Outcome>)

  function After(t: Track, e: Event, c: nat): Track {
    if e.conn != c then t
    else match e
      case Submitted(_) => t.(inflight := true, current := true)
      case Invalidated(_) => t.(current := false, outcomes := [])
      case Completed(_, o) => Track(false, false, if t.current then t.outcomes + [o] else t.outcomes)
  }

  function Tracked(log: seq<Event>, c: nat): Track {
    if log == [] then Track(false, false, []) else After(Tracked(log[..|log| - 1], c), log[|log| - 1], c)
  }

  lemma OneMore(log: seq<Event>, e: Event)
    ensures forall c :: Tracked(log + [e], c) == After(Tracked(log, c), e, c)
  {
    assert (log + [e])[..|log + [e]| - 1] == log;
  }

  /** Success replaces, failure keeps the old data and marks it offline. */
  function Completion(before: Option<Snapshot>, o: Outcome): Snapshot {
    match o
    case Success(inventory, at) => Snapshot(true, Some(inventory), Some(at), at, false)
    case Failure(at) =>
      if before.None? then Snapshot(false, None, None, at, true)
      else before.value.(online := false, completed := at, failed := true)
  }

  function Fold(outcomes: seq<Outcome>): Option<Snapshot> {
    if outcomes == [] then None
    else Some(Completion(Fold(outcomes[..|outcomes| - 1]), outcomes[|outcomes| - 1]))
  }

  // ------------------------------------------------------------------ the cache

  class InventoryCache {
    const ttl: int
    const maxWorkers: nat
    var inflight: set<nat>
    var snapshots: map<nat, Snapshot>
    var generations: map<nat, nat>
    var stopped: bool
    ghost var log: seq<Event>
    ghost var submitted: map<nat, nat>   // generation each probe in flight was submitted with

    function Generation(c: nat): nat
      reads this
    {
      if c in generations then generations[c] else 0
    }

    function Published(c: nat): Option<Snapshot>
      reads this
    {
      if c in snapshots then Some(snapshots[c]) else None
    }

    /** At most one probe a connection and `maxWorkers` in all, and every published snapshot is
        the fold of the completions of exactly the probes submitted since the last invalidation. */
    ghost predicate Valid()
      reads this
    {
      && |inflight| <= maxWorkers
      && inflight == submitted.Keys
      && forall c :: Agrees(Tracked(log, c), c)
    }

    /** Fields and log agree on connection `c`. */
    ghost predicate Agrees(t: Track, c: nat)
      reads this
    {
      && t.inflight == (c in submitted)
      && Published(c) == Fold(t.outcomes)
      && (c in submitted ==> submitted[c] <= Generation(c))
      && t.current == (c in submitted && submitted[c] == Generation(c))
    }

    constructor (ttl: int, maxWorkers: nat)
      ensures Valid() && this.ttl == ttl && this.maxWorkers == maxWorkers && log == [] && !stopped
    {
      this.ttl := ttl;
      this.maxWorkers := maxWorkers;
      inflight, snapshots, generations, stopped, log, submitted := {}, map[], map[], false, [], map[];
    }

    predicate Fresh(c: nat, now: int)
      reads this
    {
      c in snapshots && now - snapshots[c].completed < ttl
    }

    /** Submit a probe, unless the cache is stopped, the source disabled or being probed, its
        data fresh, or all workers busy. */
    method Refresh(c: nat, disabled: bool, force: bool, now: int) returns (started: bool)
      requires Valid()
      modifies this`inflight, this`log, this`submitted
      ensures Valid()
      ensures started <==> !stopped && !disabled && c !in old(inflight) && (force || !Fresh(c, now))
                           && |old(inflight)| < maxWorkers
      ensures log == if started then old(log) + [Submitted(c)] else old(log)
      ensures inflight == if started then old(inflight) + {c} else old(inflight)
    {
      if stopped || disabled || c in inflight {
        return false;
      }
      if !force && c in snapshots && now - snapshots[c].completed < ttl {
        return false;
      }
      if |inflight| >= maxWorkers {
        return false;
      }
      inflight := inflight + {c};
      submitted := submitted[c := Generation(c)];
      log := log + [Submitted(c)];
      OneMore(old(log), Submitted(c));
      return true;
    }

    method Invalidate(c: nat)
      requires Valid()
      modifies this`snapshots, this`generations, this`log
      ensures Valid() && log == old(log) + [Invalidated(c)]
      ensures Published(c) == None && Generation(c) == old(Generation(c)) + 1
      ensures forall k | k != c :: Published(k) == old(Published(k)) && Generation(k) == old(Generation(k))
    {
      snapshots := snapshots - {c};
      generations := generations[c := Generation(c) + 1];
      log := log + [Invalidated(c)];
      OneMore(old(log), Invalidated(c));
      assert Tracked(log, c).outcomes == [] && !Tracked(log, c).current;
      forall k ensures Agrees(Tracked(log, k), k) {
        assert old(Agrees(Tracked(log, k), k));
        assert k != c ==> Tracked(log, k) == Tracked(old(log), k);
      }
    }

    /** The end of a probe; `generation` is the one it was submitted with. */
    method Complete(c: nat, generation: nat, outcome: Outcome)
      requires Valid() && c in submitted && generation == submitted[c]
      modifies this`inflight, this`snapshots, this`log, this`submitted
      ensures Valid() && log == old(log) + [Completed(c, outcome)] && inflight == old(inflight) - {c}
      ensures Published(c) ==
        if generation == Generation(c) then Some(Completion(old(Published(c)), outcome)) else old(Published(c))
      ensures forall k | k != c :: Published(k) == old(Published(k))
    {
      ghost var before := Tracked(log, c);
      Fewer(inflight, c);
      inflight := inflight - {c};
      submitted := submitted - {c};
      log := log + [Completed(c, outcome)];
      OneMore(old(log), Completed(c, outcome));
      if generation == Generation(c) {
        var data;
        match outcome {
          case Success(inventory, at) =>
            data := Snapshot(true, Some(inventory), Some(at), at, false);
          case Failure(at) =>
            if c in snapshots {
              data := snapshots[c].(online := false, completed := at, failed := true);
            } else {
              data := Snapshot(false, None, None, at, true);
            }
        }
        snapshots := snapshots[c := data];
        assert (before.outcomes + [outcome])[..|before.outcomes|] == before.outcomes;
      }
    }

    /** From now on `Refresh` submits nothing; probes in flight still complete. */
    method Stop()
      requires Valid()
      modifies this`stopped
      ensures Valid() && stopped
    {
      stopped := true;
    }

    /** A reader copies the snapshot and never waits for a probe. */
    method Read(c: nat, now: int) returns (v: View)
      requires Valid()
      ensures v.known <==> Tracked(log, c).outcomes != []
      ensures v.known ==>
        var s := Fold(Tracked(log, c).outcomes).value;
        v == View(true, s.online, s.inventory, s.updatedAt, Some(s.completed), s.failed,
                  s.failed || now - s.completed >= ttl)
      ensures !v.known ==> v == View(false, false, None, None, None, false, true)
    {
      assert Published(c) == Fold(Tracked(log, c).outcomes);
      if c in snapshots {
        var s := snapshots[c];
        v := View(true, s.online, s.inventory, s.updatedAt, Some(s.completed), s.failed,
                  s.failed || now - s.completed >= ttl);
      } else {
        v := View(false, false, None, None, None, false, true);
      }
    }
  }

  lemma Fewer(s: set<nat>, x: nat)
    requires x in s
    ensures |s - {x}| < |s|
  {
    assert s == s - {x} + {x};
  }

  // ------------------------------------------------------------------ what the reference means

  /** Index of the last successful outcome, or -1. */
  function LastSuccess(outcomes: seq<Outcome>): (i: int)
    ensures -1 <= i < |outcomes|
    ensures i >= 0 ==> outcomes[i].Success?
    ensures forall k | i < k < |outcomes| :: outcomes[k].Failure?
  {
    if outcomes == [] then -1
    else if outcomes[|outcomes| - 1].Success? then |outcomes| - 1
    else LastSuccess(outcomes[..|outcomes| - 1])
  }

  /** The data shown is that of the last success; it is online exactly when nothing failed since. */
  lemma {:induction false} FoldMeaning(outcomes: seq<Outcome>)
    requires outcomes != []
    ensures
      var s, i := Fold(outcomes).value, LastSuccess(outcomes);
      && s.completed == outcomes[|outcomes| - 1].at
      && (s.online <==> i == |outcomes| - 1) && s.failed == !s.online
      && (s.inventory == if i >= 0 then Some(outcomes[i].inventory) else None)
      && (s.updatedAt == if i >= 0 then Some(outcomes[i].at) else None)
  {
    var n := |outcomes| - 1;
    if n > 0 && outcomes[n].Failure? {
      FoldMeaning(outcomes[..n]);
    }
  }

  /** Nothing that happens on connection `c`, but perhaps further edits. */
  predicate Spared(more: seq<Event>, c: nat) {
    forall i | 0 <= i < |more| :: more[i].conn == c ==> more[i].Invalidated?
  }

  /** From an edit on nothing counts until a probe is submitted. */
  lemma {:induction false} EditedStaysEmpty(log: seq<Event>, between: seq<Event>, c: nat)
    requires Spared(between, c)
    ensures !Tracked(log + [Invalidated(c)] + between, c).current
    ensures Tracked(log + [Invalidated(c)] + between, c).outcomes == []
  {
    var upTo := log + [Invalidated(c)];
    var all := upTo + between;
    if between == [] {
      assert all == upTo;
      OneMore(log, Invalidated(c));
    } else {
      var n := |between| - 1;
      EditedStaysEmpty(log, between[..n], c);
      OneMore(upTo + between[..n], between[n]);
      assert all == upTo + between[..n] + [between[n]];
    }
  }

  /** A probe that was running when its connection was edited is never published: whatever
      happens elsewhere meanwhile, and however often the connection is edited again, its completion
      leaves the connection without a snapshot. */
  lemma EditedProbeIsDropped(log: seq<Event>, between: seq<Event>, c: nat, o: Outcome)
    requires Spared(between, c)
    ensures Fold(Tracked(log + [Invalidated(c)] + between + [Completed(c, o)], c).outcomes) == None
  {
    EditedStaysEmpty(log, between, c);
    OneMore(log + [Invalidated(c)] + between, Completed(c, o));
  }
}
