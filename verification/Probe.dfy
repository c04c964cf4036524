/** Where the tri-state evidence comes from: the guest listing, and the registry that sees every guest. */
module Probe {
  import opened Rows
  import opened Machine

  /** One row of the listing; anything without a full identity is malformed. */
  datatype Row = Malformed | Guest(vmid: int, qemu: bool, node: string)

  datatype Listing = Unavailable | NotPermitted | Listed(rows: seq<Row>)

  /** The registry's answer about one id: it confirms that very id, or it does not. */
  datatype Answer = Confirmed(vmid: int) | Refused

  datatype Found = OnNode(node: string) | Nowhere | Undecided

  /** The guests that really exist. */
  type Cluster = map<int, Row>

  /** The listing names existing guests only, though perhaps not all of them; the registry
      confirms an id only when no guest has it. */
  ghost predicate Honest(c: Cluster, l: Listing, registry: int -> Answer) {
    && (l.Listed? ==> forall g | g in l.rows && g.Guest? :: g.vmid in c && c[g.vmid] == g)
    && forall v :: registry(v) == Confirmed(v) ==> v !in c
  }

  /** The listing can be used: permitted, every identity complete, no id twice. */
  predicate Complete(l: Listing) {
    && l.Listed?
    && (forall i | 0 <= i < |l.rows| :: l.rows[i].Guest? && l.rows[i].vmid > 0)
    && (forall i, k | 0 <= i < k < |l.rows| :: l.rows[i].vmid != l.rows[k].vmid)
  }

  predicate Lists(l: Listing, v: int) {
    l.Listed? && exists i | 0 <= i < |l.rows| :: l.rows[i].Guest? && l.rows[i].vmid == v
  }

  method ListGuests(l: Listing) returns (guests: Option<seq<Row>>)
    ensures guests.Some? <==> Complete(l)
    ensures guests.Some? ==> guests.value == l.rows
  {
    if !l.Listed? {
      return None;
    }
    var seen: set<int> := {};
    var i := 0;
    while i < |l.rows|
      invariant i <= |l.rows|
      invariant forall k | 0 <= k < i :: l.rows[k].Guest? && l.rows[k].vmid > 0 && l.rows[k].vmid in seen
      invariant forall v | v in seen :: exists k | 0 <= k < i :: l.rows[k].Guest? && l.rows[k].vmid == v
      invariant forall j, k | 0 <= j < k < i :: l.rows[j].vmid != l.rows[k].vmid
    {
      var g := l.rows[i];
      if !g.Guest? || g.vmid <= 0 || g.vmid in seen {
        return None;
      }
      seen := seen + {g.vmid};
      i := i + 1;
    }
    guests := Some(l.rows);
  }

  /** Nobody has this id: a complete listing without it, and the registry's word. */
  predicate ProvenFree(l: Listing, registry: int -> Answer, v: int) {
    Complete(l) && !Lists(l, v) && registry(v) == Confirmed(v)
  }

  /** What each of the three answers takes. */
  predicate Probed(client: bool, l: Listing, registry: int -> Answer, vmid: Option<nat>, p: Presence) {
    && (p == Absent <==>
          vmid.None? || (client && ProvenFree(l, registry, vmid.value)))
    && (p == Present <==> vmid.Some? && client && Complete(l) && Lists(l, vmid.value))
  }

  /** Absence takes a complete listing without the id and the registry's word for it. */
  method ProbeVmPresence(client: bool, l: Listing, registry: int -> Answer, vmid: Option<nat>) returns (p: Presence)
    ensures Probed(client, l, registry, vmid, p)
  {
    if vmid.None? {
      return Absent;
    }
    if !client {
      return Unknown;
    }
    var guests := ListGuests(l);
    if guests.None? {
      return Unknown;
    }
    if exists i | 0 <= i < |guests.value| :: guests.value[i].Guest? && guests.value[i].vmid == vmid.value {
      return Present;
    }
    if registry(vmid.value) != Confirmed(vmid.value) {
      return Unknown;
    }
    p := Absent;
  }

  /** The node of a VM; `Nowhere` is proven absence. */
  method FindVmNode(l: Listing, registry: int -> Answer, v: int) returns (f: Found)
    ensures f.OnNode? ==> Complete(l) && Guest(v, true, f.node) in l.rows
    ensures Complete(l) ==> forall node | Guest(v, true, node) in l.rows :: f == OnNode(node)
    ensures f.Nowhere? <==> ProvenFree(l, registry, v)
  {
    var guests := ListGuests(l);
    if guests.None? {
      return Undecided;
    }
    var i := 0;
    while i < |guests.value|
      invariant i <= |guests.value|
      invariant forall k | 0 <= k < i :: guests.value[k].vmid != v
    {
      var g := guests.value[i];
      if g.vmid == v {
        return if g.qemu then OnNode(g.node) else Undecided;
      }
      i := i + 1;
    }
    f := if registry(v) == Confirmed(v) then Nowhere else Undecided;
  }

  /** The smallest id that is not listed, provided the registry confirms it: a hidden guest makes
      the search fail, not skip. */
  method NextFreeVmid(l: Listing, registry: int -> Answer, lo: int, hi: int) returns (v: Option<int>)
    ensures v.Some? ==>
      && lo <= v.value <= hi && ProvenFree(l, registry, v.value)
      && forall u | lo <= u < v.value :: Lists(l, u)
    ensures v.None? ==>
      || !Complete(l)
      || (forall u | lo <= u <= hi :: Lists(l, u))
      || exists u | lo <= u <= hi :: !Lists(l, u) && registry(u) != Confirmed(u) && forall w | lo <= w < u ::
        Lists(l, w)
  {
    var guests := ListGuests(l);
    if guests.None? {
      return None;
    }
    var u := lo;
    while u <= hi
      invariant forall w | lo <= w < u && w <= hi :: Lists(l, w)
      decreases hi + 1 - u
    {
      if !Lists(l, u) {
        if registry(u) != Confirmed(u) {
          return None;
        }
        return Some(u);
      }
      u := u + 1;
    }
    v := None;
  }

  // ------------------------------------------------------------------ truth

  /** Whatever an honest cluster answers, however much of it is hidden or broken: presence and
      absence, when reported, are true. */
  lemma EvidenceIsTrue(c: Cluster, l: Listing, registry: int -> Answer, v: int)
    requires Honest(c, l, registry)
    ensures Complete(l) && Lists(l, v) ==> v in c
    ensures Complete(l) && !Lists(l, v) && registry(v) == Confirmed(v) ==> v !in c
  {
    if Lists(l, v) {
      var i :| 0 <= i < |l.rows| && l.rows[i].Guest? && l.rows[i].vmid == v;
      assert l.rows[i] in l.rows;
    }
  }

  /** The listing alone is no proof: an existing guest may be hidden from it. */
  lemma ListingAloneIsNotEnough()
    ensures exists c: Cluster, l, registry :: Honest(c, l, registry) && Complete(l) && !Lists(l, 100) && 100 in c
  {
    var c: Cluster := map[100 := Guest(100, true, "pve")];
    var l := Listed([]);
    var registry := (v: int) => Answer.Refused;
    assert Honest(c, l, registry) && Complete(l) && !Lists(l, 100) && 100 in c;
  }

  // ------------------------------------------------------------------ evidence in the state machine

  /** The cluster of the state machine, as the listing would see all of it. */
  ghost predicate Pictures(c: Cluster, w: World) {
    forall v: nat :: v in c <==> v in w.vms
  }

  /** The probe of the code is a probe that the machine allows. */
  lemma ProbeIsTruthful(
      w: World, c: Cluster, client: bool, l: Listing, registry: int -> Answer, vmid: Option<nat>, p: Presence)
    requires Pictures(c, w) && Honest(c, l, registry) && Probed(client, l, registry, vmid, p)
    ensures Truthful(w, vmid, p)
  {
    if vmid.Some? {
      EvidenceIsTrue(c, l, registry, vmid.value);
    }
  }

  /** So is the proof of absence that lets a rebuild or a destroy go on. */
  lemma NowhereIsGone(w: World, c: Cluster, l: Listing, registry: int -> Answer, j: nat)
    requires Pictures(c, w) && Honest(c, l, registry)
    requires At(w, j, Begun) && OnVmid(w, j) && SettledTask(w, j)
    requires w.db.jobs[j].kind == Rebuild || w.db.jobs[j].kind == Destroy
    requires ProvenFree(l, registry, w.db.deps[w.db.jobs[j].dep].vmid.value)
    ensures CanProveGone(w, j)
  {
    EvidenceIsTrue(c, l, registry, w.db.deps[w.db.jobs[j].dep].vmid.value);
  }

  /** A VMID that the search finds belongs to no guest of the cluster, hidden or not, so a deploy
      may select it. */
  lemma FreshVmidIsFree(w: World, c: Cluster, l: Listing, registry: int -> Answer, j: nat, v: nat)
    requires Pictures(c, w) && Honest(c, l, registry) && ProvenFree(l, registry, v)
    requires OnRow(w, j) && w.db.jobs[j].kind == Deploy && At(w, j, Begun)
    requires w.db.deps[w.db.jobs[j].dep].vmid.None?
    ensures CanSelect(w, j, v)
  {
    EvidenceIsTrue(c, l, registry, v);
  }
}
