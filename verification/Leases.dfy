/** Static addresses: the allocator that hands them out and the preview that only looks. */
module Leases {
  import opened Rows
  import opened StaticPool

  /** A stored address text: the canonical form of an address, or any other text with what it
      parses to. */
  datatype Ip = Canonical(address: Address) | Other(text: nat, parsed: Option<Address>)

  function ParseIp(ip: Ip): Option<Address> {
    match ip
    case Canonical(a) => Some(a)
    case Other(_, p) => p
  }

  datatype Lease = Lease(net: nat, dep: nat, ip: Ip, reserved: bool)

  datatype Answer = Got(ip: Ip) | Exhausted

  // ------------------------------------------------------------------ specification

  predicate Mine(r: Lease, n: nat, d: nat) {
    r.net == n && r.dep == d
  }

  /** Index of the first row of deployment `d` in network `n`, or the number of rows. */
  function Own(rows: seq<Lease>, n: nat, d: nat): (i: nat)
    ensures i <= |rows|
    ensures i < |rows| ==> Mine(rows[i], n, d)
    ensures forall k | 0 <= k < i :: !Mine(rows[k], n, d)
  {
    if rows == [] then 0 else if Mine(rows[0], n, d) then 0 else Own(rows[1..], n, d) + 1
  }

  predicate Holds(r: Lease, p: Pool) {
    && r.reserved && ParseIp(r.ip).Some?
    && ParseIp(r.ip).value.version == p.network.version && Usable(p, ParseIp(r.ip).value.value)
  }

  /** The addresses of the pool's family that rows other than `skip` name in network `n`. */
  function Taken(rows: seq<Lease>, n: nat, v: Version, skip: nat): set<nat> {
    set i | 0 <= i < |rows| && i != skip && rows[i].net == n
            && ParseIp(rows[i].ip).Some? && ParseIp(rows[i].ip).value.version == v
      :: ParseIp(rows[i].ip).value.value
  }

  ghost predicate SmallestFree(p: Pool, taken: set<nat>, a: nat) {
    && Usable(p, a) && a !in taken
    && forall b: nat | Usable(p, b) && b !in taken :: a <= b
  }

  ghost predicate NoneFree(p: Pool, taken: set<nat>) {
    forall b: nat | Usable(p, b) :: b in taken
  }

  /** What one allocation does. */
  ghost predicate Allocates(rows: seq<Lease>, rows': seq<Lease>, n: nat, p: Pool, d: nat, r: Answer) {
    var i := Own(rows, n, d);
    if i < |rows| && Holds(rows[i], p) then rows' == rows && r == Got(rows[i].ip)
    else
      var taken := Taken(rows, n, p.network.version, i);
      if NoneFree(p, taken) then rows' == rows && r == Exhausted
      else
        && r.Got? && r.ip.Canonical? && r.ip.address.version == p.network.version
        && SmallestFree(p, taken, r.ip.address.value)
        && rows' == if i < |rows| then rows[i := rows[i].(ip := r.ip, reserved := true)]
                    else rows + [Lease(n, d, r.ip, true)]
  }

  /** What the preview answers; `d` is absent for a deployment that does not exist yet. */
  ghost predicate Previews(rows: seq<Lease>, n: nat, p: Pool, d: Option<nat>, r: Answer) {
    var i := if d.Some? then Own(rows, n, d.value) else |rows|;
    if i < |rows| && Holds(rows[i], p) then r == Got(Canonical(ParseIp(rows[i].ip).value))
    else
      var taken := Taken(rows, n, p.network.version, i);
      if NoneFree(p, taken) then r == Exhausted
      else r.Got? && r.ip.Canonical? && r.ip.address.version == p.network.version
           && SmallestFree(p, taken, r.ip.address.value)
  }

  // ------------------------------------------------------------------ job contexts

  /** The network as configured; empty texts and VLAN 0 mean "not set". */
  datatype Network = Network(id: nat, mode: string, pool: Parsed<Pool>, bridge: string, vlan: nat, dns: string)

  datatype Value = Text(text: string) | Number(number: nat) | Static(ip: Ip)
                 | IpConfig(v6: bool, ip: Ip, prefix: nat, gateway: Option<nat>)

  type Context = map<string, Value>

  datatype ContextResult = Context(ctx: Context) | InvalidPool(error: PoolError) | PoolExhausted

  function Extras(net: Network): Context {
    (if net.bridge != "" then map["bridge" := Text(net.bridge)] else map[])
    + (if net.vlan != 0 then map["vlan" := Number(net.vlan)] else map[])
    + (if net.dns != "" then map["dns" := Text(net.dns)] else map[])
  }

  function WithAddress(net: Network, p: Pool, r: Answer): ContextResult {
    if r.Exhausted? then PoolExhausted
    else Context(map["network_mode" := Text(net.mode), "static_ip" := Static(r.ip),
                     "ipconfig0" := IpConfig(p.network.version == V6, r.ip, p.network.prefix, p.gateway)] + Extras(net))
  }

  /** The context of an admitted job, with the allocation it makes. */
  ghost predicate Commits(rows: seq<Lease>, rows': seq<Lease>, net: Network, d: nat, c: ContextResult) {
    if net.mode != "static" then rows' == rows && c == Context(map["network_mode" := Text(net.mode)] + Extras(net))
    else if net.pool.Err? then rows' == rows && c == InvalidPool(net.pool.error)
    else exists r :: Allocates(rows, rows', net.id, net.pool.value, d, r) && c == WithAddress(net, net.pool.value, r)
  }

  ghost predicate Shows(rows: seq<Lease>, net: Option<Network>, d: Option<nat>, c: ContextResult) {
    if net.None? then c == Context(map["network_mode" := Text("dhcp")])
    else if net.value.mode != "static" then
      c == Context(map["network_mode" := Text(net.value.mode)] + Extras(net.value))
    else if net.value.pool.Err? then c == InvalidPool(net.value.pool.error)
    else exists r :: Previews(rows, net.value.id, net.value.pool.value, d, r)
                     && c == WithAddress(net.value, net.value.pool.value, r)
  }

  // ------------------------------------------------------------------ the allocator

  method FirstOwn(rows: seq<Lease>, n: nat, d: nat) returns (i: nat)
    ensures i == Own(rows, n, d)
  {
    i := 0;
    while i < |rows| && !Mine(rows[i], n, d)
      invariant i <= |rows|
      invariant Own(rows, n, d) == i + Own(rows[i..], n, d)
    {
      assert rows[i..][1..] == rows[i + 1..];
      i := i + 1;
    }
  }

  method CollectTaken(rows: seq<Lease>, n: nat, v: Version, skip: nat) returns (taken: set<nat>)
    ensures taken == Taken(rows, n, v, skip)
  {
    taken := {};
    var i := 0;
    while i < |rows|
      invariant i <= |rows|
      invariant taken == set k | 0 <= k < i && k != skip && rows[k].net == n
                                 && ParseIp(rows[k].ip).Some? && ParseIp(rows[k].ip).value.version == v
                           :: ParseIp(rows[k].ip).value.value
    {
      if i != skip && rows[i].net == n {
        var a := ParseIp(rows[i].ip);
        if a.Some? && a.value.version == v {
          taken := taken + {a.value.value};
        }
      }
      i := i + 1;
    }
  }

  method FirstFree(p: Pool, taken: set<nat>) returns (found: Option<nat>)
    ensures found.None? <==> NoneFree(p, taken)
    ensures found.Some? ==> SmallestFree(p, taken, found.value)
  {
    var a := p.start;
    while a <= p.end
      invariant forall b: nat | b < a && Usable(p, b) :: b in taken
      decreases p.end + 1 - a
    {
      if !IsReserved(p, a) && a !in taken {
        return Some(a);
      }
      a := a + 1;
    }
    found := None;
  }

  /** VLAN, bridge and name server, in the order of the admitted job's context. */
  method Settings(net: Network, base: Context) returns (ctx: Context)
    ensures ctx == base + Extras(net)
  {
    ctx := base;
    if net.vlan != 0 {
      ctx := ctx["vlan" := Number(net.vlan)];
    }
    if net.bridge != "" {
      ctx := ctx["bridge" := Text(net.bridge)];
    }
    if net.dns != "" {
      ctx := ctx["dns" := Text(net.dns)];
    }
  }

  class Allocator {
    var rows: seq<Lease>

    constructor ()
      ensures rows == []
    {
      rows := [];
    }

    method Allocate(n: nat, p: Pool, d: nat) returns (r: Answer)
      modifies this
      ensures Allocates(old(rows), rows, n, p, d, r)
    {
      var i := FirstOwn(rows, n, d);
      if i < |rows| && rows[i].reserved {
        var a := ParseIp(rows[i].ip);
        if a.Some? && a.value.version == p.network.version && p.start <= a.value.value <= p.end
           && !IsReserved(p, a.value.value) {
          return Got(rows[i].ip);
        }
      }
      var taken := CollectTaken(rows, n, p.network.version, i);
      var free := FirstFree(p, taken);
      if free.None? {
        return Exhausted;
      }
      var ip := Canonical(Address(p.network.version, free.value));
      if i < |rows| {
        rows := rows[i := rows[i].(ip := ip, reserved := true)];
      } else {
        rows := rows + [Lease(n, d, ip, true)];
      }
      r := Got(ip);
    }

    /** All reservations of a deployment that is given up. */
    method Free(d: nat)
      modifies this
      ensures rows == Without(old(rows), d)
    {
      var kept, i := [], 0;
      while i < |rows|
        invariant i <= |rows| && rows == old(rows)
        invariant kept == Without(rows[..i], d)
      {
        assert rows[..i + 1][..i] == rows[..i];
        if rows[i].dep != d {
          kept := kept + [rows[i]];
        }
        i := i + 1;
      }
      assert rows[..|rows|] == rows;
      rows := kept;
    }

    method Preview(n: nat, p: Pool, d: Option<nat>) returns (r: Answer)
      ensures Previews(rows, n, p, d, r)
    {
      var i := |rows|;
      if d.Some? {
        i := FirstOwn(rows, n, d.value);
      }
      if i < |rows| && rows[i].reserved {
        var a := ParseIp(rows[i].ip);
        if a.Some? && a.value.version == p.network.version && p.start <= a.value.value <= p.end
           && !IsReserved(p, a.value.value) {
          return Got(Canonical(a.value));
        }
      }
      var taken := CollectTaken(rows, n, p.network.version, i);
      var free := FirstFree(p, taken);
      r := if free.Some? then Got(Canonical(Address(p.network.version, free.value))) else Exhausted;
    }

    method NetworkContext(net: Network, d: nat) returns (c: ContextResult)
      modifies this
      ensures Commits(old(rows), rows, net, d, c)
    {
      var ctx: Context := map["network_mode" := Text(net.mode)];
      if net.mode == "static" {
        if net.pool.Err? {
          return InvalidPool(net.pool.error);
        }
        var p := net.pool.value;
        var r := Allocate(net.id, p, d);
        assert Allocates(old(rows), rows, net.id, p, d, r);
        if r.Exhausted? {
          return PoolExhausted;
        }
        ctx := ctx["static_ip" := Static(r.ip)];
        ctx := ctx["ipconfig0" := IpConfig(p.network.version == V6, r.ip, p.network.prefix, p.gateway)];
        assert Context(ctx + Extras(net)) == WithAddress(net, p, r);
      }
      ctx := Settings(net, ctx);
      c := Context(ctx);
    }

    method ReadOnlyContext(net: Option<Network>, d: Option<nat>) returns (c: ContextResult)
      ensures Shows(rows, net, d, c)
    {
      if net.None? {
        return Context(map["network_mode" := Text("dhcp")]);
      }
      var n := net.value;
      var ctx: Context := map["network_mode" := Text(n.mode)];
      if n.mode == "static" {
        if n.pool.Err? {
          return InvalidPool(n.pool.error);
        }
        var p := n.pool.value;
        var r := Preview(n.id, p, d);
        if r.Exhausted? {
          return PoolExhausted;
        }
        ctx := ctx["static_ip" := Static(r.ip)];
        ctx := ctx["ipconfig0" := IpConfig(r.ip.address.version == V6, r.ip, p.network.prefix, p.gateway)];
      }
      ghost var base := ctx;
      if n.bridge != "" {
        ctx := ctx["bridge" := Text(n.bridge)];
      }
      if n.vlan != 0 {
        ctx := ctx["vlan" := Number(n.vlan)];
      }
      if n.dns != "" {
        ctx := ctx["dns" := Text(n.dns)];
      }
      assert ctx == base + Extras(n);
      c := Context(ctx);
    }
  }

  function Without(rows: seq<Lease>, d: nat): seq<Lease> {
    if rows == [] then []
    else Without(rows[..|rows| - 1], d) + (if rows[|rows| - 1].dep == d then [] else [rows[|rows| - 1]])
  }

  // ------------------------------------------------------------------ all sequences of operations

  /** Addresses in a network are pairwise distinct, and a deployment has one row in it. */
  ghost predicate Distinct(rows: seq<Lease>) {
    forall i, k | 0 <= i < k < |rows| && rows[i].net == rows[k].net ::
      && rows[i].dep != rows[k].dep
      && (ParseIp(rows[i].ip).Some? ==> ParseIp(rows[i].ip) != ParseIp(rows[k].ip))
  }

  /** The pool is given with every allocation, so that it may have been edited in between. */
  datatype Operation = Allocation(net: nat, pool: Pool, dep: nat, answer: Answer) | Freeing(dep: nat)

  ghost predicate Performs(rows: seq<Lease>, rows': seq<Lease>, op: Operation) {
    match op
    case Allocation(n, p, d, r) => Allocates(rows, rows', n, p, d, r)
    case Freeing(d) => rows' == Without(rows, d)
  }

  lemma AllocateKeepsDistinct(rows: seq<Lease>, rows': seq<Lease>, n: nat, p: Pool, d: nat, r: Answer)
    requires Distinct(rows) && Allocates(rows, rows', n, p, d, r)
    ensures Distinct(rows')
  {
    var i := Own(rows, n, d);
    var taken := Taken(rows, n, p.network.version, i);
    if rows' != rows {
      forall k | 0 <= k < |rows| && k != i && rows[k].net == n
        ensures ParseIp(rows[k].ip) != ParseIp(r.ip) && rows[k].dep != d
      {
        var a := ParseIp(rows[k].ip);
        assert a.Some? && a.value.version == p.network.version ==> a.value.value in taken;
      }
    }
  }

  /** Freeing keeps exactly the rows of the others. */
  lemma {:induction false} WithoutExact(rows: seq<Lease>, d: nat)
    ensures forall r :: r in Without(rows, d) <==> r in rows && r.dep != d
  {
    if rows != [] {
      var n := |rows| - 1;
      WithoutExact(rows[..n], d);
      assert rows == rows[..n] + [rows[n]];
    }
  }

  lemma {:induction false} FreeKeepsDistinct(rows: seq<Lease>, d: nat)
    requires Distinct(rows)
    ensures Distinct(Without(rows, d))
  {
    if rows != [] {
      var n := |rows| - 1;
      FreeKeepsDistinct(rows[..n], d);
      WithoutExact(rows[..n], d);
      var kept := Without(rows[..n], d);
      forall i | 0 <= i < |kept| && kept[i].net == rows[n].net
        ensures kept[i].dep != rows[n].dep && (ParseIp(kept[i].ip).Some? ==> ParseIp(kept[i].ip) != ParseIp(rows[n].ip))
      {
        assert kept[i] in rows[..n];
      }
    }
  }

  /** Over every sequence of allocations, releases and pool edits. */
  lemma {:induction false} DistinctAlways(states: seq<seq<Lease>>, ops: seq<Operation>, i: nat)
    requires |states| == |ops| + 1 && Distinct(states[0]) && i < |states|
    requires forall k | 0 <= k < |ops| :: Performs(states[k], states[k + 1], ops[k])
    ensures Distinct(states[i])
  {
    if i > 0 {
      DistinctAlways(states, ops, i - 1);
      match ops[i - 1] {
        case Allocation(n, p, d, r) => AllocateKeepsDistinct(states[i - 1], states[i], n, p, d, r);
        case Freeing(d) => FreeKeepsDistinct(states[i - 1], d);
      }
    }
  }

  /** The address handed out is usable, nobody else has it, and nobody else's row changed. */
  lemma AllocationIsSafe(rows: seq<Lease>, rows': seq<Lease>, n: nat, p: Pool, d: nat, r: Answer)
    requires Distinct(rows) && Allocates(rows, rows', n, p, d, r) && r.Got?
    ensures
      && ParseIp(r.ip).Some? && ParseIp(r.ip).value.version == p.network.version && Usable(p, ParseIp(r.ip).value.value)
      && var i := Own(rows', n, d);
      && i < |rows'| && rows'[i].ip == r.ip && rows'[i].reserved
      && (forall k | 0 <= k < |rows'| && k != i && rows'[k].net == n :: ParseIp(rows'[k].ip) != ParseIp(r.ip))
      && (forall k | 0 <= k < |rows'| && k != i :: k < |rows| && rows'[k] == rows[k])
      && |rows| <= |rows'|
  {
    AllocateKeepsDistinct(rows, rows', n, p, d, r);
    var i := Own(rows, n, d);
    assert Mine(rows'[i], n, d);
    assert forall k | 0 <= k < i :: !Mine(rows'[k], n, d);
    assert Own(rows', n, d) == i;
  }

  /** Another deployment's row of network `n` names the address. */
  predicate NamedByOther(rows: seq<Lease>, n: nat, d: nat, a: Address) {
    exists k | 0 <= k < |rows| :: rows[k].net == n && rows[k].dep != d && ParseIp(rows[k].ip) == Some(a)
  }

  /** A deployment without a valid reservation gets the first usable address that no other deployment
      has in this network, and none only when others have them all; other networks do not matter. */
  lemma FirstThatNobodyHas(rows: seq<Lease>, rows': seq<Lease>, n: nat, p: Pool, d: nat, r: Answer)
    requires Distinct(rows) && Allocates(rows, rows', n, p, d, r)
    requires forall i | 0 <= i < |rows| && rows[i].net == n && rows[i].dep == d :: !Holds(rows[i], p)
    ensures r.Got? ==> ParseIp(r.ip).Some? && !NamedByOther(rows, n, d, ParseIp(r.ip).value)
    ensures forall b: nat | Usable(p, b) && (r.Got? ==> b < ParseIp(r.ip).value.value) ::
      NamedByOther(rows, n, d, Address(p.network.version, b))
  {
    var i := Own(rows, n, d);
    var taken := Taken(rows, n, p.network.version, i);
    forall b: nat ensures b in taken <==> NamedByOther(rows, n, d, Address(p.network.version, b)) {
      if b in taken {
        var k :| 0 <= k < |rows| && k != i && rows[k].net == n
                 && ParseIp(rows[k].ip) == Some(Address(p.network.version, b));
      }
    }
  }

  /** Asking again gives the same address and changes nothing. */
  lemma AllocationIsStable(
      rows: seq<Lease>, rows1: seq<Lease>, rows2: seq<Lease>, n: nat, p: Pool, d: nat, r1: Answer, r2: Answer)
    requires Distinct(rows) && Allocates(rows, rows1, n, p, d, r1) && r1.Got?
    requires Allocates(rows1, rows2, n, p, d, r2)
    ensures r2 == r1 && rows2 == rows1
  {
    AllocationIsSafe(rows, rows1, n, p, d, r1);
  }

  /** A deployment without valid reservation is refused exactly when the usable addresses others
      hold are as many as the pool has. */
  lemma ExhaustedIffFull(rows: seq<Lease>, rows': seq<Lease>, n: nat, p: Pool, d: nat, r: Answer)
    requires p.start <= p.end && Allocates(rows, rows', n, p, d, r)
    requires var i := Own(rows, n, d); i < |rows| ==> !Holds(rows[i], p)
    ensures r == Exhausted <==>
      |Taken(rows, n, p.network.version, Own(rows, n, d)) * UsableSet(p)| == UsableTotal(p)
  {
    var taken, usable := Taken(rows, n, p.network.version, Own(rows, n, d)), UsableSet(p);
    UsableTotalIsCount(p);
    if NoneFree(p, taken) {
      assert taken * usable == usable;
    } else {
      var b: nat :| Usable(p, b) && b !in taken;
      assert b in usable && b !in taken * usable;
      ProperIsSmaller(taken * usable, usable, b);
    }
  }

  lemma ProperIsSmaller(a: set<nat>, b: set<nat>, x: nat)
    requires a <= b && x in b && x !in a
    ensures |a| < |b|
  {
    assert a <= b - {x};
    SubsetIsNotLarger(a, b - {x});
  }

  lemma {:induction false} SubsetIsNotLarger(a: set<nat>, b: set<nat>)
    requires a <= b
    ensures |a| <= |b|
    decreases a
  {
    if a != {} {
      var x :| x in a;
      SubsetIsNotLarger(a - {x}, b - {x});
    }
  }

  // ------------------------------------------------------------------ preview and commit

  ghost predicate AllCanonical(rows: seq<Lease>) {
    forall i | 0 <= i < |rows| && ParseIp(rows[i].ip).Some? :: rows[i].ip.Canonical?
  }

  /** The preview answers what the allocation will answer. */
  lemma PreviewIsCommit(
      rows: seq<Lease>, rows': seq<Lease>, n: nat, p: Pool, d: nat, r: Answer, preview: Answer)
    requires AllCanonical(rows)
    requires Allocates(rows, rows', n, p, d, r) && Previews(rows, n, p, Some(d), preview)
    ensures preview == r
  {
  }

  /** The whole preview, with its errors, is the context the admitted job will get. */
  lemma PreviewRefinesCommit(
      rows: seq<Lease>, rows': seq<Lease>, net: Network, d: nat, commit: ContextResult, preview: ContextResult)
    requires AllCanonical(rows)
    requires Commits(rows, rows', net, d, commit) && Shows(rows, Some(net), Some(d), preview)
    ensures preview == commit
  {
    if net.mode == "static" && net.pool.Ok? {
      var r :| Allocates(rows, rows', net.id, net.pool.value, d, r) && commit == WithAddress(net, net.pool.value, r);
      var q :| Previews(rows, net.id, net.pool.value, Some(d), q) && preview == WithAddress(net, net.pool.value, q);
      PreviewIsCommit(rows, rows', net.id, net.pool.value, d, r, q);
    }
  }

  /** The one difference: a reservation stored in another spelling is returned as stored, but
      previewed in canonical form. */
  lemma PreviewDiffersIffSpelling(
      rows: seq<Lease>, rows': seq<Lease>, n: nat, p: Pool, d: nat, r: Answer, preview: Answer)
    requires Allocates(rows, rows', n, p, d, r) && Previews(rows, n, p, Some(d), preview)
    ensures preview == r <==> var i := Own(rows, n, d); !(i < |rows| && Holds(rows[i], p) && rows[i].ip.Other?)
    ensures preview.Got? <==> r.Got?
    ensures preview.Got? ==> ParseIp(preview.ip) == ParseIp(r.ip)
  {
  }

  /** It happens for every pool: a valid reservation of any usable address, in another spelling. */
  lemma SpellingMakesADifference(n: nat, p: Pool, d: nat, a: nat, spelling: nat)
    returns (rows: seq<Lease>, r: Answer, preview: Answer)
    requires Usable(p, a)
    ensures Allocates(rows, rows, n, p, d, r) && Previews(rows, n, p, Some(d), preview)
    ensures preview != r
  {
    var address := Address(p.network.version, a);
    rows := [Lease(n, d, Other(spelling, Some(address)), true)];
    r, preview := Got(rows[0].ip), Got(Canonical(address));
    assert Own(rows, n, d) == 0 && Holds(rows[0], p);
  }

  /** A preview for a deployment that does not exist yet answers for the next one. */
  lemma PreviewOfNewcomer(rows: seq<Lease>, n: nat, p: Pool, d: nat, r: Answer)
    requires forall i | 0 <= i < |rows| :: !Mine(rows[i], n, d)
    ensures Previews(rows, n, p, None, r) <==> Previews(rows, n, p, Some(d), r)
  {
  }

  // ------------------------------------------------------------------ what a context holds

  /** After an allocation the first row of the deployment records the address that was handed out. */
  lemma AllocationIsRecorded(rows: seq<Lease>, rows': seq<Lease>, n: nat, p: Pool, d: nat, r: Answer)
    requires Allocates(rows, rows', n, p, d, r) && r.Got?
    ensures
      var i := Own(rows', n, d);
      i < |rows'| && rows'[i].net == n && rows'[i].dep == d && rows'[i].reserved && rows'[i].ip == r.ip
  {
    var i, k := Own(rows, n, d), Own(rows', n, d);
    assert Mine(rows'[i], n, d);
    assert forall m | 0 <= m < i :: !Mine(rows'[m], n, d);
    assert k == i;
  }

  /** No deployment gets the network's own address, its broadcast address, or its gateway. */
  lemma ReservedIsNotHandedOut(rows: seq<Lease>, rows': seq<Lease>, n: nat, p: Pool, d: nat, r: Answer)
    requires Allocates(rows, rows', n, p, d, r) && r.Got?
    ensures ParseIp(r.ip).Some?
    ensures
      var a := ParseIp(r.ip).value;
      && a.version == p.network.version && p.start <= a.value <= p.end
      && a.value != p.network.first && (a.version == V4 ==> a.value != p.network.last)
      && p.gateway != Some(a.value)
  {
  }

  /** VLAN, bridge and name server are there exactly when set, as configured. */
  predicate Configured(ctx: Context, net: Network) {
    && ("vlan" in ctx <==> net.vlan != 0) && ("vlan" in ctx ==> ctx["vlan"] == Number(net.vlan))
    && ("bridge" in ctx <==> net.bridge != "") && ("bridge" in ctx ==> ctx["bridge"] == Text(net.bridge))
    && ("dns" in ctx <==> net.dns != "") && ("dns" in ctx ==> ctx["dns"] == Text(net.dns))
  }

  /** The address, with the family and prefix of the network and exactly the pool's gateway. */
  predicate Addressed(ctx: Context, p: Pool, ip: Ip) {
    && "static_ip" in ctx && ctx["static_ip"] == Static(ip)
    && "ipconfig0" in ctx && ctx["ipconfig0"].IpConfig? && ctx["ipconfig0"].ip == ip
    && (ctx["ipconfig0"].v6 <==> p.network.version == V6)
    && ctx["ipconfig0"].prefix == p.network.prefix && ctx["ipconfig0"].gateway == p.gateway
  }

  predicate InMode(ctx: Context, mode: string) {
    && "network_mode" in ctx && ctx["network_mode"] == Text(mode)
    && forall k | k in ctx ::
         k == "network_mode" || k == "static_ip" || k == "ipconfig0" || k == "vlan" || k == "bridge" || k == "dns"
  }

  predicate Unaddressed(ctx: Context) {
    "static_ip" !in ctx && "ipconfig0" !in ctx
  }

  lemma StaticAddress(net: Network, p: Pool, ip: Ip)
    ensures
      var c := WithAddress(net, p, Got(ip));
      c.Context? && InMode(c.ctx, net.mode) && Addressed(c.ctx, p, ip)
  {
  }

  lemma StaticHolds(net: Network, p: Pool, ip: Ip)
    ensures
      var c := WithAddress(net, p, Got(ip));
      c.Context? && InMode(c.ctx, net.mode) && Configured(c.ctx, net) && Addressed(c.ctx, p, ip)
  {
    hide Addressed, InMode;
    StaticAddress(net, p, ip);
  }

  lemma PlainHolds(net: Network)
    ensures
      var ctx: Context := map["network_mode" := Text(net.mode)] + Extras(net);
      InMode(ctx, net.mode) && Configured(ctx, net) && Unaddressed(ctx)
  {
  }

  /** The context of an admitted job: on a static network it has the address that is recorded for the
      deployment, and otherwise none. */
  lemma CommittedContext(rows: seq<Lease>, rows': seq<Lease>, net: Network, d: nat, c: ContextResult)
    requires Commits(rows, rows', net, d, c) && c.Context?
    ensures InMode(c.ctx, net.mode) && Configured(c.ctx, net)
    ensures net.mode != "static" ==> Unaddressed(c.ctx) && rows' == rows
    ensures net.mode == "static" ==>
      && net.pool.Ok?
      && var i := Own(rows', net.id, d);
      && i < |rows'| && rows'[i].net == net.id && rows'[i].dep == d && rows'[i].reserved
      && Addressed(c.ctx, net.pool.value, rows'[i].ip)
  {
    hide InMode, Configured, Addressed, Unaddressed, Extras;
    if net.mode == "static" {
      var r :| Allocates(rows, rows', net.id, net.pool.value, d, r) && c == WithAddress(net, net.pool.value, r);
      AllocationIsRecorded(rows, rows', net.id, net.pool.value, d, r);
      StaticHolds(net, net.pool.value, r.ip);
    } else {
      PlainHolds(net);
    }
  }

  /** The previewed context: without network it says so, and on a static network it has the canonical form
      of the address that the preview found. */
  lemma PreviewedContext(rows: seq<Lease>, net: Option<Network>, d: Option<nat>, c: ContextResult)
    requires Shows(rows, net, d, c) && c.Context?
    ensures net.None? ==> c.ctx == map["network_mode" := Text("dhcp")]
    ensures net.Some? ==> InMode(c.ctx, net.value.mode) && Configured(c.ctx, net.value)
    ensures net.Some? && net.value.mode != "static" ==> Unaddressed(c.ctx)
    ensures net.Some? && net.value.mode == "static" ==>
      && net.value.pool.Ok?
      && exists r :: Previews(rows, net.value.id, net.value.pool.value, d, Got(Canonical(r)))
                     && Addressed(c.ctx, net.value.pool.value, Canonical(r))
  {
    hide InMode, Configured, Addressed, Unaddressed, Extras;
    if net.Some? && net.value.mode == "static" {
      var r :| Previews(rows, net.value.id, net.value.pool.value, d, r)
               && c == WithAddress(net.value, net.value.pool.value, r);
      assert r == Got(Canonical(r.ip.address));
      StaticHolds(net.value, net.value.pool.value, r.ip);
    } else if net.Some? {
      PlainHolds(net.value);
    }
  }

  /** A job gets no context exactly when its static network cannot be parsed, or has no address left. */
  lemma ContextIsRefused(rows: seq<Lease>, rows': seq<Lease>, net: Network, d: nat, c: ContextResult)
    requires Commits(rows, rows', net, d, c)
    ensures c.InvalidPool? <==> net.mode == "static" && net.pool.Err?
    ensures c.InvalidPool? ==> c.error == net.pool.error
    ensures c.PoolExhausted? <==>
      net.mode == "static" && net.pool.Ok? && Allocates(rows, rows, net.id, net.pool.value, d, Exhausted)
    ensures !c.Context? ==> rows' == rows
  {
    if net.mode == "static" && net.pool.Ok? {
      var r :| Allocates(rows, rows', net.id, net.pool.value, d, r) && c == WithAddress(net, net.pool.value, r);
    }
  }
}
