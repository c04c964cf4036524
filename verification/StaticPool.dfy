/** Usable addresses of a static network pool. */
module StaticPool {
  import opened Rows

  datatype Version = V4 | V6

  datatype Address = Address(version: Version, value: nat)

  /** A network by its first and last address (host bits of the prefix cleared and set). */
  datatype Net = Net(version: Version, first: nat, last: nat, prefix: nat)

  datatype Pool = Pool(network: Net, start: nat, end: nat, gateway: Option<nat>)

  datatype PoolError = MissingRange | BadSubnet | BadStart | BadEnd | MixedFamilies | Reversed | OutsideSubnet
                     | BadGateway | GatewayFamily | GatewayOutside

  datatype Parsed<+T> = Ok(value: T) | Err(error: PoolError)

  /** A configured text after parsing: left blank, not parseable, or a value. */
  datatype Field<+T> = Blank | Malformed | Given(value: T)

  predicate Within(n: Net, a: nat) {
    n.first <= a <= n.last
  }

  predicate WellFormed(p: Pool) {
    && p.network.first <= p.start <= p.end <= p.network.last
    && (p.gateway.Some? ==> Within(p.network, p.gateway.value))
  }

  /** What each error says about the settings. */
  predicate Fails(
      e: PoolError, subnet: Field<Net>, start: Field<Address>, end: Field<Address>, gateway: Field<Address>)
  {
    match e
    case MissingRange => start.Blank? || end.Blank?
    case BadSubnet => !subnet.Given?
    case BadStart => start.Malformed?
    case BadEnd => end.Malformed?
    case MixedFamilies =>
      subnet.Given? && start.Given? && end.Given?
      && !(start.value.version == end.value.version == subnet.value.version)
    case Reversed => start.Given? && end.Given? && start.value.value > end.value.value
    case OutsideSubnet =>
      subnet.Given? && start.Given? && end.Given?
      && !(subnet.value.first <= start.value.value <= subnet.value.last
           && subnet.value.first <= end.value.value <= subnet.value.last)
    case BadGateway => gateway.Malformed?
    case GatewayFamily => subnet.Given? && gateway.Given? && gateway.value.version != subnet.value.version
    case GatewayOutside =>
      subnet.Given? && gateway.Given? && !(subnet.value.first <= gateway.value.value <= subnet.value.last)
  }

  /** The order of the checks. */
  function Rank(e: PoolError): nat {
    match e
    case MissingRange => 0
    case BadSubnet => 1
    case BadStart => 2
    case BadEnd => 3
    case MixedFamilies => 4
    case Reversed => 5
    case OutsideSubnet => 6
    case BadGateway => 7
    case GatewayFamily => 8
    case GatewayOutside => 9
  }

  /** The error is that of the first check that fails. */
  lemma FirstFailingCheck(subnet: Field<Net>, start: Field<Address>, end: Field<Address>, gateway: Field<Address>)
    ensures
      match Parse(subnet, start, end, gateway)
      case Ok(_) => forall e :: !Fails(e, subnet, start, end, gateway)
      case Err(first) =>
        && Fails(first, subnet, start, end, gateway)
        && forall e | Fails(e, subnet, start, end, gateway) :: Rank(first) <= Rank(e)
  {
    forall e | Fails(e, subnet, start, end, gateway)
      ensures Parse(subnet, start, end, gateway).Err? && Rank(Parse(subnet, start, end, gateway).error) <= Rank(e)
    {
    }
  }

  /** The checks in their order; what parses is a well-formed pool of one address family. */
  function Parse(subnet: Field<Net>, start: Field<Address>, end: Field<Address>, gateway: Field<Address>)
    : (r: Parsed<Pool>)
    ensures r.Ok? <==>
      && subnet.Given? && start.Given? && end.Given? && !gateway.Malformed?
      && start.value.version == end.value.version == subnet.value.version
      && subnet.value.first <= start.value.value <= end.value.value <= subnet.value.last
      && (gateway.Given? ==> gateway.value.version == subnet.value.version && Within(subnet.value, gateway.value.value))
    ensures r.Ok? ==> WellFormed(r.value) && r.value.network == subnet.value
    ensures r.Ok? ==> r.value.start == start.value.value && r.value.end == end.value.value
    ensures r.Ok? && gateway.Given? ==> r.value.gateway == Some(gateway.value.value)
    ensures r.Ok? && gateway.Blank? ==> r.value.gateway == None
    ensures r == Err(MissingRange) <==> start == Blank || end == Blank
  {
    if start.Blank? || end.Blank? then Err(MissingRange)
    else if !subnet.Given? then Err(BadSubnet)
    else if start.Malformed? then Err(BadStart)
    else if end.Malformed? then Err(BadEnd)
    else if start.value.version != end.value.version || start.value.version != subnet.value.version then
      Err(MixedFamilies)
    else if start.value.value > end.value.value then Err(Reversed)
    else if !Within(subnet.value, start.value.value) || !Within(subnet.value, end.value.value) then Err(OutsideSubnet)
    else if gateway.Malformed? then Err(BadGateway)
    else if gateway.Given? && gateway.value.version != subnet.value.version then Err(GatewayFamily)
    else if gateway.Given? && !Within(subnet.value, gateway.value.value) then Err(GatewayOutside)
    else Ok(Pool(subnet.value, start.value.value, end.value.value,
                 if gateway.Given? then Some(gateway.value.value) else None))
  }

  predicate IsReserved(p: Pool, a: nat) {
    a == p.network.first || (p.network.version == V4 && a == p.network.last) || p.gateway == Some(a)
  }

  predicate Usable(p: Pool, a: nat) {
    p.start <= a <= p.end && !IsReserved(p, a)
  }

  /** The generator: all usable addresses from `from` on, in order. */
  function IterUsable(p: Pool, from: nat): seq<nat>
    decreases p.end + 1 - from
  {
    if from > p.end then []
    else (if IsReserved(p, from) then [] else [from]) + IterUsable(p, from + 1)
  }

  /** What the generator yields: every usable address, once, in ascending order. */
  lemma {:induction false} IterUsableExact(p: Pool, from: nat)
    ensures forall i, k | 0 <= i < k < |IterUsable(p, from)| :: IterUsable(p, from)[i] < IterUsable(p, from)[k]
    ensures forall a: nat :: a in IterUsable(p, from) <==> from <= a <= p.end && !IsReserved(p, a)
    decreases p.end + 1 - from
  {
    if from <= p.end {
      IterUsableExact(p, from + 1);
      var rest := IterUsable(p, from + 1);
      assert forall i | 0 <= i < |rest| :: rest[i] in rest;
    }
  }

  /** The reserved addresses of the network as a set: coinciding ones count once. */
  function ReservedSet(p: Pool): set<nat> {
    {p.network.first}
    + (if p.network.version == V4 then {p.network.last} else {})
    + (if p.gateway.Some? then {p.gateway.value} else {})
  }

  function UsableTotal(p: Pool): int {
    p.end - p.start + 1 - |set a | a in ReservedSet(p) && p.start <= a <= p.end|
  }

  function ReservedFrom(p: Pool, from: nat): set<nat> {
    set a | a in ReservedSet(p) && from <= a <= p.end
  }

  lemma ReservedStep(p: Pool, from: nat)
    requires from <= p.end
    ensures |ReservedFrom(p, from)| == |ReservedFrom(p, from + 1)| + if IsReserved(p, from) then 1 else 0
  {
    assert from in ReservedSet(p) <==> IsReserved(p, from);
    var rest := ReservedFrom(p, from + 1);
    assert from !in rest;
    assert ReservedFrom(p, from) == if from in ReservedSet(p) then rest + {from} else rest;
  }

  lemma {:induction false} CountFrom(p: Pool, from: nat)
    requires from <= p.end + 1
    ensures |IterUsable(p, from)| == p.end + 1 - from - |ReservedFrom(p, from)|
    decreases p.end + 1 - from
  {
    if from <= p.end {
      CountFrom(p, from + 1);
      ReservedStep(p, from);
    } else {
      assert ReservedFrom(p, from) == {};
    }
  }

  /** The count in constant time is the length of the enumeration, in both families and with
      coinciding reserved addresses. */
  lemma UsableTotalIsLength(p: Pool)
    requires p.start <= p.end
    ensures UsableTotal(p) == |IterUsable(p, p.start)|
  {
    CountFrom(p, p.start);
    assert ReservedFrom(p, p.start) == set a | a in ReservedSet(p) && p.start <= a <= p.end;
  }

  function UsableFrom(p: Pool, from: nat): set<nat> {
    set a | from <= a <= p.end && !IsReserved(p, a)
  }

  function UsableSet(p: Pool): set<nat> {
    UsableFrom(p, p.start)
  }

  lemma {:induction false} LengthIsCount(p: Pool, from: nat)
    ensures |IterUsable(p, from)| == |UsableFrom(p, from)|
    decreases p.end + 1 - from
  {
    if from <= p.end {
      LengthIsCount(p, from + 1);
      assert UsableFrom(p, from) == UsableFrom(p, from + 1) + if IsReserved(p, from) then {} else {from};
    } else {
      assert UsableFrom(p, from) == {};
    }
  }

  lemma UsableTotalIsCount(p: Pool)
    requires p.start <= p.end
    ensures UsableTotal(p) == |UsableSet(p)|
  {
    UsableTotalIsLength(p);
    LengthIsCount(p, p.start);
  }
}
