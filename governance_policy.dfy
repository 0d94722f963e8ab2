/**
 * The governance policy snapshot: live spaces, lane spaces, services and
 * database clusters, the lookups over them, the host-to-domain index that
 * merges lane-space and live-space domains, and the service-list merge that
 * applies an update/delete batch.
 *
 * A Java `null` is `None`. The services' policy content is the type parameter
 * `P`; the hooks of ServiceOp (with its PolicyMerger) are functions carried by
 * a `Merger` value.
 */
module GovernancePolicy {
  import opened Wrappers

  // ----- policy entities (only the fields the core reads) -----

  datatype Lane = Lane(code: string)

  datatype LaneDomain = LaneDomain(host: string)

  /**
   * A lane space: its id, its lanes by code (getLane), its default lane
   * (getDefaultLane) and its domains (possibly null).
   */
  datatype LaneSpace = LaneSpace(id: string, lanes: map<string, Lane>, defaultLane: Option<Lane>,
                                 domains: Option<seq<LaneDomain>>)

  datatype UnitDomain = UnitDomain(host: string, unit: string)

  datatype LiveDomain = LiveDomain(host: string, unitDomains: Option<seq<UnitDomain>>)

  datatype LiveSpec = LiveSpec(domains: Option<seq<LiveDomain>>)

  datatype LiveSpace = LiveSpace(id: string, spec: LiveSpec)

  /** What a host is governed by: the live side (space, domain, unit domain) and the lane side (space, domain). */
  datatype DomainPolicy = DomainPolicy(liveSpace: Option<LiveSpace>, liveDomain: Option<LiveDomain>,
                                       unitDomain: Option<UnitDomain>,
                                       laneSpace: Option<LaneSpace>, laneDomain: Option<LaneDomain>)

  datatype Domain = Domain(host: string, policy: DomainPolicy)

  datatype DatabaseCluster = DatabaseCluster(name: string, address: string)

  datatype Service<P> = Service(name: string, policy: P)

  /**
   * ServiceOp's hooks for a given PolicyMerger: whether a deleted service is
   * kept (the veto), the policy an existing service has after being merged with
   * an update, and the policy a new service has after being added. The hooks
   * update the service in place in the source; here they return its new policy,
   * and the service keeps its name.
   */
  datatype Merger<!P> = Merger(onDelete: (Service<P>, string) -> bool,
                              onUpdate: (Service<P>, Service<P>, string) -> P,
                              onAdd: (Service<P>, string) -> P)

  datatype GovernancePolicy<P> = GovernancePolicy(liveSpaces: Option<seq<LiveSpace>>,
                                                  laneSpaces: Option<seq<LaneSpace>>,
                                                  services: Option<seq<Service<P>>>,
                                                  dbClusters: Option<seq<DatabaseCluster>>)

  // ----- key extractors -----

  function LiveSpaceId(s: LiveSpace): string { s.id }
  function LaneSpaceId(s: LaneSpace): string { s.id }
  function ClusterName(c: DatabaseCluster): string { c.name }
  function ClusterAddress(c: DatabaseCluster): string { c.address }
  function DomainHost(d: Domain): string { d.host }
  function ServiceName<P>(s: Service<P>): string { s.name }

  // ----- lookups by key -----

  predicate UniqueKeys<T>(s: seq<T>, keyOf: T -> string) {
    forall i, j :: 0 <= i < j < |s| ==> keyOf(s[i]) != keyOf(s[j])
  }

  /** The index of the first element with the key. */
  function FindIndex<T>(s: seq<T>, key: string, keyOf: T -> string): (r: Option<nat>)
    ensures r.Some? ==> r.value < |s| && keyOf(s[r.value]) == key
    ensures r.Some? ==> forall j :: 0 <= j < r.value ==> keyOf(s[j]) != key
    ensures r.None? ==> forall j :: 0 <= j < |s| ==> keyOf(s[j]) != key
    decreases |s|
  {
    if |s| == 0 then None
    else if keyOf(s[0]) == key then Some(0)
    else match FindIndex(s[1..], key, keyOf)
      case None => None
      case Some(i) => Some(i + 1)
  }

  /**
   * A cache lookup over a possibly-null list: the element with the key, or null.
   * When the keys are unique, every element with the key is the one found.
   */
  function Lookup<T>(items: Option<seq<T>>, key: string, keyOf: T -> string): (r: Option<T>)
    ensures r.Some? ==> items.Some? && r.value in items.value && keyOf(r.value) == key
    ensures r.None? && items.Some? ==> forall j :: 0 <= j < |items.value| ==> keyOf(items.value[j]) != key
    ensures items.Some? && UniqueKeys(items.value, keyOf) ==>
              forall j :: 0 <= j < |items.value| && keyOf(items.value[j]) == key ==> r == Some(items.value[j])
  {
    if items.None? then None
    else match FindIndex(items.value, key, keyOf)
      case None => None
      case Some(i) => Some(items.value[i])
  }

  /** getLiveSpace(id): null for a null id, otherwise the live space with that id, or null. */
  function GetLiveSpace<P>(policy: GovernancePolicy<P>, id: Option<string>): (r: Option<LiveSpace>)
    requires policy.liveSpaces.Some? ==> UniqueKeys(policy.liveSpaces.value, LiveSpaceId)
    ensures id.None? ==> r.None?
    ensures r.Some? ==> id.Some? && policy.liveSpaces.Some? && r.value in policy.liveSpaces.value
                        && r.value.id == id.value
    ensures id.Some? && policy.liveSpaces.Some? ==>
              forall j :: 0 <= j < |policy.liveSpaces.value| && policy.liveSpaces.value[j].id == id.value
                ==> r == Some(policy.liveSpaces.value[j])
  {
    if id.None? then None else Lookup(policy.liveSpaces, id.value, LiveSpaceId)
  }

  /** getLaneSpace(id): null for a null id, otherwise the lane space with that id, or null. */
  function GetLaneSpace<P>(policy: GovernancePolicy<P>, id: Option<string>): (r: Option<LaneSpace>)
    requires policy.laneSpaces.Some? ==> UniqueKeys(policy.laneSpaces.value, LaneSpaceId)
    ensures id.None? ==> r.None?
    ensures r.Some? ==> id.Some? && policy.laneSpaces.Some? && r.value in policy.laneSpaces.value
                        && r.value.id == id.value
    ensures id.Some? && policy.laneSpaces.Some? ==>
              forall j :: 0 <= j < |policy.laneSpaces.value| && policy.laneSpaces.value[j].id == id.value
                ==> r == Some(policy.laneSpaces.value[j])
  {
    if id.None? then None else Lookup(policy.laneSpaces, id.value, LaneSpaceId)
  }

  /** getDbCluster(name): the cluster with that name, or null. */
  function GetDbClusterByName<P>(policy: GovernancePolicy<P>, name: string): (r: Option<DatabaseCluster>)
    requires policy.dbClusters.Some? ==> UniqueKeys(policy.dbClusters.value, ClusterName)
    ensures r.Some? ==> policy.dbClusters.Some? && r.value in policy.dbClusters.value && r.value.name == name
    ensures policy.dbClusters.Some? ==>
              forall j :: 0 <= j < |policy.dbClusters.value| && policy.dbClusters.value[j].name == name
                ==> r == Some(policy.dbClusters.value[j])
  {
    Lookup(policy.dbClusters, name, ClusterName)
  }

  // ----- database addresses -----

  predicate IsDigit(c: char) {
    '0' <= c <= '9'
  }

  /** Integer.toString of a non-negative number: its decimal digits, most significant first. */
  function Decimal(n: nat): (s: string)
    ensures |s| > 0
    ensures forall i :: 0 <= i < |s| ==> IsDigit(s[i])
  {
    var digit := ('0' as int + n % 10) as char;
    if n < 10 then [digit] else Decimal(n / 10) + [digit]
  }

  /** The number a string of decimal digits denotes. */
  function ParseDecimal(s: string): nat
    requires forall i :: 0 <= i < |s| ==> IsDigit(s[i])
  {
    if |s| == 0 then 0
    else ParseDecimal(s[..|s| - 1]) * 10 + DigitValue(s[|s| - 1])
  }

  function DigitValue(c: char): nat
    requires IsDigit(c)
  {
    c as int - '0' as int
  }

  lemma {:induction false} DecimalRoundTrip(n: nat)
    ensures ParseDecimal(Decimal(n)) == n
  {
    if n >= 10 {
      var s := Decimal(n);
      assert s[..|s| - 1] == Decimal(n / 10);
      DecimalRoundTrip(n / 10);
    }
  }

  /** The address key of getDbCluster(host, port): the bare host for a non-positive port, else "host:port". */
  function DbAddressKey(host: string, port: int): (key: string)
    ensures port <= 0 ==> key == host
    ensures port > 0 ==> |key| > |host| + 1 && key[..|host|] == host && key[|host|] == ':'
                         && key[|host| + 1..] == Decimal(port)
  {
    if port <= 0 then host else host + ":" + Decimal(port)
  }

  /** Different positive ports on the same host never share an address key. */
  lemma DbAddressKeyInjective(host: string, port1: int, port2: int)
    requires port1 > 0 && port2 > 0
    requires DbAddressKey(host, port1) == DbAddressKey(host, port2)
    ensures port1 == port2
  {
    var key := DbAddressKey(host, port1);
    DecimalRoundTrip(port1);
    DecimalRoundTrip(port2);
    assert Decimal(port1) == key[|host| + 1..] == Decimal(port2);
  }

  /** getDbCluster(host, port): the cluster whose address is the address key, or null. */
  function GetDbCluster<P>(policy: GovernancePolicy<P>, host: string, port: int): (r: Option<DatabaseCluster>)
    requires policy.dbClusters.Some? ==> UniqueKeys(policy.dbClusters.value, ClusterAddress)
    ensures r.Some? ==> policy.dbClusters.Some? && r.value in policy.dbClusters.value
                        && r.value.address == DbAddressKey(host, port)
    ensures policy.dbClusters.Some? ==>
              forall j :: 0 <= j < |policy.dbClusters.value| && policy.dbClusters.value[j].address == DbAddressKey(host, port)
                ==> r == Some(policy.dbClusters.value[j])
    ensures r.None? && policy.dbClusters.Some? ==>
              forall j :: 0 <= j < |policy.dbClusters.value| ==> policy.dbClusters.value[j].address != DbAddressKey(host, port)
    ensures port <= 0 && policy.dbClusters.Some? ==>
              forall j :: 0 <= j < |policy.dbClusters.value| && policy.dbClusters.value[j].address == host
                ==> r == Some(policy.dbClusters.value[j])
  {
    Lookup(policy.dbClusters, DbAddressKey(host, port), ClusterAddress)
  }

  // ----- successive HashMap.put -----

  /** The map that `put(keyOf(x), x)` for each x of `s`, in order, builds from an empty map. */
  function PutAll<T>(s: seq<T>, keyOf: T -> string): map<string, T>
    decreases |s|
  {
    if |s| == 0 then map[]
    else
      var last := s[|s| - 1];
      PutAll(s[..|s| - 1], keyOf)[keyOf(last) := last]
  }

  /** Every key is the key of the element stored under it, and every element's key is present. */
  lemma {:induction false} PutAllKeyed<T>(s: seq<T>, keyOf: T -> string)
    ensures forall k :: k in PutAll(s, keyOf) ==> keyOf(PutAll(s, keyOf)[k]) == k
    ensures forall i :: 0 <= i < |s| ==> keyOf(s[i]) in PutAll(s, keyOf)
    decreases |s|
  {
    if |s| > 0 {
      PutAllKeyed(s[..|s| - 1], keyOf);
    }
  }

  /** A later put overwrites an earlier one: a key maps to its last element, and only keys of elements are present. */
  lemma {:induction false} PutAllLastWins<T>(s: seq<T>, keyOf: T -> string, i: nat)
    requires i < |s|
    requires forall l :: i < l < |s| ==> keyOf(s[l]) != keyOf(s[i])
    ensures keyOf(s[i]) in PutAll(s, keyOf) && PutAll(s, keyOf)[keyOf(s[i])] == s[i]
  {
    if i < |s| - 1 {
      PutAllLastWins(s[..|s| - 1], keyOf, i);
    }
  }

  lemma {:induction false} PutAllKeys<T>(s: seq<T>, keyOf: T -> string, k: string)
    requires k in PutAll(s, keyOf)
    ensures exists i :: 0 <= i < |s| && keyOf(s[i]) == k
  {
    if keyOf(s[|s| - 1]) != k {
      PutAllKeys(s[..|s| - 1], keyOf, k);
    }
  }

  // ----- the domain index -----

  function LanePolicyOf(space: LaneSpace, domain: LaneDomain): DomainPolicy {
    DomainPolicy(None, None, None, Some(space), Some(domain))
  }

  /** The puts of one lane space's domains, in order. */
  function LaneDomainPuts(space: LaneSpace, domains: seq<LaneDomain>): (r: seq<Domain>)
    ensures |r| == |domains|
    ensures forall i :: 0 <= i < |domains| ==> r[i] == Domain(domains[i].host, LanePolicyOf(space, domains[i]))
  {
    seq(|domains|, i requires 0 <= i < |domains| => Domain(domains[i].host, LanePolicyOf(space, domains[i])))
  }

  function LaneSpacePuts(space: LaneSpace): seq<Domain> {
    if space.domains.None? then [] else LaneDomainPuts(space, space.domains.value)
  }

  /** Every put of the lane-domain loop, space by space. */
  function LanePuts(spaces: seq<LaneSpace>): seq<Domain>
    decreases |spaces|
  {
    if |spaces| == 0 then [] else LanePuts(spaces[..|spaces| - 1]) + LaneSpacePuts(spaces[|spaces| - 1])
  }

  function LivePolicyOf(space: LiveSpace, domain: LiveDomain): DomainPolicy {
    DomainPolicy(Some(space), Some(domain), None, None, None)
  }

  function UnitPolicyOf(space: LiveSpace, domain: LiveDomain, unit: UnitDomain): DomainPolicy {
    DomainPolicy(Some(space), Some(domain), Some(unit), None, None)
  }

  /** The puts of a live domain's unit domains, in order. */
  function UnitDomainPuts(space: LiveSpace, domain: LiveDomain, units: seq<UnitDomain>): (r: seq<Domain>)
    ensures |r| == |units|
    ensures forall i :: 0 <= i < |units| ==> r[i] == Domain(units[i].host, UnitPolicyOf(space, domain, units[i]))
  {
    seq(|units|, i requires 0 <= i < |units| => Domain(units[i].host, UnitPolicyOf(space, domain, units[i])))
  }

  /** One live domain's puts: the domain itself, then each of its unit domains. */
  function LiveDomainPuts(space: LiveSpace, domain: LiveDomain): seq<Domain> {
    [Domain(domain.host, LivePolicyOf(space, domain))]
      + (if domain.unitDomains.None? then [] else UnitDomainPuts(space, domain, domain.unitDomains.value))
  }

  function LiveDomainsPuts(space: LiveSpace, domains: seq<LiveDomain>): seq<Domain>
    decreases |domains|
  {
    if |domains| == 0 then []
    else LiveDomainsPuts(space, domains[..|domains| - 1]) + LiveDomainPuts(space, domains[|domains| - 1])
  }

  function LiveSpacePuts(space: LiveSpace): seq<Domain> {
    if space.spec.domains.None? then [] else LiveDomainsPuts(space, space.spec.domains.value)
  }

  /** Every put of the live-domain loop, space by space. */
  function LivePuts(spaces: seq<LiveSpace>): seq<Domain>
    decreases |spaces|
  {
    if |spaces| == 0 then [] else LivePuts(spaces[..|spaces| - 1]) + LiveSpacePuts(spaces[|spaces| - 1])
  }

  function Flatten<T>(s: Option<seq<T>>): seq<T> {
    if s.None? then [] else s.value
  }

  /** The lane-side map of the domain index: host to the lane domain last put for it. */
  function LaneIndex(laneSpaces: Option<seq<LaneSpace>>): map<string, Domain> {
    PutAll(LanePuts(Flatten(laneSpaces)), DomainHost)
  }

  /** The live-side map of the domain index: host to the live or unit domain last put for it. */
  function LiveIndex(liveSpaces: Option<seq<LiveSpace>>): map<string, Domain> {
    PutAll(LivePuts(Flatten(liveSpaces)), DomainHost)
  }

  /** The policy of a host on both sides: the live fields of the live policy with the lane fields of the lane policy. */
  function CombinedPolicy(live: DomainPolicy, lane: DomainPolicy): DomainPolicy {
    DomainPolicy(live.liveSpace, live.liveDomain, live.unitDomain, lane.laneSpace, lane.laneDomain)
  }

  /** One more put: the map so far with the element at its key. */
  lemma PutAllSnoc<T>(s: seq<T>, x: T, keyOf: T -> string)
    ensures PutAll(s + [x], keyOf) == PutAll(s, keyOf)[keyOf(x) := x]
  {
    assert (s + [x])[..|s|] == s;
  }

  /** The inner lane loop: put every domain of one lane space. */
  method PutLaneDomains(m: map<string, Domain>, ghost puts: seq<Domain>, space: LaneSpace, domains: seq<LaneDomain>)
    returns (r: map<string, Domain>)
    requires m == PutAll(puts, DomainHost)
    ensures r == PutAll(puts + LaneDomainPuts(space, domains), DomainHost)
  {
    r := m;
    assert puts + LaneDomainPuts(space, domains[..0]) == puts;
    for j := 0 to |domains|
      invariant r == PutAll(puts + LaneDomainPuts(space, domains[..j]), DomainHost)
    {
      var laneDomain := domains[j];
      var d := Domain(laneDomain.host, LanePolicyOf(space, laneDomain));
      ghost var before := puts + LaneDomainPuts(space, domains[..j]);
      assert LaneDomainPuts(space, domains[..j + 1]) == LaneDomainPuts(space, domains[..j]) + [d];
      assert puts + LaneDomainPuts(space, domains[..j + 1]) == before + [d];
      PutAllSnoc(before, d, DomainHost);
      r := r[laneDomain.host := d];
    }
    assert domains[..|domains|] == domains;
  }

  /** The lane-domain loop of the domainCache builder. */
  method CollectLaneDomains(laneSpaces: Option<seq<LaneSpace>>) returns (m: map<string, Domain>)
    ensures m == LaneIndex(laneSpaces)
  {
    m := map[];
    var spaces := Flatten(laneSpaces);
    if laneSpaces.Some? {
      for i := 0 to |spaces|
        invariant m == PutAll(LanePuts(spaces[..i]), DomainHost)
      {
        var laneSpace := spaces[i];
        assert spaces[..i + 1][..i] == spaces[..i];
        assert LanePuts(spaces[..i + 1]) == LanePuts(spaces[..i]) + LaneSpacePuts(laneSpace);
        if laneSpace.domains.Some? {
          m := PutLaneDomains(m, LanePuts(spaces[..i]), laneSpace, laneSpace.domains.value);
        } else {
          assert LanePuts(spaces[..i + 1]) == LanePuts(spaces[..i]);
        }
      }
      assert spaces[..|spaces|] == spaces;
    }
  }

  /** The innermost live loop: put every unit domain of one live domain. */
  method PutUnitDomains(m: map<string, Domain>, ghost puts: seq<Domain>, space: LiveSpace, liveDomain: LiveDomain,
                        units: seq<UnitDomain>)
    returns (r: map<string, Domain>)
    requires m == PutAll(puts, DomainHost)
    ensures r == PutAll(puts + UnitDomainPuts(space, liveDomain, units), DomainHost)
  {
    r := m;
    assert puts + UnitDomainPuts(space, liveDomain, units[..0]) == puts;
    for k := 0 to |units|
      invariant r == PutAll(puts + UnitDomainPuts(space, liveDomain, units[..k]), DomainHost)
    {
      var unitDomain := units[k];
      var u := Domain(unitDomain.host, UnitPolicyOf(space, liveDomain, unitDomain));
      ghost var before := puts + UnitDomainPuts(space, liveDomain, units[..k]);
      assert UnitDomainPuts(space, liveDomain, units[..k + 1]) == UnitDomainPuts(space, liveDomain, units[..k]) + [u];
      assert puts + UnitDomainPuts(space, liveDomain, units[..k + 1]) == before + [u];
      PutAllSnoc(before, u, DomainHost);
      r := r[unitDomain.host := u];
    }
    assert units[..|units|] == units;
  }

  /** One live domain: put the domain itself, then each of its unit domains. */
  method PutLiveDomain(m: map<string, Domain>, ghost puts: seq<Domain>, space: LiveSpace, liveDomain: LiveDomain)
    returns (r: map<string, Domain>)
    requires m == PutAll(puts, DomainHost)
    ensures r == PutAll(puts + LiveDomainPuts(space, liveDomain), DomainHost)
  {
    var d := Domain(liveDomain.host, LivePolicyOf(space, liveDomain));
    PutAllSnoc(puts, d, DomainHost);
    r := m[liveDomain.host := d];
    if liveDomain.unitDomains.Some? {
      var units := liveDomain.unitDomains.value;
      r := PutUnitDomains(r, puts + [d], space, liveDomain, units);
      assert puts + LiveDomainPuts(space, liveDomain) == puts + [d] + UnitDomainPuts(space, liveDomain, units);
    } else {
      assert puts + LiveDomainPuts(space, liveDomain) == puts + [d];
    }
  }

  /** The middle live loop: put every domain of one live space. */
  method PutLiveDomains(m: map<string, Domain>, ghost puts: seq<Domain>, space: LiveSpace, domains: seq<LiveDomain>)
    returns (r: map<string, Domain>)
    requires m == PutAll(puts, DomainHost)
    ensures r == PutAll(puts + LiveDomainsPuts(space, domains), DomainHost)
  {
    r := m;
    assert puts + LiveDomainsPuts(space, domains[..0]) == puts;
    for j := 0 to |domains|
      invariant r == PutAll(puts + LiveDomainsPuts(space, domains[..j]), DomainHost)
    {
      assert domains[..j + 1][..j] == domains[..j];
      assert puts + LiveDomainsPuts(space, domains[..j + 1])
          == puts + LiveDomainsPuts(space, domains[..j]) + LiveDomainPuts(space, domains[j]);
      r := PutLiveDomain(r, puts + LiveDomainsPuts(space, domains[..j]), space, domains[j]);
    }
    assert domains[..|domains|] == domains;
  }

  /** The live-domain loop of the domainCache builder. */
  method CollectLiveDomains(liveSpaces: Option<seq<LiveSpace>>) returns (m: map<string, Domain>)
    ensures m == LiveIndex(liveSpaces)
  {
    m := map[];
    var spaces := Flatten(liveSpaces);
    if liveSpaces.Some? {
      for i := 0 to |spaces|
        invariant m == PutAll(LivePuts(spaces[..i]), DomainHost)
      {
        var liveSpace := spaces[i];
        var liveSpec := liveSpace.spec;
        assert spaces[..i + 1][..i] == spaces[..i];
        assert LivePuts(spaces[..i + 1]) == LivePuts(spaces[..i]) + LiveSpacePuts(liveSpace);
        if liveSpec.domains.Some? {
          m := PutLiveDomains(m, LivePuts(spaces[..i]), liveSpace, liveSpec.domains.value);
        } else {
          assert LivePuts(spaces[..i + 1]) == LivePuts(spaces[..i]);
        }
      }
      assert spaces[..|spaces|] == spaces;
    }
  }

  /**
   * The merge step of the domainCache builder: every live host maps to its
   * live domain, combined with the lane domain of the same host when there is
   * one; then every lane host not yet present maps to its lane domain.
   */
  method CombineDomains(live: map<string, Domain>, lane: map<string, Domain>) returns (index: map<string, Domain>)
    requires forall h :: h in live ==> live[h].host == h
    requires forall h :: h in lane ==> lane[h].host == h
    ensures index.Keys == live.Keys + lane.Keys
    ensures forall h :: h in live && h in lane ==> index[h] == Domain(h, CombinedPolicy(live[h].policy, lane[h].policy))
    ensures forall h :: h in live && h !in lane ==> index[h] == live[h]
    ensures forall h :: h !in live && h in lane ==> index[h] == lane[h]
  {
    index := MergeLiveDomains(live, lane);
    index := AddLaneDomains(index, live, lane);
  }

  /** The first merge loop: every live host, combined with the lane domain of the same host when there is one. */
  method MergeLiveDomains(live: map<string, Domain>, lane: map<string, Domain>) returns (index: map<string, Domain>)
    requires forall h :: h in live ==> live[h].host == h
    ensures index.Keys == live.Keys
    ensures forall h :: h in index && h in lane ==> index[h] == Domain(h, CombinedPolicy(live[h].policy, lane[h].policy))
    ensures forall h :: h in index && h !in lane ==> index[h] == live[h]
  {
    index := map[];
    var liveHosts := live.Keys;
    while liveHosts != {}
      invariant liveHosts <= live.Keys
      invariant index.Keys == live.Keys - liveHosts
      invariant forall h :: h in index && h in lane ==> index[h] == Domain(h, CombinedPolicy(live[h].policy, lane[h].policy))
      invariant forall h :: h in index && h !in lane ==> index[h] == live[h]
      decreases liveHosts
    {
      var host :| host in liveHosts;
      var liveDomain := live[host];
      var laneDomain := if liveDomain.host in lane then Some(lane[liveDomain.host]) else None;
      index := index[liveDomain.host := if laneDomain.None? then liveDomain
                                         else Domain(liveDomain.host, CombinedPolicy(liveDomain.policy, laneDomain.value.policy))];
      liveHosts := liveHosts - {host};
    }
  }

  /** The second merge loop: putIfAbsent of every lane domain. */
  method AddLaneDomains(merged: map<string, Domain>, live: map<string, Domain>, lane: map<string, Domain>)
    returns (index: map<string, Domain>)
    requires forall h :: h in lane ==> lane[h].host == h
    requires merged.Keys == live.Keys
    ensures index.Keys == live.Keys + lane.Keys
    ensures forall h :: h in merged ==> index[h] == merged[h]
    ensures forall h :: h in index && h !in live ==> index[h] == lane[h]
  {
    index := merged;
    var laneHosts := lane.Keys;
    while laneHosts != {}
      invariant laneHosts <= lane.Keys
      invariant index.Keys == live.Keys + (lane.Keys - laneHosts)
      invariant forall h :: h in merged ==> index[h] == merged[h]
      invariant forall h :: h in index && h !in live ==> index[h] == lane[h]
      decreases laneHosts
    {
      var host :| host in laneHosts;
      var laneDomain := lane[host];
      if laneDomain.host !in index {
        index := index[laneDomain.host := laneDomain];
      }
      laneHosts := laneHosts - {host};
    }
  }


  /**
   * The domainCache builder. Lane domains and live domains (each followed by
   * its unit domains) are put into two maps, a later put overwriting an
   * earlier one for the same host; the two maps are then merged, a host on
   * both sides getting the live fields of its live domain and the lane fields
   * of its lane domain.
   */
  method BuildDomainIndex<P>(policy: GovernancePolicy<P>) returns (index: map<string, Domain>)
    ensures var live, lane := LiveIndex(policy.liveSpaces), LaneIndex(policy.laneSpaces);
            && index.Keys == live.Keys + lane.Keys
            && (forall h :: h in live && h in lane ==>
                  index[h] == Domain(h, CombinedPolicy(live[h].policy, lane[h].policy)))
            && (forall h :: h in live && h !in lane ==> index[h] == live[h])
            && (forall h :: h !in live && h in lane ==> index[h] == lane[h])
  {
    var laneDomains := CollectLaneDomains(policy.laneSpaces);
    var liveDomains := CollectLiveDomains(policy.liveSpaces);
    PutAllKeyed(LanePuts(Flatten(policy.laneSpaces)), DomainHost);
    PutAllKeyed(LivePuts(Flatten(policy.liveSpaces)), DomainHost);
    index := CombineDomains(liveDomains, laneDomains);
  }

  /**
   * The live side of the index holds, for each host, the last domain put for
   * it: a unit domain listed after its live domain (or after another unit
   * domain) with the same host replaces it.
   */
  lemma LiveIndexLastWins(liveSpaces: Option<seq<LiveSpace>>, i: nat)
    requires i < |LivePuts(Flatten(liveSpaces))|
    requires var puts := LivePuts(Flatten(liveSpaces));
             forall l :: i < l < |puts| ==> puts[l].host != puts[i].host
    ensures var puts := LivePuts(Flatten(liveSpaces));
            puts[i].host in LiveIndex(liveSpaces) && LiveIndex(liveSpaces)[puts[i].host] == puts[i]
  {
    PutAllLastWins(LivePuts(Flatten(liveSpaces)), DomainHost, i);
  }

  // ----- the service-list merge -----

  /** Concatenation of `f` applied to every element, in order. */
  function FlatMap<A, B>(s: seq<A>, f: A -> seq<B>): seq<B>
    decreases |s|
  {
    if |s| == 0 then [] else FlatMap(s[..|s| - 1], f) + f(s[|s| - 1])
  }

  lemma {:induction false} FlatMapAppend<A, B>(s: seq<A>, t: seq<A>, f: A -> seq<B>)
    ensures FlatMap(s + t, f) == FlatMap(s, f) + FlatMap(t, f)
    decreases |t|
  {
    if |t| > 0 {
      var init := t[..|t| - 1];
      assert (s + t)[..|s + t| - 1] == s + init;
      FlatMapAppend(s, init, f);
    } else {
      assert s + t == s;
    }
  }

  /**
   * The contribution of the i-th element sits right after the contributions
   * of the elements before it, and everything after it comes later still.
   */
  lemma FlatMapAt<A, B>(s: seq<A>, f: A -> seq<B>, i: nat)
    requires i < |s|
    ensures var pos := |FlatMap(s[..i], f)|;
            && FlatMap(s[..i + 1], f) == FlatMap(s[..i], f) + f(s[i])
            && pos + |f(s[i])| <= |FlatMap(s, f)|
            && FlatMap(s, f)[pos..pos + |f(s[i])|] == f(s[i])
  {
    assert s[..i + 1][..i] == s[..i];
    FlatMapAppend(s[..i + 1], s[i + 1..], f);
    assert s[..i + 1] + s[i + 1..] == s;
  }

  /** Earlier elements' contributions come first: positions grow with the index. */
  lemma FlatMapMonotone<A, B>(s: seq<A>, f: A -> seq<B>, i: nat, j: nat)
    requires i < j <= |s|
    ensures |FlatMap(s[..i], f)| + |f(s[i])| <= |FlatMap(s[..j], f)|
  {
    FlatMapAt(s[..j], f, i);
    assert s[..j][..i] == s[..i];
    assert s[..j][i] == s[i];
  }

  lemma {:induction false} FlatMapLength<A, B>(s: seq<A>, f: A -> seq<B>, n: nat)
    requires forall i :: 0 <= i < |s| ==> |f(s[i])| <= n
    ensures |FlatMap(s, f)| <= n * |s|
    decreases |s|
  {
    if |s| > 0 {
      FlatMapLength(s[..|s| - 1], f, n);
    }
  }

  /** The names of a list of services. */
  function Names<P>(services: seq<Service<P>>): set<string> {
    set i | 0 <= i < |services| :: services[i].name
  }

  /** updateMap: the update list keyed by name, a later update replacing an earlier one of the same name. */
  function UpdateMap<P>(updates: seq<Service<P>>): map<string, Service<P>> {
    PutAll(updates, ServiceName)
  }

  /**
   * What one old service contributes to the result: kept as-is when neither
   * updated nor deleted; when only deleted, kept iff the delete hook vetoes the
   * removal; when updated (deleted or not), kept in place with the merged policy.
   */
  function Retained<P>(svc: Service<P>, updateMap: map<string, Service<P>>, deletes: Option<set<string>>,
                       merger: Merger<P>, owner: string): seq<Service<P>> {
    if svc.name !in updateMap then
      if deletes.None? || svc.name !in deletes.value then [svc]
      else if merger.onDelete(svc, owner) then [svc]
      else []
    else
      [Service(svc.name, merger.onUpdate(svc, updateMap[svc.name], owner))]
  }

  function RetainStep<P>(updateMap: map<string, Service<P>>, deletes: Option<set<string>>,
                         merger: Merger<P>, owner: string): Service<P> -> seq<Service<P>> {
    svc => Retained(svc, updateMap, deletes, merger, owner)
  }

  /** What one update contributes to the appended part: itself after the add hook, unless its name is an old one. */
  function Appended<P>(update: Service<P>, olds: set<string>, merger: Merger<P>, owner: string): seq<Service<P>> {
    if update.name in olds then [] else [Service(update.name, merger.onAdd(update, owner))]
  }

  function AppendStep<P>(olds: set<string>, merger: Merger<P>, owner: string): Service<P> -> seq<Service<P>> {
    update => Appended(update, olds, merger, owner)
  }

  /** The result of onUpdate: the retained old services, in their order, then the new ones, in update order. */
  function MergedServices<P>(services: Option<seq<Service<P>>>, updates: seq<Service<P>>,
                             deletes: Option<set<string>>, merger: Merger<P>, owner: string): seq<Service<P>> {
    var olds := Flatten(services);
    FlatMap(olds, RetainStep(UpdateMap(updates), deletes, merger, owner))
      + FlatMap(updates, AppendStep(Names(olds), merger, owner))
  }

  /** The first loop of onUpdate: index the updates by name. */
  method IndexUpdates<P>(updates: seq<Service<P>>) returns (updateMap: map<string, Service<P>>)
    ensures updateMap == UpdateMap(updates)
  {
    updateMap := map[];
    for i := 0 to |updates|
      invariant updateMap == UpdateMap(updates[..i])
    {
      assert updates[..i + 1][..i] == updates[..i];
      updateMap := updateMap[updates[i].name := updates[i]];
    }
    assert updates[..|updates|] == updates;
  }

  /** The loop of onUpdate over the old services: what each contributes, and the set of old names. */
  method RetainServices<P>(services: seq<Service<P>>, updateMap: map<string, Service<P>>,
                           deletes: Option<set<string>>, merger: Merger<P>, owner: string)
    returns (result: seq<Service<P>>, olds: set<string>)
    ensures result == FlatMap(services, RetainStep(updateMap, deletes, merger, owner))
    ensures olds == Names(services)
  {
    result := [];
    olds := {};
    for i := 0 to |services|
      invariant olds == Names(services[..i])
      invariant result == FlatMap(services[..i], RetainStep(updateMap, deletes, merger, owner))
    {
      var svc := services[i];
      assert services[..i + 1][..i] == services[..i];
      assert Names(services[..i + 1]) == Names(services[..i]) + {svc.name};
      olds := olds + {svc.name};
      if svc.name !in updateMap {
        if deletes.None? || svc.name !in deletes.value {
          result := result + [svc];
        } else {
          // Delete
          if merger.onDelete(svc, owner) {
            result := result + [svc];
          }
        }
      } else {
        // Update
        var update := updateMap[svc.name];
        result := result + [Service(svc.name, merger.onUpdate(svc, update, owner))];
      }
    }
    assert services[..|services|] == services;
  }

  /** The last loop of onUpdate: append every update whose name is not an old one, after the add hook. */
  method AppendServices<P>(result: seq<Service<P>>, updates: seq<Service<P>>, olds: set<string>,
                           merger: Merger<P>, owner: string)
    returns (r: seq<Service<P>>)
    ensures r == result + FlatMap(updates, AppendStep(olds, merger, owner))
  {
    r := result;
    for i := 0 to |updates|
      invariant r == result + FlatMap(updates[..i], AppendStep(olds, merger, owner))
    {
      var update := updates[i];
      assert updates[..i + 1][..i] == updates[..i];
      if update.name !in olds {
        // Add
        r := r + [Service(update.name, merger.onAdd(update, owner))];
      }
    }
    assert updates[..|updates|] == updates;
  }

  /** onUpdate(updates, deletes, merger, owner): builds the next service list from the snapshot's one. */
  method OnUpdate<P>(policy: GovernancePolicy<P>, updates: seq<Service<P>>, deletes: Option<set<string>>,
                     merger: Merger<P>, owner: string) returns (result: seq<Service<P>>)
    ensures result == MergedServices(policy.services, updates, deletes, merger, owner)
  {
    result := [];
    var updateMap := IndexUpdates(updates);
    var olds: set<string> := {};
    if policy.services.Some? {
      result, olds := RetainServices(policy.services.value, updateMap, deletes, merger, owner);
    }
    assert policy.services.None? ==> Names(Flatten(policy.services)) == {};
    result := AppendServices(result, updates, olds, merger, owner);
  }

  /** onUpdate(service, merger, owner): a one-element update list and no deletes. */
  method OnUpdateService<P>(policy: GovernancePolicy<P>, service: Service<P>, merger: Merger<P>, owner: string)
    returns (result: seq<Service<P>>)
    ensures result == MergedServices(policy.services, [service], None, merger, owner)
  {
    result := OnUpdate(policy, [service], None, merger, owner);
  }

  /** onDelete(name, merger, owner): an empty update list and a one-name delete set. */
  method OnDelete<P>(policy: GovernancePolicy<P>, name: string, merger: Merger<P>, owner: string)
    returns (result: seq<Service<P>>)
    ensures result == MergedServices(policy.services, [], Some({name}), merger, owner)
  {
    result := OnUpdate(policy, [], Some({name}), merger, owner);
  }

  /** Where the i-th old service's contribution starts in the result. */
  function RetainedPos<P>(olds: seq<Service<P>>, i: nat, updates: seq<Service<P>>, deletes: Option<set<string>>,
                          merger: Merger<P>, owner: string): nat
    requires i <= |olds|
  {
    |FlatMap(olds[..i], RetainStep(UpdateMap(updates), deletes, merger, owner))|
  }

  /** The i-th old service's contribution appears in the result at its position. */
  lemma RetainedAt<P>(olds: seq<Service<P>>, updates: seq<Service<P>>, deletes: Option<set<string>>,
                      merger: Merger<P>, owner: string, i: nat)
    requires i < |olds|
    ensures var result := MergedServices(Some(olds), updates, deletes, merger, owner);
            var pos := RetainedPos(olds, i, updates, deletes, merger, owner);
            var mine := Retained(olds[i], UpdateMap(updates), deletes, merger, owner);
            pos + |mine| <= |result| && result[pos..pos + |mine|] == mine
  {
    var step := RetainStep(UpdateMap(updates), deletes, merger, owner);
    FlatMapAt(olds, step, i);
  }

  /** A service named in neither the updates nor the deletes is in the result as it was. */
  lemma UntouchedServiceKept<P>(olds: seq<Service<P>>, updates: seq<Service<P>>, deletes: Option<set<string>>,
                                merger: Merger<P>, owner: string, i: nat)
    requires i < |olds|
    requires olds[i].name !in Names(updates)
    requires deletes.None? || olds[i].name !in deletes.value
    ensures var result := MergedServices(Some(olds), updates, deletes, merger, owner);
            var pos := RetainedPos(olds, i, updates, deletes, merger, owner);
            pos < |result| && result[pos] == olds[i]
  {
    assert olds[i].name !in UpdateMap(updates) by {
      if olds[i].name in UpdateMap(updates) {
        PutAllKeys(updates, ServiceName, olds[i].name);
      }
    }
    RetainedAt(olds, updates, deletes, merger, owner, i);
  }

  /** Retained old services keep their relative order. */
  lemma RetainedOrder<P>(olds: seq<Service<P>>, updates: seq<Service<P>>, deletes: Option<set<string>>,
                         merger: Merger<P>, owner: string, i: nat, j: nat)
    requires i < j < |olds|
    requires |Retained(olds[i], UpdateMap(updates), deletes, merger, owner)| == 1
    ensures RetainedPos(olds, i, updates, deletes, merger, owner) < RetainedPos(olds, j, updates, deletes, merger, owner)
  {
    FlatMapMonotone(olds, RetainStep(UpdateMap(updates), deletes, merger, owner), i, j);
  }

  /** A service named only in the deletes stays, unchanged, exactly when the delete hook vetoes its removal. */
  lemma DeletedServiceVeto<P>(olds: seq<Service<P>>, updates: seq<Service<P>>, deletes: Option<set<string>>,
                              merger: Merger<P>, owner: string, i: nat)
    requires i < |olds|
    requires olds[i].name !in Names(updates)
    requires deletes.Some? && olds[i].name in deletes.value
    ensures var result := MergedServices(Some(olds), updates, deletes, merger, owner);
            var pos := RetainedPos(olds, i, updates, deletes, merger, owner);
            && RetainedPos(olds, i + 1, updates, deletes, merger, owner) == pos + (if merger.onDelete(olds[i], owner) then 1 else 0)
            && (merger.onDelete(olds[i], owner) ==> pos < |result| && result[pos] == olds[i])
  {
    assert olds[i].name !in UpdateMap(updates) by {
      if olds[i].name in UpdateMap(updates) {
        PutAllKeys(updates, ServiceName, olds[i].name);
      }
    }
    RetainedAt(olds, updates, deletes, merger, owner, i);
    FlatMapAt(olds, RetainStep(UpdateMap(updates), deletes, merger, owner), i);
  }

  /**
   * An updated service stays at its place, with the policy merged from the last
   * update of that name, whether or not it is also deleted.
   */
  lemma UpdatedServiceMerged<P>(olds: seq<Service<P>>, updates: seq<Service<P>>, deletes: Option<set<string>>,
                                merger: Merger<P>, owner: string, i: nat, k: nat)
    requires i < |olds| && k < |updates|
    requires updates[k].name == olds[i].name
    requires forall l :: k < l < |updates| ==> updates[l].name != updates[k].name
    ensures var result := MergedServices(Some(olds), updates, deletes, merger, owner);
            var pos := RetainedPos(olds, i, updates, deletes, merger, owner);
            pos < |result| && result[pos] == Service(olds[i].name, merger.onUpdate(olds[i], updates[k], owner))
  {
    PutAllLastWins(updates, ServiceName, k);
    RetainedAt(olds, updates, deletes, merger, owner, i);
  }

  /**
   * The services that are new (their name is not an old one) come after all
   * retained old services, each after the add hook, in update order; an update
   * whose name is an old one adds nothing there.
   */
  lemma NewServicesAppended<P>(services: Option<seq<Service<P>>>, updates: seq<Service<P>>,
                               deletes: Option<set<string>>, merger: Merger<P>, owner: string, k: nat)
    requires k < |updates|
    ensures var olds := Flatten(services);
            var result := MergedServices(services, updates, deletes, merger, owner);
            var base := |FlatMap(olds, RetainStep(UpdateMap(updates), deletes, merger, owner))|;
            var step := AppendStep(Names(olds), merger, owner);
            var pos := base + |FlatMap(updates[..k], step)|;
            && (updates[k].name in Names(olds) ==> |FlatMap(updates[..k + 1], step)| == pos - base)
            && (updates[k].name !in Names(olds) ==>
                  pos < |result| && result[pos] == Service(updates[k].name, merger.onAdd(updates[k], owner)))
  {
    var olds := Flatten(services);
    FlatMapAt(updates, AppendStep(Names(olds), merger, owner), k);
  }

  /** With no service list yet, the result is the update list itself, in order, each after the add hook. */
  lemma NullServicesTakeUpdates<P>(updates: seq<Service<P>>, deletes: Option<set<string>>, merger: Merger<P>,
                                   owner: string)
    ensures var result := MergedServices(None, updates, deletes, merger, owner);
            && |result| == |updates|
            && forall k :: 0 <= k < |updates| ==> result[k] == Service(updates[k].name, merger.onAdd(updates[k], owner))
  {
    var step := AppendStep(Names<P>([]), merger, owner);
    assert forall k :: 0 <= k < |updates| ==> |step(updates[k])| == 1;
    forall k | 0 <= k < |updates|
      ensures |FlatMap(updates[..k], step)| == k
    {
      FlatMapExactlyOne(updates[..k], step);
    }
    FlatMapExactlyOne(updates, step);
    forall k | 0 <= k < |updates|
      ensures MergedServices(None, updates, deletes, merger, owner)[k]
           == Service(updates[k].name, merger.onAdd(updates[k], owner))
    {
      FlatMapAt(updates, step, k);
      assert FlatMap(Flatten<Service<P>>(None), RetainStep(UpdateMap(updates), deletes, merger, owner)) == [];
    }
  }

  lemma {:induction false} FlatMapExactlyOne<A, B>(s: seq<A>, f: A -> seq<B>)
    requires forall i :: 0 <= i < |s| ==> |f(s[i])| == 1
    ensures |FlatMap(s, f)| == |s|
    decreases |s|
  {
    if |s| > 0 {
      FlatMapExactlyOne(s[..|s| - 1], f);
    }
  }

  /** Without deletes no old service is dropped: the i-th old service's name is at position i. */
  lemma NoDeletesKeepsAll<P>(olds: seq<Service<P>>, updates: seq<Service<P>>, merger: Merger<P>, owner: string)
    ensures var result := MergedServices(Some(olds), updates, None, merger, owner);
            && |result| >= |olds|
            && forall i :: 0 <= i < |olds| ==> result[i].name == olds[i].name
  {
    var step := RetainStep(UpdateMap(updates), None, merger, owner);
    assert forall i :: 0 <= i < |olds| ==> |step(olds[i])| == 1;
    FlatMapExactlyOne(olds, step);
    forall i | 0 <= i < |olds|
      ensures MergedServices(Some(olds), updates, None, merger, owner)[i].name == olds[i].name
    {
      FlatMapExactlyOne(olds[..i], step);
      RetainedAt(olds, updates, None, merger, owner, i);
    }
  }

  /** Without updates nothing is added: the result is no longer than the old list and holds only old services. */
  lemma NoUpdatesAddsNothing<P>(olds: seq<Service<P>>, deletes: Option<set<string>>, merger: Merger<P>, owner: string)
    ensures var result := MergedServices(Some(olds), [], deletes, merger, owner);
            && |result| <= |olds|
            && forall p :: 0 <= p < |result| ==> result[p] in olds
  {
    var step := RetainStep(UpdateMap<P>([]), deletes, merger, owner);
    FlatMapLength(olds, step, 1);
    FlatMapFrom(olds, step);
  }

  /** Every element of a FlatMap of Retained with no updates is one of the inputs. */
  lemma {:induction false} FlatMapFrom<P>(olds: seq<Service<P>>, step: Service<P> -> seq<Service<P>>)
    requires forall i :: 0 <= i < |olds| ==> forall p :: 0 <= p < |step(olds[i])| ==> step(olds[i])[p] == olds[i]
    ensures forall p :: 0 <= p < |FlatMap(olds, step)| ==> FlatMap(olds, step)[p] in olds
    decreases |olds|
  {
    if |olds| > 0 {
      var init := olds[..|olds| - 1];
      FlatMapFrom(init, step);
      forall p | 0 <= p < |FlatMap(olds, step)|
        ensures FlatMap(olds, step)[p] in olds
      {
        if p < |FlatMap(init, step)| {
          assert FlatMap(init, step)[p] in init;
        }
      }
    }
  }
}
