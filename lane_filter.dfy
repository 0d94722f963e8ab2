/**
 * The lane route filter: it decides which lane the candidate endpoints are
 * narrowed to, with which `nullable` flag, and whether a second narrowing on
 * the default lane or on a custom fallback lane follows an empty first one.
 *
 * The decision is a pure function of the lane metadata and the service's lane
 * policy (`LanePlan`); the filter method performs it against a `RouteTarget`,
 * whose endpoint list it narrows in place, and then proceeds down the chain.
 */
module LaneFilter {
  import opened Wrappers
  import GovernancePolicy

  type Lane = GovernancePolicy.Lane
  type LaneSpace = GovernancePolicy.LaneSpace

  datatype FallbackType = NONE | DEFAULT | CUSTOM

  /**
   * A service's policy for one lane space: the lane redirects (getTarget), the
   * fallback type and the custom fallback lane (getFallbackLane, possibly null).
   */
  datatype LanePolicy = LanePolicy(redirects: map<string, string>, fallbackType: FallbackType,
                                   fallbackLane: Option<string>)

  /** A service policy, reduced to its lane policies by lane-space id. */
  datatype ServicePolicy = ServicePolicy(lanePolicies: map<string, LanePolicy>)

  /** The lane metadata of an outbound invocation; every field may be null. */
  datatype LaneMetadata = LaneMetadata(targetSpaceId: Option<string>, targetLaneId: Option<string>,
                                       targetSpace: Option<LaneSpace>, targetLane: Option<Lane>,
                                       defaultSpaceId: Option<string>, defaultLaneId: Option<string>)

  /** The arguments of the `isLane` predicate an endpoint is checked against. */
  datatype LaneQuery = LaneQuery(spaceId: Option<string>, laneCode: Option<string>,
                                 defaultSpaceId: Option<string>, defaultLaneId: Option<string>)

  /** One `target.filter(e -> e.isLane(query), -1, nullable)` call. */
  datatype FilterCall = FilterCall(query: LaneQuery, nullable: bool)

  /** The filter calls the decision asks for: a first one and, when its count is not positive, possibly a second. */
  datatype Plan = Plan(first: FilterCall, second: Option<FilterCall>)

  // ----- the decision -----

  /** servicePolicy.getLanePolicy(targetSpaceId), or null. */
  function LanePolicyOf(metadata: LaneMetadata, servicePolicy: Option<ServicePolicy>): Option<LanePolicy> {
    if servicePolicy.None? || metadata.targetSpaceId.None?
       || metadata.targetSpaceId.value !in servicePolicy.value.lanePolicies
    then None
    else Some(servicePolicy.value.lanePolicies[metadata.targetSpaceId.value])
  }

  /** lanePolicy.getTarget(targetLaneId), or null. */
  function Redirect(metadata: LaneMetadata, servicePolicy: Option<ServicePolicy>): Option<string> {
    var lanePolicy := LanePolicyOf(metadata, servicePolicy);
    if lanePolicy.None? || metadata.targetLaneId.None? || metadata.targetLaneId.value !in lanePolicy.value.redirects
    then None
    else Some(lanePolicy.value.redirects[metadata.targetLaneId.value])
  }

  predicate IsBlank(s: Option<string>) {
    s.None? || |s.value| == 0
  }

  /** The lane to route to: the metadata's target lane, or the redirect's lane in the target space. */
  function TargetLane(metadata: LaneMetadata, servicePolicy: Option<ServicePolicy>): Option<Lane>
    requires metadata.targetSpace.Some?
  {
    var redirect := Redirect(metadata, servicePolicy);
    if IsBlank(redirect) then metadata.targetLane
    else
      var lanes := metadata.targetSpace.value.lanes;
      if redirect.value in lanes then Some(lanes[redirect.value]) else None
  }

  function Fallback(metadata: LaneMetadata, servicePolicy: Option<ServicePolicy>): FallbackType {
    var lanePolicy := LanePolicyOf(metadata, servicePolicy);
    if lanePolicy.None? then DEFAULT else lanePolicy.value.fallbackType
  }

  function FallbackLaneCode(metadata: LaneMetadata, servicePolicy: Option<ServicePolicy>): Option<string> {
    var lanePolicy := LanePolicyOf(metadata, servicePolicy);
    if lanePolicy.None? then None else lanePolicy.value.fallbackLane
  }

  /** Whether an empty first narrowing is retried on the target space's default lane. */
  predicate RedirectDefaultLane(metadata: LaneMetadata, servicePolicy: Option<ServicePolicy>)
    requires metadata.targetSpace.Some?
  {
    var defaultLane := metadata.targetSpace.value.defaultLane;
    defaultLane.Some? && TargetLane(metadata, servicePolicy) != defaultLane
    && Fallback(metadata, servicePolicy) == DEFAULT
  }

  /** Whether an empty first narrowing is retried on the custom fallback lane. */
  predicate RedirectFallbackLane(metadata: LaneMetadata, servicePolicy: Option<ServicePolicy>) {
    Fallback(metadata, servicePolicy) == CUSTOM
  }

  function QueryFor(metadata: LaneMetadata, laneCode: Option<string>): LaneQuery {
    LaneQuery(metadata.targetSpaceId, laneCode, metadata.defaultSpaceId, metadata.defaultLaneId)
  }

  /**
   * The filter calls of LaneFilter.filter. Without a target space: one
   * nullable call on the target space and lane ids. With a target space but
   * no resolved target lane: one nullable call on the redirect, or on the
   * target lane id when the redirect is blank. With a resolved target lane: a
   * call on its code, nullable unless a redirect flag holds, then on an empty
   * result a nullable call on the default lane (DEFAULT) or on the fallback
   * lane (CUSTOM).
   */
  function LanePlan(metadata: LaneMetadata, servicePolicy: Option<ServicePolicy>): (p: Plan)
    ensures metadata.targetSpace.None? ==>
              p == Plan(FilterCall(QueryFor(metadata, metadata.targetLaneId), true), None)
    ensures p.second.Some? <==> !p.first.nullable
    ensures p.second.Some? ==> p.second.value.nullable
    ensures p.first.query == QueryFor(metadata, p.first.query.laneCode)
    ensures p.second.Some? ==> p.second.value.query == QueryFor(metadata, p.second.value.query.laneCode)
    ensures metadata.targetSpace.Some? && TargetLane(metadata, servicePolicy).None? ==>
              p.second.None? && p.first.nullable
              && p.first.query.laneCode == (var redirect := Redirect(metadata, servicePolicy);
                                            if IsBlank(redirect) then metadata.targetLaneId else redirect)
    ensures metadata.targetSpace.Some? && TargetLane(metadata, servicePolicy).Some? ==>
              && p.first.query.laneCode == Some(TargetLane(metadata, servicePolicy).value.code)
              && (p.first.nullable <==> !RedirectDefaultLane(metadata, servicePolicy)
                                        && !RedirectFallbackLane(metadata, servicePolicy))
              && (RedirectDefaultLane(metadata, servicePolicy) ==>
                    p.second == Some(FilterCall(QueryFor(metadata,
                                                Some(metadata.targetSpace.value.defaultLane.value.code)), true)))
              && (RedirectFallbackLane(metadata, servicePolicy) ==>
                    p.second == Some(FilterCall(QueryFor(metadata, FallbackLaneCode(metadata, servicePolicy)), true)))
  {
    if metadata.targetSpace.Some? then
      var redirect := Redirect(metadata, servicePolicy);
      var targetLane := TargetLane(metadata, servicePolicy);
      if targetLane.Some? then
        var redirectDefaultLane := RedirectDefaultLane(metadata, servicePolicy);
        var redirectFallbackLane := RedirectFallbackLane(metadata, servicePolicy);
        var nullable := !redirectDefaultLane && !redirectFallbackLane;
        var first := FilterCall(QueryFor(metadata, Some(targetLane.value.code)), nullable);
        if redirectDefaultLane then
          var defaultLane := metadata.targetSpace.value.defaultLane.value;
          Plan(first, Some(FilterCall(QueryFor(metadata, Some(defaultLane.code)), true)))
        else if redirectFallbackLane then
          Plan(first, Some(FilterCall(QueryFor(metadata, FallbackLaneCode(metadata, servicePolicy)), true)))
        else Plan(first, None)
      else
        var code := if IsBlank(redirect) then metadata.targetLaneId else redirect;
        Plan(FilterCall(QueryFor(metadata, code), true), None)
    else
      Plan(FilterCall(QueryFor(metadata, metadata.targetLaneId), true), None)
  }

  /** Without a lane policy the fallback is DEFAULT and there is no redirect: the target lane is the metadata's. */
  lemma NoLanePolicyDefaults(metadata: LaneMetadata, servicePolicy: Option<ServicePolicy>)
    requires LanePolicyOf(metadata, servicePolicy).None?
    requires metadata.targetSpace.Some?
    ensures Fallback(metadata, servicePolicy) == DEFAULT
    ensures Redirect(metadata, servicePolicy).None?
    ensures TargetLane(metadata, servicePolicy) == metadata.targetLane
    ensures !RedirectFallbackLane(metadata, servicePolicy)
  {
  }

  /** A non-blank redirect selects the lane of that code in the target space, which may not exist. */
  lemma RedirectSelectsLane(metadata: LaneMetadata, servicePolicy: Option<ServicePolicy>)
    requires metadata.targetSpace.Some?
    requires !IsBlank(Redirect(metadata, servicePolicy))
    ensures var code := Redirect(metadata, servicePolicy).value;
            var lanes := metadata.targetSpace.value.lanes;
            TargetLane(metadata, servicePolicy) == (if code in lanes then Some(lanes[code]) else None)
  {
  }

  /** The two redirect flags never hold together. */
  lemma RedirectFlagsExclusive(metadata: LaneMetadata, servicePolicy: Option<ServicePolicy>)
    requires metadata.targetSpace.Some?
    ensures !(RedirectDefaultLane(metadata, servicePolicy) && RedirectFallbackLane(metadata, servicePolicy))
  {
  }

  // ----- the route target -----

  /** The endpoints that satisfy the query, in their order. */
  function Matching<E>(endpoints: seq<E>, isLane: (E, LaneQuery) -> bool, query: LaneQuery): (r: seq<E>)
    ensures |r| <= |endpoints|
    ensures forall e :: e in r ==> e in endpoints && isLane(e, query)
    ensures forall i :: 0 <= i < |endpoints| && isLane(endpoints[i], query) ==> endpoints[i] in r
    ensures forall e | e in endpoints :: multiset(r)[e] == (if isLane(e, query) then multiset(endpoints)[e] else 0)
    decreases |endpoints|
  {
    if |endpoints| == 0 then []
    else
      var init := Matching(endpoints[..|endpoints| - 1], isLane, query);
      var last := endpoints[|endpoints| - 1];
      assert endpoints == endpoints[..|endpoints| - 1] + [last];
      if isLane(last, query) then init + [last] else init
  }

  /** Matching keeps the endpoints' order: matching a concatenation concatenates the matches. */
  lemma {:induction false} MatchingAppend<E>(s: seq<E>, t: seq<E>, isLane: (E, LaneQuery) -> bool, query: LaneQuery)
    ensures Matching(s + t, isLane, query) == Matching(s, isLane, query) + Matching(t, isLane, query)
    decreases |t|
  {
    if |t| > 0 {
      var init := t[..|t| - 1];
      assert (s + t)[..|s + t| - 1] == s + init;
      assert (s + t)[|s + t| - 1] == t[|t| - 1];
      MatchingAppend(s, init, isLane, query);
    } else {
      assert s + t == s;
    }
  }

  lemma {:induction false} NothingMatches<E>(endpoints: seq<E>, isLane: (E, LaneQuery) -> bool, query: LaneQuery)
    requires forall i :: 0 <= i < |endpoints| ==> !isLane(endpoints[i], query)
    ensures Matching(endpoints, isLane, query) == []
    decreases |endpoints|
  {
    if |endpoints| > 0 {
      NothingMatches(endpoints[..|endpoints| - 1], isLane, query);
    }
  }

  /**
   * The candidate list after one filter call. RouteTarget.filter is not part
   * of this model; it is assumed to keep exactly the matching endpoints when
   * some match or when the call is nullable, and to leave the list unchanged
   * otherwise.
   */
  function Narrow<E>(endpoints: seq<E>, isLane: (E, LaneQuery) -> bool, call: FilterCall): seq<E> {
    var matched := Matching(endpoints, isLane, call.query);
    if |matched| > 0 || call.nullable then matched else endpoints
  }

  /** The candidate set of a route, narrowed in place by filter calls. */
  class RouteTarget<!E> {
    /** Endpoint.isLane(spaceId, laneCode, defaultSpaceId, defaultLaneId), which is not part of this model. */
    const isLane: (E, LaneQuery) -> bool
    var endpoints: seq<E>
    /** The filter calls made on this target, in order. */
    var calls: seq<FilterCall>

    constructor (isLane: (E, LaneQuery) -> bool, endpoints: seq<E>)
      ensures this.isLane == isLane && this.endpoints == endpoints && calls == []
    {
      this.isLane := isLane;
      this.endpoints := endpoints;
      calls := [];
    }

    /** filter(e -> e.isLane(query), -1, nullable): the number of matches; the list is narrowed as Narrow says. */
    method Filter(query: LaneQuery, nullable: bool) returns (count: int)
      modifies this
      ensures count == |Matching(old(endpoints), isLane, query)|
      ensures endpoints == Narrow(old(endpoints), isLane, FilterCall(query, nullable))
      ensures calls == old(calls) + [FilterCall(query, nullable)]
    {
      var matched: seq<E> := [];
      for i := 0 to |endpoints|
        invariant matched == Matching(endpoints[..i], isLane, query)
      {
        assert endpoints[..i + 1][..i] == endpoints[..i];
        if isLane(endpoints[i], query) {
          matched := matched + [endpoints[i]];
        }
      }
      assert endpoints[..|endpoints|] == endpoints;
      count := |matched|;
      if count > 0 || nullable {
        endpoints := matched;
      }
      calls := calls + [FilterCall(query, nullable)];
    }
  }

  /** The rest of the filter chain: how many times it was proceeded to. */
  class RouteFilterChain {
    var proceeded: nat

    constructor ()
      ensures proceeded == 0
    {
      proceeded := 0;
    }

    method Proceed()
      modifies this
      ensures proceeded == old(proceeded) + 1
    {
      proceeded := proceeded + 1;
    }
  }

  /** Whether the plan's second call runs, given the candidates before the first. */
  predicate SecondRuns<E>(plan: Plan, endpoints: seq<E>, isLane: (E, LaneQuery) -> bool) {
    plan.second.Some? && |Matching(endpoints, isLane, plan.first.query)| <= 0
  }

  /** The candidates after the plan has run against `endpoints`. */
  function Outcome<E>(plan: Plan, endpoints: seq<E>, isLane: (E, LaneQuery) -> bool): seq<E> {
    var afterFirst := Narrow(endpoints, isLane, plan.first);
    if SecondRuns(plan, endpoints, isLane) then Narrow(afterFirst, isLane, plan.second.value) else afterFirst
  }

  /**
   * LaneFilter.filter: the plan's first call, then its second call when the
   * first counted no match, then the chain proceeds exactly once.
   */
  method Filter<E>(metadata: LaneMetadata, servicePolicy: Option<ServicePolicy>, target: RouteTarget<E>,
                   chain: RouteFilterChain)
    modifies target, chain
    ensures var plan := LanePlan(metadata, servicePolicy);
            var runs := SecondRuns(plan, old(target.endpoints), target.isLane);
            && target.calls == old(target.calls) + [plan.first] + (if runs then [plan.second.value] else [])
            && target.endpoints == Outcome(plan, old(target.endpoints), target.isLane)
    ensures chain.proceeded == old(chain.proceeded) + 1
  {
    ghost var plan := LanePlan(metadata, servicePolicy);
    var targetSpaceId := metadata.targetSpaceId;
    var targetLaneId := metadata.targetLaneId;
    var targetSpace := metadata.targetSpace;
    if targetSpace.Some? {
      var lanePolicy := LanePolicyOf(metadata, servicePolicy);
      var redirect := Redirect(metadata, servicePolicy);
      var targetLane := if IsBlank(redirect) then metadata.targetLane
                        else if redirect.value in targetSpace.value.lanes then Some(targetSpace.value.lanes[redirect.value])
                        else None;
      var fallbackType := if lanePolicy.None? then DEFAULT else lanePolicy.value.fallbackType;
      var fallbackLaneCode := if lanePolicy.None? then None else lanePolicy.value.fallbackLane;
      if targetLane.Some? {
        var defaultLane := targetSpace.value.defaultLane;
        var redirectDefaultLane := defaultLane.Some? && targetLane != defaultLane && fallbackType == DEFAULT;
        var redirectFallbackLane := fallbackType == CUSTOM;
        var nullable := !redirectDefaultLane && !redirectFallbackLane;
        var count := target.Filter(QueryFor(metadata, Some(targetLane.value.code)), nullable);
        if count <= 0 && redirectDefaultLane {
          // no match: retry on the default lane
          var _ := target.Filter(QueryFor(metadata, Some(defaultLane.value.code)), true);
        } else if count <= 0 && redirectFallbackLane {
          // no match: retry on the custom fallback lane
          var _ := target.Filter(QueryFor(metadata, fallbackLaneCode), true);
        }
      } else {
        var code := if IsBlank(redirect) then targetLaneId else redirect;
        var _ := target.Filter(QueryFor(metadata, code), true);
      }
    } else {
      var _ := target.Filter(QueryFor(metadata, targetLaneId), true);
    }
    chain.Proceed();
  }

  /** Fallback NONE: a resolved target lane with no matching endpoint leaves no candidate at all. */
  lemma NoFallbackEmptiesOnMiss<E>(metadata: LaneMetadata, servicePolicy: Option<ServicePolicy>, endpoints: seq<E>,
                                   isLane: (E, LaneQuery) -> bool)
    requires metadata.targetSpace.Some? && TargetLane(metadata, servicePolicy).Some?
    requires Fallback(metadata, servicePolicy) == NONE
    requires forall i :: 0 <= i < |endpoints| ==> !isLane(endpoints[i], LanePlan(metadata, servicePolicy).first.query)
    ensures Outcome(LanePlan(metadata, servicePolicy), endpoints, isLane) == []
  {
    var plan := LanePlan(metadata, servicePolicy);
    NothingMatches(endpoints, isLane, plan.first.query);
  }

  /**
   * Fallback DEFAULT with a default lane other than the target lane: when no
   * endpoint is in the target lane, the candidates are those of the default lane.
   */
  lemma DefaultFallbackOnMiss<E>(metadata: LaneMetadata, servicePolicy: Option<ServicePolicy>, endpoints: seq<E>,
                                 isLane: (E, LaneQuery) -> bool)
    requires metadata.targetSpace.Some? && TargetLane(metadata, servicePolicy).Some?
    requires RedirectDefaultLane(metadata, servicePolicy)
    requires forall i :: 0 <= i < |endpoints| ==> !isLane(endpoints[i], LanePlan(metadata, servicePolicy).first.query)
    ensures var defaultCode := metadata.targetSpace.value.defaultLane.value.code;
            Outcome(LanePlan(metadata, servicePolicy), endpoints, isLane)
              == Matching(endpoints, isLane, QueryFor(metadata, Some(defaultCode)))
  {
    var plan := LanePlan(metadata, servicePolicy);
    RedirectFlagsExclusive(metadata, servicePolicy);
    NothingMatches(endpoints, isLane, plan.first.query);
  }

  /** Some endpoint in the target lane: the first call keeps exactly those and no second call runs. */
  lemma TargetLaneHit<E>(metadata: LaneMetadata, servicePolicy: Option<ServicePolicy>, endpoints: seq<E>,
                         isLane: (E, LaneQuery) -> bool, i: nat)
    requires i < |endpoints| && isLane(endpoints[i], LanePlan(metadata, servicePolicy).first.query)
    ensures var plan := LanePlan(metadata, servicePolicy);
            && !SecondRuns(plan, endpoints, isLane)
            && Outcome(plan, endpoints, isLane) == Matching(endpoints, isLane, plan.first.query)
  {
  }
}
