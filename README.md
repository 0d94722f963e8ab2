# joylive-agent governance core, modelled in Dafny

This project models five pieces of the joylive-agent service-governance core:

- **GovernancePolicy** (`governance_policy.dfy`) is the policy snapshot. It covers:
  - the lookups of live spaces, lane spaces and database clusters by key;
  - the database address key `host:port`;
  - the host-to-domain index, which merges lane-space domains with live-space domains and their unit domains;
  - the service-list merge `onUpdate` / `onDelete`, which applies a batch of updates and deletes through the delete, update and add hooks of a policy merger.
- **Invocation** (`invocation.dfy`) covers:
  - whether a unit or cell is accessible for the request;
  - tag-condition matching;
  - the request listeners and how they are notified;
  - the diagnostic text of `getError`.
- **LaneFilter** (`lane_filter.dfy`) is the lane route filter. Which lane the candidate endpoints are narrowed to is a pure decision, `LanePlan`. The filter method carries that decision out against a `RouteTarget` class, whose endpoint list it narrows in place, and then proceeds down the filter chain.
- **TokenBucket** (`token_bucket.dfy`) is the smooth-bursty token-bucket limiter. Its stored permits and its `nextPermitMicros` timeline are fields of a class that `refresh`, `estimateRequiredPermitsWaitTime` and `doAcquire` update. The same steps are also defined on values, where the burst and pacing behaviour is proved.
- **MultiMap** (`multi_map.dfy`) is the key-to-list map. The operations are defined on `map<K, seq<V>>` values. A class whose methods update its `entries` field is proved against those definitions.

Java `null` is `Option.None` (`wrappers.dfy`). A Java `long` is an `int` kept within the 64-bit range, and Java's wrap-around is written out wherever the source relies on it. A `double` is a `real`. The clock is a parameter: each reading of "now" is passed in, and the sleep the caller would perform is returned as a number.

## Model

Paths are relative to the repository root.

| member | source | states |
|---|---|---|
| GovernancePolicy.Lookup | joylive-core/joylive-governance-api/src/main/java/com/jd/live/agent/governance/policy/GovernancePolicy.java:63-69 | A key lookup over a possibly-null list either finds an element of the list that has the key, or finds nothing when no element has it. When keys are unique, the lookup returns the element that has the key. |
| GovernancePolicy.GetLiveSpace | joylive-core/joylive-governance-api/src/main/java/com/jd/live/agent/governance/policy/GovernancePolicy.java:140-142 | A null id gives null. Otherwise the result is the live space with that id, or null when there is none. |
| GovernancePolicy.GetLaneSpace | joylive-core/joylive-governance-api/src/main/java/com/jd/live/agent/governance/policy/GovernancePolicy.java:150-152 | A null id gives null. Otherwise the result is the lane space with that id, or null when there is none. |
| GovernancePolicy.GetDbClusterByName | joylive-core/joylive-governance-api/src/main/java/com/jd/live/agent/governance/policy/GovernancePolicy.java:180-182 | The result is the cluster with that name, or null when there is none. |
| GovernancePolicy.DbAddressKey | joylive-core/joylive-governance-api/src/main/java/com/jd/live/agent/governance/policy/GovernancePolicy.java:192 | A non-positive port gives the bare host. A positive port gives the host, then ':', then the port's decimal digits. |
| GovernancePolicy.DecimalRoundTrip | joylive-core/joylive-governance-api/src/main/java/com/jd/live/agent/governance/policy/GovernancePolicy.java:192 | Reading the decimal text of a port back as a number gives the port again. |
| GovernancePolicy.DbAddressKeyInjective | joylive-core/joylive-governance-api/src/main/java/com/jd/live/agent/governance/policy/GovernancePolicy.java:191-193 | Two different positive ports on the same host never share an address key. |
| GovernancePolicy.GetDbCluster | joylive-core/joylive-governance-api/src/main/java/com/jd/live/agent/governance/policy/GovernancePolicy.java:191-193 | The lookup key is DbAddressKey(host, port): the bare host for a non-positive port, host:port otherwise. A found cluster has that address. With unique addresses, the cluster whose address is the key is the one returned. A null result means no cluster has that address. |
| GovernancePolicy.PutAllKeyed | joylive-core/joylive-governance-api/src/main/java/com/jd/live/agent/governance/policy/GovernancePolicy.java:72-98 | After the successive `put`s, each host maps to a domain of that host, and every put host is present. |
| GovernancePolicy.PutAllLastWins | joylive-core/joylive-governance-api/src/main/java/com/jd/live/agent/governance/policy/GovernancePolicy.java:77-92 | A key maps to the last element put under it. |
| GovernancePolicy.PutAllKeys | joylive-core/joylive-governance-api/src/main/java/com/jd/live/agent/governance/policy/GovernancePolicy.java:72-98 | Only keys of elements that were put are present. |
| GovernancePolicy.PutLaneDomains | joylive-core/joylive-governance-api/src/main/java/com/jd/live/agent/governance/policy/GovernancePolicy.java:76-78 | The inner lane loop puts each domain of the space, in order, with the lane policy of that space and domain. |
| GovernancePolicy.CollectLaneDomains | joylive-core/joylive-governance-api/src/main/java/com/jd/live/agent/governance/policy/GovernancePolicy.java:72-81 | The lane map equals the puts of every lane domain in space order. A null list, or a space with null domains, adds nothing. |
| GovernancePolicy.PutUnitDomains | joylive-core/joylive-governance-api/src/main/java/com/jd/live/agent/governance/policy/GovernancePolicy.java:90-94 | Each unit domain of a live domain is put, in order, with the unit policy of its space, live domain and unit domain. |
| GovernancePolicy.PutLiveDomain | joylive-core/joylive-governance-api/src/main/java/com/jd/live/agent/governance/policy/GovernancePolicy.java:89-94 | A live domain is put first, then each of its unit domains with the unit policy. |
| GovernancePolicy.PutLiveDomains | joylive-core/joylive-governance-api/src/main/java/com/jd/live/agent/governance/policy/GovernancePolicy.java:87-96 | Every live domain of one space is put, in order. |
| GovernancePolicy.CollectLiveDomains | joylive-core/joylive-governance-api/src/main/java/com/jd/live/agent/governance/policy/GovernancePolicy.java:83-98 | The live map equals the puts of every live domain and unit domain in space order. |
| GovernancePolicy.CombineDomains | joylive-core/joylive-governance-api/src/main/java/com/jd/live/agent/governance/policy/GovernancePolicy.java:100-112 | The keys are the live hosts plus the lane hosts. A host on both sides gets the live fields and the lane fields. A host on one side only keeps that side's domain. |
| GovernancePolicy.MergeLiveDomains | joylive-core/joylive-governance-api/src/main/java/com/jd/live/agent/governance/policy/GovernancePolicy.java:101-108 | The first merge loop covers exactly the live hosts. A host also on the lane side gets the combined policy; any other keeps its live domain. |
| GovernancePolicy.AddLaneDomains | joylive-core/joylive-governance-api/src/main/java/com/jd/live/agent/governance/policy/GovernancePolicy.java:109-111 | putIfAbsent of the lane domains keeps every host already present as it was, and adds the lane-only hosts with their lane domain. |
| GovernancePolicy.BuildDomainIndex | joylive-core/joylive-governance-api/src/main/java/com/jd/live/agent/governance/policy/GovernancePolicy.java:71-113 | The index of a whole policy, as CombineDomains states, over the live index and the lane index. |
| GovernancePolicy.LiveIndexLastWins | joylive-core/joylive-governance-api/src/main/java/com/jd/live/agent/governance/policy/GovernancePolicy.java:88-93 | A live domain or unit domain that no later one of the same host follows is the one indexed. |
| GovernancePolicy.IndexUpdates | joylive-core/joylive-governance-api/src/main/java/com/jd/live/agent/governance/policy/GovernancePolicy.java:233-234 | updateMap keys the updates by name, and a later update replaces an earlier one. |
| GovernancePolicy.RetainServices | joylive-core/joylive-governance-api/src/main/java/com/jd/live/agent/governance/policy/GovernancePolicy.java:236-255 | The old-service loop yields what each old service contributes, in order. `olds` is the set of old names. |
| GovernancePolicy.AppendServices | joylive-core/joylive-governance-api/src/main/java/com/jd/live/agent/governance/policy/GovernancePolicy.java:256-262 | Each update whose name is new is appended after the add hook, in update order. |
| GovernancePolicy.OnUpdate | joylive-core/joylive-governance-api/src/main/java/com/jd/live/agent/governance/policy/GovernancePolicy.java:231-264 | The result is the retained old services in their order, followed by the new services. |
| GovernancePolicy.OnUpdateService | joylive-core/joylive-governance-api/src/main/java/com/jd/live/agent/governance/policy/GovernancePolicy.java:274-276 | The same as onUpdate with a one-element update list and null deletes. |
| GovernancePolicy.OnDelete | joylive-core/joylive-governance-api/src/main/java/com/jd/live/agent/governance/policy/GovernancePolicy.java:286-288 | The same as onUpdate with no updates and a one-name delete set. |
| GovernancePolicy.RetainedAt | joylive-core/joylive-governance-api/src/main/java/com/jd/live/agent/governance/policy/GovernancePolicy.java:237-254 | The i-th old service's contribution sits in the result after those of the services before it. |
| GovernancePolicy.UntouchedServiceKept | joylive-core/joylive-governance-api/src/main/java/com/jd/live/agent/governance/policy/GovernancePolicy.java:240-242 | A service that is neither updated nor deleted is in the result, unchanged, at its place. |
| GovernancePolicy.RetainedOrder | joylive-core/joylive-governance-api/src/main/java/com/jd/live/agent/governance/policy/GovernancePolicy.java:237-254 | Retained old services keep their relative order. |
| GovernancePolicy.DeletedServiceVeto | joylive-core/joylive-governance-api/src/main/java/com/jd/live/agent/governance/policy/GovernancePolicy.java:243-247 | A service that is deleted but not updated stays, unchanged, exactly when the delete hook vetoes the removal. |
| GovernancePolicy.UpdatedServiceMerged | joylive-core/joylive-governance-api/src/main/java/com/jd/live/agent/governance/policy/GovernancePolicy.java:249-253 | An updated service keeps its place and takes the policy merged with the last update of its name, whether or not it is also deleted. |
| GovernancePolicy.NewServicesAppended | joylive-core/joylive-governance-api/src/main/java/com/jd/live/agent/governance/policy/GovernancePolicy.java:256-262 | An update with a new name follows the old part, after the add hook, in update order. An update with an old name appends nothing. |
| GovernancePolicy.NullServicesTakeUpdates | joylive-core/joylive-governance-api/src/main/java/com/jd/live/agent/governance/policy/GovernancePolicy.java:236-262 | With a null service list, the result is the updates in order, each after the add hook. |
| GovernancePolicy.NoDeletesKeepsAll | joylive-core/joylive-governance-api/src/main/java/com/jd/live/agent/governance/policy/GovernancePolicy.java:236-254 | With null deletes, no old service is dropped, and position i still holds the i-th old name. |
| GovernancePolicy.NoUpdatesAddsNothing | joylive-core/joylive-governance-api/src/main/java/com/jd/live/agent/governance/policy/GovernancePolicy.java:236-262 | With no updates, the result is no longer than the old list and holds only old services. |
| Invocation.IsAccessible | joylive-core/joylive-governance-api/src/main/java/com/jd/live/agent/governance/invoke/Invocation.java:177-189 | A null place is not accessible. A null or READ_WRITE mode is accessible. READ is accessible exactly when the request is not a write. Any other mode is not accessible. |
| Invocation.AccessibleToWriteIsAccessibleToRead | joylive-core/joylive-governance-api/src/main/java/com/jd/live/agent/governance/invoke/Invocation.java:181-186 | A place a write may use, a read may use as well. |
| Invocation.ToLowerNormalizes | joylive-core/joylive-governance-api/src/main/java/com/jd/live/agent/governance/invoke/Invocation.java:204 | The lower-cased key has no upper-case letter, has the same length, and lower-casing it again changes nothing. |
| Invocation.Match | joylive-core/joylive-governance-api/src/main/java/com/jd/live/agent/governance/invoke/Invocation.java:197-206 | A null condition matches. Otherwise a null request, null matchers or a missing matcher means no match. When the matcher exists, the result is exactly the matcher's verdict. |
| Invocation.UpperCaseMatcherUnreachable | joylive-core/joylive-governance-api/src/main/java/com/jd/live/agent/governance/invoke/Invocation.java:204 | A matcher registered under a key with an upper-case letter is never looked up. |
| Invocation.MatchIgnoresTypeCase | joylive-core/joylive-governance-api/src/main/java/com/jd/live/agent/governance/invoke/Invocation.java:203-205 | Two conditions whose types differ only in letter case consult the same matcher, the one under the lower-cased type. Each result is that matcher's verdict on its own condition, or false when the request, the matchers or that matcher is null. |
| Invocation.GetErrorLayout | joylive-core/joylive-governance-api/src/main/java/com/jd/live/agent/governance/invoke/Invocation.java:357-369 | The text is the message, then ". ", then the nine fields as name=value pairs joined by ", " in order, with "null" for null values, then a newline. |
| Invocation.GetErrorBounds | joylive-core/joylive-governance-api/src/main/java/com/jd/live/agent/governance/invoke/Invocation.java:357-369 | The text starts with the message and ends with a line break. |
| Invocation.RenderExtends | joylive-core/joylive-governance-api/src/main/java/com/jd/live/agent/governance/invoke/Invocation.java:359-368 | Appending fields never alters the text already built. |
| Invocation.GetErrorForUnit | joylive-core/joylive-governance-api/src/main/java/com/jd/live/agent/governance/invoke/Invocation.java:343-345 | getError(message, unit) is getError(message, location) for a location with that unit and a null cell, so the cell is rendered as "cell=null". |
| Invocation.GetErrorAt | joylive-core/joylive-governance-api/src/main/java/com/jd/live/agent/governance/invoke/Invocation.java:331-333 | The same layout with the unit and cell of the location. |
| Invocation.GetErrorHere | joylive-core/joylive-governance-api/src/main/java/com/jd/live/agent/governance/invoke/Invocation.java:319-321 | The same layout with the application's own location. |
| Invocation.Fanout | joylive-core/joylive-governance-api/src/main/java/com/jd/live/agent/governance/invoke/Invocation.java:256-257 | Notifying gives one callback per listener, and the i-th callback goes to the i-th listener with the outcome. |
| Invocation.Invocation.constructor | joylive-core/joylive-governance-api/src/main/java/com/jd/live/agent/governance/invoke/Invocation.java:244-251 | A new invocation has a null listener list and no callbacks. |
| Invocation.Invocation.AddListener | joylive-core/joylive-governance-api/src/main/java/com/jd/live/agent/governance/invoke/Invocation.java:244-251 | A null listener changes nothing. Otherwise the list is created if it is null, and the listener is appended. No callback is made. |
| Invocation.Invocation.Notify | joylive-core/joylive-governance-api/src/main/java/com/jd/live/agent/governance/invoke/Invocation.java:256-258 | Each registered listener is called once, in registration order. A null list calls nobody. The list is unchanged. |
| Invocation.Invocation.OnSuccess | joylive-core/joylive-governance-api/src/main/java/com/jd/live/agent/governance/invoke/Invocation.java:254-259 | Every registered listener is told of the success, in order. |
| Invocation.Invocation.OnFailure | joylive-core/joylive-governance-api/src/main/java/com/jd/live/agent/governance/invoke/Invocation.java:261-267 | Every registered listener is told of the failure, in order. |
| LaneFilter.LanePlan | joylive-core/joylive-governance-api/src/main/java/com/jd/live/agent/governance/invoke/filter/route/LaneFilter.java:57-88 | Without a target space: one nullable call on the target space and lane ids. With a target space but no resolved lane: one nullable call on the redirect, or on the target lane id when the redirect is blank. With a resolved lane: the first call is on its code and is nullable exactly when neither the default-lane nor the fallback-lane flag holds; a second, nullable call (default lane or fallback lane) exists exactly when the first is not nullable. Every call's query carries the metadata's target space id, default space id and default lane id, as each `isLane` call does. |
| LaneFilter.NoLanePolicyDefaults | joylive-core/joylive-governance-api/src/main/java/com/jd/live/agent/governance/invoke/filter/route/LaneFilter.java:60-66 | Without a lane policy, the fallback is DEFAULT, there is no redirect, the target lane is the metadata's, and the custom fallback is off. |
| LaneFilter.RedirectSelectsLane | joylive-core/joylive-governance-api/src/main/java/com/jd/live/agent/governance/invoke/filter/route/LaneFilter.java:61-62 | A non-blank redirect selects that lane of the target space, or none when the space has no such lane. |
| LaneFilter.RedirectFlagsExclusive | joylive-core/joylive-governance-api/src/main/java/com/jd/live/agent/governance/invoke/filter/route/LaneFilter.java:69-70 | The default-lane flag and the fallback-lane flag are never both set. |
| LaneFilter.Matching | joylive-core/joylive-governance-api/src/main/java/com/jd/live/agent/governance/invoke/filter/route/LaneFilter.java:73 | The result holds exactly the endpoints that satisfy `isLane`, each as many times as it occurs in the input, so its length is the match count. |
| LaneFilter.MatchingAppend | joylive-core/joylive-governance-api/src/main/java/com/jd/live/agent/governance/invoke/filter/route/LaneFilter.java:73 | The matches keep the endpoints' order: the matches of a concatenation are the matches of each part, concatenated. |
| LaneFilter.NothingMatches | joylive-core/joylive-governance-api/src/main/java/com/jd/live/agent/governance/invoke/filter/route/LaneFilter.java:74 | When no endpoint satisfies the query, the match list is empty. |
| LaneFilter.RouteTarget.Filter | joylive-core/joylive-governance-api/src/main/java/com/jd/live/agent/governance/invoke/filter/route/LaneFilter.java:73 | The result is the number of matches. The list is narrowed by the rule described at `Narrow`. The call is logged. |
| LaneFilter.RouteFilterChain.Proceed | joylive-core/joylive-governance-api/src/main/java/com/jd/live/agent/governance/invoke/filter/route/LaneFilter.java:90 | The chain records one more proceed. |
| LaneFilter.Filter | joylive-core/joylive-governance-api/src/main/java/com/jd/live/agent/governance/invoke/filter/route/LaneFilter.java:46-91 | The target receives exactly the plan's first call, then its second call only when the first counted no match. The endpoints end as the plan's outcome. The chain proceeds once. |
| LaneFilter.NoFallbackEmptiesOnMiss | joylive-core/joylive-governance-api/src/main/java/com/jd/live/agent/governance/invoke/filter/route/LaneFilter.java:72-80 | With fallback NONE and no endpoint in the target lane, no candidate is left. |
| LaneFilter.DefaultFallbackOnMiss | joylive-core/joylive-governance-api/src/main/java/com/jd/live/agent/governance/invoke/filter/route/LaneFilter.java:74-76 | With fallback DEFAULT and no endpoint in the target lane, the candidates are exactly the default-lane endpoints. |
| LaneFilter.TargetLaneHit | joylive-core/joylive-governance-api/src/main/java/com/jd/live/agent/governance/invoke/filter/route/LaneFilter.java:73-80 | When some endpoint is in the planned lane, no second call runs and the candidates are exactly the matches. |
| TokenBucket.Wrap | joylive-core/joylive-governance-api/src/main/java/com/jd/live/agent/governance/invoke/ratelimit/tokenbucket/TokenBucketLimiter.java:226 | Java long addition: the value reduced into 64 bits, unchanged when it already fits, and shifted by 2^64 on a single overflow. |
| TokenBucket.SaturatedAdd | joylive-core/joylive-governance-api/src/main/java/com/jd/live/agent/governance/invoke/ratelimit/tokenbucket/TokenBucketLimiter.java:225-234 | The sign-bit computation equals the exact sum clamped to [Long.MIN_VALUE, Long.MAX_VALUE]. |
| TokenBucket.ToLong | joylive-core/joylive-governance-api/src/main/java/com/jd/live/agent/governance/invoke/ratelimit/tokenbucket/TokenBucketLimiter.java:150 | A `(long)` cast of a non-negative double truncates, and saturates at Long.MAX_VALUE. |
| TokenBucket.ToMicros | joylive-core/joylive-governance-api/src/main/java/com/jd/live/agent/governance/invoke/ratelimit/tokenbucket/TokenBucketLimiter.java:68 | TimeUnit.toMicros of a positive duration: nanoseconds are divided by 1000, and other units give the clamped product. |
| TokenBucket.TimeoutMicros | joylive-core/joylive-governance-api/src/main/java/com/jd/live/agent/governance/invoke/ratelimit/tokenbucket/TokenBucketLimiter.java:68 | A non-positive timeout is 0. A positive timeout in nanoseconds becomes timeout / 1000. In any coarser unit it becomes timeout × (microseconds per unit), saturating at Long.MAX_VALUE. |
| TokenBucket.IsTimeoutWrapsOnLargeTimeout | joylive-core/joylive-governance-api/src/main/java/com/jd/live/agent/governance/invoke/ratelimit/tokenbucket/TokenBucketLimiter.java:122-124 | The test as written reports a timeout for a permit that is already due when the timeout is Long.MAX_VALUE. |
| TokenBucket.IsTimeout | joylive-core/joylive-governance-api/src/main/java/com/jd/live/agent/governance/invoke/ratelimit/tokenbucket/TokenBucketLimiter.java:122-124 | A timeout occurs exactly when the next permit lies beyond now + timeout, computed exactly. A permit already due never times out. |
| TokenBucket.IsTimeoutAgreesWithoutOverflow | joylive-core/joylive-governance-api/src/main/java/com/jd/live/agent/governance/invoke/ratelimit/tokenbucket/TokenBucketLimiter.java:122-124 | The corrected test equals the written one whenever now + timeout fits in a long. |
| TokenBucket.AdjustRequiredPermitsWaitTime | joylive-core/joylive-governance-api/src/main/java/com/jd/live/agent/governance/invoke/ratelimit/tokenbucket/TokenBucketLimiter.java:172-174 | The caller waits exactly max(next - start, 0): next - start when the timeline is ahead of the start, and 0 otherwise. The result is never TIMEOUT. |
| TokenBucket.GetPermits | joylive-core/joylive-governance-api/src/main/java/com/jd/live/agent/governance/invoke/ratelimit/tokenbucket/TokenBucketLimiter.java:214-216 | permits × interval equals seconds in microseconds. |
| TokenBucket.Refreshed | joylive-core/joylive-governance-api/src/main/java/com/jd/live/agent/governance/invoke/ratelimit/tokenbucket/TokenBucketLimiter.java:198-206 | The timeline becomes max(next, now). When now is past next, the elapsed time divided by the interval is added to the stock, capped at maxStoredPermits when that is positive; otherwise nothing changes. The invariant is kept and the stock never shrinks. |
| TokenBucket.IdleSecondsRefill | joylive-core/joylive-governance-api/src/main/java/com/jd/live/agent/governance/invoke/ratelimit/tokenbucket/TokenBucketLimiter.java:214-216 | An uncapped bucket idle for s seconds gains exactly getPermits(s). |
| TokenBucket.PacingMicros | joylive-core/joylive-governance-api/src/main/java/com/jd/live/agent/governance/invoke/ratelimit/tokenbucket/TokenBucketLimiter.java:148-150 | The pacing cost is 0 when the stock covers the permits. Otherwise it is `(long)((permits - stored) * interval)`, the truncation of that product, saturating at Long.MAX_VALUE. |
| TokenBucket.Reserve | joylive-core/joylive-governance-api/src/main/java/com/jd/live/agent/governance/invoke/ratelimit/tokenbucket/TokenBucketLimiter.java:143-161 | After the refresh, the stock pays for min(permits, stored); the rest is paced at one interval each and moves the timeline by that cost, saturating. The wait is max(next - start, 0), never negative and never TIMEOUT. The invariant is kept and the timeline never moves back. |
| TokenBucket.BurstThenPacing | joylive-core/joylive-governance-api/src/main/java/com/jd/live/agent/governance/invoke/ratelimit/tokenbucket/TokenBucketLimiter.java:143-161 | At 10 permits per second with a burst of 5, after 10 s idle: 5 permits are granted at once, the next request also proceeds at once, and the one after it waits 100 ms. |
| TokenBucket.TokenBucketLimiter.constructor | joylive-core/joylive-governance-api/src/main/java/com/jd/live/agent/governance/invoke/ratelimit/tokenbucket/TokenBucketLimiter.java:58-64 | The fields start at 0 and are refreshed at the construction time. The invariant holds. |
| TokenBucket.TokenBucketLimiter.Refresh | joylive-core/joylive-governance-api/src/main/java/com/jd/live/agent/governance/invoke/ratelimit/tokenbucket/TokenBucketLimiter.java:198-206 | The new fields are Refreshed of the old ones, and the invariant is kept. |
| TokenBucket.TokenBucketLimiter.EstimateRequiredPermitsWaitTime | joylive-core/joylive-governance-api/src/main/java/com/jd/live/agent/governance/invoke/ratelimit/tokenbucket/TokenBucketLimiter.java:143-161 | The new fields and the result are those of Reserve. |
| TokenBucket.TokenBucketLimiter.DoAcquireAt | joylive-core/joylive-governance-api/src/main/java/com/jd/live/agent/governance/invoke/ratelimit/tokenbucket/TokenBucketLimiter.java:85-99 | A request is acquired exactly when it is not timed out under the corrected test. Whenever now + timeout fits in a long, this is the same outcome as the source's test. A refusal changes nothing and sleeps 0. Success reserves and sleeps the reserved wait. |
| TokenBucket.TokenBucketLimiter.IsFull | joylive-core/joylive-governance-api/src/main/java/com/jd/live/agent/governance/invoke/ratelimit/tokenbucket/TokenBucketLimiter.java:131-133 | The base limiter is never full. |
| TokenBucket.TokenBucketLimiter.DoAcquire | joylive-core/joylive-governance-api/src/main/java/com/jd/live/agent/governance/invoke/ratelimit/tokenbucket/TokenBucketLimiter.java:66-74 | The timeout is converted as TimeoutMicros says. The outcome is then that of DoAcquireAt, including the agreement with the source's test whenever now + timeout fits in a long. |
| MultiMap.First | joylive-core/joylive-core-api/src/main/java/com/jd/live/agent/core/util/map/MultiMap.java:33-39 | getFirst on a map value: present exactly when the key's list is non-empty, and then it is the list's first value. |
| MultiMap.Merged | joylive-core/joylive-core-api/src/main/java/com/jd/live/agent/core/util/map/MultiMap.java:58-64 | addAll(other) on a map value: the keys of both sides, each with its own list followed by the other's. |
| MultiMap.SetEach | joylive-core/joylive-core-api/src/main/java/com/jd/live/agent/core/util/map/MultiMap.java:96-101 | setAll(map) on a map value: each key of the map gets the one-element list of its value. Other keys are unchanged. |
| MultiMap.SingleValues | joylive-core/joylive-core-api/src/main/java/com/jd/live/agent/core/util/map/MultiMap.java:103-108 | toSingleValueMap on a map value: exactly the keys with a first value, each mapped to that value. |
| MultiMap.AddedAllIsAddEach | joylive-core/joylive-core-api/src/main/java/com/jd/live/agent/core/util/map/MultiMap.java:49-56 | addAll(key, values) equals adding the values one at a time, in order. |
| MultiMap.AddedFrame | joylive-core/joylive-core-api/src/main/java/com/jd/live/agent/core/util/map/MultiMap.java:41-47 | add changes only its key, whose list grows by the value at the end. The first value changes only when the list was empty. |
| MultiMap.SetThenFirst | joylive-core/joylive-core-api/src/main/java/com/jd/live/agent/core/util/map/MultiMap.java:80-86 | After set(key, v), getFirst(key) and the single-value view both give v. |
| MultiMap.SetEachSingleValues | joylive-core/joylive-core-api/src/main/java/com/jd/live/agent/core/util/map/MultiMap.java:96-108 | The single-value view of setAll(values) on an empty multimap is `values`. |
| MultiMap.MultiMap.ContainsKey | joylive-core/joylive-core-api/src/main/java/com/jd/live/agent/core/util/map/MultiMap.java:75 | True exactly when the key is present. |
| MultiMap.MultiMap.GetFirst | joylive-core/joylive-core-api/src/main/java/com/jd/live/agent/core/util/map/MultiMap.java:33-39 | The first value of the key's list, or null when there is none. |
| MultiMap.MultiMap.Add | joylive-core/joylive-core-api/src/main/java/com/jd/live/agent/core/util/map/MultiMap.java:41-47 | The value is appended to the key's current list. No other key changes. |
| MultiMap.MultiMap.AddAll | joylive-core/joylive-core-api/src/main/java/com/jd/live/agent/core/util/map/MultiMap.java:49-56 | The values are appended in order. No other key changes. |
| MultiMap.MultiMap.AddAllFrom | joylive-core/joylive-core-api/src/main/java/com/jd/live/agent/core/util/map/MultiMap.java:58-64 | The new entries are Merged of the old entries and the other multimap. |
| MultiMap.MultiMap.AddIfAbsent | joylive-core/joylive-core-api/src/main/java/com/jd/live/agent/core/util/map/MultiMap.java:66-78 | A present key changes nothing. An absent key gets [value]. |
| MultiMap.MultiMap.Set | joylive-core/joylive-core-api/src/main/java/com/jd/live/agent/core/util/map/MultiMap.java:80-86 | The key's list becomes exactly [value]. |
| MultiMap.MultiMap.SetAll | joylive-core/joylive-core-api/src/main/java/com/jd/live/agent/core/util/map/MultiMap.java:88-94 | The key's list becomes exactly `values`. |
| MultiMap.MultiMap.SetAllFrom | joylive-core/joylive-core-api/src/main/java/com/jd/live/agent/core/util/map/MultiMap.java:96-101 | The new entries are SetEach of the old entries and the map. |
| MultiMap.MultiMap.ToSingleValueMap | joylive-core/joylive-core-api/src/main/java/com/jd/live/agent/core/util/map/MultiMap.java:103-108 | Each key with a first value maps to it. A key whose list is empty is dropped. |

## Left out

- GovernancePolicy `getDomain` / `getService`: the lazily built caches (`MapCache`, `ListBuilder`) are not modelled as caches. The domain index is BuildDomainIndex, and the list lookups are Lookup. The result is the same; caching and the `cache()` warm-up are not part of the model.
- GovernancePolicy: `copy()`, the constructors, the Lombok accessors and the JSON (de)serialisation are not part of this model.
- GovernancePolicy.Lookup, GetLiveSpace, GetLaneSpace, GetDbClusterByName, GetDbCluster: the "the element with the key is found" direction assumes unique keys. With duplicate keys, `ListBuilder` keeps one of them. Which one it keeps is in code that is not part of this model.
- GovernancePolicy.OnUpdate: ServiceOp's hooks (`onDelete`, `onUpdate`, `onAdd` with a PolicyMerger) mutate the service object in place. Here they are pure functions of their arguments that return the veto or the new policy, and the service keeps its name. ServiceOp is not part of this model.
- GovernancePolicy.OnUpdate: each old service is looked up by name in the updates. Java object identity and the `equals` of Service are not modelled.
- Invocation: `reject`, `failover`, `degrade`, `publish` / `configure` (traffic events) and the request-parsing constructor are not part of this model.
- Invocation.Match: `String.toLowerCase` is modelled for the ASCII letters only. Locale-specific and non-ASCII case mapping is not modelled.
- Invocation.IsAccessible: every access mode other than READ_WRITE and READ is folded into one NONE value. The source treats them all alike, as not accessible.
- Invocation.Invocation.Notify: a listener is recorded as a callback in the invocation's log. Listener side effects and exceptions are not modelled. In the source, `forEach` stops at the first listener that throws, and the listeners after it are not called. The model records no exceptions.
- LaneFilter.RouteTarget.Filter: RouteTarget's own filter is not part of this model. It is assumed to keep exactly the matching endpoints when some match or when the call is nullable, and otherwise to leave the list unchanged. `Endpoint.isLane` is a parameter, and a ServicePolicy's `getLanePolicy` and `getTarget` are map lookups.
- LaneFilter.LanePlan: `targetLane != defaultLane` in the source compares references. Here it compares values, so two distinct Lane objects with equal fields count as the same lane.
- TokenBucket.TokenBucketLimiter.DoAcquireAt, DoAcquire: both decide with the corrected IsTimeout, not with the wrapping sum at TokenBucketLimiter.java:70 and :89. When now + timeout exceeds Long.MAX_VALUE, the source refuses and the model acquires. An example is a timeout of Long.MAX_VALUE milliseconds, which saturates to Long.MAX_VALUE microseconds. In every other case both contracts state the source's outcome (see Findings).
- Null fields that the source dereferences without a check are non-null in the model. Each of these throws NullPointerException in the source, and the model has no such path:
  - a live space's spec (GovernancePolicy.java:86-87);
  - the `updates` list of onUpdate (GovernancePolicy.java:233-234);
  - a tag condition's type (Invocation.java:204);
  - the getError message (Invocation.java:359);
  - the host of getDbCluster (GovernancePolicy.java:192). With a positive port Java would build the key "null:port". With a non-positive port the address cache is queried with a null key;
  - null elements of the live-space, lane-space and db-cluster lists, and null ids, names or addresses on them (GovernancePolicy.java:63-69). The key extractors of the lookup caches would dereference them.
- TokenBucket.TokenBucketLimiter.constructor: requires a positive permit interval. The source does not check it. With a zero interval, refresh divides by zero and the permit count becomes infinite or NaN.
- TokenBucket: the `synchronized` block, the stopwatch and the sleep are not modelled. Each clock reading is a parameter, and the sleep is the returned `sleepMicros`.
- TokenBucket: `double` arithmetic is exact real arithmetic. IEEE rounding is not modelled.
- TokenBucket.Reserve: permits are assumed non-negative. The source takes an `int` and does not check it.
- TokenBucket.GetPermits: `seconds * MICROSECOND_OF_ONE_SECOND` is an exact product. Long overflow for more than about 9.2 × 10^12 seconds is not modelled.
- TokenBucket: `getMaxStoredPermits` (abstract) and the sliding window's permit interval are constructor parameters. The subclasses are not part of this model.
- TokenBucket.BurstThenPacing: the reservation pays later. After a burst of 5, the 6th request is granted at once and reserves the next interval, and the 7th waits 100 ms.
- MultiMap: the source is an interface. The model follows its documented contract on a `map<K, seq<V>>` field. Aliasing, as in `addAll(this)`, the `Map` super-interface beyond `containsKey`, and the iteration order of `setAll` / `addAll(other)` (which do not affect the result) are not modelled.

## Findings

| source | as written | input that shows it | evidently intended | confidence | as-written member | corrected member |
|---|---|---|---|---|---|---|
| joylive-core/joylive-governance-api/src/main/java/com/jd/live/agent/governance/invoke/ratelimit/tokenbucket/TokenBucketLimiter.java:122-124 | `nextPermitMicros > nowMicros + timeoutMicros` adds in wrapping `long` arithmetic. A large timeout wraps the sum negative, so a request whose permit is already due is refused. | nextPermitMicros = 1, nowMicros = 1, timeoutMicros = Long.MAX_VALUE. This timeout is reached, for example, by `doAcquire(p, Long.MAX_VALUE, MILLISECONDS)` through toMicros saturation. | A timeout only when the next permit lies beyond now + timeout. That is `nextPermitMicros - timeoutMicros > nowMicros`, which cannot overflow. | not executed | TokenBucket.IsTimeoutWrapsOnLargeTimeout | TokenBucket.IsTimeout |
