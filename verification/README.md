# Verified model of the proxy's cache, certificates, idle controller and routing

A Dafny model of the parts of `internal/server` whose correctness spans many
functions, with proofs about every input, every run or every reachable state.
`dafny verify dfyconfig.toml` checks all of it.

- **Response cache.** Key framing and key spaces (`CacheKeys`, `AcceptEncoding`,
  `CacheEncoding`),
  entry lifetimes (`CacheEntry`), the two-level Vary index and its gate
  (`CacheVariant`), single flight (`Inflight`), cross-proxy leases (`Leases`),
  and the whole request protocol of any number of proxies as a step system
  (`CacheProtocol`, `CacheSafety`, `CacheService`), down to the in-process store
  (`NegotiatedStore`). The gate is the secondary-key match of
  section 4.1 of RFC 9111; the stale window is section 3 of RFC 5861; coding
  acceptance is section 12.5.3 of RFC 9110.
- **Stores.** A recency list under a byte budget (`Recency`), refined in place by
  the memory store (`MemoryStore`) and, with files and reopening, by the file
  store (`FileStore`).
- **Certificates.** Names and zones (`Text`, `Names`, `Zones`), the order split
  (`Grouping`, `OrderSplit`, `SolvableOrders`), wildcard planning (`DynamicPlan`,
  `PlanOrder`, `DeployPlan`), holds (`Quarantine`), the issuer's queue and its interleavings
  (`Issuer`, `IssuerRuns`), failures (`FailureHandling`, `FailureRuns`,
  `IssuancePlan`), the manager's maps (`Manager`, `CertManager`) and renewal
  (`Renewal`, `RenewalCoverage`), also among other lock holders (`RenewalRaces`).
- **Idle controller** (`IdleController`, `IdleRuns`), **shrink guard**
  (`ShrinkGuard`) and **request routing** (`ServiceMap`).

State the source updates in place is a class whose methods are proved against
functions on values; the lemmas are about those functions. Concurrency is modelled
by steps, one per critical section. Clocks, network replies, probe results, map
iteration order and order outcomes are parameters, so the theorems hold for all of
them.

## What the proofs found

- **Hashes.** No digest is taken to be injective. Theorems about cache keys, cache
  files and certificate identifiers say "equal inputs, or here are two that
  collide", or name the clash they exclude.
- **Accept-Encoding.** The serve check hands an unencoded body to a client that
  refuses one, against section 12.5.3 of RFC 9110, and parts from the RFC nowhere
  else for clients that send the field (`CacheEncoding.AcceptsAgreesIff`).
- **Wildcard spelling.** The order split and provider lookup normalize a wildcard
  differently when space follows `*.`; `SolvableOrders.OrdersAcceptedIff` is the
  exact condition, which hostnames always meet. No deploy, domain source or mapped
  zone spells a wildcard so; this is about the split function, or an edited state
  file.
- **Collapsing a name.** A name collapsed into its mapped zone's wildcard is
  covered exactly when the text after its first dot is canonical. Names from a
  domain source always are. Deploy hosts are not lower-cased, and renewal plans
  them too, so a mixed-case deploy host under a mapped zone can lose its
  certificate at renewal: `RenewalCoverage.RenewableKeptIff` says exactly when, and
  `RenewalCoverage.MixedCaseHostIsLost` shows one.
- **Sorted identifiers.** `adoptCertificateAt` documents a sorted list and the
  certificate's identifier is a digest of it, but a renewal sorts before it plans.
  `PlanOrder.RenewalOrderIsSortedIff` says, for each order the two splits leave,
  exactly when its list is the sorted one, and `PlanOrder.DeepNameUnsorts` shows one
  that is not. The manager theorems do not assume sorting.
- **Renewal races.** Other lock holders act between a renewal's orders.
  `RenewalRaces.RemovalKeepsIff` says exactly which names the final removal keeps. A
  host registered meanwhile can be lost (`RegisteredMeanwhileIsLost`), and so can a
  certificate issued meanwhile for the old one's very list
  (`ReissuedMeanwhileIsLost`).
- **Explicit wildcards** given to the deploy planner hide deeper names
  (`DeployPlan.DeployPlanCoversIff` is the exact condition). Deploys and domain
  sources refuse them, so this is about the planner function alone.
- **Reset** supersedes a stop but cannot cancel it
  (`IdleRuns.ResetCancelsExactlyWakes`).
- **Oversized replacements** drop the old entry in the memory store and keep it in
  the file store; each model follows its own code.
- **Followers** of a flight are not checked for freshness, so no theorem says that
  they are.
- **Validator.** Adoption keeps the export validator satisfied exactly when no
  other stored identifier shares its directory (`Manager.AdoptValidIff`).
  Identifiers of issued certificates guarantee that among themselves; a restored or
  edited state file can break it (`Manager.RestoredIdentifierCollides`).

## Model

| member | source | states |
|---|---|---|
| `CacheKeys.FramingInjective` | internal/server/cache_policy.go:278-287 | Length-prefixed framing is injective: two field lists that frame to the same bytes are the same list. |
| `CacheKeys.BigEndianInjective` | internal/server/cache_policy.go:282-285 | The fixed-width length prefix determines the length it encodes. |
| `CacheKeys.ComputePrimaryKey` | internal/server/cache_policy.go:238-276 | The hashing loops compute the key the key lemmas are about. |
| `CacheKeys.ComputeVariantKey` | internal/server/cache_variant.go:74-92 | The variant loop computes the variant key the key lemmas are about. |
| `CacheKeys.EqualPrimaryKeys` | internal/server/cache_policy.go:238-287 | Under one configuration, equal primary keys mean the same service, rollout group, scheme, host, path and query, the same value sent for every keyed header and cookie (a missing one reading as empty), and the same keyable codings accepted where Accept-Encoding is keyed; or an exhibited collision of the full digest. The method is deliberately no part of the key. |
| `CacheKeys.EqualKeysSameService` | internal/server/cache_policy.go:238-276 | Equal primary keys name one service, whatever the services' configurations. |
| `CacheKeys.EqualVariantKeys` | internal/server/cache_variant.go:74-92 | Equal variant keys mean one resource, the same value sent for every listed field and the same keyable codings accepted where Accept-Encoding is listed; or an exhibited collision of the truncated digest. |
| `CacheKeys.SameValuesSameVariantKey` | internal/server/cache_variant.go:74-92 | Requests that agree on every listed field, in those terms, have one variant key, so an equal request looks where the response was put. |
| `CacheKeys.SameResourceSameKey` | internal/server/cache_policy.go:238-287 | Requests that agree in those terms on everything a primary key speaks for have one primary key. |
| `CacheKeys.KeyValuesIff` | internal/server/cache_encoding.go:87-96 | What keys carry for a list of fields differs between two requests if and only if one of the fields does: Accept-Encoding by the codings it accepts, any other by the value sent. |
| `CacheKeys.VariantNamesPrimary` | internal/server/cache_variant.go:63-92 | A variant key determines the primary key it was derived from. |
| `CacheKeys.KeySpacesDisjoint` | internal/server/cache_variant.go:63-92 | No variant key is any resource's primary key. |
| `AcceptEncoding.SameEncodingKeyIff` | internal/server/cache_encoding.go:34-57 | Two clients share the Accept-Encoding key value if and only if they accept the same keyable codings. |
| `CacheEncoding.SharedKeySharedReading` | internal/server/cache_encoding.go:67-96 | A body in a keyable coding is readable to every client sharing the key value, or to none. |
| `CacheEncoding.AcceptsAgreesIff` | internal/server/cache_encoding.go:59-80 | For a client that sent Accept-Encoding, the serve check agrees with section 12.5.3 of RFC 9110 if and only if the body is encoded or the client does not refuse identity. |
| `CacheEncoding.AbsentFieldAgreesIff` | internal/server/cache_encoding.go:59-80 | For a client that sent none, to which the RFC lets anything be sent, the check allows exactly unencoded bodies. |
| `CacheEncoding.RefusedIdentityIsServed` | internal/server/cache_encoding.go:67-71 | The failing family is inhabited: identity;q=0 and a bare *;q=0 are both handed an unencoded body. |
| `CacheEncoding.UsableAgreesIff` | internal/server/cache_encoding.go:34-57 | The key's reading of a keyable coding agrees with the RFC except for identity refused through the wildcard. |
| `AcceptEncoding.JoinInjective` | internal/server/cache_encoding.go:34-57 | The joined list of codings determines the list. |
| `CacheEntry.ServableUntilTtl` | internal/server/cache_entry.go:67-101 | From the time it was stored an entry is servable exactly until its ttl runs out. |
| `CacheVariant.GateAfterLookup` | internal/server/cache_variant.go:95-113 | A record read at the primary key or at any followed variant key, and passing the gate, was recorded for a request this one matches. |
| `CacheVariant.GateAfterHandover` | internal/server/cache_variant.go:95-113 | The same for a record handed over by a flight or a lease wait. |
| `CacheVariant.AdmittedIndex` | internal/server/cache_variant.go:161-197 | A variant is turned away if and only if it is new under the fields its index lists and the index is full; otherwise its index keeps the variants known under those fields, adds its digest and respects the cap; a response without Vary publishes none. |
| `CacheVariant.IndexOutlivesVariant` | internal/server/cache_variant.go:144-159 | The index is servable whenever the variant it was published with is, and for a minute at least. |
| `CacheVariant.StoredIsFound` | internal/server/cache_middleware.go:105-129 | After the store, a matching request's two-step lookup finds exactly that response for as long as it is servable and neither record is dropped or overwritten; the index is shown to last as long. |
| `CacheVariant.PublishedIsFound` | internal/server/cache_variant.go:129-139 | Wherever the variant and its index can still be read, a matching request's lookup ends at exactly the stored response. |
| `CacheSafety.FleetKeyingSound` | internal/server/cache_variant.go:63-113 | The real keys satisfy what the protocol proof asks of keys, for any hash. |
| `CacheSafety.FitsMeans` | internal/server/cache_variant.go:95-113 | What the gate's key comparison says about the two requests' own headers, cookies and codings. |
| `CacheSafety.StepSafe` | internal/server/cache_middleware.go:105-371 | Each of the twenty steps of the request, flight, lease and store protocol keeps the safety invariant. |
| `CacheSafety.RunSafe` | internal/server/cache_middleware.go:105-371 | Every run of any number of proxies sharing a store keeps it. |
| `CacheSafety.ReplayedWasRecordedForTheSame` | internal/server/cache_middleware.go:105-222 | In every run, each replayed response was recorded for a request for the same resource of the same service (or an exhibited digest collision) that sent the same value for every field of the response's own Vary list and accepts the same keyable codings where it lists Accept-Encoding (or an exhibited truncated collision), and is in a coding the client accepts or an unencoded one it refused. |
| `CacheSafety.NoFollowerStranded` | internal/server/cache_middleware.go:161-222 | In every run, every call a follower may wait on is settled or has a live leader that will settle it. |
| `CacheSafety.OnlyTakenWaits` | internal/server/cache_middleware.go:174-200 | A leader goes on to fetch exactly when it does not find its lease taken. |
| `CacheSafety.NegotiatedRoundTrip` | internal/server/cache_middleware.go:262-274 | Store then lookup under the real keys: a request for the same resource that sent the same on the vary fields finds exactly the stored response, and passes the gate, for as long as it is servable and neither record is dropped or overwritten. |
| `CacheService.ReplayedBytesWereGiven` | internal/server/cache_middleware.go:105-371 | In every run, a replay goes to a request that arrived, and its status, headers and body are those some target gave: confirming a copy with a 304 changes its lifetime only. |
| `CacheService.AnsweredInTime` | internal/server/cache_middleware.go:105-222 | Only a serve, a lease wait and a follower replay anything, each to its own client: a serve within the fresh or stale window, a lease wait within the fresh one. |
| `CacheService.HitIsServed` | internal/server/cache_middleware.go:105-160 | A request that the lookup leads to a live response the gate lets through is answered with it there and then; a stale one starts one refresh unless one is under way. |
| `CacheService.RefusersGetNoStoredCopy` | internal/server/cache_middleware.go:105-222 | In every run a request that does not allow a stored response is neither served one nor made to wait for one; it may only share a fetch. |
| `CacheService.WritesPublish` | internal/server/cache_middleware.go:262-274 | The two writes of a response leave exactly the store that storing a variant means, and the response in hand for the followers. |
| `CacheService.LeaderServesFollowers` | internal/server/cache_middleware.go:161-222 | A settled leader gives its response to every follower the gate lets have it, and sends the others to the target. |
| `CacheService.EarlyRefusalFrees` | internal/server/cache_middleware.go:189-199 | A response found unstorable while it streams frees a foreground leader's followers at once, with nothing. |
| `CacheService.ConfirmedCopy` | internal/server/cache_middleware.go:362-366 | A copy confirmed by a 304 has the same bytes and a new life, goes to the followers, and is stored where it was. |
| `CacheService.LeaseLaw` | internal/server/cache_middleware.go:174-200 | A leader told its lease is taken waits, or gives up when it only refreshes; one that gets it keeps the token and holds the lease. |
| `CacheService.ProbeServes` | internal/server/cache_middleware_lease.go:73-125 | A waiter that finds a fresh response at its key that the gate lets through is answered with it. |
| `CacheService.NobodyStuck` | internal/server/cache_middleware.go:105-371 | In every safe state each unfinished request has a step of its own that moves it on, unless it follows a call not settled yet, which has an unfinished leader. |
| `CacheService.LeaseKeyInjective` | internal/server/cache_lease.go:119-124 | Two resources share a lease key if and only if they share a primary key. |
| `NegotiatedStore.NegotiatedRoundTripInStore` | internal/server/cache_middleware.go:105-129 | The same through the memory store's two reads, over every history in which both records are spared: not evicted, purged, overwritten or read too late. |
| `NegotiatedStore.SparedIsAnswered` | internal/server/cache_store_memory.go:68-163 | A record stored at any point of a history and spared since is answered while it is servable. |
| `Inflight.SingleFlight` | internal/server/cache_inflight.go:32-65 | Over every interleaving of join and settle, a key has at most one registered call, and it is unsettled. |
| `Inflight.SettledForever` | internal/server/cache_inflight.go:46-65 | A settled call keeps its one outcome through every later operation. |
| `Inflight.JoinValid` | internal/server/cache_inflight.go:32-44 | A join leads exactly when no call is registered, otherwise follows that call and changes nothing. |
| `Inflight.SettleValid` | internal/server/cache_inflight.go:51-65 | Settling fixes the outcome once and removes no registration but its own, so a late settle never removes a newer leader. |
| `Inflight.InflightGroup.JoinCall` | internal/server/cache_inflight.go:32-44 | In place: the group moves as the join function says and hands back an unsettled call of the key. |
| `Inflight.InflightGroup.SettleCall` | internal/server/cache_inflight.go:51-65 | In place: a second settle changes nothing. |
| `Leases.LeaseSafety` | internal/server/cache_store_redis_lease.go:11-115 | Over every order of claim, expiry and release, at most one claim per key is live. |
| `Leases.LiveClaimExcludes` | internal/server/cache_store_redis_lease.go:27-62 | While a claim is live every other claim of the key is told taken and changes nothing. |
| `Leases.LiveUntilReleasedOrExpired` | internal/server/cache_store_redis_lease.go:11-115 | A claim stays live until its own release or its expiry, whatever else happens. |
| `Leases.ReleaseTouchesOnlyItself` | internal/server/cache_store_redis_lease.go:11-25 | A holder whose claim lapsed never removes its successor's. |
| `Leases.LeaseStore.AcquireLease` | internal/server/cache_store_redis_lease.go:27-62 | Taken is answered exactly for a claim Redis refused, acquired exactly for one it granted, and only an acquired claim writes. |
| `Leases.LeaseStore.ReleaseLease` | internal/server/cache_store_redis_lease.go:102-115 | Deletes the key only when it still holds this token. |
| `Recency.FitLaw` | internal/server/cache_store_memory.go:141-160 | Eviction keeps the longest most-recent prefix that fits: only a suffix goes and one record more would not fit. |
| `Recency.FitKeeps` | internal/server/cache_store_memory.go:141-160 | A record survives exactly when it and everything used more recently fit together. |
| `Recency.RecencyIndex.Push` | internal/server/cache_store_memory.go:132-140 | Adds a record in front; list, key index, byte total and per-service usage stay equal to their sums. |
| `Recency.RecencyIndex.Remove` | internal/server/cache_store_memory.go:197-207 | Removes one record from all four structures consistently. |
| `Recency.RecencyIndex.Touch` | internal/server/cache_store_memory.go:84-88 | Moves a record to the front and changes nothing else. |
| `Recency.RecencyIndex.EvictToFit` | internal/server/cache_store_memory.go:141-160 | The eviction loop leaves exactly the fitting prefix and reports the rest in order. |
| `Recency.RecencyIndex.PurgeMatching` | internal/server/cache_store_memory.go:165-183 | Walks the list dropping exactly one service's records under a path prefix. |
| `Recency.RecencyIndex.AddUsage` | internal/server/cache_store_memory.go:212-221 | Keeps the per-service counts equal to the sums over live records. |
| `Recency.RecencyIndex.RemoveUsage` | internal/server/cache_store_memory.go:223-235 | The same on removal, forgetting a service with no records. |
| `MemoryStore.RunKept` | internal/server/cache_store_memory.go:68-235 | No run leaves the store over budget or holding a key twice. |
| `MemoryStore.NewEntryStays` | internal/server/cache_store_memory.go:111-163 | A set never evicts the entry it stored. |
| `MemoryStore.HoldsLastStored` | internal/server/cache_store_memory.go:68-235 | Over every run a key holds the last value set unless it was evicted, purged, oversized or unservable when read: the plain reading of the history. |
| `MemoryStore.StepExpected` | internal/server/cache_store_memory.go:68-235 | What one operation does to any key, including exactly which keys a set evicts. |
| `MemoryStore.ListedByUse` | internal/server/cache_store_memory.go:68-163 | Over every run the list is strictly in order of last use, the last set that stored a key or get that was answered from it, read from the operations and their answers. |
| `MemoryStore.EvictsLeastRecentlyUsed` | internal/server/cache_store_memory.go:141-163 | Every record a set pushes out was last used before every record it leaves. |
| `MemoryStore.DisplacedAre` | internal/server/cache_store_memory.go:141-163 | What a set counts as evicted is exactly what it drops besides its own key. |
| `MemoryStore.FreshAmongCounts` | internal/server/cache_store_memory.go:141-163 | And as fresh, exactly those of an age below their fresh time. |
| `MemoryStore.Store.Get` | internal/server/cache_store_memory.go:68-90 | Answers, moves the record to the front and drops an unservable one, as the list model says; `ListedByUse` says what that order is. |
| `MemoryStore.Store.Set` | internal/server/cache_store_memory.go:92-163 | Replaces, evicts and counts the evicted fresh and stale records exactly; an oversized replacement drops the old entry. |
| `MemoryStore.Store.Purge` | internal/server/cache_store_memory.go:165-183 | Drops exactly the matching records and counts them. |
| `FileStore.HoldsLastStored` | internal/server/cache_store_file.go:101-291 | Over every run with any number of restarts a key holds the last entry stored unless expired when read, evicted, purged or unservable at a restart, and nothing dropped or replaced comes back; or two keys the run used share a file name. |
| `FileStore.ReopenStep` | internal/server/cache_store_file.go:97-139 | Reopening keeps exactly the entries still servable, with their values, and an index that agrees with the files, over any set of keys with different file names. |
| `FileStore.StepExpected` | internal/server/cache_store_file.go:141-291 | What each operation does to any key in use, with index and files in agreement afterwards. |
| `FileStore.ListedByUse` | internal/server/cache_store_file.go:97-249 | Over every run with restarts the index is strictly in order of last use, files found at a restart counting in listing order; or two keys of the run share a file name. |
| `FileStore.EvictsLeastRecentlyUsed` | internal/server/cache_store_file.go:210-249 | Every record a set pushes out was last used before every record it leaves; or two keys share a file name. |
| `FileStore.DisplacedAre` | internal/server/cache_store_file.go:210-249 | What a set counts as evicted is exactly what it drops from the index besides its own key. |
| `FileStore.RecordTimes` | internal/server/cache_store_file.go:252-266 | A record indexed no earlier than its entry was stored counts as fresh exactly while the entry is, and expires when its lifetime from then is over. |
| `FileStore.SetStep` | internal/server/cache_store_file.go:175-249 | A set keeps its own file, deletes exactly the files of the keys that no longer fit, and ends within budget. |
| `FileStore.ExpirySafeIff` | internal/server/cache_store_file.go:252-266 | The store's own expiry never drops an entry the serve gate accepts, if and only if the entry is dated no later than one tick after it was indexed. |
| `FileStore.LookupDropsOnlyUnservable` | internal/server/cache_store_file.go:141-155 | In every run whose clock does not precede the entries it indexes, a lookup throws away only unservable entries; or two keys of the run share a file name. |
| `FileStore.FileCacheStore.constructor` | internal/server/cache_store_file.go:75-139 | Opening a directory yields the reopened state of its files. |
| `FileStore.FileCacheStore.RebuildIndex` | internal/server/cache_store_file.go:101-139 | The rebuild loop deletes what can answer nothing and indexes the rest in listing order. |
| `FileStore.FileCacheStore.Get` | internal/server/cache_store_file.go:141-173 | Answers from the file; drops record and file once expired, and the record when its file is gone. |
| `FileStore.FileCacheStore.Set` | internal/server/cache_store_file.go:175-249 | Writes, indexes, evicts and counts the evicted fresh and stale records; an oversized or dead entry leaves the old one in place. |
| `FileStore.FileCacheStore.Purge` | internal/server/cache_store_file.go:273-291 | Removes exactly the matching records and their files. |
| `Names.MatchesWildcardIff` | internal/server/san_cert_issuance.go:159-191 | A wildcard covers a name exactly when the name is one non-empty label before the wildcard's tail. |
| `Zones.LongestZoneIsLongest` | internal/server/acme/mapping.go:27-49 | The zone found by dropping labels is a longest configured zone enclosing the name, on label boundaries. |
| `Zones.LongestMatch` | internal/server/acme/mapping.go:31-49 | Walking the zone map in any order finds that same zone. |
| `Zones.ProviderFor` | internal/server/acme/mapping.go:31-49 | The zone's provider, or the fallback with no zone. |
| `Zones.HasSolverIff` | internal/server/san_cert_zones.go:300-342 | A client answers for a name if and only if the tightest enclosing zone's provider has one, or no zone encloses the name and there is a default. |
| `Grouping.Group` | internal/server/san_cert_zones.go:172-187 | The grouping loop keeps first-appearance order of keys and input order inside a part. |
| `Grouping.GroupByPermutes` | internal/server/san_cert_zones.go:166-187 | Splitting loses, invents and duplicates nothing. |
| `Grouping.PartOf` | internal/server/san_cert_zones.go:166-187 | Every item is in exactly one part. |
| `OrderSplit.WildcardAnchors` | internal/server/san_cert_zones.go:199-229 | One anchor per wildcard zone, longest zone first. |
| `OrderSplit.SplitByProviderZone` | internal/server/san_cert_zones.go:166-187 | The loops compute the split the lemmas are about. |
| `OrderSplit.SplitPermutes` | internal/server/san_cert_zones.go:166-187 | The partitions together are the input, each identifier as often as it was given. |
| `OrderSplit.SplitIsAccepted` | internal/server/san_cert_zones.go:150-251 | Every partition is an order the issuance checks accept, and unsolvable wildcards are isolated, when wildcards of one zone agree on their provider. |
| `OrderSplit.DisagreementRefused` | internal/server/san_cert_zones.go:231-251 | If two wildcards of one zone have different providers, some partition is refused. |
| `OrderSplit.OneZoneOnePartition` | internal/server/san_cert_zones.go:231-251 | Wildcards of one zone always share a partition. |
| `OrderSplit.TogetherIff` | internal/server/san_cert_zones.go:150-251 | Two identifiers are in one partition if and only if they have one home zone -- a wildcard its own, a concrete name the tightest solvable wildcard zone of its provider that contains it -- or no home and one provider. |
| `OrderSplit.JoinsTightest` | internal/server/san_cert_zones.go:231-251 | A concrete name joins the longest wildcard zone of its own provider that contains it. |
| `OrderSplit.SolvableKeyInjective` | internal/server/san_cert_zones.go:202-229 | A wildcard partition's key determines zone and provider. |
| `OrderSplit.OutsideWildcardZones` | internal/server/san_cert_zones.go:266-294 | Finds the first identifier outside every wildcard zone, and none exactly when there is none. |
| `OrderSplit.OrderProvider` | internal/server/san_cert_zones.go:306-325 | One provider for the order, or refusal exactly when it spans providers. |
| `SolvableOrders.OrdersAccepted` | internal/server/san_cert_issuance.go:47-59 | With real names and zones, every partition of a consistently spelled set is accepted. |
| `SolvableOrders.OrdersAcceptedIff` | internal/server/san_cert_zones.go:166-264 | A set is accepted under every provider configuration if and only if wildcards that normalize to one zone also look up one zone. |
| `SolvableOrders.OrderedTogetherIff` | internal/server/san_cert_zones.go:150-251 | Under every configuration a consistently spelled batch is split no further than that. |
| `SolvableOrders.HostnamesConsistent` | internal/server/san_cert_zones.go:260-264 | Wildcards of hostnames always meet that condition. |
| `SolvableOrders.SpacedWildcardIsInconsistent` | internal/server/acme/mapping.go:105-112 | The failing family of the split function is inhabited: space after the wildcard prefix is trimmed by one normal form and kept by the other. Only an edited state file spells a wildcard so. |
| `DynamicPlan.PlanDynamicIdentifiers` | internal/server/dynamic_wildcard.go:42-61 | Each name maps to itself or to its mapped zone's wildcard unless that is held. |
| `DynamicPlan.PlanDynamicIssuance` | internal/server/dynamic_wildcard.go:21-40 | The planned list is exactly those identifiers, each once, where its first name stood. |
| `DynamicPlan.PlanIdentifierIff` | internal/server/dynamic_wildcard.go:42-87 | A name is ordered as a zone's wildcard if and only if wildcards are preferred, it is concrete, its normal form is one label before the tightest configured zone that encloses it, that wildcard is not held and a DNS-01 client answers for it; otherwise as itself. |
| `DynamicPlan.CollapseCoversIff` | internal/server/dynamic_wildcard.go:63-87 | The wildcard a name collapses into covers it if and only if the text after its first dot is lower case and ends in neither dot nor space. |
| `DynamicPlan.PlanCoversIff` | internal/server/dynamic_wildcard.go:42-87 | A name's own planned identifier covers it if and only if it was not collapsed or has such a tail. |
| `DynamicPlan.ValidatedNamesCovered` | internal/server/domain_source.go:110-145 | Every name a domain source may report is covered by its plan, under every configuration and every set of holds. |
| `DynamicPlan.MixedCaseIsMissed` | internal/server/dynamic_wildcard.go:63-87 | The failing family is inhabited: a mixed-case name under a mapped zone collapses into a wildcard that misses it. |
| `PlanOrder.PlanSortedIff` | internal/server/dynamic_wildcard.go:21-40 | The plan of a sorted list of host names is sorted if and only if every name that is the first to collapse into its wildcard comes after wildcards only, none of them greater. |
| `PlanOrder.RenewalOrderIsSortedIff` | internal/server/domain_renewal.go:292-330 | Each order left by the directory and zone splits is the plan of the names planned into it, and is the sorted list of its identifiers, the one certificate identifiers are documented to be made from, if and only if those names collapse in order. |
| `PlanOrder.OrderIsSublist` | internal/server/domain_renewal.go:325-330 | Neither split reorders: each order holds its identifiers as they stand in the plan. |
| `PlanOrder.DeepNameUnsorts` | internal/server/san_cert_manager.go:1011-1018 | The failing family is inhabited: a deeper name followed by a collapsing one renews, in one directory, as one unsorted order, named unlike its sorted list unless their digests collide; in two directories they are two sorted orders. |
| `PlanOrder.SortedUnique` | internal/server/san_cert_manager.go:674-679 | A set of identifiers has one sorted list. |
| `DeployPlan.AnalyzeDomains` | internal/server/domain_group.go:80-130 | One pass builds each root's group as the batch defines it. |
| `DeployPlan.PlanIssuanceDomains` | internal/server/san_cert_issuance.go:88-129 | The planned list is what the groups contribute, groups in ascending order of their roots; it holds exactly the planned identifiers, and without explicit wildcards it covers every host of the batch. |
| `DeployPlan.RootsUnique` | internal/server/domain_group.go:150-153 | Sorting the groups leaves one list, however the map was walked. |
| `DeployPlan.PlannedOnce` | internal/server/domain_group.go:80-220 | A batch without repetitions is planned without repetitions: no identifier comes from two groups. |
| `DeployPlan.DeployPlanCoversIff` | internal/server/domain_group.go:158-220 | The plan covers the batch if and only if every name hidden below an explicit wildcard has its own wildcard parent asked for or collapsed. |
| `DeployPlan.NoWildcardNoneHidden` | internal/server/domain_group.go:158-220 | A batch with no explicit wildcard is always covered. |
| `DeployPlan.ExplicitWildcardHides` | internal/server/domain_group.go:160-164 | The planner function's failing family is inhabited: given an explicit wildcard it leaves a deeper name out. Deploys refuse such hosts before they reach it. |
| `Quarantine.DomainQuarantine.RecordDomainFailure` | internal/server/domain_quarantine.go:74-89 | Records the failure on its ladder; the domain is held now for the returned time. |
| `Quarantine.DomainQuarantine.RecordDomainRateLimited` | internal/server/domain_quarantine.go:91-112 | Holds through the advertised retry time and its margin, or on the ladder when none is ahead; the domain is held now. |
| `Quarantine.DomainQuarantine.ReleaseDomain` | internal/server/domain_quarantine.go:130-147 | Lifts the hold, keeps the failure count, and reports whether it was holding. |
| `Quarantine.DomainQuarantine.ClearDomain` | internal/server/domain_quarantine.go:149-156 | Forgets hold and history. |
| `Quarantine.FailuresAreStrikes` | internal/server/domain_quarantine.go:74-156 | Over every history the count is the failures since the last clear. |
| `Quarantine.LiftingNeverLowersTheLadder` | internal/server/domain_quarantine.go:130-147 | However often a hold is lifted, the next failure is held on the rung all unforgiven failures have earned, never for less than the rung before, whatever kind of failure either was. |
| `Quarantine.LadderValues` | internal/server/domain_quarantine.go:42-43 | The rungs in minutes, for orders and for probes. |
| `Quarantine.LimitHolds` | internal/server/domain_quarantine.go:91-112 | After any history a rate limit holds exactly through the advertised time and a minute more, or for the earned rung when none is ahead. |
| `Quarantine.LiftEndsHold` | internal/server/domain_quarantine.go:130-156 | Lifting and forgetting end a hold from then on and touch no other name's. |
| `Issuer.BatchSizeFor` | internal/server/domain_issuer.go:305-313 | The configured size, at least one and at most twenty-five. |
| `Issuer.SelectLaw` | internal/server/domain_issuer.go:165-183 | Picking takes up to n wanted requests, and fewer only when no wanted one is left; nothing is lost. |
| `Issuer.SelectsFirst` | internal/server/domain_issuer.go:165-183 | Wanted requests are taken in queue order up to some point, all of them, and none after it; the rest stay in order. |
| `Issuer.NextBatchLaw` | internal/server/domain_issuer.go:235-280 | A batch is issuable, one service's, one provider's and within size; only unissuable requests are dropped; it is empty exactly when nothing is issuable. |
| `Issuer.NextBatchTakesAll` | internal/server/domain_issuer.go:235-280 | The batch starts at the first issuable request, drops only what is before it, and is as large as configured unless nobody left may join it. |
| `Issuer.NextBatchDistinct` | internal/server/domain_issuer.go:239-280 | No name is in both the batch and the queue it leaves. |
| `Issuer.PlanPartitionsRequests` | internal/server/domain_issuer.go:366-424 | Whatever the split, every request of a batch ends in exactly one order or is dropped exactly once. |
| `Issuer.PlannedOrder` | internal/server/domain_issuer.go:397-421 | An order holds exactly the requests planned into its identifiers and no wildcard that was busy. |
| `Issuer.PlannedWildcardsApart` | internal/server/domain_issuer.go:397-421 | Two orders of one plan never share a wildcard. |
| `Issuer.RequeuedLaw` | internal/server/domain_issuer.go:521-528 | Requeueing adds every survivor's name once, behind the queue as it was, and keeps it free of duplicates. |
| `Issuer.DomainIssuer.RequestDomain` | internal/server/domain_issuer.go:132-151 | Appends exactly when the name is neither held, queued nor in flight. |
| `Issuer.DomainIssuer.TakePending` | internal/server/domain_issuer.go:161-183 | Takes the first n issuable requests of a service off the queue and marks exactly them in flight. |
| `Issuer.DomainIssuer.ReleasePending` | internal/server/domain_issuer.go:185-195 | Releases exactly the given names. |
| `Issuer.DomainIssuer.PopBatch` | internal/server/domain_issuer.go:235-280 | The nested loops pop the next batch, keep queue and queued set equal, and mark exactly the batch in flight. |
| `Issuer.DomainIssuer.FinishBatch` | internal/server/domain_issuer.go:293-303 | Releases exactly the batch's names. |
| `Issuer.DomainIssuer.ClaimOrders` | internal/server/domain_issuer.go:394-424 | The locked half of planning yields the planned orders and marks exactly their identifiers. |
| `Issuer.DomainIssuer.ReleaseIdentifiers` | internal/server/domain_issuer.go:426-434 | Releases exactly the order's identifiers. |
| `Issuer.DomainIssuer.Requeue` | internal/server/domain_issuer.go:521-528 | Requeues survivors whose name is not already waiting. |
| `IssuerRuns.StepKeeps` | internal/server/domain_issuer.go:134-434 | Each hold of the lock by any worker, poller or top-up keeps the invariant. |
| `IssuerRuns.RunKeeps` | internal/server/domain_issuer.go:134-434 | In every interleaving the queue repeats no name, the in-flight set is the disjoint union of what live batches, orders and top-ups hold, and no wildcard is in two live orders. |
| `FailureHandling.RateLimitedDomains` | internal/server/domain_failure.go:207-236 | Blames the members named exactly or as a wildcard's base; only when there are none, those registered under a named domain. |
| `FailureHandling.IdentifyFailed` | internal/server/domain_failure.go:23-38 | Blames the names the error lists, else those that fail their probe, else the whole order; never nobody. |
| `FailureHandling.HandleObtainFailure` | internal/server/domain_issuer.go:478-531 | Holds what failed and whoever had its retry, each for at least the rung one more failure earns and nobody else, and queues the rest once more, in place. |
| `FailureHandling.HandleRateLimited` | internal/server/domain_issuer.go:533-583 | Holds the limited members, or the whole order and its names for an account limit, at every time up to the advertised one and nobody else, and resubmits the rest with their retry unspent, in place. |
| `FailureHandling.FailedOrderSettles` | internal/server/domain_issuer.go:489-531 | Whatever others queue meanwhile, each request of a failed order ends held or queued, and no name is queued twice. |
| `FailureHandling.LimitedOrderSettles` | internal/server/domain_issuer.go:542-583 | The same after a rate limit. |
| `FailureHandling.FailureOutcome` | internal/server/domain_issuer.go:489-531 | Exactly who a failed order holds and exactly who goes back, with its retry spent. |
| `FailureHandling.LimitOutcome` | internal/server/domain_issuer.go:542-583 | Exactly who a rate limit holds and exactly who goes back, with its retry unspent. |
| `FailureRuns.RunInv` | internal/server/domain_issuer.go:316-583 | In every history live orders share nothing, are never held, and never overlap the queue. |
| `FailureRuns.HeldOrQueuedOnce` | internal/server/domain_issuer.go:489-583 | With each outcome one step, a failed order's request is held or waits exactly once, and is in no other order. |
| `FailureRuns.TwoStrikesHold` | internal/server/domain_issuer.go:436-531 | Over every history a name takes part in at most two failed orders, rate limits aside, before it is held. |
| `FailureRuns.RejectionsBounded` | internal/server/domain_issuer.go:533-583 | While no hold ends, orders rejected for any reason are no more than the names and mapped wildcards not held at the start. |
| `FailureRuns.RejectionHoldsMore` | internal/server/domain_issuer.go:542-583 | Each rejected order holds at least one identifier that was not held, and no step lifts one. |
| `FailureRuns.QuietMeansHeld` | internal/server/domain_issuer.go:243-291 | When nothing is live, no poll queues and no batch forms, every name is held. |
| `IssuancePlan.ConfigSound` | internal/server/domain_source.go:110-145 | Names a source may report, under any provider configuration, meet what the failure histories assume. |
| `IssuancePlan.PlannedAsIsPlanned` | internal/server/domain_issuer.go:373-384 | The histories plan identifiers as the planner does, a retried request as itself. |
| `IssuancePlan.SplitUsable` | internal/server/domain_issuer.go:386-397 | The real split repeats and loses no identifier, as the histories assume. |
| `Manager.ValidateManagerState` | internal/server/cert_store_archive.go:425-470 | Accepts a state file if and only if both maps are there, no record is null, and the store is valid. |
| `Manager.AdoptValidIff` | internal/server/san_cert_manager.go:704-721 | Adoption with wildcard takeover keeps a valid store valid if and only if no other stored identifier shares its directory and names still mapped to its identifier are covered. |
| `Manager.AdoptMaps` | internal/server/dynamic_wildcard.go:89-115 | What every name maps to after adoption and takeover. |
| `Manager.AdoptTakes` | internal/server/dynamic_wildcard.go:89-122 | After adoption a name maps to the new certificate if and only if it is listed, or is a concrete name one label below a listed wildcard whose service -- registered, else dynamic -- wants certificates from the directory it was issued at. |
| `Manager.RemoveValid` | internal/server/san_cert_dynamic.go:220-236 | Removing a certificate takes it and the names mapped to it, nothing else, and keeps a valid store valid. |
| `Manager.AnsweredIsServed` | internal/server/san_cert_issuance.go:144-157 | In a valid store whatever certificate is found for a name, exactly or by its wildcard parent, is stored and covers it. |
| `Manager.SanDirectories` | internal/server/san_cert_manager.go:1011-1031 | Issued identifiers are safe directory names and share one only when equal. |
| `Manager.RestoredIdentifierCollides` | internal/server/cert_store_archive.go:450-461 | The failing family is inhabited for every digest: a restored or edited record named san_ and an order's digits is valid, and that order's certificate is then not adoptable. |
| `CertManager.SANCertManager.constructor` | internal/server/san_cert_manager.go:197-236 | A new manager's maps are empty and valid. |
| `CertManager.SANCertManager.AdoptCertificateAt` | internal/server/san_cert_manager.go:681-721 | In place: installs the certificate, maps its names and takes over what its wildcards cover. |
| `CertManager.SANCertManager.AdoptWildcardCoverage` | internal/server/dynamic_wildcard.go:89-122 | In place: the nested loops remap exactly the concrete names whose owner accepts the directory. |
| `CertManager.SANCertManager.RemoveCertificate` | internal/server/san_cert_dynamic.go:220-236 | In place: removes the certificate and exactly its mappings. |
| `CertManager.SANCertManager.RegisterDomain` | internal/server/san_cert_manager.go:348-409 | Keeps the store valid; the host is answered by a fitting certificate, mapped to one that lists it, or pending, each exactly when it should be. |
| `CertManager.SatisfiesIff` | internal/server/san_cert_manager.go:366-392 | A certificate satisfies a registration if and only if it has more than a day to go and is from the directory the service wants. |
| `CertManager.SANCertManager.SetDynamicDomains` | internal/server/san_cert_dynamic.go:29-43 | Replaces one service's names and leaves the others'. |
| `CertManager.RunStaysValid` | internal/server/cert_store_archive.go:425-470 | From any valid store, every state reached by issuing, taking over, registering and removing is one the validator accepts, or the history holds a clash of digests or directories. |
| `Renewal.LeftOutOnlyLate` | internal/server/domain_renewal.go:239-284 | A renewal leaves a renewable name out exactly when it is quarantined or unreachable, and only inside the compaction window. |
| `Renewal.DecideIff` | internal/server/domain_renewal.go:239-284 | A certificate is retired if and only if none of its names is still owned and mapped to it; it is renewed now if and only if one of those is neither quarantined nor unreachable and either none of them is or expiry is within two weeks (one covers a registered host) or one week (none does); otherwise it waits. |
| `Renewal.IdentifierStaysMapped` | internal/server/domain_renewal.go:321-364 | Whatever the outcomes, a mapped identifier that was asked for or belongs elsewhere is mapped afterwards. |
| `Renewal.PlannedNameStaysAnswered` | internal/server/domain_renewal.go:294-364 | Whatever the outcomes, a name planned into an identifier that covers it is answered afterwards. |
| `Renewal.RenewedValid` | internal/server/domain_renewal.go:321-364 | Whatever the outcomes, the store stays valid. |
| `Renewal.MarkerUsedOnce` | internal/server/domain_renewal.go:307-341 | Whatever the outcomes, the replaces marker goes only to the recorded directory, with every order there until one carrying it is accepted, and never again. |
| `Renewal.AccountLimitHoldsRest` | internal/server/domain_renewal.go:342-389 | A directory stops exactly at its first account limit, sends nothing after it, and leaves that order's identifiers and all unsent ones on hold. |
| `Renewal.RefusalHolds` | internal/server/domain_renewal.go:556-623 | A refused order always leaves one of its own identifiers on hold. |
| `Renewal.BlamedIff` | internal/server/domain_renewal.go:556-623 | Exactly whom a refused renewal order is held against. |
| `Renewal.OrderTallies` | internal/server/domain_renewal.go:396-434 | One order's effect on holds, on what was sent and accepted, and on whether everything was renewed. |
| `Renewal.HoldsAside` | internal/server/domain_renewal.go:322-364 | Who is on hold never decides which orders are sent or what the store becomes. |
| `Renewal.SubmitOrder` | internal/server/domain_renewal.go:396-434 | One order's effect on the manager, the quarantine and the renewer's tallies, in place: the blamed are held through the advertised time or for one more failure, and nobody else's record changes. |
| `Renewal.SubmitPart` | internal/server/domain_renewal.go:326-358 | A directory's orders in turn; after an account limit none is sent, and that order and all after it are held through the advertised time, in place. |
| `Renewal.RenewOrders` | internal/server/domain_renewal.go:322-364 | All directories in place, with the holds they leave; the old certificate goes only when every order has a successor other than it. |
| `RenewalCoverage.RenewalKeepsCoverage` | internal/server/domain_renewal.go:234-371 | Whatever subset of orders succeeds, every renewable name is served by a stored certificate that covers it, unless it was quarantined or unreachable inside the compaction window or its own plan leaves it behind. |
| `RenewalCoverage.RenewalKeepsIff` | internal/server/domain_renewal.go:294-364 | Exactly which answered names a renewal keeps served whatever the outcomes: those that are planned or another certificate's, or whose wildcard parent is; all of them when the old certificate is reissued as it was. |
| `RenewalCoverage.RenewableKeptIff` | internal/server/domain_renewal.go:294-364 | For a renewable name that is not blocked: if and only if it collapses safely, or its wildcard parent is planned or another certificate's, or the old certificate is reissued. |
| `RenewalCoverage.RetireKeepsIff` | internal/server/domain_renewal.go:436-462 | Retiring keeps an answered name if and only if the certificate still serves and has not expired, or the name has another one. |
| `RenewalCoverage.RenewalKeepsOthers` | internal/server/domain_renewal.go:321-364 | A name another certificate answers for stays served whether the certificate is renewed, deferred or retired. |
| `RenewalCoverage.MixedCaseHostIsLost` | internal/server/domain_renewal.go:294-364 | The failing family is inhabited: a certified mixed-case deploy host under a mapped zone is renewable and served, is planned as a wildcard that misses it, and is served by nothing once that order is adopted. |
| `RenewalRaces.RemovalKeepsIff` | internal/server/domain_renewal.go:321-364 | Whoever adopts and registers between the orders, a name is served after the removal if and only if it, or the wildcard above it, was put on another certificate and not handed back since -- or the history holds a clash of digests. |
| `RenewalRaces.RenewalKeepsAmidOthers` | internal/server/domain_renewal.go:234-371 | In every interleaving with other lock holders, a renewable, unblocked, safely collapsing name is served afterwards unless its identifier was handed back to the old certificate after the renewal took it, or digests clash. |
| `RenewalRaces.UnfinishedKeepsAll` | internal/server/domain_renewal.go:360-364 | While an order is without a successor nothing is removed, and whatever is answered at any point, a name registered meanwhile included, stays served. |
| `RenewalRaces.AloneIsHistory` | internal/server/domain_renewal.go:321-364 | The renewal with nobody else about, under every outcome, is one of those histories. |
| `RenewalRaces.RegisteredMeanwhileIsLost` | internal/server/san_cert_manager.go:349-402 | A host registered while a certificate that lists it is renewed without it is found good, left off pending, and unmapped by the removal. |
| `RenewalRaces.ReissuedMeanwhileIsLost` | internal/server/domain_renewal.go:360-364 | A certificate issued meanwhile for the very list of the old one takes its identifier; the removal discards it and unmaps the name, though the renewed certificate that lists it stays stored. |
| `RenewalCoverage.RenewalKeepsCoveredByWildcard` | internal/server/domain_renewal.go:321-364 | A name answered through a renewed wildcard stays served. |
| `RenewalCoverage.RenewalOrdersAccepted` | internal/server/domain_renewal.go:314-328 | Every order of every directory passes the issuance checks. |
| `RenewalCoverage.PlannedIsAsked` | internal/server/san_cert_directories.go:210-239 | No planned identifier is lost by the directory split and the zone split. |
| `RenewalCoverage.AskedIsPlanned` | internal/server/domain_renewal.go:321-330 | Every identifier of an order was planned, and its owner wants it from the directory the order goes to. |
| `IdleController.WakeBackoffLaw` | internal/server/idle_controller.go:476-481 | The pause doubles from one second to the cap and never shrinks. |
| `IdleController.Controller.AdmitRequest` | internal/server/idle_controller.go:279-303 | Admits, refuses or parks by state. |
| `IdleController.Controller.End` | internal/server/idle_controller.go:305-316 | Returns one slot. |
| `IdleController.Controller.WakeFinished` | internal/server/idle_controller.go:435-474 | A current wake becomes active or sleeping with backoff; a superseded one changes nothing. |
| `IdleController.Controller.TrySleep` | internal/server/idle_controller.go:483-496 | Begins a stop only when active, idle and enabled. |
| `IdleController.Controller.StopFinished` | internal/server/idle_controller.go:518-536 | A current stop becomes sleeping or active again; a superseded one changes nothing. |
| `IdleController.Controller.Reset` | internal/server/idle_controller.go:211-237 | Active in a new generation with the new containers, cancelling a wake in progress. |
| `IdleController.Controller.Reconfigure` | internal/server/idle_controller.go:318-357 | Applies settings; a changed container set supersedes what is running as a redeploy does. |
| `IdleRuns.StepInv` | internal/server/idle_controller.go:211-553 | Every critical section keeps the invariant. |
| `IdleRuns.ReachableInv` | internal/server/idle_controller.go:215-553 | In every reachable state waking or stopping has exactly one live operation of the current generation, active and sleeping none, and a request parked on an open channel implies waking or stopping. |
| `IdleRuns.NoWaiterStranded` | internal/server/idle_controller.go:245-303 | The operation a parked request waits on is live and closes its channel however it ends. |
| `IdleRuns.RetryOnlyAfterTransition` | internal/server/idle_controller.go:245-277 | A parked request that is free to ask again stays free to, through any run, for as long as it is parked there. |
| `IdleRuns.StopsOnlyWhenIdle` | internal/server/idle_controller.go:483-553 | While a stop's generation is current no admitted request is in flight. |
| `IdleRuns.AdmissionLaw` | internal/server/idle_controller.go:282-303 | A request is admitted exactly while the containers are up and no stop has begun; refused, with the failed wake's error, exactly while they are down and its pause lasts; otherwise it waits, having started the one wake. |
| `IdleRuns.StopOutcome` | internal/server/idle_controller.go:517-533 | The current stop leaves the service asleep if it succeeded, and awake with a new idle period if it failed. |
| `IdleRuns.WakeOutcome` | internal/server/idle_controller.go:435-480 | The current wake leaves the service awake exactly when it had no error; an error is kept and holds wakes back for its pause. |
| `IdleRuns.NobodyAdmittedWhileDown` | internal/server/idle_controller.go:282-303 | In every run, once the containers are stopped nobody is admitted until a wake succeeds or they are replaced. |
| `IdleRuns.SleepsExactlyWhenIdle` | internal/server/idle_controller.go:483-492 | A stop begins if and only if the service may sleep, is up with nobody admitted and nothing in progress, and nothing has kept it awake for the idle period. |
| `IdleRuns.PauseLaw` | internal/server/idle_controller.go:194-209 | Pausing only keeps the service from sleeping; resuming lets it again, an idle period later. |
| `IdleRuns.ReconfigureLaw` | internal/server/idle_controller.go:327-362 | Settings alone leave the state as it is; another set of containers is a redeploy. |
| `IdleRuns.SupersededChangesNothing` | internal/server/idle_controller.go:435-553 | Once a wake or stop is superseded, its outcome changes no controller state whenever it comes, after any further run. |
| `IdleRuns.ResetSupersedes` | internal/server/idle_controller.go:215-237 | After a reset nothing running belongs to the current generation. |
| `IdleRuns.ResetCancelsExactlyWakes` | internal/server/idle_controller.go:215-237 | The operation a reset supersedes goes on uncancelled exactly when it is a stop. |
| `IdleRuns.StaleStopOutlivesReset` | internal/server/idle_controller.go:483-553 | A run that ends active with a stop still going on the containers it was deployed over. |
| `ShrinkGuard.DiffDomains` | internal/server/dynamic_domains.go:597-618 | The names added and removed, in order. |
| `ShrinkGuard.DomainManager.EvaluateShrinkHold` | internal/server/dynamic_domains.go:512-537 | Holds an over-threshold poll until the third in a row; anything else clears the count. |
| `ShrinkGuard.DomainManager.ApplyDomains` | internal/server/dynamic_domains.go:424-503 | Applies or holds a poll for one service, ignores unknown ones, and leaves other services alone. |
| `ShrinkGuard.HeldIffUnconfirmed` | internal/server/dynamic_domains.go:512-537 | Over every sequence of polls, a poll is held if and only if the run of polls up to it that would remove more than 30 percent is not a multiple of three long. |
| `ShrinkGuard.MassRemovalConfirmed` | internal/server/dynamic_domains.go:429-537 | More than 30 percent of the applied set goes only when this poll and the two before it were all over the threshold and those two were held. |
| `ShrinkGuard.HeldPollOnlyAdds` | internal/server/dynamic_domains.go:455-466 | A held poll removes no name and adds every new one. |
| `ServiceMap.RequestMap.Set` | internal/server/service_map.go:39-43 | Replaces one service, leaves an index of exactly the services' bindings, and copies TLS options from the services that serve the root. |
| `ServiceMap.RequestMap.Remove` | internal/server/service_map.go:45-49 | Removes one service, leaves an index of exactly the rest, and copies TLS options anew. |
| `ServiceMap.RequestMap.UpdateRequestServiceMap` | internal/server/service_map.go:132-153 | Rebuilding from the services in any order yields such an index, longest prefix first, and the copied TLS options. |
| `ServiceMap.RequestMap.CheckAvailability` | internal/server/service_map.go:65-78 | Names another service holding a wanted binding, and none exactly when there is none. |
| `ServiceMap.RequestMap.ServiceForPath` | internal/server/service_map.go:100-130 | Answers with a longest prefix whose segments lead the path's, among the host's own bindings if it has any, else the wildcard's above it, else the catch-all's; or nothing exactly when none leads it. |
| `ServiceMap.RoutesToLongest` | internal/server/service_map.go:100-153 | Any index of the services answers so. |
| `ServiceMap.HostKeyAnswers` | internal/server/service_map.go:115-130 | A host is answered at itself if some service binds it, else at the wildcard of the tail after its first label if bound, else at the catch-all. |
| `ServiceMap.MatchesIff` | internal/server/service_map.go:106-110 | A prefix matches a path if and only if its segments are the path's first ones. |
| `ServiceMap.OrderIrrelevant` | internal/server/service_map.go:132-153 | Without conflicts the answer does not depend on map iteration or on how the sort breaks ties. |
| `ServiceMap.IndexesAgreeIff` | internal/server/service_map.go:132-153 | Every index of the services answers a request alike if and only if one binding is best for it. |
| `ServiceMap.SyncTLS` | internal/server/service_map.go:165-183 | Copying in place, in any order, gives each service what its root had before any copying. |
| `ServiceMap.SyncedLaw` | internal/server/service_map.go:165-183 | Afterwards a service that does not serve the root has the options its host's root has now, or the defaults if nobody serves it; the others keep theirs; copying again changes nothing. |
| `ServiceMap.SyncOrderIrrelevant` | internal/server/service_map.go:132-183 | Without conflicts the copied options do not depend on map iteration or on how the sort breaks ties. |
| `ServiceMap.AvailableIffNoConflict` | internal/server/service_map.go:65-78 | A deployment keeps the services free of conflicts if and only if the availability check passes. |

## Left out

- Foreign code: the ACME client, DNS providers, TLS and X.509 parsing, the Docker socket, Redis transport, gob, gzip and tar. Orders, containers and Redis commands are steps or parameters; codecs are taken to be inverses.
- Error-text parsing: which names an ACME error lists, and whether it is a rate limit, are inputs of the failure handlers; probes are inputs too.
- Header parsing: requests carry their headers, cookies and Accept-Encoding already parsed; storability decisions and the capturing response writer are not modelled, so the protocol takes any recorded response whose keys were computed as the code computes them.
- The lease breaker appears only as an input that may be open at any time; "exactly one half-open probe" is not claimed, since overlapping callers all pass.
- Content codings: the aliases x-gzip and x-compress and lists of several codings are read as the code reads them, as one unlisted name.
- Unicode: case folding and white space are ASCII.
- The wrap-around of the idle controller's 64-bit generation counter.
- File errors and unreadable files: the file store is modelled for sequential runs with working file operations; concurrent reads outside its lock are not.
- Wall-clock drift: clocks are parameters; where a proof needs one that does not precede what it dates, it says so.
- The handshake path beyond planning and adoption (`GetCertificate`, `provisionCertificate` and its batch guard): it reuses the modelled planner, split and adoption under one more single flight.
- Owner resolution of a wildcard's directory: renewal is proved for every assignment of identifiers to directories.
- The archive reader and writer beyond the state validator.
- Token buckets, the rate limiter, the load balancer, the pause controller, redirects, rewrites, default TLS host name, metrics, logging, CLI and RPC.
- The public suffix list: any function that returns the name or a proper suffix of it at a label boundary.
- CacheKeys.EqualPrimaryKeys: compares requests under one service configuration; the same header or cookie name configured under another configuration is not compared.
- RenewalCoverage.RenewalKeepsCoverage: takes the renewal alone, with no other lock holder between its orders (`RenewalRaces` has them), and excludes renewals in which two orders, or an order and a stored certificate, share a digest; `Manager.AdoptValidIff` says exactly what goes wrong then.
- Other writers of the quarantine between a renewal's orders: the interleavings of `RenewalRaces` are those of the certificate maps.
- FailureRuns.TwoStrikesHold: takes each dispatch and each outcome as one step; between the two locks of a failure handler a poll may enqueue the name afresh.
- FailureRuns.RejectionsBounded: for runs in which no hold expires and none is released by a handshake probe.
