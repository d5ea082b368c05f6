# Coil memory cache and request decisions, modelled in Dafny

This project models two parts of Coil's image-loading core.

The first is the two-tier memory cache. `RealMemoryCache` sits in front of a strong tier and a weak tier. The strong tier owns its entries, keeps them within a size budget and evicts the least recently used. The weak tier keeps entries the strong tier has evicted ("demoted"), with no budget. The facade works like this:

- lookups check the strong tier first, then the weak tier;
- `set` stores an immutable copy of the key and the extras in the strong tier only;
- `remove` always tries both tiers;
- `trimToSize` goes to the strong tier;
- `clear` empties both tiers.

The two tiers are not among the modelled source files. They are small classes over maps here, with only the contracts the facade needs. Their eviction follows Android's `LruCache.trimToSize`: drop the least recently used entry while the total exceeds the target and something is left, and pass each dropped entry to the weak tier.

The second part is the decision logic of `AndroidRequestService`. It decides:

- whether a requested bitmap config must fall back to ARGB_8888, checked on the main thread and again on the worker thread;
- whether RGB_565 stays allowed;
- how scale and the network cache policy are resolved;
- whether a cached value may be handed back for a request.

These are total functions. All platform inputs are explicit parameters:

- `isHardware` and `VALID_TRANSFORMATION_CONFIGS` are sets of configs;
- `HardwareBitmapService`'s two allowances are a function of the size and a boolean;
- `isOnline` is a boolean;
- a view's attached and accelerated states are booleans.

Files:

- `wrappers.dfy` defines `Option`.
- `graphics.dfy` defines bitmap configs, drawables and images.
- `memory_types.dfy` defines cache keys, values and entries.
- `lru.dfy` holds the strong tier's bookkeeping, as values: the recency order, the running size total and how many entries a trim evicts.
- `weak_tier.dfy` and `strong_tier.dfy` hold the tier classes.
- `memory_cache.dfy` holds the facade.
- `scenario.dfy` runs the facade through one put/get sequence and proves which image is demoted.
- `requests.dfy` defines requests, sizes, extras and options.
- `request_service.dfy` holds the decisions.

The strong tier keeps an invariant (`StrongMemoryCache.Valid`): the recency order lists each held key once, `size` is the sum of the held entries' sizes, and `size <= maxSize`. Every operation keeps it. Each mutating method states its whole new state in terms of the old one.

A request's and an option's `bitmapConfig` and `allowRgb565` are read from their extras. When the extras do not set the config, the platform's default config applies (`Platform.defaultBitmapConfig`, an input, which may be HARDWARE or ARGB_8888); an unset RGB_565 flag reads as false. This is what makes `updateOptionsOnWorkerThread`'s rewrite of the extras change the options' config, and why a request that sets no config can still take the hardware branches.

## Model

| member | source | states |
|---|---|---|
| MemoryTypes.ToImmutableMap | coil-base/src/commonMain/kotlin/coil/memory/RealMemoryCache.kt:22-26 | the copy stored for a key's or a value's extras has the same keys and the same values as the caller's map |
| Lru.Without | coil-base/src/commonMain/kotlin/coil/memory/RealMemoryCache.kt:33-38 | taking a key out of the recency order keeps every other key, is a no-op when the key is absent, and keeps the order free of duplicates |
| Lru.WithoutSplice | coil-base/src/commonMain/kotlin/coil/memory/RealMemoryCache.kt:33-38 | taking out a key that occurs once leaves the keys before it and after it in their relative order |
| Lru.Touch | coil-base/src/commonMain/kotlin/coil/memory/RealMemoryCache.kt:17-18 | a used key becomes the most recently used (last); a new key is appended to the order as it was; the order still holds each key once |
| Lru.TouchSplice | coil-base/src/commonMain/kotlin/coil/memory/RealMemoryCache.kt:17-18 | using a held key moves it from its place to the back, and every other key keeps its relative order |
| Lru.TotalSizeAppend | coil-base/src/commonMain/kotlin/coil/memory/RealMemoryCache.kt:27 | inserting an entry adds exactly its size to the running total |
| Lru.TotalSizeWithout | coil-base/src/commonMain/kotlin/coil/memory/RealMemoryCache.kt:35 | removing a key from a duplicate-free order subtracts exactly its size from the total (nothing if absent) |
| Lru.TotalSizeFrame | coil-base/src/commonMain/kotlin/coil/memory/RealMemoryCache.kt:11 | the total depends only on the sizes recorded for the keys in the order |
| Lru.EvictCount | coil-base/src/commonMain/kotlin/coil/memory/RealMemoryCache.kt:40-42 | a trim evicts a prefix of the recency order, least recently used first, after which the rest fits the target or nothing is left |
| Lru.EvictCountMinimal | coil-base/src/commonMain/kotlin/coil/memory/RealMemoryCache.kt:40-42 | a trim evicts no more than needed: before each eviction the total still exceeded the target |
| Lru.EvictFirstOnly | coil-base/src/commonMain/kotlin/coil/memory/RealMemoryCache.kt:29-30 | when the order fits the target only without its first entry, a trim evicts exactly that least recently used entry |
| Lru.UsedKeySurvivesEviction | coil-base/src/commonMain/kotlin/coil/memory/RealMemoryCache.kt:17-30 | with a budget of three unit-size entries, putting a, b and c, using a, then putting d gives the order b, c, a, d, and the trim that follows evicts exactly b |
| WeakTier.WeakMemoryCache.Get | coil-base/src/commonMain/kotlin/coil/memory/RealMemoryCache.kt:18 | hits exactly the recorded keys, returning the recorded image and extras |
| WeakTier.WeakMemoryCache.Keys | coil-base/src/commonMain/kotlin/coil/memory/RealMemoryCache.kt:15 | the tracked keys are exactly the keys a weak lookup hits |
| WeakTier.WeakMemoryCache.Set | coil-base/src/commonMain/kotlin/coil/memory/RealMemoryCache.kt:29-30 | a demotion records the entry under its key, replacing any older record and leaving the rest |
| WeakTier.WeakMemoryCache.Remove | coil-base/src/commonMain/kotlin/coil/memory/RealMemoryCache.kt:36 | returns whether the key was tracked, and drops only that key |
| WeakTier.WeakMemoryCache.Clear | coil-base/src/commonMain/kotlin/coil/memory/RealMemoryCache.kt:46 | afterwards nothing is tracked |
| StrongTier.StrongMemoryCache.Lookup | coil-base/src/commonMain/kotlin/coil/memory/RealMemoryCache.kt:18 | hits exactly the held keys, returning the held image and extras |
| StrongTier.StrongMemoryCache.Keys | coil-base/src/commonMain/kotlin/coil/memory/RealMemoryCache.kt:15 | the held keys are exactly the keys a strong lookup hits |
| StrongTier.StrongMemoryCache.Get | coil-base/src/commonMain/kotlin/coil/memory/RealMemoryCache.kt:18 | returns the held value, and on a hit moves the key to most recently used; entries and size unchanged, invariant kept |
| StrongTier.StrongMemoryCache.Evict | coil-base/src/commonMain/kotlin/coil/memory/RealMemoryCache.kt:29-30 | drops the least recently used entries counted by EvictCount and demotes exactly those into the weak tier; afterwards size fits the target or the tier is empty |
| StrongTier.StrongMemoryCache.Set | coil-base/src/commonMain/kotlin/coil/memory/RealMemoryCache.kt:23-28 | inserts or replaces the entry as most recently used, then evicts to the budget, demoting each evicted entry; imposes `size <= maxSize` |
| StrongTier.StrongMemoryCache.Remove | coil-base/src/commonMain/kotlin/coil/memory/RealMemoryCache.kt:35 | returns whether the key was held, drops it from entries and order, and keeps the size total exact |
| StrongTier.StrongMemoryCache.TrimToSize | coil-base/src/commonMain/kotlin/coil/memory/RealMemoryCache.kt:41 | evicts least recently used entries into the weak tier until size fits the target or the tier is empty; the rest stays as it was |
| StrongTier.StrongMemoryCache.Clear | coil-base/src/commonMain/kotlin/coil/memory/RealMemoryCache.kt:45 | evicts everything, demoting every entry into the weak tier; afterwards the strong tier is empty with size 0 |
| MemoryCache.RealMemoryCache.Size | coil-base/src/commonMain/kotlin/coil/memory/RealMemoryCache.kt:11 | is the sum of the strongly held entries' sizes and within the budget; the weak tier is outside its reads clause |
| MemoryCache.RealMemoryCache.MaxSize | coil-base/src/commonMain/kotlin/coil/memory/RealMemoryCache.kt:13 | is the strong tier's budget, which bounds the total of the strongly held entries |
| MemoryCache.RealMemoryCache.Keys | coil-base/src/commonMain/kotlin/coil/memory/RealMemoryCache.kt:15 | is the union of both tiers' keys, and exactly the set of keys a lookup hits |
| MemoryCache.RealMemoryCache.Peek | coil-base/src/commonMain/kotlin/coil/memory/RealMemoryCache.kt:17-19 | the strong tier's value when it holds the key, otherwise the weak tier's result; absent exactly when both tiers miss |
| MemoryCache.RealMemoryCache.Get | coil-base/src/commonMain/kotlin/coil/memory/RealMemoryCache.kt:17-19 | returns what the waterfall lookup gives; on a strong hit the key becomes the strong tier's most recently used, otherwise the recency order is unchanged; no tier's entries and no key change |
| MemoryCache.RealMemoryCache.Set | coil-base/src/commonMain/kotlin/coil/memory/RealMemoryCache.kt:21-31 | writes the content-equal key and value, sized by the image, into the strong tier; the weak tier gains only entries the strong tier demoted; afterwards a lookup of the key returns the value |
| MemoryCache.RealMemoryCache.Remove | coil-base/src/commonMain/kotlin/coil/memory/RealMemoryCache.kt:33-38 | removes the key from both tiers; true iff either held it; the strong recency order loses only that key; afterwards no lookup hits it and every other entry is kept |
| MemoryCache.RealMemoryCache.TrimToSize | coil-base/src/commonMain/kotlin/coil/memory/RealMemoryCache.kt:40-42 | trims the strong tier to the target; the weak tier changes only by the demoted entries |
| MemoryCache.RealMemoryCache.Clear | coil-base/src/commonMain/kotlin/coil/memory/RealMemoryCache.kt:44-47 | empties both tiers, so size is 0 and there are no keys |
| RequestService.IsConfigValidForHardware | coil-base/src/androidMain/kotlin/coil/request/RequestService.kt:150-172 | true for every software config; for a hardware config, true iff the request allows hardware and the target is not an attached view without hardware acceleration |
| RequestService.IsCacheValueValidForHardware | coil-base/src/androidMain/kotlin/coil/request/RequestService.kt:137-144 | a value that is not a bitmap drawable is valid; otherwise validity is the hardware check on its config; invalid exactly for a hardware bitmap the request or its target cannot take |
| RequestService.IsBitmapConfigValidMainThread | coil-base/src/androidMain/kotlin/coil/request/RequestService.kt:175-185 | true iff the config suits the transformations and, if it is a hardware config, the hardware check passes and the service allows hardware for this size |
| RequestService.IsBitmapConfigValidWorkerThread | coil-base/src/androidMain/kotlin/coil/request/RequestService.kt:188-192 | true for every software config; for a hardware config equal to the service's worker-thread allowance |
| RequestService.ResolveScale | coil-base/src/androidMain/kotlin/coil/request/RequestService.kt:77-84 | FIT when either dimension is undefined, else the request's scale |
| RequestService.ResolveNetworkCachePolicy | coil-base/src/androidMain/kotlin/coil/request/RequestService.kt:86-93 | DISABLED when offline, else the request's policy |
| RequestService.ResolveExtras | coil-base/src/androidMain/kotlin/coil/request/RequestService.kt:95-119 | the resolved config is the request's if the main-thread check passes, else ARGB_8888; RGB_565 allowed iff requested, no transformations and the config is not ALPHA_8; only changed keys are overridden, others kept; no change returns the extras themselves |
| RequestService.MakeOptions | coil-base/src/androidMain/kotlin/coil/request/RequestService.kt:63-75 | options carry the request's own size and policies, with resolved scale, network policy and extras |
| RequestService.UpdateOptionsOnWorkerThread | coil-base/src/androidMain/kotlin/coil/request/RequestService.kt:121-131 | unchanged when the worker-thread check passes; otherwise a copy that differs only in its extras, where the bitmap config key is written as ARGB_8888 |
| RequestService.CacheValidityIgnoresSize | coil-base/src/androidMain/kotlin/coil/request/RequestService.kt:141-143 | cached-value validity does not depend on the image's recorded size |
| RequestService.ResolveExtrasIdempotent | coil-base/src/androidMain/kotlin/coil/request/RequestService.kt:96-118 | with ARGB_8888 a software config valid for transformations, resolving resolved extras again changes nothing |
| RequestService.UpdateOptionsIdempotent | coil-base/src/androidMain/kotlin/coil/request/RequestService.kt:121-131 | with ARGB_8888 a software config, a second worker-thread update changes nothing |
| RequestService.HardwareOnlyWhenAllowed | coil-base/src/androidMain/kotlin/coil/request/RequestService.kt:95-131 | the config finally planned is the requested one or ARGB_8888, and it is a hardware config only if every hardware check passed on both threads; a bitmap decoded with it passes the cached-value check for the same request |
| RequestService.ResolveExtrasWellTyped | coil-base/src/androidMain/kotlin/coil/request/RequestService.kt:112-116 | resolving extras whose two keys hold values of their own types writes only a config under the config key and a flag under the RGB_565 key |
| RequestService.UpdateOptionsWellTyped | coil-base/src/androidMain/kotlin/coil/request/RequestService.kt:123-126 | the worker-thread rewrite keeps the extras well typed |
| Scenario.LeastRecentlyUsedIsDemoted | coil-base/src/commonMain/kotlin/coil/memory/RealMemoryCache.kt:17-31 | on a fresh cache with a budget of three unit-size images, putting a, b and c, getting a, then putting d leaves the strong order c, a, d, demotes b, and a later get of b still returns the value |
| RequestService.HardwareDefaultFallsBack | coil-base/src/androidMain/kotlin/coil/request/RequestService.kt:96-114 | a request that leaves its config to a hardware platform default but forbids hardware gets ARGB_8888 written into its resolved extras |

## Left out

- The Kotlin implementations of `StrongMemoryCache` and `WeakMemoryCache` are not modelled line by line. The Dafny classes `StrongTier.StrongMemoryCache` and `WeakTier.WeakMemoryCache` give them only the behaviour the facade relies on, with the eviction loop of Android's `LruCache.trimToSize`.
- StrongTier.StrongMemoryCache.Set: an entry larger than the whole budget is evicted and demoted at once, because the eviction loop runs until the total fits or the tier is empty. An oversize entry is never kept in the strong tier over budget.
- StrongTier.StrongMemoryCache.Remove and StrongTier.StrongMemoryCache.Set: removing a key, or replacing its value, does not demote the old value into the weak tier. Only eviction demotes.
- WeakTier.WeakMemoryCache.Get: reclamation of weakly held images by the garbage collector is not modelled. A weak entry stays until it is removed or cleared, so a weak lookup never misses because of reclamation, and there is no cleanup of stale references.
- The locks around each tier and all concurrency, including the demotion race, are left out. Every operation is one sequential step.
- The strong tier's budget is fixed at construction. Resizing the budget at runtime is not modelled.
- `value.image.size` is an opaque natural number carried by the image.
- `toImmutableMap` is a content copy. Dafny maps are values, so later changes to a caller's mutable map (aliasing) cannot be expressed.
- Kotlin's `Long` for sizes is an unbounded integer here. Overflow of the running total cannot occur in the model.
- The trim, shutdown and connectivity reactions to system callbacks (`SystemCallbacks`) are not part of this model. `isOnline` is an input.
- `requestDelegate`, `resolveLifecycle` and `errorResult` (lifecycle and view binding, error wrapping) are left out.
- The `context` field of options is left out.
- Kotlin's typed `Extras.Key<T>` cannot store a value of the wrong type. Here extras are one map over a union of value types, so an ill-typed entry can be written down; `Requests.WellTyped` names the well-typed ones, both rewrites keep it, and an ill-typed config or flag reads as unset.
- A request's fallback to the image loader's default extras is modelled only for the bitmap config, as the input `Platform.defaultBitmapConfig`. The RGB_565 flag comes from the request's own extras or reads as false.
- `safeConfig`, `isHardware`, `VALID_TRANSFORMATION_CONFIGS` and the `HardwareBitmapService` internals are platform code. They are inputs: a drawable carries its bitmap's safe config, and the others are fields of `AndroidRequestService`.
