# Happy Eyeballs in Dafny

A model of the core of Java-Happy-Eyeballs, with proofs about it. The library
resolves a host name. It then races TCP connections to the host's addresses,
one race per address family. Each race returns the ready address with the
shortest time from its registration to the selector's wake-up. Every ready
attempt is stamped with that one wake-up reading, so this is the ready
address registered last. The two families' winners are merged by that time,
and the answer is cached. The repository holds three
generations of the same pipeline, and each is modelled on its own:

* **Race** (`melhor_ip.dfy`, class `MelhorIp`). The constructor validates its
  arguments. One channel is registered per address, each tagged with an
  `Amostra` sample (`amostra.dfy`). At the first selector wake-up, every ready
  sample is stamped with the wake-up time and put in a `TreeSet`, and the
  set's first element is returned. The channels are closed in a `finally`
  block.
* **OldRace** (`old_melhor_ip.dfy`, class `MelhorIP`). It is the same race
  with `(address, start)` attachments. It scans for the smallest `fim - inicio`,
  starting from `Long.MAX_VALUE`, and returns the pair (address, duration).
* **EyeballsImpl** (`eyeballs_impl.dfy`), **Eyeballs** (`eyeballs.dfy`) and
  **OldEyeballs** (`old_eyeballs.dfy`) are the three orchestrators. Each
  builds a cache key, looks it up, splits the resolved addresses by family
  (`address.dfy`), runs the two races and merges their results. They differ in:
  * the key: `host:port` (`cache_key.dfy`) or the host alone;
  * the tie-break: IPv4 or IPv6;
  * the error handling: throw, return `null`, or hit a `NullPointerException`;
  * whether the cache write is guarded by a null check. The old orchestrator
    writes unconditionally, but never a `null` address (see below).
* **TtlCache** (`ttl_cache.dfy`) is the generic cache of the `cache`
  package. It is meant to evict an entry lazily when a lookup finds it
  expired. As written, `obtem` compares the stored instant with the expiry
  instead of the age. With epoch clock readings, which are far above the
  expiry, it returns every entry, fresh or stale, and never evicts (see
  "## Findings"). `adiciona` overwrites and `limpa` clears.

Classes whose fields the Java code updates in place are Dafny classes, with
`modifies` and `reads` clauses:
* `Amostra.tempoFim`;
* the channel lists of both race classes;
* the orchestrators' caches;
* the old mutable `CacheItem`;
* the `cache` package's map.

Everything else is datatypes and functions:
* the immutable `cache.CacheItem`;
* the merges;
* `criaAtividade` and `executarTarefa`.

Java `long` subtraction wraps modulo 2^64 (`java_long.dfy`). A sample's
duration, the cache ages and the old scan all use that wrapped subtraction,
and lemmas give exact differences for non-negative clock readings.

Nothing outside the program is modelled; each becomes a parameter:
* **Clock readings.** `inicios` for the registration instants, `fim` for the
  wake-up, `agora` for lookups.
* **The selector's answer.** `prontos` is the list of ready registrations in
  the order the selected-key set yields them. It is empty when `select` timed
  out.
* **Closing the channels.** `fechamentoOk` says whether every
  `finishConnect`/`close` succeeded.
* **The resolver's answer.** `None` stands for `UnknownHostException`.
* **Each family's task outcome.** It is a `Tasks.Desfecho` for the newer
  orchestrators and an `Option<OldRace.Tupla>` for the old one.

Wherever an address or sample can be Java's `null`, the model uses
`Option.None` or a nullable reference.

TCP ports run 1–65535, but the code accepts only
`0 < porta <= Short.MAX_VALUE` (32767, `MelhorIp.java:62-64`), and the model
follows the code (`Race.CheckArgs`).

Two behaviours of the code are proved as they stand:
* **IPv6-only hosts.** In both newer orchestrators, a host with only IPv6
  results yields `null`. The merge keeps the IPv4 slot whenever the IPv4
  sample is `null`; `Merge` states `m == null <==> v4 == null`.
* **The old orchestrator never caches `null`.** A missing IPv4 result makes
  `obterMelhorIP` throw at `melhorIPV4[1]` or `melhorIPV4[0]`
  (`HappyEyeballs.java:178`, `:185`) before the `put`. A race itself never
  yields a `null` address: `MelhorIP.java:112` calls `melhor.getHostAddress()`
  first and throws. So the entry it writes always holds an address.

## Model

| member | source | states |
|---|---|---|
| JavaLong.Wrap | src/br/gov/pbh/prodabel/happyeyeballs/Amostra.java:95 | a long narrowing: the identity on in-range values and a value congruent to its argument modulo 2^64 |
| JavaLong.LongCompare | src/br/gov/pbh/prodabel/happyeyeballs/Amostra.java:107 | `Long.compare`: negative, zero or positive exactly when the first argument is below, equal to or above the second |
| JavaLong.Sub | src/br/gov/pbh/prodabel/happyeyeballs/Amostra.java:95 | Java `long` subtraction: the exact difference when it fits, and otherwise a value congruent to it modulo 2^64 |
| JavaLong.SubOfReadings | src/br/gov/pbh/prodabel/happyeyeballs/Amostra.java:95 | the long difference of two non-negative readings is the exact difference |
| JavaLong.SubWrapsAround | src/br/gov/pbh/prodabel/happyeyeballs/Amostra.java:95 | an out-of-range difference wraps to the other end of the long range |
| JavaLong.SubSubCancels | src/br/gov/pbh/prodabel/happyeyeballs/cache/Cache.java:56 | `a - (a - t) == t` in long arithmetic, for every `a` and `t`, through any wrap-around |
| Address.SplitByFamily | src/br/gov/pbh/prodabel/happyeyeballs/HappyEyeballsImpl.java:113-120 | the loop's two lists are exactly the IPv4 and the IPv6 addresses of the resolved list |
| Address.FamilyIsOrderedSubsequence | src/br/gov/pbh/prodabel/happyEyeballs/HappyEyeballs.java:122-128 | each family list is the family's addresses taken at strictly increasing positions of the input, missing none |
| Address.FamiliesPartition | src/br/gov/pbh/prodabel/happyeyeballs/HappyEyeballs.java:123-129 | every address lands in exactly one list (the multisets add up to the input), and only in its own family's list |
| Address.FamilyMembers | src/br/gov/pbh/prodabel/happyeyeballs/HappyEyeballs.java:123-129 | a family list holds only addresses of the resolved list |
| Address.Family | src/br/gov/pbh/prodabel/happyeyeballs/HappyEyeballsImpl.java:113-120 | a family list is never longer than the resolved list |
| Address.FamilyPositions | src/br/gov/pbh/prodabel/happyEyeballs/HappyEyeballs.java:122-128 | the positions of one family are at most as many as the addresses |
| Selection.FirstMinIndexIsFirstMinimum | src/br/gov/pbh/prodabel/happyEyeballs/MelhorIP.java:101-110 | keeping the candidate unless a strictly smaller value comes finds the least value, and no earlier position holds it |
| Selection.FirstMinIndexStep | src/br/gov/pbh/prodabel/happyEyeballs/MelhorIP.java:106-109 | one more scanned element replaces the candidate exactly when it is strictly smaller |
| Selection.FirstMinimumIsUnique | src/br/gov/pbh/prodabel/happyeyeballs/MelhorIp.java:118-132 | there is only one first minimum, so the two races' selection rules cannot pick different attempts |
| CacheKey.Key | src/br/gov/pbh/prodabel/happyeyeballs/HappyEyeballsImpl.java:136 | the key is the host name, then one ':', then the decimal port, and nothing else |
| CacheKey.Decimal | src/br/gov/pbh/prodabel/happyeyeballs/HappyEyeballsImpl.java:136 | the appended port text is non-empty, holds no ':' and starts with '-' exactly for negative ports |
| CacheKey.KeyLastColon | src/br/gov/pbh/prodabel/happyeyeballs/HappyEyeballsImpl.java:136 | the ':' right after the host name is the last ':' of the key |
| CacheKey.NatDigitsInjective | src/br/gov/pbh/prodabel/happyeyeballs/HappyEyeballs.java:144 | different numbers have different decimal digits |
| CacheKey.DecimalInjective | src/br/gov/pbh/prodabel/happyeyeballs/HappyEyeballs.java:144 | different ports have different decimal forms |
| CacheKey.KeyInjective | src/br/gov/pbh/prodabel/happyeyeballs/HappyEyeballsImpl.java:136 | two (host, port) pairs share a cache key only when both host and port agree |
| CacheKey.KeyOfPort80 | src/br/gov/pbh/prodabel/happyeyeballs/HappyEyeballs.java:144 | the key of host `example` and port 80 is `example:80` |
| Samples.Amostra.constructor | src/br/gov/pbh/prodabel/happyeyeballs/Amostra.java:46-50 | a new sample holds the given address and start time and is unfinished (`tempoFim` 0) |
| Samples.Total | src/br/gov/pbh/prodabel/happyeyeballs/Amostra.java:94-96 | an unfinished attempt (`tempoFim` 0) lasts `Long.MAX_VALUE`; a finished one with non-negative readings lasts exactly `tempoFim - tempoInicio` |
| Samples.Amostra.TempoTotal | src/br/gov/pbh/prodabel/happyeyeballs/Amostra.java:94-96 | `getTempoTotal`: `Long.MAX_VALUE` while unfinished, else the exact elapsed time for non-negative readings |
| Samples.Amostra.Equals | src/br/gov/pbh/prodabel/happyeyeballs/Amostra.java:143-159 | an object equals itself; only a non-null `Amostra` can be equal; a distinct sample with a null address equals nothing |
| Samples.Amostra.SetTempoFim | src/br/gov/pbh/prodabel/happyeyeballs/Amostra.java:76-78 | only `tempoFim` changes, to the given value |
| Samples.Amostra.CompareTo | src/br/gov/pbh/prodabel/happyeyeballs/Amostra.java:106-108 | `compareTo(null)` is 1; otherwise its sign is the order of the two durations, in both directions |
| Samples.FinishedDuration | src/br/gov/pbh/prodabel/happyeyeballs/Amostra.java:94-96 | a finished sample with positive readings lasts exactly `tempoFim - tempoInicio`, below `Long.MAX_VALUE` |
| Samples.FreshSampleIsUnfinished | src/br/gov/pbh/prodabel/happyeyeballs/Amostra.java:94-96 | an unfinished sample has the `Long.MAX_VALUE` duration |
| Samples.UnfinishedLosesToFinished | src/br/gov/pbh/prodabel/happyeyeballs/Amostra.java:94-108 | an unfinished sample compares above every finished one with positive readings |
| Samples.CompareToAntisymmetric | src/br/gov/pbh/prodabel/happyeyeballs/Amostra.java:106-108 | swapping the operands of `compareTo` flips its sign |
| Samples.CompareToTransitive | src/br/gov/pbh/prodabel/happyeyeballs/Amostra.java:106-108 | `compareTo` is transitive, strictly so when either step is strict |
| Samples.CompareToTiesIgnoreAddress | src/br/gov/pbh/prodabel/happyeyeballs/Amostra.java:106-108 | two samples tie exactly when their durations agree, whatever their addresses |
| Samples.CompareToNull | src/br/gov/pbh/prodabel/happyeyeballs/Amostra.java:107 | every sample compares above `null` |
| Samples.EqualsReflexive | src/br/gov/pbh/prodabel/happyeyeballs/Amostra.java:145-146 | a sample equals itself, even with a null address |
| Samples.EqualsRejectsOthers | src/br/gov/pbh/prodabel/happyeyeballs/Amostra.java:147-157 | `equals(null)` and `equals` on an object that is not an `Amostra` are false |
| Samples.EqualsOnDistinctSamples | src/br/gov/pbh/prodabel/happyeyeballs/Amostra.java:147-154 | for distinct objects, `equals` is false under a null address and otherwise means equal address, start and end |
| Race.CheckArgs | src/br/gov/pbh/prodabel/happyeyeballs/MelhorIp.java:59-64 | validation passes exactly for a non-empty list and `0 < porta <= 32767`, and the list check comes first |
| Race.Winner | src/br/gov/pbh/prodabel/happyeyeballs/MelhorIp.java:117-132 | the index is a ready attempt's, with the least stamped duration and no earlier ready attempt tying it |
| Race.WinnerStartedLast | src/br/gov/pbh/prodabel/happyeyeballs/MelhorIp.java:117-132 | with one wake-up reading for all ready attempts and non-negative readings, the winner is the ready attempt registered last (greatest start reading), the first such in ready order |
| Race.Primeiro | src/br/gov/pbh/prodabel/happyeyeballs/MelhorIp.java:131-132 | `TreeSet.first()` is one of the samples added |
| Race.PrimeiroIsLeast | src/br/gov/pbh/prodabel/happyeyeballs/MelhorIp.java:118-132 | `first()` compares at most 0 with every sample added, and every sample added before it compares strictly greater |
| Race.MelhorIp.constructor | src/br/gov/pbh/prodabel/happyeyeballs/MelhorIp.java:65-67 | once validation has passed, the timeout, addresses and port are stored |
| Race.MelhorIp.New | src/br/gov/pbh/prodabel/happyeyeballs/MelhorIp.java:56-68 | an invalid list or port throws the validation error; otherwise a new race with the given fields and no channels |
| Race.MelhorIp.InicializaCanais | src/br/gov/pbh/prodabel/happyeyeballs/MelhorIp.java:95-108 | one distinct, new, unfinished sample per address, in order, started at that address's reading |
| Race.MelhorIp.ChecaCanais | src/br/gov/pbh/prodabel/happyeyeballs/MelhorIp.java:117-133 | a timeout fails; otherwise every ready sample is stamped with `fim`, the others are untouched, and the first fastest ready sample is returned |
| Race.MelhorIp.FechaConexoes | src/br/gov/pbh/prodabel/happyeyeballs/MelhorIp.java:76-87 | on success the channel list is empty; on failure the close error is raised |
| Race.MelhorIp.Call | src/br/gov/pbh/prodabel/happyeyeballs/MelhorIp.java:142-161 | a close failure replaces any result and leaves the registered channels in place, ready ones stamped with `fim`; otherwise timeout, or the first fastest ready address with its start time and `fim`, and no channels are left |
| OldRace.NullOnlyWhenAllSaturated | src/br/gov/pbh/prodabel/happyEyeballs/MelhorIP.java:101-112 | `melhor` stays `null` exactly when every ready duration equals `Long.MAX_VALUE` |
| OldRace.NoNullWithClockReadings | src/br/gov/pbh/prodabel/happyEyeballs/MelhorIP.java:93-112 | with positive start readings not after the wake-up, the scan finds a candidate |
| OldRace.SameWinnerAsNewRace | src/br/gov/pbh/prodabel/happyEyeballs/MelhorIP.java:101-110 | for a non-zero wake-up reading, the old scan and the new `TreeSet` pick the same ready attempt |
| OldRace.MelhorIP.constructor | src/br/gov/pbh/prodabel/happyEyeballs/MelhorIP.java:54-59 | the fields are stored without validation |
| OldRace.MelhorIP.FechaConexoes | src/br/gov/pbh/prodabel/happyEyeballs/MelhorIP.java:66-73 | on success the channel list is empty; on failure the I/O error is raised |
| OldRace.MelhorIP.Registra | src/br/gov/pbh/prodabel/happyEyeballs/MelhorIP.java:88-97 | one registration per address, in order, tagged with that address and its start reading |
| OldRace.MelhorIP.Melhor | src/br/gov/pbh/prodabel/happyEyeballs/MelhorIP.java:101-111 | the scan returns the least `fim - inicio`, and the first ready address with it, or `null` when nothing beats `Long.MAX_VALUE` |
| OldRace.MelhorIP.MelhorIPV | src/br/gov/pbh/prodabel/happyEyeballs/MelhorIP.java:82-126 | an empty list fails; a timeout or close failure raises its error; a `null` winner throws before closing; each failure other than a closed-down timeout leaves the registrations in place; otherwise the pair (winner, duration) is returned and no channels are left |
| EyeballsImpl.CriaAtividade | src/br/gov/pbh/prodabel/happyeyeballs/HappyEyeballsImpl.java:170-178 | an empty list throws `IllegalArgumentException`; otherwise a task exactly when the race's validation passes, else its error |
| EyeballsImpl.ExecutarTarefa | src/br/gov/pbh/prodabel/happyeyeballs/HappyEyeballsImpl.java:187-199 | a null task throws `IllegalArgumentException`; otherwise the task's sample, or its exception wrapped |
| EyeballsImpl.Futuro | src/br/gov/pbh/prodabel/happyeyeballs/HappyEyeballsImpl.java:218-229 | no addresses launch no task; otherwise a task on those addresses and the port exactly when `0 < porta <= 32767`, else the race's invalid-port error |
| EyeballsImpl.Aguarda | src/br/gov/pbh/prodabel/happyeyeballs/HappyEyeballsImpl.java:218-229 | no task gives `null`; a task gives its sample, or its exception wrapped |
| EyeballsImpl.HappyEyeballsImpl.constructor | src/br/gov/pbh/prodabel/happyeyeballs/HappyEyeballsImpl.java:62-74 | the static cache starts empty |
| EyeballsImpl.Merge | src/br/gov/pbh/prodabel/happyeyeballs/HappyEyeballsImpl.java:231-237 | the result is one of the two samples, and `null` exactly when the IPv4 sample is `null` |
| EyeballsImpl.MergePicksFasterTiesToV4 | src/br/gov/pbh/prodabel/happyeyeballs/HappyEyeballsImpl.java:235 | with both samples the faster one wins and a tie goes to IPv4 |
| EyeballsImpl.ObterMelhorIp | src/br/gov/pbh/prodabel/happyeyeballs/HappyEyeballsImpl.java:210-238 | an invalid port fails any launched family; with a valid port the result fails exactly when a launched family's task failed, with IPv6's error first and IPv4's otherwise; a success is `null` exactly when there are no IPv4 addresses and is otherwise a launched family's sample |
| EyeballsImpl.HappyEyeballsImpl.ObterIp | src/br/gov/pbh/prodabel/happyeyeballs/HappyEyeballsImpl.java:135-160 | a hit on `host:port` returns the cached address and changes nothing; a miss propagates resolver and race failures, returns `null` with the cache unchanged, or caches and returns the winner's address, which belongs to the resolved list |
| Eyeballs.CriaAtividade | src/br/gov/pbh/prodabel/happyeyeballs/HappyEyeballs.java:170-182 | a task exactly when the list is non-empty and the race's validation passes; otherwise `null` |
| Eyeballs.ExecutarTarefa | src/br/gov/pbh/prodabel/happyeyeballs/HappyEyeballs.java:191-203 | the task's sample exactly when there is a task and it succeeded; otherwise `null` |
| Eyeballs.Merge | src/br/gov/pbh/prodabel/happyeyeballs/HappyEyeballs.java:226-234 | the result is one of the two samples, and `null` exactly when the IPv4 sample is `null` |
| Eyeballs.MergePicksFasterTiesToV6 | src/br/gov/pbh/prodabel/happyeyeballs/HappyEyeballs.java:227-228 | with both samples the faster one wins and a tie goes to IPv6 |
| Eyeballs.ObterMelhorIp | src/br/gov/pbh/prodabel/happyeyeballs/HappyEyeballs.java:218-235 | never fails; `null` exactly unless there are IPv4 addresses, the port is valid and the IPv4 task succeeded; otherwise one of the launched families' samples |
| Eyeballs.HappyEyeballs.constructor | src/br/gov/pbh/prodabel/happyeyeballs/HappyEyeballs.java:69-75 | stores the connection timeout; the cache starts empty |
| Eyeballs.HappyEyeballs.ObterIp | src/br/gov/pbh/prodabel/happyeyeballs/HappyEyeballs.java:143-159 | a hit on `host:port` returns the cached address and changes nothing; a miss fails only on the resolver, returns `null` with the cache unchanged, or caches and returns the winner's address, which belongs to the resolved list |
| OldEyeballs.CacheItem.constructor | src/br/gov/pbh/prodabel/happyEyeballs/CacheItem.java:29-33 | stores the address and instant as given |
| OldEyeballs.CacheItem.SetEndereco | src/br/gov/pbh/prodabel/happyEyeballs/CacheItem.java:39-41 | changes only the address |
| OldEyeballs.CacheItem.SetTempoAcesso | src/br/gov/pbh/prodabel/happyEyeballs/CacheItem.java:47-49 | changes only the instant |
| OldEyeballs.Vigente | src/br/gov/pbh/prodabel/happyEyeballs/HappyEyeballs.java:109-111 | an entry read at its storage instant is a hit exactly when the expiry is positive |
| OldEyeballs.VigenteIffYoung | src/br/gov/pbh/prodabel/happyEyeballs/HappyEyeballs.java:109-111 | with clock readings that do not run backwards, an entry is a hit exactly while its age is below the expiry |
| OldEyeballs.ObterMelhorIP | src/br/gov/pbh/prodabel/happyEyeballs/HappyEyeballs.java:176-186 | a missing IPv4 result throws `NullPointerException`; otherwise one of the two addresses, and IPv4's when IPv6 has no result |
| OldEyeballs.ObterMelhorIPTiesToV6 | src/br/gov/pbh/prodabel/happyEyeballs/HappyEyeballs.java:178-182 | with both results IPv4 wins only with a strictly smaller time, so a tie goes to IPv6 |
| OldEyeballs.HappyEyeballs.constructor | src/br/gov/pbh/prodabel/happyEyeballs/HappyEyeballs.java:62-67 | stores the expiry and the timeout; the cache starts empty |
| OldEyeballs.HappyEyeballs.SemEntrada | src/br/gov/pbh/prodabel/happyEyeballs/HappyEyeballs.java:114 | the cache without the host's entry and with every other entry kept |
| OldEyeballs.HappyEyeballs.ObterIP | src/br/gov/pbh/prodabel/happyEyeballs/HappyEyeballs.java:102-136 | a live hit on the host name returns its address and changes nothing; otherwise the entry is dropped, and the result is an unknown host, the merge's `NullPointerException`, or the merged address, which is cached in a new item stamped with the insertion reading and belongs to the resolved list |
| TtlCache.GetItemReturnsStored | src/br/gov/pbh/prodabel/happyeyeballs/cache/CacheItem.java:33-46 | `getItem` returns the value the item was built with |
| TtlCache.CacheItem.GetItem | src/br/gov/pbh/prodabel/happyeyeballs/cache/CacheItem.java:44-46 | returns the stored item |
| TtlCache.CacheItem.GetTempoAcesso | src/br/gov/pbh/prodabel/happyeyeballs/cache/CacheItem.java:53-55 | the age: 0 at the storage instant, and the exact elapsed time for non-negative readings |
| TtlCache.AgeAtCreation | src/br/gov/pbh/prodabel/happyeyeballs/cache/CacheItem.java:53-55 | an item read at its storage instant is 0 ms old |
| TtlCache.AgeTracksClock | src/br/gov/pbh/prodabel/happyeyeballs/cache/CacheItem.java:53-55 | `getTempoAcesso` is the time elapsed since storage and grows exactly with the clock |
| TtlCache.Expirou | src/br/gov/pbh/prodabel/happyeyeballs/cache/Cache.java:56-57 | with one clock reading at the storage instant, the test holds exactly when that instant exceeds the expiry |
| TtlCache.ExpirouComparesStoredInstant | src/br/gov/pbh/prodabel/happyeyeballs/cache/Cache.java:55-57 | with one clock reading, `obtem`'s test compares the stored instant, not the age, with the expiry |
| TtlCache.ExpirouIgnoresAge | src/br/gov/pbh/prodabel/happyeyeballs/cache/Cache.java:55-57 | with two ordered readings, the test depends on the stored instant and the gap between the readings only |
| TtlCache.StaleItemPassesExpirou | src/br/gov/pbh/prodabel/happyeyeballs/cache/Cache.java:56-59 | a 999 000 ms old item passes the test for a 300 ms expiry |
| TtlCache.Vigente | src/br/gov/pbh/prodabel/happyeyeballs/cache/Cache.java:56-62 | an item read at its storage instant is valid exactly for a non-negative expiry |
| TtlCache.VigenteIffYoung | src/br/gov/pbh/prodabel/happyeyeballs/cache/Cache.java:56-62 | the intended test: valid exactly while the time since storage is within the expiry |
| TtlCache.VigenteExpiresForGood | src/br/gov/pbh/prodabel/happyeyeballs/cache/Cache.java:56-62 | a fresh item is valid for any non-negative expiry, and an expired one stays expired |
| TtlCache.StaleItemIsNotVigente | src/br/gov/pbh/prodabel/happyeyeballs/cache/Cache.java:56-62 | the intended test rejects the stale item that `obtem` returns |
| TtlCache.Cache.constructor | src/br/gov/pbh/prodabel/happyeyeballs/cache/Cache.java:35-38 | stores the expiry, which is final and is what `getTempoExpiracao` returns; the map starts empty |
| TtlCache.Cache.GetTempoExpiracao | src/br/gov/pbh/prodabel/happyeyeballs/cache/Cache.java:92-94 | returns the expiry given to the constructor |
| TtlCache.Cache.Obtem | src/br/gov/pbh/prodabel/happyeyeballs/cache/Cache.java:49-65 | an absent name throws and changes nothing; a present one is returned unchanged when the test holds, else removed (and only it) before throwing |
| TtlCache.Cache.ObtemVigente | src/br/gov/pbh/prodabel/happyeyeballs/cache/Cache.java:49-65 | the intended lookup: a present item is returned while valid, else removed before throwing |
| TtlCache.Cache.Adiciona | src/br/gov/pbh/prodabel/happyeyeballs/cache/Cache.java:74-76 | the name maps to the new item whether or not it was present; every other entry is kept |
| TtlCache.Cache.Limpa | src/br/gov/pbh/prodabel/happyeyeballs/cache/Cache.java:81-85 | from any state the map ends empty, so a second `limpa` changes nothing |

## Left out

- Sockets and the selector (`Selector.open`, `connect`, `register`, `select`, `finishConnect`, `close`) are replaced by start readings, the ready list, the wake-up reading and a close-succeeded flag.
- The thread pools and futures are not modelled; each family's outcome is an input, and the two tasks run one after the other.
- DNS (`InetAddress.getAllByName`) is an input: a list of addresses, or the `UnknownHostException`.
- The Ehcache configuration and `CacheManager` setup are not modelled; each newer orchestrator's cache is a Dafny `map`.
- Any expiry configured for the Ehcache caches in `cache.xml` is not modelled, so a hit in either newer orchestrator's cache never expires.
- A `null` host name is excluded by the type `string`. The source throws a `NullPointerException` for it: the newer orchestrators from `new StringBuffer(null)`, the old one from `containsKey(null)`.
- Singletons, `MUTEX` locking, `terminarPoolThread` and `main` are process plumbing and are left out, as is all concurrency.
- Logging, `System.out` printing, `Mensagens`, `Amostra.toString` and `Amostra.hashCode` are left out. `hashCode` mixes in an identity hash.
- `src/br/gov/pbh/prodabel/happyeyeballs/CacheItem.java` is not part of this model; no modelled code uses it.
- Race.MelhorIp.Call: an `IOException` while opening or registering a channel ("Erro ao verificar os IPs") is not modelled; registration always succeeds.
- OldRace.MelhorIP.MelhorIPV: an `IOException` while opening or registering a channel is not modelled either.
- OldRace.MelhorIP.MelhorIPV: the timeout `IOException` and a failed close are separate error values, though Java throws both as `IOException`.
- EyeballsImpl.HappyEyeballsImpl.ObterIp: each task outcome is an input, required only to hold an address of its own family (`Tasks.Plausible`). It is not tied to `Race.MelhorIp.Call`.
- Eyeballs.HappyEyeballs.ObterIp: the same as `EyeballsImpl.HappyEyeballsImpl.ObterIp`.
- OldEyeballs.HappyEyeballs.ObterIP: each race result is an input, required only to hold an address of its own family. It is not tied to `OldRace.MelhorIP.MelhorIPV`.

## Findings

| source | as written | input that shows it | evidently intended | confidence | as-written member | corrected member |
|---|---|---|---|---|---|---|
| src/br/gov/pbh/prodabel/happyeyeballs/cache/Cache.java:56-59 | the test is `now - getTempoAcesso() > tempoExpiracao`, and the item is returned when it holds. `getTempoAcesso()` is already the age, so the test compares the storage instant with the expiry, and a hit means the test is true | an item stored at 1000 with a 300 ms expiry, looked up at 1 000 000: it is 999 000 ms old and is still returned | return the item while its age is within the expiry, and evict it otherwise | high, not executed | TtlCache.Cache.Obtem (TtlCache.StaleItemPassesExpirou, TtlCache.ExpirouComparesStoredInstant) | TtlCache.Cache.ObtemVigente (TtlCache.VigenteIffYoung, TtlCache.StaleItemIsNotVigente) |
