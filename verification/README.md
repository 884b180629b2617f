# Sidekiq metrics aggregator, modelled in Dafny

This project models the metric-collection core of the Mackerel Sidekiq
plugin. The plugin reads Sidekiq's Redis keys and turns them into a flat
map from metric name to value, called the snapshot below:

- the five statistics `busy`, `enqueued`, `schedule`, `retry` and `dead`;
- the two cumulative counters `processed` and `failed`;
- one `QueueLatency.<queue>` entry per queue whose latency could be computed.

Every Redis key is read under the configured namespace. `addNamespace`
prefixes `namespace:` when the namespace is non-empty.

## How the model is built

- **Redis** (`redis.dfy`): Redis is an immutable `Store` with five maps, one
  per value kind: strings, hashes, sets, lists and sorted-set cardinalities.
  Each reader (`Get`, `HGet`, `ZCard`, `LLen`, `SMembers`, `LRangeLast`)
  gives the value that the corresponding helper of the plugin returns. A
  missing key reads as 0 or as an empty collection. The plugin swallows
  every other Redis error, so an error gives the same result as a missing
  key, and the model has no separate error channel.
- **Oracles**: the plugin calls three things the model cannot see:
  - `strconv.ParseUint`;
  - `json.Unmarshal` into a `map[string]interface{}`;
  - the wall clock.

  These three are the fields of `Runtime`. The decoded job is a map from
  string to `JsonValue`. A decode error is `None`.
- **uint64**: `busy` and `enqueued` are sums of unsigned 64-bit values that
  wrap around. `Counters.Inject` folds `(acc + e) mod 2^64` exactly as the
  `inject` loop does, including the ten zero entries the plugin
  pre-allocates before appending.
- **The panic**: when a job's `enqueued_at` is present but is not a JSON
  number, the plugin's type assertion to `float64` panics. The model gives
  that queue the outcome `Panic`, and `FetchMetrics` returns `Failure(q)`
  for the first such queue. Otherwise `FetchMetrics` returns `Success` of
  the merged map. The Go error result is always nil.
- **Namespacing** (`namespacing.dfy`): a theorem the plugin's design relies
  on. Prefix every key of a store with a namespace and read the store with
  that namespace: the snapshot is the same as reading the original store
  with the empty namespace.
- **Scenarios** (`scenarios.dfy`): small concrete stores.
  - Busy counts 3 and 5 give `busy = 8`.
  - A job enqueued 42 seconds earlier gives a latency of 42.
  - An empty queue reports latency 0.
  - An undecodable entry leaves its queue out of the snapshot.

## Model

| member | source | states |
|---|---|---|
| Keys.AddNamespace | mackerel-plugin-sidekiq/lib/sidekiq.go:104-109 | The model of `addNamespace`. It has no contract of its own; `Keys.AddNamespaceShape`, `Keys.AddNamespaceInjective` and `Keys.QueueKeyLayout` specify it. |
| Keys.AddNamespaceShape | mackerel-plugin-sidekiq/lib/sidekiq.go:104-109 | The key comes back unchanged exactly when the namespace is empty. Otherwise the result is the namespace, a colon, then the key, and the key is always a suffix of the result. |
| Keys.AddNamespaceInjective | mackerel-plugin-sidekiq/lib/sidekiq.go:104-109 | Under one namespace, two keys that are namespaced to the same Redis key are equal. |
| Keys.QueueKeyLayout | mackerel-plugin-sidekiq/lib/sidekiq.go:146-148 | Appending a queue name to the namespaced `queue:` prefix gives the namespaced key `queue:<name>`. That is `<ns>:queue:<name>`, or `queue:<name>` without a namespace. |
| Keys.Join | mackerel-plugin-sidekiq/lib/sidekiq.go:198-200 | Joining no names gives the empty string. One name joins to itself, two names join around one separator, and the first name is always a prefix. |
| Keys.MetricName | mackerel-plugin-sidekiq/lib/sidekiq.go:198-200 | A dotted metric name of two parts is the first part, a dot, then the second part. |
| Redis.Get | mackerel-plugin-sidekiq/lib/sidekiq.go:57-65 | A missing string key reads as 0. A present key reads as the parsed unsigned value of its string. |
| Redis.ZCard | mackerel-plugin-sidekiq/lib/sidekiq.go:67-74 | A missing sorted set has cardinality 0. A present one has its stored cardinality. |
| Redis.SMembers | mackerel-plugin-sidekiq/lib/sidekiq.go:76-83 | A missing set reads as the empty list. A present one reads as its members. |
| Redis.HGet | mackerel-plugin-sidekiq/lib/sidekiq.go:85-93 | A missing hash or field reads as 0. A present field reads as its parsed unsigned value. |
| Redis.LLen | mackerel-plugin-sidekiq/lib/sidekiq.go:95-102 | A missing list has length 0. A present one has the length of its stored sequence. |
| Redis.LRangeLast | mackerel-plugin-sidekiq/lib/sidekiq.go:210 | `LRANGE key -1 -1` gives at most one element. It is empty exactly when the list is missing or empty, and otherwise it holds the list's last element. |
| Redis.EmptyStoreReadsZero | mackerel-plugin-sidekiq/lib/sidekiq.go:57-102 | Every reader of an empty Redis gives 0 or the empty collection. |
| Redis.NamespacedMap | mackerel-plugin-sidekiq/lib/sidekiq.go:104-109 | Re-keying a map by the namespace keeps every value under its namespaced key and adds no other key. |
| Redis.NamespacedGet | mackerel-plugin-sidekiq/lib/sidekiq.go:57-65 | Reading a namespaced key from a namespaced store gives what the plain key gives in the original store. |
| Redis.NamespacedHGet | mackerel-plugin-sidekiq/lib/sidekiq.go:85-93 | The same for hash fields. |
| Redis.NamespacedSMembers | mackerel-plugin-sidekiq/lib/sidekiq.go:76-83 | The same for set members. |
| Redis.NamespacedListReads | mackerel-plugin-sidekiq/lib/sidekiq.go:95-102 | The same for list length and the last list element. |
| Redis.NamespacedZCard | mackerel-plugin-sidekiq/lib/sidekiq.go:67-74 | The same for sorted-set cardinality. |
| Counters.Inject | mackerel-plugin-sidekiq/lib/sidekiq.go:121-127 | The model of `inject`: a left fold that adds each element with 64-bit wrap-around. It has no contract of its own; `Counters.InjectIsWrappedSum` and `Counters.InjectExact` specify it. |
| Counters.InjectIsWrappedSum | mackerel-plugin-sidekiq/lib/sidekiq.go:121-127 | The `inject` fold is the base plus the sum of the slice, taken modulo 2^64. |
| Counters.InjectExact | mackerel-plugin-sidekiq/lib/sidekiq.go:121-127 | When the true total fits in 64 bits, `inject` gives the exact sum. |
| Counters.SumAppend | mackerel-plugin-sidekiq/lib/sidekiq.go:121-127 | The sum of two concatenated slices is the sum of their sums. |
| Counters.SumZeros | mackerel-plugin-sidekiq/lib/sidekiq.go:132 | A slice created zero-filled sums to 0. |
| Counters.PaddedInject | mackerel-plugin-sidekiq/lib/sidekiq.go:132-138 | The ten pre-allocated zero slots do not change the wrapped total of the appended values. |
| Sidekiq.GetProcessed | mackerel-plugin-sidekiq/lib/sidekiq.go:111-114 | The model of `getProcessed`. It has no contract of its own: it reads `stat:processed` through `Redis.Get`, whose contract gives 0 when the key is missing. `Sidekiq.FetchMetricsCounters` and `Namespacing.CountersAgree` specify its place in the snapshot. |
| Sidekiq.GetFailed | mackerel-plugin-sidekiq/lib/sidekiq.go:116-119 | The model of `getFailed`, the same as `Sidekiq.GetProcessed` for `stat:failed`. |
| Sidekiq.GetBusy | mackerel-plugin-sidekiq/lib/sidekiq.go:129-139 | The model of `getBusy`. It has no contract of its own; `Sidekiq.GetBusyIsTotal` specifies it. |
| Sidekiq.BusyFields | mackerel-plugin-sidekiq/lib/sidekiq.go:133-136 | One value per process, in set order. Each is the `busy` field of the hash at that process's namespaced identifier. |
| Sidekiq.BusyFieldsSum | mackerel-plugin-sidekiq/lib/sidekiq.go:133-136 | The appended busy values sum to the recursive per-process total. |
| Sidekiq.GetBusyIsTotal | mackerel-plugin-sidekiq/lib/sidekiq.go:129-139 | `busy` is the total of all processes' busy fields modulo 2^64. It is exactly that total when the total fits, and 0 when there are no processes. |
| Sidekiq.GetEnqueued | mackerel-plugin-sidekiq/lib/sidekiq.go:141-152 | The model of `getEnqueued`. It has no contract of its own; `Sidekiq.GetEnqueuedIsTotal` specifies it. |
| Sidekiq.GetSchedule | mackerel-plugin-sidekiq/lib/sidekiq.go:154-157 | The model of `getSchedule`: the cardinality of the namespaced `schedule` sorted set through `Redis.ZCard`, which gives 0 when it is missing. It has no contract of its own; `Sidekiq.FetchStatValue` and `Sidekiq.EmptySnapshot` place it in the snapshot. |
| Sidekiq.GetRetry | mackerel-plugin-sidekiq/lib/sidekiq.go:159-162 | The model of `getRetry`, the same as `Sidekiq.GetSchedule` for `retry`. |
| Sidekiq.GetDead | mackerel-plugin-sidekiq/lib/sidekiq.go:164-167 | The model of `getDead`, the same as `Sidekiq.GetSchedule` for `dead`. |
| Sidekiq.QueueLengths | mackerel-plugin-sidekiq/lib/sidekiq.go:146-149 | One value per queue, in set order. Each is the length of the list at `<ns>:queue:<name>`. |
| Sidekiq.QueueLengthsSum | mackerel-plugin-sidekiq/lib/sidekiq.go:146-149 | The appended queue lengths sum to the recursive total over the queues' namespaced list keys. |
| Sidekiq.GetEnqueuedIsTotal | mackerel-plugin-sidekiq/lib/sidekiq.go:141-152 | `enqueued` is the total length of all queue lists modulo 2^64. It is exactly that total when the total fits, and 0 when there are no queues. |
| Sidekiq.ParseStatNames | mackerel-plugin-sidekiq/lib/sidekiq.go:181-192 | A field selects a statistic exactly when it is one of the five names. It selects a given statistic exactly when it is that statistic's name. |
| Sidekiq.GetStats | mackerel-plugin-sidekiq/lib/sidekiq.go:178-196 | The model of `getStats`, a fold over the field list. It has no contract of its own; `Sidekiq.StatsLoopSpec`, `Sidekiq.GetStatsKeys` and `Sidekiq.GetStatsValues` specify it. |
| Sidekiq.GetProcessedFailed | mackerel-plugin-sidekiq/lib/sidekiq.go:169-176 | The model of `getProcessedFailed`: a map holding exactly `processed` and `failed`. It has no contract of its own; `Sidekiq.FetchMetricsCounters` specifies its entries. |
| Sidekiq.StatsLoopSpec | mackerel-plugin-sidekiq/lib/sidekiq.go:178-196 | Over any field list, the loop adds exactly the recognised fields, each bound to its statistic's value. It leaves earlier entries as they were. |
| Sidekiq.GetStatsKeys | mackerel-plugin-sidekiq/lib/sidekiq.go:178-196 | `getStats` has an entry for a name exactly when the name is among the requested fields and is one of the five statistics. Unknown fields such as `latency` are ignored. |
| Sidekiq.GetStatsValues | mackerel-plugin-sidekiq/lib/sidekiq.go:178-196 | Each recognised field is bound to the count its statistic reads from Redis. |
| Sidekiq.LatencyKey | mackerel-plugin-sidekiq/lib/sidekiq.go:216 | A queue's latency metric is named `QueueLatency.<queue>`. |
| Sidekiq.LatencyKeyInjective | mackerel-plugin-sidekiq/lib/sidekiq.go:216 | Two distinct queues never share a latency metric name. |
| Sidekiq.LatencyKeyNotFixed | mackerel-plugin-sidekiq/lib/sidekiq.go:242-257 | No latency metric name collides with any of the seven fixed metric names, so the merge cannot overwrite them. |
| Sidekiq.LatencyOf | mackerel-plugin-sidekiq/lib/sidekiq.go:209-234 | The model of one iteration of the queue loop in `getQueueLatency`: emit a latency, skip the queue, or panic. It has no contract of its own; `Sidekiq.LatencyOfCases` specifies it. |
| Sidekiq.LatencyLoop | mackerel-plugin-sidekiq/lib/sidekiq.go:209-235 | The model of the loop over the queues. It has no contract of its own; `Sidekiq.LatencyLoopFailure` and `Sidekiq.LatencyLoopSuccess` specify it. |
| Sidekiq.GetQueueLatency | mackerel-plugin-sidekiq/lib/sidekiq.go:202-238 | The model of `getQueueLatency`. It has no contract of its own; `Sidekiq.GetQueueLatencySpec` specifies it. |
| Sidekiq.LatencyOfCases | mackerel-plugin-sidekiq/lib/sidekiq.go:209-234 | A queue's outcome follows from its list. An empty or missing list gives latency 0. An oldest entry that does not decode skips the queue. If `enqueued_at` is a number, the latency is now minus that number. If it is absent, the latency is 0. If it is any other value, the queue panics. |
| Sidekiq.LatencyLoopFailure | mackerel-plugin-sidekiq/lib/sidekiq.go:209-235 | The queue loop fails exactly when some queue panics, and then it names the first panicking queue. |
| Sidekiq.LatencyLoopSuccess | mackerel-plugin-sidekiq/lib/sidekiq.go:209-235 | Without a panic, the loop adds exactly the latency keys of the emitting queues, with their latencies, and keeps the other entries. |
| Sidekiq.GetQueueLatencySpec | mackerel-plugin-sidekiq/lib/sidekiq.go:202-238 | `getQueueLatency` fails exactly when a queue panics. On success its keys are exactly the latency names of the emitting queues, and each holds that queue's latency in seconds. |
| Sidekiq.FetchStatsKeys | mackerel-plugin-sidekiq/lib/sidekiq.go:242-243 | The fixed field list yields exactly the five statistics. `latency` adds nothing. |
| Sidekiq.FetchStatValue | mackerel-plugin-sidekiq/lib/sidekiq.go:242-243 | For each statistic, the fixed field list yields its name bound to its value. |
| Sidekiq.Merge | mackerel-plugin-sidekiq/lib/sidekiq.go:248-257 | The model of the merging closure: later maps overwrite earlier ones. It has no contract of its own; `Sidekiq.MergeThree` specifies it. |
| Sidekiq.MergeThree | mackerel-plugin-sidekiq/lib/sidekiq.go:248-257 | Merging three maps in order is their right-biased union: later maps win. |
| Sidekiq.FixedNamesDisjoint | mackerel-plugin-sidekiq/lib/sidekiq.go:242-257 | The emitted latency names and the seven fixed names are disjoint. |
| Sidekiq.DisjointParts | mackerel-plugin-sidekiq/lib/sidekiq.go:248-257 | When the three parts have disjoint key sets, every entry of the union comes unchanged from its own part. |
| Sidekiq.FetchMetrics | mackerel-plugin-sidekiq/lib/sidekiq.go:240-260 | The model of `FetchMetrics`. It has no contract of its own; `Sidekiq.FetchMetricsFailure`, `Sidekiq.FetchMetricsSnapshot`, `Sidekiq.EmptySnapshot` and `Namespacing.NamespaceTransparent` specify it. |
| Sidekiq.FetchMetricsFailure | mackerel-plugin-sidekiq/lib/sidekiq.go:240-260 | The snapshot fails exactly when some queue panics. The failure names the first panicking queue in set order. |
| Sidekiq.FetchMetricsUnion | mackerel-plugin-sidekiq/lib/sidekiq.go:240-260 | Without a panic, the snapshot is the union of the statistics, the counters and the latencies. |
| Sidekiq.FetchMetricsCounters | mackerel-plugin-sidekiq/lib/sidekiq.go:169-176 | Without a panic, the snapshot's `processed` and `failed` hold the two namespaced `stat:` counters. |
| Sidekiq.FetchMetricsStats | mackerel-plugin-sidekiq/lib/sidekiq.go:240-260 | Without a panic, the snapshot holds all five statistics, each with its value. |
| Sidekiq.FetchMetricsSnapshot | mackerel-plugin-sidekiq/lib/sidekiq.go:240-260 | Without a panic, the snapshot's keys are exactly the seven fixed names plus the latency names of the emitting queues, and each latency entry holds its queue's value. |
| Sidekiq.EmptySnapshot | mackerel-plugin-sidekiq/lib/sidekiq.go:240-260 | An empty Redis yields all seven fixed metrics at 0 and no latency entries, whatever the namespace. |
| Sidekiq.MetricKeyPrefix | mackerel-plugin-sidekiq/lib/sidekiq.go:262-268 | The metric key prefix is never empty. It is the configured prefix, or `sidekiq` when none is configured. |
| Sidekiq.MetricKeyPrefixStable | mackerel-plugin-sidekiq/lib/sidekiq.go:262-268 | Reporting the prefix and configuring it again gives the same prefix: the default is applied once, and a reported prefix is a fixed point. |
| Namespacing.BusyFieldsAgree | mackerel-plugin-sidekiq/lib/sidekiq.go:133-136 | The busy values read under a namespace from a namespaced store equal those read without one. |
| Namespacing.QueueLengthsAgree | mackerel-plugin-sidekiq/lib/sidekiq.go:146-149 | The same for the queue lengths. |
| Namespacing.StatValuesAgree | mackerel-plugin-sidekiq/lib/sidekiq.go:129-167 | The same for every statistic. |
| Namespacing.GetStatsAgree | mackerel-plugin-sidekiq/lib/sidekiq.go:178-196 | Two plugins whose statistics agree produce the same `getStats` map. |
| Namespacing.LatencyLoopAgree | mackerel-plugin-sidekiq/lib/sidekiq.go:209-235 | Two plugins whose per-queue outcomes agree run the latency loop to the same result. |
| Namespacing.LatencyOfTail | mackerel-plugin-sidekiq/lib/sidekiq.go:208-234 | A queue's latency outcome depends on the plugin only through the tail of that queue's list: two plugins that agree on the tail agree on the outcome. |
| Namespacing.QueueTailAgrees | mackerel-plugin-sidekiq/lib/sidekiq.go:208-210 | The tail of a queue's list read under a namespace from the namespaced store equals the tail read without one. |
| Namespacing.LatencyAgrees | mackerel-plugin-sidekiq/lib/sidekiq.go:208-234 | A queue's latency outcome does not change under namespacing. |
| Namespacing.CountersAgree | mackerel-plugin-sidekiq/lib/sidekiq.go:111-119 | `processed` and `failed` do not change under namespacing. |
| Namespacing.NamespaceTransparent | mackerel-plugin-sidekiq/lib/sidekiq.go:240-260 | Namespacing every key of a store and reading it with that namespace gives exactly the snapshot the original store gives without a namespace. |
| Scenarios.TwoBusyProcesses | mackerel-plugin-sidekiq/lib/sidekiq.go:129-139 | Two processes whose busy fields parse as 3 and 5 give `busy = 8`. |
| Scenarios.DefaultQueueLatency | mackerel-plugin-sidekiq/lib/sidekiq.go:227-234 | A realistic job payload whose `enqueued_at` is 42 seconds before the clock reading, found at the tail of the list behind a newer job, gives latency 42. |
| Scenarios.LowQueueLatency | mackerel-plugin-sidekiq/lib/sidekiq.go:215-217 | An empty queue gives latency 0. |
| Scenarios.BadQueueSkipped | mackerel-plugin-sidekiq/lib/sidekiq.go:222-226 | A queue whose oldest entry is truncated JSON, which the decoder rejects, is skipped. |
| Scenarios.LatencyScenario | mackerel-plugin-sidekiq/lib/sidekiq.go:202-260 | In a namespaced store with queues `bad`, `default` and `low`, the snapshot holds `QueueLatency.default = 42` and `QueueLatency.low = 0`. It has no `QueueLatency.bad` entry, and the snapshot is still produced. |

## Left out

- `Do` (sidekiq.go:271-296): it parses command-line flags, builds the
  Redis client and hands the plugin to the Mackerel helper. That is I/O and
  configuration plumbing with no logic to prove.
- `graphdef` and `GraphDefinition` (sidekiq.go:23-55): these are static
  display metadata for the Mackerel UI and are not used to compute metrics.
- The conntrack plugin (`mackerel-plugin-conntrack/main.go`) is not part of
  this model.
- `strconv.ParseUint` is an oracle. A non-numeric or out-of-range value
  maps to whatever the oracle says; in Go that is 0 or the clamped maximum.
  Its parsing rules are not modelled.
- `json.Unmarshal` is an oracle that returns `None` on a decode error. The
  literal `null` decodes into a nil map, which is `Some` of an empty map
  here and so gives latency 0.
- Sidekiq.LatencyOfCases: the clock is a single `now` per snapshot. The
  plugin reads `time.Now()` once per decoded queue, so two queues can see
  different seconds. One reading is the case where no second boundary
  passes during the loop.
- Sidekiq.LatencyOfCases: latencies use exact reals, not `float64`. The
  rounding in `now - thence` is not modelled.
- Error messages written to standard error on Redis or JSON errors are not
  modelled. They do not affect the result.
- Redis transport errors (connection refused, wrong type) are swallowed by
  the plugin's readers. Those readers return the zero value, or the parse
  of an empty reply, so the model does not distinguish them from absence.
  A transport failure therefore never aborts the snapshot.
- The reads are modelled as atomic. The plugin issues many independent
  Redis commands: `SMEMBERS queues` twice (sidekiq.go:143 and 206), and per
  queue `LLEN` (sidekiq.go:148) and `LRANGE` (sidekiq.go:210). Sidekiq may
  change the data between them. The model reads every value from one
  immutable `Store`, so, for example, `enqueued` and the latency entries
  always see the same queues and lists.
- Redis.ZCard and Redis.LLen: Redis returns a signed 64-bit count that the
  plugin casts to `uint64`. The model uses `nat`, since a count is never
  negative.
- The order of `SMEMBERS` replies is whatever the store's sequence holds.
  Redis gives no order. The order only decides which panicking queue is
  reported first, and the model reports the first one in sequence order.
- Go's map iteration order in the merge does not matter: the merged maps
  have disjoint keys (`FixedNamesDisjoint`), and `MergeThree` is
  right-biased as Go's loop is.
