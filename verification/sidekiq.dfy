/** The Sidekiq metrics aggregator (mackerel-plugin-sidekiq/lib/sidekiq.go):
    reads Sidekiq's Redis key layout and produces one flat map from metric
    name to number. The Redis client is replaced by an immutable `Store`;
    `strconv.ParseUint`, `json.Unmarshal` and the clock are supplied by a
    `Runtime` value. */
module Sidekiq {
  import opened Wrappers
  import opened Counters
  import opened Keys
  import opened Redis

  /** A JSON value as `json.Unmarshal` produces it into `interface{}`:
      every number arrives as a `float64`. */
  datatype JsonValue =
    | JNumber(x: real)
    | JString(s: string)
    | JBool(b: bool)
    | JNull
    | JArray(items: seq<JsonValue>)
    | JObject(fields: map<string, JsonValue>)

  /** A job payload decoded into `map[string]interface{}`. */
  type Job = map<string, JsonValue>

  /** What the Go runtime supplies: `strconv.ParseUint(_, 10, 64)` with its
      error dropped, `json.Unmarshal` (None when it returns an error) and
      `time.Now().Unix()`. */
  datatype Runtime = Runtime(
    parseUint: string -> U64,
    unmarshal: string -> Option<Job>,
    now: int)

  /** The plugin: the Redis client, replaced by the store it would read, the
      Redis namespace and the metric key prefix. */
  datatype SidekiqPlugin = SidekiqPlugin(client: Store, namespace: string, prefix: string)

  /** A metric value: an unsigned count or a latency in seconds. */
  datatype Metric = Count(n: nat) | Seconds(x: real)

  /* ---------------------------------------------------------------------
     Counters and gauges
     --------------------------------------------------------------------- */

  function GetProcessed(sp: SidekiqPlugin, rt: Runtime): U64
  {
    Get(sp.client, rt.parseUint, AddNamespace(sp.namespace, "stat:processed"))
  }

  function GetFailed(sp: SidekiqPlugin, rt: Runtime): U64
  {
    Get(sp.client, rt.parseUint, AddNamespace(sp.namespace, "stat:failed"))
  }

  /** The members of the namespaced `processes` set. */
  function Processes(sp: SidekiqPlugin): seq<string>
  {
    SMembers(sp.client, AddNamespace(sp.namespace, "processes"))
  }

  /** The members of the namespaced `queues` set. */
  function Queues(sp: SidekiqPlugin): seq<string>
  {
    SMembers(sp.client, AddNamespace(sp.namespace, "queues"))
  }

  /** The values `getBusy` appends: each process's `busy` field, read from
      the hash at the namespaced process identifier. */
  function BusyFields(sp: SidekiqPlugin, rt: Runtime, processes: seq<string>): (r: seq<nat>)
    ensures |r| == |processes|
    ensures forall i :: 0 <= i < |processes| ==>
      r[i] == HGet(sp.client, rt.parseUint, AddNamespace(sp.namespace, processes[i]), "busy")
  {
    seq(|processes|, i requires 0 <= i < |processes| =>
      HGet(sp.client, rt.parseUint, AddNamespace(sp.namespace, processes[i]), "busy"))
  }

  /** Go's `getBusy`: ten zero entries, then one `busy` field per process,
      folded by `inject`. */
  function GetBusy(sp: SidekiqPlugin, rt: Runtime): U64
  {
    Inject(Zeros(10) + BusyFields(sp, rt, Processes(sp)), 0)
  }

  /** The values `getEnqueued` appends: the length of each queue's list,
      addressed by the namespaced `"queue:"` prefix followed by the name. */
  function QueueLengths(sp: SidekiqPlugin, queues: seq<string>): (r: seq<nat>)
    ensures |r| == |queues|
    ensures forall i :: 0 <= i < |queues| ==>
      r[i] == LLen(sp.client, AddNamespace(sp.namespace, "queue:") + queues[i])
  {
    seq(|queues|, i requires 0 <= i < |queues| =>
      LLen(sp.client, AddNamespace(sp.namespace, "queue:") + queues[i]))
  }

  /** Go's `getEnqueued`. */
  function GetEnqueued(sp: SidekiqPlugin): U64
  {
    Inject(Zeros(10) + QueueLengths(sp, Queues(sp)), 0)
  }

  function GetSchedule(sp: SidekiqPlugin): nat
  {
    ZCard(sp.client, AddNamespace(sp.namespace, "schedule"))
  }

  function GetRetry(sp: SidekiqPlugin): nat
  {
    ZCard(sp.client, AddNamespace(sp.namespace, "retry"))
  }

  function GetDead(sp: SidekiqPlugin): nat
  {
    ZCard(sp.client, AddNamespace(sp.namespace, "dead"))
  }

  /** Reference definition: the total number of busy workers, one process
      after the other. */
  function TotalBusy(sp: SidekiqPlugin, rt: Runtime, processes: seq<string>): nat
  {
    if |processes| == 0 then 0
    else HGet(sp.client, rt.parseUint, AddNamespace(sp.namespace, processes[0]), "busy")
         + TotalBusy(sp, rt, processes[1..])
  }

  /** Reference definition: the total length of the queues' lists, each
      addressed by its whole namespaced key `queue:<name>`. */
  function TotalEnqueued(sp: SidekiqPlugin, queues: seq<string>): nat
  {
    if |queues| == 0 then 0
    else LLen(sp.client, AddNamespace(sp.namespace, "queue:" + queues[0]))
         + TotalEnqueued(sp, queues[1..])
  }

  lemma {:induction false} BusyFieldsSum(sp: SidekiqPlugin, rt: Runtime, processes: seq<string>)
    ensures Sum(BusyFields(sp, rt, processes)) == TotalBusy(sp, rt, processes)
    decreases |processes|
  {
    if |processes| > 0 {
      assert BusyFields(sp, rt, processes)[1..] == BusyFields(sp, rt, processes[1..]);
      BusyFieldsSum(sp, rt, processes[1..]);
    }
  }

  lemma {:induction false} QueueLengthsSum(sp: SidekiqPlugin, queues: seq<string>)
    ensures Sum(QueueLengths(sp, queues)) == TotalEnqueued(sp, queues)
    decreases |queues|
  {
    if |queues| > 0 {
      assert QueueLengths(sp, queues)[1..] == QueueLengths(sp, queues[1..]);
      QueueKeyLayout(sp.namespace, queues[0]);
      QueueLengthsSum(sp, queues[1..]);
    }
  }

  /** `busy` is the sum of every namespaced process's `busy` field, wrapped
      at 2^64 like the `uint64` it is; the ten padding zeros add nothing. */
  lemma GetBusyIsTotal(sp: SidekiqPlugin, rt: Runtime)
    ensures GetBusy(sp, rt) == TotalBusy(sp, rt, Processes(sp)) % TwoTo64
    ensures TotalBusy(sp, rt, Processes(sp)) < TwoTo64 ==> GetBusy(sp, rt) == TotalBusy(sp, rt, Processes(sp))
    ensures Processes(sp) == [] ==> GetBusy(sp, rt) == 0
  {
    PaddedInject(10, BusyFields(sp, rt, Processes(sp)));
    BusyFieldsSum(sp, rt, Processes(sp));
  }

  /** `enqueued` is the sum, over the queues, of the length of the list at
      the queue's namespaced key, wrapped at 2^64; a missing list counts 0. */
  lemma GetEnqueuedIsTotal(sp: SidekiqPlugin)
    ensures GetEnqueued(sp) == TotalEnqueued(sp, Queues(sp)) % TwoTo64
    ensures TotalEnqueued(sp, Queues(sp)) < TwoTo64 ==> GetEnqueued(sp) == TotalEnqueued(sp, Queues(sp))
    ensures Queues(sp) == [] ==> GetEnqueued(sp) == 0
  {
    PaddedInject(10, QueueLengths(sp, Queues(sp)));
    QueueLengthsSum(sp, Queues(sp));
  }

  /* ---------------------------------------------------------------------
     Stat dispatch (`getStats`)
     --------------------------------------------------------------------- */

  /** The closed set of stats `getStats` recognises. */
  datatype Stat = Busy | Enqueued | Schedule | Retry | Dead

  const StatNames: set<string> := {"busy", "enqueued", "schedule", "retry", "dead"}

  function StatName(stat: Stat): string
  {
    match stat
    case Busy => "busy"
    case Enqueued => "enqueued"
    case Schedule => "schedule"
    case Retry => "retry"
    case Dead => "dead"
  }

  /** The `switch` of `getStats`: which case, if any, a field name selects. */
  function ParseStat(name: string): Option<Stat>
  {
    if name == "busy" then Some(Busy)
    else if name == "enqueued" then Some(Enqueued)
    else if name == "schedule" then Some(Schedule)
    else if name == "retry" then Some(Retry)
    else if name == "dead" then Some(Dead)
    else None
  }

  /** The switch selects a case exactly for the five stat names, and the
      case it selects is the one carrying that name. */
  lemma ParseStatNames(name: string, stat: Stat)
    ensures ParseStat(name).Some? <==> name in StatNames
    ensures ParseStat(name) == Some(stat) <==> name == StatName(stat)
  {
  }

  /** The getter each case of the switch calls. */
  function StatValue(sp: SidekiqPlugin, rt: Runtime, stat: Stat): nat
  {
    match stat
    case Busy => GetBusy(sp, rt)
    case Enqueued => GetEnqueued(sp)
    case Schedule => GetSchedule(sp)
    case Retry => GetRetry(sp)
    case Dead => GetDead(sp)
  }

  /** The loop of `getStats`, from the map built so far. */
  function StatsLoop(sp: SidekiqPlugin, rt: Runtime, field: seq<string>, acc: map<string, Metric>): map<string, Metric>
    decreases |field|
  {
    if |field| == 0 then acc
    else
      var e := field[0];
      match ParseStat(e)
      case Some(stat) => StatsLoop(sp, rt, field[1..], acc[e := Count(StatValue(sp, rt, stat))])
      case None => StatsLoop(sp, rt, field[1..], acc)
  }

  /** The loop adds exactly the recognised names of `field`, each bound to
      its getter's value, and keeps every other entry it started from. */
  lemma {:induction false} StatsLoopSpec(sp: SidekiqPlugin, rt: Runtime, field: seq<string>, acc: map<string, Metric>)
    ensures forall k :: k in StatsLoop(sp, rt, field, acc) <==> k in acc || (k in field && ParseStat(k).Some?)
    ensures forall e :: e in field && ParseStat(e).Some? ==>
      StatsLoop(sp, rt, field, acc)[e] == Count(StatValue(sp, rt, ParseStat(e).value))
    ensures forall k :: k in acc && (k !in field || ParseStat(k).None?) ==>
      StatsLoop(sp, rt, field, acc)[k] == acc[k]
    decreases |field|
  {
    if |field| > 0 {
      var e := field[0];
      assert forall x :: x in field <==> x == e || x in field[1..];
      match ParseStat(e)
      case Some(stat) => StatsLoopSpec(sp, rt, field[1..], acc[e := Count(StatValue(sp, rt, stat))]);
      case None => StatsLoopSpec(sp, rt, field[1..], acc);
    }
  }

  /** Go's `getStats`. */
  function GetStats(sp: SidekiqPlugin, rt: Runtime, field: seq<string>): map<string, Metric>
  {
    StatsLoop(sp, rt, field, map[])
  }

  /** Exactly the recognised names of `field` are keys of `getStats`; any
      other name adds nothing. */
  lemma GetStatsKeys(sp: SidekiqPlugin, rt: Runtime, field: seq<string>)
    ensures forall k :: k in GetStats(sp, rt, field) <==> k in field && k in StatNames
  {
    StatsLoopSpec(sp, rt, field, map[]);
    assert forall e :: ParseStat(e).Some? <==> e in StatNames;
  }

  /** Each key of `getStats` is bound to the value of its getter. */
  lemma GetStatsValues(sp: SidekiqPlugin, rt: Runtime, field: seq<string>)
    ensures forall e :: e in field && ParseStat(e).Some? ==>
      e in GetStats(sp, rt, field) && GetStats(sp, rt, field)[e] == Count(StatValue(sp, rt, ParseStat(e).value))
  {
    StatsLoopSpec(sp, rt, field, map[]);
  }

  /** Go's `getProcessedFailed`. */
  function GetProcessedFailed(sp: SidekiqPlugin, rt: Runtime): map<string, Metric>
  {
    map["processed" := Count(GetProcessed(sp, rt)), "failed" := Count(GetFailed(sp, rt))]
  }

  /* ---------------------------------------------------------------------
     Queue latency (`getQueueLatency`)
     --------------------------------------------------------------------- */

  /** The metric name of a queue's latency: `metricName("QueueLatency", q)`,
      with the raw queue name, not the namespaced one. */
  function LatencyKey(q: string): (r: string)
    ensures r == "QueueLatency." + q
  {
    MetricName(["QueueLatency", q])
  }

  lemma LatencyKeyInjective(q1: string, q2: string)
    requires LatencyKey(q1) == LatencyKey(q2)
    ensures q1 == q2
  {
    var k := LatencyKey(q1);
    assert q1 == k[13..];
  }

  lemma LatencyKeyInjectiveAll()
    ensures forall q1, q2 :: LatencyKey(q1) == LatencyKey(q2) ==> q1 == q2
  {
    forall q1, q2 | LatencyKey(q1) == LatencyKey(q2) {
      LatencyKeyInjective(q1, q2);
    }
  }

  /** The seven names the fixed metrics use. */
  const FixedNames: set<string> :=
    {"processed", "failed", "busy", "enqueued", "schedule", "retry", "dead"}

  /** No latency name is a fixed name: every latency name is at least 13
      characters long, every fixed name at most 9. */
  lemma LatencyKeyNotFixed(q: string)
    ensures LatencyKey(q) !in FixedNames
  {
    assert |LatencyKey(q)| >= 13;
  }

  /** What one iteration of the latency loop does with a queue. */
  datatype QueueOutcome =
    | Emit(seconds: real)  // `latency[QueueLatency.<q>] = seconds`
    | Skip                 // `continue` after a JSON error
    | Panic                // the `.(float64)` type assertion fails

  /** One iteration of the loop of `getQueueLatency`: LRANGE -1 -1 on the
      queue's list, decode the entry, subtract `enqueued_at` from now. */
  function LatencyOf(sp: SidekiqPlugin, rt: Runtime, q: string): QueueOutcome
  {
    var tail := LRangeLast(sp.client, AddNamespace(sp.namespace, "queue:") + q);
    if |tail| == 0 then Emit(0.0)
    else
      match rt.unmarshal(tail[0])
      case None => Skip
      case Some(job) =>
        var now := rt.now as real;
        var thence :=
          if "enqueued_at" in job then
            (match job["enqueued_at"] case JNumber(enqueuedAt) => Some(enqueuedAt) case _ => None)
          else Some(now);
        if thence.Some? then Emit(now - thence.value) else Panic
  }

  /** A queue's latency, stated on its list at the namespaced key
      `queue:<name>`: 0 for a missing or empty list; otherwise the oldest
      (last) entry is decoded, an undecodable entry is skipped, a missing
      `enqueued_at` gives now - now = 0, a numeric one gives now minus it,
      unclamped, and any other one panics. */
  lemma LatencyOfCases(sp: SidekiqPlugin, rt: Runtime, q: string)
    ensures var key := AddNamespace(sp.namespace, "queue:" + q);
      (key !in sp.client.lists || |sp.client.lists[key]| == 0) ==> LatencyOf(sp, rt, q) == Emit(0.0)
    ensures var key := AddNamespace(sp.namespace, "queue:" + q);
      key in sp.client.lists && |sp.client.lists[key]| > 0 ==>
        var oldest := sp.client.lists[key][|sp.client.lists[key]| - 1];
        match rt.unmarshal(oldest)
        case None => LatencyOf(sp, rt, q) == Skip
        case Some(job) =>
          if "enqueued_at" !in job then LatencyOf(sp, rt, q) == Emit(0.0)
          else if job["enqueued_at"].JNumber? then
            LatencyOf(sp, rt, q) == Emit(rt.now as real - job["enqueued_at"].x)
          else LatencyOf(sp, rt, q) == Panic
  {
    QueueKeyLayout(sp.namespace, q);
  }

  /** The latency names the queues produce: one per queue that is not
      skipped. */
  function EmittedKeys(sp: SidekiqPlugin, rt: Runtime, queues: seq<string>): set<string>
  {
    set q | q in queues && LatencyOf(sp, rt, q).Emit? :: LatencyKey(q)
  }

  /** The loop of `getQueueLatency`, from the map built so far; `Failure(q)`
      is the panic raised on queue `q`. */
  function LatencyLoop(sp: SidekiqPlugin, rt: Runtime, queues: seq<string>, acc: map<string, Metric>)
    : Result<map<string, Metric>, string>
    decreases |queues|
  {
    if |queues| == 0 then Success(acc)
    else
      var q := queues[0];
      match LatencyOf(sp, rt, q)
      case Emit(seconds) => LatencyLoop(sp, rt, queues[1..], acc[LatencyKey(q) := Seconds(seconds)])
      case Skip => LatencyLoop(sp, rt, queues[1..], acc)
      case Panic => Failure(q)
  }

  /** `q` is the first queue of `queues` whose iteration panics. */
  predicate FirstPanic(sp: SidekiqPlugin, rt: Runtime, queues: seq<string>, q: string)
  {
    exists i :: 0 <= i < |queues| && queues[i] == q && LatencyOf(sp, rt, q).Panic? && NoPanic(sp, rt, queues[..i])
  }

  predicate NoPanic(sp: SidekiqPlugin, rt: Runtime, queues: seq<string>)
  {
    forall q :: q in queues ==> !LatencyOf(sp, rt, q).Panic?
  }

  /** A queue that does not panic in front of `queues` leaves the first
      panicking queue where it was. */
  lemma FirstPanicCons(sp: SidekiqPlugin, rt: Runtime, queues: seq<string>, q: string)
    requires |queues| > 0 && !LatencyOf(sp, rt, queues[0]).Panic?
    requires FirstPanic(sp, rt, queues[1..], q)
    ensures FirstPanic(sp, rt, queues, q)
  {
    var rest := queues[1..];
    var i :| 0 <= i < |rest| && rest[i] == q && LatencyOf(sp, rt, q).Panic? && NoPanic(sp, rt, rest[..i]);
    assert queues[..i + 1] == [queues[0]] + rest[..i];
    assert queues[i + 1] == q;
  }

  /** The loop fails exactly when some queue panics, and then on the first
      such queue. */
  lemma {:induction false} LatencyLoopFailure(sp: SidekiqPlugin, rt: Runtime, queues: seq<string>, acc: map<string, Metric>)
    ensures LatencyLoop(sp, rt, queues, acc).Failure? <==> !NoPanic(sp, rt, queues)
    ensures var r := LatencyLoop(sp, rt, queues, acc);
      r.Failure? ==> FirstPanic(sp, rt, queues, r.error)
    decreases |queues|
  {
    if |queues| > 0 {
      var q := queues[0];
      var rest := queues[1..];
      assert forall x :: x in queues <==> x == q || x in rest;
      var r := LatencyLoop(sp, rt, queues, acc);
      match LatencyOf(sp, rt, q)
      case Panic =>
        assert queues[..0] == [];
      case Skip =>
        LatencyLoopFailure(sp, rt, rest, acc);
        if r.Failure? {
          FirstPanicCons(sp, rt, queues, r.error);
        }
      case Emit(seconds) =>
        LatencyLoopFailure(sp, rt, rest, acc[LatencyKey(q) := Seconds(seconds)]);
        if r.Failure? {
          FirstPanicCons(sp, rt, queues, r.error);
        }
    }
  }

  /** When no queue panics, the loop adds one entry per emitting queue,
      keyed by the queue's latency name and holding its latency, and keeps
      every other entry of the map it started from. */
  lemma {:induction false} LatencyLoopSuccess(sp: SidekiqPlugin, rt: Runtime, queues: seq<string>, acc: map<string, Metric>)
    requires NoPanic(sp, rt, queues)
    ensures LatencyLoop(sp, rt, queues, acc).Success?
    ensures LatencyLoop(sp, rt, queues, acc).value.Keys == acc.Keys + EmittedKeys(sp, rt, queues)
    ensures forall q :: q in queues && LatencyOf(sp, rt, q).Emit? ==>
      LatencyLoop(sp, rt, queues, acc).value[LatencyKey(q)] == Seconds(LatencyOf(sp, rt, q).seconds)
    ensures forall k :: k in acc && k !in EmittedKeys(sp, rt, queues) ==>
      LatencyLoop(sp, rt, queues, acc).value[k] == acc[k]
    decreases |queues|
  {
    if |queues| > 0 {
      var q := queues[0];
      var rest := queues[1..];
      assert forall x :: x in queues <==> x == q || x in rest;
      match LatencyOf(sp, rt, q)
      case Skip =>
        LatencyLoopSuccess(sp, rt, rest, acc);
        assert EmittedKeys(sp, rt, queues) == EmittedKeys(sp, rt, rest);
      case Emit(seconds) =>
        var acc' := acc[LatencyKey(q) := Seconds(seconds)];
        LatencyLoopSuccess(sp, rt, rest, acc');
        assert EmittedKeys(sp, rt, queues) == {LatencyKey(q)} + EmittedKeys(sp, rt, rest);
        LatencyKeyInjectiveAll();
    }
  }

  /** Go's `getQueueLatency`, over the members of the namespaced `queues`
      set. */
  function GetQueueLatency(sp: SidekiqPlugin, rt: Runtime): Result<map<string, Metric>, string>
  {
    LatencyLoop(sp, rt, Queues(sp), map[])
  }

  /** The latency map: it exists unless a queue's `enqueued_at` is not a
      number; a queue has an entry exactly when it is not skipped; the
      entry is the queue's outcome. */
  lemma GetQueueLatencySpec(sp: SidekiqPlugin, rt: Runtime)
    ensures var r := GetQueueLatency(sp, rt);
      r.Failure? <==> exists q :: q in Queues(sp) && LatencyOf(sp, rt, q).Panic?
    ensures var r := GetQueueLatency(sp, rt);
      r.Failure? ==> r.error in Queues(sp) && LatencyOf(sp, rt, r.error).Panic?
    ensures var r := GetQueueLatency(sp, rt);
      r.Success? ==> r.value.Keys == EmittedKeys(sp, rt, Queues(sp))
    ensures var r := GetQueueLatency(sp, rt);
      r.Success? ==> forall q :: q in Queues(sp) ==>
        (LatencyKey(q) in r.value <==> LatencyOf(sp, rt, q).Emit?)
    ensures var r := GetQueueLatency(sp, rt);
      r.Success? ==> forall q :: q in Queues(sp) && LatencyOf(sp, rt, q).Emit? ==>
        r.value[LatencyKey(q)] == Seconds(LatencyOf(sp, rt, q).seconds)
  {
    LatencyLoopFailure(sp, rt, Queues(sp), map[]);
    if NoPanic(sp, rt, Queues(sp)) {
      LatencyLoopSuccess(sp, rt, Queues(sp), map[]);
      LatencyKeyInjectiveAll();
    }
  }

  /* ---------------------------------------------------------------------
     The snapshot (`FetchMetrics`) and the metric key prefix
     --------------------------------------------------------------------- */

  /** The merge closure of `FetchMetrics`: copy every entry of each map in
      turn, so a later map wins on a shared key. */
  function Merge(maps: seq<map<string, Metric>>): map<string, Metric>
    decreases |maps|
  {
    if |maps| == 0 then map[]
    else Merge(maps[..|maps| - 1]) + maps[|maps| - 1]
  }

  /** The field list `FetchMetrics` hands to `getStats`; "latency" is not a
      case of its switch. */
  const StatFields: seq<string> := ["busy", "enqueued", "schedule", "retry", "dead", "latency"]

  /** Go's `FetchMetrics`. Its returned error is always nil, so the only way
      it produces no snapshot is the panic of `getQueueLatency`, modelled as
      `Failure(q)`. */
  function FetchMetrics(sp: SidekiqPlugin, rt: Runtime): Result<map<string, Metric>, string>
  {
    var stats := GetStats(sp, rt, StatFields);
    var pf := GetProcessedFailed(sp, rt);
    match GetQueueLatency(sp, rt)
    case Failure(q) => Failure(q)
    case Success(latency) => Success(Merge([stats, pf, latency]))
  }

  /** The stats map of `FetchMetrics` has exactly the five stat names. */
  lemma FetchStatsKeys(sp: SidekiqPlugin, rt: Runtime)
    ensures GetStats(sp, rt, StatFields).Keys == {"busy", "enqueued", "schedule", "retry", "dead"}
  {
    GetStatsKeys(sp, rt, StatFields);
    assert StatFields[..5] == ["busy", "enqueued", "schedule", "retry", "dead"];
    assert forall k :: k in StatNames ==> k in StatFields[..5];
  }

  lemma MergeThree(a: map<string, Metric>, b: map<string, Metric>, c: map<string, Metric>)
    ensures Merge([a, b, c]) == a + b + c
  {
    assert [a, b, c][..2] == [a, b];
    assert [a, b][..1] == [a];
    assert [a][..0] == [];
    assert Merge([a]) == a;
    assert Merge([a, b]) == a + b;
  }

  /** Latency names and fixed names never collide. */
  lemma FixedNamesDisjoint(sp: SidekiqPlugin, rt: Runtime)
    ensures FixedNames !! EmittedKeys(sp, rt, Queues(sp))
  {
    forall k | k in EmittedKeys(sp, rt, Queues(sp)) ensures k !in FixedNames {
      var q :| q in Queues(sp) && LatencyOf(sp, rt, q).Emit? && k == LatencyKey(q);
      LatencyKeyNotFixed(q);
    }
  }

  lemma FetchStatValue(sp: SidekiqPlugin, rt: Runtime, stat: Stat)
    ensures StatName(stat) in GetStats(sp, rt, StatFields)
    ensures GetStats(sp, rt, StatFields)[StatName(stat)] == Count(StatValue(sp, rt, stat))
  {
    var name := StatName(stat);
    GetStatsValues(sp, rt, StatFields);
    ParseStatNames(name, stat);
    assert name in StatFields by {
      match stat
      case Busy => assert StatFields[0] == name;
      case Enqueued => assert StatFields[1] == name;
      case Schedule => assert StatFields[2] == name;
      case Retry => assert StatFields[3] == name;
      case Dead => assert StatFields[4] == name;
    }
  }

  /** The stats map of `FetchMetrics` binds each stat name to its getter. */
  lemma FetchStatsValues(sp: SidekiqPlugin, rt: Runtime)
    ensures var stats := GetStats(sp, rt, StatFields);
      && stats.Keys == {"busy", "enqueued", "schedule", "retry", "dead"}
      && stats["busy"] == Count(GetBusy(sp, rt))
      && stats["enqueued"] == Count(GetEnqueued(sp))
      && stats["schedule"] == Count(GetSchedule(sp))
      && stats["retry"] == Count(GetRetry(sp))
      && stats["dead"] == Count(GetDead(sp))
  {
    FetchStatsKeys(sp, rt);
    FetchStatValue(sp, rt, Busy);
    FetchStatValue(sp, rt, Enqueued);
    FetchStatValue(sp, rt, Schedule);
    FetchStatValue(sp, rt, Retry);
    FetchStatValue(sp, rt, Dead);
  }

  /** `FetchMetrics` yields no snapshot exactly when some queue panics, and
      names the first one. */
  lemma FetchMetricsFailure(sp: SidekiqPlugin, rt: Runtime)
    ensures FetchMetrics(sp, rt).Failure? <==> exists q :: q in Queues(sp) && LatencyOf(sp, rt, q).Panic?
    ensures FetchMetrics(sp, rt).Failure? ==> FirstPanic(sp, rt, Queues(sp), FetchMetrics(sp, rt).error)
  {
    LatencyLoopFailure(sp, rt, Queues(sp), map[]);
  }

  /** Merging three maps whose keys are the five stat names, the two
      counter names and names outside the fixed ones: every entry keeps
      the value of the one map that has it. */
  lemma DisjointParts(stats: map<string, Metric>, pf: map<string, Metric>, latency: map<string, Metric>)
    requires stats.Keys == StatNames
    requires pf.Keys == {"processed", "failed"}
    requires latency.Keys !! FixedNames
    ensures var m := stats + pf + latency;
      && m.Keys == FixedNames + latency.Keys
      && (forall k :: k in stats ==> m[k] == stats[k])
      && (forall k :: k in pf ==> m[k] == pf[k])
      && (forall k :: k in latency ==> m[k] == latency[k])
  {
    assert StatNames !! pf.Keys;
  }

  /** Without a panic, the snapshot is the three maps merged in order. */
  lemma FetchMetricsUnion(sp: SidekiqPlugin, rt: Runtime)
    requires NoPanic(sp, rt, Queues(sp))
    ensures GetQueueLatency(sp, rt).Success?
    ensures GetQueueLatency(sp, rt).value.Keys !! FixedNames
    ensures FetchMetrics(sp, rt)
      == Success(GetStats(sp, rt, StatFields) + GetProcessedFailed(sp, rt) + GetQueueLatency(sp, rt).value)
  {
    GetQueueLatencySpec(sp, rt);
    FixedNamesDisjoint(sp, rt);
    MergeThree(GetStats(sp, rt, StatFields), GetProcessedFailed(sp, rt), GetQueueLatency(sp, rt).value);
  }

  /** The `processed` and `failed` entries of the snapshot hold the two
      counters. */
  lemma FetchMetricsCounters(sp: SidekiqPlugin, rt: Runtime)
    requires NoPanic(sp, rt, Queues(sp))
    ensures FetchMetrics(sp, rt).Success?
    ensures "processed" in FetchMetrics(sp, rt).value && "failed" in FetchMetrics(sp, rt).value
    ensures FetchMetrics(sp, rt).value["processed"] == Count(GetProcessed(sp, rt))
    ensures FetchMetrics(sp, rt).value["failed"] == Count(GetFailed(sp, rt))
  {
    FetchMetricsUnion(sp, rt);
    var latency := GetQueueLatency(sp, rt).value;
    assert "processed" !in latency && "failed" !in latency;
  }

  /** The five stat entries of the snapshot hold the getters' values. */
  lemma FetchMetricsStats(sp: SidekiqPlugin, rt: Runtime)
    requires NoPanic(sp, rt, Queues(sp))
    ensures FetchMetrics(sp, rt).Success?
    ensures StatNames <= FetchMetrics(sp, rt).value.Keys
    ensures var m := FetchMetrics(sp, rt).value;
      && m["busy"] == Count(GetBusy(sp, rt))
      && m["enqueued"] == Count(GetEnqueued(sp))
      && m["schedule"] == Count(GetSchedule(sp))
      && m["retry"] == Count(GetRetry(sp))
      && m["dead"] == Count(GetDead(sp))
  {
    FetchMetricsUnion(sp, rt);
    FetchStatsValues(sp, rt);
    DisjointParts(GetStats(sp, rt, StatFields), GetProcessedFailed(sp, rt), GetQueueLatency(sp, rt).value);
  }

  /** The snapshot is the disjoint union of the stats map, the
      processed/failed map and the latency map: the seven fixed names plus
      one latency entry per queue that is not skipped, holding its
      latency. */
  lemma FetchMetricsSnapshot(sp: SidekiqPlugin, rt: Runtime)
    requires NoPanic(sp, rt, Queues(sp))
    ensures FetchMetrics(sp, rt).Success?
    ensures FetchMetrics(sp, rt).value.Keys == FixedNames + EmittedKeys(sp, rt, Queues(sp))
    ensures forall q :: q in Queues(sp) ==>
      (LatencyKey(q) in FetchMetrics(sp, rt).value <==> LatencyOf(sp, rt, q).Emit?)
    ensures forall q :: q in Queues(sp) && LatencyOf(sp, rt, q).Emit? ==>
      FetchMetrics(sp, rt).value[LatencyKey(q)] == Seconds(LatencyOf(sp, rt, q).seconds)
  {
    FetchMetricsUnion(sp, rt);
    GetQueueLatencySpec(sp, rt);
    FetchStatsKeys(sp, rt);
    var latency := GetQueueLatency(sp, rt).value;
    DisjointParts(GetStats(sp, rt, StatFields), GetProcessedFailed(sp, rt), latency);
    var m := FetchMetrics(sp, rt).value;
    forall q | q in Queues(sp)
      ensures LatencyKey(q) in m <==> LatencyOf(sp, rt, q).Emit?
      ensures LatencyOf(sp, rt, q).Emit? ==> m[LatencyKey(q)] == Seconds(LatencyOf(sp, rt, q).seconds)
    {
      LatencyKeyNotFixed(q);
      assert LatencyKey(q) in m <==> LatencyKey(q) in latency;
    }
  }

  /** The snapshot of an installation with nothing recorded. */
  const ZeroSnapshot: map<string, Metric> := map[
    "processed" := Count(0), "failed" := Count(0), "busy" := Count(0), "enqueued" := Count(0),
    "schedule" := Count(0), "retry" := Count(0), "dead" := Count(0)]

  lemma IsZeroSnapshot(m: map<string, Metric>)
    requires m.Keys == FixedNames
    requires m["processed"] == Count(0) && m["failed"] == Count(0) && m["busy"] == Count(0)
    requires m["enqueued"] == Count(0) && m["schedule"] == Count(0)
    requires m["retry"] == Count(0) && m["dead"] == Count(0)
    ensures m == ZeroSnapshot
  {
  }

  /** An empty Redis (no counters, no processes, no queues, no sorted sets)
      gives seven zeros and no latency entry, in any namespace. */
  lemma EmptySnapshot(namespace: string, prefix: string, rt: Runtime)
    ensures FetchMetrics(SidekiqPlugin(EmptyStore, namespace, prefix), rt) == Success(ZeroSnapshot)
  {
    var sp := SidekiqPlugin(EmptyStore, namespace, prefix);
    assert Queues(sp) == [];
    assert EmittedKeys(sp, rt, Queues(sp)) == {};
    FetchMetricsSnapshot(sp, rt);
    FetchMetricsCounters(sp, rt);
    FetchMetricsStats(sp, rt);
    GetBusyIsTotal(sp, rt);
    GetEnqueuedIsTotal(sp);
    IsZeroSnapshot(FetchMetrics(sp, rt).value);
  }

  /** Go's `MetricKeyPrefix`: "sidekiq" when no prefix is configured, the
      configured prefix otherwise. Its receiver is a copy, so the plugin
      itself is left as it was. */
  function MetricKeyPrefix(sp: SidekiqPlugin): (r: string)
    ensures r != ""
    ensures sp.prefix != "" ==> r == sp.prefix
    ensures sp.prefix == "" ==> r == "sidekiq"
  {
    if sp.prefix == "" then "sidekiq" else sp.prefix
  }

  /** Configuring the prefix a plugin reports changes nothing: the default
      is applied once, and a reported prefix is a fixed point. */
  lemma MetricKeyPrefixStable(sp: SidekiqPlugin)
    ensures MetricKeyPrefix(sp.(prefix := MetricKeyPrefix(sp))) == MetricKeyPrefix(sp)
  {
  }
}
