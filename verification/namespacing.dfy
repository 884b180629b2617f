/** The namespace is applied the same way to every key the aggregator reads,
    nested per-process and per-queue keys included: an installation whose
    keys all carry a namespace yields, under that namespace, exactly the
    snapshot the same data yields without one. */
module Namespacing {
  import opened Wrappers
  import opened Keys
  import opened Redis
  import opened Sidekiq

  lemma BusyFieldsAgree(s: Store, namespace: string, prefix: string, rt: Runtime, processes: seq<string>)
    ensures BusyFields(SidekiqPlugin(Namespaced(s, namespace), namespace, prefix), rt, processes)
         == BusyFields(SidekiqPlugin(s, "", prefix), rt, processes)
  {
    forall i | 0 <= i < |processes| {
      NamespacedHGet(s, namespace, rt.parseUint, processes[i], "busy");
    }
  }

  /** A queue's list has the same length in both installations. */
  lemma QueueLengthAgrees(s: Store, namespace: string, q: string)
    ensures LLen(Namespaced(s, namespace), AddNamespace(namespace, "queue:") + q)
         == LLen(s, AddNamespace("", "queue:") + q)
  {
    QueueKeyLayout(namespace, q);
    NamespacedListReads(s, namespace, "queue:" + q);
  }

  lemma QueueLengthsAgree(s: Store, namespace: string, prefix: string, queues: seq<string>)
    ensures QueueLengths(SidekiqPlugin(Namespaced(s, namespace), namespace, prefix), queues)
         == QueueLengths(SidekiqPlugin(s, "", prefix), queues)
  {
    var l1 := QueueLengths(SidekiqPlugin(Namespaced(s, namespace), namespace, prefix), queues);
    var l0 := QueueLengths(SidekiqPlugin(s, "", prefix), queues);
    forall i | 0 <= i < |queues| ensures l1[i] == l0[i] {
      QueueLengthAgrees(s, namespace, queues[i]);
    }
  }

  /** Every stat reads the same value from both installations. */
  lemma StatValuesAgree(s: Store, namespace: string, prefix: string, rt: Runtime, stat: Stat)
    ensures StatValue(SidekiqPlugin(Namespaced(s, namespace), namespace, prefix), rt, stat)
         == StatValue(SidekiqPlugin(s, "", prefix), rt, stat)
  {
    var sp1 := SidekiqPlugin(Namespaced(s, namespace), namespace, prefix);
    var sp0 := SidekiqPlugin(s, "", prefix);
    match stat
    case Busy =>
      NamespacedSMembers(s, namespace, "processes");
      BusyFieldsAgree(s, namespace, prefix, rt, Processes(sp0));
    case Enqueued =>
      NamespacedSMembers(s, namespace, "queues");
      QueueLengthsAgree(s, namespace, prefix, Queues(sp0));
    case Schedule => NamespacedZCard(s, namespace, "schedule");
    case Retry => NamespacedZCard(s, namespace, "retry");
    case Dead => NamespacedZCard(s, namespace, "dead");
  }

  /** Two plugins whose stats agree build the same stats map. */
  lemma GetStatsAgree(sp1: SidekiqPlugin, sp2: SidekiqPlugin, rt: Runtime, field: seq<string>)
    requires forall stat :: StatValue(sp1, rt, stat) == StatValue(sp2, rt, stat)
    ensures GetStats(sp1, rt, field) == GetStats(sp2, rt, field)
  {
    var m1 := GetStats(sp1, rt, field);
    var m2 := GetStats(sp2, rt, field);
    GetStatsKeys(sp1, rt, field);
    GetStatsKeys(sp2, rt, field);
    GetStatsValues(sp1, rt, field);
    GetStatsValues(sp2, rt, field);
    assert m1.Keys == m2.Keys;
    forall k | k in m1 ensures m1[k] == m2[k] {
      ParseStatNames(k, Busy);
    }
  }

  /** Two plugins whose queues all have the same outcome run the latency
      loop to the same result. */
  lemma {:induction false} LatencyLoopAgree(sp1: SidekiqPlugin, sp2: SidekiqPlugin, rt: Runtime,
                                           queues: seq<string>, acc: map<string, Metric>)
    requires forall q :: q in queues ==> LatencyOf(sp1, rt, q) == LatencyOf(sp2, rt, q)
    ensures LatencyLoop(sp1, rt, queues, acc) == LatencyLoop(sp2, rt, queues, acc)
    decreases |queues|
  {
    if |queues| > 0 {
      var q := queues[0];
      assert q in queues;
      assert forall x :: x in queues[1..] ==> x in queues;
      match LatencyOf(sp1, rt, q)
      case Emit(seconds) => LatencyLoopAgree(sp1, sp2, rt, queues[1..], acc[LatencyKey(q) := Seconds(seconds)]);
      case Skip => LatencyLoopAgree(sp1, sp2, rt, queues[1..], acc);
      case Panic =>
    }
  }

  /** A queue's latency outcome depends on the plugin only through the
      tail of the queue's list. */
  lemma LatencyOfTail(sp1: SidekiqPlugin, sp2: SidekiqPlugin, rt: Runtime, q: string)
    requires LRangeLast(sp1.client, AddNamespace(sp1.namespace, "queue:") + q)
          == LRangeLast(sp2.client, AddNamespace(sp2.namespace, "queue:") + q)
    ensures LatencyOf(sp1, rt, q) == LatencyOf(sp2, rt, q)
  {
  }

  /** The tail of a queue's list is the same in both installations. */
  lemma QueueTailAgrees(s: Store, namespace: string, q: string)
    ensures LRangeLast(Namespaced(s, namespace), AddNamespace(namespace, "queue:") + q)
         == LRangeLast(s, AddNamespace("", "queue:") + q)
  {
    QueueKeyLayout(namespace, q);
    NamespacedListReads(s, namespace, "queue:" + q);
  }

  lemma LatencyAgrees(s: Store, namespace: string, prefix: string, rt: Runtime, q: string)
    ensures LatencyOf(SidekiqPlugin(Namespaced(s, namespace), namespace, prefix), rt, q)
         == LatencyOf(SidekiqPlugin(s, "", prefix), rt, q)
  {
    QueueTailAgrees(s, namespace, q);
    LatencyOfTail(SidekiqPlugin(Namespaced(s, namespace), namespace, prefix), SidekiqPlugin(s, "", prefix), rt, q);
  }

  lemma CountersAgree(s: Store, namespace: string, prefix: string, rt: Runtime)
    ensures GetProcessedFailed(SidekiqPlugin(Namespaced(s, namespace), namespace, prefix), rt)
         == GetProcessedFailed(SidekiqPlugin(s, "", prefix), rt)
  {
    NamespacedGet(s, namespace, rt.parseUint, "stat:processed");
    NamespacedGet(s, namespace, rt.parseUint, "stat:failed");
  }

  lemma QueueLatencyAgrees(s: Store, namespace: string, prefix: string, rt: Runtime)
    ensures GetQueueLatency(SidekiqPlugin(Namespaced(s, namespace), namespace, prefix), rt)
         == GetQueueLatency(SidekiqPlugin(s, "", prefix), rt)
  {
    var sp1 := SidekiqPlugin(Namespaced(s, namespace), namespace, prefix);
    var sp0 := SidekiqPlugin(s, "", prefix);
    NamespacedSMembers(s, namespace, "queues");
    assert Queues(sp1) == Queues(sp0);
    forall q | q in Queues(sp0) ensures LatencyOf(sp1, rt, q) == LatencyOf(sp0, rt, q) {
      LatencyAgrees(s, namespace, prefix, rt, q);
    }
    LatencyLoopAgree(sp1, sp0, rt, Queues(sp0), map[]);
  }

  lemma StatsAgree(s: Store, namespace: string, prefix: string, rt: Runtime)
    ensures GetStats(SidekiqPlugin(Namespaced(s, namespace), namespace, prefix), rt, StatFields)
         == GetStats(SidekiqPlugin(s, "", prefix), rt, StatFields)
  {
    var sp1 := SidekiqPlugin(Namespaced(s, namespace), namespace, prefix);
    var sp0 := SidekiqPlugin(s, "", prefix);
    forall stat ensures StatValue(sp1, rt, stat) == StatValue(sp0, rt, stat) {
      StatValuesAgree(s, namespace, prefix, rt, stat);
    }
    GetStatsAgree(sp1, sp0, rt, StatFields);
  }

  /** Namespacing every key of a store and reading it under that namespace
      changes nothing in the snapshot, the latency names included. */
  lemma NamespaceTransparent(s: Store, namespace: string, prefix: string, rt: Runtime)
    ensures FetchMetrics(SidekiqPlugin(Namespaced(s, namespace), namespace, prefix), rt)
         == FetchMetrics(SidekiqPlugin(s, "", prefix), rt)
  {
    StatsAgree(s, namespace, prefix, rt);
    CountersAgree(s, namespace, prefix, rt);
    QueueLatencyAgrees(s, namespace, prefix, rt);
  }
}
