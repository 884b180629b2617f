/** Concrete snapshots: small Redis contents and what the aggregator makes
    of them. */
module Scenarios {
  import opened Wrappers
  import opened Keys
  import opened Redis
  import opened Sidekiq

  /** Two processes with `busy` fields "3" and "5" make busy = 8. */
  lemma TwoBusyProcesses(rt: Runtime)
    requires rt.parseUint("3") == 3 && rt.parseUint("5") == 5
    ensures GetBusy(SidekiqPlugin(Store(map[], map["p1" := map["busy" := "3"], "p2" := map["busy" := "5"]],
                                        map["processes" := ["p1", "p2"]], map[], map[]), "", ""), rt) == 8
  {
    var sp := SidekiqPlugin(Store(map[], map["p1" := map["busy" := "3"], "p2" := map["busy" := "5"]],
                                  map["processes" := ["p1", "p2"]], map[], map[]), "", "");
    assert Processes(sp) == ["p1", "p2"];
    assert "p1" != "p2" by { assert "p1"[1] != "p2"[1]; }
    assert HGet(sp.client, rt.parseUint, "p1", "busy") == 3;
    assert HGet(sp.client, rt.parseUint, "p2", "busy") == 5;
    assert TotalBusy(sp, rt, ["p2"]) == 5 by { assert ["p2"][1..] == []; }
    assert TotalBusy(sp, rt, ["p1", "p2"]) == 8 by { assert ["p1", "p2"][1..] == ["p2"]; }
    GetBusyIsTotal(sp, rt);
  }

  /** Job payloads as Sidekiq stores them in a queue list. */
  const OldestJob := "{\"class\":\"HardWorker\",\"args\":[],\"enqueued_at\":1700000000}"
  const NewerJob := "{\"class\":\"HardWorker\",\"args\":[],\"enqueued_at\":1700000030}"
  const TruncatedJob := "{\"class\":\"HardWorker\",\"enqueued_at\":"

  /** What a JSON decoder makes of `OldestJob`: numbers decode as reals. */
  const OldestDecoded: Job := map["class" := JString("HardWorker"), "args" := JArray([]),
                                  "enqueued_at" := JNumber(1700000000.0)]

  /** The store of the latency scenarios: queues `bad`, `default` and `low`
      in namespace `ns`. `bad`'s only entry is truncated JSON, `default`
      holds two jobs (the oldest last, as Sidekiq pushes on the left), and
      `low`'s list is empty. */
  function LatencyStore(): Store
  {
    Store(map[], map[], map["ns:queues" := ["bad", "default", "low"]],
          map["ns:queue:bad" := [TruncatedJob], "ns:queue:default" := [NewerJob, OldestJob], "ns:queue:low" := []],
          map[])
  }

  /** The plugin of the latency scenarios. */
  function LatencyPlugin(): SidekiqPlugin
  {
    SidekiqPlugin(LatencyStore(), "ns", "")
  }

  /** The queue set is read at `ns:queues`. */
  lemma LatencyQueues()
    ensures Queues(LatencyPlugin()) == ["bad", "default", "low"]
  {
    assert AddNamespace("ns", "queues") == "ns:queues";
  }

  /** `bad`'s oldest entry is not valid JSON, so the queue is skipped. */
  lemma BadQueueSkipped(rt: Runtime)
    requires rt.unmarshal(TruncatedJob) == None
    ensures LatencyOf(LatencyPlugin(), rt, "bad") == Skip
  {
    LatencyOfCases(LatencyPlugin(), rt, "bad");
    assert AddNamespace("ns", "queue:" + "bad") == "ns:queue:bad";
  }

  /** `default`'s oldest entry (the last of its list) was enqueued 42
      seconds before the snapshot. */
  lemma DefaultQueueLatency(rt: Runtime)
    requires rt.unmarshal(OldestJob) == Some(OldestDecoded)
    requires rt.now == 1700000042
    ensures LatencyOf(LatencyPlugin(), rt, "default") == Emit(42.0)
  {
    LatencyOfCases(LatencyPlugin(), rt, "default");
    assert AddNamespace("ns", "queue:" + "default") == "ns:queue:default";
  }

  /** `low` is empty, so its latency is zero whatever the clock says. */
  lemma LowQueueLatency(rt: Runtime)
    ensures LatencyOf(LatencyPlugin(), rt, "low") == Emit(0.0)
  {
    LatencyOfCases(LatencyPlugin(), rt, "low");
    assert AddNamespace("ns", "queue:" + "low") == "ns:queue:low";
  }

  /** Any plugin whose three queues behave like the scenario's: the
      snapshot holds the two emitted latencies and nothing for `bad`. */
  lemma ThreeQueueSnapshot(sp: SidekiqPlugin, rt: Runtime)
    requires Queues(sp) == ["bad", "default", "low"]
    requires LatencyOf(sp, rt, "bad") == Skip
    requires LatencyOf(sp, rt, "default") == Emit(42.0)
    requires LatencyOf(sp, rt, "low") == Emit(0.0)
    ensures FetchMetrics(sp, rt).Success?
    ensures LatencyKey("default") in FetchMetrics(sp, rt).value
    ensures FetchMetrics(sp, rt).value[LatencyKey("default")] == Seconds(42.0)
    ensures LatencyKey("low") in FetchMetrics(sp, rt).value
    ensures FetchMetrics(sp, rt).value[LatencyKey("low")] == Seconds(0.0)
    ensures LatencyKey("bad") !in FetchMetrics(sp, rt).value
  {
    assert NoPanic(sp, rt, Queues(sp)) by {
      forall q | q in Queues(sp) ensures !LatencyOf(sp, rt, q).Panic? {
        assert q == "bad" || q == "default" || q == "low";
      }
    }
    FetchMetricsSnapshot(sp, rt);
    var m := FetchMetrics(sp, rt).value;
    assert LatencyKey("default") in m && m[LatencyKey("default")] == Seconds(42.0) by {
      assert "default" in Queues(sp);
    }
    assert LatencyKey("low") in m && m[LatencyKey("low")] == Seconds(0.0) by {
      assert "low" in Queues(sp);
    }
    assert LatencyKey("bad") !in m by {
      assert "bad" in Queues(sp);
    }
  }

  /** The whole snapshot: `QueueLatency.default` reports 42 seconds,
      `QueueLatency.low` reports 0, there is no `QueueLatency.bad`, and the
      snapshot is produced all the same. */
  lemma LatencyScenario(rt: Runtime)
    requires rt.unmarshal(TruncatedJob) == None
    requires rt.unmarshal(OldestJob) == Some(OldestDecoded)
    requires rt.now == 1700000042
    ensures FetchMetrics(LatencyPlugin(), rt).Success?
    ensures LatencyKey("default") in FetchMetrics(LatencyPlugin(), rt).value
    ensures FetchMetrics(LatencyPlugin(), rt).value[LatencyKey("default")] == Seconds(42.0)
    ensures LatencyKey("low") in FetchMetrics(LatencyPlugin(), rt).value
    ensures FetchMetrics(LatencyPlugin(), rt).value[LatencyKey("low")] == Seconds(0.0)
    ensures LatencyKey("bad") !in FetchMetrics(LatencyPlugin(), rt).value
  {
    LatencyQueues();
    BadQueueSkipped(rt);
    DefaultQueueLatency(rt);
    LowQueueLatency(rt);
    ThreeQueueSnapshot(LatencyPlugin(), rt);
  }
}
