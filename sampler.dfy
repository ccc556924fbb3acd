/**
 * CPU utilization as the shares controller measures it: per container from
 * two Docker CPU-usage snapshots, or for the whole node from the kubelet's
 * nanocore counter.
 */
module Sampler {
  import opened Workload

  /** The cpu_stats / precpu_stats counters of one Docker stats reply. */
  datatype CpuSample = CpuSample(
    totalUsage: real,
    preTotalUsage: real,
    systemUsage: real,
    preSystemUsage: real)

  function CpuDelta(s: CpuSample): real {
    s.totalUsage - s.preTotalUsage
  }

  function SystemDelta(s: CpuSample): real {
    s.systemUsage - s.preSystemUsage
  }

  /**
   * A container's CPU percent: 100 * cpu_delta / system_delta when both
   * deltas are positive, 0 otherwise.
   */
  function CpuPercent(s: CpuSample): (p: real)
    ensures 0.0 <= p
    ensures 0.0 < p <==> 0.0 < CpuDelta(s) && 0.0 < SystemDelta(s)
    ensures CpuDelta(s) <= SystemDelta(s) ==> p <= 100.0
  {
    var cpu := CpuDelta(s);
    var sys := SystemDelta(s);
    if sys > 0.0 && cpu > 0.0 then
      PercentOfPositive(cpu, sys);
      (cpu / sys) * 100.0
    else 0.0
  }

  /** A positive percent is exactly 100 times the ratio of the two deltas. */
  lemma CpuPercentRatio(s: CpuSample)
    ensures 0.0 < CpuPercent(s) ==> CpuPercent(s) * SystemDelta(s) == 100.0 * CpuDelta(s)
  {
    if 0.0 < CpuDelta(s) && 0.0 < SystemDelta(s) {
      PercentOfPositive(CpuDelta(s), SystemDelta(s));
    }
  }

  lemma PercentOfPositive(cpu: real, sys: real)
    requires 0.0 < cpu && 0.0 < sys
    ensures 0.0 < (cpu / sys) * 100.0
    ensures (cpu / sys) * 100.0 * sys == 100.0 * cpu
    ensures cpu <= sys ==> (cpu / sys) * 100.0 <= 100.0
  {
    assert (cpu / sys) * sys == cpu;
    if cpu <= sys {
      assert cpu / sys <= 1.0;
    }
  }

  /**
   * The aggregate the Docker-mode sampler returns: the sum, over the tracked
   * containers in iteration order, of the percent of each container whose
   * stats could be read.
   */
  function CpuTotal(ids: seq<Id>, samples: map<Id, CpuSample>): (load: real)
    ensures 0.0 <= load
  {
    if |ids| == 0 then 0.0
    else
      var k := ids[|ids| - 1];
      CpuTotal(ids[..|ids| - 1], samples) + if k in samples then CpuPercent(samples[k]) else 0.0
  }

  /** The running sum after one more container. */
  lemma CpuTotalSnoc(ids: seq<Id>, samples: map<Id, CpuSample>, i: int)
    requires 0 <= i < |ids|
    ensures CpuTotal(ids[..i + 1], samples) ==
              CpuTotal(ids[..i], samples) + if ids[i] in samples then CpuPercent(samples[ids[i]]) else 0.0
  {
    assert ids[..i + 1][..i] == ids[..i];
  }

  /**
   * The aggregate is never negative, and is at most 100 for each container
   * whose CPU delta does not exceed its system delta.
   */
  lemma {:induction false} CpuTotalBounds(ids: seq<Id>, samples: map<Id, CpuSample>)
    requires forall k :: k in samples ==> CpuDelta(samples[k]) <= SystemDelta(samples[k])
    ensures 0.0 <= CpuTotal(ids, samples) <= 100.0 * |ids| as real
  {
    if |ids| > 0 {
      CpuTotalBounds(ids[..|ids| - 1], samples);
    }
  }

  /**
   * The table after the Docker-mode sampler: each container whose stats
   * could be read records its percent, the others keep their record.
   */
  function RecordPercents(m: map<Id, Container>, samples: map<Id, CpuSample>): (m': map<Id, Container>)
    ensures m'.Keys == m.Keys
    ensures forall k :: k in m ==> m'[k] == m[k].(cpuPercent := m'[k].cpuPercent)
    ensures forall k :: k in m && k in samples ==> m'[k].cpuPercent == CpuPercent(samples[k])
    ensures forall k :: k in m && k !in samples ==> m'[k] == m[k]
  {
    map k | k in m :: if k in samples then m[k].(cpuPercent := CpuPercent(samples[k])) else m[k]
  }

  /** The kubelet summary reply: unreadable, or the node's usageNanoCores. */
  datatype NodeTelemetry = TelemetryFailed | UsageNanoCores(nanoCores: real)

  /**
   * The k8s-mode load: usageNanoCores over the node's core count times 1e9,
   * or 100.0 when the reply could not be fetched or parsed. The source
   * divides by the core count, so it must not be zero.
   */
  function CpuStatsK8S(t: NodeTelemetry, cores: int): (u: real)
    requires cores != 0
    ensures t.TelemetryFailed? ==> u == 100.0
    ensures t.UsageNanoCores? ==> u * (cores as real * 1000000000.0) == t.nanoCores
  {
    match t
    case TelemetryFailed => 100.0
    case UsageNanoCores(v) => v / (cores as real * 1000000000.0)
  }
}
