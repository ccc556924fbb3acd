/**
 * The shares controller's state across one control cycle, and the loops of
 * shares_controller.py that update it: ActiveContainers, CpuStatsDocker,
 * CpuStats, ShrinkBE, GrowBE, DisableBE, EnableBE, and one pass of the
 * control loop.
 *
 * The source keeps a dict from container id to mutable Container objects;
 * each object is created fresh for its entry and referenced only from the
 * dict, so the dict is modelled as a map of Container values that the
 * methods replace. Calls into Docker and Kubernetes are recorded as effects.
 */
module SharesController {
  import opened Wrappers
  import opened Workload
  import opened Policy
  import opened ShareAdjuster
  import opened Registry
  import opened Sampler
  import opened SloOracle

  /**
   * The map m with the entries of m2 copied over it for the keys ids, one
   * after the other: the state of a loop over ids that updates each entry
   * it visits to its final value.
   */
  function Overlay<V>(m: map<Id, V>, m2: map<Id, V>, ids: seq<Id>): map<Id, V> {
    if |ids| == 0 then m
    else
      var prev := Overlay(m, m2, ids[..|ids| - 1]);
      var k := ids[|ids| - 1];
      if k in m2 then prev[k := m2[k]] else prev
  }

  /** Each key of an overlay holds its entry in m2 when visited and present there, else its entry in m. */
  lemma {:induction false} OverlayAt<V>(m: map<Id, V>, m2: map<Id, V>, ids: seq<Id>, k: Id)
    ensures k in Overlay(m, m2, ids) <==> k in m || (k in ids && k in m2)
    ensures k in Overlay(m, m2, ids) ==>
              Overlay(m, m2, ids)[k] == if k in ids && k in m2 then m2[k] else m[k]
  {
    if |ids| > 0 {
      var n := |ids| - 1;
      OverlayAt(m, m2, ids[..n], k);
      assert k in ids <==> k in ids[..n] || k == ids[n];
    }
  }

  /** One more visited key. */
  lemma OverlaySnoc<V>(m: map<Id, V>, m2: map<Id, V>, ids: seq<Id>, i: int)
    requires 0 <= i < |ids|
    ensures Overlay(m, m2, ids[..i + 1]) ==
              if ids[i] in m2 then Overlay(m, m2, ids[..i])[ids[i] := m2[ids[i]]] else Overlay(m, m2, ids[..i])
  {
    assert ids[..i + 1][..i] == ids[..i];
  }

  /** Once every key of m2 has been visited, the overlay is m merged with m2. */
  lemma OverlayAll<V>(m: map<Id, V>, m2: map<Id, V>, ids: seq<Id>)
    requires forall k :: k in m2 ==> k in ids
    ensures Overlay(m, m2, ids) == m + m2
  {
    forall k | k in Overlay(m, m2, ids) || k in m + m2
      ensures k in Overlay(m, m2, ids) && k in m + m2 && Overlay(m, m2, ids)[k] == (m + m2)[k]
    {
      OverlayAt(m, m2, ids, k);
    }
  }

  /** An entry whose final value is its current one is left alone by the overlay. */
  lemma OverlayKeeps<V>(m: map<Id, V>, m2: map<Id, V>, ids: seq<Id>, k: Id)
    requires k in m && k in m2 && m2[k] == m[k]
    ensures Overlay(m, m2, ids)[k := m[k]] == Overlay(m, m2, ids)
  {
    OverlayAt(m, m2, ids, k);
  }

  /** The table after the phase a cycle chose: shrunk, grown, or as it was. */
  function Adjusted(m: map<Id, Container>, a: Action, cfg: Config): map<Id, Container> {
    match a
    case Shrink => ShrinkAll(m, cfg)
    case Grow => GrowAll(m, cfg)
    case _ => m
  }

  class Controller {
    /** The configuration, the node name and its CPU core count (NodeStats.name, NodeStats.cpu). */
    const cfg: Config
    const nodeName: string
    const cores: int

    /** active_containers, with its iteration order, and the ControllerStats of this cycle. */
    var active: map<Id, Container>
    var order: seq<Id>
    var stats: ControllerStats
    /** NodeStats.qos_app: the application whose SLO slack is read. */
    var qosApp: string

    /** The last cpu_shares value written to Docker, per container. */
    var written: map<Id, int>
    /** Containers killed through Docker. */
    var killed: set<Id>
    /** Pods deleted through Kubernetes, as (name, namespace). */
    var deletedPods: set<(string, string)>
    /** The node label hyperpilot.io/be-enabled. */
    var beEnabled: bool

    ghost predicate Valid()
      reads this
    {
      && Distinct(order)
      && (forall k :: k in active <==> k in order)
      && (cfg.K8sMode() ==> cores != 0)
    }

    /**
     * The state after configDocker and configK8S: nothing tracked yet, an
     * empty QoS application name, and the node's admission label as found.
     * The EnableBE call in configK8S runs before the node name is read, so it
     * labels no node.
     */
    constructor (cfg: Config, nodeName: string, cores: int, labelled: bool)
      requires cfg.K8sMode() ==> cores != 0
      ensures Valid()
      ensures this.cfg == cfg && this.nodeName == nodeName && this.cores == cores
      ensures active == map[] && order == [] && stats == NoStats && qosApp == ""
      ensures written == map[] && killed == {} && deletedPods == {} && beEnabled == labelled
    {
      this.cfg := cfg;
      this.nodeName := nodeName;
      this.cores := cores;
      active, order, stats, qosApp := map[], [], NoStats, "";
      written, killed, deletedPods, beEnabled := map[], {}, {}, labelled;
    }

    /**
     * Rebuilds the table from the Docker listing, raising shares to the
     * floor and writing them back, and in k8s mode reclassifies by the BE
     * pods (None when that query failed) and reads the QoS application name.
     */
    method ActiveContainers(listing: seq<Listed>, bePods: Option<seq<Pod>>, qosPods: Option<seq<Pod>>)
      requires Valid()
      modifies this
      ensures Valid()
      ensures var reg := Discover(listing, bePods, cfg, nodeName);
              active == reg.active && order == reg.order && stats == reg.stats
      ensures written == old(written) + Scan(listing, cfg.minShares).raised
      ensures qosApp == if cfg.K8sMode() then QosName(qosPods, old(qosApp)) else old(qosApp)
      ensures killed == old(killed) && deletedPods == old(deletedPods) && beEnabled == old(beEnabled)
    {
      var reg := Rebuild(listing, bePods, cfg, nodeName);
      if cfg.K8sMode() {
        if qosPods.Some? && |qosPods.value| > 0 && |qosPods.value[0].containers| > 0 {
          qosApp := qosPods.value[0].containers[0].name;
        }
      }
      active, order, stats := reg.active, reg.order, reg.stats;
      written := written + reg.raised;
    }

    /**
     * The two loops of ActiveContainers that build the table: the listing
     * loop, then in k8s mode the loop over the BE pods when that query
     * succeeded.
     */
    static method Rebuild(listing: seq<Listed>, bePods: Option<seq<Pod>>, cfg: Config, node: string)
      returns (reg: Registry)
      ensures reg == Discover(listing, bePods, cfg, node)
      ensures reg.raised == Scan(listing, cfg.minShares).raised
      ensures TableOk(reg.active, reg.order, cfg.minShares)
    {
      var scan := ScanListing(listing, cfg.minShares);
      ScanTableOk(listing, cfg.minShares);
      reg := scan;
      if cfg.K8sMode() && bePods.Some? {
        reg := TagBEPods(scan, bePods.value, node);
        TagPodsShape(scan, bePods.value, node, cfg.minShares);
      }
    }

    /**
     * The loop over the BE pods of ActiveContainers: only pods scheduled on
     * this node are looked at.
     */
    static method TagBEPods(reg0: Registry, pods: seq<Pod>, node: string) returns (reg: Registry)
      ensures reg == TagPods(reg0, pods, node)
    {
      reg := reg0;
      var p := 0;
      while p < |pods|
        invariant 0 <= p <= |pods|
        invariant reg == TagPods(reg0, pods[..p], node)
      {
        if pods[p].nodeName == node {
          reg := TagStatuses(reg, pods[p]);
        }
        assert pods[..p + 1][..p] == pods[..p];
        p := p + 1;
      }
      assert pods[..p] == pods;
    }

    /**
     * The listing loop of ActiveContainers: each listed container is
     * recorded under its id with its shares raised to the floor and its
     * class read from its labels, and counted as HP or BE.
     */
    static method ScanListing(listing: seq<Listed>, minShares: int) returns (reg: Registry)
      ensures reg == Scan(listing, minShares)
    {
      var act: map<Id, Container> := map[];
      var ord: seq<Id> := [];
      var st := NoStats;
      var raised: map<Id, int> := map[];
      var i := 0;
      while i < |listing|
        invariant 0 <= i <= |listing|
        invariant Registry(act, ord, st, raised) == Scan(listing[..i], minShares)
      {
        var l := listing[i];
        ghost var next := ScanStep(Registry(act, ord, st, raised), l, minShares);
        ScanSnoc(listing, i, minShares);
        var shares := l.cpuShares;
        if shares < minShares {
          shares := minShares;
          raised := raised[l.id := shares];
        }
        var wclass := HP;
        if ClassLabel in l.labels {
          wclass := ParseClass(l.labels[ClassLabel]);
        }
        var c := Container(l.id, l.name, "", "", wclass, shares, 0.0);
        assert c == Admit(l, minShares);
        if wclass == HP {
          st := st.(hpCont := st.hpCont + 1, hpShares := st.hpShares + shares);
        } else {
          st := st.(beCont := st.beCont + 1, beShares := st.beShares + shares);
        }
        if l.id !in act {
          ord := ord + [l.id];
        }
        act := act[l.id := c];
        assert Registry(act, ord, st, raised) == next;
        i := i + 1;
      }
      assert listing[..i] == listing;
      reg := Registry(act, ord, st, raised);
    }

    /**
     * The loop over one BE pod's container statuses: a tracked HP container
     * becomes BE with the counters moved, and every tracked container listed
     * takes the pod's name and namespace.
     */
    static method TagStatuses(reg0: Registry, pod: Pod) returns (reg: Registry)
      ensures reg == TagContainers(reg0, pod, pod.containers)
    {
      reg := reg0;
      var j := 0;
      while j < |pod.containers|
        invariant 0 <= j <= |pod.containers|
        invariant reg == TagContainers(reg0, pod, pod.containers[..j])
      {
        var cid := StripScheme(pod.containers[j].containerId);
        if cid in reg.active {
          var c := reg.active[cid];
          var st := reg.stats;
          if c.wclass == HP {
            c := c.(wclass := BE);
            st := ControllerStats(st.hpCont - 1, st.beCont + 1, st.hpShares - c.shares, st.beShares + c.shares);
          }
          reg := reg.(active := reg.active[cid := c.(podName := pod.name, namespace := pod.namespace)], stats := st);
        }
        assert pod.containers[..j + 1][..j] == pod.containers[..j];
        j := j + 1;
      }
      assert pod.containers[..j] == pod.containers;
    }

    /**
     * The Docker-mode sampler: records each container's CPU percent from its
     * stats (containers without stats are skipped) and returns their sum.
     */
    method CpuStatsDocker(samples: map<Id, CpuSample>) returns (usage: real)
      requires Valid()
      modifies this
      ensures Valid()
      ensures usage == CpuTotal(order, samples)
      ensures active == RecordPercents(old(active), samples)
      ensures order == old(order) && stats == old(stats) && qosApp == old(qosApp)
      ensures written == old(written) && killed == old(killed)
      ensures deletedPods == old(deletedPods) && beEnabled == old(beEnabled)
    {
      var act;
      act, usage := SampleAll(active, order, samples);
      OverlayAll(active, RecordPercents(active, samples), order);
      assert active + RecordPercents(active, samples) == RecordPercents(active, samples);
      active := act;
    }

    /** The loop of CpuStatsDocker over the tracked containers, in iteration order. */
    static method SampleAll(table: map<Id, Container>, ids: seq<Id>, samples: map<Id, CpuSample>)
      returns (act: map<Id, Container>, usage: real)
      requires forall k :: k in ids ==> k in table
      ensures act == Overlay(table, RecordPercents(table, samples), ids)
      ensures usage == CpuTotal(ids, samples)
    {
      ghost var final := RecordPercents(table, samples);
      act := table;
      usage := 0.0;
      var i := 0;
      while i < |ids|
        invariant 0 <= i <= |ids|
        invariant usage == CpuTotal(ids[..i], samples)
        invariant act == Overlay(table, final, ids[..i])
      {
        var k := ids[i];
        if k in samples {
          var percent := CpuPercent(samples[k]);
          act := act[k := table[k].(cpuPercent := percent)];
          usage := usage + percent;
        } else {
          OverlayKeeps(table, final, ids[..i], k);
        }
        CpuTotalSnoc(ids, samples, i);
        OverlaySnoc(table, final, ids, i);
        i := i + 1;
      }
      assert ids[..i] == ids;
    }

    /** The load the policy uses: the node telemetry in k8s mode, the Docker sampler otherwise. */
    method CpuStats(samples: map<Id, CpuSample>, telemetry: NodeTelemetry) returns (usage: real)
      requires Valid()
      modifies this
      ensures Valid()
      ensures cfg.K8sMode() ==> usage == CpuStatsK8S(telemetry, cores) && active == old(active)
      ensures !cfg.K8sMode() ==> usage == CpuTotal(order, samples) && active == RecordPercents(old(active), samples)
      ensures order == old(order) && stats == old(stats) && qosApp == old(qosApp)
      ensures written == old(written) && killed == old(killed)
      ensures deletedPods == old(deletedPods) && beEnabled == old(beEnabled)
    {
      if cfg.K8sMode() {
        usage := CpuStatsK8S(telemetry, cores);
      } else {
        usage := CpuStatsDocker(samples);
      }
    }

    /** Shrinks the shares of every BE container and writes them back. */
    method ShrinkBE()
      requires Valid()
      modifies this
      ensures Valid()
      ensures active == ShrinkAll(old(active), cfg)
      ensures written == old(written) + BEShares(active)
      ensures order == old(order) && stats == old(stats) && qosApp == old(qosApp)
      ensures killed == old(killed) && deletedPods == old(deletedPods) && beEnabled == old(beEnabled)
    {
      var act, wr := ShrinkEach(active, order, written, cfg);
      OverlayAll(active, ShrinkAll(active, cfg), order);
      OverlayAll(written, BEShares(ShrinkAll(active, cfg)), order);
      assert active + ShrinkAll(active, cfg) == ShrinkAll(active, cfg);
      active := act;
      written := wr;
    }

    /** The loop of ShrinkBE over the tracked containers, in iteration order. */
    static method ShrinkEach(table: map<Id, Container>, ids: seq<Id>, written0: map<Id, int>, cfg: Config)
      returns (act: map<Id, Container>, wr: map<Id, int>)
      requires forall k :: k in ids ==> k in table
      ensures act == Overlay(table, ShrinkAll(table, cfg), ids)
      ensures wr == Overlay(written0, BEShares(ShrinkAll(table, cfg)), ids)
    {
      ghost var final := ShrinkAll(table, cfg);
      act := table;
      wr := written0;
      var i := 0;
      while i < |ids|
        invariant 0 <= i <= |ids|
        invariant act == Overlay(table, final, ids[..i])
        invariant wr == Overlay(written0, BEShares(final), ids[..i])
      {
        var k := ids[i];
        var c := table[k];
        if c.wclass == BE {
          var newShares := ShrinkShares(c.shares, cfg.shrinkRate, cfg.minShares);
          assert final[k] == ShrinkOne(c, cfg);
          assert k in BEShares(final) && BEShares(final)[k] == newShares;
          act := act[k := c.(shares := newShares)];
          wr := wr[k := newShares];
        } else {
          assert final[k] == c && k !in BEShares(final);
          OverlayKeeps(table, final, ids[..i], k);
        }
        OverlaySnoc(table, final, ids, i);
        OverlaySnoc(written0, BEShares(final), ids, i);
        i := i + 1;
      }
      assert ids[..i] == ids;
    }

    /** Grows the shares of every BE container and writes them back. */
    method GrowBE()
      requires Valid()
      modifies this
      ensures Valid()
      ensures active == GrowAll(old(active), cfg)
      ensures written == old(written) + BEShares(active)
      ensures order == old(order) && stats == old(stats) && qosApp == old(qosApp)
      ensures killed == old(killed) && deletedPods == old(deletedPods) && beEnabled == old(beEnabled)
    {
      var act, wr := GrowEach(active, order, written, cfg);
      OverlayAll(active, GrowAll(active, cfg), order);
      OverlayAll(written, BEShares(GrowAll(active, cfg)), order);
      assert active + GrowAll(active, cfg) == GrowAll(active, cfg);
      active := act;
      written := wr;
    }

    /** The loop of GrowBE over the tracked containers, in iteration order. */
    static method GrowEach(table: map<Id, Container>, ids: seq<Id>, written0: map<Id, int>, cfg: Config)
      returns (act: map<Id, Container>, wr: map<Id, int>)
      requires forall k :: k in ids ==> k in table
      ensures act == Overlay(table, GrowAll(table, cfg), ids)
      ensures wr == Overlay(written0, BEShares(GrowAll(table, cfg)), ids)
    {
      ghost var final := GrowAll(table, cfg);
      act := table;
      wr := written0;
      var i := 0;
      while i < |ids|
        invariant 0 <= i <= |ids|
        invariant act == Overlay(table, final, ids[..i])
        invariant wr == Overlay(written0, BEShares(final), ids[..i])
      {
        var k := ids[i];
        var c := table[k];
        if c.wclass == BE {
          var newShares := GrowShares(c.shares, cfg.growthRate);
          assert final[k] == GrowOne(c, cfg);
          assert k in BEShares(final) && BEShares(final)[k] == newShares;
          act := act[k := c.(shares := newShares)];
          wr := wr[k := newShares];
        } else {
          assert final[k] == c && k !in BEShares(final);
          OverlayKeeps(table, final, ids[..i], k);
        }
        OverlaySnoc(table, final, ids, i);
        OverlaySnoc(written0, BEShares(final), ids, i);
        i := i + 1;
      }
      assert ids[..i] == ids;
    }

    /**
     * Kills every BE container: deletes its pod in k8s mode, kills the
     * container otherwise; then in k8s mode disables BE admission on the node.
     */
    method DisableBE()
      requires Valid()
      modifies this
      ensures Valid()
      ensures killed == old(killed) + (if cfg.K8sMode() then {} else BETargets(active))
      ensures deletedPods == old(deletedPods) + (if cfg.K8sMode() then BEPods(active) else {})
      ensures beEnabled == (if cfg.K8sMode() then false else old(beEnabled))
      ensures active == old(active) && order == old(order) && stats == old(stats)
      ensures qosApp == old(qosApp) && written == old(written)
    {
      var kl := killed;
      var dp := deletedPods;
      var i := 0;
      while i < |order|
        invariant 0 <= i <= |order|
        invariant forall k :: k in kl <==>
                    k in killed || (!cfg.K8sMode() && k in order[..i] && active[k].wclass == BE)
        invariant forall q :: q in dp <==>
                    q in deletedPods ||
                    (cfg.K8sMode() && exists k :: k in order[..i] && active[k].wclass == BE &&
                                                   q == (active[k].podName, active[k].namespace))
      {
        var k := order[i];
        var c := active[k];
        if c.wclass == BE {
          if cfg.K8sMode() {
            dp := dp + {(c.podName, c.namespace)};
          } else {
            kl := kl + {k};
          }
        }
        assert order[..i + 1][..i] == order[..i];
        assert forall j :: j in order[..i + 1] <==> j in order[..i] || j == k;
        i := i + 1;
      }
      assert order[..i] == order;
      killed := kl;
      deletedPods := dp;
      if cfg.K8sMode() {
        beEnabled := false;
      }
    }

    /** Enables BE admission on the node (k8s mode only). */
    method EnableBE()
      requires Valid()
      modifies this
      ensures Valid()
      ensures beEnabled == (if cfg.K8sMode() then true else old(beEnabled))
      ensures active == old(active) && order == old(order) && stats == old(stats) && qosApp == old(qosApp)
      ensures written == old(written) && killed == old(killed) && deletedPods == old(deletedPods)
    {
      if cfg.K8sMode() {
        beEnabled := true;
      }
    }

    /**
     * The decision of one cycle and its effect: disable BE work, shrink,
     * grow (and re-enable admission) or only re-enable admission.
     */
    method Respond(slack: real, usage: real) returns (action: Action)
      requires Valid()
      modifies this
      ensures Valid()
      ensures action == Decide(slack, usage, cfg)
      ensures active == Adjusted(old(active), action, cfg)
      ensures written == if action == Shrink || action == Grow then old(written) + BEShares(active) else old(written)
      ensures killed == if action == Disable && !cfg.K8sMode() then old(killed) + BETargets(active) else old(killed)
      ensures deletedPods == if action == Disable && cfg.K8sMode() then old(deletedPods) + BEPods(active)
                             else old(deletedPods)
      ensures beEnabled == if !cfg.K8sMode() then old(beEnabled)
                           else if action == Disable then false
                           else if EnablesAdmission(action) then true
                           else old(beEnabled)
      ensures order == old(order) && stats == old(stats) && qosApp == old(qosApp)
    {
      if slack < 0.0 {
        action := Disable;
        DisableBE();
      } else if slack < cfg.slackShrink || usage > cfg.loadShrink {
        action := Shrink;
        ShrinkBE();
      } else if slack > cfg.slackGrow && usage < cfg.loadGrow {
        action := Grow;
        GrowBE();
        EnableBE();
      } else {
        action := Hold;
        EnableBE();
      }
    }

    /**
     * One pass of the control loop: rebuild the table, sample the load,
     * read the slack of the QoS application, then disable, shrink, grow
     * (and re-enable admission) or only re-enable admission.
     */
    method RunCycle(listing: seq<Listed>, bePods: Option<seq<Pod>>, qosPods: Option<seq<Pod>>,
                    samples: map<Id, CpuSample>, telemetry: NodeTelemetry, reply: QosResponse)
      returns (action: Action, slack: real, usage: real)
      requires Valid()
      modifies this
      ensures Valid()
      ensures var reg := Discover(listing, bePods, cfg, nodeName);
              order == reg.order && stats == reg.stats
      ensures qosApp == if cfg.K8sMode() then QosName(qosPods, old(qosApp)) else old(qosApp)
      ensures usage == if cfg.K8sMode() then CpuStatsK8S(telemetry, cores) else CpuTotal(order, samples)
      ensures slack == SloSlackIntended(qosApp, reply)
      ensures action == Decide(slack, usage, cfg)
      ensures !Untracked(qosApp, reply) ==>
                action == DecideAsWritten(SloSlackQoSDS(qosApp, reply), usage, cfg)
      ensures Untracked(qosApp, reply) ==>
                action != Disable && DecideAsWritten(SloSlackQoSDS(qosApp, reply), usage, cfg) == Disable
      ensures var found := Discover(listing, bePods, cfg, nodeName).active;
              var sampled := if cfg.K8sMode() then found else RecordPercents(found, samples);
              active == Adjusted(sampled, action, cfg)
      ensures var raised := old(written) + Scan(listing, cfg.minShares).raised;
              written == if action == Shrink || action == Grow then raised + BEShares(active) else raised
      ensures killed == if action == Disable && !cfg.K8sMode() then old(killed) + BETargets(active) else old(killed)
      ensures deletedPods == if action == Disable && cfg.K8sMode() then old(deletedPods) + BEPods(active)
                             else old(deletedPods)
      ensures beEnabled == if !cfg.K8sMode() then old(beEnabled)
                           else if action == Disable then false
                           else if EnablesAdmission(action) then true
                           else old(beEnabled)
    {
      ActiveContainers(listing, bePods, qosPods);
      usage := CpuStats(samples, telemetry);
      slack := SloSlackIntended(qosApp, reply);
      action := Respond(slack, usage);
      SloSlackAgrees(qosApp, reply);
      if Untracked(qosApp, reply) {
        UntrackedHoldsOrShrinks(qosApp, reply, usage, cfg);
        UntrackedDisablesAsWritten(qosApp, reply, usage, cfg);
      }
    }
  }
}
