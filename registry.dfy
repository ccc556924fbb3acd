/**
 * ActiveContainers: the table of running containers the controller rebuilds
 * every cycle, with the floor on shares, the class read from a label, the
 * per-class counters, and the upgrade of HP containers that a BE pod on this
 * node lists. Each step is a function over values; the loops of the
 * controller class are proved to compute these folds.
 */
module Registry {
  import opened Wrappers
  import opened Workload

  /** Per-class container counts and share sums (ControllerStats). */
  datatype ControllerStats = ControllerStats(hpCont: int, beCont: int, hpShares: int, beShares: int)

  const NoStats: ControllerStats := ControllerStats(0, 0, 0, 0)

  /** One entry of the Docker container listing: id, name, HostConfig.CpuShares and Config.Labels. */
  datatype Listed = Listed(id: Id, name: string, cpuShares: int, labels: map<string, string>)

  /** One entry of a pod's container_statuses. */
  datatype ContainerStatus = ContainerStatus(containerId: string, name: string)

  /** A pod as the orchestrator lists it. */
  datatype Pod = Pod(name: string, namespace: string, nodeName: string, containers: seq<ContainerStatus>)

  /**
   * The state ActiveContainers builds: the table keyed by container id, the
   * order in which ids were first inserted, the counters, and the share
   * values written back to Docker because they were below the floor.
   */
  datatype Registry = Registry(
    active: map<Id, Container>,
    order: seq<Id>,
    stats: ControllerStats,
    raised: map<Id, int>)

  const EmptyRegistry: Registry := Registry(map[], [], NoStats, map[])

  /** The record made for one listed container: shares raised to the floor, class from its label. */
  function Admit(l: Listed, minShares: int): (c: Container)
    ensures c.id == l.id && c.name == l.name
    ensures c.wclass == ClassFromLabels(l.labels)
    ensures c.shares >= minShares
    ensures l.cpuShares >= minShares ==> c.shares == l.cpuShares
    ensures l.cpuShares < minShares ==> c.shares == minShares
    ensures c.podName == "" && c.namespace == "" && c.cpuPercent == 0.0
  {
    Container(l.id, l.name, "", "", ClassFromLabels(l.labels),
              if l.cpuShares < minShares then minShares else l.cpuShares, 0.0)
  }

  /** What one container adds to the counters: any class other than exactly HP counts as BE. */
  function Contrib(c: Container): ControllerStats {
    if c.wclass == HP then ControllerStats(1, 0, c.shares, 0)
    else ControllerStats(0, 1, 0, c.shares)
  }

  function Plus(a: ControllerStats, b: ControllerStats): ControllerStats {
    ControllerStats(a.hpCont + b.hpCont, a.beCont + b.beCont, a.hpShares + b.hpShares, a.beShares + b.beShares)
  }

  function Minus(a: ControllerStats, b: ControllerStats): ControllerStats {
    ControllerStats(a.hpCont - b.hpCont, a.beCont - b.beCont, a.hpShares - b.hpShares, a.beShares - b.beShares)
  }

  /** One iteration of the listing loop. */
  function ScanStep(reg: Registry, l: Listed, minShares: int): (r: Registry)
    ensures l.id in r.active && r.active[l.id] == Admit(l, minShares)
  {
    var c := Admit(l, minShares);
    Registry(
      reg.active[l.id := c],
      if l.id in reg.active then reg.order else reg.order + [l.id],
      Plus(reg.stats, Contrib(c)),
      if l.cpuShares < minShares then reg.raised[l.id := minShares] else reg.raised)
  }

  /** The listing loop over a prefix of the listing. */
  function Scan(listing: seq<Listed>, minShares: int): (r: Registry)
  {
    if |listing| == 0 then EmptyRegistry
    else ScanStep(Scan(listing[..|listing| - 1], minShares), listing[|listing| - 1], minShares)
  }

  /** A pod status id with the scheme cut off names the container again. */
  lemma StripSchemeRoundTrip(id: Id)
    ensures StripScheme(DockerScheme + id) == id
  {
    assert (DockerScheme + id)[|DockerScheme|..] == id;
  }

  /** The listing loop over one more entry of the listing. */
  lemma ScanSnoc(listing: seq<Listed>, i: nat, minShares: int)
    requires i < |listing|
    ensures Scan(listing[..i + 1], minShares) == ScanStep(Scan(listing[..i], minShares), listing[i], minShares)
  {
    assert listing[..i + 1][..i] == listing[..i];
  }

  predicate DistinctIds(listing: seq<Listed>) {
    forall i, j :: 0 <= i < j < |listing| ==> listing[i].id != listing[j].id
  }

  predicate Distinct(ids: seq<Id>) {
    forall i, j :: 0 <= i < j < |ids| ==> ids[i] != ids[j]
  }

  /**
   * The shape of the table: the order lists every key exactly once, each
   * record sits under its own id, and every share weight is at the floor or
   * above.
   */
  ghost predicate TableOk(active: map<Id, Container>, order: seq<Id>, minShares: int) {
    && Distinct(order)
    && (forall k :: k in active <==> k in order)
    && (forall k :: k in active ==> active[k].id == k && active[k].shares >= minShares)
  }

  /** The sum of the share weights of the listed ids the table holds. */
  function TotalShares(m: map<Id, Container>, ids: seq<Id>): int {
    if |ids| == 0 then 0
    else
      var k := ids[|ids| - 1];
      TotalShares(m, ids[..|ids| - 1]) + if k in m then m[k].shares else 0
  }

  /** The counters recomputed from the records of the listed ids the table holds. */
  function Tally(m: map<Id, Container>, ids: seq<Id>): ControllerStats {
    if |ids| == 0 then NoStats
    else
      var k := ids[|ids| - 1];
      Plus(Tally(m, ids[..|ids| - 1]), if k in m then Contrib(m[k]) else NoStats)
  }

  /** The listing loop keeps the table well shaped and every share at the floor. */
  lemma {:induction false} ScanTableOk(listing: seq<Listed>, minShares: int)
    ensures var reg := Scan(listing, minShares); TableOk(reg.active, reg.order, minShares)
  {
    if |listing| > 0 {
      ScanTableOk(listing[..|listing| - 1], minShares);
    }
  }

  /**
   * The counters count every listed container once and sum the share
   * weights recorded for them.
   */
  lemma {:induction false} ScanTotals(listing: seq<Listed>, minShares: int)
    ensures var st := Scan(listing, minShares).stats;
            st.hpCont + st.beCont == |listing| && st.hpShares + st.beShares == SumAdmitted(listing, minShares)
  {
    if |listing| > 0 {
      var prefix := listing[..|listing| - 1];
      ScanTotals(prefix, minShares);
      var c := Admit(listing[|listing| - 1], minShares);
      assert Scan(listing, minShares).stats == Plus(Scan(prefix, minShares).stats, Contrib(c));
    }
  }

  /** The sum of the share weights of the listed containers, each raised to the floor. */
  function SumAdmitted(listing: seq<Listed>, minShares: int): int {
    if |listing| == 0 then 0
    else SumAdmitted(listing[..|listing| - 1], minShares) + Admit(listing[|listing| - 1], minShares).shares
  }

  /** Tally depends only on the records of the ids it sums over. */
  lemma {:induction false} TallyFrame(m: map<Id, Container>, m': map<Id, Container>, ids: seq<Id>)
    requires forall i :: 0 <= i < |ids| ==> (ids[i] in m <==> ids[i] in m') && (ids[i] in m ==> m[ids[i]] == m'[ids[i]])
    ensures Tally(m, ids) == Tally(m', ids)
    ensures TotalShares(m, ids) == TotalShares(m', ids)
  {
    if |ids| > 0 {
      TallyFrame(m, m', ids[..|ids| - 1]);
    }
  }

  /** The counters over the table hold the container count and the share sum. */
  lemma {:induction false} TallyTotals(m: map<Id, Container>, ids: seq<Id>)
    requires forall i :: 0 <= i < |ids| ==> ids[i] in m
    ensures Tally(m, ids).hpCont + Tally(m, ids).beCont == |ids|
    ensures Tally(m, ids).hpShares + Tally(m, ids).beShares == TotalShares(m, ids)
  {
    if |ids| > 0 {
      var n := |ids| - 1;
      var prefix := ids[..n];
      assert forall i :: 0 <= i < n ==> prefix[i] in m by {
        forall i | 0 <= i < n ensures prefix[i] in m {
          assert prefix[i] == ids[i];
        }
      }
      TallyTotals(m, prefix);
      var k := ids[n];
      assert k in m;
      var t := Tally(m, prefix);
      assert Tally(m, ids) == Plus(t, Contrib(m[k]));
      assert TotalShares(m, ids) == TotalShares(m, prefix) + m[k].shares;
    } else {
      assert Tally(m, ids) == NoStats && TotalShares(m, ids) == 0;
    }
  }

  /** Replacing the record of an id listed once changes the tally by the difference of contributions. */
  lemma {:induction false} TallyReplace(m: map<Id, Container>, ids: seq<Id>, k: Id, c: Container)
    requires Distinct(ids)
    requires forall i :: 0 <= i < |ids| ==> ids[i] in m
    requires k in ids
    ensures Tally(m[k := c], ids) == Plus(Minus(Tally(m, ids), Contrib(m[k])), Contrib(c))
  {
    var n := |ids| - 1;
    var prefix := ids[..n];
    if ids[n] == k {
      assert k !in prefix by {
        forall i | 0 <= i < n ensures prefix[i] != k {
          assert ids[i] != ids[n];
        }
      }
      TallyFrame(m, m[k := c], prefix);
    } else {
      assert k in prefix by {
        var i :| 0 <= i < |ids| && ids[i] == k;
        assert i < n && prefix[i] == k;
      }
      TallyReplace(m, prefix, k, c);
    }
  }

  /** Appending a fresh container to the table and the order adds its contribution to the tally. */
  lemma TallyAppend(prev: Registry, l: Listed, minShares: int)
    requires l.id !in prev.active
    requires forall i :: 0 <= i < |prev.order| ==> prev.order[i] in prev.active
    requires prev.stats == Tally(prev.active, prev.order)
    ensures var reg := ScanStep(prev, l, minShares);
            && |reg.order| == |prev.order| + 1
            && (forall i :: 0 <= i < |reg.order| ==> reg.order[i] in reg.active)
            && reg.stats == Tally(reg.active, reg.order)
  {
    var reg := ScanStep(prev, l, minShares);
    assert reg.order == prev.order + [l.id];
    assert reg.order[..|reg.order| - 1] == prev.order;
    TallyFrame(prev.active, reg.active, prev.order);
  }

  /** Dropping the last container keeps the ids distinct, and its id is then not among the rest. */
  lemma DistinctPrefix(listing: seq<Listed>, n: int)
    requires DistinctIds(listing) && n == |listing| - 1 >= 0
    ensures DistinctIds(listing[..n])
    ensures forall i :: 0 <= i < n ==> listing[..n][i].id != listing[n].id
  {
    forall i, j | 0 <= i < j < n ensures listing[..n][i].id != listing[..n][j].id {
      assert listing[i].id != listing[j].id;
    }
    forall i | 0 <= i < n ensures listing[..n][i].id != listing[n].id {
      assert listing[i].id != listing[n].id;
    }
  }

  /**
   * With distinct ids in the listing, every listed container gets its own
   * entry, so the counters are exactly the tally of the table.
   */
  lemma {:induction false} ScanTally(listing: seq<Listed>, minShares: int)
    requires DistinctIds(listing)
    ensures var reg := Scan(listing, minShares);
            && |reg.order| == |reg.active| == |listing|
            && (forall i :: 0 <= i < |reg.order| ==> reg.order[i] in reg.active)
            && reg.stats == Tally(reg.active, reg.order)
  {
    var reg := Scan(listing, minShares);
    ScanTableOk(listing, minShares);
    if |listing| > 0 {
      var n := |listing| - 1;
      var prev := Scan(listing[..n], minShares);
      DistinctPrefix(listing, n);
      ScanTally(listing[..n], minShares);
      ScanFresh(listing[..n], minShares, listing[n].id);
      assert reg == ScanStep(prev, listing[n], minShares);
      TallyAppend(prev, listing[n], minShares);
    }
    OrderCardinality(reg.active, reg.order);
  }

  /** No later entry of the listing has the same id as entry i. */
  predicate LastEntry(listing: seq<Listed>, i: int)
    requires 0 <= i < |listing|
  {
    forall j :: i < j < |listing| ==> listing[j].id != listing[i].id
  }

  /**
   * The record the listing loop keeps for each listed container is Admit of
   * the last entry that lists its id: class from the labels, shares raised
   * to the floor, its name and id.
   */
  lemma {:induction false} ScanRecords(listing: seq<Listed>, minShares: int)
    ensures var reg := Scan(listing, minShares);
            forall i :: 0 <= i < |listing| && LastEntry(listing, i) ==>
              listing[i].id in reg.active && reg.active[listing[i].id] == Admit(listing[i], minShares)
  {
    if |listing| > 0 {
      var n := |listing| - 1;
      var prev := Scan(listing[..n], minShares);
      ScanRecords(listing[..n], minShares);
      forall i | 0 <= i < |listing| && LastEntry(listing, i)
        ensures listing[i].id in Scan(listing, minShares).active
        ensures Scan(listing, minShares).active[listing[i].id] == Admit(listing[i], minShares)
      {
        if i < n {
          assert listing[n].id != listing[i].id;
          assert listing[..n][i] == listing[i];
          assert LastEntry(listing[..n], i) by {
            forall j | i < j < n ensures listing[..n][j].id != listing[..n][i].id {
              assert listing[..n][j] == listing[j];
            }
          }
        }
      }
    }
  }

  /** With distinct ids, every listed container is recorded as Admit admits it. */
  lemma ScanRecordsDistinct(listing: seq<Listed>, minShares: int)
    requires DistinctIds(listing)
    ensures var reg := Scan(listing, minShares);
            forall i :: 0 <= i < |listing| ==>
              listing[i].id in reg.active && reg.active[listing[i].id] == Admit(listing[i], minShares)
  {
    ScanRecords(listing, minShares);
    forall i | 0 <= i < |listing| ensures LastEntry(listing, i) {
    }
  }

  /** An id that no listed container carries has no entry in the table. */
  lemma {:induction false} ScanFresh(listing: seq<Listed>, minShares: int, id: Id)
    requires forall i :: 0 <= i < |listing| ==> listing[i].id != id
    ensures id !in Scan(listing, minShares).active
  {
    if |listing| > 0 {
      var n := |listing| - 1;
      assert forall i :: 0 <= i < n ==> listing[..n][i].id != id by {
        forall i | 0 <= i < n ensures listing[..n][i].id != id {
          assert listing[..n][i] == listing[i];
        }
      }
      ScanFresh(listing[..n], minShares, id);
    }
  }

  /** Dropping the last id of a distinct order keeps it distinct, and that id is not among the rest. */
  lemma DistinctDrop(order: seq<Id>, n: int)
    requires Distinct(order) && n == |order| - 1 >= 0
    ensures Distinct(order[..n])
    ensures order[n] !in order[..n]
    ensures order == order[..n] + [order[n]]
  {
    forall i | 0 <= i < n ensures order[..n][i] != order[n] {
      assert order[i] != order[n];
    }
  }

  /** A set listed exactly by a distinct sequence has as many elements as the sequence. */
  lemma {:induction false} DistinctCard(s: set<Id>, order: seq<Id>)
    requires Distinct(order)
    requires forall k :: k in s <==> k in order
    ensures |s| == |order|
  {
    if |order| == 0 {
      assert s == {};
    } else {
      var n := |order| - 1;
      var k := order[n];
      DistinctDrop(order, n);
      assert forall j :: j in s - {k} <==> j in order[..n];
      DistinctCard(s - {k}, order[..n]);
    }
  }

  /** A distinct order covering exactly the keys has as many entries as the table. */
  lemma OrderCardinality(m: map<Id, Container>, order: seq<Id>)
    requires Distinct(order)
    requires forall k :: k in m <==> k in order
    ensures |m| == |order|
  {
    DistinctCard(m.Keys, order);
  }

  /** The k8s pod listing prefixes container ids with the scheme "docker://". */
  const DockerScheme: string := "docker://"

  /** The container id a pod status names, with the scheme's length cut off as the source slices it. */
  function StripScheme(containerId: string): (cid: string)
    ensures |cid| == if |containerId| >= |DockerScheme| then |containerId| - |DockerScheme| else 0
  {
    if |containerId| >= |DockerScheme| then containerId[|DockerScheme|..] else ""
  }

  /**
   * One container id listed under a BE pod on this node: a tracked HP
   * container is upgraded to BE with the counters adjusted, and every
   * tracked container so listed is annotated with the pod's name and namespace.
   */
  function Tag(reg: Registry, pod: Pod, cid: Id): (r: Registry)
    ensures r.active.Keys == reg.active.Keys && r.order == reg.order && r.raised == reg.raised
    ensures cid in reg.active ==>
              && r.active[cid].podName == pod.name && r.active[cid].namespace == pod.namespace
              && r.active[cid].wclass == (if reg.active[cid].wclass == HP then BE else reg.active[cid].wclass)
    ensures cid !in reg.active ==> r == reg
  {
    if cid in reg.active then
      var c := reg.active[cid];
      var st := if c.wclass == HP then ControllerStats(reg.stats.hpCont - 1, reg.stats.beCont + 1,
                                                       reg.stats.hpShares - c.shares, reg.stats.beShares + c.shares)
                else reg.stats;
      var c' := c.(wclass := if c.wclass == HP then BE else c.wclass, podName := pod.name, namespace := pod.namespace);
      reg.(active := reg.active[cid := c'], stats := st)
    else reg
  }

  /** The inner loop over one pod's container statuses. */
  function TagContainers(reg: Registry, pod: Pod, cs: seq<ContainerStatus>): (r: Registry)
    ensures r.active.Keys == reg.active.Keys && r.order == reg.order && r.raised == reg.raised
  {
    if |cs| == 0 then reg
    else Tag(TagContainers(reg, pod, cs[..|cs| - 1]), pod, StripScheme(cs[|cs| - 1].containerId))
  }

  /** One pod: only pods scheduled on this node are looked at. */
  function TagPod(reg: Registry, pod: Pod, node: string): (r: Registry)
    ensures r.active.Keys == reg.active.Keys && r.order == reg.order && r.raised == reg.raised
    ensures pod.nodeName != node ==> r == reg
  {
    if pod.nodeName == node then TagContainers(reg, pod, pod.containers) else reg
  }

  /** The outer loop over the BE pods. */
  function TagPods(reg: Registry, pods: seq<Pod>, node: string): (r: Registry)
    ensures r.active.Keys == reg.active.Keys && r.order == reg.order && r.raised == reg.raised
  {
    if |pods| == 0 then reg
    else TagPod(TagPods(reg, pods[..|pods| - 1], node), pods[|pods| - 1], node)
  }

  /** True when some status of the sequence names the container id. */
  predicate ListedIn(k: Id, cs: seq<ContainerStatus>) {
    exists j :: 0 <= j < |cs| && StripScheme(cs[j].containerId) == k
  }

  /** True when some BE pod on this node lists the container id. */
  predicate ListedOnNode(k: Id, pods: seq<Pod>, node: string) {
    exists i :: 0 <= i < |pods| && pods[i].nodeName == node && ListedIn(k, pods[i].containers)
  }

  /** The class after reclassification: HP becomes BE when listed, nothing else changes class. */
  function Upgraded(w: WClass, listed: bool): (w': WClass)
    ensures w' == w || (w == HP && w' == BE)
  {
    if w == HP && listed then BE else w
  }

  /**
   * What reclassification keeps: the keys, the order, the raised values,
   * every share weight, id, name and CPU percent; and each class is either
   * kept or upgraded from HP to BE; the counters' totals are unchanged.
   */
  predicate Reclassified(before: Registry, after: Registry) {
    && after.active.Keys == before.active.Keys
    && after.order == before.order
    && after.raised == before.raised
    && after.stats.hpCont + after.stats.beCont == before.stats.hpCont + before.stats.beCont
    && after.stats.hpShares + after.stats.beShares == before.stats.hpShares + before.stats.beShares
    && forall k :: k in before.active ==>
         && after.active[k].id == before.active[k].id
         && after.active[k].name == before.active[k].name
         && after.active[k].shares == before.active[k].shares
         && after.active[k].cpuPercent == before.active[k].cpuPercent
         && (after.active[k].wclass == before.active[k].wclass ||
             (before.active[k].wclass == HP && after.active[k].wclass == BE))
  }

  lemma ReclassifiedTransitive(a: Registry, b: Registry, c: Registry)
    requires Reclassified(a, b) && Reclassified(b, c)
    ensures Reclassified(a, c)
  {
  }

  /** One Tag step: only the named container changes, and the counters stay the tally. */
  lemma TagStep(reg: Registry, pod: Pod, cid: Id, minShares: int)
    ensures var r := Tag(reg, pod, cid);
            && Reclassified(reg, r)
            && (forall k :: k in reg.active ==> r.active[k].wclass == Upgraded(reg.active[k].wclass, k == cid))
            && (forall k :: k in reg.active && k != cid ==> r.active[k] == reg.active[k])
            && (TableOk(reg.active, reg.order, minShares) ==> TableOk(r.active, r.order, minShares))
  {
  }

  /** One Tag step keeps the counters equal to the tally of the table. */
  lemma TagStepTally(reg: Registry, pod: Pod, cid: Id, minShares: int)
    requires TableOk(reg.active, reg.order, minShares)
    requires reg.stats == Tally(reg.active, reg.order)
    ensures var r := Tag(reg, pod, cid); r.stats == Tally(r.active, r.order)
  {
    if cid in reg.active {
      var r := Tag(reg, pod, cid);
      assert forall i :: 0 <= i < |reg.order| ==> reg.order[i] in reg.active;
      TallyReplace(reg.active, reg.order, cid, r.active[cid]);
    }
  }

  /** Listing in a sequence extended by one status. */
  lemma ListedInSnoc(k: Id, cs: seq<ContainerStatus>)
    requires |cs| > 0
    ensures ListedIn(k, cs) <==>
              ListedIn(k, cs[..|cs| - 1]) || k == StripScheme(cs[|cs| - 1].containerId)
  {
    var n := |cs| - 1;
    if ListedIn(k, cs[..n]) {
      var j :| 0 <= j < n && StripScheme(cs[..n][j].containerId) == k;
      assert StripScheme(cs[j].containerId) == k;
    }
    if ListedIn(k, cs) && k != StripScheme(cs[n].containerId) {
      var j :| 0 <= j < |cs| && StripScheme(cs[j].containerId) == k;
      assert j < n && cs[..n][j] == cs[j];
    }
  }

  /** The inner loop keeps the shape of the table and only reclassifies. */
  lemma {:induction false} TagContainersShape(reg: Registry, pod: Pod, cs: seq<ContainerStatus>, minShares: int)
    ensures Reclassified(reg, TagContainers(reg, pod, cs))
    ensures TableOk(reg.active, reg.order, minShares) ==>
              var r := TagContainers(reg, pod, cs); TableOk(r.active, r.order, minShares)
  {
    if |cs| > 0 {
      var n := |cs| - 1;
      var mid := TagContainers(reg, pod, cs[..n]);
      TagContainersShape(reg, pod, cs[..n], minShares);
      TagStep(mid, pod, StripScheme(cs[n].containerId), minShares);
      ReclassifiedTransitive(reg, mid, TagContainers(reg, pod, cs));
    }
  }

  /**
   * The inner loop, container by container: a tracked container it lists
   * goes from HP to BE (other classes stay), one it does not list keeps its
   * whole record.
   */
  lemma {:induction false} TagContainersClasses(reg: Registry, pod: Pod, cs: seq<ContainerStatus>)
    ensures var r := TagContainers(reg, pod, cs);
            && r.active.Keys == reg.active.Keys
            && (forall k :: k in reg.active ==> r.active[k].wclass == Upgraded(reg.active[k].wclass, ListedIn(k, cs)))
            && (forall k :: k in reg.active && !ListedIn(k, cs) ==> r.active[k] == reg.active[k])
  {
    if |cs| > 0 {
      var n := |cs| - 1;
      var mid := TagContainers(reg, pod, cs[..n]);
      TagContainersClasses(reg, pod, cs[..n]);
      var cid := StripScheme(cs[n].containerId);
      var r := Tag(mid, pod, cid);
      assert r == TagContainers(reg, pod, cs);
      forall k | k in reg.active
        ensures r.active[k].wclass == Upgraded(reg.active[k].wclass, ListedIn(k, cs))
        ensures !ListedIn(k, cs) ==> r.active[k] == reg.active[k]
      {
        ListedInSnoc(k, cs);
        if k != cid {
          assert r.active[k] == mid.active[k];
        }
      }
    }
  }

  /** The inner loop keeps the counters equal to the tally of the table. */
  lemma {:induction false} TagContainersTally(reg: Registry, pod: Pod, cs: seq<ContainerStatus>, minShares: int)
    requires TableOk(reg.active, reg.order, minShares)
    requires reg.stats == Tally(reg.active, reg.order)
    ensures var r := TagContainers(reg, pod, cs); r.stats == Tally(r.active, r.order)
  {
    if |cs| > 0 {
      var n := |cs| - 1;
      var mid := TagContainers(reg, pod, cs[..n]);
      TagContainersTally(reg, pod, cs[..n], minShares);
      TagContainersShape(reg, pod, cs[..n], minShares);
      TagStepTally(mid, pod, StripScheme(cs[n].containerId), minShares);
    }
  }

  /** The outer loop keeps the shape of the table and only reclassifies. */
  lemma {:induction false} TagPodsShape(reg: Registry, pods: seq<Pod>, node: string, minShares: int)
    ensures Reclassified(reg, TagPods(reg, pods, node))
    ensures TableOk(reg.active, reg.order, minShares) ==>
              var r := TagPods(reg, pods, node); TableOk(r.active, r.order, minShares)
  {
    if |pods| > 0 {
      var n := |pods| - 1;
      var mid := TagPods(reg, pods[..n], node);
      TagPodsShape(reg, pods[..n], node, minShares);
      if pods[n].nodeName == node {
        TagContainersShape(mid, pods[n], pods[n].containers, minShares);
        ReclassifiedTransitive(reg, mid, TagPods(reg, pods, node));
      }
    }
  }

  /** Listing on the node for a pod sequence extended by one pod. */
  lemma ListedOnNodeSnoc(k: Id, pods: seq<Pod>, node: string)
    requires |pods| > 0
    ensures var p := pods[|pods| - 1];
            ListedOnNode(k, pods, node) <==>
              ListedOnNode(k, pods[..|pods| - 1], node) || (p.nodeName == node && ListedIn(k, p.containers))
  {
    var n := |pods| - 1;
    var p := pods[n];
    if ListedOnNode(k, pods[..n], node) {
      var i :| 0 <= i < n && pods[..n][i].nodeName == node && ListedIn(k, pods[..n][i].containers);
      assert pods[i] == pods[..n][i];
    }
    if ListedOnNode(k, pods, node) && !(p.nodeName == node && ListedIn(k, p.containers)) {
      var i :| 0 <= i < |pods| && pods[i].nodeName == node && ListedIn(k, pods[i].containers);
      assert i < n && pods[..n][i] == pods[i];
    }
  }

  /**
   * The whole reclassification: a tracked container that some BE pod on
   * this node lists goes from HP to BE, every other container keeps its
   * whole record. Pods on another node and ids the table does not hold have
   * no effect.
   */
  lemma {:induction false} TagPodsClasses(reg: Registry, pods: seq<Pod>, node: string)
    ensures var r := TagPods(reg, pods, node);
            && r.active.Keys == reg.active.Keys
            && (forall k :: k in reg.active ==>
                  r.active[k].wclass == Upgraded(reg.active[k].wclass, ListedOnNode(k, pods, node)))
            && (forall k :: k in reg.active && !ListedOnNode(k, pods, node) ==> r.active[k] == reg.active[k])
  {
    if |pods| > 0 {
      var n := |pods| - 1;
      var mid := TagPods(reg, pods[..n], node);
      TagPodsClasses(reg, pods[..n], node);
      var p := pods[n];
      forall k | k in reg.active
        ensures ListedOnNode(k, pods, node) <==>
                  ListedOnNode(k, pods[..n], node) || (p.nodeName == node && ListedIn(k, p.containers))
      {
        ListedOnNodeSnoc(k, pods, node);
      }
      if p.nodeName == node {
        TagContainersClasses(mid, p, p.containers);
      }
    }
  }

  /** The last BE pod on this node that lists the container id, if any. */
  function LastListing(k: Id, pods: seq<Pod>, node: string): Option<Pod> {
    if |pods| == 0 then None
    else
      var last := pods[|pods| - 1];
      if last.nodeName == node && ListedIn(k, last.containers) then Some(last)
      else LastListing(k, pods[..|pods| - 1], node)
  }

  /** There is such a pod exactly when some BE pod on this node lists the id, and it is one of them. */
  lemma {:induction false} LastListingFound(k: Id, pods: seq<Pod>, node: string)
    ensures LastListing(k, pods, node).Some? <==> ListedOnNode(k, pods, node)
    ensures LastListing(k, pods, node).Some? ==>
              var p := LastListing(k, pods, node).value;
              p in pods && p.nodeName == node && ListedIn(k, p.containers)
  {
    if |pods| > 0 {
      var n := |pods| - 1;
      LastListingFound(k, pods[..n], node);
      ListedOnNodeSnoc(k, pods, node);
      assert pods == pods[..n] + [pods[n]];
    }
  }

  /** Every tracked container one pod lists takes that pod's name and namespace. */
  lemma {:induction false} TagContainersPods(reg: Registry, pod: Pod, cs: seq<ContainerStatus>)
    ensures TagContainers(reg, pod, cs).active.Keys == reg.active.Keys
    ensures var r := TagContainers(reg, pod, cs);
            forall k :: k in reg.active && ListedIn(k, cs) ==>
              r.active[k].podName == pod.name && r.active[k].namespace == pod.namespace
  {
    TagContainersClasses(reg, pod, cs);
    if |cs| > 0 {
      var n := |cs| - 1;
      var mid := TagContainers(reg, pod, cs[..n]);
      var cid := StripScheme(cs[n].containerId);
      TagContainersPods(reg, pod, cs[..n]);
      TagContainersClasses(reg, pod, cs[..n]);
      TagStep(mid, pod, cid, 0);
      forall k | k in reg.active && ListedIn(k, cs)
        ensures TagContainers(reg, pod, cs).active[k].podName == pod.name
        ensures TagContainers(reg, pod, cs).active[k].namespace == pod.namespace
      {
        ListedInSnoc(k, cs);
      }
    }
  }

  /**
   * The pod a tracked container is annotated with: the last BE pod on this
   * node that lists it, since each listing pod overwrites the annotation.
   */
  lemma {:induction false} TagPodsPods(reg: Registry, pods: seq<Pod>, node: string)
    ensures TagPods(reg, pods, node).active.Keys == reg.active.Keys
    ensures var r := TagPods(reg, pods, node);
            forall k :: k in reg.active && LastListing(k, pods, node).Some? ==>
              && r.active[k].podName == LastListing(k, pods, node).value.name
              && r.active[k].namespace == LastListing(k, pods, node).value.namespace
  {
    TagPodsClasses(reg, pods, node);
    if |pods| > 0 {
      var n := |pods| - 1;
      var mid := TagPods(reg, pods[..n], node);
      var p := pods[n];
      TagPodsPods(reg, pods[..n], node);
      TagPodsClasses(reg, pods[..n], node);
      if p.nodeName == node {
        TagContainersPods(mid, p, p.containers);
        TagContainersClasses(mid, p, p.containers);
      }
    }
  }

  /** The outer loop keeps the counters equal to the tally of the table. */
  lemma {:induction false} TagPodsTally(reg: Registry, pods: seq<Pod>, node: string, minShares: int)
    requires TableOk(reg.active, reg.order, minShares)
    requires reg.stats == Tally(reg.active, reg.order)
    ensures var r := TagPods(reg, pods, node); r.stats == Tally(r.active, r.order)
  {
    if |pods| > 0 {
      var n := |pods| - 1;
      var mid := TagPods(reg, pods[..n], node);
      TagPodsTally(reg, pods[..n], node, minShares);
      TagPodsShape(reg, pods[..n], node, minShares);
      if pods[n].nodeName == node {
        TagContainersTally(mid, pods[n], pods[n].containers, minShares);
      }
    }
  }

  /**
   * The table ActiveContainers returns: the listing scan, then in k8s mode,
   * when the BE pod query succeeded, the reclassification by those pods.
   */
  function Discover(listing: seq<Listed>, bePods: Option<seq<Pod>>, cfg: Config, node: string): (r: Registry)
    ensures var scan := Scan(listing, cfg.minShares);
            r.active.Keys == scan.active.Keys && r.order == scan.order && r.raised == scan.raised
  {
    var reg := Scan(listing, cfg.minShares);
    if cfg.K8sMode() && bePods.Some? then TagPods(reg, bePods.value, node) else reg
  }

  /**
   * What ActiveContainers guarantees: the order lists each tracked id once
   * and every share weight is at the floor; the counters count every listed
   * container and sum their recorded shares (the reclassification keeps both
   * totals); the orchestrator only upgrades HP to BE and only for containers
   * a BE pod on this node lists, which then carry the name and namespace of
   * the last such pod; and with distinct listed ids the table has one record
   * per listed container and the counters are its tally.
   */
  lemma DiscoverProperties(listing: seq<Listed>, bePods: Option<seq<Pod>>, cfg: Config, node: string)
    ensures var reg := Discover(listing, bePods, cfg, node);
            && TableOk(reg.active, reg.order, cfg.minShares)
            && reg.stats.hpCont + reg.stats.beCont == |listing|
            && reg.stats.hpShares + reg.stats.beShares == SumAdmitted(listing, cfg.minShares)
            && Reclassified(Scan(listing, cfg.minShares), reg)
            && (DistinctIds(listing) ==> |reg.active| == |listing| && reg.stats == Tally(reg.active, reg.order))
    ensures var scan := Scan(listing, cfg.minShares);
            forall i :: 0 <= i < |listing| && LastEntry(listing, i) ==>
              listing[i].id in scan.active && scan.active[listing[i].id] == Admit(listing[i], cfg.minShares)
    ensures var scan := Scan(listing, cfg.minShares);
            var reg := Discover(listing, bePods, cfg, node);
            cfg.K8sMode() && bePods.Some? ==>
              forall k :: k in scan.active ==>
                reg.active[k].wclass == Upgraded(scan.active[k].wclass, ListedOnNode(k, bePods.value, node))
    ensures var scan := Scan(listing, cfg.minShares);
            var reg := Discover(listing, bePods, cfg, node);
            cfg.K8sMode() && bePods.Some? ==>
              forall k :: k in scan.active ==>
                && (LastListing(k, bePods.value, node).Some? ==>
                      && reg.active[k].podName == LastListing(k, bePods.value, node).value.name
                      && reg.active[k].namespace == LastListing(k, bePods.value, node).value.namespace)
                && (!ListedOnNode(k, bePods.value, node) ==> reg.active[k] == scan.active[k])
    ensures var scan := Scan(listing, cfg.minShares);
            !(cfg.K8sMode() && bePods.Some?) ==> Discover(listing, bePods, cfg, node) == scan
  {
    var scan := Scan(listing, cfg.minShares);
    ScanTableOk(listing, cfg.minShares);
    ScanTotals(listing, cfg.minShares);
    ScanRecords(listing, cfg.minShares);
    if DistinctIds(listing) {
      ScanTally(listing, cfg.minShares);
    }
    if cfg.K8sMode() && bePods.Some? {
      TagPodsShape(scan, bePods.value, node, cfg.minShares);
      TagPodsClasses(scan, bePods.value, node);
      TagPodsPods(scan, bePods.value, node);
      if DistinctIds(listing) {
        TagPodsTally(scan, bePods.value, node, cfg.minShares);
      }
    }
  }

  /**
   * The QoS application name: the name of the first container of the first
   * pod the QoS label selector returns; unchanged when the query failed or
   * found no pod or no container.
   */
  function QosName(qosPods: Option<seq<Pod>>, current: string): (name: string)
    ensures name != current ==>
              qosPods.Some? && |qosPods.value| > 0 && |qosPods.value[0].containers| > 0
    ensures qosPods.Some? && |qosPods.value| > 0 && |qosPods.value[0].containers| > 0 ==>
              name == qosPods.value[0].containers[0].name
  {
    if qosPods.Some? && |qosPods.value| > 0 && |qosPods.value[0].containers| > 0
    then qosPods.value[0].containers[0].name
    else current
  }
}
