/**
 * ShrinkBE and GrowBE: the share arithmetic applied to one container, the
 * same applied to every BE container of the table, and the selection of the
 * containers DisableBE kills.
 */
module ShareAdjuster {
  import opened Workload

  /** Python's int() on a float: truncation toward zero. */
  function Trunc(x: real): (r: int)
    ensures 0.0 <= x ==> r as real <= x < r as real + 1.0
    ensures x < 0.0 ==> r as real - 1.0 < x <= r as real
  {
    if 0.0 <= x then x.Floor else -((-x).Floor)
  }

  lemma TruncIsFloor(x: real)
    requires 0.0 <= x
    ensures Trunc(x) == x.Floor
  {
  }

  /**
   * The new share weight of a BE container when shrinking: rate * shares
   * truncated; the half when that does not move; never below minShares.
   */
  function ShrinkShares(s: int, rate: real, minShares: int): (r: int)
    ensures r >= minShares
  {
    var v := Trunc(rate * s as real);
    var v' := if v == s then s / 2 else v;
    if v' < minShares then minShares else v'
  }

  /**
   * The new share weight of a BE container when growing: rate * shares
   * truncated; the double when that does not move.
   */
  function GrowShares(s: int, rate: real): (r: int)
    ensures s != 0 ==> r != s
  {
    var v := Trunc(rate * s as real);
    if v == s then 2 * s else v
  }

  /**
   * For non-negative rate and shares, the shrink result is the larger of
   * minShares and floor(rate * s), or of minShares and s / 2 when the floor
   * equals s.
   */
  lemma ShrinkFloorForm(s: int, rate: real, minShares: int)
    requires 0 <= s && 0.0 <= rate
    ensures var f := (rate * s as real).Floor;
            var v := if f == s then s / 2 else f;
            ShrinkShares(s, rate, minShares) == if v < minShares then minShares else v
  {
    assert 0.0 <= rate * s as real;
  }

  /**
   * For non-negative rate and shares, the grow result is floor(rate * s),
   * or exactly 2 * s when that floor equals s.
   */
  lemma GrowFloorForm(s: int, rate: real)
    requires 0 <= s && 0.0 <= rate
    ensures var f := (rate * s as real).Floor;
            GrowShares(s, rate) == if f == s then 2 * s else f
  {
    assert 0.0 <= rate * s as real;
  }

  /** rate * s stays below s for a rate under one and positive s. */
  lemma ScaledBelow(s: int, rate: real)
    requires 0.0 <= rate < 1.0 && 0 < s
    ensures 0.0 <= rate * s as real < s as real
  {
  }

  /**
   * With a rate below one the halving fallback never fires for positive
   * shares: the product always moves, and the result is the clamp of it.
   */
  lemma ShrinkNeverHalves(s: int, rate: real, minShares: int)
    requires 0.0 <= rate < 1.0 && 0 < s
    ensures Trunc(rate * s as real) < s
    ensures var v := Trunc(rate * s as real);
            ShrinkShares(s, rate, minShares) == if v < minShares then minShares else v
  {
    assert 0.0 <= rate * s as real < s as real;
    ScaledBelow(s, rate);
  }

  /** Shrinking strictly lowers every positive share weight above the floor. */
  lemma ShrinkDecreases(s: int, rate: real, minShares: int)
    requires 0.0 <= rate < 1.0 && 0 < s && minShares < s
    ensures minShares <= ShrinkShares(s, rate, minShares) < s
  {
    ShrinkNeverHalves(s, rate, minShares);
  }

  /** A container already at a non-negative floor stays there. */
  lemma ShrinkAtFloor(rate: real, minShares: int)
    requires 0.0 <= rate < 1.0 && 0 <= minShares
    ensures ShrinkShares(minShares, rate, minShares) == minShares
  {
    if 0 < minShares {
      ShrinkNeverHalves(minShares, rate, minShares);
    }
  }

  /** rate * s is at least s for a rate of at least one and positive s. */
  lemma ScaledAbove(s: int, rate: real)
    requires 1.0 <= rate && 0 < s
    ensures s as real <= rate * s as real
  {
    assert rate * s as real == s as real + (rate - 1.0) * s as real;
  }

  /**
   * Growing strictly raises every positive share weight, and the result is
   * either exactly double (when the product stalls) or the product truncated,
   * which then lies in the open interval (s, rate * s].
   */
  lemma GrowIncreases(s: int, rate: real)
    requires 1.0 <= rate && 0 < s
    ensures GrowShares(s, rate) > s
    ensures Trunc(rate * s as real) == s ==> GrowShares(s, rate) == 2 * s
    ensures Trunc(rate * s as real) != s ==> GrowShares(s, rate) as real <= rate * s as real
  {
    ScaledAbove(s, rate);
  }

  /** Scenario: 100 shares shrunk at rate 0.9 become 90. */
  lemma ShrinkScenarioHundred()
    ensures ShrinkShares(100, 0.9, 2) == 90
  {
  }

  /** Scenario: a single share shrunk at rate 0.9 lands on the floor 2. */
  lemma ShrinkScenarioOne()
    ensures ShrinkShares(1, 0.9, 2) == 2
  {
  }

  /** Scenario: 50 shares grown at rate 1.1 become 55. */
  lemma GrowScenarioFifty()
    ensures GrowShares(50, 1.1) == 55
  {
  }

  /** ShrinkBE's effect on one container: only exact-"BE" containers change. */
  function ShrinkOne(c: Container, cfg: Config): (r: Container)
    ensures r == c.(shares := r.shares)
    ensures c.wclass != BE ==> r == c
    ensures c.wclass == BE ==> r.shares >= cfg.minShares
  {
    if c.wclass == BE then c.(shares := ShrinkShares(c.shares, cfg.shrinkRate, cfg.minShares)) else c
  }

  /** GrowBE's effect on one container: only exact-"BE" containers change. */
  function GrowOne(c: Container, cfg: Config): (r: Container)
    ensures r == c.(shares := r.shares)
    ensures c.wclass != BE ==> r == c
    ensures c.wclass == BE && c.shares != 0 ==> r.shares != c.shares
  {
    if c.wclass == BE then c.(shares := GrowShares(c.shares, cfg.growthRate)) else c
  }

  /** The table after ShrinkBE. */
  function ShrinkAll(m: map<Id, Container>, cfg: Config): (r: map<Id, Container>)
    ensures r.Keys == m.Keys
    ensures forall k :: k in m && m[k].wclass != BE ==> r[k] == m[k]
  {
    map k | k in m :: ShrinkOne(m[k], cfg)
  }

  /** The table after GrowBE. */
  function GrowAll(m: map<Id, Container>, cfg: Config): (r: map<Id, Container>)
    ensures r.Keys == m.Keys
    ensures forall k :: k in m && m[k].wclass != BE ==> r[k] == m[k]
  {
    map k | k in m :: GrowOne(m[k], cfg)
  }

  /** The share weight of every BE container: what ShrinkBE and GrowBE write back to Docker. */
  function BEShares(m: map<Id, Container>): (w: map<Id, int>)
    ensures forall k :: k in w <==> k in m && m[k].wclass == BE
    ensures forall k :: k in w ==> w[k] == m[k].shares
  {
    map k | k in m && m[k].wclass == BE :: m[k].shares
  }

  /** The containers DisableBE kills: exactly those whose class is BE. */
  function BETargets(m: map<Id, Container>): (t: set<Id>)
    ensures forall k :: k in t <==> k in m && m[k].wclass == BE
  {
    set k | k in m && m[k].wclass == BE
  }

  /** The pods DisableBE deletes in k8s mode: the pod of each BE container. */
  function BEPods(m: map<Id, Container>): (p: set<(string, string)>)
    ensures forall k :: k in m && m[k].wclass == BE ==> (m[k].podName, m[k].namespace) in p
    ensures forall q :: q in p ==> exists k :: k in m && m[k].wclass == BE && q == (m[k].podName, m[k].namespace)
  {
    set k | k in m && m[k].wclass == BE :: (m[k].podName, m[k].namespace)
  }

  /**
   * After ShrinkBE every BE container is at or above the floor, every BE
   * container that was positive and above the floor has strictly fewer
   * shares, and every other container is unchanged.
   */
  lemma ShrinkAllProperties(m: map<Id, Container>, cfg: Config)
    requires 0.0 <= cfg.shrinkRate < 1.0
    ensures ShrinkAll(m, cfg).Keys == m.Keys
    ensures forall k :: k in m && m[k].wclass == BE ==> ShrinkAll(m, cfg)[k].shares >= cfg.minShares
    ensures forall k :: k in m && m[k].wclass == BE && 0 < m[k].shares && cfg.minShares < m[k].shares ==>
              ShrinkAll(m, cfg)[k].shares < m[k].shares
    ensures forall k :: k in m && m[k].wclass != BE ==> ShrinkAll(m, cfg)[k] == m[k]
    ensures forall k :: k in m ==> ShrinkAll(m, cfg)[k] == m[k].(shares := ShrinkAll(m, cfg)[k].shares)
  {
    forall k | k in m && m[k].wclass == BE && 0 < m[k].shares && cfg.minShares < m[k].shares
      ensures ShrinkAll(m, cfg)[k].shares < m[k].shares
    {
      ShrinkDecreases(m[k].shares, cfg.shrinkRate, cfg.minShares);
    }
  }

  /**
   * After GrowBE every BE container with positive shares has strictly more
   * shares, and every other container is unchanged.
   */
  lemma GrowAllProperties(m: map<Id, Container>, cfg: Config)
    requires 1.0 <= cfg.growthRate
    ensures GrowAll(m, cfg).Keys == m.Keys
    ensures forall k :: k in m && m[k].wclass == BE && 0 < m[k].shares ==>
              GrowAll(m, cfg)[k].shares > m[k].shares
    ensures forall k :: k in m && m[k].wclass != BE ==> GrowAll(m, cfg)[k] == m[k]
    ensures forall k :: k in m ==> GrowAll(m, cfg)[k] == m[k].(shares := GrowAll(m, cfg)[k].shares)
  {
    forall k | k in m && m[k].wclass == BE && 0 < m[k].shares
      ensures GrowAll(m, cfg)[k].shares > m[k].shares
    {
      GrowIncreases(m[k].shares, cfg.growthRate);
    }
  }
}
