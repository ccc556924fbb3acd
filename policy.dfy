/**
 * The per-cycle decision of the shares controller: from the SLO slack and the
 * CPU load it picks exactly one of Disable, Shrink, Grow or Hold.
 */
module Policy {
  import opened Wrappers
  import opened Workload

  datatype Action = Disable | Shrink | Grow | Hold

  /** The shrink condition: too little slack or too much load. */
  predicate ShrinkWanted(slack: real, load: real, cfg: Config) {
    slack < cfg.slackShrink || load > cfg.loadShrink
  }

  /** The grow condition: enough slack and little load. */
  predicate GrowWanted(slack: real, load: real, cfg: Config) {
    slack > cfg.slackGrow && load < cfg.loadGrow
  }

  /**
   * The decision rule, in its priority order: an SLO violation disables BE,
   * then shrinking wins over growing, and holding is the fallback.
   */
  function Decide(slack: real, load: real, cfg: Config): (a: Action)
    ensures a == Disable <==> slack < 0.0
    ensures a == Shrink <==> 0.0 <= slack && ShrinkWanted(slack, load, cfg)
    ensures a == Grow <==>
              0.0 <= slack && !ShrinkWanted(slack, load, cfg) && GrowWanted(slack, load, cfg)
    ensures a == Hold <==>
              0.0 <= slack && !ShrinkWanted(slack, load, cfg) && !GrowWanted(slack, load, cfg)
  {
    if slack < 0.0 then Disable
    else if slack < cfg.slackShrink || load > cfg.loadShrink then Shrink
    else if slack > cfg.slackGrow && load < cfg.loadGrow then Grow
    else Hold
  }

  /** Grow and Hold re-enable BE admission; Disable and Shrink do not touch it. */
  predicate EnablesAdmission(a: Action) {
    a == Grow || a == Hold
  }

  /** A negative slack disables BE whatever the CPU load is. */
  lemma ViolationAlwaysDisables(slack: real, cfg: Config)
    requires slack < 0.0
    ensures forall load: real :: Decide(slack, load, cfg) == Disable
  {
  }

  /** When both the shrink and the grow conditions hold, shrinking wins. */
  lemma ShrinkBeatsGrow(slack: real, load: real, cfg: Config)
    requires 0.0 <= slack
    requires ShrinkWanted(slack, load, cfg) && GrowWanted(slack, load, cfg)
    ensures Decide(slack, load, cfg) == Shrink
  {
  }

  /** How hard an action cuts back BE work. */
  function Severity(a: Action): nat {
    match a
    case Grow => 0
    case Hold => 1
    case Shrink => 2
    case Disable => 3
  }

  /**
   * More slack and less load never make the controller act more severely,
   * for every configuration.
   */
  lemma DecideMonotone(slack: real, load: real, slack': real, load': real, cfg: Config)
    requires slack <= slack' && load' <= load
    ensures Severity(Decide(slack', load', cfg)) <= Severity(Decide(slack, load, cfg))
  {
  }

  /** Admission is re-enabled exactly when the slack is non-negative and no shrink is wanted. */
  lemma AdmissionRule(slack: real, load: real, cfg: Config)
    ensures EnablesAdmission(Decide(slack, load, cfg)) <==>
              0.0 <= slack && !ShrinkWanted(slack, load, cfg)
  {
  }

  /** Python 2 orders None below every number. */
  predicate Py2Less(a: Option<real>, b: real) {
    match a
    case None => true
    case Some(v) => v < b
  }

  predicate Py2Greater(a: Option<real>, b: real) {
    match a
    case None => false
    case Some(v) => v > b
  }

  /**
   * The decision rule as the loop evaluates it on the value the slack reader
   * returns, which may be None; comparisons follow Python 2.
   */
  function DecideAsWritten(slack: Option<real>, load: real, cfg: Config): (a: Action)
    ensures slack.Some? ==> a == Decide(slack.value, load, cfg)
    ensures slack.None? ==> a == Disable
  {
    if Py2Less(slack, 0.0) then Disable
    else if Py2Less(slack, cfg.slackShrink) || load > cfg.loadShrink then Shrink
    else if Py2Greater(slack, cfg.slackGrow) && load < cfg.loadGrow then Grow
    else Hold
  }
}
