/**
 * The records the shares controller keeps about each running container, and
 * its configuration parameters.
 */
module Workload {

  /** A container's runtime identity (the Docker container id). */
  type Id = string

  /** The label key whose value gives a container's workload class. */
  const ClassLabel: string := "hyperpilot.io/wclass"

  /**
   * A workload class. The source keeps the raw label string; "HP" and "BE"
   * are the two values it tests for, every other value is kept as it is.
   */
  datatype WClass = HP | BE | Other(text: string)

  /** A class is canonical when an Other value never spells "HP" or "BE". */
  predicate Canonical(w: WClass) {
    w.Other? ==> w.text != "HP" && w.text != "BE"
  }

  /** The label string the source holds for a class. */
  function ClassName(w: WClass): string {
    match w
    case HP => "HP"
    case BE => "BE"
    case Other(s) => s
  }

  /** Reads a label value as a class: the inverse of ClassName. */
  function ParseClass(s: string): (w: WClass)
    ensures Canonical(w)
    ensures ClassName(w) == s
  {
    if s == "HP" then HP else if s == "BE" then BE else Other(s)
  }

  lemma ParseClassName(w: WClass)
    requires Canonical(w)
    ensures ParseClass(ClassName(w)) == w
  {
  }

  /**
   * The class a container gets from its labels: the value of ClassLabel
   * when present, HP otherwise.
   */
  function ClassFromLabels(labels: map<string, string>): (w: WClass)
    ensures Canonical(w)
    ensures ClassLabel !in labels ==> w == HP
    ensures ClassLabel in labels ==> ClassName(w) == labels[ClassLabel]
  {
    if ClassLabel in labels then ParseClass(labels[ClassLabel]) else HP
  }

  /**
   * One tracked container. The Docker client handle is not modelled; pod
   * name and namespace are "" unless a BE pod on this node lists the
   * container.
   */
  datatype Container = Container(
    id: Id,
    name: string,
    podName: string,
    namespace: string,
    wclass: WClass,
    shares: int,
    cpuPercent: real)

  /** The controller's configuration parameters (the JSON config file). */
  datatype Config = Config(
    mode: string,
    minShares: int,
    growthRate: real,
    shrinkRate: real,
    slackGrow: real,
    slackShrink: real,
    loadGrow: real,
    loadShrink: real)
  {
    /** Orchestrated mode is selected by the exact string "k8s"; anything else is Docker mode. */
    predicate K8sMode() {
      mode == "k8s"
    }
  }
}
