/**
 * SloSlackQoSDS: reading the SLO slack of the QoS application from the QoS
 * data store's reply, which is given here already parsed.
 */
module SloOracle {
  import opened Wrappers
  import opened Workload
  import opened Policy

  /** The value under metrics.slack: a number float() accepts, or something it rejects. */
  datatype SlackField = Number(v: real) | NotNumber

  /** The entry the data store keeps for one application; metrics may be absent. */
  datatype AppEntry = AppEntry(metrics: Option<map<string, SlackField>>)

  /**
   * The data store's reply: the fetch failed or the body was not JSON, or a
   * body with its error flag and its data map from application name to entry.
   */
  datatype QosResponse = FetchFailed | QosBody(error: bool, data: map<string, AppEntry>)

  /** Whether the reply carries a numeric slack for the application, and which. */
  predicate HasSlack(name: string, r: QosResponse, v: real) {
    && r.QosBody? && !r.error && name in r.data
    && r.data[name].metrics.Some? && "slack" in r.data[name].metrics.value
    && r.data[name].metrics.value["slack"] == Number(v)
  }

  /** The reply is a valid body that does not track the application. */
  predicate Untracked(name: string, r: QosResponse) {
    r.QosBody? && !r.error && name !in r.data
  }

  /**
   * The reader as written: the branch for an untracked application falls
   * out of the function, so it yields None; every other failure yields 0.0.
   */
  function SloSlackQoSDS(name: string, r: QosResponse): (s: Option<real>)
    ensures s.None? <==> Untracked(name, r)
    ensures forall v :: HasSlack(name, r, v) ==> s == Some(v)
    ensures s.Some? && s.value != 0.0 ==> HasSlack(name, r, s.value)
  {
    match r
    case FetchFailed => Some(0.0)
    case QosBody(error, data) =>
      if error then Some(0.0)
      else if name !in data then None
      else if data[name].metrics.None? || "slack" !in data[name].metrics.value then Some(0.0)
      else
        match data[name].metrics.value["slack"]
        case Number(v) => Some(v)
        case NotNumber => Some(0.0)
  }

  /**
   * The reader as intended: the slack when the reply carries one for the
   * application, and 0.0 ("at target") on every failure, an untracked
   * application included.
   */
  function SloSlackIntended(name: string, r: QosResponse): (s: real)
    ensures forall v :: HasSlack(name, r, v) ==> s == v
    ensures s != 0.0 ==> HasSlack(name, r, s)
  {
    SloSlackQoSDS(name, r).GetOr(0.0)
  }

  /** The corrected reader differs from the reader as written only for an untracked application. */
  lemma SloSlackAgrees(name: string, r: QosResponse)
    ensures !Untracked(name, r) ==> SloSlackQoSDS(name, r) == Some(SloSlackIntended(name, r))
    ensures Untracked(name, r) ==> SloSlackQoSDS(name, r) == None && SloSlackIntended(name, r) == 0.0
  {
  }

  /**
   * As written, a data store that does not track the QoS application makes
   * the loop disable all BE work: Python 2 orders None below 0.0.
   */
  lemma UntrackedDisablesAsWritten(name: string, r: QosResponse, load: real, cfg: Config)
    requires Untracked(name, r)
    ensures DecideAsWritten(SloSlackQoSDS(name, r), load, cfg) == Disable
  {
  }

  /** The same reply read as intended never disables BE work. */
  lemma UntrackedHoldsOrShrinks(name: string, r: QosResponse, load: real, cfg: Config)
    requires Untracked(name, r)
    ensures Decide(SloSlackIntended(name, r), load, cfg) != Disable
  {
  }

  /** An unreachable data store, an error flag or a missing slack field never disable BE work. */
  lemma FailureNeverDisables(name: string, r: QosResponse, load: real, cfg: Config)
    requires forall v :: !HasSlack(name, r, v)
    ensures SloSlackIntended(name, r) == 0.0
    ensures Decide(SloSlackIntended(name, r), load, cfg) != Disable
  {
  }
}
