# Shares controller: a verified model of one control cycle

The HyperPilot shares controller (`pydocker/shares_controller.py`) runs on
every node. It splits CPU time between high-priority (HP) and best-effort
(BE) containers. In each cycle it:

1. lists the node's containers and raises every share weight to `min_shares`;
2. classifies each container by its `hyperpilot.io/wclass` label, and in
   Kubernetes ("k8s") mode by the BE pods scheduled on the node;
3. measures the CPU load;
4. reads the SLO slack of the QoS application from the QoS data store;
5. takes one action. A negative slack disables BE work: BE containers are
   killed or their pods deleted, and BE admission is switched off on the
   node. Too little slack or too much load shrinks BE shares. Enough slack
   and little load grows them. Growing and holding switch BE admission back
   on.

The model also covers a second program, the trial-division primality test
`IsPrime` in `pydocker/isprime.py`.

Modules, one per concern of the source:

- `Workload` (`workload.dfy`): container records, the class label, the
  controller's configuration.
- `Registry` (`registry.dfy`): the bookkeeping of `ActiveContainers`. Each
  loop is a fold over a prefix of its input (`Scan`, `TagContainers`,
  `TagPods`, combined in `Discover`), with its lemmas.
- `Sampler` (`sampler.dfy`): the Docker per-container CPU percent and its
  sum, and the k8s node load.
- `SloOracle` (`oracle.dfy`): how a QoS data store reply becomes a slack.
- `ShareAdjuster` (`shares.dfy`): the arithmetic of `ShrinkBE` and `GrowBE`,
  and which containers `DisableBE` selects.
- `Policy` (`policy.dfy`): the decision rule of the control loop.
- `SharesController` (`controller.dfy`): `class Controller`. Its fields are
  the table of tracked containers, their iteration order, the counters, the
  QoS application name, and the effects on Docker and Kubernetes:
  - the share weights written back;
  - the containers killed;
  - the pods deleted;
  - the node's BE admission label.

  Its methods are the loops of the source, each proved against the
  specification functions above. `RunCycle` is one pass of the control loop.
- `Primes` (`isprime.dfy`): `IsPrime` as a method with a loop, proved to
  return true exactly for primes.
- `Wrappers` (`wrappers.dfy`): `Option`.

How the model represents the source:

- The Docker listing, the pod lists, the stats replies, the kubelet summary
  and the QoS data store reply are inputs. A Kubernetes query that failed is
  `None`.
- Python's dict of `Container` objects is a map of container values in a
  class field. Each object is created fresh for its entry and referenced
  only from the dict, so nothing is aliased.
- Python 2 dicts iterate in hash order, which the source leaves unspecified.
  The model fixes one order: the order in which ids were first listed. No
  result of the model depends on that choice. The load is an exact-real sum,
  share updates are made key by key, and the containers killed and pods
  deleted are sets.
- The source's `int(x)` is `ShareAdjuster.Trunc`, truncation toward zero.
  For non-negative arguments it is `.Floor` (`ShareAdjuster.TruncIsFloor`).
- `shares/2` on Python 2 integers is floor division. It matches Dafny's `/`
  for a positive divisor.
- Float arithmetic is Dafny's exact `real`.

Facts about the code that the model proves or follows:

- `CpuStatsDocker` (`pydocker/shares_controller.py:151-172`) adds up the
  per-container percents with no clamp, so the Docker-mode load can exceed
  100. `Sampler.CpuTotalBounds` proves the bound that does hold: between 0
  and 100 per container.
- `CpuStatsK8S` returns `usageNanoCores / (cores * 1e9)`. That is a
  fraction of the node, not a percent, and it is compared with the same
  load thresholds. Only its failure value `100.0` is on the percent scale.
- In `ShrinkBE` the halving branch (`pydocker/shares_controller.py:308-309`)
  never fires for a shrink rate in [0, 1) and positive shares: truncating
  `rate * shares` always lands below `shares`
  (`ShareAdjuster.ShrinkNeverHalves`). A shrink from 1 share reaches the
  floor only through the `min_shares` clamp
  (`ShareAdjuster.ShrinkScenarioOne`).

The model follows the code everywhere but in one place. `RunCycle` decides
on the corrected slack reader `SloOracle.SloSlackIntended`, not on the
reader as written (see "## Findings" and "## Left out"). Its contract also
states the decision the code as written takes: the same action on every
reply that tracks the QoS application, and Disable on a reply that does not.

## Model

| member | source | states |
|---|---|---|
| Workload.ParseClass | pydocker/shares_controller.py:102-103 | the stored class reads back as exactly the label text it was parsed from, and only "HP" and "BE" give the two named classes |
| Workload.ClassFromLabels | pydocker/shares_controller.py:102-103 | a container without the wclass label is HP; otherwise its class is the label's value |
| Registry.ScanStep | pydocker/shares_controller.py:90-111 | one iteration of the listing loop records the listed container under its id as Admit admits it, a later listing of the same id replacing the earlier record |
| Registry.Admit | pydocker/shares_controller.py:92-103 | a listed container is recorded under its id and name, with its class from its labels, its shares raised to min_shares when below it and kept otherwise, no pod yet and zero CPU percent |
| Registry.ScanRecords | pydocker/shares_controller.py:90-111 | every listed container whose id no later entry repeats is tracked under its id with the record Admit gives its entry: its name, its class from its labels and its shares raised to the floor |
| Registry.ScanRecordsDistinct | pydocker/shares_controller.py:90-111 | with distinct listed ids, every listed container is tracked with the record Admit gives its entry |
| Registry.ScanTableOk | pydocker/shares_controller.py:90-112 | after the listing loop every tracked id is in the iteration order exactly once, every record sits under its own id, and every share weight is at least min_shares |
| Registry.ScanTotals | pydocker/shares_controller.py:104-110 | the HP and BE counts add up to the number of listed containers, and the HP and BE share sums add up to the sum of their admitted shares |
| Registry.ScanTally | pydocker/shares_controller.py:90-112 | with distinct listed ids, the table has one record per listed container and the counters are exactly the per-class counts and share sums of the table, any class other than HP counting as BE |
| Registry.TagPodsShape | pydocker/shares_controller.py:116-133 | the k8s reclassification keeps the keys, the order, the raised shares, every share weight and both totals, and it keeps the table well formed |
| Registry.TagPodsClasses | pydocker/shares_controller.py:122-133 | reclassification turns an HP container into BE exactly when some BE pod on this node lists its id; no other class changes, and a container that no such pod lists is untouched |
| Registry.TagPodsTally | pydocker/shares_controller.py:127-132 | moving a container from HP to BE moves its count and shares between the counters, so the counters stay the tally of the table |
| Registry.DiscoverProperties | pydocker/shares_controller.py:76-134 | everything ActiveContainers guarantees: a well-formed table at the floor, the Admit record of the last entry listing each listed id, counters that count every listed container and sum its shares, only HP-to-BE upgrades for containers listed on this node, the pod name and namespace of the last BE pod on this node that lists a container (which DisableBE deletes), every other container as the listing loop left it, and no change outside k8s mode or when the pod query failed |
| Registry.StripScheme | pydocker/shares_controller.py:125 | the container id of a pod status is the status id with the length of "docker://" cut off, and empty when the id is shorter than that |
| Registry.StripSchemeRoundTrip | pydocker/shares_controller.py:125 | cutting the scheme off an id prefixed with "docker://" gives back the Docker container id |
| Registry.Tag | pydocker/shares_controller.py:126-134 | a tracked container listed under a BE pod on this node becomes BE if it was HP, keeps any other class, and takes the pod's name and namespace; an untracked id changes nothing; keys, order and raised shares stay |
| Registry.TagContainers | pydocker/shares_controller.py:124-134 | the loop over one pod's statuses keeps the tracked ids, their order and the raised shares |
| Registry.TagPod | pydocker/shares_controller.py:123-134 | a pod on another node changes nothing; one on this node keeps the tracked ids, their order and the raised shares |
| Registry.TagPods | pydocker/shares_controller.py:122-134 | the loop over the BE pods keeps the tracked ids, their order and the raised shares |
| Registry.LastListingFound | pydocker/shares_controller.py:122-125 | there is a last BE pod on this node listing a container exactly when some BE pod on this node lists it, and that pod is one of them |
| Registry.TagContainersPods | pydocker/shares_controller.py:133-134 | every tracked container a pod's statuses list carries that pod's name and namespace afterwards |
| Registry.TagPodsPods | pydocker/shares_controller.py:122-134 | every tracked container listed by a BE pod on this node carries the name and namespace of the last such pod, since each listing overwrites the annotation |
| Registry.Discover | pydocker/shares_controller.py:76-134 | the table's ids, their order and the raised shares are those of the listing loop; reclassification adds and removes no container |
| Registry.QosName | pydocker/shares_controller.py:137-146 | the QoS application becomes the name of the first container of the first QoS pod, and stays as it was when the query failed or the list or its statuses are empty |
| Sampler.CpuPercent | pydocker/shares_controller.py:158-167 | a container's percent is never negative, is positive exactly when both deltas are positive, and is at most 100 when the CPU delta does not exceed the system delta |
| Sampler.CpuPercentRatio | pydocker/shares_controller.py:166-167 | a positive percent times the system delta is 100 times the CPU delta |
| Sampler.CpuTotal | pydocker/shares_controller.py:154-172 | the Docker-mode load, the sum over the tracked containers of their percents, is never negative |
| Sampler.CpuTotalBounds | pydocker/shares_controller.py:151-172 | the Docker-mode load is between 0 and 100 times the number of tracked containers when no container uses more than the system delta |
| Sampler.RecordPercents | pydocker/shares_controller.py:155-170 | the sampler keeps every record except its CPU percent, which becomes the container's percent when its stats could be read, and leaves unreadable containers as they were |
| Sampler.CpuStatsK8S | pydocker/shares_controller.py:175-190 | the k8s load is 100.0 when the kubelet summary cannot be read, and otherwise the value whose product with cores times 1e9 is usageNanoCores |
| SloOracle.SloSlackQoSDS | pydocker/shares_controller.py:209-232 | the reader as written: it returns None exactly when a valid reply does not track the application, the slack whenever the reply carries one, and 0.0 on every other failure |
| SloOracle.SloSlackIntended | pydocker/shares_controller.py:209-237 | the corrected reader: the slack whenever the reply carries one, and 0.0 otherwise |
| SloOracle.SloSlackAgrees | pydocker/shares_controller.py:220-232 | the two readers agree on every reply except one that does not track the application, where the reader as written gives None and the corrected one 0.0 |
| SloOracle.UntrackedDisablesAsWritten | pydocker/shares_controller.py:223-224 | as written, whatever the load, a data store that does not track the QoS application makes the loop disable BE |
| SloOracle.UntrackedHoldsOrShrinks | pydocker/shares_controller.py:223-224 | read as intended, the same reply never disables BE |
| SloOracle.FailureNeverDisables | pydocker/shares_controller.py:220-232 | an unreachable store, an error flag, or a missing or non-numeric slack never disables BE |
| Policy.Decide | pydocker/shares_controller.py:419-435 | exactly one action is chosen: Disable iff the slack is negative; Shrink iff the slack is non-negative and the shrink condition holds; Grow iff neither of those holds and the grow condition does; Hold otherwise |
| Policy.ViolationAlwaysDisables | pydocker/shares_controller.py:419-422 | a negative slack disables BE for every load |
| Policy.ShrinkBeatsGrow | pydocker/shares_controller.py:423-430 | when both the shrink and the grow conditions hold, shrinking wins |
| Policy.DecideMonotone | pydocker/shares_controller.py:419-435 | more slack and less load never lead to a more severe action |
| Policy.AdmissionRule | pydocker/shares_controller.py:428-435 | BE admission is re-enabled exactly when the slack is non-negative and no shrink is wanted |
| Policy.DecideAsWritten | pydocker/shares_controller.py:416-435 | the rule as the loop evaluates it on the reader's result: it agrees with Decide on a number, and a None slack disables, following Python 2's ordering |
| ShareAdjuster.Trunc | pydocker/shares_controller.py:288 | Python's int() of a float: the integer within 1 of x on the side of zero, below x for x >= 0 and above it for x < 0 |
| ShareAdjuster.ShrinkShares | pydocker/shares_controller.py:307-311 | the new weight of a BE container on a shrink is never below min_shares |
| ShareAdjuster.GrowShares | pydocker/shares_controller.py:288-291 | the new weight of a BE container on a grow differs from its old non-zero weight: a stalled product is doubled |
| ShareAdjuster.ShrinkOne | pydocker/shares_controller.py:305-311 | ShrinkBE's effect on one container: only the shares of a BE container change, and they end at or above min_shares |
| ShareAdjuster.GrowOne | pydocker/shares_controller.py:286-291 | GrowBE's effect on one container: only the shares of a BE container change, and non-zero shares always move |
| ShareAdjuster.ShrinkAll | pydocker/shares_controller.py:305-311 | ShrinkBE keeps the tracked ids and leaves every non-BE container as it was |
| ShareAdjuster.GrowAll | pydocker/shares_controller.py:286-291 | GrowBE keeps the tracked ids and leaves every non-BE container as it was |
| ShareAdjuster.ShrinkFloorForm | pydocker/shares_controller.py:307-311 | for non-negative shares and rate, the shrink result is the larger of min_shares and floor(rate*s), or of min_shares and s/2 when that floor equals s |
| ShareAdjuster.GrowFloorForm | pydocker/shares_controller.py:288-291 | for non-negative shares and rate, the grow result is floor(rate*s), or exactly 2*s when that floor equals s |
| ShareAdjuster.ShrinkNeverHalves | pydocker/shares_controller.py:307-311 | with a rate in [0, 1) and positive shares, the truncated product lies below s, so the result is it clamped to min_shares |
| ShareAdjuster.ShrinkDecreases | pydocker/shares_controller.py:307-311 | with a rate in [0, 1), shares above the floor strictly decrease and never go below min_shares |
| ShareAdjuster.ShrinkAtFloor | pydocker/shares_controller.py:307-311 | a container at a non-negative floor stays at the floor |
| ShareAdjuster.GrowIncreases | pydocker/shares_controller.py:288-291 | with a rate of at least 1, positive shares strictly increase: exactly double when the truncated product stalls, otherwise the truncated product, which is at most rate*s |
| ShareAdjuster.ShrinkScenarioHundred | pydocker/shares_controller.py:307-311 | 100 shares at rate 0.9 with floor 2 become 90 |
| ShareAdjuster.ShrinkScenarioOne | pydocker/shares_controller.py:307-311 | 1 share at rate 0.9 with floor 2 becomes 2 |
| ShareAdjuster.GrowScenarioFifty | pydocker/shares_controller.py:288-291 | 50 shares at rate 1.1 become 55 |
| ShareAdjuster.ShrinkAllProperties | pydocker/shares_controller.py:305-312 | after ShrinkBE every BE container is at or above min_shares, every BE container above the floor has strictly fewer shares, only the shares change, and non-BE containers are untouched |
| ShareAdjuster.GrowAllProperties | pydocker/shares_controller.py:286-292 | after GrowBE every BE container with positive shares has strictly more, only the shares change, and non-BE containers (other labels included) are untouched |
| ShareAdjuster.BEShares | pydocker/shares_controller.py:292-294 | the share weights written back are keyed by exactly the containers whose class is BE, each with that container's own weight |
| ShareAdjuster.BETargets | pydocker/shares_controller.py:256-271 | DisableBE targets exactly the containers whose class is BE |
| ShareAdjuster.BEPods | pydocker/shares_controller.py:256-264 | in k8s mode the pods deleted are exactly the pods of the BE containers |
| SharesController.Controller.constructor | pydocker/shares_controller.py:367-393 | the controller starts with no tracked containers, zero counters, an empty QoS application name and the node label as found |
| SharesController.Controller.ActiveContainers | pydocker/shares_controller.py:76-148 | the table, order and counters become those of Discover on the listing and BE pods, the raised shares are written back, the QoS application is read in k8s mode, and the class invariant holds again |
| SharesController.Controller.Rebuild | pydocker/shares_controller.py:90-134 | the two table-building loops compute exactly Discover, write back exactly the raised shares, and leave a well-formed table at the floor |
| SharesController.Controller.ScanListing | pydocker/shares_controller.py:90-112 | the listing loop computes exactly the Scan fold |
| SharesController.Controller.TagBEPods | pydocker/shares_controller.py:122-133 | the loop over BE pods computes exactly the TagPods fold, skipping pods on other nodes |
| SharesController.Controller.TagStatuses | pydocker/shares_controller.py:124-133 | the loop over one pod's statuses computes exactly the TagContainers fold |
| SharesController.Controller.CpuStatsDocker | pydocker/shares_controller.py:151-172 | the load returned is the sum of the per-container percents, and each record's CPU percent becomes its measured percent, as RecordPercents states |
| SharesController.Controller.SampleAll | pydocker/shares_controller.py:155-170 | the sampling loop's running sum and table after every tracked container |
| SharesController.Controller.CpuStats | pydocker/shares_controller.py:192-198 | in k8s mode the load is the node telemetry and the table is unchanged; otherwise it is the Docker sampler's result |
| SharesController.Controller.ShrinkEach | pydocker/shares_controller.py:305-316 | after the shrink loop has visited a prefix of the order, each visited id holds its ShrinkAll record and, if BE, has its new weight written; every other id is as before |
| SharesController.Controller.GrowEach | pydocker/shares_controller.py:286-296 | after the grow loop has visited a prefix of the order, each visited id holds its GrowAll record and, if BE, has its new weight written; every other id is as before |
| SharesController.Controller.ShrinkBE | pydocker/shares_controller.py:299-316 | the table becomes ShrinkAll of the old one, whose properties ShrinkAllProperties proves, and every BE container's new weight is written back; nothing else changes |
| SharesController.Controller.GrowBE | pydocker/shares_controller.py:281-296 | the table becomes GrowAll of the old one, whose properties GrowAllProperties proves, and every BE container's new weight is written back; nothing else changes |
| SharesController.Controller.DisableBE | pydocker/shares_controller.py:250-278 | in k8s mode the pods of exactly the BE containers are deleted and admission is switched off; otherwise exactly the BE containers are killed; the table is unchanged |
| SharesController.Controller.EnableBE | pydocker/shares_controller.py:240-247 | in k8s mode BE admission is switched on; otherwise nothing changes |
| SharesController.Controller.Respond | pydocker/shares_controller.py:419-435 | the action is Decide of the slack and the load; Disable kills the BE containers or deletes their pods and switches admission off, Shrink and Grow apply ShrinkAll or GrowAll and write every BE weight back, and Grow and Hold switch admission on; nothing else changes |
| SharesController.Controller.RunCycle | pydocker/shares_controller.py:408-435 | one cycle: the action is Decide of the corrected slack and the measured load, which on every reply that tracks the QoS application is the action the code as written takes, while on one that does not the code as written disables and the model does not; the table is the discovered one, sampled, then shrunk or grown by that action; shares, kills, pod deletions and the admission label change exactly as the action dictates |
| Primes.Isqrt | pydocker/isprime.py:25 | the integer square root r satisfies r*r <= n < (r+1)*(r+1) |
| Primes.NoSmallOddDivisorPrime | pydocker/isprime.py:25-29 | an odd n >= 3 with no odd divisor from 3 up to its integer square root is prime |
| Primes.EvenNotPrime | pydocker/isprime.py:23-24 | an even number other than 2, or a number at most 1, is not prime |
| Primes.IsPrime | pydocker/isprime.py:20-29 | returns true exactly when the number is prime; the odd-divisor loop terminates |

The helpers `Sampler.CpuDelta` and `Sampler.SystemDelta`
(`pydocker/shares_controller.py:161-164`), `Registry.Contrib`
(`pydocker/shares_controller.py:104-109`) and `Policy.EnablesAdmission`
(the branches at `pydocker/shares_controller.py:433` and `435` that call
`EnableBE`) only compute values and carry no contract of their own. Their
lines are cited by the rows of `Sampler.CpuPercent`, `Registry.ScanTotals`
and `Registry.ScanTally`, and `Policy.AdmissionRule`, whose contracts state
their effect.

## Left out

- Calls to the Docker client, the Kubernetes client, pycurl and kubectl are not modelled. Their results are inputs and their effects are recorded fields. Their error paths are not modelled beyond the failed queries and replies.
- A BE pod whose status list is missing raises TypeError part-way through the reclassification loop. So does a status whose `container_id` is None, at the slice on `pydocker/shares_controller.py:125`. The handler at line 135 catches it, so reclassification stops for that pod and every pod after it. The model takes each status list as complete and each container id as a string.
- The Docker error handlers in `GrowBE`, `ShrinkBE` and `DisableBE` print `cont.name`. No `Container` has that attribute, so they would raise. The model takes every Docker call to succeed.
- A malformed QoS reply, such as one missing `error` or `data`, raises KeyError and ends the process. The model's reply type has no such value.
- A slack that is null or a list makes `float()` raise TypeError (`pydocker/shares_controller.py:229-232`). Only ValueError is caught, so the process ends. The model's `NotNumber` slack, read as 0.0, stands only for a value that `float()` rejects with ValueError.
- SharesController.Controller.RunCycle: decides on the corrected reader `SloOracle.SloSlackIntended`, which reads 0.0 for a reply that does not track the QoS application. The code as written returns None there and disables BE work (`pydocker/shares_controller.py:223-224`, `419`). In Docker mode `qos_app` stays `''`, so this affects every cycle in which the store answers without tracking `''`. The contract states both readings: the as-written action on every tracked reply, and Disable as written on an untracked one.
- `SharesController.Controller.CpuStatsDocker` skips a container whose stats could not be read (`samples` has no entry for it). Reading the stats is outside the model.
- `SharesController.Controller.ActiveContainers` takes the Docker listing as given. A failed listing ends the process.
- `Sampler.CpuStatsK8S` requires a non-zero core count. Dividing by zero cores raises ZeroDivisionError, which the source does not catch.
- The start-up `EnableBE` call in `configK8S` runs before the node name is read, so its kubectl command names no node. The constructor takes the node's label as given.
- `ParseArgs`, `configDocker`, the rest of `configK8S`, environment variables and `sys.exit` paths are configuration I/O. The configuration is a `Config` value.
- The infinite control loop, `time.sleep`, the cycle counter and verbose printing are not modelled. `RunCycle` models one cycle.
- `SloSlackFile` is not modelled: it reads from a file and parses floats.
- The `hp_cpu_percent` and `be_cpu_percent` counters are never updated by the source, so they are not modelled.
- Floating-point rounding is not modelled. `rate * shares`, the CPU-percent division and `math.sqrt` use exact reals and an integer square root, so results can differ from IEEE floats at extreme magnitudes.
- `pydocker/command_agent.py` is not part of this model: it runs shell commands received over a Unix socket, which is pure I/O.
- `isprime.py`'s `main` is not modelled: it is a timing loop with printing.

## Findings

| source | as written | input that shows it | evidently intended | confidence | as-written member | corrected member |
|---|---|---|---|---|---|---|
| pydocker/shares_controller.py:223-224 | when the QoS data store does not track the application, `SloSlackQoSDS` prints a message and falls off the end of the function, returning None. Python 2 orders `None < 0.0`, so the loop takes the Disable branch and kills all BE work | a reply `{"error": false, "data": {}}` with any QoS application name and any load | return 0.0 ("at target") like every other failure branch, which never disables | not executed | SloOracle.UntrackedDisablesAsWritten | SloOracle.UntrackedHoldsOrShrinks |
