/** One reconciliation, as the Go and the Kopf controller run it against the API server. */
module Reconciler {
  import opened Options
  import opened MergePatch
  import opened Names
  import opened ClusterSpec
  import opened Validation
  import opened Plan
  import opened GoObjects
  import opened KopfObjects
  import opened Interleaving
  import Agreement
  import KopfLaws

  datatype Reason = InvalidConfiguration | ReconcileFailed | Progressing | ApiHealthCheckFailed | Available

  /** The Ready condition and the ready API replicas that a reconciliation writes. */
  datatype Report = Report(ready: bool, reason: Reason, readyApis: int)

  /** The ready replicas that a read of a workload returns; None when the read fails. */
  type Observation = Key -> Option<int>

  /** How the i-th changing call of a reconciliation ends. */
  type Outcomes = nat -> Outcome

  function CallsFor<D>(c: Cluster, desired: seq<D>): seq<Call<D>>
    requires |desired| == |PutSlots(StoreMode(c.spec))|
  {
    var slots := Slots(StoreMode(c.spec));
    seq(|slots|, i requires 0 <= i < |slots| && slots == Slots(StoreMode(c.spec)) =>
      if i < |desired| then Put(KeyAt(IdOf(c), slots[i]), desired[i]) else Remove(KeyAt(IdOf(c), slots[i])))
  }

  /** The keys of the topology that the cluster's mode does not use, in the order of deletion. */
  function ObsoleteKeys(c: Cluster): (keys: seq<Key>)
    ensures |keys| == |ObsoleteSlots(StoreMode(c.spec))|
  {
    var slots := ObsoleteSlots(StoreMode(c.spec));
    seq(|slots|, i requires 0 <= i < |slots| => KeyOf(c, slots[i].kind, slots[i].component))
  }

  lemma DeletionsAreCalled<D>(c: Cluster, desired: seq<D>)
    requires |desired| == |PutSlots(StoreMode(c.spec))|
    ensures |CallsFor(c, desired)| == |desired| + |ObsoleteKeys(c)| == |Slots(StoreMode(c.spec))|
    ensures forall i | 0 <= i < |ObsoleteKeys(c)| :: CallsFor(c, desired)[|desired| + i] == Remove(ObsoleteKeys(c)[i])
  {}

  lemma CallsForFollows<D>(c: Cluster, desired: seq<D>)
    requires |desired| == |PutSlots(StoreMode(c.spec))|
    ensures Follows(CallsFor(c, desired), IdOf(c), StoreMode(c.spec))
  {}

  /** reconcileObject sets the owner before it applies. */
  function OwnedObject(o: Object, c: Cluster): Object {
    o.(owner := Some(c.uid))
  }

  function GoDesired(c: Cluster, parse: QuantityParser): (desired: seq<Object>)
    requires Buildable(c.spec, parse)
    ensures |desired| == |PutSlots(StoreMode(c.spec))|
  {
    var objects := Objects(c, parse);
    seq(|objects|, i requires 0 <= i < |objects| => OwnedObject(objects[i], c))
  }

  function OwnedAll(c: Cluster, documents: seq<Desired>): (desired: seq<Desired>)
    ensures |desired| == |documents|
  {
    seq(|documents|, i requires 0 <= i < |documents| => Owned(documents[i], c))
  }

  function KopfDesired(c: Cluster, parse: QuantityParser): (desired: seq<Desired>)
    requires Buildable(c.spec, parse)
    ensures |desired| == |PutSlots(StoreMode(c.spec))|
  {
    OwnedAll(c, Documents(c, parse))
  }

  /** How many of the calls have taken effect when the first issued ones ended well and the next,
      if there is one, did not. */
  function Landed(outcomes: Outcomes, issued: nat, total: nat): nat {
    if issued < total && outcomes(issued).Ambiguous? then issued + 1 else issued
  }

  /** The calls before issued ended well; issued is the first that did not, or all were issued. */
  ghost predicate StoppedAt(outcomes: Outcomes, issued: nat, total: nat) {
    issued <= total && (forall i: nat | i < issued :: outcomes(i).Done?) && (issued < total ==> !outcomes(issued).Done?)
  }

  /** The slots whose objects run pods, among those that a mode applies. */
  predicate RunsPods(slot: Slot, mode: Mode) {
    match slot.component
    case Api => slot.kind.Deployment?
    case RefreshWorker => slot.kind.Deployment?
    case CubeStore => slot.kind.Deployment? && mode.Single?
    case _ => slot.kind.StatefulSet? && mode.Clustered?
  }

  lemma RunsPodsIsWorkload(c: Cluster, parse: QuantityParser, slot: Slot)
    requires Buildable(c.spec, parse)
    ensures RunsPods(slot, StoreMode(c.spec)) <==>
            slot in PutSlots(StoreMode(c.spec)) && ObjectFor(c, parse, slot).body.WorkloadBody?
  {
    assert RunsPods(slot, StoreMode(c.spec)) <==>
      slot in PutSlots(StoreMode(c.spec)) && slot.kind in {Deployment, StatefulSet};
    if slot in PutSlots(StoreMode(c.spec)) { ObjectForHasKey(c, parse, slot); }
  }

  ghost predicate AllObserved(c: Cluster, observe: Observation) {
    forall slot | RunsPods(slot, StoreMode(c.spec)) :: observe(KeyAt(IdOf(c), slot)).Some?
  }

  /** Every workload built for the cluster is observed with at least the replicas it was built with. */
  ghost predicate AllReady(c: Cluster, parse: QuantityParser, observe: Observation)
    requires Buildable(c.spec, parse)
  {
    && AllObserved(c, observe)
    && forall slot | RunsPods(slot, StoreMode(c.spec)) ::
         observe(KeyAt(IdOf(c), slot)).value >= ObjectFor(c, parse, slot).body.replicas
  }

  /** The workload in a slot is observed with the replicas it was built with. */
  predicate SlotReady(c: Cluster, observe: Observation, kind: Kind, component: Component, replicas: int) {
    var observed := observe(KeyOf(c, kind, component));
    observed.Some? && observed.value >= replicas
  }

  lemma ReadySlot(c: Cluster, parse: QuantityParser, observe: Observation, slot: Slot)
    requires Buildable(c.spec, parse) && RunsPods(slot, StoreMode(c.spec)) && observe(KeyAt(IdOf(c), slot)).Some?
    ensures observe(KeyAt(IdOf(c), slot)).value >= ObjectFor(c, parse, slot).body.replicas
            <==> SlotReady(c, observe, slot.kind, slot.component, BuiltReplicas(c, slot.component))
  {}

  function BuiltReplicas(c: Cluster, component: Component): int {
    match component
    case Api => Replicas(c.spec.api.replicas, 2)
    case RefreshWorker => Replicas(c.spec.refreshWorker.replicas, 1)
    case Worker => Replicas(c.spec.cubeStore.workers, 2)
    case _ => 1
  }

  /** All workloads of a cluster, one by one. */
  lemma AllReadyBySlot(c: Cluster, parse: QuantityParser, observe: Observation)
    requires Buildable(c.spec, parse)
    ensures AllReady(c, parse, observe) <==>
              forall slot | RunsPods(slot, StoreMode(c.spec)) ::
                SlotReady(c, observe, slot.kind, slot.component, BuiltReplicas(c, slot.component))
  {
    forall slot | RunsPods(slot, StoreMode(c.spec)) && observe(KeyAt(IdOf(c), slot)).Some?
      ensures observe(KeyAt(IdOf(c), slot)).value >= ObjectFor(c, parse, slot).body.replicas
              <==> SlotReady(c, observe, slot.kind, slot.component, BuiltReplicas(c, slot.component))
    {
      ReadySlot(c, parse, observe, slot);
    }
    assert forall slot :: KeyAt(IdOf(c), slot) == KeyOf(c, slot.kind, slot.component);
  }

  /** The slots that run pods, in the order in which they are read. */
  function PodSlots(mode: Mode): seq<Slot> {
    [Slot(Deployment, Api), Slot(Deployment, RefreshWorker)]
    + if mode.Clustered? then [Slot(StatefulSet, Router), Slot(StatefulSet, Worker)] else [Slot(Deployment, CubeStore)]
  }

  lemma PodSlotsRunPods(slot: Slot, mode: Mode)
    ensures slot in PodSlots(mode) <==> RunsPods(slot, mode)
  {}

  lemma AllReadyInOrder(c: Cluster, parse: QuantityParser, observe: Observation)
    requires Buildable(c.spec, parse)
    ensures AllReady(c, parse, observe) <==>
              forall slot | slot in PodSlots(StoreMode(c.spec)) ::
                SlotReady(c, observe, slot.kind, slot.component, BuiltReplicas(c, slot.component))
    ensures AllObserved(c, observe) <==>
              forall slot | slot in PodSlots(StoreMode(c.spec)) :: observe(KeyOf(c, slot.kind, slot.component)).Some?
  {
    AllReadyBySlot(c, parse, observe);
    forall slot ensures slot in PodSlots(StoreMode(c.spec)) <==> RunsPods(slot, StoreMode(c.spec)) {
      PodSlotsRunPods(slot, StoreMode(c.spec));
    }
    assert forall slot :: KeyAt(IdOf(c), slot) == KeyOf(c, slot.kind, slot.component);
  }

  /** The readiness check counts a cluster as available exactly when every workload that was built
      for it has the replicas it was built with. */
  method WorkloadsAvailable(c: Cluster, parse: QuantityParser, observe: Observation)
    returns (readFailed: bool, readyApis: int, available: bool)
    requires Buildable(c.spec, parse)
    ensures readFailed <==> !AllObserved(c, observe)
    ensures available <==> AllReady(c, parse, observe)
    ensures !readFailed ==> Some(readyApis) == observe(KeyOf(c, Deployment, Api))
  {
    AllReadyInOrder(c, parse, observe);
    ghost var slots := PodSlots(StoreMode(c.spec));
    assert slots[0] == Slot(Deployment, Api) && slots[1] == Slot(Deployment, RefreshWorker);
    var api := observe(KeyOf(c, Deployment, Api));
    if api.None? { return true, 0, false; }
    available := api.value >= Replicas(c.spec.api.replicas, 2);
    var refresh := observe(KeyOf(c, Deployment, RefreshWorker));
    if refresh.None? { return true, api.value, false; }
    available := available && refresh.value >= Replicas(c.spec.refreshWorker.replicas, 1);
    if StoreMode(c.spec).Clustered? {
      assert slots[2] == Slot(StatefulSet, Router) && slots[3] == Slot(StatefulSet, Worker);
      var router := observe(KeyOf(c, StatefulSet, Router));
      if router.None? { return true, api.value, false; }
      var workers := observe(KeyOf(c, StatefulSet, Worker));
      if workers.None? { return true, api.value, false; }
      available := available && router.value >= 1 && workers.value >= Replicas(c.spec.cubeStore.workers, 2);
    } else {
      assert slots[2] == Slot(Deployment, CubeStore);
      var store := observe(KeyOf(c, Deployment, CubeStore));
      if store.None? { return true, api.value, false; }
      available := available && store.value >= 1;
    }
    return false, api.value, available;
  }

  /** The report once every call has ended well; None when a read fails. */
  ghost predicate Assessed(c: Cluster, parse: QuantityParser, observe: Observation, healthy: bool,
                           report: Option<Report>)
    requires Buildable(c.spec, parse)
  {
    if !AllObserved(c, observe) then report.None?
    else
      && report.Some? && Some(report.value.readyApis) == observe(KeyOf(c, Deployment, Api))
      && report.value.reason == (if !AllReady(c, parse, observe) then Progressing
                                 else if healthy then Available else ApiHealthCheckFailed)
      && (report.value.ready <==> AllReady(c, parse, observe) && healthy)
  }

  method Assess(c: Cluster, parse: QuantityParser, observe: Observation, healthy: bool) returns (report: Option<Report>)
    requires Buildable(c.spec, parse)
    ensures Assessed(c, parse, observe, healthy, report)
  {
    var readFailed, readyApis, available := WorkloadsAvailable(c, parse, observe);
    if readFailed { return None; }
    if !available { return Some(Report(false, Progressing, readyApis)); }
    if !healthy { return Some(Report(false, ApiHealthCheckFailed, readyApis)); }
    return Some(Report(true, Available, readyApis));
  }

  lemma PerformOneMore<O, D>(apply: Applying<O, D>, store: map<Key, O>, calls: seq<Call<D>>, n: nat)
    requires n < |calls|
    ensures PerformAll(apply, store, calls[..n + 1]) == Perform(apply, PerformAll(apply, store, calls[..n]), calls[n])
  {
    assert calls[..n + 1][..n] == calls[..n];
  }

  /** The objects of the API server, as the Go controller changes them. */
  class GoServer {
    var objects: map<Key, Object>

    constructor (objects: map<Key, Object>)
      ensures this.objects == objects
    {
      this.objects := objects;
    }

    /** Sets the owner, then applies.  Failing to set the owner or to find the object's kind is a call
        that is refused. */
    method Apply(c: Cluster, built: Object, outcome: Outcome) returns (failed: bool)
      modifies this
      ensures failed <==> !outcome.Done?
      ensures objects == if outcome.Refused? then old(objects)
                         else Perform(Replace, old(objects), Put(built.key, OwnedObject(built, c)))
    {
      var desired := built.(owner := Some(c.uid));
      if !outcome.Refused? { objects := objects[desired.key := desired]; }
      failed := !outcome.Done?;
    }

    /** Deleting an object that is not there is no failure. */
    method Delete(key: Key, outcome: Outcome) returns (failed: bool)
      modifies this
      ensures failed <==> !outcome.Done?
      ensures objects == if outcome.Refused? then old(objects)
                         else Perform<Object, Object>(Replace, old(objects), Remove(key))
    {
      if !outcome.Refused? { objects := objects - {key}; }
      failed := !outcome.Done?;
    }

    /** The loop over the built objects. */
    method ApplyAll(c: Cluster, built: seq<Object>, outcomes: Outcomes, ghost calls: seq<Call<Object>>)
      returns (failed: bool, ghost issued: nat)
      requires |built| <= |calls|
      requires forall i | 0 <= i < |built| :: calls[i] == Put(built[i].key, OwnedObject(built[i], c))
      modifies this
      ensures StoppedAt(outcomes, issued, |built|) && (failed <==> issued < |built|)
      ensures objects == PerformAll(Replace, old(objects), calls[..Landed(outcomes, issued, |built|)])
    {
      issued := 0;
      for i := 0 to |built|
        invariant issued == i && StoppedAtStart(outcomes, i)
        invariant objects == PerformAll(Replace, old(objects), calls[..i])
      {
        PerformOneMore(Replace, old(objects), calls, i);
        failed := Apply(c, built[i], outcomes(i));
        if failed { return; }
        issued := i + 1;
      }
      failed := false;
    }

    /** The loop over the objects of the topology that the cluster's mode does not use. */
    method DeleteAll(keys: seq<Key>, outcomes: Outcomes, start: nat,
                     ghost calls: seq<Call<Object>>, ghost before: map<Key, Object>)
      returns (failed: bool, ghost issued: nat)
      requires |calls| == start + |keys| && forall i | 0 <= i < |keys| :: calls[start + i] == Remove(keys[i])
      requires StoppedAtStart(outcomes, start) && objects == PerformAll(Replace, before, calls[..start])
      modifies this
      ensures StoppedAt(outcomes, issued, |calls|) && start <= issued && (failed <==> issued < |calls|)
      ensures objects == PerformAll(Replace, before, calls[..Landed(outcomes, issued, |calls|)])
    {
      issued := start;
      for i := 0 to |keys|
        invariant issued == start + i && StoppedAtStart(outcomes, issued)
        invariant objects == PerformAll(Replace, before, calls[..issued])
      {
        PerformOneMore(Replace, before, calls, issued);
        failed := Delete(keys[i], outcomes(start + i));
        if failed { return; }
        issued := issued + 1;
      }
      failed := false;
    }

    /** Applies, then deletes; applied means that no apply failed, settled that no call failed. */
    method Change(c: Cluster, built: seq<Object>, keys: seq<Key>, outcomes: Outcomes, ghost calls: seq<Call<Object>>)
      returns (applied: bool, settled: bool, ghost issued: nat)
      requires |calls| == |built| + |keys|
      requires forall i | 0 <= i < |built| :: calls[i] == Put(built[i].key, OwnedObject(built[i], c))
      requires forall i | 0 <= i < |keys| :: calls[|built| + i] == Remove(keys[i])
      modifies this
      ensures Ran(Replace, calls, outcomes, old(objects), objects, issued)
      ensures (applied <==> issued >= |built|) && (settled <==> issued == |calls|)
    {
      var failed;
      failed, issued := ApplyAll(c, built, outcomes, calls);
      if failed { return false, false, issued; }
      failed, issued := DeleteAll(keys, outcomes, |built|, calls, old(objects));
      return true, !failed, issued;
    }

    /** Rejected specs change nothing.  For the others the changes are those of the plan up to the
        first call that fails, that call included when it took effect, and Ready is reported
        exactly when no call failed, every workload has its replicas and the API answered. */
    method Reconcile(c: Cluster, refs: References, parse: QuantityParser, outcomes: Outcomes,
                     observe: Observation, healthy: bool)
      returns (report: Option<Report>, ghost issued: nat)
      modifies this
      ensures GoReconciled(c, refs, parse, outcomes, observe, healthy, old(objects), objects, issued, report)
      ensures report.Some? && report.value.ready <==>
                && Accepted(c.spec, refs, parse) && Buildable(c.spec, parse)
                && issued == |Slots(StoreMode(c.spec))| && AllReady(c, parse, observe) && healthy
    {
      issued := 0;
      var problem := GoValidateReferences(c.spec, refs, parse);
      if problem.Some? { return Some(Report(false, InvalidConfiguration, 0)), issued; }

      DesiredAreCalled(c, parse);
      DeletionsAreCalled(c, GoDesired(c, parse));
      var applied, settled;
      applied, settled, issued :=
        Change(c, Objects(c, parse), ObsoleteKeys(c), outcomes, CallsFor(c, GoDesired(c, parse)));
      if !applied { return Some(Report(false, ReconcileFailed, 0)), issued; }
      if !settled { return None, issued; }
      report := Assess(c, parse, observe, healthy);
    }
  }

  /** The calls that were issued, and what they made of the objects. */
  ghost predicate Ran<O, D>(apply: Applying<O, D>, calls: seq<Call<D>>, outcomes: Outcomes,
                            before: map<Key, O>, after: map<Key, O>, issued: nat)
  {
    && StoppedAt(outcomes, issued, |calls|)
    && after == PerformAll(apply, before, calls[..Landed(outcomes, issued, |calls|)])
  }

  /** The status that a reconciliation of an accepted spec reports; None when it reports none. */
  ghost predicate ReportOf(c: Cluster, parse: QuantityParser, observe: Observation, healthy: bool,
                           issued: nat, report: Option<Report>)
    requires Buildable(c.spec, parse)
  {
    if issued < |PutSlots(StoreMode(c.spec))| then report == Some(Report(false, ReconcileFailed, 0))
    else if issued < |Slots(StoreMode(c.spec))| then report.None?
    else Assessed(c, parse, observe, healthy, report)
  }

  /** Everything a Go reconciliation does and reports: nothing but a report for a spec it rejects. */
  ghost predicate GoReconciled(c: Cluster, refs: References, parse: QuantityParser, outcomes: Outcomes,
                               observe: Observation, healthy: bool, before: map<Key, Object>, after: map<Key, Object>,
                               issued: nat, report: Option<Report>)
  {
    if !Accepted(c.spec, refs, parse) then
      after == before && report == Some(Report(false, InvalidConfiguration, 0))
    else
      && Buildable(c.spec, parse)
      && Ran(Replace, CallsFor(c, GoDesired(c, parse)), outcomes, before, after, issued)
      && ReportOf(c, parse, observe, healthy, issued, report)
  }

  /** As ReportOf, except that a failure to apply is reported only when it is "not found", which also
      goes for a failure to read. */
  ghost predicate KopfReportOf(c: Cluster, parse: QuantityParser, observe: Observation, healthy: bool,
                               notFound: bool, issued: nat, report: Option<Report>)
    requires Buildable(c.spec, parse)
  {
    var failure := if notFound then Some(Report(false, InvalidConfiguration, 0)) else None;
    if issued < |PutSlots(StoreMode(c.spec))| then report == failure
    else if issued < |Slots(StoreMode(c.spec))| then report.None?
    else if !AllObserved(c, observe) then report == failure
    else Assessed(c, parse, observe, healthy, report)
  }

  ghost predicate StoppedAtStart(outcomes: Outcomes, issued: nat) {
    forall i: nat | i < issued :: outcomes(i).Done?
  }

  lemma DesiredKey(c: Cluster, parse: QuantityParser, i: nat)
    requires Buildable(c.spec, parse) && i < |PutSlots(StoreMode(c.spec))|
    ensures GoDesired(c, parse)[i].key == KeyAt(IdOf(c), Slots(StoreMode(c.spec))[i])
  {
    ObjectForHasKey(c, parse, PutSlots(StoreMode(c.spec))[i]);
  }

  lemma DesiredAreCalled(c: Cluster, parse: QuantityParser)
    requires Buildable(c.spec, parse)
    ensures var built, calls := Objects(c, parse), CallsFor(c, GoDesired(c, parse));
            forall i | 0 <= i < |built| :: calls[i] == Put(built[i].key, OwnedObject(built[i], c))
  {
    var built := Objects(c, parse);
    forall i | 0 <= i < |built|
      ensures CallsFor(c, GoDesired(c, parse))[i] == Put(built[i].key, OwnedObject(built[i], c))
    {
      DesiredKey(c, parse, i);
    }
  }

  /** Wherever a reconciliation stops: the calls that would still change their key are those that would
      before and have not landed, and no other key has changed.  When no call failed there is none, and
      repeating the reconciliation changes nothing. */
  lemma RunConverges<O(!new), D>(apply: Applying<O, D>, calls: seq<Call<D>>, id: ClusterId, mode: Mode,
                                 outcomes: Outcomes, before: map<Key, O>, after: map<Key, O>, issued: nat)
    requires Follows(calls, id, mode) && Repeatable(apply, calls) && Ran(apply, calls, outcomes, before, after, issued)
    ensures forall i :: i in Differing(apply, after, calls)
              <==> i in Differing(apply, before, calls) && i >= Landed(outcomes, issued, |calls|)
    ensures issued == |calls| ==> Differing(apply, after, calls) == {} && PerformAll(apply, after, calls) == after
    ensures forall key | key !in ManagedKeys(id) :: Lookup(after, key) == Lookup(before, key)
  {
    var landed := Landed(outcomes, issued, |calls|);
    EachCallSettlesItsKey(apply, before, calls, id, mode, landed);
    CallKeys(calls, id, mode);
    AfterCalls(apply, before, calls[..landed]);
    forall key | key !in ManagedKeys(id) ensures Lookup(after, key) == Lookup(before, key) {
      TouchesOnlyManagedKeys(calls, id, mode, key);
      TouchedByPrefix(calls, landed, key);
    }
    if issued == |calls| {
      assert calls[..landed] == calls;
      SecondRunChangesNothing(apply, before, calls, id, mode);
    }
  }

  /** A Go reconciliation never makes more managed keys differ from what is desired, and leaves none
      that does when no call fails; repeating it then changes nothing. */
  lemma GoConverges(c: Cluster, parse: QuantityParser, outcomes: Outcomes,
                    before: map<Key, Object>, after: map<Key, Object>, issued: nat)
    requires Buildable(c.spec, parse)
    requires Ran(Replace, CallsFor(c, GoDesired(c, parse)), outcomes, before, after, issued)
    ensures var calls := CallsFor(c, GoDesired(c, parse));
            && Differing(Replace, after, calls) <= Differing(Replace, before, calls)
            && (forall i :: i in Differing(Replace, after, calls)
                  <==> i in Differing(Replace, before, calls) && i >= Landed(outcomes, issued, |calls|))
            && (issued == |calls| ==>
                  Differing(Replace, after, calls) == {} && PerformAll(Replace, after, calls) == after)
            && forall key | key !in ManagedKeys(IdOf(c)) :: Lookup(after, key) == Lookup(before, key)
  {
    CallsForFollows(c, GoDesired(c, parse));
    RunConverges(Replace, CallsFor(c, GoDesired(c, parse)), IdOf(c), StoreMode(c.spec),
                 outcomes, before, after, issued);
  }

  lemma TouchedByPrefix<D>(calls: seq<Call<D>>, n: nat, key: Key)
    requires n <= |calls|
    ensures Touches(calls[..n], key) ==> Touches(calls, key)
  {
    if i :| 0 <= i < n && calls[..n][i].key == key { assert calls[i].key == key; }
  }

  /** How an apply ends that has found the object, or not, and writes when it is present, or not. */
  function WriteOutcome(found: bool, present: bool, outcome: Outcome): Outcome {
    if found == present then outcome else Refused
  }

  /** How call i of a Kopf reconciliation ends, of which the first ones are applies. */
  ghost predicate Lands(landings: Outcomes, outcomes: Outcomes, found: nat -> bool, before: map<Key, Json>,
                        calls: seq<Call<Desired>>, applies: nat, i: nat)
  {
    landings(i) == if i < applies && i < |calls|
                   then WriteOutcome(found(i), calls[i].key in PerformAll(CreateOrMerge, before, calls[..i]),
                                     outcomes(i))
                   else outcomes(i)
  }

  ghost predicate AllLand(landings: Outcomes, outcomes: Outcomes, found: nat -> bool, before: map<Key, Json>,
                          calls: seq<Call<Desired>>, applies: nat)
  {
    forall i: nat :: Lands(landings, outcomes, found, before, calls, applies, i)
  }

  ghost function Landings(outcomes: Outcomes, found: nat -> bool, before: map<Key, Json>, calls: seq<Call<Desired>>,
                          applies: nat): (landings: Outcomes)
    ensures AllLand(landings, outcomes, found, before, calls, applies)
  {
    (i: nat) =>
      if i < applies && i < |calls|
      then WriteOutcome(found(i), calls[i].key in PerformAll(CreateOrMerge, before, calls[..i]), outcomes(i))
      else outcomes(i)
  }

  ghost function KopfLandings(c: Cluster, parse: QuantityParser, outcomes: Outcomes, found: nat -> bool,
                              before: map<Key, Json>): Outcomes
    requires Buildable(c.spec, parse)
  {
    Landings(outcomes, found, before, CallsFor(c, KopfDesired(c, parse)), |Documents(c, parse)|)
  }

  /** Everything a Kopf reconciliation does and reports: nothing but a report for a spec it rejects. */
  ghost predicate KopfReconciled(c: Cluster, refs: References, parse: QuantityParser, found: nat -> bool,
                                 outcomes: Outcomes, notFound: bool, observe: Observation, healthy: bool,
                                 before: map<Key, Json>, after: map<Key, Json>, issued: nat, report: Option<Report>)
  {
    if !KopfAccepted(c.spec, refs, parse) then
      after == before && report == Some(Report(false, InvalidConfiguration, 0))
    else
      && Buildable(c.spec, parse)
      && Ran(CreateOrMerge, CallsFor(c, KopfDesired(c, parse)), KopfLandings(c, parse, outcomes, found, before),
             before, after, issued)
      && KopfReportOf(c, parse, observe, healthy, notFound, issued, report)
  }

  /** The objects of the API server, as the Kopf controller changes them. */
  class KopfServer {
    var objects: map<Key, Json>

    constructor (objects: map<Key, Json>)
      ensures this.objects == objects
    {
      this.objects := objects;
    }

    /** Reads the object, then creates it when the read found nothing and patches it otherwise.  found is
        what the read returned; when the object came or went since, the second call is refused. */
    method ApplyObject(c: Cluster, desired: Desired, found: bool, outcome: Outcome) returns (failed: bool)
      modifies this
      ensures var landing := WriteOutcome(found, Agreement.DocumentKey(desired) in old(objects), outcome);
              && (failed <==> !landing.Done?)
              && objects == if landing.Refused? then old(objects)
                            else Perform(CreateOrMerge, old(objects),
                                         Put(Agreement.DocumentKey(desired), Owned(desired, c)))
    {
      var metadata := desired.metadata["ownerReferences" := OwnerReferences(c)];
      var key := Agreement.DocumentKey(desired);
      if outcome.Refused? { return true; }
      if !found {
        if key in objects { return true; }
        objects := objects[key := Creation(desired.(metadata := metadata))];
      } else {
        if key !in objects { return true; }
        objects := objects[key := Patched(objects[key], Amendment(desired.(metadata := metadata)))];
      }
      failed := !outcome.Done?;
    }

    /** Deleting an object that is not there is no failure. */
    method DeleteIfPresent(key: Key, outcome: Outcome) returns (failed: bool)
      modifies this
      ensures failed <==> !outcome.Done?
      ensures objects == if outcome.Refused? then old(objects)
                         else Perform<Json, Desired>(CreateOrMerge, old(objects), Remove(key))
    {
      if !outcome.Refused? { objects := objects - {key}; }
      failed := !outcome.Done?;
    }

    method ApplyAll(c: Cluster, documents: seq<Desired>, found: nat -> bool, outcomes: Outcomes,
                    ghost landings: Outcomes, ghost calls: seq<Call<Desired>>)
      returns (failed: bool, ghost issued: nat)
      requires |documents| <= |calls|
      requires forall i | 0 <= i < |documents| ::
                 calls[i] == Put(Agreement.DocumentKey(documents[i]), Owned(documents[i], c))
      requires AllLand(landings, outcomes, found, objects, calls, |documents|)
      modifies this
      ensures StoppedAt(landings, issued, |documents|) && (failed <==> issued < |documents|)
      ensures objects == PerformAll(CreateOrMerge, old(objects), calls[..Landed(landings, issued, |documents|)])
    {
      issued := 0;
      for i := 0 to |documents|
        invariant issued == i && StoppedAtStart(landings, i)
        invariant objects == PerformAll(CreateOrMerge, old(objects), calls[..i])
      {
        PerformOneMore(CreateOrMerge, old(objects), calls, i);
        assert Lands(landings, outcomes, found, old(objects), calls, |documents|, i);
        failed := ApplyObject(c, documents[i], found(i), outcomes(i));
        if failed { return; }
        issued := i + 1;
      }
      failed := false;
    }

    method DeleteAll(keys: seq<Key>, outcomes: Outcomes, start: nat, ghost landings: Outcomes,
                     ghost calls: seq<Call<Desired>>, ghost before: map<Key, Json>)
      returns (failed: bool, ghost issued: nat)
      requires |calls| == start + |keys| && forall i | 0 <= i < |keys| :: calls[start + i] == Remove(keys[i])
      requires StoppedAtStart(landings, start) && objects == PerformAll(CreateOrMerge, before, calls[..start])
      requires forall i: nat | i >= start :: landings(i) == outcomes(i)
      modifies this
      ensures StoppedAt(landings, issued, |calls|) && start <= issued && (failed <==> issued < |calls|)
      ensures objects == PerformAll(CreateOrMerge, before, calls[..Landed(landings, issued, |calls|)])
    {
      issued := start;
      for i := 0 to |keys|
        invariant issued == start + i && StoppedAtStart(landings, issued)
        invariant objects == PerformAll(CreateOrMerge, before, calls[..issued])
      {
        PerformOneMore(CreateOrMerge, before, calls, issued);
        failed := DeleteIfPresent(keys[i], outcomes(start + i));
        if failed { return; }
        issued := issued + 1;
      }
      failed := false;
    }

    /** Applies, then deletes; applied means that no apply failed, settled that no call failed. */
    method Change(c: Cluster, documents: seq<Desired>, keys: seq<Key>, found: nat -> bool, outcomes: Outcomes,
                  ghost landings: Outcomes, ghost calls: seq<Call<Desired>>)
      returns (applied: bool, settled: bool, ghost issued: nat)
      requires |calls| == |documents| + |keys|
      requires forall i | 0 <= i < |documents| ::
                 calls[i] == Put(Agreement.DocumentKey(documents[i]), Owned(documents[i], c))
      requires forall i | 0 <= i < |keys| :: calls[|documents| + i] == Remove(keys[i])
      requires AllLand(landings, outcomes, found, objects, calls, |documents|)
      modifies this
      ensures Ran(CreateOrMerge, calls, landings, old(objects), objects, issued)
      ensures (applied <==> issued >= |documents|) && (settled <==> issued == |calls|)
    {
      var failed;
      failed, issued := ApplyAll(c, documents, found, outcomes, landings, calls);
      if failed { return false, false, issued; }
      forall i: nat | i >= |documents| ensures landings(i) == outcomes(i) {
        assert Lands(landings, outcomes, found, old(objects), calls, |documents|, i);
      }
      failed, issued := DeleteAll(keys, outcomes, |documents|, landings, calls, old(objects));
      return true, !failed, issued;
    }

    /** None is the TemporaryError that makes Kopf retry without writing a status.  An apply or a
        read that is answered "not found" counts as a configuration problem instead. */
    method Reconcile(c: Cluster, refs: References, parse: QuantityParser, found: nat -> bool, outcomes: Outcomes,
                     notFound: bool, observe: Observation, healthy: bool)
      returns (report: Option<Report>, ghost issued: nat)
      modifies this
      ensures KopfReconciled(c, refs, parse, found, outcomes, notFound, observe, healthy, old(objects), objects,
                             issued, report)
      ensures report.Some? && report.value.ready <==>
                && KopfAccepted(c.spec, refs, parse) && Buildable(c.spec, parse)
                && issued == |Slots(StoreMode(c.spec))| && AllReady(c, parse, observe) && healthy
    {
      issued := 0;
      var invalid := Some(Report(false, InvalidConfiguration, 0));
      var problem := KopfValidateReferences(c.spec, refs, parse);
      if problem.Some? { return invalid, issued; }

      DocumentsAreCalled(c, parse);
      DeletionsAreCalled(c, KopfDesired(c, parse));
      var applied, settled;
      applied, settled, issued :=
        Change(c, Documents(c, parse), ObsoleteKeys(c), found, outcomes,
               KopfLandings(c, parse, outcomes, found, objects),
               CallsFor(c, KopfDesired(c, parse)));
      if !applied { return if notFound then invalid else None, issued; }
      if !settled { return None, issued; }
      report := Assess(c, parse, observe, healthy);
      if report.None? && notFound { report := invalid; }
    }
  }

  lemma DocumentHasKey(c: Cluster, parse: QuantityParser, i: nat)
    requires Buildable(c.spec, parse) && i < |PutSlots(StoreMode(c.spec))|
    ensures Agreement.DocumentKey(Documents(c, parse)[i]) == KeyAt(IdOf(c), Slots(StoreMode(c.spec))[i])
  {
    var slot := PutSlots(StoreMode(c.spec))[i];
    Agreement.BuildersAgree(c, parse, slot);
    Agreement.AgreeingKeys(ObjectFor(c, parse, slot), Document(c, parse, slot));
    ObjectForHasKey(c, parse, slot);
  }

  lemma DocumentsAreCalled(c: Cluster, parse: QuantityParser)
    requires Buildable(c.spec, parse)
    ensures var documents, calls := Documents(c, parse), CallsFor(c, KopfDesired(c, parse));
            forall i | 0 <= i < |documents| ::
              calls[i] == Put(Agreement.DocumentKey(documents[i]), Owned(documents[i], c))
  {
    var documents := Documents(c, parse);
    forall i | 0 <= i < |documents|
      ensures CallsFor(c, KopfDesired(c, parse))[i] == Put(Agreement.DocumentKey(documents[i]), Owned(documents[i], c))
    {
      DocumentHasKey(c, parse, i);
    }
  }

  lemma KopfCall(c: Cluster, parse: QuantityParser, i: nat)
    requires Buildable(c.spec, parse) && i < |PutSlots(StoreMode(c.spec))|
    ensures var slot := PutSlots(StoreMode(c.spec))[i];
            && Slots(StoreMode(c.spec))[i] == slot
            && CallsFor(c, KopfDesired(c, parse))[i] == Put(KeyAt(IdOf(c), slot), Owned(Document(c, parse, slot), c))
  {}

  lemma KopfCallIsIdempotent(c: Cluster, parse: QuantityParser, i: nat, stored: Option<Json>)
    requires Buildable(c.spec, parse) && i < |PutSlots(StoreMode(c.spec))|
    ensures var d := CallsFor(c, KopfDesired(c, parse))[i].desired;
            CreateOrMerge(Some(CreateOrMerge(stored, d)), d) == CreateOrMerge(stored, d)
  {
    KopfCall(c, parse, i);
    var slot := PutSlots(StoreMode(c.spec))[i];
    KopfLaws.DocumentFits(c, c, parse, slot);
    KopfLaws.ApplyingTwiceIsApplyingOnce(stored, Owned(Document(c, parse, slot), c));
  }

  lemma KopfRepeatable(c: Cluster, parse: QuantityParser)
    requires Buildable(c.spec, parse)
    ensures Repeatable(CreateOrMerge, CallsFor(c, KopfDesired(c, parse)))
  {
    var calls := CallsFor(c, KopfDesired(c, parse));
    forall i, stored | 0 <= i < |calls| && calls[i].Put?
      ensures CreateOrMerge(Some(CreateOrMerge(stored, calls[i].desired)), calls[i].desired)
              == CreateOrMerge(stored, calls[i].desired)
    {
      KopfCallIsIdempotent(c, parse, i, stored);
    }
  }

  /** Wherever a Kopf reconciliation stops, no managed key newly differs from what applying its document
      makes of it, and no other key has changed.  When no call failed, the managed keys are exactly those
      of the desired documents, each merged into what was stored, and repeating it changes nothing. */
  lemma KopfConverges(c: Cluster, parse: QuantityParser, outcomes: Outcomes,
                      before: map<Key, Json>, after: map<Key, Json>, issued: nat)
    requires Buildable(c.spec, parse)
    requires Ran(CreateOrMerge, CallsFor(c, KopfDesired(c, parse)), outcomes, before, after, issued)
    ensures var calls, mode := CallsFor(c, KopfDesired(c, parse)), StoreMode(c.spec);
            && |calls| == |Slots(mode)|
            && (forall i :: i in Differing(CreateOrMerge, after, calls)
                  <==> i in Differing(CreateOrMerge, before, calls) && i >= Landed(outcomes, issued, |calls|))
            && (forall key | key !in ManagedKeys(IdOf(c)) :: Lookup(after, key) == Lookup(before, key))
            && (issued == |calls| ==>
                  && Differing(CreateOrMerge, after, calls) == {} && PerformAll(CreateOrMerge, after, calls) == after
                  && forall i | 0 <= i < |calls| ::
                       var key := KeyAt(IdOf(c), Slots(mode)[i]);
                       Lookup(after, key) ==
                       if i < |PutSlots(mode)| then Some(CreateOrMerge(Lookup(before, key), calls[i].desired))
                       else None)
  {
    var calls, mode := CallsFor(c, KopfDesired(c, parse)), StoreMode(c.spec);
    CallsForFollows(c, KopfDesired(c, parse));
    KopfRepeatable(c, parse);
    RunConverges(CreateOrMerge, calls, IdOf(c), mode, outcomes, before, after, issued);
    if issued == |calls| {
      assert calls[..Landed(outcomes, issued, |calls|)] == calls;
      CompleteRunLeavesExactlyTheDesired(CreateOrMerge, before, calls, IdOf(c), mode);
    }
  }

  /** What an earlier reconciliation leaves for a later one of another mode to build on: the topology that
      the later one applies has been deleted. */
  ghost function LeftFor(store: map<Key, Json>, earlier: Cluster, later: Cluster): map<Key, Json> {
    if StoreMode(earlier.spec) == StoreMode(later.spec) then store
    else store - TopologyKeys(IdOf(later), StoreMode(later.spec))
  }

  /** After any edit, whatever was stored, nothing of the earlier spec is left once the later one has
      been reconciled, exactly when the later spec still names every Service annotation of the earlier
      one.  After a change of mode the objects of the new topology are created afresh. */
  lemma KopfForgetsEarlierSpec(earlier: Cluster, later: Cluster, parse: QuantityParser)
    requires earlier.namespace == later.namespace && earlier.name == later.name
    requires Buildable(earlier.spec, parse) && Buildable(later.spec, parse)
    ensures var es, ls := CallsFor(earlier, KopfDesired(earlier, parse)), CallsFor(later, KopfDesired(later, parse));
            (forall store :: PerformAll(CreateOrMerge, PerformAll(CreateOrMerge, store, es), ls)
                             == PerformAll(CreateOrMerge, LeftFor(store, earlier, later), ls))
            <==> earlier.spec.service.annotations.Keys <= later.spec.service.annotations.Keys
  {
    var es, ls := CallsFor(earlier, KopfDesired(earlier, parse)), CallsFor(later, KopfDesired(later, parse));
    if earlier.spec.service.annotations.Keys <= later.spec.service.annotations.Keys {
      forall store ensures PerformAll(CreateOrMerge, PerformAll(CreateOrMerge, store, es), ls)
                           == PerformAll(CreateOrMerge, LeftFor(store, earlier, later), ls)
      {
        LaterRunAbsorbs(earlier, later, parse, store);
      }
    } else {
      var store := DroppedAnnotationStays(earlier, later, parse);
    }
  }

  lemma ObsoleteIsRemoved(earlier: Cluster, later: Cluster, parse: QuantityParser, store: map<Key, Json>, key: Key)
    requires earlier.namespace == later.namespace && earlier.name == later.name
    requires Buildable(earlier.spec, parse) && StoreMode(earlier.spec) != StoreMode(later.spec)
    requires key in TopologyKeys(IdOf(later), StoreMode(later.spec))
    ensures Lookup(PerformAll(CreateOrMerge, store, CallsFor(earlier, KopfDesired(earlier, parse))), key) == None
  {
    var es, mode := CallsFor(earlier, KopfDesired(earlier, parse)), StoreMode(earlier.spec);
    CallsForFollows(earlier, KopfDesired(earlier, parse));
    CallKeys(es, IdOf(earlier), mode);
    AfterCalls(CreateOrMerge, store, es);
    SlotsVisitedOnce(mode);
    var slot :| slot in StoreSlots(StoreMode(later.spec)) && key == KeyAt(IdOf(later), slot);
    assert slot in ObsoleteSlots(mode);
    var j :| 0 <= j < |ObsoleteSlots(mode)| && ObsoleteSlots(mode)[j] == slot;
    assert Slots(mode)[|PutSlots(mode)| + j] == slot;
  }

  /** One call of the later reconciliation has the same effect on what the earlier one made of the store
      as on what it left for the later one. */
  lemma LaterCallAbsorbs(earlier: Cluster, later: Cluster, parse: QuantityParser, store: map<Key, Json>, i: nat)
    requires earlier.namespace == later.namespace && earlier.name == later.name
    requires Buildable(earlier.spec, parse) && Buildable(later.spec, parse)
    requires earlier.spec.service.annotations.Keys <= later.spec.service.annotations.Keys
    requires i < |Slots(StoreMode(later.spec))|
    ensures var es, ls := CallsFor(earlier, KopfDesired(earlier, parse)), CallsFor(later, KopfDesired(later, parse));
            Effect(CreateOrMerge, PerformAll(CreateOrMerge, store, es), ls[i])
            == Effect(CreateOrMerge, LeftFor(store, earlier, later), ls[i])
  {
    var mode := StoreMode(later.spec);
    if i < |PutSlots(mode)| {
      KopfCall(later, parse, i);
      var slot := PutSlots(mode)[i];
      if slot in PutSlots(StoreMode(earlier.spec)) {
        KeptCallAbsorbs(earlier, later, parse, store, i);
      } else {
        assert slot in StoreSlots(mode);
        assert KeyAt(IdOf(later), slot) in TopologyKeys(IdOf(later), mode);
        ObsoleteIsRemoved(earlier, later, parse, store, KeyAt(IdOf(later), slot));
      }
    }
  }

  lemma KeptCallAbsorbs(earlier: Cluster, later: Cluster, parse: QuantityParser, store: map<Key, Json>, i: nat)
    requires earlier.namespace == later.namespace && earlier.name == later.name
    requires Buildable(earlier.spec, parse) && Buildable(later.spec, parse)
    requires earlier.spec.service.annotations.Keys <= later.spec.service.annotations.Keys
    requires i < |PutSlots(StoreMode(later.spec))|
    requires PutSlots(StoreMode(later.spec))[i] in PutSlots(StoreMode(earlier.spec))
    ensures var es, ls := CallsFor(earlier, KopfDesired(earlier, parse)), CallsFor(later, KopfDesired(later, parse));
            Effect(CreateOrMerge, PerformAll(CreateOrMerge, store, es), ls[i])
            == Effect(CreateOrMerge, LeftFor(store, earlier, later), ls[i])
  {
    var es, ls := CallsFor(earlier, KopfDesired(earlier, parse)), CallsFor(later, KopfDesired(later, parse));
    SameSlotSamePlace(StoreMode(earlier.spec), StoreMode(later.spec), i);
    KopfCall(earlier, parse, i);
    KopfCall(later, parse, i);
    CallsForFollows(earlier, KopfDesired(earlier, parse));
    CallKeys(es, IdOf(earlier), StoreMode(earlier.spec));
    AfterCalls(CreateOrMerge, store, es);
    KopfLaws.OnlyDroppedAnnotationsSurvive(earlier, later, parse, PutSlots(StoreMode(later.spec))[i]);
    KeptKeyIsLeft(store, earlier, later, PutSlots(StoreMode(later.spec))[i]);
  }

  lemma SameSlotSamePlace(m: Mode, n: Mode, i: nat)
    requires i < |PutSlots(n)| && PutSlots(n)[i] in PutSlots(m)
    ensures i < |PutSlots(m)| && PutSlots(m)[i] == PutSlots(n)[i]
    ensures m != n ==> PutSlots(n)[i] !in StoreSlots(n)
  {}

  lemma KeptKeyIsLeft(store: map<Key, Json>, earlier: Cluster, later: Cluster, slot: Slot)
    requires StoreMode(earlier.spec) != StoreMode(later.spec) ==> slot !in StoreSlots(StoreMode(later.spec))
    ensures Lookup(LeftFor(store, earlier, later), KeyAt(IdOf(later), slot)) == Lookup(store, KeyAt(IdOf(later), slot))
  {
    var key := KeyAt(IdOf(later), slot);
    if StoreMode(earlier.spec) != StoreMode(later.spec) && key in TopologyKeys(IdOf(later), StoreMode(later.spec)) {
      var other :| other in StoreSlots(StoreMode(later.spec)) && key == KeyAt(IdOf(later), other);
      KeyAtInjective(IdOf(later), slot, IdOf(later), other);
    }
  }

  lemma LaterRunAbsorbs(earlier: Cluster, later: Cluster, parse: QuantityParser, store: map<Key, Json>)
    requires earlier.namespace == later.namespace && earlier.name == later.name
    requires Buildable(earlier.spec, parse) && Buildable(later.spec, parse)
    requires earlier.spec.service.annotations.Keys <= later.spec.service.annotations.Keys
    ensures var es, ls := CallsFor(earlier, KopfDesired(earlier, parse)), CallsFor(later, KopfDesired(later, parse));
            PerformAll(CreateOrMerge, PerformAll(CreateOrMerge, store, es), ls)
            == PerformAll(CreateOrMerge, LeftFor(store, earlier, later), ls)
  {
    var es, ls := CallsFor(earlier, KopfDesired(earlier, parse)), CallsFor(later, KopfDesired(later, parse));
    var id := IdOf(later);
    CallsForFollows(earlier, KopfDesired(earlier, parse));
    CallsForFollows(later, KopfDesired(later, parse));
    CallKeys(es, id, StoreMode(earlier.spec));
    AfterCalls(CreateOrMerge, store, es);
    var mid, left := PerformAll(CreateOrMerge, store, es), LeftFor(store, earlier, later);
    forall i | 0 <= i < |ls| ensures Effect(CreateOrMerge, mid, ls[i]) == Effect(CreateOrMerge, left, ls[i]) {
      LaterCallAbsorbs(earlier, later, parse, store, i);
    }
    forall key | !Touches(ls, key) ensures Lookup(mid, key) == Lookup(left, key) {
      TouchesOnlyManagedKeys(ls, id, StoreMode(later.spec), key);
      TouchesOnlyManagedKeys(es, id, StoreMode(earlier.spec), key);
      TopologyIsManaged(id, StoreMode(later.spec));
    }
    SameEffectsSameStore(CreateOrMerge, mid, left, ls, id, StoreMode(later.spec));
  }

  lemma DroppedAnnotationStays(earlier: Cluster, later: Cluster, parse: QuantityParser) returns (store: map<Key, Json>)
    requires earlier.namespace == later.namespace && earlier.name == later.name
    requires Buildable(earlier.spec, parse) && Buildable(later.spec, parse)
    requires !(earlier.spec.service.annotations.Keys <= later.spec.service.annotations.Keys)
    ensures var es, ls := CallsFor(earlier, KopfDesired(earlier, parse)), CallsFor(later, KopfDesired(later, parse));
            PerformAll(CreateOrMerge, PerformAll(CreateOrMerge, store, es), ls)
            != PerformAll(CreateOrMerge, LeftFor(store, earlier, later), ls)
  {
    var stored := DroppedAnnotationShows(earlier, later, parse);
    store := StoreWith(earlier, later, KopfDesired(earlier, parse), KopfDesired(later, parse), stored);
  }

  lemma DroppedAnnotationShows(earlier: Cluster, later: Cluster, parse: QuantityParser) returns (stored: Option<Json>)
    requires earlier.namespace == later.namespace && earlier.name == later.name
    requires Buildable(earlier.spec, parse) && Buildable(later.spec, parse)
    requires !(earlier.spec.service.annotations.Keys <= later.spec.service.annotations.Keys)
    ensures var e, l := CallsFor(earlier, KopfDesired(earlier, parse))[0],
                        CallsFor(later, KopfDesired(later, parse))[0];
            && e.Put? && l.Put? && l.key == KeyAt(IdOf(later), Slot(Service, Api)) && e.key == l.key
            && CreateOrMerge(Some(CreateOrMerge(stored, e.desired)), l.desired) != CreateOrMerge(stored, l.desired)
  {
    FirstCall(earlier, parse);
    FirstCall(later, parse);
    KopfLaws.OnlyDroppedAnnotationsSurvive(earlier, later, parse, Slot(Service, Api));
    var e := Owned(Document(earlier, parse, Slot(Service, Api)), earlier);
    var l := Owned(Document(later, parse, Slot(Service, Api)), later);
    stored :| CreateOrMerge(Some(CreateOrMerge(stored, e)), l) != CreateOrMerge(stored, l);
  }

  lemma StoreWith(earlier: Cluster, later: Cluster, es: seq<Desired>, ls: seq<Desired>, stored: Option<Json>)
    returns (store: map<Key, Json>)
    requires |es| == |PutSlots(StoreMode(earlier.spec))| && |ls| == |PutSlots(StoreMode(later.spec))|
    requires var e, l := CallsFor(earlier, es)[0], CallsFor(later, ls)[0];
             && e.Put? && l.Put? && l.key == KeyAt(IdOf(later), Slot(Service, Api)) && e.key == l.key
             && CreateOrMerge(Some(CreateOrMerge(stored, e.desired)), l.desired) != CreateOrMerge(stored, l.desired)
    ensures PerformAll(CreateOrMerge, PerformAll(CreateOrMerge, store, CallsFor(earlier, es)), CallsFor(later, ls))
            != PerformAll(CreateOrMerge, LeftFor(store, earlier, later), CallsFor(later, ls))
  {
    store := if stored.None? then map[] else map[KeyAt(IdOf(later), Slot(Service, Api)) := stored.value];
    KeptKeyIsLeft(store, earlier, later, Slot(Service, Api));
    EarlierShows(earlier, later, es, ls, store, LeftFor(store, earlier, later));
  }

  lemma EarlierShows(earlier: Cluster, later: Cluster, es: seq<Desired>, ls: seq<Desired>,
                     store: map<Key, Json>, left: map<Key, Json>)
    requires |es| == |PutSlots(StoreMode(earlier.spec))| && |ls| == |PutSlots(StoreMode(later.spec))|
    requires CallsFor(earlier, es)[0].Put? && CallsFor(later, ls)[0].Put?
    requires var e, l := CallsFor(earlier, es)[0], CallsFor(later, ls)[0];
             && e.key == l.key && Lookup(left, l.key) == Lookup(store, l.key)
             && CreateOrMerge(Some(CreateOrMerge(Lookup(store, l.key), e.desired)), l.desired)
                != CreateOrMerge(Lookup(store, l.key), l.desired)
    ensures PerformAll(CreateOrMerge, PerformAll(CreateOrMerge, store, CallsFor(earlier, es)), CallsFor(later, ls))
            != PerformAll(CreateOrMerge, left, CallsFor(later, ls))
  {
    FirstCallDecides(earlier, es, store);
    FirstCallDecides(later, ls, PerformAll(CreateOrMerge, store, CallsFor(earlier, es)));
    FirstCallDecides(later, ls, left);
  }

  lemma FirstCall(c: Cluster, parse: QuantityParser)
    requires Buildable(c.spec, parse)
    ensures Slot(Service, Api) in PutSlots(StoreMode(c.spec)) && |CallsFor(c, KopfDesired(c, parse))| > 0
    ensures CallsFor(c, KopfDesired(c, parse))[0]
            == Put(KeyAt(IdOf(c), Slot(Service, Api)), Owned(Document(c, parse, Slot(Service, Api)), c))
  {
    assert PutSlots(StoreMode(c.spec))[0] == Slot(Service, Api);
    KopfCall(c, parse, 0);
  }

  /** What a reconciliation makes of the key that it calls on first. */
  lemma FirstCallDecides(c: Cluster, desired: seq<Desired>, store: map<Key, Json>)
    requires |desired| == |PutSlots(StoreMode(c.spec))|
    ensures var calls := CallsFor(c, desired);
            && |calls| > 0
            && Lookup(PerformAll(CreateOrMerge, store, calls), calls[0].key) == Effect(CreateOrMerge, store, calls[0])
  {
    CallsForFollows(c, desired);
    CallKeys(CallsFor(c, desired), IdOf(c), StoreMode(c.spec));
    AfterCalls(CreateOrMerge, store, CallsFor(c, desired));
  }
}
