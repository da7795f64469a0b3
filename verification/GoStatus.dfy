/**
 The status that the Go controller writes, over many reconciliations with edits in between: which
 generation it names, and what it says about the objects.  setStatus reads the resource again before it
 writes, so the generation it names need not be the one whose spec was reconciled.
 */
module GoStatus {
  import opened Options
  import opened Names
  import opened ClusterSpec
  import opened Validation
  import opened Plan
  import opened GoObjects
  import opened Reconciler
  import Interleaving
  import MergePatch

  /** One cluster, and its spec at every generation. */
  datatype World = World(cluster: Cluster, specs: nat -> Spec, parse: QuantityParser) {
    function At(generation: nat): Cluster { cluster.(spec := specs(generation)) }
  }

  /** read is the generation whose spec is reconciled, latest the one that setStatus has read since. */
  datatype Worker =
    | Idle
    | Applying(read: nat)
    | Reporting(read: nat, report: Report)
    | Stamping(read: nat, report: Report, latest: nat)

  /** reconciled is the generation whose spec led to the report; it is not part of the resource. */
  datatype Stamp = Stamp(report: Report, observedGeneration: nat, reconciled: nat)

  datatype Resource = Resource(generation: nat, status: Option<Stamp>, worker: Worker, objects: map<Key, Object>)

  /** Work is a reconciliation from validation to its report.  Elsewhere changes objects that are not the
      cluster's. */
  datatype Event =
    | Edit
    | Begin
    | Work(refs: References, outcomes: Outcomes, observe: Observation, healthy: bool,
           after: map<Key, Object>, issued: nat, report: Option<Report>)
    | ReadAgain
    | Write
    | Abort
    | Elsewhere(objects: map<Key, Object>)

  ghost predicate SameManaged(id: ClusterId, before: map<Key, Object>, after: map<Key, Object>) {
    forall key | key in ManagedKeys(id) :: Lookup(after, key) == Lookup(before, key)
  }

  ghost function Next(w: World, r: Resource, event: Event): Resource {
    match event
    case Edit => r.(generation := r.generation + 1)
    case Begin => if r.worker.Idle? then r.(worker := Applying(r.generation)) else r
    case Work(refs, outcomes, observe, healthy, after, issued, report) =>
      if r.worker.Applying? && GoReconciled(w.At(r.worker.read), refs, w.parse, outcomes, observe, healthy,
                                            r.objects, after, issued, report)
      then r.(objects := after, worker := if report.Some? then Reporting(r.worker.read, report.value) else Idle)
      else r
    case ReadAgain =>
      // A conflicting write makes setStatus read once more.
      if r.worker.Reporting? || r.worker.Stamping?
      then r.(worker := Stamping(r.worker.read, r.worker.report, r.generation))
      else r
    case Write =>
      if r.worker.Stamping?
      then r.(status := Some(Stamp(r.worker.report, r.worker.latest, r.worker.read)), worker := Idle)
      else r
    case Abort => r.(worker := Idle)
    case Elsewhere(objects) =>
      if SameManaged(IdOf(w.cluster), r.objects, objects) then r.(objects := objects) else r
  }

  ghost function Exec(w: World, r: Resource, events: seq<Event>): Resource {
    if events == [] then r else Next(w, Exec(w, r, events[..|events| - 1]), events[|events| - 1])
  }

  // ---- The generation named ----

  ghost predicate Consistent(r: Resource) {
    && (r.status.Some? ==> r.status.value.reconciled <= r.status.value.observedGeneration <= r.generation)
    && (!r.worker.Idle? ==> r.worker.read <= r.generation)
    && (r.worker.Stamping? ==>
          && r.worker.read <= r.worker.latest <= r.generation
          && (r.status.Some? ==> r.status.value.observedGeneration <= r.worker.latest))
  }

  /** One resource comes after another. */
  ghost predicate Advances(r: Resource, after: Resource) {
    && r.generation <= after.generation
    && (r.status.Some? ==>
          after.status.Some? && r.status.value.observedGeneration <= after.status.value.observedGeneration)
  }

  lemma NextAdvances(w: World, r: Resource, event: Event)
    requires Consistent(r)
    ensures Consistent(Next(w, r, event)) && Advances(r, Next(w, r, event))
  {}

  /** Over every run with interleaved edits, observedGeneration never exceeds the generation, never
      decreases, and is never older than the generation whose spec was reconciled. */
  lemma {:induction false} ObservedGenerationAdvances(w: World, r: Resource, events: seq<Event>)
    requires Consistent(r)
    ensures Consistent(Exec(w, r, events)) && Advances(r, Exec(w, r, events))
    decreases |events|
  {
    if events != [] {
      ObservedGenerationAdvances(w, r, events[..|events| - 1]);
      NextAdvances(w, Exec(w, r, events[..|events| - 1]), events[|events| - 1]);
    }
  }

  function Edits(events: seq<Event>): nat {
    if events == [] then 0
    else Edits(events[..|events| - 1]) + if events[|events| - 1].Edit? then 1 else 0
  }

  function EditsBeforeLastRead(events: seq<Event>): nat {
    if events == [] then 0
    else if events[|events| - 1].ReadAgain? then Edits(events[..|events| - 1])
    else EditsBeforeLastRead(events[..|events| - 1])
  }

  ghost predicate WithinReconciliation(events: seq<Event>) {
    forall i | 0 <= i < |events| :: !events[i].Begin? && !events[i].Write? && !events[i].Abort?
  }

  /** Where a reconciliation that began at a generation stands after some events. */
  ghost predicate Stands(r: Resource, begun: nat, events: seq<Event>) {
    && r.generation == begun + Edits(events)
    && (!r.worker.Idle? ==> r.worker.read == begun)
    && (r.worker.Stamping? ==> r.worker.latest == begun + EditsBeforeLastRead(events))
  }

  lemma NextStands(w: World, r: Resource, begun: nat, events: seq<Event>, event: Event)
    requires Stands(r, begun, events) && !event.Begin? && !event.Write? && !event.Abort?
    ensures Stands(Next(w, r, event), begun, events + [event])
  {
    assert (events + [event])[..|events|] == events;
  }

  lemma {:induction false} ReconciliationStands(w: World, r: Resource, events: seq<Event>)
    requires r.worker.Idle? && WithinReconciliation(events)
    ensures Stands(Exec(w, Next(w, r, Begin), events), r.generation, events)
    decreases |events|
  {
    if events != [] {
      var init, last := events[..|events| - 1], events[|events| - 1];
      ReconciliationStands(w, r, init);
      NextStands(w, Exec(w, Next(w, r, Begin), init), r.generation, init, last);
      assert events == init + [last];
    }
  }

  /** Whatever edits, re-reads and other changes fall into a reconciliation, the status it writes names the
      reconciled generation plus the number of edits before the last re-read.  So it names the reconciled
      generation exactly when no edit came before that re-read. */
  lemma StampCountsEditsBeforeLastRead(w: World, r: Resource, events: seq<Event>)
    requires r.worker.Idle? && WithinReconciliation(events)
    requires Exec(w, Next(w, r, Begin), events).worker.Stamping?
    ensures var last := Exec(w, Next(w, r, Begin), events);
            var stamp := Next(w, last, Write).status;
            && stamp == Some(Stamp(last.worker.report, r.generation + EditsBeforeLastRead(events), r.generation))
            && (stamp.value.observedGeneration == stamp.value.reconciled <==> EditsBeforeLastRead(events) == 0)
  {
    ReconciliationStands(w, r, events);
  }

  /** A reconciliation that is given up never writes: until another one begins, the status stays. */
  lemma {:induction false} GivenUpWritesNothing(w: World, r: Resource, events: seq<Event>)
    requires forall i | 0 <= i < |events| :: !events[i].Begin?
    ensures Exec(w, Next(w, r, Abort), events).status == r.status
    ensures Exec(w, Next(w, r, Abort), events).worker.Idle?
    decreases |events|
  {
    if events != [] { GivenUpWritesNothing(w, r, events[..|events| - 1]); }
  }

  // ---- What a Ready status says about the objects ----

  /** No managed key differs from what the spec of the generation asks for. */
  ghost predicate Settled(w: World, generation: nat, objects: map<Key, Object>) {
    && Buildable(w.At(generation).spec, w.parse)
    && Differing(Replace, objects, CallsFor(w.At(generation), GoDesired(w.At(generation), w.parse))) == {}
  }

  /** A report of readiness that has not been written yet still describes the objects. */
  ghost predicate ReadyIsSettled(w: World, r: Resource) {
    (r.worker.Reporting? || r.worker.Stamping?) && r.worker.report.ready ==> Settled(w, r.worker.read, r.objects)
  }

  lemma WorkSettles(w: World, read: nat, refs: References, outcomes: Outcomes, observe: Observation, healthy: bool,
                    before: map<Key, Object>, after: map<Key, Object>, issued: nat, report: Option<Report>)
    requires GoReconciled(w.At(read), refs, w.parse, outcomes, observe, healthy, before, after, issued, report)
    requires report.Some? && report.value.ready
    ensures Settled(w, read, after)
  {
    GoConverges(w.At(read), w.parse, outcomes, before, after, issued);
    CallsForFollows(w.At(read), GoDesired(w.At(read), w.parse));
  }

  lemma ElsewhereStaysSettled(w: World, generation: nat, before: map<Key, Object>, after: map<Key, Object>)
    requires Settled(w, generation, before) && SameManaged(IdOf(w.cluster), before, after)
    ensures Settled(w, generation, after)
  {
    var c := w.At(generation);
    var calls := CallsFor(c, GoDesired(c, w.parse));
    CallsForFollows(c, GoDesired(c, w.parse));
    SameKeysSameDiffering(calls, IdOf(c), StoreMode(c.spec), before, after);
  }

  lemma SameKeysSameDiffering(calls: seq<Call<Object>>, id: ClusterId, mode: Mode,
                              before: map<Key, Object>, after: map<Key, Object>)
    requires Follows(calls, id, mode) && SameManaged(id, before, after)
    ensures Differing(Replace, after, calls) == Differing(Replace, before, calls)
  {
    forall i | 0 <= i < |calls| ensures Lookup(after, calls[i].key) == Lookup(before, calls[i].key) {
      TouchesOnlyManagedKeys(calls, id, mode, calls[i].key);
      assert Touches(calls, calls[i].key);
    }
  }

  lemma NextKeepsReadyIsSettled(w: World, r: Resource, event: Event)
    requires ReadyIsSettled(w, r)
    ensures ReadyIsSettled(w, Next(w, r, event))
  {
    var after := Next(w, r, event);
    if after.worker.Reporting? || after.worker.Stamping? {
      if after.worker.report.ready {
        if event.Work? && r.worker.Applying? {
          WorkSettles(w, r.worker.read, event.refs, event.outcomes, event.observe, event.healthy,
                      r.objects, event.after, event.issued, event.report);
        } else if event.Elsewhere? && SameManaged(IdOf(w.cluster), r.objects, event.objects) {
          ElsewhereStaysSettled(w, r.worker.read, r.objects, event.objects);
        }
      }
    }
  }

  lemma {:induction false} ReadyStaysSettled(w: World, r: Resource, events: seq<Event>)
    requires ReadyIsSettled(w, r)
    ensures ReadyIsSettled(w, Exec(w, r, events))
    decreases |events|
  {
    if events != [] {
      ReadyStaysSettled(w, r, events[..|events| - 1]);
      NextKeepsReadyIsSettled(w, Exec(w, r, events[..|events| - 1]), events[|events| - 1]);
    }
  }

  lemma SettledHolds(w: World, generation: nat, objects: map<Key, Object>, i: nat)
    requires Settled(w, generation, objects) && i < |Slots(StoreMode(w.At(generation).spec))|
    ensures var c := w.At(generation);
            var mode := StoreMode(c.spec);
            Lookup(objects, KeyAt(IdOf(w.cluster), Slots(mode)[i])) ==
            if i < |PutSlots(mode)| then Some(GoDesired(c, w.parse)[i]) else None
  {
    var c := w.At(generation);
    var calls := CallsFor(c, GoDesired(c, w.parse));
    CallsForFollows(c, GoDesired(c, w.parse));
    assert i !in Differing(Replace, objects, calls);
  }

  lemma SettledModes(w: World, g: nat, h: nat, objects: map<Key, Object>)
    requires Settled(w, g, objects) && Settled(w, h, objects)
    ensures StoreMode(w.At(g).spec) == StoreMode(w.At(h).spec)
  {
    var m, n := StoreMode(w.At(g).spec), StoreMode(w.At(h).spec);
    SlotOfBothModes(m, n);
    var i := |PutSlots(n)| - 1;
    SettledHolds(w, h, objects, i);
    if j: nat :| |PutSlots(m)| <= j < |Slots(m)| && Slots(m)[j] == Slots(n)[i] {
      SettledHolds(w, g, objects, j);
    }
  }

  /** What a mode applies last, the other mode deletes. */
  lemma SlotOfBothModes(m: Mode, n: Mode)
    ensures |PutSlots(n)| > 0 && Slots(n)[|PutSlots(n)| - 1] == PutSlots(n)[|PutSlots(n)| - 1]
    ensures m != n ==>
              exists j: nat :: |PutSlots(m)| <= j < |Slots(m)| && Slots(m)[j] == Slots(n)[|PutSlots(n)| - 1]
  {
    if m.Single? && n.Clustered? {
      assert Slots(m)[|PutSlots(m)| + 1] == Slot(StatefulSet, Worker);
    } else if m.Clustered? && n.Single? {
      assert Slots(m)[|PutSlots(m)|] == Slot(Deployment, CubeStore);
    }
  }

  lemma SameDesiredSameCalls(w: World, g: nat, h: nat)
    requires Buildable(w.At(g).spec, w.parse) && Buildable(w.At(h).spec, w.parse)
    requires GoDesired(w.At(g), w.parse) == GoDesired(w.At(h), w.parse)
    ensures CallsFor(w.At(g), GoDesired(w.At(g), w.parse)) == CallsFor(w.At(h), GoDesired(w.At(h), w.parse))
  {
    var desired := GoDesired(w.At(g), w.parse);
    assert StoreMode(w.At(g).spec) == StoreMode(w.At(h).spec);
    CallsForFollows(w.At(g), desired);
    CallsForFollows(w.At(h), desired);
    var a, b := CallsFor(w.At(g), desired), CallsFor(w.At(h), desired);
    assert forall i | 0 <= i < |a| :: a[i] == b[i];
  }

  /** Objects that are as one generation asks are as another asks exactly when both ask for the same. */
  lemma SettledForAnother(w: World, g: nat, h: nat, objects: map<Key, Object>)
    requires Settled(w, g, objects) && Buildable(w.At(h).spec, w.parse)
    ensures Settled(w, h, objects) <==> GoDesired(w.At(h), w.parse) == GoDesired(w.At(g), w.parse)
  {
    var a, b := GoDesired(w.At(g), w.parse), GoDesired(w.At(h), w.parse);
    if a == b {
      SameDesiredSameCalls(w, g, h);
    } else if Settled(w, h, objects) {
      SettledModes(w, g, h, objects);
      forall i | 0 <= i < |a| ensures a[i] == b[i] {
        SettledHolds(w, g, objects, i);
        SettledHolds(w, h, objects, i);
      }
    }
  }

  /** In every run, from any objects: when a Ready status is written, no managed key differs from what the
      reconciled generation asks for.  The same holds of the generation the status names exactly when that
      one asks for the same objects, so in any case when no edit fell between the two reads. */
  lemma ReadyStatusTellsTheTruth(w: World, objects: map<Key, Object>, events: seq<Event>)
    requires var r := Exec(w, Resource(0, None, Idle, objects), events);
             r.worker.Stamping? && r.worker.report.ready
    ensures var r := Exec(w, Resource(0, None, Idle, objects), events);
            var written := Next(w, r, Write);
            var stamp := written.status.value;
            && stamp.report.ready && stamp.reconciled <= stamp.observedGeneration <= written.generation
            && Settled(w, stamp.reconciled, written.objects)
            && (Buildable(w.At(stamp.observedGeneration).spec, w.parse) ==>
                  (Settled(w, stamp.observedGeneration, written.objects) <==>
                     GoDesired(w.At(stamp.observedGeneration), w.parse) == GoDesired(w.At(stamp.reconciled), w.parse)))
            && (stamp.observedGeneration == stamp.reconciled ==> Settled(w, stamp.observedGeneration, written.objects))
  {
    var initial := Resource(0, None, Idle, objects);
    var r := Exec(w, initial, events);
    ObservedGenerationAdvances(w, initial, events);
    ReadyStaysSettled(w, initial, events);
    if Buildable(w.At(r.worker.latest).spec, w.parse) {
      SettledForAnother(w, r.worker.read, r.worker.latest, r.objects);
    }
  }

  // ---- A Ready status that does not tell the truth ----

  lemma AcceptedIsBuildable(spec: Spec, refs: References, parse: QuantityParser)
    requires Accepted(spec, refs, parse)
    ensures Buildable(spec, parse)
  {}

  /** Every workload has at least this many replicas. */
  function Plenty(c: Cluster): int {
    var a, r, w := BuiltReplicas(c, Api), BuiltReplicas(c, RefreshWorker), BuiltReplicas(c, Worker);
    1 + (if a > 0 then a else 0) + (if r > 0 then r else 0) + if w > 0 then w else 0
  }

  lemma PlentyIsReady(c: Cluster, parse: QuantityParser)
    requires Buildable(c.spec, parse)
    ensures AllReady(c, parse, _ => Some(Plenty(c)))
  {
    AllReadyBySlot(c, parse, _ => Some(Plenty(c)));
  }

  /** A reconciliation in which nothing fails. */
  function SmoothWork(w: World, refs: References): Event
    requires Buildable(w.At(0).spec, w.parse)
  {
    var c := w.At(0);
    var calls := CallsFor(c, GoDesired(c, w.parse));
    Work(refs, _ => Interleaving.Done, _ => Some(Plenty(c)), true, PerformAll(Replace, map[], calls), |calls|,
         Some(Report(true, Available, Plenty(c))))
  }

  lemma SmoothWorkReconciles(w: World, refs: References)
    requires Accepted(w.At(0).spec, refs, w.parse) && Buildable(w.At(0).spec, w.parse)
    ensures var work := SmoothWork(w, refs);
            GoReconciled(w.At(0), refs, w.parse, work.outcomes, work.observe, work.healthy, map[], work.after,
                         work.issued, work.report)
  {
    var c := w.At(0);
    var calls := CallsFor(c, GoDesired(c, w.parse));
    CallsForFollows(c, GoDesired(c, w.parse));
    PlentyIsReady(c, w.parse);
    assert calls[..|calls|] == calls;
  }

  /** The spec is edited while a reconciliation is under way, before its status is written. */
  function EditedMeanwhile(w: World, refs: References): seq<Event>
    requires Buildable(w.At(0).spec, w.parse)
  {
    [Begin, SmoothWork(w, refs), Edit, ReadAgain]
  }

  lemma EditedMeanwhileStamps(w: World, refs: References)
    requires Accepted(w.At(0).spec, refs, w.parse) && Buildable(w.At(0).spec, w.parse)
    ensures var work := SmoothWork(w, refs);
            Exec(w, Resource(0, None, Idle, map[]), EditedMeanwhile(w, refs))
            == Resource(1, None, Stamping(0, work.report.value, 1), work.after)
  {
    SmoothWorkReconciles(w, refs);
    var events, work := EditedMeanwhile(w, refs), SmoothWork(w, refs);
    var r0 := Resource(0, None, Idle, map[]);
    OneMoreEvent(w, r0, events, 0);
    OneMoreEvent(w, r0, events, 1);
    OneMoreEvent(w, r0, events, 2);
    OneMoreEvent(w, r0, events, 3);
    assert events[..4] == events;
  }

  lemma OneMoreEvent(w: World, r: Resource, events: seq<Event>, n: nat)
    requires n < |events|
    ensures Exec(w, r, events[..n + 1]) == Next(w, Exec(w, r, events[..n]), events[n])
  {
    assert events[..n + 1][..n] == events[..n];
  }

  /** For any two specs that ask for different objects, of which the first is accepted: there is a run that
      is about to write a Ready status naming the second while the objects are those of the first. */
  lemma ReadyStatusCanBeStale(w: World, refs: References) returns (events: seq<Event>)
    requires Accepted(w.At(0).spec, refs, w.parse) && Buildable(w.At(0).spec, w.parse)
    requires Buildable(w.At(1).spec, w.parse) && GoDesired(w.At(1), w.parse) != GoDesired(w.At(0), w.parse)
    ensures var r := Exec(w, Resource(0, None, Idle, map[]), events);
            var written := Next(w, r, Write);
            && r.worker.Stamping? && written.status.Some?
            && written.status.value.report.ready && written.status.value.observedGeneration == 1
            && !Settled(w, 1, written.objects)
  {
    events := EditedMeanwhile(w, refs);
    EditedMeanwhileStamps(w, refs);
    ReadyStatusTellsTheTruth(w, map[], events);
  }

  /** A cluster whose image is changed by an edit. */
  function ImageChanged(): World {
    var store := CubeStoreSpec(None, "", None, MergePatch.Obj(map[]),
                               RemoteStorage("s3", None, Some(S3Storage("bucket", "region", ""))), "");
    var workload := Workload(None, MergePatch.Obj(map[]));
    var spec := (image: string) =>
      Spec(image, "", "model", "secret", workload, workload, store, ServiceSpec("", 0, map[]));
    World(Cluster("ns", "c", "uid", spec("a")), (generation: nat) => spec(if generation == 0 then "a" else "b"),
          _ => None)
  }

  /** Such a pair of specs exists. */
  lemma ImageChangeGoesStale() returns (events: seq<Event>)
    ensures var w := ImageChanged();
            var written := Next(w, Exec(w, Resource(0, None, Idle, map[]), events), Write);
            && written.status.Some? && written.status.value.report.ready
            && written.status.value.observedGeneration == 1 && !Settled(w, 1, written.objects)
  {
    var w := ImageChanged();
    var refs := References({"model"}, {"secret"}, {});
    ImagesDiffer(w.At(0), w.At(1), w.parse);
    events := ReadyStatusCanBeStale(w, refs);
  }

  lemma ImagesDiffer(a: Cluster, b: Cluster, parse: QuantityParser)
    requires Buildable(a.spec, parse) && Buildable(b.spec, parse) && a.spec.image != "" && b.spec.image != ""
    requires a.spec.image != b.spec.image
    ensures GoDesired(a, parse) != GoDesired(b, parse)
  {
    assert PutSlots(StoreMode(a.spec))[1] == PutSlots(StoreMode(b.spec))[1] == Slot(Deployment, Api);
    assert GoDesired(a, parse)[1].body.container.image == a.spec.image;
    assert GoDesired(b, parse)[1].body.container.image == b.spec.image;
  }
}
