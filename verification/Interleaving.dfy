/**
 Reconciliations of many clusters running at once against one store, one API call at a time.  A
 call may be refused, may take effect and still report an error, and a reconciliation may vanish
 between any two calls.  Spec edits need no step of their own: a reconciliation works on the spec
 it read when it started, which may be any spec.
 */
module Interleaving {
  import opened Options
  import opened Names
  import opened ClusterSpec
  import opened Plan

  /** worker tells apart reconciliations of one cluster that overlap. */
  datatype ProcId = ProcId(cluster: ClusterId, worker: nat)

  datatype Proc<+D> = Proc(mode: Mode, calls: seq<Call<D>>, issued: nat)

  datatype State<+O, +D> = State(store: map<Key, O>, running: map<ProcId, Proc<D>>)

  datatype Outcome = Done | Refused | Ambiguous

  datatype Step<+D> =
    | Start(proc: ProcId, mode: Mode, calls: seq<Call<D>>)
    | Issue(proc: ProcId, outcome: Outcome)
    | Crash(proc: ProcId)

  /** The call that takes effect in a step, if any. */
  function Effective<O, D>(s: State<O, D>, step: Step<D>): Option<Call<D>> {
    if step.Issue? && !step.outcome.Refused? && step.proc in s.running
       && s.running[step.proc].issued < |s.running[step.proc].calls|
    then Some(s.running[step.proc].calls[s.running[step.proc].issued])
    else None
  }

  function NextRunning<D>(running: map<ProcId, Proc<D>>, step: Step<D>): map<ProcId, Proc<D>> {
    match step
    case Start(proc, mode, calls) =>
      if proc in running || !Follows(calls, proc.cluster, mode) then running
      else running[proc := Proc(mode, calls, 0)]
    case Crash(proc) => running - {proc}
    case Issue(proc, outcome) =>
      if proc !in running then running
      else
        var p := running[proc];
        if p.issued < |p.calls| && outcome.Done? then running[proc := p.(issued := p.issued + 1)]
        else running - {proc}
  }

  function Next<O, D>(apply: Applying<O, D>, s: State<O, D>, step: Step<D>): State<O, D> {
    var call := Effective(s, step);
    State(if call.Some? then Perform(apply, s.store, call.value) else s.store, NextRunning(s.running, step))
  }

  function Exec<O, D>(apply: Applying<O, D>, s: State<O, D>, steps: seq<Step<D>>): State<O, D>
    decreases steps
  {
    if steps == [] then s else Exec(apply, Next(apply, s, steps[0]), steps[1..])
  }

  /** Every running reconciliation follows the plan of its cluster and mode. */
  ghost predicate WellFormed<O, D>(s: State<O, D>) {
    forall proc | proc in s.running :: OnPlan(s.running[proc], proc.cluster)
  }

  ghost predicate OnPlan<D>(p: Proc<D>, id: ClusterId) {
    Follows(p.calls, id, p.mode) && p.issued <= |p.calls|
  }

  lemma NextKeepsWellFormed<O, D>(apply: Applying<O, D>, s: State<O, D>, step: Step<D>)
    requires WellFormed(s)
    ensures WellFormed(Next(apply, s, step))
  {
    RunningStaysOnPlan(s.running, step);
  }

  lemma RunningStaysOnPlan<D>(running: map<ProcId, Proc<D>>, step: Step<D>)
    requires forall proc | proc in running :: OnPlan(running[proc], proc.cluster)
    ensures forall proc | proc in NextRunning(running, step) :: OnPlan(NextRunning(running, step)[proc], proc.cluster)
  {
    var after := NextRunning(running, step);
    forall proc | proc in after ensures OnPlan(after[proc], proc.cluster) {
      if proc in running && after[proc] != running[proc] {
        assert after[proc].calls == running[proc].calls && after[proc].mode == running[proc].mode;
      }
    }
  }

  // ---- Clusters do not interfere ----

  lemma ManagedKeysDisjoint(a: ClusterId, b: ClusterId, key: Key)
    requires key in ManagedKeys(a) && key in ManagedKeys(b)
    ensures a == b
  {
    var s :| s in Slots(Single) && key == KeyAt(a, s);
    var t :| t in Slots(Single) && key == KeyAt(b, t);
    KeyAtInjective(a, s, b, t);
  }

  ghost function OwnStore<O>(store: map<Key, O>, id: ClusterId): map<Key, O> {
    map key | key in store && key in ManagedKeys(id) :: store[key]
  }

  ghost function OwnRunning<D>(running: map<ProcId, Proc<D>>, id: ClusterId): map<ProcId, Proc<D>> {
    map proc | proc in running && proc.cluster == id :: running[proc]
  }

  /** What a cluster sees of a state: its own keys and its own reconciliations. */
  ghost function View<O, D>(s: State<O, D>, id: ClusterId): State<O, D> {
    State(OwnStore(s.store, id), OwnRunning(s.running, id))
  }

  ghost function Own<D>(steps: seq<Step<D>>, id: ClusterId): seq<Step<D>> {
    if steps == [] then []
    else (if steps[0].proc.cluster == id then [steps[0]] else []) + Own(steps[1..], id)
  }

  lemma CallKeyIsManaged<O, D>(s: State<O, D>, step: Step<D>)
    requires WellFormed(s) && Effective(s, step).Some?
    ensures Effective(s, step).value.key in ManagedKeys(step.proc.cluster)
  {
    var p := s.running[step.proc];
    CallKeys(p.calls, step.proc.cluster, p.mode);
    assert p.calls[p.issued] in p.calls;
  }

  lemma OwnStoreAfter<O, D>(apply: Applying<O, D>, store: map<Key, O>, call: Call<D>, id: ClusterId)
    ensures OwnStore(Perform(apply, store, call), id) ==
            if call.key in ManagedKeys(id) then Perform(apply, OwnStore(store, id), call) else OwnStore(store, id)
  {
    assert call.key in ManagedKeys(id) ==> Lookup(OwnStore(store, id), call.key) == Lookup(store, call.key);
  }

  lemma OwnRunningAfter<D>(running: map<ProcId, Proc<D>>, step: Step<D>, id: ClusterId)
    ensures OwnRunning(NextRunning(running, step), id) ==
            if step.proc.cluster == id then NextRunning(OwnRunning(running, id), step) else OwnRunning(running, id)
  {}

  lemma StepInView<O, D>(apply: Applying<O, D>, s: State<O, D>, step: Step<D>, id: ClusterId)
    requires WellFormed(s)
    ensures View(Next(apply, s, step), id) ==
            if step.proc.cluster == id then Next(apply, View(s, id), step) else View(s, id)
  {
    OwnRunningAfter(s.running, step, id);
    var call := Effective(s, step);
    assert step.proc.cluster == id ==> Effective(View(s, id), step) == call;
    if call.Some? {
      CallKeyIsManaged(s, step);
      OwnStoreAfter(apply, s.store, call.value, id);
      if call.value.key in ManagedKeys(id) { ManagedKeysDisjoint(id, step.proc.cluster, call.value.key); }
    }
  }

  /** Any interleaving of any clusters' reconciliations, with any failures, leaves a cluster's
      objects and reconciliations as if it had run alone. */
  lemma {:induction false} RunsAsIfAlone<O, D>(
      apply: Applying<O, D>, s: State<O, D>, steps: seq<Step<D>>, id: ClusterId)
    requires WellFormed(s)
    ensures View(Exec(apply, s, steps), id) == Exec(apply, View(s, id), Own(steps, id))
    decreases steps
  {
    if steps != [] {
      var step, rest := steps[0], steps[1..];
      NextKeepsWellFormed(apply, s, step);
      StepInView(apply, s, step, id);
      RunsAsIfAlone(apply, Next(apply, s, step), rest, id);
      if step.proc.cluster == id {
        assert Own(steps, id)[0] == step && Own(steps, id)[1..] == Own(rest, id);
      } else {
        assert Own(steps, id) == Own(rest, id);
      }
    }
  }

  // ---- A topology is made before the other is broken ----

  ghost predicate Complete<O>(store: map<Key, O>, id: ClusterId, mode: Mode) {
    TopologyKeys(id, mode) <= store.Keys
  }

  ghost predicate HasTopology<O>(store: map<Key, O>, id: ClusterId) {
    exists mode :: Complete(store, id, mode)
  }

  /** Reconciliations of one cluster that overlap work on the same mode.  With one reconciliation
      of a cluster at a time, as controller-runtime runs them, this holds of itself. */
  ghost predicate NoModeOverlap<O, D>(s: State<O, D>) {
    forall p, q | p in s.running && q in s.running && p.cluster == q.cluster ::
      s.running[p].mode == s.running[q].mode
  }

  ghost predicate NeverModeOverlap<O, D>(apply: Applying<O, D>, s: State<O, D>, steps: seq<Step<D>>)
    decreases steps
  {
    NoModeOverlap(s) && (steps != [] ==> NeverModeOverlap(apply, Next(apply, s, steps[0]), steps[1..]))
  }

  ghost predicate Present<O, D>(store: map<Key, O>, p: Proc<D>) {
    forall i | 0 <= i < p.issued && i < |p.calls| && p.calls[i].Put? :: p.calls[i].key in store
  }

  /** What a running reconciliation has applied is still there. */
  ghost predicate AppliedArePresent<O, D>(s: State<O, D>) {
    WellFormed(s) && forall proc | proc in s.running :: Present(s.store, s.running[proc])
  }

  lemma RemovedIsNotApplied<D>(p: Call<D>, pcalls: seq<Call<D>>, q: Call<D>, qcalls: seq<Call<D>>,
                               a: ClusterId, b: ClusterId, pmode: Mode, qmode: Mode)
    requires Follows(pcalls, a, pmode) && Follows(qcalls, b, qmode) && (a == b ==> pmode == qmode)
    requires p in pcalls && p.Remove? && q in qcalls && q.Put?
    ensures p.key != q.key
  {
    var i :| 0 <= i < |pcalls| && pcalls[i] == p;
    var j :| 0 <= j < |qcalls| && qcalls[j] == q;
    if p.key == q.key {
      KeyAtInjective(a, Slots(pmode)[i], b, Slots(qmode)[j]);
      SlotsVisitedOnce(pmode);
      assert false;
    }
  }

  lemma AppliedStays<O, D>(apply: Applying<O, D>, s: State<O, D>, step: Step<D>, proc: ProcId)
    requires AppliedArePresent(s) && NoModeOverlap(s) && proc in s.running
    ensures Present(Next(apply, s, step).store, s.running[proc])
  {
    var q := s.running[proc];
    var call := Effective(s, step);
    if call.Some? && call.value.Remove? {
      var p := s.running[step.proc];
      forall i | 0 <= i < q.issued && i < |q.calls| && q.calls[i].Put? ensures q.calls[i].key != call.value.key {
        RemovedIsNotApplied(call.value, p.calls, q.calls[i], q.calls, step.proc.cluster, proc.cluster, p.mode, q.mode);
      }
    }
  }

  lemma IssuedIsApplied<O, D>(apply: Applying<O, D>, s: State<O, D>, step: Step<D>, proc: ProcId)
    requires proc in Next(apply, s, step).running
    requires proc in s.running ==> Present(Next(apply, s, step).store, s.running[proc])
    ensures Present(Next(apply, s, step).store, Next(apply, s, step).running[proc])
  {}

  lemma NextKeepsApplied<O, D>(apply: Applying<O, D>, s: State<O, D>, step: Step<D>)
    requires AppliedArePresent(s) && NoModeOverlap(s)
    ensures AppliedArePresent(Next(apply, s, step))
  {
    var t := Next(apply, s, step);
    NextKeepsWellFormed(apply, s, step);
    forall proc | proc in t.running ensures Present(t.store, t.running[proc]) {
      if proc in s.running { AppliedStays(apply, s, step, proc); }
      IssuedIsApplied(apply, s, step, proc);
    }
  }

  lemma DeletingMeansApplied<O, D>(s: State<O, D>, proc: ProcId)
    requires AppliedArePresent(s) && proc in s.running
    requires var p := s.running[proc]; p.issued < |p.calls| && p.calls[p.issued].Remove?
    ensures Complete(s.store, proc.cluster, s.running[proc].mode)
    ensures s.running[proc].calls[s.running[proc].issued].key !in TopologyKeys(proc.cluster, s.running[proc].mode)
  {
    var p := s.running[proc];
    forall key | key in TopologyKeys(proc.cluster, p.mode)
      ensures key in s.store && key != p.calls[p.issued].key
    {
      var slot :| slot in StoreSlots(p.mode) && key == KeyAt(proc.cluster, slot);
      var j :| 0 <= j < |StoreSlots(p.mode)| && StoreSlots(p.mode)[j] == slot;
      var i := |COMMON_SLOTS| + j;
      assert Slots(p.mode)[i] == slot && p.calls[i].key == key;
      CallKeys(p.calls, proc.cluster, p.mode);
    }
  }

  lemma NextKeepsTopology<O, D>(apply: Applying<O, D>, s: State<O, D>, step: Step<D>, id: ClusterId)
    requires AppliedArePresent(s) && NoModeOverlap(s) && HasTopology(s.store, id)
    ensures HasTopology(Next(apply, s, step).store, id)
  {
    var t := Next(apply, s, step);
    var mode :| Complete(s.store, id, mode);
    var call := Effective(s, step);
    if call.Some? && call.value.Remove? {
      if step.proc.cluster == id {
        DeletingMeansApplied(s, step.proc);
        assert Complete(t.store, id, s.running[step.proc].mode);
        return;
      }
      CallKeyIsManaged(s, step);
      TopologyIsManaged(id, mode);
      if call.value.key in TopologyKeys(id, mode) {
        ManagedKeysDisjoint(id, step.proc.cluster, call.value.key);
      }
    }
    assert Complete(t.store, id, mode);
  }

  lemma TopologyIsManaged(id: ClusterId, mode: Mode)
    ensures TopologyKeys(id, mode) <= ManagedKeys(id)
  {
    forall key | key in TopologyKeys(id, mode) ensures key in ManagedKeys(id) {
      var slot :| slot in StoreSlots(mode) && key == KeyAt(id, slot);
      assert slot in Slots(mode);
      SlotsVisitedOnce(mode);
    }
  }

  /** In every run whose overlapping reconciliations of a cluster want one mode, everything that a running
      reconciliation has applied is still there. */
  lemma {:induction false} AppliedStaysPresent<O, D>(apply: Applying<O, D>, s: State<O, D>, steps: seq<Step<D>>)
    requires AppliedArePresent(s) && NeverModeOverlap(apply, s, steps)
    ensures AppliedArePresent(Exec(apply, s, steps))
    decreases steps
  {
    if steps != [] {
      NextKeepsApplied(apply, s, steps[0]);
      AppliedStaysPresent(apply, Next(apply, s, steps[0]), steps[1..]);
    }
  }

  /** Make before break, over every run: once one Cube Store topology of a cluster exists
      completely, one of the two exists completely in every later state, whatever calls fail,
      wherever reconciliations crash and however the mode flips between them. */
  lemma {:induction false} TopologySurvives<O, D>(
      apply: Applying<O, D>, s: State<O, D>, steps: seq<Step<D>>, id: ClusterId)
    requires AppliedArePresent(s) && HasTopology(s.store, id) && NeverModeOverlap(apply, s, steps)
    ensures HasTopology(Exec(apply, s, steps).store, id)
    decreases steps
  {
    if steps != [] {
      NextKeepsApplied(apply, s, steps[0]);
      NextKeepsTopology(apply, s, steps[0], id);
      TopologySurvives(apply, Next(apply, s, steps[0]), steps[1..], id);
    }
  }
}
