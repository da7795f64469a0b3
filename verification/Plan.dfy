/**
 The API calls of one reconciliation: apply every desired object in order, then delete the objects
 of the Cube Store topology that is not wanted.  Go and Kopf issue the same calls on the same keys;
 they differ in what applying does to the stored object, so the effect of applying is a parameter.
 */
module Plan {
  import opened Options
  import opened Names
  import opened ClusterSpec

  datatype ClusterId = ClusterId(namespace: string, name: string)

  /** The place of an object among those of its cluster. */
  datatype Slot = Slot(kind: Kind, component: Component)

  function KeyAt(id: ClusterId, slot: Slot): Key {
    Key(id.namespace, slot.kind, ObjectName(id.name, slot.component))
  }

  /** Deletes go by name and check no owner; this is why they cannot hit another cluster's object. */
  lemma KeyAtInjective(a: ClusterId, s: Slot, b: ClusterId, t: Slot)
    requires KeyAt(a, s) == KeyAt(b, t)
    ensures a == b && s == t
  {
    ObjectNameInjective(a.name, s.component, b.name, t.component);
  }

  const COMMON_SLOTS := [
    Slot(Service, Api), Slot(Deployment, Api), Slot(Deployment, RefreshWorker),
    Slot(PodDisruptionBudget, Api), Slot(NetworkPolicy, CubeStore)]

  /** The slots of a Cube Store topology, in the order in which they are applied. */
  function StoreSlots(mode: Mode): seq<Slot> {
    match mode
    case Single => [Slot(Service, CubeStore), Slot(Deployment, CubeStore)]
    case Clustered =>
      [Slot(Service, Router), Slot(Service, Worker), Slot(StatefulSet, Router), Slot(StatefulSet, Worker)]
  }

  /** The slots of the topology that a mode makes obsolete, in the order in which they are deleted. */
  function ObsoleteSlots(mode: Mode): seq<Slot> {
    match mode
    case Clustered => [Slot(Deployment, CubeStore), Slot(Service, CubeStore)]
    case Single =>
      [Slot(StatefulSet, Router), Slot(StatefulSet, Worker), Slot(Service, Router), Slot(Service, Worker)]
  }

  function PutSlots(mode: Mode): seq<Slot> {
    COMMON_SLOTS + StoreSlots(mode)
  }

  function Slots(mode: Mode): seq<Slot> {
    PutSlots(mode) + ObsoleteSlots(mode)
  }

  /** Every reconciliation visits each of the eleven managed slots exactly once. */
  lemma SlotsVisitedOnce(mode: Mode)
    ensures |Slots(mode)| == 11
    ensures forall i, j | 0 <= i < j < 11 :: Slots(mode)[i] != Slots(mode)[j]
    ensures forall slot :: slot in Slots(mode) <==> slot in Slots(Single)
    ensures forall slot :: slot in ObsoleteSlots(mode) <==>
                           slot in StoreSlots(if mode.Single? then Clustered else Single)
  {}

  function ManagedKeys(id: ClusterId): set<Key> {
    set slot | slot in Slots(Single) :: KeyAt(id, slot)
  }

  function TopologyKeys(id: ClusterId, mode: Mode): set<Key> {
    set slot | slot in StoreSlots(mode) :: KeyAt(id, slot)
  }

  datatype Call<+D> = Put(key: Key, desired: D) | Remove(key: Key)

  /** The calls are those of a reconciliation of the cluster in the given mode. */
  predicate Follows<D>(calls: seq<Call<D>>, id: ClusterId, mode: Mode) {
    && |calls| == |Slots(mode)|
    && forall i | 0 <= i < |calls| ::
         && calls[i].key == KeyAt(id, Slots(mode)[i])
         && (calls[i].Put? <==> i < |PutSlots(mode)|)
  }

  lemma CallKeys<D>(calls: seq<Call<D>>, id: ClusterId, mode: Mode)
    requires Follows(calls, id, mode)
    ensures forall i, j | 0 <= i < j < |calls| :: calls[i].key != calls[j].key
    ensures (set c | c in calls :: c.key) == ManagedKeys(id)
  {
    SlotsVisitedOnce(mode);
    forall i, j | 0 <= i < j < |calls| ensures calls[i].key != calls[j].key {
      if calls[i].key == calls[j].key { KeyAtInjective(id, Slots(mode)[i], id, Slots(mode)[j]); }
    }
    var keys := set c | c in calls :: c.key;
    forall key | key in ManagedKeys(id) ensures key in keys {
      var slot :| slot in Slots(Single) && key == KeyAt(id, slot);
      assert slot in Slots(mode);
      var i :| 0 <= i < |Slots(mode)| && Slots(mode)[i] == slot;
      assert calls[i] in calls;
    }
    forall key | key in keys ensures key in ManagedKeys(id) {
      var c :| c in calls && c.key == key;
      var i :| 0 <= i < |calls| && calls[i] == c;
      assert Slots(mode)[i] in Slots(mode);
    }
  }

  /** What applying a desired object makes of the stored one. */
  type Applying<!O, !D> = (Option<O>, D) -> O

  function Lookup<O>(store: map<Key, O>, key: Key): Option<O> {
    if key in store then Some(store[key]) else None
  }

  function Perform<O, D>(apply: Applying<O, D>, store: map<Key, O>, call: Call<D>): map<Key, O> {
    match call
    case Put(key, desired) => store[key := apply(Lookup(store, key), desired)]
    case Remove(key) => store - {key}
  }

  function PerformAll<O, D>(apply: Applying<O, D>, store: map<Key, O>, calls: seq<Call<D>>): map<Key, O> {
    if calls == [] then store
    else Perform(apply, PerformAll(apply, store, calls[..|calls| - 1]), calls[|calls| - 1])
  }

  /** What a call makes of its key. */
  function Effect<O, D>(apply: Applying<O, D>, store: map<Key, O>, call: Call<D>): Option<O> {
    match call
    case Put(key, desired) => Some(apply(Lookup(store, key), desired))
    case Remove(_) => None
  }

  ghost predicate Touches<D>(calls: seq<Call<D>>, key: Key) {
    exists i :: 0 <= i < |calls| && calls[i].key == key
  }

  /** After any number of calls, the keys called on hold what their call made of them and no other
      key has changed. */
  lemma {:induction false} AfterCalls<O, D>(apply: Applying<O, D>, store: map<Key, O>, calls: seq<Call<D>>)
    requires forall i, j | 0 <= i < j < |calls| :: calls[i].key != calls[j].key
    ensures var after := PerformAll(apply, store, calls);
            && (forall i | 0 <= i < |calls| :: Lookup(after, calls[i].key) == Effect(apply, store, calls[i]))
            && (forall key | !Touches(calls, key) :: Lookup(after, key) == Lookup(store, key))
  {
    if calls != [] {
      var init, last := calls[..|calls| - 1], calls[|calls| - 1];
      AfterCalls(apply, store, init);
      var before, after := PerformAll(apply, store, init), PerformAll(apply, store, calls);
      PerformTouchesOneKey(apply, before, last);
      assert !Touches(init, last.key);
      forall i | 0 <= i < |calls| ensures Lookup(after, calls[i].key) == Effect(apply, store, calls[i]) {
        if i < |init| { assert init[i] == calls[i]; }
      }
      forall key | !Touches(calls, key) ensures Lookup(after, key) == Lookup(store, key) {
        TouchedByInitOrLast(calls, key);
      }
    }
  }

  lemma TouchedByInitOrLast<D>(calls: seq<Call<D>>, key: Key)
    requires calls != []
    ensures Touches(calls, key) <==> Touches(calls[..|calls| - 1], key) || calls[|calls| - 1].key == key
  {
    var init := calls[..|calls| - 1];
    if i :| 0 <= i < |init| && init[i].key == key { assert calls[i].key == key; }
    if i :| 0 <= i < |calls| && calls[i].key == key { assert i < |init| ==> init[i].key == key; }
  }

  lemma TouchesOnlyManagedKeys<D>(calls: seq<Call<D>>, id: ClusterId, mode: Mode, key: Key)
    requires Follows(calls, id, mode)
    ensures Touches(calls, key) <==> key in ManagedKeys(id)
  {
    CallKeys(calls, id, mode);
    if i :| 0 <= i < |calls| && calls[i].key == key { assert calls[i] in calls; }
    if key in ManagedKeys(id) { var c :| c in calls && c.key == key; }
  }

  lemma PerformTouchesOneKey<O, D>(apply: Applying<O, D>, store: map<Key, O>, call: Call<D>)
    ensures Lookup(Perform(apply, store, call), call.key) == Effect(apply, store, call)
    ensures forall key | key != call.key :: Lookup(Perform(apply, store, call), key) == Lookup(store, key)
  {}

  /** A reconciliation none of whose calls fails leaves exactly the applied objects among the
      managed keys, whatever was stored before, and touches nothing else. */
  lemma CompleteRunLeavesExactlyTheDesired<O, D>(
      apply: Applying<O, D>, store: map<Key, O>, calls: seq<Call<D>>, id: ClusterId, mode: Mode)
    requires Follows(calls, id, mode)
    ensures var after := PerformAll(apply, store, calls);
            && (forall i | 0 <= i < |calls| ::
                  Lookup(after, KeyAt(id, Slots(mode)[i])) ==
                  if i < |PutSlots(mode)| then Some(apply(Lookup(store, calls[i].key), calls[i].desired)) else None)
            && forall key | key !in ManagedKeys(id) :: Lookup(after, key) == Lookup(store, key)
  {
    CallKeys(calls, id, mode);
    AfterCalls(apply, store, calls);
    var after := PerformAll(apply, store, calls);
    forall key | key !in ManagedKeys(id) ensures Lookup(after, key) == Lookup(store, key) {
      TouchesOnlyManagedKeys(calls, id, mode, key);
    }
  }

  /** For each of the objects applied, applying twice is applying once. */
  ghost predicate Repeatable<O(!new), D>(apply: Applying<O, D>, calls: seq<Call<D>>) {
    forall i, stored | 0 <= i < |calls| && calls[i].Put? ::
      apply(Some(apply(stored, calls[i].desired)), calls[i].desired) == apply(stored, calls[i].desired)
  }

  /** Where applying twice is applying once, a second reconciliation changes nothing. */
  lemma SecondRunChangesNothing<O(!new), D>(
      apply: Applying<O, D>, store: map<Key, O>, calls: seq<Call<D>>, id: ClusterId, mode: Mode)
    requires Follows(calls, id, mode) && Repeatable(apply, calls)
    ensures PerformAll(apply, PerformAll(apply, store, calls), calls) == PerformAll(apply, store, calls)
  {
    var once := PerformAll(apply, store, calls);
    CallKeys(calls, id, mode);
    AfterCalls(apply, store, calls);
    SameEffectsSameStore(apply, once, store, calls, id, mode);
  }

  /** Two stores that agree outside the calls' keys end alike when every call has the same effect on both. */
  lemma SameEffectsSameStore<O, D>(
      apply: Applying<O, D>, a: map<Key, O>, b: map<Key, O>, calls: seq<Call<D>>, id: ClusterId, mode: Mode)
    requires Follows(calls, id, mode)
    requires forall i | 0 <= i < |calls| :: Effect(apply, a, calls[i]) == Effect(apply, b, calls[i])
    requires forall key | !Touches(calls, key) :: Lookup(a, key) == Lookup(b, key)
    ensures PerformAll(apply, a, calls) == PerformAll(apply, b, calls)
  {
    CallKeys(calls, id, mode);
    AfterCalls(apply, a, calls);
    AfterCalls(apply, b, calls);
    var x, y := PerformAll(apply, a, calls), PerformAll(apply, b, calls);
    forall key ensures Lookup(x, key) == Lookup(y, key) {
      if Touches(calls, key) { var i :| 0 <= i < |calls| && calls[i].key == key; }
    }
    SameLookupsSameStore(x, y);
  }

  lemma SameLookupsSameStore<O>(x: map<Key, O>, y: map<Key, O>)
    requires forall key :: Lookup(x, key) == Lookup(y, key)
    ensures x == y
  {
    assert forall key :: key in x <==> Lookup(x, key).Some?;
    assert forall key :: key in y <==> Lookup(y, key).Some?;
    assert x.Keys == y.Keys;
    assert forall key | key in x :: Lookup(x, key).value == x[key] && Lookup(y, key).value == y[key];
  }

  /** Applying as the Go controller does it: what the operator owns of the object becomes desired. */
  function Replace<O>(stored: Option<O>, desired: O): O {
    desired
  }

  /** The calls that would still change their key: one number for each managed key that is not as the
      reconciliation wants it. */
  ghost function Differing<O, D>(apply: Applying<O, D>, store: map<Key, O>, calls: seq<Call<D>>): set<nat> {
    set i | 0 <= i < |calls| && Lookup(store, calls[i].key) != Effect(apply, store, calls[i])
  }

  lemma SettledByItsCall<O, D>(
      apply: Applying<O, D>, store: map<Key, O>, after: map<Key, O>, call: Call<D>)
    requires Lookup(after, call.key) == Effect(apply, store, call)
    requires call.Put? ==> apply(Some(apply(Lookup(store, call.key), call.desired)), call.desired)
                           == apply(Lookup(store, call.key), call.desired)
    ensures Lookup(after, call.key) == Effect(apply, after, call)
  {}

  /** Convergence from any store whatever and wherever it stops: each call removes its own key from the
      differing ones and adds none, so the count never rises and ends at zero. */
  lemma EachCallSettlesItsKey<O(!new), D>(
      apply: Applying<O, D>, store: map<Key, O>, calls: seq<Call<D>>, id: ClusterId, mode: Mode, issued: nat)
    requires Follows(calls, id, mode) && issued <= |calls| && Repeatable(apply, calls)
    ensures var after := PerformAll(apply, store, calls[..issued]);
            && Differing(apply, after, calls) <= Differing(apply, store, calls)
            && (forall i :: i in Differing(apply, after, calls) <==> i in Differing(apply, store, calls) && i >= issued)
            && (issued == |calls| ==> Differing(apply, after, calls) == {})
  {
    CallKeys(calls, id, mode);
    var done := calls[..issued];
    AfterCalls(apply, store, done);
    var after := PerformAll(apply, store, done);
    forall i | 0 <= i < |calls|
      ensures if i < issued then Lookup(after, calls[i].key) == Effect(apply, after, calls[i])
              else Lookup(after, calls[i].key) == Lookup(store, calls[i].key)
    {
      if i < issued {
        assert done[i] == calls[i];
        SettledByItsCall(apply, store, after, calls[i]);
      }
    }
  }
}
