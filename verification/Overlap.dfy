/**
 Two reconciliations of one cluster at the same time.  controller-runtime never runs them; a second
 controller, or a timer that fires during a change handler, does.
 */
module Overlap {
  import opened Names
  import opened ClusterSpec
  import opened Plan
  import opened Interleaving

  lemma {:induction false} ExecSplits<O, D>(apply: Applying<O, D>, s: State<O, D>, a: seq<Step<D>>, b: seq<Step<D>>)
    ensures Exec(apply, s, a + b) == Exec(apply, Exec(apply, s, a), b)
    decreases a
  {
    if a == [] {
      assert a + b == b;
    } else {
      assert (a + b)[1..] == a[1..] + b;
      ExecSplits(apply, Next(apply, s, a[0]), a[1..], b);
    }
  }

  ghost function Issues<D>(proc: ProcId, n: nat): seq<Step<D>> {
    seq(n, _ => Issue(proc, Done))
  }

  /** Calls issued without a failure perform the next calls of the plan. */
  lemma {:induction false} IssuesPerform<O, D>(apply: Applying<O, D>, s: State<O, D>, proc: ProcId, n: nat)
    requires proc in s.running && s.running[proc].issued + n <= |s.running[proc].calls|
    ensures var p := s.running[proc];
            Exec(apply, s, Issues(proc, n)) ==
            State(PerformAll(apply, s.store, p.calls[p.issued..p.issued + n]),
                  s.running[proc := p.(issued := p.issued + n)])
    decreases n
  {
    var p := s.running[proc];
    if n == 0 {
      assert s.running[proc := p] == s.running;
    } else {
      IssuesPerform(apply, s, proc, n - 1);
      var t := Exec(apply, s, Issues(proc, n - 1));
      ExecSplits(apply, s, Issues(proc, n - 1), [Issue(proc, Done)]);
      assert Issues<D>(proc, n) == Issues(proc, n - 1) + [Issue(proc, Done)];
      assert Exec(apply, t, [Issue(proc, Done)]) == Next(apply, t, Issue(proc, Done));
      var calls := p.calls[p.issued..p.issued + n];
      assert calls[..n - 1] == p.calls[p.issued..p.issued + n - 1];
      assert t.running[proc := p.(issued := p.issued + n)] == s.running[proc := p.(issued := p.issued + n)];
    }
  }

  lemma {:induction false} KeysAfterPuts<O, D>(apply: Applying<O, D>, store: map<Key, O>, calls: seq<Call<D>>)
    requires forall c | c in calls :: c.Put?
    ensures forall key :: key in PerformAll(apply, store, calls) <==> key in store || Touches(calls, key)
  {
    if calls != [] {
      assert calls[|calls| - 1] in calls;
      KeysAfterPuts(apply, store, calls[..|calls| - 1]);
      forall key ensures Touches(calls, key) <==> Touches(calls[..|calls| - 1], key) || calls[|calls| - 1].key == key {
        TouchedByInitOrLast(calls, key);
      }
    }
  }

  lemma {:induction false} KeysAfterRemoves<O, D>(apply: Applying<O, D>, store: map<Key, O>, calls: seq<Call<D>>)
    requires forall c | c in calls :: c.Remove?
    ensures forall key :: key in PerformAll(apply, store, calls) <==> key in store && !Touches(calls, key)
  {
    if calls != [] {
      assert calls[|calls| - 1] in calls;
      KeysAfterRemoves(apply, store, calls[..|calls| - 1]);
      forall key ensures Touches(calls, key) <==> Touches(calls[..|calls| - 1], key) || calls[|calls| - 1].key == key {
        TouchedByInitOrLast(calls, key);
      }
    }
  }

  /** The applying part of a plan touches the keys of its own topology, the deleting part those of
      the other. */
  lemma PlanParts<D>(calls: seq<Call<D>>, id: ClusterId, mode: Mode, other: Mode)
    requires Follows(calls, id, mode) && other != mode
    ensures var n := |PutSlots(mode)|;
            && n <= |calls|
            && (forall c | c in calls[..n] :: c.Put?) && (forall c | c in calls[n..] :: c.Remove?)
            && (forall key | key in TopologyKeys(id, mode) :: Touches(calls[..n], key))
            && (forall key | key in TopologyKeys(id, other) :: Touches(calls[n..], key))
  {
    var n := |PutSlots(mode)|;
    forall key | key in TopologyKeys(id, mode) ensures Touches(calls[..n], key) {
      var slot :| slot in StoreSlots(mode) && key == KeyAt(id, slot);
      var j :| 0 <= j < |StoreSlots(mode)| && StoreSlots(mode)[j] == slot;
      assert Slots(mode)[|COMMON_SLOTS| + j] == slot && calls[..n][|COMMON_SLOTS| + j].key == key;
    }
    forall key | key in TopologyKeys(id, other) ensures Touches(calls[n..], key) {
      var slot :| slot in StoreSlots(other) && key == KeyAt(id, slot);
      SlotsVisitedOnce(mode);
      assert slot in ObsoleteSlots(mode);
      var j :| 0 <= j < |ObsoleteSlots(mode)| && ObsoleteSlots(mode)[j] == slot;
      assert Slots(mode)[n + j] == slot && calls[n..][j].key == key;
    }
  }

  /** Two reconciliations of the cluster that are about to issue their first call. */
  ghost function Both<O, D>(store: map<Key, O>, id: ClusterId,
                            m: Mode, mcalls: seq<Call<D>>, n: Mode, ncalls: seq<Call<D>>): State<O, D> {
    State(store, map[ProcId(id, 0) := Proc(m, mcalls, 0), ProcId(id, 1) := Proc(n, ncalls, 0)])
  }

  /** However the two are interleaved, from any store, a complete topology stays. */
  ghost predicate OverlapSafe<O(!new), D(!new)>(
      apply: Applying<O, D>, id: ClusterId, m: Mode, mcalls: seq<Call<D>>, n: Mode, ncalls: seq<Call<D>>)
  {
    forall store: map<Key, O>, t: State<O, D> |
        HasTopology(store, id) && Reaches(apply, Both(store, id, m, mcalls, n, ncalls), t) ::
      HasTopology(t.store, id)
  }

  lemma {:induction false} OneModeStays<O, D>(apply: Applying<O, D>, s: State<O, D>, steps: seq<Step<D>>, mode: Mode)
    requires NoneStarts(steps) && forall proc | proc in s.running :: s.running[proc].mode == mode
    ensures NeverModeOverlap(apply, s, steps)
    decreases steps
  {
    if steps != [] {
      assert !steps[0].Start?;
      OneModeStays(apply, Next(apply, s, steps[0]), steps[1..], mode);
    }
  }

  ghost predicate NoneStarts<D>(steps: seq<Step<D>>) {
    forall i | 0 <= i < |steps| :: !steps[i].Start?
  }

  /** The running reconciliations can take the store from one state to the other. */
  ghost predicate Reaches<O(!new), D(!new)>(apply: Applying<O, D>, s: State<O, D>, t: State<O, D>) {
    exists steps: seq<Step<D>> :: NoneStarts(steps) && Exec(apply, s, steps) == t
  }

  lemma ReachesFurther<O(!new), D(!new)>(apply: Applying<O, D>, s: State<O, D>, t: State<O, D>, u: State<O, D>)
    requires Reaches(apply, s, t) && Reaches(apply, t, u)
    ensures Reaches(apply, s, u)
  {
    var a: seq<Step<D>> :| NoneStarts(a) && Exec(apply, s, a) == t;
    var b: seq<Step<D>> :| NoneStarts(b) && Exec(apply, t, b) == u;
    ExecSplits(apply, s, a, b);
    assert NoneStarts(a + b);
  }

  /** The state after proc has issued its calls up to the given one. */
  ghost function IssuedUpTo<O, D>(apply: Applying<O, D>, s: State<O, D>, proc: ProcId, upto: nat): State<O, D>
    requires proc in s.running && s.running[proc].issued <= upto <= |s.running[proc].calls|
  {
    var p := s.running[proc];
    State(PerformAll(apply, s.store, p.calls[p.issued..upto]), s.running[proc := p.(issued := upto)])
  }

  lemma ReachesIssued<O(!new), D(!new)>(apply: Applying<O, D>, s: State<O, D>, proc: ProcId, upto: nat)
    requires proc in s.running && s.running[proc].issued <= upto <= |s.running[proc].calls|
    ensures Reaches(apply, s, IssuedUpTo(apply, s, proc, upto))
  {
    var n := upto - s.running[proc].issued;
    IssuesPerform(apply, s, proc, n);
    assert NoneStarts(Issues<D>(proc, n));
  }

  /** p issues its calls up to the i-th, then q its calls up to the j-th. */
  lemma ReachesInTurn<O(!new), D(!new)>(
      apply: Applying<O, D>, s: State<O, D>, p: ProcId, i: nat, q: ProcId, j: nat) returns (t: State<O, D>)
    requires p != q && p in s.running && q in s.running
    requires s.running[p].issued <= i <= |s.running[p].calls| && s.running[q].issued <= j <= |s.running[q].calls|
    ensures Reaches(apply, s, t) && p in t.running && q in t.running
    ensures t.running[p] == s.running[p].(issued := i) && t.running[q] == s.running[q].(issued := j)
    ensures t.store == PerformAll(apply, PerformAll(apply, s.store, s.running[p].calls[s.running[p].issued..i]),
                                  s.running[q].calls[s.running[q].issued..j])
  {
    var mid := IssuedUpTo(apply, s, p, i);
    t := IssuedUpTo(apply, mid, q, j);
    ReachesIssued(apply, s, p, i);
    ReachesIssued(apply, mid, q, j);
    ReachesFurther(apply, s, mid, t);
  }

  /** p issues its first i calls, q its first j, then each issues the rest. */
  lemma ReachesAlternating<O(!new), D(!new)>(
      apply: Applying<O, D>, s: State<O, D>, p: ProcId, i: nat, q: ProcId, j: nat) returns (t: State<O, D>)
    requires p != q && p in s.running && q in s.running && s.running[p].issued == s.running[q].issued == 0
    requires i <= |s.running[p].calls| && j <= |s.running[q].calls|
    ensures Reaches(apply, s, t)
    ensures var m, n := s.running[p].calls, s.running[q].calls;
            t.store == PerformAll(apply, PerformAll(apply, PerformAll(apply, PerformAll(apply,
                         s.store, m[..i]), n[..j]), m[i..]), n[j..])
  {
    var m, n := s.running[p].calls, s.running[q].calls;
    var mid := ReachesInTurn(apply, s, p, i, q, j);
    t := ReachesInTurn(apply, mid, p, |m|, q, |n|);
    ReachesFurther(apply, s, mid, t);
    assert m[0..i] == m[..i] && n[0..j] == n[..j] && m[i..|m|] == m[i..] && n[j..|n|] == n[j..];
  }

  /** Both apply, then each deletes the topology that the other has applied. */
  lemma OverlapLosesBoth<O(!new), D(!new)>(
      apply: Applying<O, D>, store: map<Key, O>, id: ClusterId,
      m: Mode, mcalls: seq<Call<D>>, n: Mode, ncalls: seq<Call<D>>) returns (t: State<O, D>)
    requires Follows(mcalls, id, m) && Follows(ncalls, id, n) && m != n
    ensures Reaches(apply, Both(store, id, m, mcalls, n, ncalls), t) && !HasTopology(t.store, id)
  {
    var i, j := |PutSlots(m)|, |PutSlots(n)|;
    PlanParts(mcalls, id, m, n);
    PlanParts(ncalls, id, n, m);
    t := ReachesAlternating(apply, Both(store, id, m, mcalls, n, ncalls), ProcId(id, 0), i, ProcId(id, 1), j);
    var applied := PerformAll(apply, PerformAll(apply, store, mcalls[..i]), ncalls[..j]);
    BothDeleted(apply, applied, id, m, mcalls[i..], n, ncalls[j..]);
  }

  lemma BothDeleted<O, D>(apply: Applying<O, D>, store: map<Key, O>, id: ClusterId,
                          m: Mode, mdeletes: seq<Call<D>>, n: Mode, ndeletes: seq<Call<D>>)
    requires m != n
    requires (forall c | c in mdeletes :: c.Remove?) && forall c | c in ndeletes :: c.Remove?
    requires forall key | key in TopologyKeys(id, n) :: Touches(mdeletes, key)
    requires forall key | key in TopologyKeys(id, m) :: Touches(ndeletes, key)
    ensures !HasTopology(PerformAll(apply, PerformAll(apply, store, mdeletes), ndeletes), id)
  {
    KeysAfterRemoves(apply, store, mdeletes);
    KeysAfterRemoves(apply, PerformAll(apply, store, mdeletes), ndeletes);
    NoTopology(PerformAll(apply, PerformAll(apply, store, mdeletes), ndeletes), id, m, n);
  }

  lemma NoTopology<O>(store: map<Key, O>, id: ClusterId, m: Mode, n: Mode)
    requires m != n
    requires forall mode, key | mode in {m, n} && key in TopologyKeys(id, mode) :: key !in store
    ensures !HasTopology(store, id)
  {
    forall mode ensures !Complete(store, id, mode) {
      assert StoreSlots(mode)[0] in StoreSlots(mode);
      assert KeyAt(id, StoreSlots(mode)[0]) in TopologyKeys(id, mode);
    }
  }

  lemma OneModeIsSafe<O(!new), D(!new)>(
      apply: Applying<O, D>, store: map<Key, O>, id: ClusterId,
      m: Mode, mcalls: seq<Call<D>>, ncalls: seq<Call<D>>, t: State<O, D>)
    requires Follows(mcalls, id, m) && Follows(ncalls, id, m)
    requires HasTopology(store, id) && Reaches(apply, Both(store, id, m, mcalls, m, ncalls), t)
    ensures HasTopology(t.store, id)
  {
    var s := Both(store, id, m, mcalls, m, ncalls);
    var steps: seq<Step<D>> :| NoneStarts(steps) && Exec(apply, s, steps) == t;
    OneModeStays(apply, s, steps, m);
    NothingIssuedYet(store, id, m, mcalls, m, ncalls);
    TopologySurvives(apply, s, steps, id);
  }

  lemma NothingIssuedYet<O, D>(
      store: map<Key, O>, id: ClusterId, m: Mode, mcalls: seq<Call<D>>, n: Mode, ncalls: seq<Call<D>>)
    requires Follows(mcalls, id, m) && Follows(ncalls, id, n)
    ensures AppliedArePresent(Both(store, id, m, mcalls, n, ncalls))
  {}

  /** A plan run to the end of its applying part leaves a complete topology. */
  lemma PlanMakesTopology<O, D>(apply: Applying<O, D>, id: ClusterId, m: Mode, other: Mode, calls: seq<Call<D>>)
    requires Follows(calls, id, m) && other != m
    ensures |PutSlots(m)| <= |calls| && HasTopology(PerformAll(apply, map[], calls[..|PutSlots(m)|]), id)
  {
    PlanParts(calls, id, m, other);
    KeysAfterPuts(apply, map[], calls[..|PutSlots(m)|]);
    assert Complete(PerformAll(apply, map[], calls[..|PutSlots(m)|]), id, m);
  }

  /** Overlapping reconciliations of a cluster are safe exactly when they want the same mode. */
  lemma OverlapSafeExactlyForOneMode<O(!new), D(!new)>(
      apply: Applying<O, D>, id: ClusterId, m: Mode, mcalls: seq<Call<D>>, n: Mode, ncalls: seq<Call<D>>)
    requires Follows(mcalls, id, m) && Follows(ncalls, id, n)
    ensures OverlapSafe(apply, id, m, mcalls, n, ncalls) <==> m == n
  {
    if m == n {
      forall store: map<Key, O>, t: State<O, D> |
          HasTopology(store, id) && Reaches(apply, Both(store, id, m, mcalls, n, ncalls), t)
        ensures HasTopology(t.store, id)
      {
        OneModeIsSafe(apply, store, id, m, mcalls, ncalls, t);
      }
    } else {
      PlanMakesTopology(apply, id, m, n, mcalls);
      var store := PerformAll(apply, map[], mcalls[..|PutSlots(m)|]);
      var t := OverlapLosesBoth(apply, store, id, m, mcalls, n, ncalls);
    }
  }

  /** Convergence amid everything else: when the cluster's own part of an interleaving is one
      reconciliation without a failing call, its objects end as that reconciliation alone makes them. */
  lemma ConvergesAmidOthers<O, D>(
      apply: Applying<O, D>, s: State<O, D>, steps: seq<Step<D>>, proc: ProcId, mode: Mode, calls: seq<Call<D>>)
    requires WellFormed(s) && proc !in s.running && Follows(calls, proc.cluster, mode)
    requires Own(steps, proc.cluster) == [Start(proc, mode, calls)] + Issues(proc, |calls|)
    ensures OwnStore(Exec(apply, s, steps).store, proc.cluster)
            == PerformAll(apply, OwnStore(s.store, proc.cluster), calls)
  {
    var id := proc.cluster;
    RunsAsIfAlone(apply, s, steps, id);
    var v := View(s, id);
    ExecSplits(apply, v, [Start(proc, mode, calls)], Issues(proc, |calls|));
    var started := Next(apply, v, Start(proc, mode, calls));
    assert Exec(apply, v, [Start(proc, mode, calls)]) == started;
    IssuesPerform(apply, started, proc, |calls|);
    assert calls[0..0 + |calls|] == calls;
  }
}
