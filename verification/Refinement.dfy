/** The controllers' loops are runs of the transition system, so what holds of every run holds of them. */
module Refinement {
  import opened Names
  import opened ClusterSpec
  import opened Plan
  import opened Interleaving
  import opened Overlap
  import opened Reconciler
  import GoObjects
  import KopfObjects
  import MergePatch

  function StepsOf<D>(proc: ProcId, mode: Mode, calls: seq<Call<D>>, outcomes: Outcomes, issued: nat): seq<Step<D>> {
    [Start(proc, mode, calls)] + seq(issued, _ => Issue(proc, Done))
    + if issued < |calls| then [Issue(proc, outcomes(issued))] else []
  }

  /** What a reconciliation does to the objects, up to and including the first call that fails, a run
      of the transition system does to its store. */
  lemma RanIsARun<O, D>(apply: Applying<O, D>, proc: ProcId, mode: Mode, calls: seq<Call<D>>, outcomes: Outcomes,
                        before: map<Key, O>, after: map<Key, O>, issued: nat)
    requires Follows(calls, proc.cluster, mode) && Ran(apply, calls, outcomes, before, after, issued)
    ensures Exec(apply, State(before, map[]), StepsOf(proc, mode, calls, outcomes, issued)).store == after
  {
    var s, begin := State(before, map[]), [Start(proc, mode, calls)];
    var started := Next(apply, s, begin[0]);
    assert Exec(apply, s, begin) == started;
    ExecSplits(apply, s, begin, Issues(proc, issued));
    IssuesPerform(apply, started, proc, issued);
    assert calls[0..0 + issued] == calls[..issued];
    var t := Exec(apply, s, begin + Issues(proc, issued));
    if issued < |calls| {
      LastCall(apply, t, proc, mode, calls, outcomes, before, issued);
      ExecSplits(apply, s, begin + Issues(proc, issued), [Issue(proc, outcomes(issued))]);
    } else {
      assert StepsOf(proc, mode, calls, outcomes, issued) == begin + Issues(proc, issued);
    }
  }

  lemma LastCall<O, D>(apply: Applying<O, D>, t: State<O, D>, proc: ProcId, mode: Mode, calls: seq<Call<D>>,
                       outcomes: Outcomes, before: map<Key, O>, issued: nat)
    requires issued < |calls| && !outcomes(issued).Done?
    requires proc in t.running && t.running[proc] == Proc(mode, calls, issued)
    requires t.store == PerformAll(apply, before, calls[..issued])
    ensures Exec(apply, t, [Issue(proc, outcomes(issued))]).store
            == PerformAll(apply, before, calls[..Landed(outcomes, issued, |calls|)])
  {
    var step: Step<D> := Issue(proc, outcomes(issued));
    assert [step][1..] == [];
    assert Exec(apply, t, [step]) == Next(apply, t, step);
    PerformOneMore(apply, before, calls, issued);
  }

  /** Wherever a call fails, and whatever mode is wanted, a reconciliation leaves every cluster that
      had a complete topology with one. */
  lemma ReconciliationKeepsTopology<O, D>(
      apply: Applying<O, D>, proc: ProcId, mode: Mode, calls: seq<Call<D>>, outcomes: Outcomes,
      before: map<Key, O>, after: map<Key, O>, issued: nat, id: ClusterId)
    requires Follows(calls, proc.cluster, mode) && Ran(apply, calls, outcomes, before, after, issued)
    requires HasTopology(before, id)
    ensures HasTopology(after, id)
  {
    var s, steps := State(before, map[]), StepsOf(proc, mode, calls, outcomes, issued);
    RanIsARun(apply, proc, mode, calls, outcomes, before, after, issued);
    var started, rest := Next(apply, s, steps[0]), steps[1..];
    assert NoneStarts(rest);
    OneModeStays(apply, started, rest, mode);
    TopologySurvives(apply, s, steps, id);
  }

  /** In particular the Go controller's. */
  lemma GoKeepsTopology(c: Cluster, parse: QuantityParser, outcomes: Outcomes,
                        before: map<Key, GoObjects.Object>, after: map<Key, GoObjects.Object>,
                        issued: nat, id: ClusterId)
    requires Buildable(c.spec, parse) && HasTopology(before, id)
    requires Ran(Replace, CallsFor(c, GoDesired(c, parse)), outcomes, before, after, issued)
    ensures HasTopology(after, id)
  {
    CallsForFollows(c, GoDesired(c, parse));
    ReconciliationKeepsTopology(Replace, ProcId(GoObjects.IdOf(c), 0), StoreMode(c.spec),
                                CallsFor(c, GoDesired(c, parse)),
                                outcomes, before, after, issued, id);
  }

  /** And Kopf's. */
  lemma KopfKeepsTopology(c: Cluster, parse: QuantityParser, outcomes: Outcomes,
                          before: map<Key, MergePatch.Json>, after: map<Key, MergePatch.Json>,
                          issued: nat, id: ClusterId)
    requires Buildable(c.spec, parse) && HasTopology(before, id)
    requires Ran(KopfObjects.CreateOrMerge, CallsFor(c, KopfDesired(c, parse)), outcomes, before, after, issued)
    ensures HasTopology(after, id)
  {
    CallsForFollows(c, KopfDesired(c, parse));
    ReconciliationKeepsTopology(KopfObjects.CreateOrMerge, ProcId(GoObjects.IdOf(c), 0), StoreMode(c.spec),
                                CallsFor(c, KopfDesired(c, parse)), outcomes, before, after, issued, id);
  }
}
