/** One call of the Kopf handler: a reconciliation and the status it leaves. */
module KopfHandler {
  import opened Options
  import opened Names
  import opened ClusterSpec
  import opened Validation
  import opened Plan
  import opened GoObjects
  import opened KopfObjects
  import MergePatch
  import opened Reconciler
  import opened Status

  function ReasonName(reason: Reason): string {
    match reason
    case InvalidConfiguration => "InvalidConfiguration"
    case ReconcileFailed => "ReconcileFailed"
    case Progressing => "Progressing"
    case ApiHealthCheckFailed => "APIHealthCheckFailed"
    case Available => "Available"
  }

  function VerdictOf(report: Report, message: string): Verdict {
    Verdict(if report.ready then "True" else "False", ReasonName(report.reason), message)
  }

  /** No managed key differs from what applying the spec's documents makes of it. */
  ghost predicate Settled(c: Cluster, parse: QuantityParser, server: KopfServer)
    reads server
  {
    && Buildable(c.spec, parse)
    && Differing(CreateOrMerge, server.objects, CallsFor(c, KopfDesired(c, parse))) == {}
  }

  lemma ReadySettles(c: Cluster, refs: References, parse: QuantityParser, found: nat -> bool, outcomes: Outcomes,
                     notFound: bool, observe: Observation, healthy: bool, before: map<Key, MergePatch.Json>,
                     after: map<Key, MergePatch.Json>, issued: nat, report: Option<Report>)
    requires KopfReconciled(c, refs, parse, found, outcomes, notFound, observe, healthy, before, after, issued, report)
    requires report.Some? && report.value.ready
    ensures Buildable(c.spec, parse) && Differing(CreateOrMerge, after, CallsFor(c, KopfDesired(c, parse))) == {}
  {
    KopfConverges(c, parse, KopfLandings(c, parse, outcomes, found, before), before, after, issued);
  }

  /** The calls of a reconciliation all end well exactly when all of them are issued and none fails. */
  ghost predicate CallsEndWell(c: Cluster, parse: QuantityParser, found: nat -> bool, outcomes: Outcomes,
                               before: map<Key, MergePatch.Json>)
    requires Buildable(c.spec, parse)
  {
    forall i: nat | i < |Slots(StoreMode(c.spec))| :: KopfLandings(c, parse, outcomes, found, before)(i).Done?
  }

  /** What each call needs to end well, in the terms of the store that the reconciliation began with. */
  lemma CallsEndWellOnTheirOwn(c: Cluster, parse: QuantityParser, found: nat -> bool, outcomes: Outcomes,
                               before: map<Key, MergePatch.Json>)
    requires Buildable(c.spec, parse)
    ensures CallsEndWell(c, parse, found, outcomes, before) <==>
              && (forall i: nat | i < |Slots(StoreMode(c.spec))| :: outcomes(i).Done?)
              && (forall i: nat | i < |PutSlots(StoreMode(c.spec))| ::
                    found(i) <==> KeyAt(IdOf(c), PutSlots(StoreMode(c.spec))[i]) in before)
  {
    var mode, applies := StoreMode(c.spec), |PutSlots(StoreMode(c.spec))|;
    var landings := KopfLandings(c, parse, outcomes, found, before);
    forall i: nat | i < |Slots(mode)|
      ensures landings(i) == if i < applies then WriteOutcome(found(i), KeyAt(IdOf(c), PutSlots(mode)[i]) in before,
                                                              outcomes(i))
                             else outcomes(i)
    {
      CallLandsOnItsOwn(c, parse, found, outcomes, before, i);
    }
  }

  lemma CallLandsOnItsOwn(c: Cluster, parse: QuantityParser, found: nat -> bool, outcomes: Outcomes,
                          before: map<Key, MergePatch.Json>, i: nat)
    requires Buildable(c.spec, parse) && i < |Slots(StoreMode(c.spec))|
    ensures var mode := StoreMode(c.spec);
            KopfLandings(c, parse, outcomes, found, before)(i) ==
            if i < |PutSlots(mode)|
            then WriteOutcome(found(i), KeyAt(IdOf(c), PutSlots(mode)[i]) in before, outcomes(i))
            else outcomes(i)
  {
    var calls, mode := CallsFor(c, KopfDesired(c, parse)), StoreMode(c.spec);
    assert Lands(KopfLandings(c, parse, outcomes, found, before), outcomes, found, before, calls,
                 |Documents(c, parse)|, i);
    if i < |PutSlots(mode)| {
      CallsForFollows(c, KopfDesired(c, parse));
      CallKeys(calls, IdOf(c), mode);
      UntouchedSoFar(calls, before, i);
    }
  }

  lemma UntouchedSoFar(calls: seq<Call<Desired>>, before: map<Key, MergePatch.Json>, i: nat)
    requires i < |calls| && forall j, k | 0 <= j < k < |calls| :: calls[j].key != calls[k].key
    ensures calls[i].key in PerformAll(CreateOrMerge, before, calls[..i]) <==> calls[i].key in before
  {
    AfterCalls(CreateOrMerge, before, calls[..i]);
    assert !Touches(calls[..i], calls[i].key);
    assert Lookup(PerformAll(CreateOrMerge, before, calls[..i]), calls[i].key) == Lookup(before, calls[i].key);
  }

  lemma AllIssuedExactlyWhenWell(c: Cluster, refs: References, parse: QuantityParser, found: nat -> bool,
                                 outcomes: Outcomes, notFound: bool, observe: Observation, healthy: bool,
                                 before: map<Key, MergePatch.Json>, after: map<Key, MergePatch.Json>, issued: nat,
                                 report: Option<Report>)
    requires KopfReconciled(c, refs, parse, found, outcomes, notFound, observe, healthy, before, after, issued, report)
    requires KopfAccepted(c.spec, refs, parse)
    ensures Buildable(c.spec, parse)
    ensures issued == |Slots(StoreMode(c.spec))| <==> CallsEndWell(c, parse, found, outcomes, before)
  {
    var calls := CallsFor(c, KopfDesired(c, parse));
    CallsForFollows(c, KopfDesired(c, parse));
    var landings := KopfLandings(c, parse, outcomes, found, before);
    assert StoppedAt(landings, issued, |calls|);
  }

  /** Reconciles, then writes the report, if there is one, under the generation whose spec was reconciled.
      Unlike Go's, a Ready status is therefore always true of the generation it names, when it is written.
      A reconciliation that raises TemporaryError leaves the status as it was. */
  method Handle(server: KopfServer, status: KopfStatus, c: Cluster, generation: int, refs: References,
                parse: QuantityParser, found: nat -> bool, outcomes: Outcomes, notFound: bool, observe: Observation,
                healthy: bool, message: string, now: int)
    returns (report: Option<Report>, ghost issued: nat)
    modifies server, status
    ensures KopfReconciled(c, refs, parse, found, outcomes, notFound, observe, healthy, old(server.objects),
                           server.objects, issued, report)
    ensures report.None? ==>
              status.conditions == old(status.conditions) && status.observedGeneration == old(status.observedGeneration)
    ensures report.Some? ==>
              && status.observedGeneration == generation && status.readyApis == report.value.readyApis
              && FirstReady(status.conditions)
                 == Some(Stamped(FirstReady(old(status.conditions)), VerdictOf(report.value, message), now))
    ensures report.Some? && FirstReady(status.conditions).value.verdict.status == "True" ==> Settled(c, parse, server)
    ensures report.Some? ==>
              var verdict := FirstReady(status.conditions).value.verdict;
              && verdict.status == (if report.value.ready then "True" else "False") && verdict.message == message
              && verdict.reason == match report.value.reason
                                   case InvalidConfiguration => "InvalidConfiguration"
                                   case ReconcileFailed => "ReconcileFailed"
                                   case Progressing => "Progressing"
                                   case ApiHealthCheckFailed => "APIHealthCheckFailed"
                                   case Available => "Available"
    ensures !KopfAccepted(c.spec, refs, parse) ==>
              && report.Some?
              && FirstReady(status.conditions).value.verdict == Verdict("False", "InvalidConfiguration", message)
    ensures KopfAccepted(c.spec, refs, parse) ==> Buildable(c.spec, parse)
    ensures KopfAccepted(c.spec, refs, parse) && CallsEndWell(c, parse, found, outcomes, old(server.objects))
            && AllObserved(c, observe) ==>
              && report.Some?
              && FirstReady(status.conditions).value.verdict
                 == if !AllReady(c, parse, observe) then Verdict("False", "Progressing", message)
                    else if !healthy then Verdict("False", "APIHealthCheckFailed", message)
                    else Verdict("True", "Available", message)
    ensures report.Some? && FirstReady(status.conditions).value.verdict.status == "True" ==>
              && KopfAccepted(c.spec, refs, parse) && CallsEndWell(c, parse, found, outcomes, old(server.objects))
              && AllReady(c, parse, observe) && healthy
  {
    ghost var before := server.objects;
    report, issued := server.Reconcile(c, refs, parse, found, outcomes, notFound, observe, healthy);
    if KopfAccepted(c.spec, refs, parse) {
      AllIssuedExactlyWhenWell(c, refs, parse, found, outcomes, notFound, observe, healthy, before, server.objects,
                               issued, report);
    }
    if report.Some? {
      status.SetStatus(generation, report.value.readyApis, VerdictOf(report.value, message), now);
      if report.value.ready {
        ReadySettles(c, refs, parse, found, outcomes, notFound, observe, healthy, before, server.objects,
                     issued, report);
      }
    }
  }
}
