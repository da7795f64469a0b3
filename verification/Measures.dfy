/** The measures of the AgentExecutions cube, and what delivery order and replays do to them. */
module Measures {
  import opened Options
  import opened Spans
  import opened Ingest

  function Count(scan: seq<Execution>, p: Execution -> bool): nat {
    if scan == [] then 0 else (if p(scan[0]) then 1 else 0) + Count(scan[1..], p)
  }

  function Total(scan: seq<Execution>, f: Execution -> real): real {
    if scan == [] then 0.0 else f(scan[0]) + Total(scan[1..], f)
  }

  function Matching(scan: seq<Execution>, p: Execution -> bool): seq<Execution> {
    if scan == [] then [] else (if p(scan[0]) then [scan[0]] else []) + Matching(scan[1..], p)
  }

  function DurationMs(e: Execution): real {
    Duration(e) as real / 1_000_000.0
  }

  predicate IsRun(e: Execution) { e.kind == "run" }

  predicate IsFailedRun(e: Execution) { e.kind == "run" && e.status == "failed" }

  predicate IsFailedValidation(e: Execution) { e.kind == "validation" && e.validation == "failed" }

  predicate IsModel(e: Execution) { e.kind == "model" }

  datatype Summary = Summary(
    count: nat,
    runs: nat,
    failedRuns: nat,
    failedValidations: nat,
    averageRunDurationMs: Option<real>,
    inputTokens: real,
    outputTokens: real,
    costUsd: real)

  function InputTokens(e: Execution): real { e.inputTokens as real }

  function OutputTokens(e: Execution): real { e.outputTokens as real }

  function CostUsd(e: Execution): real { e.costUsd }

  /** The measures over rows read in some order; an average over no rows is null. */
  function Summarize(scan: seq<Execution>): Summary {
    var runs := Matching(scan, IsRun);
    Summary(|scan|, Count(scan, IsRun), Count(scan, IsFailedRun), Count(scan, IsFailedValidation),
            if runs == [] then None else Some(Total(runs, DurationMs) / |runs| as real),
            Total(scan, InputTokens), Total(scan, OutputTokens), Total(scan, CostUsd))
  }

  // ---- What each measure is ----

  /** No rows: every count and sum is zero, and there is no average. */
  lemma SummaryOfNothing()
    ensures Summarize([]) == Summary(0, 0, 0, 0, None, 0.0, 0.0, 0.0)
  {}

  /** What one more row adds to each count and to each sum, by its columns. */
  lemma OneMoreRow(e: Execution, scan: seq<Execution>)
    ensures var all, rest := Summarize([e] + scan), Summarize(scan);
            && all.count == rest.count + 1
            && all.runs == rest.runs + (if e.kind == "run" then 1 else 0)
            && all.failedRuns == rest.failedRuns + (if e.kind == "run" && e.status == "failed" then 1 else 0)
            && all.failedValidations
               == rest.failedValidations + (if e.kind == "validation" && e.validation == "failed" then 1 else 0)
            && all.inputTokens == rest.inputTokens + e.inputTokens as real
            && all.outputTokens == rest.outputTokens + e.outputTokens as real
            && all.costUsd == rest.costUsd + e.costUsd
  {
    assert ([e] + scan)[0] == e && ([e] + scan)[1..] == scan;
  }

  /** How long a span lasts, in milliseconds, when that fits a 64-bit count of nanoseconds, as it does for
      every span shorter than 292 years; time.Time.Sub stops at that count. */
  lemma DurationInMilliseconds(e: Execution)
    ensures var passed := e.endedAt.instant - e.startedAt.instant;
            && (-0x8000_0000_0000_0000 <= passed <= 0x7fff_ffff_ffff_ffff ==>
                  DurationMs(e) * 1_000_000.0 == passed as real)
            && (passed > 0x7fff_ffff_ffff_ffff ==> DurationMs(e) * 1_000_000.0 == 9223372036854775807.0)
            && (passed < -0x8000_0000_0000_0000 ==> DurationMs(e) * 1_000_000.0 == -9223372036854775808.0)
            && (passed >= 0 ==> DurationMs(e) >= 0.0)
  {}

  /** The durations of the runs among the rows, added up. */
  function RunTime(scan: seq<Execution>): real {
    if scan == [] then 0.0
    else if scan[0].kind == "run" then DurationMs(scan[0]) + RunTime(scan[1..])
    else RunTime(scan[1..])
  }

  lemma {:induction false} RunsAddUp(scan: seq<Execution>)
    ensures Total(Matching(scan, IsRun), DurationMs) == RunTime(scan)
    ensures |Matching(scan, IsRun)| == Count(scan, IsRun)
    decreases scan
  {
    if scan != [] {
      RunsAddUp(scan[1..]);
      if IsRun(scan[0]) {
        assert Matching(scan, IsRun)[1..] == Matching(scan[1..], IsRun);
      } else {
        assert Matching(scan, IsRun) == Matching(scan[1..], IsRun);
      }
    }
  }

  /** r added to itself n times. */
  function Times(n: nat, r: real): real {
    if n == 0 then 0.0 else Times(n - 1, r) + r
  }

  lemma {:induction false} TimesIsProduct(n: nat, r: real)
    ensures Times(n, r) == r * n as real
  {
    if n > 0 {
      TimesIsProduct(n - 1, r);
      assert r * n as real == r * ((n - 1) as real + 1.0);
    }
  }

  lemma {:induction false} RunTimeBounds(scan: seq<Execution>, least: real, greatest: real)
    requires forall e | e in scan && e.kind == "run" :: least <= DurationMs(e) <= greatest
    ensures Times(Count(scan, IsRun), least) <= RunTime(scan) <= Times(Count(scan, IsRun), greatest)
    decreases scan
  {
    if scan != [] {
      RunTimeBounds(scan[1..], least, greatest);
      assert scan[0] in scan;
    }
  }

  lemma AverageTimesRuns(total: real, n: real)
    requires n > 0.0
    ensures total / n * n == total
  {}

  lemma SameOrder(x: real, y: real, n: real)
    requires n > 0.0
    ensures x * n <= y * n ==> x <= y
  {
    if x > y {
      assert (x - y) * n > 0.0;
      assert (x - y) * n == x * n - y * n;
    }
  }

  /** The average is null exactly when no row is a run. */
  lemma AverageDivides(scan: seq<Execution>)
    ensures var s := Summarize(scan);
            && s.averageRunDurationMs == (if s.runs == 0 then None else Some(RunTime(scan) / s.runs as real))
            && (s.averageRunDurationMs.None? <==> forall e | e in scan :: e.kind != "run")
  {
    RunsAddUp(scan);
    NoneMatch(scan, IsRun);
    assert forall e :: IsRun(e) <==> e.kind == "run";
  }

  lemma {:induction false} NoneMatch(scan: seq<Execution>, p: Execution -> bool)
    ensures Matching(scan, p) == [] <==> forall e | e in scan :: !p(e)
    decreases scan
  {
    if scan != [] { NoneMatch(scan[1..], p); }
  }

  /** Times the number of runs, the average is the sum of their durations. */
  lemma AverageIsMean(scan: seq<Execution>, average: real, runs: nat)
    requires Summarize(scan).averageRunDurationMs == Some(average) && Summarize(scan).runs == runs
    ensures average * runs as real == RunTime(scan)
  {
    AverageDivides(scan);
    QuotientTimesRuns(average, RunTime(scan), runs);
  }

  lemma QuotientTimesRuns(average: real, total: real, runs: nat)
    requires runs > 0 && average == total / runs as real
    ensures average * runs as real == total
  {
    AverageTimesRuns(total, runs as real);
  }

  /** It lies between any bounds on the runs' durations; in particular it is d when every run lasts d. */
  lemma AverageIsBetween(scan: seq<Execution>, least: real, greatest: real)
    requires forall e | e in scan && e.kind == "run" :: least <= DurationMs(e) <= greatest
    ensures var average := Summarize(scan).averageRunDurationMs;
            average.Some? ==> least <= average.value <= greatest
  {
    AverageDivides(scan);
    RunTimeBounds(scan, least, greatest);
    if Count(scan, IsRun) > 0 { BetweenQuotients(Count(scan, IsRun), least, RunTime(scan), greatest); }
  }

  lemma BetweenQuotients(n: nat, least: real, total: real, greatest: real)
    requires n > 0 && Times(n, least) <= total <= Times(n, greatest)
    ensures least <= total / n as real <= greatest
  {
    var v := total / n as real;
    AverageTimesRuns(total, n as real);
    TimesIsProduct(n, least);
    TimesIsProduct(n, greatest);
    SameOrder(least, v, n as real);
    SameOrder(v, greatest, n as real);
  }

  // ---- The order in which rows are read does not matter ----

  lemma {:induction false} CountSplits(a: seq<Execution>, b: seq<Execution>, p: Execution -> bool)
    ensures Count(a + b, p) == Count(a, p) + Count(b, p)
    decreases a
  {
    var all := a + b;
    if a == [] {
      assert all == b;
    } else {
      assert all[0] == a[0] && all[1..] == a[1..] + b;
      CountSplits(a[1..], b, p);
    }
  }

  lemma {:induction false} TotalSplits(a: seq<Execution>, b: seq<Execution>, f: Execution -> real)
    ensures Total(a + b, f) == Total(a, f) + Total(b, f)
    decreases a
  {
    var all := a + b;
    if a == [] {
      assert all == b;
    } else {
      assert all[0] == a[0] && all[1..] == a[1..] + b;
      TotalSplits(a[1..], b, f);
    }
  }

  lemma {:induction false} MatchingSplits(a: seq<Execution>, b: seq<Execution>, p: Execution -> bool)
    ensures Matching(a + b, p) == Matching(a, p) + Matching(b, p)
    decreases a
  {
    var all := a + b;
    if a == [] {
      assert all == b;
    } else {
      assert all[0] == a[0] && all[1..] == a[1..] + b;
      MatchingSplits(a[1..], b, p);
      var head := if p(a[0]) then [a[0]] else [];
      assert head + (Matching(a[1..], p) + Matching(b, p)) == (head + Matching(a[1..], p)) + Matching(b, p);
    }
  }

  lemma Reads(a: seq<Execution>, b: seq<Execution>, p: Execution -> bool, f: Execution -> real)
    ensures Count(a + b, p) == Count(a, p) + Count(b, p)
    ensures Total(a + b, f) == Total(a, f) + Total(b, f)
    ensures Matching(a + b, p) == Matching(a, p) + Matching(b, p)
  {
    CountSplits(a, b, p);
    TotalSplits(a, b, f);
    MatchingSplits(a, b, p);
  }

  /** A row contributes the same wherever it stands. */
  lemma ReadsAnywhere(before: seq<Execution>, e: Execution, after: seq<Execution>,
                      p: Execution -> bool, f: Execution -> real)
    ensures Count(before + [e] + after, p) == Count([e] + (before + after), p)
    ensures Total(before + [e] + after, f) == Total([e] + (before + after), f)
    ensures multiset(Matching(before + [e] + after, p)) == multiset(Matching([e] + (before + after), p))
  {
    Reads(before + [e], after, p, f);
    Reads(before, [e], p, f);
    Reads([e], before + after, p, f);
    Reads(before, after, p, f);
  }

  lemma {:induction false} OrderDoesNotMatter(a: seq<Execution>, b: seq<Execution>,
                                              p: Execution -> bool, f: Execution -> real)
    requires multiset(a) == multiset(b)
    ensures |a| == |b| && Count(a, p) == Count(b, p) && Total(a, f) == Total(b, f)
    ensures multiset(Matching(a, p)) == multiset(Matching(b, p))
    decreases a
  {
    if a == [] {
      assert |multiset(b)| == 0;
    } else {
      var i := Place(a, b);
      var first, rest, others := a[0], a[1..], b[..i] + b[i + 1..];
      OrderDoesNotMatter(rest, others, p, f);
      ReadsAnywhere(b[..i], first, b[i + 1..], p, f);
      assert ([first] + others)[1..] == others;
    }
  }

  /** Where b has the first row of a; without it the two agree again. */
  lemma Place<T>(a: seq<T>, b: seq<T>) returns (i: nat)
    requires multiset(a) == multiset(b) && a != []
    ensures i < |b| && b == b[..i] + [a[0]] + b[i + 1..]
    ensures multiset(a[1..]) == multiset(b[..i] + b[i + 1..])
  {
    var first := a[0];
    assert a == [first] + a[1..];
    assert first in multiset(a);
    i :| 0 <= i < |b| && b[i] == first;
    assert b == b[..i] + [first] + b[i + 1..];
    assert multiset(b) == multiset(b[..i]) + multiset{first} + multiset(b[i + 1..]);
    assert multiset(a) == multiset{first} + multiset(a[1..]);
    assert multiset(a[1..]) == multiset(a) - multiset{first};
  }

  lemma SummaryIgnoresOrder(a: seq<Execution>, b: seq<Execution>)
    requires multiset(a) == multiset(b)
    ensures Summarize(a) == Summarize(b)
  {
    OrderDoesNotMatter(a, b, IsRun, InputTokens);
    OrderDoesNotMatter(a, b, IsFailedRun, OutputTokens);
    OrderDoesNotMatter(a, b, IsFailedValidation, CostUsd);
    var ra, rb := Matching(a, IsRun), Matching(b, IsRun);
    OrderDoesNotMatter(ra, rb, IsRun, DurationMs);
  }

  // ---- Delivery ----

  datatype Delivery = Delivery(event: Execution, at: int)

  /** The table after deliveries of valid, normalized spans none of which is pruned. */
  function DeliverAll(d: seq<Delivery>): Table {
    if d == [] then map[]
    else Upsert(DeliverAll(d[..|d| - 1]), d[|d| - 1].event, d[|d| - 1].at)
  }

  ghost function Delivered(d: seq<Delivery>): set<Execution> {
    set i | 0 <= i < |d| :: d[i].event
  }

  /** No event id is delivered with two payloads. */
  ghost predicate ConflictFree(d: seq<Delivery>) {
    forall i, j | 0 <= i < |d| && 0 <= j < |d| && d[i].event.eventId == d[j].event.eventId :: d[i].event == d[j].event
  }

  ghost predicate Used(d: seq<Delivery>, id: string) {
    exists i :: 0 <= i < |d| && d[i].event.eventId == id
  }

  lemma {:induction false} StoredIds(d: seq<Delivery>, id: string)
    ensures id in DeliverAll(d) <==> Used(d, id)
    decreases |d|
  {
    if d != [] {
      var n := |d| - 1;
      StoredIds(d[..n], id);
      if i :| 0 <= i < n && d[..n][i].event.eventId == id { assert d[i].event.eventId == id; }
      if i :| 0 <= i < |d| && d[i].event.eventId == id { assert i < n ==> d[..n][i] == d[i]; }
    }
  }

  lemma {:induction false} StoredAreDelivered(d: seq<Delivery>)
    ensures Keyed(DeliverAll(d)) && Events(DeliverAll(d)) <= Delivered(d)
    decreases |d|
  {
    if d != [] {
      var n := |d| - 1;
      StoredAreDelivered(d[..n]);
      forall e | e in Events(DeliverAll(d)) ensures e in Delivered(d) {
        if e in Delivered(d[..n]) {
          var j :| 0 <= j < n && d[..n][j].event == e;
          assert d[j].event == e;
        } else {
          assert d[n].event == e;
        }
      }
    }
  }

  /** Whatever is delivered, and however often, the first payload of each id stays. */
  lemma {:induction false} FirstDeliveryWins(d: seq<Delivery>, i: nat)
    requires i < |d| && forall j | 0 <= j < i :: d[j].event.eventId != d[i].event.eventId
    ensures d[i].event.eventId in DeliverAll(d) && DeliverAll(d)[d[i].event.eventId].event == d[i].event
    decreases |d|
  {
    var n := |d| - 1;
    var init := d[..n];
    assert forall j | 0 <= j < n :: init[j] == d[j];
    if i < n { FirstDeliveryWins(init, i); } else { StoredIds(init, d[n].event.eventId); }
  }

  lemma ConflictFreeStoresAll(d: seq<Delivery>)
    requires ConflictFree(d)
    ensures Events(DeliverAll(d)) == Delivered(d)
  {
    StoredAreDelivered(d);
    var t := DeliverAll(d);
    forall e | e in Delivered(d) ensures e in Events(t) {
      var i :| 0 <= i < |d| && d[i].event == e;
      StoredIds(d, e.eventId);
      var stored := t[e.eventId].event;
      assert stored in Events(t);
      var j :| 0 <= j < |d| && d[j].event == stored;
    }
  }

  /** The stored spans do not depend on the order of the deliveries or on how often each is repeated
      exactly when no id comes with two payloads. */
  lemma OrderAndReplaysMatterOnlyForConflicts(d: seq<Delivery>)
    ensures (forall p | Delivered(p) == Delivered(d) :: Events(DeliverAll(p)) == Events(DeliverAll(d)))
            <==> ConflictFree(d)
  {
    if ConflictFree(d) {
      forall p | Delivered(p) == Delivered(d) ensures Events(DeliverAll(p)) == Events(DeliverAll(d)) {
        SameSpansSameConflicts(d, p);
        ConflictFreeStoresAll(d);
        ConflictFreeStoresAll(p);
      }
    } else {
      var i, j :| 0 <= i < |d| && 0 <= j < |d| && d[i].event.eventId == d[j].event.eventId && d[i].event != d[j].event;
      ConflictKeepsFirst(d, i, j);
      ConflictKeepsFirst(d, j, i);
    }
  }

  lemma ConflictKeepsFirst(d: seq<Delivery>, i: nat, j: nat)
    requires i < |d| && j < |d| && d[i].event.eventId == d[j].event.eventId && d[i].event != d[j].event
    ensures var p := [d[i]] + d;
            Delivered(p) == Delivered(d) && d[i].event in Events(DeliverAll(p)) && d[j].event !in Events(DeliverAll(p))
  {
    var p := [d[i]] + d;
    SameSpansInFront(d, i);
    StoredAreDelivered(p);
    FirstDeliveryWins(p, 0);
    KeyedMembership(DeliverAll(p), d[i].event);
    KeyedMembership(DeliverAll(p), d[j].event);
  }

  lemma SameSpansSameConflicts(d: seq<Delivery>, p: seq<Delivery>)
    requires Delivered(p) == Delivered(d) && ConflictFree(d)
    ensures ConflictFree(p)
  {
    forall i, j | 0 <= i < |p| && 0 <= j < |p| && p[i].event.eventId == p[j].event.eventId
      ensures p[i].event == p[j].event
    {
      assert p[i].event in Delivered(p) && p[j].event in Delivered(p);
      var k :| 0 <= k < |d| && d[k].event == p[i].event;
      var l :| 0 <= l < |d| && d[l].event == p[j].event;
    }
  }

  lemma SameSpansInFront(d: seq<Delivery>, i: nat)
    requires i < |d|
    ensures Delivered([d[i]] + d) == Delivered(d)
  {
    var p := [d[i]] + d;
    forall e | e in Delivered(d) ensures e in Delivered(p) {
      var k :| 0 <= k < |d| && d[k].event == e;
      assert p[k + 1].event == e;
    }
  }

  /** The rows of a table, read in some order. */
  ghost predicate Scans(scan: seq<Execution>, t: Table) {
    multiset(scan) == multiset(Events(t))
  }

  /** Every measure comes out as it does over the plain set of distinct spans, for every delivery
      order, any replays and any order of reading. */
  lemma MeasuresOfDistinctSpans(d: seq<Delivery>, scan: seq<Execution>, distinct: seq<Execution>)
    requires ConflictFree(d) && Scans(scan, DeliverAll(d))
    requires multiset(distinct) == multiset(Delivered(d))
    ensures Summarize(scan) == Summarize(distinct)
  {
    ConflictFreeStoresAll(d);
    SummaryIgnoresOrder(scan, distinct);
  }

  // ---- Usage is not counted twice ----

  lemma {:induction false} OnlyModelSpansCount(scan: seq<Execution>, f: Execution -> real)
    requires forall e | e in scan && !IsModel(e) :: f(e) == 0.0
    ensures Total(scan, f) == Total(Matching(scan, IsModel), f)
    decreases scan
  {
    if scan != [] {
      OnlyModelSpansCount(scan[1..], f);
      assert scan[0] in scan;
      Reads(if IsModel(scan[0]) then [scan[0]] else [], Matching(scan[1..], IsModel), IsModel, f);
    }
  }

  lemma {:induction false} MatchingIsPart(scan: seq<Execution>, p: Execution -> bool)
    ensures forall e | e in Matching(scan, p) :: e in scan && p(e)
    decreases scan
  {
    if scan != [] { MatchingIsPart(scan[1..], p); }
  }

  /** Over well-formed spans, for any grouping, tokens and cost over all rows of the group are those
      of its model spans alone. */
  lemma UsageComesFromModelSpans(scan: seq<Execution>, group: Execution -> bool)
    requires forall e | e in scan :: WellFormed(e)
    ensures var all, models := Matching(scan, group), Matching(Matching(scan, group), IsModel);
            && Total(all, InputTokens) == Total(models, InputTokens)
            && Total(all, OutputTokens) == Total(models, OutputTokens)
            && Total(all, CostUsd) == Total(models, CostUsd)
  {
    var all := Matching(scan, group);
    MatchingIsPart(scan, group);
    forall e | e in all && !IsModel(e)
      ensures InputTokens(e) == 0.0 && OutputTokens(e) == 0.0 && CostUsd(e) == 0.0
    {
      UsageOf(e);
    }
    OnlyModelSpansCount(all, InputTokens);
    OnlyModelSpansCount(all, OutputTokens);
    OnlyModelSpansCount(all, CostUsd);
  }

  lemma UsageOf(e: Execution)
    requires WellFormed(e) && !IsModel(e)
    ensures InputTokens(e) == 0.0 && OutputTokens(e) == 0.0 && CostUsd(e) == 0.0
  {}
}
