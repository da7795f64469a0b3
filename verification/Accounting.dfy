/** The measures of the AgentExecutions cube over every run of the ingestion service. */
module Accounting {
  import opened Spans
  import opened Ingest
  import opened IngestProtocol
  import opened Measures
  import Resurrection

  /** The accepted spans that no executed prune has expired. */
  ghost function Live(s: State): set<Execution> {
    set e | e in s.accepted && !Expired(e, s.executed)
  }

  ghost function Unexpired(s: State): Execution -> bool {
    e => !Expired(e, s.executed)
  }

  lemma {:induction false} MatchingCounts(scan: seq<Execution>, p: Execution -> bool, e: Execution)
    ensures multiset(Matching(scan, p))[e] == if p(e) then multiset(scan)[e] else 0
    decreases scan
  {
    if scan != [] {
      MatchingCounts(scan[1..], p, e);
      assert scan == [scan[0]] + scan[1..];
    }
  }

  lemma {:induction false} MatchingDropsNone(scan: seq<Execution>, p: Execution -> bool)
    ensures |Matching(scan, p)| <= |scan|
    ensures |Matching(scan, p)| == |scan| <==> forall e | e in scan :: p(e)
    decreases scan
  {
    if scan != [] {
      MatchingDropsNone(scan[1..], p);
      assert forall e :: e in scan <==> e == scan[0] || e in scan[1..];
    }
  }

  lemma {:induction false} MatchingAll(scan: seq<Execution>, p: Execution -> bool)
    requires forall e | e in scan :: p(e)
    ensures Matching(scan, p) == scan
    decreases scan
  {
    if scan != [] {
      assert scan[0] in scan;
      MatchingAll(scan[1..], p);
    }
  }

  lemma ScannedRows(scan: seq<Execution>, t: Table)
    requires Scans(scan, t)
    ensures forall e :: e in scan <==> e in Events(t)
  {
    forall e ensures e in scan <==> e in Events(t) {
      assert e in scan <==> e in multiset(scan);
    }
  }

  lemma UnexpiredRowsAreLive(clock: int, retention: int, steps: seq<Step>, scan: seq<Execution>, live: seq<Execution>)
    requires Scans(scan, Exec(Initial(clock), retention, steps).table)
    requires multiset(live) == multiset(Live(Exec(Initial(clock), retention, steps)))
    ensures multiset(Matching(scan, Unexpired(Exec(Initial(clock), retention, steps)))) == multiset(live)
  {
    var s := Exec(Initial(clock), retention, steps);
    var p := Unexpired(s);
    StoredIsAccepted(clock, retention, steps);
    forall e ensures multiset(Matching(scan, p))[e] == multiset(live)[e] {
      MatchingCounts(scan, p, e);
    }
  }

  /** In every run whatsoever, every measure over the rows that no executed prune has expired is that of
      the plain set of accepted, unexpired spans, whatever was repeated, reordered or lost, and however
      Cube reads the rows. */
  lemma MeasuresOfUnexpiredRows(clock: int, retention: int, steps: seq<Step>,
                              scan: seq<Execution>, live: seq<Execution>)
    requires Scans(scan, Exec(Initial(clock), retention, steps).table)
    requires multiset(live) == multiset(Live(Exec(Initial(clock), retention, steps)))
    ensures Summarize(Matching(scan, Unexpired(Exec(Initial(clock), retention, steps)))) == Summarize(live)
  {
    UnexpiredRowsAreLive(clock, retention, steps, scan, live);
    SummaryIgnoresOrder(Matching(scan, Unexpired(Exec(Initial(clock), retention, steps))), live);
  }

  /** In every run, the measures over all rows are those of the accepted, unexpired spans exactly when no
      row that is stored has expired, that is, when no row has come back after a prune. */
  lemma MeasuresAreExactWithoutExpiredRows(
      clock: int, retention: int, steps: seq<Step>, scan: seq<Execution>, live: seq<Execution>)
    requires Scans(scan, Exec(Initial(clock), retention, steps).table)
    requires multiset(live) == multiset(Live(Exec(Initial(clock), retention, steps)))
    ensures Summarize(scan) == Summarize(live) <==> NoRowExpired(Exec(Initial(clock), retention, steps))
  {
    var s := Exec(Initial(clock), retention, steps);
    var kept := Matching(scan, Unexpired(s));
    UnexpiredRowsAreLive(clock, retention, steps, scan, live);
    MeasuresOfUnexpiredRows(clock, retention, steps, scan, live);
    ScannedRows(scan, s.table);
    MatchingDropsNone(scan, Unexpired(s));
    NoRowExpiredOfScan(s, scan);
    assert |kept| == |multiset(kept)| == |multiset(live)| == |live|;
    if NoRowExpired(s) {
      MatchingAll(scan, Unexpired(s));
    } else {
      assert Summarize(scan).count != Summarize(live).count;
    }
  }

  lemma NoRowExpiredOfScan(s: State, scan: seq<Execution>)
    requires forall e :: e in scan <==> e in Events(s.table)
    ensures NoRowExpired(s) <==> forall e | e in scan :: Unexpired(s)(e)
  {
    if NoRowExpired(s) {
      forall e | e in scan ensures Unexpired(s)(e) {
        var id :| id in s.table && s.table[id].event == e;
      }
    } else {
      var id :| id in s.table && Expired(s.table[id].event, s.executed);
      assert s.table[id].event in Events(s.table);
    }
  }

  /** As the code is the two differ: from any starting time, and for any gap between a retry's validation
      and a prune's cutoff that the deadline allows, there is a run after which the measures over all rows,
      however they are read, are not those of the accepted, unexpired spans. */
  lemma MeasuresCanBeWrong(clock: int, retention: int, gap: nat) returns (steps: seq<Step>)
    requires 0 < clock - retention < 3_652_059 * DAY && retention >= 0
    requires 0 < gap <= REQUEST_DEADLINE
    ensures var s := Exec(Initial(clock), retention, steps);
            forall scan, live | Scans(scan, s.table) && multiset(live) == multiset(Live(s)) ::
              Summarize(scan) != Summarize(live)
  {
    steps := Resurrection.ResurrectionHappens(clock, retention, gap);
    var s := Exec(Initial(clock), retention, steps);
    forall scan, live | Scans(scan, s.table) && multiset(live) == multiset(Live(s))
      ensures Summarize(scan) != Summarize(live)
    {
      MeasuresAreExactWithoutExpiredRows(clock, retention, steps, scan, live);
    }
  }

  /** Without prunes between validating and storing no row expires unpruned, and so every measure is that
      of the accepted, unexpired spans. */
  lemma MeasuresOfAcceptedSpans(clock: int, retention: int, steps: seq<Step>,
                              scan: seq<Execution>, live: seq<Execution>)
    requires FreshStores(Initial(clock), retention, steps)
    requires Scans(scan, Exec(Initial(clock), retention, steps).table)
    requires multiset(live) == multiset(Live(Exec(Initial(clock), retention, steps)))
    ensures Summarize(scan) == Summarize(live)
  {
    FreshStoresNeverRepeat(Initial(clock), retention, steps);
    MeasuresAreExactWithoutExpiredRows(clock, retention, steps, scan, live);
  }

  /** In every run whatsoever, and for any grouping, tokens and cost over all rows of a group are those
      of its model spans alone. */
  lemma UsageIsNeverCountedTwice(clock: int, retention: int, steps: seq<Step>, scan: seq<Execution>,
                                group: Execution -> bool)
    requires Scans(scan, Exec(Initial(clock), retention, steps).table)
    ensures var all, models := Matching(scan, group), Matching(Matching(scan, group), IsModel);
            && Total(all, InputTokens) == Total(models, InputTokens)
            && Total(all, OutputTokens) == Total(models, OutputTokens)
            && Total(all, CostUsd) == Total(models, CostUsd)
  {
    RowsAreSound(clock, retention, steps);
    ScannedRows(scan, Exec(Initial(clock), retention, steps).table);
    UsageComesFromModelSpans(scan, group);
  }
}
