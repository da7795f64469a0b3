/**
 Ingestion as a transition system.  Requests are validated at one instant and stored at a later one,
 answers get lost, prunes compute a cutoff and execute it later, and the clock advances in between,
 all interleaved in any way.  The only assumption about timing is that no statement commits after
 the request's deadline.
 */
module IngestProtocol {
  import opened Spans
  import opened Ingest

  const REQUEST_DEADLINE: int := 10 * SECOND

  /** A request that has passed validation and is about to be stored. */
  datatype Pending = Pending(event: Execution, validatedAt: int)

  datatype Insertion = Insertion(event: Execution, validatedAt: int, at: int)

  /** computed holds the cutoffs of prunes under way.  What follows is history: the cutoffs that have
      been executed, the insertions in order, and the spans whose storing was successful. */
  datatype State = State(
    clock: int,
    table: Table,
    pending: map<nat, Pending>,
    computed: set<int>,
    executed: set<int>,
    insertions: seq<Insertion>,
    accepted: set<Execution>)

  datatype Step =
    | Advance(duration: nat)
    | Receive(request: nat, event: Execution)
    | Store(request: nat)
    | Abandon(request: nat)
    | ComputeCutoff
    | ExecutePrune(cutoff: int)
    | FailPrune(cutoff: int)

  predicate Admissible(e: Execution, now: int, retention: int) {
    Valid(e, now, retention) && e.startedAt.HasRfc3339Year() && e.endedAt.HasRfc3339Year()
  }

  function Admit(s: State, retention: int, request: nat, event: Execution): State {
    if request in s.pending || !Admissible(event, s.clock, retention) then s
    else s.(pending := s.pending[request := Pending(Normalize(event), s.clock)])
  }

  predicate InTime(s: State, request: nat) {
    request in s.pending && s.clock <= s.pending[request].validatedAt + REQUEST_DEADLINE
  }

  function StoreNow(s: State, request: nat): State {
    if !InTime(s, request) then s
    else
      var p := s.pending[request];
      var table := Upsert(s.table, p.event, s.clock);
      s.(table := table,
         pending := s.pending - {request},
         insertions := if p.event.eventId in s.table then s.insertions
                       else s.insertions + [Insertion(p.event, p.validatedAt, s.clock)],
         accepted := if table[p.event.eventId].event == p.event then s.accepted + {p.event} else s.accepted)
  }

  function PruneNow(s: State, cutoff: int): State {
    if cutoff !in s.computed then s
    else s.(table := Prune(s.table, cutoff), computed := s.computed - {cutoff}, executed := s.executed + {cutoff})
  }

  function Next(s: State, retention: int, step: Step): State {
    match step
    case Advance(duration) => s.(clock := s.clock + duration)
    case Receive(request, event) => Admit(s, retention, request, event)
    case Store(request) => StoreNow(s, request)
    case Abandon(request) => s.(pending := s.pending - {request})
    case ComputeCutoff => s.(computed := s.computed + {s.clock - retention})
    case ExecutePrune(cutoff) => PruneNow(s, cutoff)
    case FailPrune(cutoff) => s.(computed := s.computed - {cutoff})
  }

  function Exec(s: State, retention: int, steps: seq<Step>): State
    decreases steps
  {
    if steps == [] then s else Exec(Next(s, retention, steps[0]), retention, steps[1..])
  }

  function Initial(clock: int): State {
    State(clock, map[], map[], {}, {}, [], {})
  }

  /** The answer to a request that is stored now; its client may never see it. */
  function Answer(s: State, request: nat): int
    requires request in s.pending
  {
    var e := s.pending[request].event;
    if e.eventId in s.table && s.table[e.eventId].event != e then CONFLICT else NO_CONTENT
  }

  ghost predicate Expired(e: Execution, cutoffs: set<int>) {
    exists cutoff :: cutoff in cutoffs && e.endedAt.instant < cutoff
  }

  /** The service's handler in steps: validating, then storing within the deadline, has the effect and
      the answer that the handler's contract gives. */
  lemma HandlerInSteps(s: State, retention: int, request: nat, e: Execution, passed: nat)
    requires request !in s.pending && passed <= REQUEST_DEADLINE
    ensures var received := Exec(s, retention, [Receive(request, e), Advance(passed)]);
            var stored := Exec(s, retention, [Receive(request, e), Advance(passed)] + [Store(request)]);
            if Admissible(e, s.clock, retention) then
              && stored.table == Upsert(s.table, Normalize(e), s.clock + passed)
              && stored.pending == s.pending && request in received.pending
              && (Answer(received, request) == NO_CONTENT <==> stored.table[e.eventId].event == Normalize(e))
              && (Answer(received, request) == CONFLICT <==> stored.table[e.eventId].event != Normalize(e))
            else received == stored == s.(clock := s.clock + passed)
  {
    var received := Exec(s, retention, [Receive(request, e), Advance(passed)]);
    ReceivedInSteps(s, retention, request, e, passed);
    ExecSplits(s, retention, [Receive(request, e), Advance(passed)], [Store(request)]);
    OneStore(received, retention, request);
    if Admissible(e, s.clock, retention) { StoredInSteps(s, request, Normalize(e), passed); }
  }

  lemma OneStore(s: State, retention: int, request: nat)
    ensures Exec(s, retention, [Store(request)]) == StoreNow(s, request)
  {
    var steps := [Store(request)];
    assert steps[0..] == steps && steps[1..] == [];
    ExecUnfolds(s, retention, steps, 0);
  }

  lemma ReceivedInSteps(s: State, retention: int, request: nat, e: Execution, passed: nat)
    ensures var admitted := Admit(s, retention, request, e);
            Exec(s, retention, [Receive(request, e), Advance(passed)]) == admitted.(clock := admitted.clock + passed)
  {
    var steps := [Receive(request, e), Advance(passed)];
    assert steps[0..] == steps && steps[2..] == [];
    ExecUnfolds(s, retention, steps, 0);
    ExecUnfolds(Admit(s, retention, request, e), retention, steps, 1);
  }

  lemma StoredInSteps(s: State, request: nat, e: Execution, passed: nat)
    requires request !in s.pending && passed <= REQUEST_DEADLINE
    ensures var received := s.(pending := s.pending[request := Pending(e, s.clock)], clock := s.clock + passed);
            var stored := StoreNow(received, request);
            && stored.table == Upsert(s.table, e, s.clock + passed) && stored.pending == s.pending
            && (Answer(received, request) == NO_CONTENT <==> stored.table[e.eventId].event == e)
            && (Answer(received, request) == CONFLICT <==> stored.table[e.eventId].event != e)
  {
    assert s.pending[request := Pending(e, s.clock)] - {request} == s.pending;
  }

  /** And so a tick of the retention loop in steps: the cutoff is that of the instant at which it is computed,
      however much later the statement runs. */
  lemma PruneInSteps(s: State, retention: int, passed: nat)
    ensures var cutoff := s.clock - retention;
            var pruned := Exec(s, retention, [ComputeCutoff, Advance(passed), ExecutePrune(cutoff)]);
            && pruned.table == Prune(s.table, cutoff) && pruned.executed == s.executed + {cutoff}
            && pruned.pending == s.pending && pruned.accepted == s.accepted
  {
    var cutoff := s.clock - retention;
    var steps := [ComputeCutoff, Advance(passed), ExecutePrune(cutoff)];
    var computed := Next(s, retention, ComputeCutoff);
    assert steps[0..] == steps && steps[3..] == [];
    ExecUnfolds(s, retention, steps, 0);
    ExecUnfolds(computed, retention, steps, 1);
    ExecUnfolds(Next(computed, retention, Advance(passed)), retention, steps, 2);
  }

  /** A request that is given up is never stored, and a prune that fails is never executed, whatever follows,
      until the request is received anew and the clock is read anew. */
  lemma {:induction false} GivenUpIsOver(s: State, retention: int, request: nat, cutoff: int, steps: seq<Step>)
    requires forall step | step in steps :: !step.ComputeCutoff? && (step.Receive? ==> step.request != request)
    ensures var given := Next(Next(s, retention, Abandon(request)), retention, FailPrune(cutoff));
            var after := Exec(given, retention, steps);
            && request !in after.pending && cutoff !in after.computed
            && StoreNow(after, request) == after && PruneNow(after, cutoff) == after
  {
    NeitherReturns(Next(Next(s, retention, Abandon(request)), retention, FailPrune(cutoff)), retention, request, cutoff,
                   steps);
  }

  lemma {:induction false} NeitherReturns(s: State, retention: int, request: nat, cutoff: int, steps: seq<Step>)
    requires request !in s.pending && cutoff !in s.computed
    requires forall step | step in steps :: !step.ComputeCutoff? && (step.Receive? ==> step.request != request)
    ensures var after := Exec(s, retention, steps); request !in after.pending && cutoff !in after.computed
    decreases steps
  {
    if steps != [] {
      assert steps[0] in steps;
      NeitherReturns(Next(s, retention, steps[0]), retention, request, cutoff, steps[1..]);
    }
  }

  // ---- What every state of every run satisfies ----

  /** The instants of a span that was validated at v and stored at t. */
  ghost predicate StoredInTime(e: Execution, v: int, t: int, retention: int) {
    v <= t <= v + REQUEST_DEADLINE && Timely(e, v, retention)
  }

  ghost predicate PendingOk(s: State, retention: int) {
    forall request | request in s.pending ::
      && s.pending[request].validatedAt <= s.clock
      && Timely(s.pending[request].event, s.pending[request].validatedAt, retention)
  }

  ghost predicate CutoffsPast(s: State, retention: int) {
    && (forall cutoff | cutoff in s.computed :: cutoff <= s.clock - retention)
    && (forall cutoff | cutoff in s.executed :: cutoff <= s.clock - retention)
  }

  /** The row came in by an insertion and has outlived every prune executed since. */
  ghost predicate RowOk(row: Row, s: State, retention: int) {
    && row.recordedAt <= s.clock
    && row.event in s.accepted
    && (exists v :: StoredInTime(row.event, v, row.recordedAt, retention))
    && forall cutoff | cutoff in s.executed :: row.event.endedAt.instant >= cutoff - REQUEST_DEADLINE
  }

  ghost predicate RowsOk(s: State, retention: int) {
    Keyed(s.table) && forall id | id in s.table :: RowOk(s.table[id], s, retention)
  }

  /** An accepted span is in the table or older than the cutoff of an executed prune. */
  ghost predicate AcceptedKept(s: State) {
    forall e | e in s.accepted :: e in Events(s.table) || Expired(e, s.executed)
  }

  ghost predicate InsertionsAccepted(s: State) {
    forall i | 0 <= i < |s.insertions| :: s.insertions[i].event in s.accepted
  }

  ghost predicate Invariant(s: State, retention: int) {
    PendingOk(s, retention) && CutoffsPast(s, retention) && RowsOk(s, retention) && AcceptedKept(s)
    && InsertionsAccepted(s)
  }

  /** A row stays in order while time passes, more is accepted, and prunes spare it. */
  lemma RowStaysOk(row: Row, s: State, t: State, retention: int)
    requires RowOk(row, s, retention)
    requires s.clock <= t.clock && s.accepted <= t.accepted
    requires forall cutoff | cutoff in t.executed && cutoff !in s.executed ::
               row.event.endedAt.instant >= cutoff - REQUEST_DEADLINE
    ensures RowOk(row, t, retention)
  {}

  lemma NewRowIsOk(s: State, retention: int, request: nat, t: State)
    requires PendingOk(s, retention) && CutoffsPast(s, retention) && InTime(s, request)
    requires t.executed == s.executed && t.clock == s.clock && s.pending[request].event in t.accepted
    ensures RowOk(Row(s.pending[request].event, s.clock), t, retention)
  {
    assert StoredInTime(s.pending[request].event, s.pending[request].validatedAt, s.clock, retention);
  }

  lemma StoreKeepsRows(s: State, retention: int, request: nat)
    requires PendingOk(s, retention) && CutoffsPast(s, retention) && RowsOk(s, retention)
    ensures RowsOk(StoreNow(s, request), retention)
  {
    var t := StoreNow(s, request);
    forall id | id in t.table ensures RowOk(t.table[id], t, retention) {
      if id in s.table {
        RowStaysOk(s.table[id], s, t, retention);
      } else {
        NewRowIsOk(s, retention, request, t);
      }
    }
  }

  lemma StoreKeepsAccepted(s: State, request: nat)
    requires Keyed(s.table) && AcceptedKept(s)
    ensures AcceptedKept(StoreNow(s, request))
  {
    var t := StoreNow(s, request);
    forall e | e in t.accepted ensures e in Events(t.table) || Expired(e, t.executed) {
      KeyedMembership(s.table, e);
      if InTime(s, request) {
        assert e in s.accepted || e == s.pending[request].event;
        if e in Events(s.table) { assert t.table[e.eventId] == s.table[e.eventId]; }
      }
    }
  }

  lemma StoreKeepsInvariant(s: State, retention: int, request: nat)
    requires Invariant(s, retention)
    ensures Invariant(StoreNow(s, request), retention)
  {
    StoreKeepsAccepted(s, request);
    StoreKeepsRows(s, retention, request);
  }

  lemma PruneKeepsAccepted(s: State, cutoff: int)
    requires Keyed(s.table) && AcceptedKept(s)
    ensures AcceptedKept(PruneNow(s, cutoff))
  {
    var t := PruneNow(s, cutoff);
    if cutoff in s.computed {
      forall e | e in t.accepted ensures e in Events(t.table) || Expired(e, t.executed) {
        KeyedMembership(s.table, e);
        KeyedMembership(t.table, e);
        if Expired(e, s.executed) {
          var c :| c in s.executed && e.endedAt.instant < c;
          assert c in t.executed;
        } else if e !in Events(t.table) {
          assert cutoff in t.executed && e.endedAt.instant < cutoff;
        }
      }
    }
  }

  lemma PruneKeepsRows(s: State, retention: int, cutoff: int)
    requires RowsOk(s, retention)
    ensures RowsOk(PruneNow(s, cutoff), retention)
  {
    var t := PruneNow(s, cutoff);
    forall id | id in t.table ensures RowOk(t.table[id], t, retention) {
      RowStaysOk(s.table[id], s, t, retention);
    }
  }

  lemma PruneKeepsInvariant(s: State, retention: int, cutoff: int)
    requires Invariant(s, retention)
    ensures Invariant(PruneNow(s, cutoff), retention)
  {
    PruneKeepsAccepted(s, cutoff);
    PruneKeepsRows(s, retention, cutoff);
  }

  lemma AdmitKeepsPending(s: State, retention: int, request: nat, event: Execution)
    requires PendingOk(s, retention)
    ensures PendingOk(Admit(s, retention, request, event), retention)
  {}

  /** Nothing but the clock, the requests under way and the cutoffs not yet executed has changed. */
  predicate SameRecords(s: State, t: State) {
    && t.table == s.table && t.accepted == s.accepted && t.executed == s.executed && t.insertions == s.insertions
    && s.clock <= t.clock
  }

  lemma QuietKeepsRows(s: State, t: State, retention: int)
    requires RowsOk(s, retention) && AcceptedKept(s) && InsertionsAccepted(s) && SameRecords(s, t)
    ensures RowsOk(t, retention) && AcceptedKept(t) && InsertionsAccepted(t)
  {
    forall id | id in t.table ensures RowOk(t.table[id], t, retention) {
      RowStaysOk(s.table[id], s, t, retention);
    }
  }

  lemma LaterKeepsPending(s: State, t: State, retention: int)
    requires PendingOk(s, retention) && s.clock <= t.clock
    requires forall request | request in t.pending :: request in s.pending && t.pending[request] == s.pending[request]
    ensures PendingOk(t, retention)
  {}

  lemma QuietStepKeepsInvariant(s: State, retention: int, step: Step)
    requires Invariant(s, retention) && !step.Store? && !step.ExecutePrune?
    ensures Invariant(Next(s, retention, step), retention)
  {
    var t := Next(s, retention, step);
    QuietKeepsRows(s, t, retention);
    if step.Receive? {
      AdmitKeepsPending(s, retention, step.request, step.event);
    } else {
      LaterKeepsPending(s, t, retention);
    }
  }

  lemma NextKeepsInvariant(s: State, retention: int, step: Step)
    requires Invariant(s, retention)
    ensures Invariant(Next(s, retention, step), retention)
  {
    if step.Store? {
      StoreKeepsInvariant(s, retention, step.request);
    } else if step.ExecutePrune? {
      PruneKeepsInvariant(s, retention, step.cutoff);
    } else {
      QuietStepKeepsInvariant(s, retention, step);
    }
  }

  lemma {:induction false} InvariantHolds(s: State, retention: int, steps: seq<Step>)
    requires Invariant(s, retention)
    ensures Invariant(Exec(s, retention, steps), retention)
    decreases steps
  {
    if steps != [] {
      NextKeepsInvariant(s, retention, steps[0]);
      InvariantHolds(Next(s, retention, steps[0]), retention, steps[1..]);
    }
  }

  /** Every state of every run satisfies the invariant. */
  lemma ReachableIsInvariant(clock: int, retention: int, steps: seq<Step>)
    ensures Invariant(Exec(Initial(clock), retention, steps), retention)
  {
    InvariantHolds(Initial(clock), retention, steps);
  }

  // ---- Exactly-once effect ----

  /** At-least-once delivery has an exactly-once effect: at every moment of every run there is one row
      for each event id, every row holds an accepted span, and among the spans that no executed prune
      has expired the stored ones are exactly the accepted ones. */
  lemma StoredIsAccepted(clock: int, retention: int, steps: seq<Step>)
    ensures var s := Exec(Initial(clock), retention, steps);
            && Keyed(s.table)
            && Events(s.table) <= s.accepted
            && forall e | !Expired(e, s.executed) :: e in Events(s.table) <==> e in s.accepted
  {
    ReachableIsInvariant(clock, retention, steps);
    var s := Exec(Initial(clock), retention, steps);
    forall e | e in Events(s.table) ensures e in s.accepted {
      var id :| id in s.table && s.table[id].event == e;
      assert RowOk(s.table[id], s, retention);
    }
  }

  lemma {:induction false} HistoryGrows(s: State, retention: int, steps: seq<Step>)
    ensures s.accepted <= Exec(s, retention, steps).accepted
    ensures s.executed <= Exec(s, retention, steps).executed
    decreases steps
  {
    if steps != [] { HistoryGrows(Next(s, retention, steps[0]), retention, steps[1..]); }
  }

  /** A prune of the run executes with a cutoff after the end of e. */
  ghost predicate PrunedIn(s: State, retention: int, steps: seq<Step>, e: Execution)
    decreases steps
  {
    steps != [] && (Prunes(s, steps[0], e) || PrunedIn(Next(s, retention, steps[0]), retention, steps[1..], e))
  }

  predicate Prunes(s: State, step: Step, e: Execution) {
    step.ExecutePrune? && step.cutoff in s.computed && e.endedAt.instant < step.cutoff
  }

  /** A row never changes between its insertion and its pruning: from any state and in every run, it
      stays as it is unless a prune executes that is due to remove it. */
  lemma {:induction false} StoredSpanStays(s: State, retention: int, steps: seq<Step>, id: string)
    requires id in s.table
    ensures var t := Exec(s, retention, steps);
            PrunedIn(s, retention, steps, s.table[id].event) || (id in t.table && t.table[id] == s.table[id])
    decreases steps
  {
    if steps != [] && !Prunes(s, steps[0], s.table[id].event) {
      StepKeepsRow(s, retention, steps[0], id);
      StoredSpanStays(Next(s, retention, steps[0]), retention, steps[1..], id);
    }
  }

  lemma StepKeepsRow(s: State, retention: int, step: Step, id: string)
    requires id in s.table && !Prunes(s, step, s.table[id].event)
    ensures id in Next(s, retention, step).table && Next(s, retention, step).table[id] == s.table[id]
  {}

  /** The step inserts a row for the id. */
  predicate Inserts(s: State, step: Step, id: string) {
    step.Store? && InTime(s, step.request) && s.pending[step.request].event.eventId == id && id !in s.table
  }

  ghost predicate NeverInserts(s: State, retention: int, steps: seq<Step>, id: string)
    decreases steps
  {
    steps != [] ==>
      !Inserts(s, steps[0], id) && NeverInserts(Next(s, retention, steps[0]), retention, steps[1..], id)
  }

  lemma StepLeavesAbsent(s: State, retention: int, step: Step, id: string)
    requires id !in s.table && !Inserts(s, step, id)
    ensures id !in Next(s, retention, step).table
  {}

  lemma {:induction false} AbsentStays(s: State, retention: int, steps: seq<Step>, id: string)
    requires id !in s.table && NeverInserts(s, retention, steps, id)
    ensures id !in Exec(s, retention, steps).table
    decreases steps
  {
    if steps != [] {
      StepLeavesAbsent(s, retention, steps[0], id);
      AbsentStays(Next(s, retention, steps[0]), retention, steps[1..], id);
    }
  }

  /** As long as its id is not inserted anew, a row is there exactly until such a prune. */
  lemma {:induction false} RowStaysExactlyUntilPruned(s: State, retention: int, steps: seq<Step>, id: string)
    requires id in s.table && NeverInserts(s, retention, steps, id)
    ensures id in Exec(s, retention, steps).table <==> !PrunedIn(s, retention, steps, s.table[id].event)
    decreases steps
  {
    if steps != [] {
      var t := Next(s, retention, steps[0]);
      if Prunes(s, steps[0], s.table[id].event) {
        assert id !in t.table;
        AbsentStays(t, retention, steps[1..], id);
      } else {
        StepKeepsRow(s, retention, steps[0], id);
        RowStaysExactlyUntilPruned(t, retention, steps[1..], id);
      }
    }
  }

  /** No one has sent, or stored, another payload under the id of e. */
  ghost predicate IdUsedOnlyFor(s: State, e: Execution) {
    && (forall request | request in s.pending && s.pending[request].event.eventId == e.eventId ::
          s.pending[request].event == e)
    && (e.eventId in s.table ==> s.table[e.eventId].event == e)
  }

  ghost predicate SendsOnly(steps: seq<Step>, e: Execution) {
    forall i | 0 <= i < |steps| && steps[i].Receive? && steps[i].event.eventId == e.eventId ::
      Normalize(steps[i].event) == e
  }

  lemma AdmitKeepsIdUse(s: State, retention: int, request: nat, event: Execution, e: Execution)
    requires IdUsedOnlyFor(s, e) && (event.eventId == e.eventId ==> Normalize(event) == e)
    ensures IdUsedOnlyFor(Admit(s, retention, request, event), e)
  {}

  lemma NextKeepsIdUse(s: State, retention: int, step: Step, e: Execution)
    requires IdUsedOnlyFor(s, e)
    requires step.Receive? && step.event.eventId == e.eventId ==> Normalize(step.event) == e
    ensures IdUsedOnlyFor(Next(s, retention, step), e)
  {
    if step.Receive? { AdmitKeepsIdUse(s, retention, step.request, step.event, e); }
  }

  /** A retry is never answered 409, and is answered 204, as long as no other payload uses its id:
      whatever happened to the earlier attempts and however much was pruned meanwhile. */
  lemma {:induction false} RetryIsNeverAConflict(s: State, retention: int, steps: seq<Step>, e: Execution, request: nat)
    requires IdUsedOnlyFor(s, e) && SendsOnly(steps, e)
    requires var t := Exec(s, retention, steps); request in t.pending && t.pending[request].event == e
    ensures Answer(Exec(s, retention, steps), request) == NO_CONTENT
    decreases steps
  {
    if steps != [] {
      assert SendsOnly(steps[1..], e);
      NextKeepsIdUse(s, retention, steps[0], e);
      RetryIsNeverAConflict(Next(s, retention, steps[0]), retention, steps[1..], e, request);
    }
  }

  // ---- Pruning ----

  /** No row is older than the cutoff of an executed prune by more than the request deadline. */
  lemma RowsAreWithinDeadlineOfCutoffs(clock: int, retention: int, steps: seq<Step>, id: string, cutoff: int)
    requires var s := Exec(Initial(clock), retention, steps); id in s.table && cutoff in s.executed
    ensures Exec(Initial(clock), retention, steps).table[id].event.endedAt.instant >= cutoff - REQUEST_DEADLINE
  {
    ReachableIsInvariant(clock, retention, steps);
    var s := Exec(Initial(clock), retention, steps);
    assert RowOk(s.table[id], s, retention);
  }

  /** Every row is gone after the first executed prune that began more than the retention and the
      clock tolerance after its insertion. */
  lemma OldRowsArePruned(clock: int, retention: int, steps: seq<Step>, begunAt: int, id: string)
    requires var s := Exec(Initial(clock), retention, steps);
             && begunAt - retention in s.computed && id in s.table
             && begunAt > s.table[id].recordedAt + retention + FUTURE_TOLERANCE
    ensures id !in Next(Exec(Initial(clock), retention, steps), retention, ExecutePrune(begunAt - retention)).table
  {
    ReachableIsInvariant(clock, retention, steps);
    OldRowIsPruned(Exec(Initial(clock), retention, steps), retention, begunAt, id);
  }

  lemma OldRowIsPruned(s: State, retention: int, begunAt: int, id: string)
    requires RowsOk(s, retention) && begunAt - retention in s.computed && id in s.table
    requires begunAt > s.table[id].recordedAt + retention + FUTURE_TOLERANCE
    ensures id !in PruneNow(s, begunAt - retention).table
  {
    RowsEndByTolerance(s, retention, id);
  }

  lemma RowsEndByTolerance(s: State, retention: int, id: string)
    requires RowsOk(s, retention) && id in s.table
    ensures s.table[id].event.endedAt.instant <= s.table[id].recordedAt + FUTURE_TOLERANCE
  {
    var row := s.table[id];
    assert RowOk(row, s, retention);
    var v :| StoredInTime(row.event, v, row.recordedAt, retention);
  }

  // ---- Resurrection ----

  /** Every store in the run is of a request that was validated no earlier than any executed prune
      computed its cutoff. */
  ghost predicate FreshStore(s: State, retention: int, step: Step) {
    step.Store? && InTime(s, step.request) ==>
      forall cutoff | cutoff in s.executed :: cutoff <= s.pending[step.request].validatedAt - retention
  }

  ghost predicate FreshStores(s: State, retention: int, steps: seq<Step>)
    decreases steps
  {
    steps != [] ==>
      FreshStore(s, retention, steps[0]) && FreshStores(Next(s, retention, steps[0]), retention, steps[1..])
  }

  ghost predicate NoSpanTwice(insertions: seq<Insertion>) {
    forall i, j | 0 <= i < j < |insertions| :: insertions[i].event != insertions[j].event
  }

  ghost predicate NoRowExpired(s: State) {
    forall id | id in s.table :: !Expired(s.table[id].event, s.executed)
  }

  lemma FreshStoreIsNew(s: State, retention: int, request: nat)
    requires PendingOk(s, retention) && Keyed(s.table) && AcceptedKept(s)
    requires FreshStore(s, retention, Store(request)) && InTime(s, request)
    ensures !Expired(s.pending[request].event, s.executed)
    ensures s.pending[request].event.eventId !in s.table ==> s.pending[request].event !in s.accepted
  {
    KeyedMembership(s.table, s.pending[request].event);
  }

  lemma StoreOfNewSpan(s: State, request: nat)
    requires InTime(s, request) && InsertionsAccepted(s) && NoSpanTwice(s.insertions) && NoRowExpired(s)
    requires !Expired(s.pending[request].event, s.executed)
    requires s.pending[request].event.eventId !in s.table ==> s.pending[request].event !in s.accepted
    ensures NoSpanTwice(StoreNow(s, request).insertions) && NoRowExpired(StoreNow(s, request))
  {}

  lemma FreshStepNeverRepeats(s: State, retention: int, step: Step)
    requires Invariant(s, retention) && FreshStore(s, retention, step)
    requires NoSpanTwice(s.insertions) && NoRowExpired(s)
    ensures NoSpanTwice(Next(s, retention, step).insertions) && NoRowExpired(Next(s, retention, step))
  {
    if step.ExecutePrune? {
      PruneLeavesNoneExpired(s, step.cutoff);
    } else if step.Store? && InTime(s, step.request) {
      FreshStoreIsNew(s, retention, step.request);
      StoreOfNewSpan(s, step.request);
    }
  }

  lemma {:induction false} FreshStoresNeverRepeat(s: State, retention: int, steps: seq<Step>)
    requires Invariant(s, retention) && FreshStores(s, retention, steps)
    requires NoSpanTwice(s.insertions) && NoRowExpired(s)
    ensures NoSpanTwice(Exec(s, retention, steps).insertions) && NoRowExpired(Exec(s, retention, steps))
    decreases steps
  {
    if steps != [] {
      NextKeepsInvariant(s, retention, steps[0]);
      FreshStepNeverRepeats(s, retention, steps[0]);
      FreshStoresNeverRepeat(Next(s, retention, steps[0]), retention, steps[1..]);
    }
  }

  lemma PruneLeavesNoneExpired(s: State, cutoff: int)
    requires NoRowExpired(s)
    ensures NoRowExpired(PruneNow(s, cutoff))
  {
    var t := PruneNow(s, cutoff);
    forall id | id in t.table ensures !Expired(t.table[id].event, t.executed) {
      assert !Expired(s.table[id].event, s.executed);
      if c :| c in t.executed && t.table[id].event.endedAt.instant < c { assert c in s.executed; }
    }
  }

  /** The step inserts a span that ended before the cutoff of a prune already executed. */
  ghost predicate StoresLate(s: State, step: Step) {
    && step.Store? && InTime(s, step.request)
    && s.pending[step.request].event.eventId !in s.table && Expired(s.pending[step.request].event, s.executed)
  }

  ghost predicate NeverStoresLate(s: State, retention: int, steps: seq<Step>)
    decreases steps
  {
    steps != [] ==> !StoresLate(s, steps[0]) && NeverStoresLate(Next(s, retention, steps[0]), retention, steps[1..])
  }

  /** The rows are exactly the accepted spans that no executed prune has expired. */
  ghost predicate RowsAreLive(s: State) {
    forall e :: e in Events(s.table) <==> e in s.accepted && !Expired(e, s.executed)
  }

  ghost predicate AlwaysLive(s: State, retention: int, steps: seq<Step>)
    decreases steps
  {
    RowsAreLive(s) && (steps != [] ==> AlwaysLive(Next(s, retention, steps[0]), retention, steps[1..]))
  }

  lemma LiveWithoutExpiredRows(s: State, retention: int)
    requires Invariant(s, retention)
    ensures RowsAreLive(s) <==> NoRowExpired(s)
  {
    if NoRowExpired(s) {
      forall e ensures e in Events(s.table) <==> e in s.accepted && !Expired(e, s.executed) {
        if e in Events(s.table) {
          var id :| id in s.table && s.table[id].event == e;
          assert RowOk(s.table[id], s, retention);
        }
      }
    } else {
      var id :| id in s.table && Expired(s.table[id].event, s.executed);
      assert s.table[id].event in Events(s.table);
    }
  }

  lemma StepExpiresExactlyWhenLate(s: State, retention: int, step: Step)
    requires NoRowExpired(s)
    ensures NoRowExpired(Next(s, retention, step)) <==> !StoresLate(s, step)
  {
    if step.ExecutePrune? {
      PruneLeavesNoneExpired(s, step.cutoff);
    } else if step.Store? {
      StoreExpiresExactlyWhenLate(s, step.request);
    }
  }

  lemma StoreExpiresExactlyWhenLate(s: State, request: nat)
    requires NoRowExpired(s)
    ensures NoRowExpired(StoreNow(s, request)) <==> !StoresLate(s, Store(request))
  {
    var t := StoreNow(s, request);
    if InTime(s, request) && s.pending[request].event.eventId !in s.table {
      var id := s.pending[request].event.eventId;
      assert t.table[id].event == s.pending[request].event;
      forall other | other in t.table && other != id ensures !Expired(t.table[other].event, t.executed) {
        assert t.table[other] == s.table[other];
      }
    }
  }

  /** From a state whose rows are live: they stay live throughout a run if and only if no step of the run
      inserts a span that an executed prune has expired. */
  lemma {:induction false} LiveExactlyWithoutLateStores(s: State, retention: int, steps: seq<Step>)
    requires Invariant(s, retention) && RowsAreLive(s)
    ensures AlwaysLive(s, retention, steps) <==> NeverStoresLate(s, retention, steps)
    decreases steps
  {
    if steps != [] {
      var t := Next(s, retention, steps[0]);
      NextKeepsInvariant(s, retention, steps[0]);
      LiveWithoutExpiredRows(s, retention);
      LiveWithoutExpiredRows(t, retention);
      StepExpiresExactlyWhenLate(s, retention, steps[0]);
      if RowsAreLive(t) { LiveExactlyWithoutLateStores(t, retention, steps[1..]); }
    }
  }

  /** The exact condition, for every run: the rows are the accepted, unexpired spans at every moment if and
      only if no store inserts a span older than the cutoff of a prune already executed. */
  lemma RowsAreLiveExactly(clock: int, retention: int, steps: seq<Step>)
    ensures AlwaysLive(Initial(clock), retention, steps) <==> NeverStoresLate(Initial(clock), retention, steps)
  {
    ReachableIsInvariant(clock, retention, []);
    LiveExactlyWithoutLateStores(Initial(clock), retention, steps);
  }

  /** No resurrection: when no prune is computed between a request's validation and its storing, no
      span is ever inserted twice in a whole run, and the rows are exactly the unexpired accepted spans. */
  lemma NoResurrection(clock: int, retention: int, steps: seq<Step>)
    requires FreshStores(Initial(clock), retention, steps)
    ensures var s := Exec(Initial(clock), retention, steps);
            && NoSpanTwice(s.insertions)
            && forall e :: e in Events(s.table) <==> e in s.accepted && !Expired(e, s.executed)
  {
    StoredIsAccepted(clock, retention, steps);
    FreshStoresNeverRepeat(Initial(clock), retention, steps);
    var s := Exec(Initial(clock), retention, steps);
    forall e | e in Events(s.table) ensures !Expired(e, s.executed) {
      var id :| id in s.table && s.table[id].event == e;
    }
  }

  /** Requests are stored at the instant at which they are validated. */
  ghost predicate AtomicStores(s: State, retention: int, steps: seq<Step>)
    decreases steps
  {
    steps != [] ==>
      && (steps[0].Store? && steps[0].request in s.pending ==> s.pending[steps[0].request].validatedAt == s.clock)
      && AtomicStores(Next(s, retention, steps[0]), retention, steps[1..])
  }

  /** Were validation and storing one step, no resurrection would hold of every run. */
  lemma {:induction false} AtomicStoresAreFresh(s: State, retention: int, steps: seq<Step>)
    requires Invariant(s, retention) && AtomicStores(s, retention, steps)
    ensures FreshStores(s, retention, steps)
    decreases steps
  {
    if steps != [] {
      NextKeepsInvariant(s, retention, steps[0]);
      AtomicStoresAreFresh(Next(s, retention, steps[0]), retention, steps[1..]);
    }
  }

  /** The oldest span that is admitted at an instant. */
  function OldestSpan(id: string, now: int, retention: int): Execution {
    var end := Time(now - retention, 0);
    Execution(id, end, end, "t", "c", "n", "t", "r", "", "a", "run", "n", "succeeded",
              "", "", "", "", "", "", "", "", 0, 0, 0.0, "")
  }

  lemma OldestSpanIsAdmitted(id: string, now: int, retention: int)
    requires id != "" && !IsSpace(id[0])
    requires 0 < now - retention < 3_652_059 * DAY && retention >= 0
    ensures Admissible(OldestSpan(id, now, retention), now, retention)
    ensures Normalize(OldestSpan(id, now, retention)) == OldestSpan(id, now, retention)
  {
    var e := OldestSpan(id, now, retention);
    assert !IsSpace(e.eventId[0]) && !IsSpace(e.tenantId[0]) && !IsSpace(e.cluster[0]) && !IsSpace(e.namespace[0])
      && !IsSpace(e.traceId[0]) && !IsSpace(e.runId[0]) && !IsSpace(e.agent[0]) && !IsSpace(e.kind[0])
      && !IsSpace(e.name[0]) && !IsSpace(e.status[0]);
  }

  /** Validation at an instant keeps out everything that prunes have expired exactly when none of
      them computed its cutoff later: the age test and the prune are complements of each other. */
  lemma AdmittedAreUnexpiredExactlyWhenFresh(now: int, retention: int, cutoffs: set<int>)
    requires 0 < now - retention < 3_652_059 * DAY && retention >= 0
    ensures (forall e | Admissible(e, now, retention) :: !Expired(e, cutoffs))
            <==> forall cutoff | cutoff in cutoffs :: cutoff <= now - retention
  {
    OldestSpanIsAdmitted("e", now, retention);
    if cutoff :| cutoff in cutoffs && cutoff > now - retention {
      assert Expired(OldestSpan("e", now, retention), cutoffs);
    }
  }

  lemma {:induction false} ExecSplits(s: State, retention: int, a: seq<Step>, b: seq<Step>)
    ensures Exec(s, retention, a + b) == Exec(Exec(s, retention, a), retention, b)
    decreases a
  {
    if a == [] {
      assert a + b == b;
    } else {
      assert (a + b)[1..] == a[1..] + b;
      ExecSplits(Next(s, retention, a[0]), retention, a[1..], b);
    }
  }

  lemma ExecUnfolds(s: State, retention: int, steps: seq<Step>, i: nat)
    requires i < |steps|
    ensures Exec(s, retention, steps[i..]) == Exec(Next(s, retention, steps[i]), retention, steps[i + 1..])
  {
    assert steps[i..][1..] == steps[i + 1..];
  }

  // ---- Rows passed validation ----

  /** The part of validation that does not depend on the clock, after normalization. */
  predicate Sound(e: Execution) {
    WellFormed(e) && Normalize(e) == e && e.startedAt.HasRfc3339Year() && e.endedAt.HasRfc3339Year()
  }

  ghost predicate AllSound(s: State) {
    && (forall request | request in s.pending :: Sound(s.pending[request].event))
    && (forall id | id in s.table :: Sound(s.table[id].event))
  }

  lemma NormalizedIsSound(e: Execution, now: int, retention: int)
    requires Admissible(e, now, retention)
    ensures Sound(Normalize(e))
  {}

  lemma NextKeepsSound(s: State, retention: int, step: Step)
    requires AllSound(s)
    ensures AllSound(Next(s, retention, step))
  {
    if step.Receive? {
      AdmitKeepsSound(s, retention, step.request, step.event);
    }
  }

  lemma AdmitKeepsSound(s: State, retention: int, request: nat, event: Execution)
    requires AllSound(s)
    ensures AllSound(Admit(s, retention, request, event))
  {
    if Admissible(event, s.clock, retention) { NormalizedIsSound(event, s.clock, retention); }
  }

  lemma {:induction false} SoundHolds(s: State, retention: int, steps: seq<Step>)
    requires AllSound(s)
    ensures AllSound(Exec(s, retention, steps))
    decreases steps
  {
    if steps != [] {
      NextKeepsSound(s, retention, steps[0]);
      SoundHolds(Next(s, retention, steps[0]), retention, steps[1..]);
    }
  }

  /** In every state of every run, every row is normalized and passes the part of validation that does
      not depend on the clock. */
  lemma RowsAreSound(clock: int, retention: int, steps: seq<Step>)
    ensures forall e | e in Events(Exec(Initial(clock), retention, steps).table) :: Sound(e)
  {
    SoundHolds(Initial(clock), retention, steps);
  }
}
