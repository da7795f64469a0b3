/**
 Whether a pruned span can be stored again.  It can, because a request is validated at one instant and
 stored at a later one: a prune that computes its cutoff in between may remove the span after the age
 test has let it through.  What follows says exactly when.
 */
module Resurrection {
  import opened Spans
  import opened Ingest
  import opened IngestProtocol
  import Text

  // ---- Every run: a span that is inserted again was pruned late ----

  /** Between the validation and the storing behind an insertion, and so within the deadline, a prune
      computed a cutoff after the span's end. */
  ghost predicate LatePrune(i: Insertion, executed: set<int>, retention: int) {
    && i.validatedAt <= i.at <= i.validatedAt + REQUEST_DEADLINE
    && exists cutoff :: cutoff in executed && i.event.endedAt.instant < cutoff
         && i.validatedAt - retention < cutoff <= i.at - retention
  }

  ghost predicate RepeatsAreLate(s: State, retention: int) {
    forall i, j | 0 <= i < j < |s.insertions| && s.insertions[i].event == s.insertions[j].event ::
      LatePrune(s.insertions[j], s.executed, retention)
  }

  lemma StoreAgainIsLate(s: State, retention: int, request: nat)
    requires Invariant(s, retention) && InTime(s, request)
    requires s.pending[request].event in s.accepted && s.pending[request].event.eventId !in s.table
    ensures var p := s.pending[request]; LatePrune(Insertion(p.event, p.validatedAt, s.clock), s.executed, retention)
  {
    var p := s.pending[request];
    KeyedMembership(s.table, p.event);
    assert Expired(p.event, s.executed);
  }

  lemma StoreKeepsRepeatsLate(s: State, retention: int, request: nat)
    requires Invariant(s, retention) && RepeatsAreLate(s, retention)
    ensures RepeatsAreLate(StoreNow(s, request), retention)
  {
    var t := StoreNow(s, request);
    if InTime(s, request) && s.pending[request].event.eventId !in s.table {
      var n := |s.insertions|;
      forall i, j | 0 <= i < j < |t.insertions| && t.insertions[i].event == t.insertions[j].event
        ensures LatePrune(t.insertions[j], t.executed, retention)
      {
        assert t.insertions[i] == s.insertions[i];
        if j == n {
          assert s.insertions[i].event in s.accepted;
          StoreAgainIsLate(s, retention, request);
        } else {
          assert LatePrune(s.insertions[j], s.executed, retention);
        }
      }
    }
  }

  lemma MorePrunesStayLate(s: State, t: State, retention: int)
    requires RepeatsAreLate(s, retention) && t.insertions == s.insertions && s.executed <= t.executed
    ensures RepeatsAreLate(t, retention)
  {
    forall i, j | 0 <= i < j < |t.insertions| && t.insertions[i].event == t.insertions[j].event
      ensures LatePrune(t.insertions[j], t.executed, retention)
    {
      assert LatePrune(s.insertions[j], s.executed, retention);
    }
  }

  lemma {:induction false} RepeatsStayLate(s: State, retention: int, steps: seq<Step>)
    requires Invariant(s, retention) && RepeatsAreLate(s, retention)
    ensures RepeatsAreLate(Exec(s, retention, steps), retention)
    decreases steps
  {
    if steps != [] {
      var t := Next(s, retention, steps[0]);
      NextKeepsInvariant(s, retention, steps[0]);
      if steps[0].Store? {
        StoreKeepsRepeatsLate(s, retention, steps[0].request);
      } else {
        MorePrunesStayLate(s, t, retention);
      }
      RepeatsStayLate(t, retention, steps[1..]);
    }
  }

  /** In every run, whenever a span is inserted once more, a prune has computed a cutoff after its end
      between the validation and the storing of the request that inserted it. */
  lemma RepeatsNeedLatePrune(clock: int, retention: int, steps: seq<Step>)
    ensures RepeatsAreLate(Exec(Initial(clock), retention, steps), retention)
  {
    ReachableIsInvariant(clock, retention, []);
    RepeatsStayLate(Initial(clock), retention, steps);
  }

  // ---- Every run: when a retry inserts its span again ----

  /** The request is not stored, or given up, in the run. */
  ghost predicate LeavesAlone(steps: seq<Step>, request: nat) {
    forall i | 0 <= i < |steps| :: steps[i] != Store(request) && steps[i] != Abandon(request)
  }

  lemma {:induction false} PendingStays(s: State, retention: int, steps: seq<Step>, request: nat)
    requires request in s.pending && LeavesAlone(steps, request)
    ensures var t := Exec(s, retention, steps); request in t.pending && t.pending[request] == s.pending[request]
    decreases steps
  {
    if steps != [] {
      var t := Next(s, retention, steps[0]);
      assert request in t.pending && t.pending[request] == s.pending[request];
      assert LeavesAlone(steps[1..], request);
      PendingStays(t, retention, steps[1..], request);
    }
  }

  /** From any state in which a span is stored and a retry of it is under way, through any run that does
      not insert its id: storing the retry inserts the span again exactly when it comes within the
      deadline and a prune of the run was due to remove the span. */
  lemma RetryInsertsAgain(s: State, retention: int, steps: seq<Step>, request: nat)
    requires request in s.pending && s.pending[request].event.eventId in s.table
    requires s.table[s.pending[request].event.eventId].event == s.pending[request].event
    requires LeavesAlone(steps, request) && NeverInserts(s, retention, steps, s.pending[request].event.eventId)
    ensures var p, t := s.pending[request], Exec(s, retention, steps);
            StoreNow(t, request).insertions == t.insertions + [Insertion(p.event, p.validatedAt, t.clock)]
            <==> t.clock <= p.validatedAt + REQUEST_DEADLINE && PrunedIn(s, retention, steps, p.event)
  {
    PendingStays(s, retention, steps, request);
    RowStaysExactlyUntilPruned(s, retention, steps, s.pending[request].event.eventId);
  }

  // ---- The exact timing, over every run and every span ----

  /** Time and prunes do not depend on which spans are sent. */
  ghost predicate SameTime(s: State, t: State) {
    s.clock == t.clock && s.computed == t.computed && s.executed == t.executed
  }

  lemma StepIgnoresSpans(s: State, t: State, retention: int, step: Step)
    requires SameTime(s, t)
    ensures SameTime(Next(s, retention, step), Next(t, retention, step))
  {
    if step.Receive? {
      AdmitTakesNoTime(s, retention, step.request, step.event);
      AdmitTakesNoTime(t, retention, step.request, step.event);
    }
  }

  lemma AdmitTakesNoTime(s: State, retention: int, request: nat, e: Execution)
    ensures SameTime(s, Admit(s, retention, request, e))
  {}

  lemma {:induction false} TimeIgnoresSpans(s: State, t: State, retention: int, steps: seq<Step>)
    requires SameTime(s, t)
    ensures SameTime(Exec(s, retention, steps), Exec(t, retention, steps))
    decreases steps
  {
    if steps != [] {
      StepIgnoresSpans(s, t, retention, steps[0]);
      TimeIgnoresSpans(Next(s, retention, steps[0]), Next(t, retention, steps[0]), retention, steps[1..]);
    }
  }

  /** A span is delivered and stored, and its retry is validated, all at one instant. */
  function Delivered(s: State, retention: int, e: Execution, first: nat, retry: nat): State {
    Admit(StoreNow(Admit(s, retention, first, e), first), retention, retry, e)
  }

  /** After its delivery e is stored and the retry is under way; after the rest of the run, storing the
      retry inserts e again. */
  ghost predicate ComesBack(s: State, retention: int, e: Execution, first: nat, retry: nat, steps: seq<Step>) {
    var stored := Delivered(s, retention, e, first, retry);
    var t := Exec(stored, retention, steps);
    && e.eventId in stored.table && stored.table[e.eventId].event == Normalize(e)
    && retry in stored.pending && stored.pending[retry] == Pending(Normalize(e), s.clock)
    && StoreNow(t, retry).insertions == t.insertions + [Insertion(Normalize(e), s.clock, t.clock)]
  }

  lemma DeliveredKeepsInvariant(s: State, retention: int, e: Execution, first: nat, retry: nat)
    requires Invariant(s, retention)
    ensures Invariant(Delivered(s, retention, e, first, retry), retention)
    ensures SameTime(s, Delivered(s, retention, e, first, retry))
  {
    var s1 := Admit(s, retention, first, e);
    AdmitKeepsInvariant(s, retention, first, e);
    StoreKeepsInvariant(s1, retention, first);
    AdmitKeepsInvariant(StoreNow(s1, first), retention, retry, e);
  }

  /** There is a span that comes back. */
  ghost predicate Resurrects(s: State, retention: int, first: nat, retry: nat, steps: seq<Step>) {
    exists e :: ComesBack(s, retention, e, first, retry, steps)
  }

  lemma AdmitKeepsInvariant(s: State, retention: int, request: nat, e: Execution)
    requires Invariant(s, retention)
    ensures Invariant(Admit(s, retention, request, e), retention) && SameTime(s, Admit(s, retention, request, e))
  {
    NextKeepsInvariant(s, retention, Receive(request, e));
    AdmitTakesNoTime(s, retention, request, e);
  }

  lemma OneMoreInsertion(t: State, request: nat, last: Insertion)
    requires StoreNow(t, request).insertions == t.insertions + [last]
    ensures InTime(t, request) && t.pending[request] == Pending(last.event, last.validatedAt)
    ensures last.event.eventId !in t.table
  {
    var all := StoreNow(t, request).insertions;
    assert |all| == |t.insertions| + 1 && all[|t.insertions|] == last;
  }

  /** A span that is about to come back has been accepted, is no longer stored, and was pruned late. */
  lemma AboutToComeBack(s: State, retention: int, e: Execution, first: nat, retry: nat, steps: seq<Step>)
    requires Invariant(s, retention) && ComesBack(s, retention, e, first, retry, steps)
    ensures var t := Exec(Delivered(s, retention, e, first, retry), retention, steps);
            && InTime(t, retry) && t.pending[retry] == Pending(Normalize(e), s.clock)
            && Normalize(e).eventId !in t.table
            && LatePrune(Insertion(Normalize(e), s.clock, t.clock), t.executed, retention)
  {
    var stored := Delivered(s, retention, e, first, retry);
    var t := Exec(stored, retention, steps);
    DeliveredKeepsInvariant(s, retention, e, first, retry);
    InvariantHolds(stored, retention, steps);
    HistoryGrows(stored, retention, steps);
    assert RowOk(stored.table[e.eventId], stored, retention);
    OneMoreInsertion(t, retry, Insertion(Normalize(e), s.clock, t.clock));
    StoreAgainIsLate(t, retention, retry);
  }

  lemma ComingBackIsLate(s: State, retention: int, e: Execution, first: nat, retry: nat, steps: seq<Step>)
    requires Invariant(s, retention) && ComesBack(s, retention, e, first, retry, steps)
    ensures var t := Exec(s, retention, steps);
            && t.clock <= s.clock + REQUEST_DEADLINE
            && exists cutoff :: cutoff in t.executed && cutoff > s.clock - retention
  {
    AboutToComeBack(s, retention, e, first, retry, steps);
    DeliveredKeepsInvariant(s, retention, e, first, retry);
    TimeIgnoresSpans(s, Delivered(s, retention, e, first, retry), retention, steps);
  }

  /** No request but one is under way for the id. */
  ghost predicate OnlyRetryUses(s: State, id: string, retry: nat) {
    forall request | request in s.pending && request != retry :: s.pending[request].event.eventId != id
  }

  ghost predicate NeverSends(steps: seq<Step>, id: string) {
    forall i | 0 <= i < |steps| && steps[i].Receive? :: steps[i].event.eventId != id
  }

  lemma {:induction false} UnsentIsNotInserted(s: State, retention: int, steps: seq<Step>, id: string, retry: nat)
    requires OnlyRetryUses(s, id, retry) && NeverSends(steps, id) && LeavesAlone(steps, retry)
    ensures NeverInserts(s, retention, steps, id)
    decreases steps
  {
    if steps != [] {
      var t := Next(s, retention, steps[0]);
      assert steps[0] != Store(retry) && (steps[0].Receive? ==> steps[0].event.eventId != id);
      assert OnlyRetryUses(t, id, retry);
      assert NeverSends(steps[1..], id) && LeavesAlone(steps[1..], retry);
      UnsentIsNotInserted(t, retention, steps[1..], id, retry);
    }
  }

  lemma {:induction false} ExecutedInRun(s: State, retention: int, steps: seq<Step>, cutoff: int, e: Execution)
    requires cutoff !in s.executed && cutoff in Exec(s, retention, steps).executed && e.endedAt.instant < cutoff
    ensures PrunedIn(s, retention, steps, e)
    decreases steps
  {
    assert steps != [];
    if !Prunes(s, steps[0], e) {
      assert cutoff !in Next(s, retention, steps[0]).executed;
      ExecutedInRun(Next(s, retention, steps[0]), retention, steps[1..], cutoff, e);
    }
  }

  /** An event id that is used neither in the state nor in the run. */
  lemma UnusedId(s: State, steps: seq<Step>) returns (id: string)
    ensures id != "" && !IsSpace(id[0]) && id !in s.table && NeverSends(steps, id)
    ensures forall request | request in s.pending :: s.pending[request].event.eventId != id
  {
    var pending := set request | request in s.pending :: s.pending[request].event.eventId;
    var sent := set i | 0 <= i < |steps| && steps[i].Receive? :: steps[i].event.eventId;
    id := Text.UnusedName(s.table.Keys + pending + sent);
    forall request | request in s.pending ensures s.pending[request].event.eventId != id {
      assert s.pending[request].event.eventId in pending;
    }
    forall i | 0 <= i < |steps| && steps[i].Receive? ensures steps[i].event.eventId != id {
      assert steps[i].event.eventId in sent;
    }
  }

  lemma DeliveredIsStored(s: State, retention: int, e: Execution, first: nat, retry: nat)
    requires Admissible(e, s.clock, retention) && Normalize(e) == e && e.eventId !in s.table
    requires first != retry && first !in s.pending && retry !in s.pending
    requires forall request | request in s.pending :: s.pending[request].event.eventId != e.eventId
    ensures var stored := Delivered(s, retention, e, first, retry);
            && e.eventId in stored.table && stored.table[e.eventId].event == e
            && retry in stored.pending && stored.pending[retry] == Pending(e, s.clock)
            && OnlyRetryUses(stored, e.eventId, retry)
  {
    var s1 := Admit(s, retention, first, e);
    assert s1.pending == s.pending[first := Pending(e, s.clock)];
    var s2 := StoreNow(s1, first);
    assert s2.pending == s.pending;
  }

  lemma LateComesBack(s: State, retention: int, first: nat, retry: nat, steps: seq<Step>, cutoff: int)
    returns (e: Execution)
    requires Invariant(s, retention) && LeavesAlone(steps, retry)
    requires first != retry && first !in s.pending && retry !in s.pending
    requires 0 < s.clock - retention < 3_652_059 * DAY && retention >= 0
    requires var t := Exec(s, retention, steps);
             t.clock <= s.clock + REQUEST_DEADLINE && cutoff in t.executed && cutoff > s.clock - retention
    ensures ComesBack(s, retention, e, first, retry, steps) && e.endedAt.instant == s.clock - retention
  {
    var id := UnusedId(s, steps);
    e := OldestSpan(id, s.clock, retention);
    OldestSpanIsAdmitted(id, s.clock, retention);
    var stored := Delivered(s, retention, e, first, retry);
    DeliveredIsStored(s, retention, e, first, retry);
    DeliveredKeepsInvariant(s, retention, e, first, retry);
    TimeIgnoresSpans(s, stored, retention, steps);
    UnsentIsNotInserted(stored, retention, steps, id, retry);
    ExecutedInRun(stored, retention, steps, cutoff, e);
    RetryInsertsAgain(stored, retention, steps, retry);
  }

  /** The exact condition for resurrection.  After any run, deliver a span and validate a retry of it;
      then let any run follow, with any requests and any prunes, that leaves the retry alone.  There is
      a span that storing the retry inserts again if and only if the retry is stored within its deadline
      and some executed prune computed its cutoff after the retry's validation. */
  lemma ResurrectionExactlyAfterLatePrune(
      clock: int, retention: int, before: seq<Step>, first: nat, retry: nat, steps: seq<Step>)
    requires LeavesAlone(steps, retry) && first != retry
    requires var s := Exec(Initial(clock), retention, before);
             && first !in s.pending && retry !in s.pending
             && 0 < s.clock - retention < 3_652_059 * DAY && retention >= 0
    ensures var s := Exec(Initial(clock), retention, before);
            var t := Exec(s, retention, steps);
            Resurrects(s, retention, first, retry, steps)
            <==> t.clock <= s.clock + REQUEST_DEADLINE
                 && exists cutoff :: cutoff in t.executed && cutoff > s.clock - retention
  {
    var s := Exec(Initial(clock), retention, before);
    var t := Exec(s, retention, steps);
    ReachableIsInvariant(clock, retention, before);
    if e :| ComesBack(s, retention, e, first, retry, steps) {
      ComingBackIsLate(s, retention, e, first, retry, steps);
    }
    if cutoff :| cutoff in t.executed && cutoff > s.clock - retention {
      if t.clock <= s.clock + REQUEST_DEADLINE {
        var e := LateComesBack(s, retention, first, retry, steps, cutoff);
      }
    }
  }

  // ---- One prune between the two stores ----

  function OnePrune(cutoff: int, gap: nat, rest: nat): seq<Step> {
    [Advance(gap), ComputeCutoff, ExecutePrune(cutoff), Advance(rest)]
  }

  lemma AfterOnePrune(clock: int, retention: int, gap: nat, rest: nat)
    ensures var t := Exec(Initial(clock), retention, OnePrune(clock + gap - retention, gap, rest));
            t.clock == clock + gap + rest && t.executed == {clock + gap - retention}
  {
    var steps := OnePrune(clock + gap - retention, gap, rest);
    var s0 := Initial(clock);
    var s1 := Next(s0, retention, steps[0]);
    var s2 := Next(s1, retention, steps[1]);
    var s3 := Next(s2, retention, steps[2]);
    assert steps[0..] == steps && steps[4..] == [];
    ExecUnfolds(s0, retention, steps, 0);
    ExecUnfolds(s1, retention, steps, 1);
    ExecUnfolds(s2, retention, steps, 2);
    ExecUnfolds(s3, retention, steps, 3);
  }

  /** With one prune: a span can come back exactly when some time passes between validating and computing
      the cutoff, and the retry is still stored within the deadline. */
  lemma OnePruneResurrects(clock: int, retention: int, gap: nat, rest: nat)
    requires 0 < clock - retention < 3_652_059 * DAY && retention >= 0
    ensures Resurrects(Initial(clock), retention, 0, 1, OnePrune(clock + gap - retention, gap, rest))
            <==> gap > 0 && gap + rest <= 10_000_000_000
  {
    var steps := OnePrune(clock + gap - retention, gap, rest);
    AfterOnePrune(clock, retention, gap, rest);
    assert Exec(Initial(clock), retention, []) == Initial(clock);
    ResurrectionExactlyAfterLatePrune(clock, retention, [], 0, 1, steps);
    var t := Exec(Initial(clock), retention, steps);
    assert clock + gap - retention in t.executed;
  }

  // ---- Inserted twice ----

  /** Every row has its insertion. */
  ghost predicate RowsInserted(s: State) {
    forall id | id in s.table :: exists i :: 0 <= i < |s.insertions| && s.insertions[i].event == s.table[id].event
  }

  lemma StoreKeepsRowsInserted(s: State, request: nat)
    requires RowsInserted(s)
    ensures RowsInserted(StoreNow(s, request)) && s.insertions <= StoreNow(s, request).insertions
  {
    var t := StoreNow(s, request);
    forall id | id in t.table
      ensures exists i :: 0 <= i < |t.insertions| && t.insertions[i].event == t.table[id].event
    {
      if id in s.table {
        var i :| 0 <= i < |s.insertions| && s.insertions[i].event == s.table[id].event;
        assert t.insertions[i].event == t.table[id].event;
      } else {
        assert t.insertions[|s.insertions|].event == t.table[id].event;
      }
    }
  }

  lemma FewerRowsInserted(s: State, t: State)
    requires RowsInserted(s) && t.insertions == s.insertions
    requires forall id | id in t.table :: id in s.table && t.table[id] == s.table[id]
    ensures RowsInserted(t)
  {
    forall id | id in t.table
      ensures exists i :: 0 <= i < |t.insertions| && t.insertions[i].event == t.table[id].event
    {
      var i :| 0 <= i < |s.insertions| && s.insertions[i].event == s.table[id].event;
      assert t.insertions[i].event == t.table[id].event;
    }
  }

  lemma StepKeepsRowsInserted(s: State, retention: int, step: Step)
    requires RowsInserted(s)
    ensures RowsInserted(Next(s, retention, step)) && s.insertions <= Next(s, retention, step).insertions
  {
    if step.Store? { StoreKeepsRowsInserted(s, step.request); }
    else { FewerRowsInserted(s, Next(s, retention, step)); }
  }

  lemma {:induction false} RowsStayInserted(s: State, retention: int, steps: seq<Step>)
    requires RowsInserted(s)
    ensures RowsInserted(Exec(s, retention, steps)) && s.insertions <= Exec(s, retention, steps).insertions
    decreases steps
  {
    if steps != [] {
      StepKeepsRowsInserted(s, retention, steps[0]);
      RowsStayInserted(Next(s, retention, steps[0]), retention, steps[1..]);
    }
  }

  function WholeRun(e: Execution, first: nat, retry: nat, steps: seq<Step>): seq<Step> {
    [Receive(first, e), Store(first), Receive(retry, e)] + (steps + [Store(retry)])
  }

  lemma WholeRunEnds(s: State, retention: int, e: Execution, first: nat, retry: nat, steps: seq<Step>)
    ensures Exec(s, retention, WholeRun(e, first, retry, steps))
            == StoreNow(Exec(Delivered(s, retention, e, first, retry), retention, steps), retry)
  {
    var begin := [Receive(first, e), Store(first), Receive(retry, e)];
    var s1 := Admit(s, retention, first, e);
    var s2 := StoreNow(s1, first);
    assert begin[0..] == begin && begin[3..] == [];
    ExecUnfolds(s, retention, begin, 0);
    ExecUnfolds(s1, retention, begin, 1);
    ExecUnfolds(s2, retention, begin, 2);
    ExecSplits(s, retention, begin, steps + [Store(retry)]);
    var stored := Delivered(s, retention, e, first, retry);
    ExecSplits(stored, retention, steps, [Store(retry)]);
    var last := [Store(retry)];
    assert last[0..] == last && last[1..] == [];
    ExecUnfolds(Exec(stored, retention, steps), retention, last, 0);
  }

  lemma DeliveredRowsInserted(s: State, retention: int, e: Execution, first: nat, retry: nat)
    requires RowsInserted(s)
    ensures RowsInserted(Delivered(s, retention, e, first, retry))
  {
    var s1 := Admit(s, retention, first, e);
    FewerRowsInserted(s, s1);
    StoreKeepsRowsInserted(s1, first);
    FewerRowsInserted(StoreNow(s1, first), Delivered(s, retention, e, first, retry));
  }

  lemma ComingBackInsertsTwice(s: State, retention: int, e: Execution, first: nat, retry: nat, steps: seq<Step>)
    requires RowsInserted(s) && ComesBack(s, retention, e, first, retry, steps)
    ensures !NoSpanTwice(Exec(s, retention, WholeRun(e, first, retry, steps)).insertions)
  {
    WholeRunEnds(s, retention, e, first, retry, steps);
    DeliveredRowsInserted(s, retention, e, first, retry);
    var stored := Delivered(s, retention, e, first, retry);
    RowsStayInserted(stored, retention, steps);
    var t := Exec(stored, retention, steps);
    InsertedAgain(stored.insertions, t.insertions, stored.table[e.eventId].event,
                  Insertion(Normalize(e), s.clock, t.clock));
  }

  lemma InsertedAgain(begin: seq<Insertion>, all: seq<Insertion>, e: Execution, last: Insertion)
    requires begin <= all && last.event == e
    requires exists i :: 0 <= i < |begin| && begin[i].event == e
    ensures !NoSpanTwice(all + [last])
  {
    var i :| 0 <= i < |begin| && begin[i].event == e;
    assert (all + [last])[i].event == (all + [last])[|all|].event;
  }

  /** A row that comes back has expired: it is older than the cutoff of a prune already executed. */
  lemma ComingBackLeavesExpiredRow(s: State, retention: int, e: Execution, first: nat, retry: nat, steps: seq<Step>)
    requires Invariant(s, retention) && ComesBack(s, retention, e, first, retry, steps)
    ensures !NoRowExpired(Exec(s, retention, WholeRun(e, first, retry, steps)))
  {
    AboutToComeBack(s, retention, e, first, retry, steps);
    WholeRunEnds(s, retention, e, first, retry, steps);
    var final := Exec(s, retention, WholeRun(e, first, retry, steps));
    assert final.table[Normalize(e).eventId].event == Normalize(e);
    assert Expired(Normalize(e), final.executed);
  }

  lemma InitialIsEmpty(clock: int, retention: int)
    ensures Invariant(Initial(clock), retention) && RowsInserted(Initial(clock))
  {
    ReachableIsInvariant(clock, retention, []);
  }

  /** From the empty table: what comes back was inserted twice, and is expired. */
  lemma ComesBackShows(clock: int, retention: int, e: Execution, first: nat, retry: nat, steps: seq<Step>)
    requires ComesBack(Initial(clock), retention, e, first, retry, steps)
    ensures !NoSpanTwice(Exec(Initial(clock), retention, WholeRun(e, first, retry, steps)).insertions)
    ensures !NoRowExpired(Exec(Initial(clock), retention, WholeRun(e, first, retry, steps)))
  {
    InitialIsEmpty(clock, retention);
    ComingBackInsertsTwice(Initial(clock), retention, e, first, retry, steps);
    ComingBackLeavesExpiredRow(Initial(clock), retention, e, first, retry, steps);
  }

  /** As the code is, a pruned span can come back: from any starting time, and for any gap between the
      retry's validation and the prune's cutoff that the deadline allows (a second, or any number of the
      microseconds that the columns keep), there is a run that inserts the same span twice and leaves a row
      that an executed prune has expired. */
  lemma ResurrectionHappens(clock: int, retention: int, gap: nat) returns (steps: seq<Step>)
    requires 0 < clock - retention < 3_652_059 * DAY && retention >= 0
    requires 0 < gap <= REQUEST_DEADLINE
    ensures !NoSpanTwice(Exec(Initial(clock), retention, steps).insertions)
    ensures !NoRowExpired(Exec(Initial(clock), retention, steps))
  {
    var rest := OnePrune(clock + gap - retention, gap, 0);
    OnePruneResurrects(clock, retention, gap, 0);
    var e :| ComesBack(Initial(clock), retention, e, 0, 1, rest);
    steps := WholeRun(e, 0, 1, rest);
    ComesBackShows(clock, retention, e, 0, 1, rest);
  }
}
