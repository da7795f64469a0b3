/** The runner, the publisher, the ingestion service and the checker together. */
module EndToEnd {
  import opened Options
  import opened Spans
  import opened Ingest
  import opened IngestProtocol
  import opened Publisher
  import opened SpanProducer
  import Checker

  /** The network never turns a POST away for good, and the service's clock is within retention of the
      run's start and not behind its end by more than the tolerance. */
  ghost predicate OnTime(network: Network, from: int, to: int, retention: int) {
    forall k: nat, a: nat ::
      var transfer := network(k, a).transfer;
      && (transfer.TurnedAway? ==> transfer.code == UNAVAILABLE)
      && (transfer.Served? ==>
            transfer.validatedAt - retention <= from && to <= transfer.validatedAt + FUTURE_TOLERANCE)
  }

  /** The service has answered that the span is stored, and the answer arrives. */
  predicate Acknowledges(transfer: Transfer) {
    transfer.Served? && transfer.outcome.Answered? && transfer.replied
  }

  lemma RecordedSpansAreAdmissible(events: seq<Execution>, a: Arguments, trace: string, script: Script, uri: string,
                                   error: Option<ErrorName>, from: int, to: int, now: int, retention: int)
    requires Recorded(events, a, trace, script, uri, error, from, to)
    requires Nonblank(a) && !Blank(trace) && uri != ""
    requires 0 < from && to < 3_652_059 * DAY
    requires now - retention <= from && to <= now + FUTURE_TOLERANCE
    ensures forall e | e in events :: Admissible(e, now, retention)
  {
    EmittedSpansAreValid(events, a, trace, script, uri, error, from, to, now, retention);
    RecordedInstants(events, a, trace, script, uri, error, from, to);
  }

  lemma RecordedInstants(events: seq<Execution>, a: Arguments, trace: string, script: Script, uri: string,
                         error: Option<ErrorName>, from: int, to: int)
    requires Recorded(events, a, trace, script, uri, error, from, to)
    ensures forall e | e in events :: from <= e.startedAt.instant <= e.endedAt.instant <= to
  {
    forall i | 0 <= i < |events| ensures from <= events[i].startedAt.instant <= events[i].endedAt.instant <= to {
      assert i == |events| - 1 || i == 0 || i == 1;
    }
  }

  /** The attempt either stores the span for good or is retried. */
  predicate StoredOrRetried(transfer: Transfer, e: Execution, retention: int) {
    var reply := ReplyOf(transfer, e, retention);
    if Acknowledges(transfer) then reply == Status(NO_CONTENT) else Retried(reply)
  }

  lemma OnTimeReply(network: Network, k: nat, a: nat, e: Execution, from: int, to: int, retention: int)
    requires OnTime(network, from, to, retention)
    requires forall now | now - retention <= from && to <= now + FUTURE_TOLERANCE :: Admissible(e, now, retention)
    ensures StoredOrRetried(network(k, a).transfer, e, retention)
  {}

  /** The number of POSTs up to the first one that is acknowledged. */
  function FirstAcknowledged(network: Network, k: nat, n: nat): (first: nat)
    requires exists a: nat :: a < n && Acknowledges(network(k, a).transfer)
    ensures first < n && Acknowledges(network(k, first).transfer)
    ensures forall a: nat | a < first :: !Acknowledges(network(k, a).transfer)
  {
    if exists a: nat :: a < n - 1 && Acknowledges(network(k, a).transfer) then FirstAcknowledged(network, k, n - 1)
    else n - 1
  }

  lemma AcknowledgedIsPublished(network: Network, k: nat, e: Execution, retention: int)
    requires forall a: nat :: StoredOrRetried(network(k, a).transfer, e, retention)
    requires exists a: nat :: a < ATTEMPTS && Acknowledges(network(k, a).transfer)
    ensures Concludes(network, k, e, retention, Published)
  {
    var first := FirstAcknowledged(network, k, ATTEMPTS);
    var replies := Replies(network, k, e, retention, first + 1);
    assert StoredOrRetried(network(k, first).transfer, e, retention);
    forall i | 0 <= i < first ensures Retried(replies[i]) {
      assert StoredOrRetried(network(k, i).transfer, e, retention);
    }
    assert Explains(replies, Published);
  }

  lemma PublishedIsAcknowledged(network: Network, k: nat, e: Execution, retention: int)
    requires forall a: nat :: StoredOrRetried(network(k, a).transfer, e, retention)
    requires Concludes(network, k, e, retention, Published)
    ensures exists a: nat :: a < ATTEMPTS && Acknowledges(network(k, a).transfer)
  {
    var n: nat :| n <= ATTEMPTS && Explains(Replies(network, k, e, retention, n), Published);
    assert Replies(network, k, e, retention, n)[n - 1] == ReplyOf(network(k, n - 1).transfer, e, retention);
    assert StoredOrRetried(network(k, n - 1).transfer, e, retention);
  }

  /** A recorded span is published exactly when one of its five POSTs is acknowledged: 503 replies and
      transport errors before it, on either side of the commit, make no difference, and the service
      never turns the span down. */
  lemma RecordedSpansArePublished(events: seq<Execution>, a: Arguments, trace: string, script: Script, uri: string,
                                  error: Option<ErrorName>, from: int, to: int, network: Network,
                                  k: nat, retention: int)
    requires Recorded(events, a, trace, script, uri, error, from, to)
    requires Nonblank(a) && !Blank(trace) && uri != ""
    requires 0 < from && to < 3_652_059 * DAY
    requires OnTime(network, from, to, retention) && k < |events|
    ensures Concludes(network, k, events[k], retention, Published)
            <==> exists a: nat :: a < ATTEMPTS && Acknowledges(network(k, a).transfer)
  {
    forall now | now - retention <= from && to <= now + FUTURE_TOLERANCE ensures Admissible(events[k], now, retention) {
      RecordedSpansAreAdmissible(events, a, trace, script, uri, error, from, to, now, retention);
    }
    forall a: nat ensures StoredOrRetried(network(k, a).transfer, events[k], retention) {
      OnTimeReply(network, k, a, events[k], from, to, retention);
    }
    if Concludes(network, k, events[k], retention, Published) {
      PublishedIsAcknowledged(network, k, events[k], retention);
    } else if exists a: nat :: a < ATTEMPTS && Acknowledges(network(k, a).transfer) {
      AcknowledgedIsPublished(network, k, events[k], retention);
    }
  }

  lemma UnexpiredSince(events: seq<Execution>, cutoffs: set<int>, from: int)
    requires forall e | e in events :: from <= e.startedAt.instant <= e.endedAt.instant
    requires forall cutoff | cutoff in cutoffs :: cutoff <= from
    ensures NoneExpired(events, cutoffs)
  {
    forall i | 0 <= i < |events| ensures !Expired(Normalize(events[i]), cutoffs) {
      assert events[i] in events;
    }
  }

  /** From run to verdict: once the spans of a run are published, and while nothing since the run's
      start has been pruned, the trace's rows in any order pass the check, with one row for each span. */
  lemma RecordedTraceVerifies(events: seq<Execution>, a: Arguments, trace: string, script: Script, uri: string,
                              error: Option<ErrorName>, from: int, to: int, t: Table, cutoffs: set<int>,
                              scan: seq<Execution>)
    requires Recorded(events, a, trace, script, uri, error, from, to)
    requires OnlyOurs(t, events, trace) && AllSettled(t, cutoffs, events)
    requires forall cutoff | cutoff in cutoffs :: cutoff <= from
    requires multiset(scan) == multiset(TraceRows(t, trace))
    ensures |scan| == |events| && Checker.Passes(Checker.CubeRows(scan), events)
  {
    IdsAndParents(events, a, trace, script, uri, error, from, to);
    RecordedInstants(events, a, trace, script, uri, error, from, to);
    UnexpiredSince(events, cutoffs, from);
    PublishedTracePasses(t, cutoffs, events, trace, scan);
  }

  // ---- The whole program ----

  /** What happens around each POST, and what else reaches the service before each query. */
  datatype World = World(network: Network, waiting: nat -> seq<Interference>)

  /** The world may react to the spans. */
  type Surroundings = seq<Execution> -> World

  ghost predicate FairWorld(world: World, events: seq<Execution>, trace: string) {
    AllFair(world.network, events, trace) && forall i: nat :: AllHarmless(world.waiting(i), events, trace)
  }

  /** How Cube replies to a query: an error, "Continue wait", a rejection, or the rows of the trace. */
  datatype CubeReply = Fails | Waits | Rejects | GivesRows

  /** The order in which Cube lists a set of rows. */
  ghost predicate Lists(order: set<Execution> -> seq<Execution>) {
    forall rows :: multiset(order(rows)) == multiset(rows)
  }

  function AnswerOf(reply: CubeReply, rows: seq<Execution>): Checker.Answer
    requires !reply.Waits?
  {
    match reply
    case Fails => Checker.HttpError
    case Rejects => Checker.Rejected
    case GivesRows => Checker.Data(Checker.CubeRows(rows))
  }

  ghost function ListingOf(rows: set<Execution>): (listing: seq<Execution>)
    ensures multiset(listing) == multiset(rows)
    decreases rows
  {
    if rows == {} then []
    else
      var e :| e in rows;
      [e] + ListingOf(rows - {e})
  }

  /** How often Cube first replies "Continue wait". */
  function Waiting(replies: seq<CubeReply>): (n: nat)
    ensures n <= |replies| && (n < |replies| ==> !replies[n].Waits?)
    ensures forall i | 0 <= i < n :: replies[i].Waits?
  {
    if replies == [] || !replies[0].Waits? then 0 else 1 + Waiting(replies[1..])
  }

  /** Cube's first reply other than "Continue wait" is the rows. */
  ghost predicate GivesRowsFirst(replies: seq<CubeReply>) {
    exists i :: 0 <= i < |replies| && replies[i].GivesRows? && forall j | 0 <= j < i :: replies[j].Waits?
  }

  /** The verdict that Cube's first definite reply leads to, when it is not the rows. */
  predicate FollowsReplies(verdict: Checker.Verdict, replies: seq<CubeReply>) {
    var n := Waiting(replies);
    && (verdict.NeverFinished? <==> n == |replies|)
    && (verdict.HttpFailure? <==> n < |replies| && replies[n].Fails?)
    && (verdict.QueryRejected? <==> n < |replies| && replies[n].Rejects?)
  }

  lemma FirstReplyDecides(replies: seq<CubeReply>)
    ensures GivesRowsFirst(replies) <==> Waiting(replies) < |replies| && replies[Waiting(replies)].GivesRows?
  {
    var n := Waiting(replies);
    if i :| 0 <= i < |replies| && replies[i].GivesRows? && forall j | 0 <= j < i :: replies[j].Waits? {
      assert n == i;
    }
  }

  /** What Cube answers when others use the service between the queries: the answer that decides shows the
      table as it is then. */
  method Answers(api: ExecutionApi, ghost events: seq<Execution>, trace: string, waiting: nat -> seq<Interference>,
                 replies: seq<CubeReply>, order: set<Execution> -> seq<Execution>)
    returns (answers: seq<Checker.Answer>)
    requires OnlyOurs(api.table, events, trace)
    requires forall i: nat :: AllHarmless(waiting(i), events, trace)
    modifies api
    ensures OnlyOurs(api.table, events, trace)
    ensures KeepsSettled(old(api.table), old(api.cutoffs), api.table, api.cutoffs)
    ensures |answers| == |replies|
    ensures forall i | 0 <= i < |replies| && i != Waiting(replies) :: answers[i].ContinueWait?
    ensures Waiting(replies) < |replies| ==>
              answers[Waiting(replies)] == AnswerOf(replies[Waiting(replies)], order(TraceRows(api.table, trace)))
  {
    answers := seq(|replies|, _ => Checker.ContinueWait);
    for i := 0 to |replies|
      invariant OnlyOurs(api.table, events, trace)
      invariant KeepsSettled(old(api.table), old(api.cutoffs), api.table, api.cutoffs)
      invariant |answers| == |replies| && forall j | 0 <= j < |replies| :: answers[j].ContinueWait?
      invariant i <= Waiting(replies)
    {
      Interfere(api, waiting(i), events, trace);
      if !replies[i].Waits? {
        answers := answers[i := AnswerOf(replies[i], order(TraceRows(api.table, trace)))];
        return;
      }
    }
  }

  /** Nothing stored is of the trace, or has an id that its spans may get. */
  ghost predicate FreshTrace(t: Table, trace: string) {
    && Keyed(t)
    && forall id | id in t :: t[id].event.traceId != trace && forall kind :: id != trace + "-" + kind
  }

  lemma FreshTraceIsOurs(t: Table, events: seq<Execution>, a: Arguments, trace: string, script: Script, uri: string,
                         error: Option<ErrorName>, from: int, to: int)
    requires FreshTrace(t, trace) && Recorded(events, a, trace, script, uri, error, from, to)
    ensures OnlyOurs(t, events, trace)
  {
    RecordedIds(events, a, trace, script, uri, error, from, to);
    forall id | id in t ensures NotInTheWay(t[id].event, events, trace) {
      forall i | 0 <= i < |events| ensures events[i].eventId != t[id].event.eventId {
        assert events[i].eventId == trace + "-" + events[i].kind;
      }
    }
  }

  lemma RecordedIds(events: seq<Execution>, a: Arguments, trace: string, script: Script, uri: string,
                    error: Option<ErrorName>, from: int, to: int)
    requires Recorded(events, a, trace, script, uri, error, from, to)
    ensures forall i | 0 <= i < |events| :: events[i].eventId == trace + "-" + events[i].kind
  {
    forall i | 0 <= i < |events| ensures events[i].eventId == trace + "-" + events[i].kind {
      assert i == |events| - 1 || i == 0 || i == 1;
    }
  }

  /** Some POST of every span is acknowledged. */
  ghost predicate AllAcknowledged(network: Network, spans: nat) {
    forall k: nat | k < spans :: SomeAcknowledges(network, k)
  }

  ghost predicate SomeAcknowledges(network: Network, k: nat) {
    exists a: nat :: a < ATTEMPTS && Acknowledges(network(k, a).transfer)
  }

  lemma PublishedWhenAcknowledged(events: seq<Execution>, a: Arguments, trace: string, script: Script, uri: string,
                                  error: Option<ErrorName>, from: int, to: int, network: Network, retention: int)
    requires Recorded(events, a, trace, script, uri, error, from, to)
    requires Nonblank(a) && !Blank(trace) && uri != ""
    requires 0 < from && to < 3_652_059 * DAY
    requires OnTime(network, from, to, retention)
    ensures PublishedBefore(network, events, retention, |events|) <==> AllAcknowledged(network, |events|)
  {
    forall k: nat | k < |events|
      ensures Concludes(network, k, events[k], retention, Published) <==> SomeAcknowledges(network, k)
    {
      RecordedSpansArePublished(events, a, trace, script, uri, error, from, to, network, k, retention);
    }
  }

  lemma VerdictIsCubes(events: seq<Execution>, replies: seq<CubeReply>, rows: seq<Execution>,
                       answers: seq<Checker.Answer>, verdict: Checker.Verdict, asked: nat)
    requires |answers| == |replies| && asked <= |answers|
    requires forall i | 0 <= i < |replies| && i != Waiting(replies) :: answers[i].ContinueWait?
    requires Waiting(replies) < |replies| ==> answers[Waiting(replies)] == AnswerOf(replies[Waiting(replies)], rows)
    requires forall i | 0 <= i < asked - 1 :: answers[i].ContinueWait?
    requires verdict.NeverFinished? <==> forall answer | answer in answers :: answer.ContinueWait?
    requires !verdict.NeverFinished? ==> asked > 0 && !answers[asked - 1].ContinueWait?
    requires verdict.Verified? <==>
               asked > 0 && answers[asked - 1].Data? && Checker.Passes(answers[asked - 1].rows, events)
    requires verdict.HttpFailure? <==> asked > 0 && answers[asked - 1].HttpError?
    requires verdict.QueryRejected? <==> asked > 0 && answers[asked - 1].Rejected?
    ensures FollowsReplies(verdict, replies)
    ensures verdict.Verified? <==> GivesRowsFirst(replies) && Checker.Passes(Checker.CubeRows(rows), events)
  {
    var n := Waiting(replies);
    FirstReplyDecides(replies);
    if n < |replies| {
      assert answers[n] in answers;
      assert !answers[n].ContinueWait?;
    }
  }

  /** Publishes the spans and checks that Cube returns them.  Whoever else uses the service and whatever is
      pruned, before and between the queries: once published they are verified exactly when Cube's first
      definite reply is the rows of the trace and every span is still stored by then. */
  method PublishAndVerify(client: Client, events: seq<Execution>, trace: string, world: World,
                          replies: seq<CubeReply>, order: set<Execution> -> seq<Execution>)
    returns (outcome: Outcome, verdict: Option<Checker.Verdict>)
    requires client.posts == [] && Checker.DistinctIds(events)
    requires forall i | 0 <= i < |events| :: events[i].traceId == trace
    requires OnlyOurs(client.api.table, events, trace) && FairWorld(world, events, trace)
    requires |replies| == Checker.QUERY_LIMIT && Lists(order)
    modifies client`posts, client.api
    ensures BoundedPosts(client.posts, events) && outcome != HttpError(CONFLICT)
    ensures outcome.Published? <==> PublishedBefore(world.network, events, client.api.retention, |events|)
    ensures verdict.Some? <==> outcome.Published?
    ensures outcome.Published? ==> AllSettled(client.api.table, client.api.cutoffs, events)
    ensures outcome.Published? ==>
              (verdict.value.Verified? <==> GivesRowsFirst(replies) && AllStored(client.api.table, events))
    ensures outcome.Published? ==> FollowsReplies(verdict.value, replies)
  {
    var api := client.api;
    outcome := client.Publish(events, trace, world.network);
    if !outcome.Published? { return outcome, None; }
    ghost var t, cutoffs := api.table, api.cutoffs;
    var answers := Answers(api, events, trace, world.waiting, replies, order);
    var result, asked := Checker.QueryAndCheck(events, answers);
    verdict := Some(result);
    ghost var rows := order(TraceRows(api.table, trace));
    VerdictIsCubes(events, replies, rows, answers, result, asked);
    TracePassesExactlyWhenStored(api.table, events, trace, rows);
    StillSettled(t, cutoffs, api.table, api.cutoffs, events);
  }

  /** Runs the tool, publishes what happened and checks that Cube returns it.  Whatever the run raises,
      whoever else uses the service and whatever is lost, repeated or pruned, before and between the
      queries: the spans of the run are recorded; while the service's clock is near the run's they are
      published exactly when each is acknowledged within five POSTs; and once published they are verified
      exactly when Cube's first definite reply is its rows and every span is still stored by then.  So they
      are when, besides, no prune cutoff has passed the run's start. */
  method RunPublishVerify(recorder: Recorder, client: Client, script: Script, uri: string,
                          surroundings: Surroundings, replies: seq<CubeReply>,
                          order: set<Execution> -> seq<Execution>)
    returns (error: Option<ErrorName>, outcome: Outcome, verdict: Option<Checker.Verdict>, ghost times: seq<int>)
    requires recorder.events == [] && client.posts == []
    requires Nonblank(recorder.arguments) && !Blank(recorder.trace) && uri != "" && recorder.clock.time > 0
    requires FreshTrace(client.api.table, recorder.trace)
    requires forall events :: FairWorld(surroundings(events), events, recorder.trace)
    requires |replies| == Checker.QUERY_LIMIT && Lists(order)
    modifies recorder`events, recorder.clock, client`posts, client.api
    ensures Recorded(recorder.events, recorder.arguments, recorder.trace, script, uri, error,
                     old(recorder.clock.time), recorder.clock.time)
    ensures Timed(recorder.events, script, times)
    ensures recorder.clock.log == old(recorder.clock.log) + RunLog(script, times)
    ensures BoundedPosts(client.posts, recorder.events) && outcome != HttpError(CONFLICT)
    ensures var world, from, to := surroundings(recorder.events), old(recorder.clock.time), recorder.clock.time;
            OnTime(world.network, from, to, client.api.retention) && to < 3_652_059 * DAY ==>
              (outcome.Published? <==> AllAcknowledged(world.network, |recorder.events|))
    ensures verdict.Some? <==> outcome.Published?
    ensures outcome.Published? ==>
              (verdict.value.Verified? <==> GivesRowsFirst(replies) && AllStored(client.api.table, recorder.events))
    ensures outcome.Published? ==> FollowsReplies(verdict.value, replies)
    ensures outcome.Published?
            && (forall cutoff | cutoff in client.api.cutoffs :: cutoff <= old(recorder.clock.time)) ==>
              (verdict.value.Verified? <==> GivesRowsFirst(replies))
  {
    ghost var from := recorder.clock.time;
    error, times := recorder.Execute(script, uri);
    var events, trace := recorder.events, recorder.trace;
    ghost var a, to := recorder.arguments, recorder.clock.time;
    IdsAndParents(events, a, trace, script, uri, error, from, to);
    FreshTraceIsOurs(client.api.table, events, a, trace, script, uri, error, from, to);
    var world := surroundings(events);
    outcome, verdict := PublishAndVerify(client, events, trace, world, replies, order);
    if OnTime(world.network, from, to, client.api.retention) && to < 3_652_059 * DAY {
      PublishedWhenAcknowledged(events, a, trace, script, uri, error, from, to, world.network, client.api.retention);
    }
    if outcome.Published? && forall cutoff | cutoff in client.api.cutoffs :: cutoff <= from {
      RecordedStayStored(events, a, trace, script, uri, error, from, to, client.api.table, client.api.cutoffs);
    }
  }

  lemma StillSettled(t: Table, cutoffs: set<int>, later: Table, laterCutoffs: set<int>, events: seq<Execution>)
    requires AllSettled(t, cutoffs, events) && KeepsSettled(t, cutoffs, later, laterCutoffs)
    ensures AllSettled(later, laterCutoffs, events)
  {
    forall i | 0 <= i < |events| ensures Settled(later, laterCutoffs, events[i]) {
      assert Settled(t, cutoffs, events[i]);
    }
  }

  lemma RecordedStayStored(events: seq<Execution>, a: Arguments, trace: string, script: Script, uri: string,
                           error: Option<ErrorName>, from: int, to: int, t: Table, cutoffs: set<int>)
    requires Recorded(events, a, trace, script, uri, error, from, to) && AllSettled(t, cutoffs, events)
    requires forall cutoff | cutoff in cutoffs :: cutoff <= from
    ensures AllStored(t, events)
  {
    RecordedInstants(events, a, trace, script, uri, error, from, to);
    UnexpiredSince(events, cutoffs, from);
    UnexpiredAreStored(t, cutoffs, events);
  }

  /** What RunPublishVerify assumes of its surroundings can be met: nobody interferes, every POST is
      acknowledged, and Cube lists rows in some order. */
  lemma QuietSurroundings(trace: string, now: int, from: int, to: int, retention: int)
    returns (surroundings: Surroundings, order: set<Execution> -> seq<Execution>)
    requires now - retention <= from && to <= now + FUTURE_TOLERANCE
    ensures forall events :: FairWorld(surroundings(events), events, trace)
    ensures forall events :: OnTime(surroundings(events).network, from, to, retention)
                             && AllAcknowledged(surroundings(events).network, |events|)
    ensures Lists(order)
  {
    var network: Network := (k: nat, a: nat) => Attempt([], Served(now, now, Answered, true), []);
    var waiting: nat -> seq<Interference> := (i: nat) => [];
    surroundings := (events: seq<Execution>) => World(network, waiting);
    order := (rows: set<Execution>) => ListingOf(rows);
    forall k: nat ensures SomeAcknowledges(network, k) {
      assert Acknowledges(network(k, 0).transfer);
    }
  }
}
