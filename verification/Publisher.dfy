/** The publisher of a trace: bounded retries against an ingestion service that others use too. */
module Publisher {
  import opened Options
  import opened Spans
  import opened Ingest
  import opened IngestProtocol
  import Checker

  const ATTEMPTS := 5

  /** What else reaches the service: requests of other clients, late copies of the publisher's own
      requests, and ticks of the retention loop. */
  datatype Interference =
    | Request(body: Option<Execution>, validatedAt: int, storedAt: int, outcome: StorageOutcome)
    | Tick(now: int, failed: bool)

  /** What becomes of one POST.  It never arrives; it is turned away before the service decodes it; or
      it is served, and the reply arrives or is lost. */
  datatype Transfer =
    | Lost
    | TurnedAway(code: int)
    | Served(validatedAt: int, storedAt: int, outcome: StorageOutcome, replied: bool)

  datatype Attempt = Attempt(before: seq<Interference>, transfer: Transfer, after: seq<Interference>)

  /** What happens around each attempt at each event. */
  type Network = (nat, nat) -> Attempt

  datatype Reply = TransportError | Status(code: int)

  datatype Outcome = Published | HttpError(code: int) | NotDurable(code: int) | TransportFailed | StillUnavailable

  // ---- What the publisher relies on ----

  ghost predicate UsesId(id: string, events: seq<Execution>) {
    exists i :: 0 <= i < |events| && events[i].eventId == id
  }

  ghost predicate IsNormalized(e: Execution, events: seq<Execution>) {
    exists i :: 0 <= i < |events| && Normalize(events[i]) == e
  }

  /** A payload under one of our event ids, or in our trace, is ours. */
  ghost predicate NotInTheWay(e: Execution, events: seq<Execution>, trace: string) {
    e.traceId == trace || UsesId(e.eventId, events) ==> IsNormalized(e, events)
  }

  ghost predicate Harmless(i: Interference, events: seq<Execution>, trace: string) {
    i.Request? && i.body.Some? ==> NotInTheWay(Normalize(i.body.value), events, trace)
  }

  ghost predicate AllHarmless(others: seq<Interference>, events: seq<Execution>, trace: string) {
    forall i | 0 <= i < |others| :: Harmless(others[i], events, trace)
  }

  /** Whoever sits before the service turns requests away with other codes than the service's two
      definite answers. */
  ghost predicate Fair(a: Attempt, events: seq<Execution>, trace: string) {
    && AllHarmless(a.before, events, trace) && AllHarmless(a.after, events, trace)
    && (a.transfer.TurnedAway? ==> a.transfer.code != NO_CONTENT && a.transfer.code != CONFLICT)
  }

  ghost predicate AllFair(network: Network, events: seq<Execution>, trace: string) {
    forall k: nat, a: nat :: Fair(network(k, a), events, trace)
  }

  ghost predicate OnlyOurs(t: Table, events: seq<Execution>, trace: string) {
    Keyed(t) && forall id | id in t :: NotInTheWay(t[id].event, events, trace)
  }

  /** The span's row is there. */
  predicate StoredAs(t: Table, e: Execution) {
    e.eventId in t && t[e.eventId].event == Normalize(e)
  }

  /** The span is stored, or older than the cutoff of an executed prune. */
  ghost predicate Settled(t: Table, cutoffs: set<int>, e: Execution) {
    StoredAs(t, e) || Expired(Normalize(e), cutoffs)
  }

  ghost predicate AllSettled(t: Table, cutoffs: set<int>, events: seq<Execution>) {
    forall i | 0 <= i < |events| :: Settled(t, cutoffs, events[i])
  }

  // ---- What every request and every tick keeps ----

  ghost predicate KeepsSettled(t: Table, cutoffs: set<int>, later: Table, laterCutoffs: set<int>) {
    forall e | Settled(t, cutoffs, e) :: Settled(later, laterCutoffs, e)
  }

  lemma UpsertKeeps(t: Table, cutoffs: set<int>, e: Execution, at: int, events: seq<Execution>, trace: string)
    requires OnlyOurs(t, events, trace) && NotInTheWay(e, events, trace)
    ensures OnlyOurs(Upsert(t, e, at), events, trace)
    ensures KeepsSettled(t, cutoffs, Upsert(t, e, at), cutoffs)
  {}

  lemma PruneKeeps(t: Table, cutoffs: set<int>, cutoff: int, events: seq<Execution>, trace: string)
    requires OnlyOurs(t, events, trace)
    ensures OnlyOurs(Prune(t, cutoff), events, trace)
    ensures KeepsSettled(t, cutoffs, Prune(t, cutoff), cutoffs + {cutoff})
  {
    forall x | Settled(t, cutoffs, x) ensures Settled(Prune(t, cutoff), cutoffs + {cutoff}, x) {
      if Expired(Normalize(x), cutoffs) {
        var c :| c in cutoffs && Normalize(x).endedAt.instant < c;
        assert c in cutoffs + {cutoff};
      } else if x.eventId !in Prune(t, cutoff) {
        assert cutoff in cutoffs + {cutoff} && Normalize(x).endedAt.instant < cutoff;
      }
    }
  }

  method Interfere(api: ExecutionApi, others: seq<Interference>, ghost events: seq<Execution>, ghost trace: string)
    requires OnlyOurs(api.table, events, trace) && AllHarmless(others, events, trace)
    modifies api
    ensures OnlyOurs(api.table, events, trace)
    ensures KeepsSettled(old(api.table), old(api.cutoffs), api.table, api.cutoffs)
  {
    for i := 0 to |others|
      invariant OnlyOurs(api.table, events, trace)
      invariant KeepsSettled(old(api.table), old(api.cutoffs), api.table, api.cutoffs)
    {
      ghost var t, cutoffs := api.table, api.cutoffs;
      assert Harmless(others[i], events, trace);
      match others[i] {
        case Request(body, validatedAt, storedAt, outcome) =>
          var code := api.ServeHttp(body, validatedAt, storedAt, outcome);
          if code != BAD_REQUEST { UpsertKeeps(t, cutoffs, Normalize(body.value), storedAt, events, trace); }
        case Tick(now, failed) =>
          api.PruneExpired(now, failed);
          PruneKeeps(t, cutoffs, now - api.retention, events, trace);
      }
    }
  }

  // ---- One attempt ----

  /** What the client sees of a POST of e, when no other payload is in the way: never 409. */
  function ReplyOf(transfer: Transfer, e: Execution, retention: int): Reply {
    match transfer
    case Lost => TransportError
    case TurnedAway(code) => Status(code)
    case Served(validatedAt, _, outcome, replied) =>
      if !replied then TransportError
      else if !Admissible(e, validatedAt, retention) then Status(BAD_REQUEST)
      else if !outcome.Answered? then Status(UNAVAILABLE)
      else Status(NO_CONTENT)
  }

  lemma OwnPayloadIsNotInTheWay(events: seq<Execution>, k: nat, trace: string)
    requires k < |events|
    ensures NotInTheWay(Normalize(events[k]), events, trace)
  {}

  lemma OwnIdHoldsOwnPayload(t: Table, events: seq<Execution>, k: nat, trace: string)
    requires OnlyOurs(t, events, trace) && Checker.DistinctIds(events) && k < |events|
    requires events[k].eventId in t
    ensures t[events[k].eventId].event == Normalize(events[k])
  {
    var e := t[events[k].eventId].event;
    assert UsesId(e.eventId, events);
    var i :| 0 <= i < |events| && Normalize(events[i]) == e;
    assert events[i].eventId == events[k].eventId;
  }

  // ---- The retry loop ----

  /** A transport error and 503 leave open whether the span was stored, and are retried. */
  predicate Retried(reply: Reply) {
    reply.TransportError? || reply.code == 503
  }

  function Replies(network: Network, k: nat, e: Execution, retention: int, n: nat): (replies: seq<Reply>)
    ensures |replies| == n
    ensures forall a | 0 <= a < n :: replies[a] == ReplyOf(network(k, a).transfer, e, retention)
  {
    seq(n, a requires 0 <= a < n => ReplyOf(network(k, a).transfer, e, retention))
  }

  /** The replies to the POSTs of one span, and what the publisher makes of them: all but the last are
      retried, and the last one is conclusive or the fifth. */
  predicate Explains(replies: seq<Reply>, outcome: Outcome) {
    && 1 <= |replies| <= 5
    && (forall i | 0 <= i < |replies| - 1 :: Retried(replies[i]))
    && var last := replies[|replies| - 1];
       match outcome
       case Published => last == Status(204)
       case HttpError(code) => last == Status(code) && code != 503 && !(200 <= code < 300)
       case NotDurable(code) => last == Status(code) && 200 <= code < 300 && code != 204
       case TransportFailed => |replies| == 5 && last == TransportError
       case StillUnavailable => |replies| == 5 && last == Status(503)
  }

  ghost predicate Concludes(network: Network, k: nat, e: Execution, retention: int, outcome: Outcome) {
    exists n: nat :: n <= ATTEMPTS && Explains(Replies(network, k, e, retention, n), outcome)
  }

  lemma LastReplies(network: Network, k: nat, e: Execution, retention: int, n: nat, outcome: Outcome)
    requires Explains(Replies(network, k, e, retention, n), outcome)
    ensures 1 <= n <= ATTEMPTS
    ensures n < ATTEMPTS ==> !Retried(ReplyOf(network(k, n - 1).transfer, e, retention))
    ensures forall i: nat | i < n - 1 :: Retried(ReplyOf(network(k, i).transfer, e, retention))
  {
    var replies := Replies(network, k, e, retention, n);
    forall i: nat | i < n - 1 ensures Retried(ReplyOf(network(k, i).transfer, e, retention)) {
      assert Retried(replies[i]);
    }
  }

  lemma OneConclusion(network: Network, k: nat, e: Execution, retention: int, a: Outcome, b: Outcome)
    requires Concludes(network, k, e, retention, a) && Concludes(network, k, e, retention, b)
    ensures a == b
  {
    var m: nat :| m <= ATTEMPTS && Explains(Replies(network, k, e, retention, m), a);
    var n: nat :| n <= ATTEMPTS && Explains(Replies(network, k, e, retention, n), b);
    LastReplies(network, k, e, retention, m, a);
    LastReplies(network, k, e, retention, n, b);
    assert m == n;
    OneOutcome(Replies(network, k, e, retention, n), a, b);
  }

  lemma OneOutcome(replies: seq<Reply>, a: Outcome, b: Outcome)
    requires Explains(replies, a) && Explains(replies, b)
    ensures a == b
  {}

  /** Each of the first k spans is acknowledged in time. */
  ghost predicate PublishedBefore(network: Network, events: seq<Execution>, retention: int, k: nat) {
    k <= |events| && forall j | 0 <= j < k :: Concludes(network, j, events[j], retention, Published)
  }

  /** Span k is the first that is not, and this is what becomes of it. */
  ghost predicate FailsAt(network: Network, events: seq<Execution>, retention: int, k: nat, outcome: Outcome) {
    && k < |events| && PublishedBefore(network, events, retention, k)
    && !outcome.Published? && Concludes(network, k, events[k], retention, outcome)
  }

  lemma FailureIsFinal(network: Network, events: seq<Execution>, retention: int, k: nat, outcome: Outcome)
    requires FailsAt(network, events, retention, k, outcome)
    ensures !PublishedBefore(network, events, retention, |events|)
  {
    if Concludes(network, k, events[k], retention, Published) {
      OneConclusion(network, k, events[k], retention, outcome, Published);
    }
  }

  lemma PublishedOrFailed(network: Network, events: seq<Execution>, retention: int, k: nat,
                          posted: nat, outcome: Outcome)
    requires k < |events| && PublishedBefore(network, events, retention, k)
    requires posted <= ATTEMPTS && Explains(Replies(network, k, events[k], retention, posted), outcome)
    ensures outcome.Published? ==> PublishedBefore(network, events, retention, k + 1)
    ensures !outcome.Published? ==> FailsAt(network, events, retention, k, outcome)
  {
    assert Concludes(network, k, events[k], retention, outcome);
  }

  lemma OneMoreSettled(t: Table, cutoffs: set<int>, later: Table, laterCutoffs: set<int>,
                       events: seq<Execution>, k: nat)
    requires k < |events| && AllSettled(t, cutoffs, events[..k]) && KeepsSettled(t, cutoffs, later, laterCutoffs)
    requires Settled(later, laterCutoffs, events[k])
    ensures AllSettled(later, laterCutoffs, events[..k + 1])
  {
    var done := events[..k + 1];
    forall i | 0 <= i < |done| ensures Settled(later, laterCutoffs, done[i]) {
      if i < k { assert Settled(t, cutoffs, events[..k][i]); }
    }
  }

  /** Nothing but the spans is POSTed, and none more than five times. */
  ghost predicate BoundedPosts(posts: seq<Execution>, events: seq<Execution>) {
    forall e | e in posts :: e in events && multiset(posts)[e] <= ATTEMPTS
  }

  lemma MorePosts(posts: seq<Execution>, events: seq<Execution>, k: nat)
    requires k <= |events| && BoundedPosts(posts, events[..k])
    ensures BoundedPosts(posts, events)
  {}

  function Copies(e: Execution, n: nat): (copies: seq<Execution>)
    ensures |copies| == n && forall i | 0 <= i < n :: copies[i] == e
  {
    seq(n, _ => e)
  }

  lemma {:induction false} CopiesCount(e: Execution, n: nat, x: Execution)
    ensures multiset(Copies(e, n))[x] == if x == e then n else 0
  {
    if n > 0 {
      CopiesCount(e, n - 1, x);
      assert Copies(e, n) == Copies(e, n - 1) + [e];
    }
  }

  lemma PostedSoFar(events: seq<Execution>, k: nat, posts: seq<Execution>, n: nat)
    requires k < |events| && Checker.DistinctIds(events) && n <= ATTEMPTS
    requires BoundedPosts(posts, events[..k])
    ensures BoundedPosts(posts + Copies(events[k], n), events[..k + 1])
  {
    assert events[..k + 1] == events[..k] + [events[k]];
    assert events[k] !in events[..k];
    var all := posts + Copies(events[k], n);
    forall e | e in all ensures e in events[..k + 1] && multiset(all)[e] <= ATTEMPTS {
      CopiesCount(events[k], n, e);
      assert e !in posts ==> multiset(posts)[e] == 0;
    }
  }

  // ---- The client ----

  /** The publisher's HTTP client, with the POSTs it has sent. */
  class Client {
    const api: ExecutionApi
    var posts: seq<Execution>

    constructor (api: ExecutionApi)
      ensures this.api == api && posts == []
    {
      this.api := api;
      posts := [];
    }

    method Post(ghost events: seq<Execution>, ghost k: nat, e: Execution, ghost trace: string, attempt: Attempt)
      returns (reply: Reply)
      requires k < |events| && e == events[k] && Checker.DistinctIds(events)
      requires OnlyOurs(api.table, events, trace) && Fair(attempt, events, trace)
      modifies this`posts, api
      ensures OnlyOurs(api.table, events, trace)
      ensures KeepsSettled(old(api.table), old(api.cutoffs), api.table, api.cutoffs)
      ensures posts == old(posts) + [e]
      ensures reply == ReplyOf(attempt.transfer, e, api.retention) && reply != Status(CONFLICT)
      ensures reply == Status(NO_CONTENT) ==> Settled(api.table, api.cutoffs, e)
    {
      Interfere(api, attempt.before, events, trace);
      posts := posts + [e];
      match attempt.transfer {
        case Lost => reply := TransportError;
        case TurnedAway(code) => reply := Status(code);
        case Served(validatedAt, storedAt, outcome, replied) =>
          ghost var t := api.table;
          OwnPayloadIsNotInTheWay(events, k, trace);
          UpsertKeeps(t, api.cutoffs, Normalize(e), storedAt, events, trace);
          var code := api.ServeHttp(Some(e), validatedAt, storedAt, outcome);
          if e.eventId in api.table { OwnIdHoldsOwnPayload(api.table, events, k, trace); }
          reply := if replied then Status(code) else TransportError;
      }
      Interfere(api, attempt.after, events, trace);
    }

    /** The attempts at one span. */
    method PublishOne(ghost events: seq<Execution>, k: nat, e: Execution, ghost trace: string, network: Network)
      returns (outcome: Outcome, ghost posted: nat)
      requires k < |events| && e == events[k] && Checker.DistinctIds(events)
      requires OnlyOurs(api.table, events, trace) && AllFair(network, events, trace)
      modifies this`posts, api
      ensures OnlyOurs(api.table, events, trace)
      ensures KeepsSettled(old(api.table), old(api.cutoffs), api.table, api.cutoffs)
      ensures posted <= ATTEMPTS && posts == old(posts) + Copies(e, posted)
      ensures Explains(Replies(network, k, e, api.retention, posted), outcome) && outcome != HttpError(CONFLICT)
      ensures outcome.Published? ==> Settled(api.table, api.cutoffs, e)
    {
      for attempt := 0 to ATTEMPTS
        invariant OnlyOurs(api.table, events, trace)
        invariant KeepsSettled(old(api.table), old(api.cutoffs), api.table, api.cutoffs)
        invariant attempt < ATTEMPTS && posts == old(posts) + Copies(e, attempt)
        invariant forall a | 0 <= a < attempt :: Retried(ReplyOf(network(k, a).transfer, e, api.retention))
      {
        assert Fair(network(k, attempt), events, trace);
        var reply := Post(events, k, e, trace, network(k, attempt));
        posted := attempt + 1;
        assert Copies(e, posted) == Copies(e, attempt) + [e];
        match reply {
          case Status(code) =>
            if code != UNAVAILABLE {
              if code < 200 || code >= 300 { return HttpError(code), posted; }
              if code != NO_CONTENT { return NotDurable(code), posted; }
              return Published, posted;
            }
          case TransportError =>
            if attempt == ATTEMPTS - 1 { return TransportFailed, posted; }
        }
        if attempt == ATTEMPTS - 1 { return StillUnavailable, posted; }
      }
      assert false;
    }

    /** Publishes the spans in order.  Each is POSTed unchanged at most five times; the outcome is
        that of the first span that fails; and once every span is acknowledged, every one is stored,
        whatever was lost, repeated or pruned on the way. */
    method Publish(events: seq<Execution>, ghost trace: string, network: Network) returns (outcome: Outcome)
      requires Checker.DistinctIds(events) && posts == []
      requires OnlyOurs(api.table, events, trace) && AllFair(network, events, trace)
      modifies this`posts, api
      ensures OnlyOurs(api.table, events, trace)
      ensures BoundedPosts(posts, events) && outcome != HttpError(CONFLICT)
      ensures outcome.Published? <==> PublishedBefore(network, events, api.retention, |events|)
      ensures !outcome.Published? ==> exists k: nat :: FailsAt(network, events, api.retention, k, outcome)
      ensures outcome.Published? ==> AllSettled(api.table, api.cutoffs, events)
    {
      for k := 0 to |events|
        invariant OnlyOurs(api.table, events, trace)
        invariant AllSettled(api.table, api.cutoffs, events[..k])
        invariant PublishedBefore(network, events, api.retention, k)
        invariant BoundedPosts(posts, events[..k])
      {
        ghost var t, cutoffs, before := api.table, api.cutoffs, posts;
        ghost var posted;
        outcome, posted := PublishOne(events, k, events[k], trace, network);
        PostedSoFar(events, k, before, posted);
        PublishedOrFailed(network, events, api.retention, k, posted, outcome);
        if !outcome.Published? {
          FailureIsFinal(network, events, api.retention, k, outcome);
          MorePosts(posts, events, k + 1);
          return;
        }
        OneMoreSettled(t, cutoffs, api.table, api.cutoffs, events, k);
      }
      assert events[..|events|] == events;
      return Published;
    }
  }

  // ---- One row per event ----

  function TraceRows(t: Table, trace: string): set<Execution> {
    set id | id in t && t[id].event.traceId == trace :: t[id].event
  }

  /** After publishing, the rows of the trace are the spans, one row each, but for spans that pruning
      has expired. */
  lemma RowsOfTheTrace(t: Table, cutoffs: set<int>, events: seq<Execution>, trace: string)
    requires OnlyOurs(t, events, trace) && AllSettled(t, cutoffs, events)
    requires forall i | 0 <= i < |events| :: events[i].traceId == trace
    ensures forall e | e in TraceRows(t, trace) :: IsNormalized(e, events)
    ensures forall e | !Expired(e, cutoffs) :: e in TraceRows(t, trace) <==> IsNormalized(e, events)
    ensures forall id, other | id in t && other in t && t[id].event == t[other].event :: id == other
  {
    forall e | !Expired(e, cutoffs) && IsNormalized(e, events) ensures e in TraceRows(t, trace) {
      var i :| 0 <= i < |events| && Normalize(events[i]) == e;
      assert Settled(t, cutoffs, events[i]);
      assert t[events[i].eventId].event == e;
    }
  }

  /** Every span is still stored. */
  ghost predicate AllStored(t: Table, events: seq<Execution>) {
    forall i | 0 <= i < |events| :: StoredAs(t, events[i])
  }

  /** Publisher, receiver and checker together, whatever has been pruned: the trace's rows, read in any
      order, pass the check if and only if every one of the published spans is still stored. */
  lemma TracePassesExactlyWhenStored(t: Table, events: seq<Execution>, trace: string, scan: seq<Execution>)
    requires OnlyOurs(t, events, trace) && Checker.DistinctIds(events)
    requires forall i | 0 <= i < |events| :: events[i].traceId == trace
    requires multiset(scan) == multiset(TraceRows(t, trace))
    ensures Checker.Passes(Checker.CubeRows(scan), events) <==> AllStored(t, events)
  {
    ScanOfKeyedRows(t, trace, scan);
    if AllStored(t, events) {
      StoredRowsAreTheSpans(t, events, trace);
      ScanPasses(scan, events);
    }
    if Checker.Passes(Checker.CubeRows(scan), events) {
      forall i | 0 <= i < |events| ensures StoredAs(t, events[i]) {
        PassingShowsSpan(t, events, trace, scan, i);
      }
    }
  }

  lemma StoredRowsAreTheSpans(t: Table, events: seq<Execution>, trace: string)
    requires OnlyOurs(t, events, trace) && AllStored(t, events)
    requires forall i | 0 <= i < |events| :: events[i].traceId == trace
    ensures forall e :: e in TraceRows(t, trace) <==> IsNormalized(e, events)
  {
    forall e | IsNormalized(e, events) ensures e in TraceRows(t, trace) {
      var i :| 0 <= i < |events| && Normalize(events[i]) == e;
      assert StoredAs(t, events[i]);
    }
  }

  /** When the check passes, every span's id is among the rows, and only the span can hold it. */
  lemma PassingShowsSpan(t: Table, events: seq<Execution>, trace: string, scan: seq<Execution>, i: nat)
    requires OnlyOurs(t, events, trace) && Checker.DistinctIds(events) && i < |events|
    requires forall e :: e in scan <==> e in TraceRows(t, trace)
    requires Checker.Passes(Checker.CubeRows(scan), events)
    ensures StoredAs(t, events[i])
  {
    var rows, views := Checker.CubeRows(scan), Checker.Views(events);
    assert views[i].eventId in Checker.Ids(views);
    var j :| 0 <= j < |rows| && rows[j].eventId == views[i].eventId;
    assert scan[j] in scan && scan[j].eventId == events[i].eventId;
    OwnIdHoldsOwnPayload(t, events, i, trace);
  }

  ghost predicate NoneExpired(events: seq<Execution>, cutoffs: set<int>) {
    forall i | 0 <= i < |events| :: !Expired(Normalize(events[i]), cutoffs)
  }

  lemma UnexpiredAreStored(t: Table, cutoffs: set<int>, events: seq<Execution>)
    requires AllSettled(t, cutoffs, events) && NoneExpired(events, cutoffs)
    ensures AllStored(t, events)
  {
    forall i | 0 <= i < |events| ensures StoredAs(t, events[i]) {
      assert Settled(t, cutoffs, events[i]);
    }
  }

  /** A prune that is due to remove one of the spans makes the check fail. */
  lemma PrunedTraceFails(t: Table, cutoff: int, events: seq<Execution>, trace: string, scan: seq<Execution>, i: nat)
    requires OnlyOurs(t, events, trace) && Checker.DistinctIds(events)
    requires forall j | 0 <= j < |events| :: events[j].traceId == trace
    requires i < |events| && events[i].endedAt.instant < cutoff
    requires multiset(scan) == multiset(TraceRows(Prune(t, cutoff), trace))
    ensures !Checker.Passes(Checker.CubeRows(scan), events)
  {
    PruneKeeps(t, {}, cutoff, events, trace);
    TracePassesExactlyWhenStored(Prune(t, cutoff), events, trace, scan);
    assert !StoredAs(Prune(t, cutoff), events[i]);
  }

  /** In particular they pass when none of the published spans has expired. */
  lemma PublishedTracePasses(t: Table, cutoffs: set<int>, events: seq<Execution>, trace: string, scan: seq<Execution>)
    requires OnlyOurs(t, events, trace) && AllSettled(t, cutoffs, events) && Checker.DistinctIds(events)
    requires forall i | 0 <= i < |events| :: events[i].traceId == trace
    requires NoneExpired(events, cutoffs)
    requires multiset(scan) == multiset(TraceRows(t, trace))
    ensures Checker.Passes(Checker.CubeRows(scan), events)
  {
    UnexpiredAreStored(t, cutoffs, events);
    TracePassesExactlyWhenStored(t, events, trace, scan);
  }

  lemma ScanPasses(scan: seq<Execution>, events: seq<Execution>)
    requires Checker.DistinctIds(scan) && Checker.DistinctIds(events)
    requires forall e :: e in scan <==> IsNormalized(e, events)
    ensures Checker.Passes(Checker.CubeRows(scan), events)
  {
    var rows, views := Checker.CubeRows(scan), Checker.Views(events);
    forall v ensures v in rows <==> v in views {
      if v in rows {
        var j :| 0 <= j < |rows| && rows[j] == v;
        assert scan[j] in scan;
        var i :| 0 <= i < |events| && Normalize(events[i]) == scan[j];
        assert views[i] == v;
      }
      if v in views {
        var i :| 0 <= i < |views| && views[i] == v;
        assert IsNormalized(Normalize(events[i]), events);
        var j :| 0 <= j < |scan| && scan[j] == Normalize(events[i]);
        assert rows[j] == v;
      }
    }
    Checker.SameRowsSameMultiset(rows, views);
    Checker.PassesExactlyForPermutations(rows, events);
  }

  lemma ScanOfKeyedRows(t: Table, trace: string, scan: seq<Execution>)
    requires Keyed(t) && multiset(scan) == multiset(TraceRows(t, trace))
    ensures forall e :: e in scan <==> e in TraceRows(t, trace)
    ensures Checker.DistinctIds(scan)
  {
    forall e ensures e in scan <==> e in TraceRows(t, trace) {
      assert e in scan <==> e in multiset(scan);
    }
    forall i, j | 0 <= i < j < |scan| ensures scan[i].eventId != scan[j].eventId {
      assert scan[i] in scan && scan[j] in scan;
      if scan[i].eventId == scan[j].eventId {
        assert scan[i] == scan[j];
        Twice(scan, i, j);
        assert false;
      }
    }
  }

  lemma Twice(scan: seq<Execution>, i: nat, j: nat)
    requires i < j < |scan| && scan[i] == scan[j]
    ensures multiset(scan)[scan[i]] >= 2
  {
    assert scan == scan[..j] + scan[j..];
    assert scan[i] in scan[..j] && scan[j] in scan[j..];
  }
}
