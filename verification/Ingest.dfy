/** The ingestion service: one upsert for each accepted span, and pruning by retention. */
module Ingest {
  import opened Options
  import opened Spans

  /** A row of agent_executions.  Its other columns are functions of the span. */
  datatype Row = Row(event: Execution, recordedAt: int)

  /** The table, by its primary key. */
  type Table = map<string, Row>

  const NO_CONTENT := 204
  const BAD_REQUEST := 400
  const CONFLICT := 409
  const UNAVAILABLE := 503

  /** INSERT ... ON CONFLICT DO UPDATE that leaves an existing row as it is. */
  function Upsert(t: Table, e: Execution, now: int): Table {
    if e.eventId in t then t else t[e.eventId := Row(e, now)]
  }

  /** DELETE ... WHERE ended_at < cutoff. */
  function Prune(t: Table, cutoff: int): Table {
    map id | id in t && t[id].event.endedAt.instant >= cutoff :: t[id]
  }

  /** The spans stored. */
  function Events(t: Table): set<Execution> {
    set id | id in t :: t[id].event
  }

  /** Every row is keyed by its own event id. */
  ghost predicate Keyed(t: Table) {
    forall id | id in t :: t[id].event.eventId == id
  }

  lemma KeyedMembership(t: Table, e: Execution)
    requires Keyed(t)
    ensures e in Events(t) <==> e.eventId in t && t[e.eventId].event == e
  {
    if e in Events(t) { var id :| id in t && t[id].event == e; }
  }

  /** How the statement that stores a span ends: it is answered, it fails without effect, or it
      takes effect and its answer is lost. */
  datatype StorageOutcome = Answered | Failed | Unconfirmed

  class ExecutionApi {
    const retention: int
    var table: Table
    /** The cutoffs of the prunes executed so far. */
    ghost var cutoffs: set<int>

    constructor (retention: int)
      ensures this.retention == retention && table == map[] && cutoffs == {}
    {
      this.retention := retention;
      table := map[];
      cutoffs := {};
    }

    /** POST /v1/executions; request is None when the body is not one Execution of at most 64 KiB.
        Validation and storage read the clock at different instants. */
    method ServeHttp(request: Option<Execution>, validatedAt: int, storedAt: int, outcome: StorageOutcome)
      returns (code: int)
      modifies this`table
      ensures code == 400 <==>
                || request.None? || !Valid(request.value, validatedAt, retention)
                || !request.value.startedAt.HasRfc3339Year() || !request.value.endedAt.HasRfc3339Year()
      ensures code == 400 ==> table == old(table)
      ensures code != 400 ==>
                var e := Normalize(request.value);
                && table == (if outcome.Failed? then old(table) else Upsert(old(table), e, storedAt))
                && (code == 503 <==> !outcome.Answered?)
                && (code == 204 <==> outcome.Answered? && table[e.eventId].event == e)
                && (code == 409 <==> outcome.Answered? && table[e.eventId].event != e)
    {
      if request.None? { return BAD_REQUEST; }
      var event := request.value;
      var rejection := Validate(event, validatedAt, retention);
      if rejection.Some? { return BAD_REQUEST; }
      event := event.(startedAt := event.startedAt.Utc(), endedAt := event.endedAt.Utc());
      if !event.startedAt.HasRfc3339Year() || !event.endedAt.HasRfc3339Year() { return BAD_REQUEST; }
      if outcome.Failed? { return UNAVAILABLE; }
      if event.eventId !in table {
        table := table[event.eventId := Row(event, storedAt)];
      }
      if outcome.Unconfirmed? { return UNAVAILABLE; }
      if table[event.eventId].event != event { return CONFLICT; }
      return NO_CONTENT;
    }

    /** One tick of the retention loop: the cutoff is computed, then the statement runs or fails. */
    method PruneExpired(now: int, failed: bool)
      modifies this
      ensures table == if failed then old(table) else Prune(old(table), now - retention)
      ensures cutoffs == if failed then old(cutoffs) else old(cutoffs) + {now - retention}
    {
      if !failed {
        table := map id | id in table && table[id].event.endedAt.instant >= now - retention :: table[id];
        cutoffs := cutoffs + {now - retention};
      }
    }
  }
}
