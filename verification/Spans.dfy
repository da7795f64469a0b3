/** Completed execution spans, and the checks the ingestion service makes before it stores one. */
module Spans {
  import opened Options

  // Durations are in nanoseconds.
  const SECOND: int := 1_000_000_000
  const MINUTE: int := 60 * SECOND
  const DAY: int := 24 * 60 * MINUTE
  const FUTURE_TOLERANCE: int := 5 * MINUTE
  const MAX_DURATION: int := 0x7fff_ffff_ffff_ffff

  /** A point in time, counted from the zero time (the start of year 1 UTC), and the UTC offset it
      was written with. */
  datatype Time = Time(instant: int, offset: int) {
    predicate IsZero() { instant == 0 }

    function Utc(): Time { Time(instant, 0) }

    /** The RFC 3339 form has four digits for the year: 0 to 9999, after conversion to UTC. */
    predicate HasRfc3339Year() { -366 * DAY <= instant < 3_652_059 * DAY }
  }

  datatype Execution = Execution(
    eventId: string,
    startedAt: Time,
    endedAt: Time,
    tenantId: string,
    cluster: string,
    namespace: string,
    traceId: string,
    runId: string,
    parentId: string,
    agent: string,
    kind: string,
    name: string,
    status: string,
    skillVersion: string,
    tool: string,
    targetAgent: string,
    artifactUri: string,
    artifactType: string,
    validation: string,
    model: string,
    provider: string,
    inputTokens: int,
    outputTokens: int,
    costUsd: real,
    errorType: string)

  /** Unicode white space. */
  predicate IsSpace(c: char) {
    || '\t' <= c <= '\r' || c == ' ' || c == '\U{85}' || c == '\U{A0}' || c == '\U{1680}'
    || '\U{2000}' <= c <= '\U{200A}' || c == '\U{2028}' || c == '\U{2029}' || c == '\U{202F}'
    || c == '\U{205F}' || c == '\U{3000}'
  }

  function TrimSpace(s: string): string
    decreases |s|
  {
    if s == "" then ""
    else if IsSpace(s[0]) then TrimSpace(s[1..])
    else if IsSpace(s[|s| - 1]) then TrimSpace(s[..|s| - 1])
    else s
  }

  predicate Blank(s: string) {
    forall i | 0 <= i < |s| :: IsSpace(s[i])
  }

  lemma {:induction false} TrimmedToNothing(s: string)
    ensures TrimSpace(s) == "" <==> Blank(s)
    decreases |s|
  {
    if s != "" {
      if IsSpace(s[0]) {
        TrimmedToNothing(s[1..]);
        assert Blank(s[1..]) ==> Blank(s);
      } else if IsSpace(s[|s| - 1]) {
        TrimmedToNothing(s[..|s| - 1]);
        assert s[..|s| - 1][0] == s[0];
      }
    }
  }

  function RequiredFields(e: Execution): map<string, string> {
    map["eventId" := e.eventId, "tenantId" := e.tenantId, "cluster" := e.cluster, "namespace" := e.namespace,
        "traceId" := e.traceId, "runId" := e.runId, "agent" := e.agent, "kind" := e.kind, "name" := e.name,
        "status" := e.status]
  }

  predicate AllPresent(e: Execution) {
    && !Blank(e.eventId) && !Blank(e.tenantId) && !Blank(e.cluster) && !Blank(e.namespace) && !Blank(e.traceId)
    && !Blank(e.runId) && !Blank(e.agent) && !Blank(e.kind) && !Blank(e.name) && !Blank(e.status)
  }

  /** Within retention, not further ahead than the tolerance, and in order. */
  predicate Timely(e: Execution, now: int, retention: int) {
    && !e.startedAt.IsZero() && !e.endedAt.IsZero()
    && e.startedAt.instant <= e.endedAt.instant
    && now - retention <= e.endedAt.instant <= now + FUTURE_TOLERANCE
  }

  predicate HasDetail(e: Execution) {
    match e.kind
    case "run" => true
    case "skill" => e.skillVersion != ""
    case "tool" => e.tool != ""
    case "handoff" => e.targetAgent != ""
    case "artifact" => e.artifactUri != "" && e.artifactType != ""
    case "validation" => e.validation in {"passed", "failed", "skipped"}
    case "model" => e.model != "" && e.provider != ""
    case _ => false
  }

  predicate NoUsage(e: Execution) {
    e.inputTokens == 0 && e.outputTokens == 0 && e.costUsd == 0.0
  }

  /** What validation requires of a span at any time. */
  predicate WellFormed(e: Execution) {
    && AllPresent(e)
    && e.status in {"succeeded", "failed", "cancelled"}
    && e.inputTokens >= 0 && e.outputTokens >= 0 && e.costUsd >= 0.0
    && e.parentId != e.eventId
    && HasDetail(e)
    && (e.kind != "model" ==> NoUsage(e))
  }

  predicate Valid(e: Execution, now: int, retention: int) {
    WellFormed(e) && Timely(e, now, retention)
  }

  datatype Rejection =
    | Missing(field: string) | BadTimestamps | BadStatus | NegativeUsage | SelfParent
    | MissingDetail | UsageOutsideModel

  /** The rule that a rejection says was broken. */
  predicate Broken(rejection: Rejection, e: Execution, now: int, retention: int) {
    match rejection
    case Missing(field) => field in RequiredFields(e) && Blank(RequiredFields(e)[field])
    case BadTimestamps => !Timely(e, now, retention)
    case BadStatus => e.status !in {"succeeded", "failed", "cancelled"}
    case NegativeUsage => e.inputTokens < 0 || e.outputTokens < 0 || e.costUsd < 0.0
    case SelfParent => e.parentId == e.eventId
    case MissingDetail => !HasDetail(e)
    case UsageOutsideModel => e.kind != "model" && !NoUsage(e)
  }

  /** The required fields are visited in any order.  The verdict does not depend on it; only which
      blank field is reported does. */
  method Validate(e: Execution, now: int, retention: int) returns (rejection: Option<Rejection>)
    ensures rejection.None? <==> Valid(e, now, retention)
    ensures rejection.Some? ==> Broken(rejection.value, e, now, retention)
    ensures !AllPresent(e) <==> rejection.Some? && rejection.value.Missing?
    ensures AllPresent(e) ==>
              rejection == if !Timely(e, now, retention) then Some(BadTimestamps)
                           else if e.status !in {"succeeded", "failed", "cancelled"} then Some(BadStatus)
                           else if e.inputTokens < 0 || e.outputTokens < 0 || e.costUsd < 0.0 then Some(NegativeUsage)
                           else if e.parentId == e.eventId then Some(SelfParent)
                           else if !HasDetail(e) then Some(MissingDetail)
                           else if e.kind != "model" && !NoUsage(e) then Some(UsageOutsideModel)
                           else None
  {
    var fields := RequiredFields(e);
    var todo := fields.Keys;
    while todo != {}
      invariant todo <= fields.Keys
      invariant forall name | name in fields.Keys - todo :: !Blank(fields[name])
      decreases todo
    {
      var name :| name in todo;
      TrimmedToNothing(fields[name]);
      if TrimSpace(fields[name]) == "" {
        PresentFields(e);
        return Some(Missing(name));
      }
      todo := todo - {name};
    }
    PresentFields(e);
    if e.startedAt.IsZero() || e.endedAt.IsZero() || e.endedAt.instant < e.startedAt.instant
       || e.endedAt.instant > now + 5 * MINUTE || e.endedAt.instant < now - retention {
      return Some(BadTimestamps);
    }
    if e.status != "succeeded" && e.status != "failed" && e.status != "cancelled" { return Some(BadStatus); }
    if e.inputTokens < 0 || e.outputTokens < 0 || e.costUsd < 0.0 { return Some(NegativeUsage); }
    if e.parentId == e.eventId { return Some(SelfParent); }
    match e.kind {
      case "run" =>
      case "skill" => if e.skillVersion == "" { return Some(MissingDetail); }
      case "tool" => if e.tool == "" { return Some(MissingDetail); }
      case "handoff" => if e.targetAgent == "" { return Some(MissingDetail); }
      case "artifact" => if e.artifactUri == "" || e.artifactType == "" { return Some(MissingDetail); }
      case "validation" =>
        if e.validation != "passed" && e.validation != "failed" && e.validation != "skipped" {
          return Some(MissingDetail);
        }
      case "model" => if e.model == "" || e.provider == "" { return Some(MissingDetail); }
      case _ => return Some(MissingDetail);
    }
    if e.kind != "model" && (e.inputTokens != 0 || e.outputTokens != 0 || e.costUsd != 0.0) {
      return Some(UsageOutsideModel);
    }
    return None;
  }

  lemma PresentFields(e: Execution)
    ensures AllPresent(e) <==> forall name | name in RequiredFields(e) :: !Blank(RequiredFields(e)[name])
  {
    var fields := RequiredFields(e);
    assert "eventId" in fields && "tenantId" in fields && "cluster" in fields && "namespace" in fields
      && "traceId" in fields && "runId" in fields && "agent" in fields && "kind" in fields && "name" in fields
      && "status" in fields;
  }

  // ---- What validation comes to, in the fields of a span ----

  /** The twenty-five white space characters. */
  lemma WhiteSpaceInWords(c: char)
    ensures IsSpace(c) <==>
              c in {'\t', '\n', '\U{0B}', '\U{0C}', '\r', ' ', '\U{85}', '\U{A0}', '\U{1680}', '\U{2000}', '\U{2001}',
                    '\U{2002}', '\U{2003}', '\U{2004}', '\U{2005}', '\U{2006}', '\U{2007}', '\U{2008}', '\U{2009}',
                    '\U{200A}', '\U{2028}', '\U{2029}', '\U{202F}', '\U{205F}', '\U{3000}'}
  {}

  /** What each kind of span needs besides; no other kind is ever valid. */
  lemma DetailInWords(e: Execution)
    ensures HasDetail(e) <==>
              || e.kind == "run"
              || (e.kind == "skill" && e.skillVersion != "")
              || (e.kind == "tool" && e.tool != "")
              || (e.kind == "handoff" && e.targetAgent != "")
              || (e.kind == "artifact" && e.artifactUri != "" && e.artifactType != "")
              || (e.kind == "validation"
                  && (e.validation == "passed" || e.validation == "failed" || e.validation == "skipped"))
              || (e.kind == "model" && e.model != "" && e.provider != "")
  {}

  /** A span is valid exactly when ten fields are not blank, the timestamps are set, in order, within retention
      and at most five minutes ahead, the status is one of three, nothing is negative, it is not its own parent,
      its kind has its detail, and only a model reports usage. */
  lemma ValidInWords(e: Execution, now: int, retention: int)
    ensures Valid(e, now, retention) <==>
              && !Blank(e.eventId) && !Blank(e.tenantId) && !Blank(e.cluster) && !Blank(e.namespace)
              && !Blank(e.traceId) && !Blank(e.runId) && !Blank(e.agent) && !Blank(e.kind) && !Blank(e.name)
              && !Blank(e.status)
              && e.startedAt.instant != 0 && e.endedAt.instant != 0 && e.startedAt.instant <= e.endedAt.instant
              && now - retention <= e.endedAt.instant <= now + 300_000_000_000
              && (e.status == "succeeded" || e.status == "failed" || e.status == "cancelled")
              && e.inputTokens >= 0 && e.outputTokens >= 0 && e.costUsd >= 0.0 && e.parentId != e.eventId
              && (|| e.kind == "run"
                  || (e.kind == "skill" && e.skillVersion != "")
                  || (e.kind == "tool" && e.tool != "")
                  || (e.kind == "handoff" && e.targetAgent != "")
                  || (e.kind == "artifact" && e.artifactUri != "" && e.artifactType != "")
                  || (e.kind == "validation"
                      && (e.validation == "passed" || e.validation == "failed" || e.validation == "skipped"))
                  || (e.kind == "model" && e.model != "" && e.provider != ""))
              && (e.kind == "model" || (e.inputTokens == 0 && e.outputTokens == 0 && e.costUsd == 0.0))
  {
    DetailInWords(e);
  }

  /** Timestamps in UTC, so that the same span written with another offset is the same payload. */
  function Normalize(e: Execution): Execution {
    e.(startedAt := e.startedAt.Utc(), endedAt := e.endedAt.Utc())
  }

  /** Two spans are the same payload exactly when they differ at most in the offsets of their timestamps. */
  lemma SamePayloadUpToOffsets(e: Execution, f: Execution)
    ensures Normalize(e) == Normalize(f) <==>
              && e.startedAt.instant == f.startedAt.instant && e.endedAt.instant == f.endedAt.instant
              && e.(startedAt := f.startedAt, endedAt := f.endedAt) == f
    ensures Normalize(e).startedAt.offset == Normalize(e).endedAt.offset == 0
  {}

  /** The years 0 to 9999: from 366 days before the zero time to 3,652,059 days after it. */
  lemma YearInWords(t: Time)
    ensures t.HasRfc3339Year() <==> -366 * 86_400_000_000_000 <= t.instant < 3_652_059 * 86_400_000_000_000
  {}

  /** time.Time.Sub saturates. */
  function Duration(e: Execution): int {
    var d := e.endedAt.instant - e.startedAt.instant;
    if d > MAX_DURATION then MAX_DURATION else if d < -MAX_DURATION - 1 then -MAX_DURATION - 1 else d
  }
}
