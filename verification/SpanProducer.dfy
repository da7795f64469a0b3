/** The MCP runner: it calls one tool and records what happened as completed spans, whatever raises. */
module SpanProducer {
  import opened Options
  import opened Spans
  import Text

  /** The name of an exception's class. */
  type ErrorName = s: string | s != "" witness "E"

  datatype Arguments = Arguments(agent: string, tool: string, tenant: string, cluster: string, namespace: string)

  /** Where the run raises an exception.  leaving is raised by closing the session and its streams,
      and then replaces an exception raised inside. */
  datatype Script = Script(
    connecting: Option<ErrorName>,
    initializing: Option<ErrorName>,
    listing: Option<ErrorName>,
    advertised: bool,
    calling: Option<ErrorName>,
    resultIsError: bool,
    writing: Option<ErrorName>,
    leaving: Option<ErrorName>)
  {
    /** The tool call begins. */
    predicate Calls() { connecting.None? && initializing.None? && listing.None? && advertised }

    predicate CallFails() { Calls() && !ToolSucceeds() }

    predicate ToolSucceeds() { Calls() && calling.None? && !resultIsError }

    predicate ArtifactWritten() { ToolSucceeds() && writing.None? }

    predicate Succeeds() { ArtifactWritten() && leaving.None? }

    /** What the call and the writing raise; a result that is an error raises RuntimeError. */
    function CallRaises(): Option<ErrorName> {
      if calling.Some? then calling else if resultIsError then Some("RuntimeError") else writing
    }

    /** What is raised while the session is open; a tool that is not advertised raises ValueError. */
    function SessionRaises(): Option<ErrorName> {
      if initializing.Some? then initializing
      else if listing.Some? then listing
      else if !advertised then Some("ValueError")
      else CallRaises()
    }

    function Raises(): Option<ErrorName> {
      if connecting.Some? then connecting else if leaving.Some? then leaving else SessionRaises()
    }
  }

  /** What the runner does to the outside. */
  datatype Action = Connect | Initialize | ListTools | CallTool | WriteArtifact | Close

  /** A reading of the clock, or something done between two readings. */
  datatype Mark = Reading(time: int) | Did(action: Action)

  /** A clock that never goes back, and a log of its readings among what was done. */
  class Clock {
    var time: int
    ghost var log: seq<Mark>

    constructor (time: int)
      ensures this.time == time && log == []
    {
      this.time := time;
      log := [];
    }

    method Now() returns (now: Time)
      modifies this
      ensures old(time) <= time && now == Time(time, 0)
      ensures log == old(log) + [Reading(time)]
    {
      var passed: nat :| passed >= 0;
      time := time + passed;
      now := Time(time, 0);
      log := log + [Reading(time)];
    }

    /** Does something outside, which may raise an exception. */
    method Attempt(action: Action, raises: Option<ErrorName>) returns (error: Option<ErrorName>)
      modifies this`log
      ensures error == raises && log == old(log) + [Did(action)]
    {
      log := log + [Did(action)];
      error := raises;
    }
  }

  function SpanOf(a: Arguments, trace: string, kind: string, startedAt: Time, endedAt: Time, status: string,
                  tool: string, uri: string, mediaType: string, errorType: string): Execution
  {
    Execution(trace + "-" + kind, startedAt, endedAt, a.tenant, a.cluster, a.namespace, trace, trace + "-run",
              if kind == "run" then "" else trace + "-run", a.agent, kind, a.tool, status,
              "", tool, "", uri, mediaType, "", "", "", 0, 0, 0.0, errorType)
  }

  /** e is a span of the trace with these details, begun and ended between the two instants. */
  ghost predicate IsSpan(e: Execution, a: Arguments, trace: string, from: int, to: int, kind: string, status: string,
                         tool: string, uri: string, mediaType: string, errorType: string)
  {
    && e == SpanOf(a, trace, kind, e.startedAt, e.endedAt, status, tool, uri, mediaType, errorType)
    && from <= e.startedAt.instant <= e.endedAt.instant <= to
    && e.startedAt.offset == e.endedAt.offset == 0
  }

  function SpanCount(script: Script): nat {
    (if script.Calls() then 1 else 0) + (if script.ArtifactWritten() then 1 else 0) + 1
  }

  /** The spans a run leaves behind, in order: a tool span exactly when the call began, an artifact span
      exactly when the tool succeeded and its result was written, and always one run span, the last.
      The tool failed exactly when the call did, the run exactly when anything raised. */
  ghost predicate Recorded(events: seq<Execution>, a: Arguments, trace: string, script: Script, uri: string,
                           error: Option<ErrorName>, from: int, to: int)
  {
    && |events| == SpanCount(script)
    && (error.None? <==> script.Succeeds())
    && (script.Calls() ==>
          if script.ToolSucceeds() then IsSpan(events[0], a, trace, from, to, "tool", "succeeded", a.tool, "", "", "")
          else error.Some? && IsSpan(events[0], a, trace, from, to, "tool", "failed", a.tool, "", "", error.value))
    && (script.ArtifactWritten() ==>
          IsSpan(events[1], a, trace, from, to, "artifact", "succeeded", "", uri, "application/json", ""))
    && (if error.None? then IsSpan(events[|events| - 1], a, trace, from, to, "run", "succeeded", "", "", "", "")
        else IsSpan(events[|events| - 1], a, trace, from, to, "run", "failed", "", "", "", error.value))
  }

  /** The instants read while the artifact is written, the tool called, and the session open. */
  function WriteReadings(script: Script): nat { if script.writing.Some? then 1 else 2 }

  function CallReadings(script: Script): nat {
    if script.calling.Some? || script.resultIsError then 1 else 2 + WriteReadings(script)
  }

  function SessionReadings(script: Script): nat {
    if script.initializing.None? && script.listing.None? && script.advertised then CallReadings(script) else 0
  }

  /** What is logged meanwhile. */
  function WriteLog(script: Script, times: seq<int>): seq<Mark>
    requires |times| == WriteReadings(script)
  {
    if script.writing.Some? then [Reading(times[0]), Did(WriteArtifact)]
    else [Reading(times[0]), Did(WriteArtifact), Reading(times[1])]
  }

  function CallLog(script: Script, times: seq<int>): seq<Mark>
    requires |times| == CallReadings(script)
  {
    if script.calling.Some? || script.resultIsError then [Reading(times[0]), Did(CallTool)]
    else [Reading(times[0]), Did(CallTool), Reading(times[1])] + WriteLog(script, times[2..])
  }

  function SessionLog(script: Script, times: seq<int>): seq<Mark>
    requires |times| == SessionReadings(script)
  {
    if script.initializing.Some? then [Did(Initialize)]
    else if script.listing.Some? || !script.advertised then [Did(Initialize), Did(ListTools)]
    else [Did(Initialize), Did(ListTools)] + CallLog(script, times)
  }

  /** A run up to where exceptions have been caught. */
  function MainReadings(script: Script): nat {
    1 + if script.connecting.Some? then 0 else SessionReadings(script)
  }

  function MainLog(script: Script, times: seq<int>): seq<Mark>
    requires |times| == MainReadings(script)
  {
    var begin := [Reading(times[0]), Did(Connect)];
    if script.connecting.Some? then begin else begin + SessionLog(script, times[1..]) + [Did(Close)]
  }

  /** A whole run: a failed call is recorded after that, and the run last. */
  function RunReadings(script: Script): nat {
    MainReadings(script) + if script.CallFails() then 2 else 1
  }

  function RunLog(script: Script, times: seq<int>): seq<Mark>
    requires |times| == RunReadings(script)
  {
    MainLog(script, times[..MainReadings(script)])
    + (if script.CallFails() then [Reading(times[2])] else [])
    + [Reading(times[|times| - 1])]
  }

  /** The spans last between readings: the run span from the first reading of the run to the last, the tool
      span from the reading just before the call to the next one, and the artifact span from the reading
      just before the write to the one just after it. */
  ghost predicate Timed(events: seq<Execution>, script: Script, times: seq<int>) {
    && |times| == RunReadings(script) && |events| == SpanCount(script)
    && (forall i, j | 0 <= i < j < |times| :: times[i] <= times[j])
    && Lasts(events[|events| - 1], times[0], times[|times| - 1])
    && (script.Calls() ==> Lasts(events[0], times[1], times[2]))
    && (script.ArtifactWritten() ==> Lasts(events[1], times[3], times[4]))
  }

  predicate Lasts(e: Execution, start: int, end: int) {
    e.startedAt.instant == start && e.endedAt.instant == end
  }

  /** What a run leaves behind, with the instants of its readings. */
  ghost predicate RecordedAt(events: seq<Execution>, a: Arguments, trace: string, script: Script, uri: string,
                             error: Option<ErrorName>, times: seq<int>)
  {
    && |times| == RunReadings(script) && |events| == SpanCount(script)
    && (error.None? <==> script.Succeeds())
    && (script.Calls() ==>
          events[0] == SpanOf(a, trace, "tool", Time(times[1], 0), Time(times[2], 0),
                              if script.ToolSucceeds() then "succeeded" else "failed", a.tool, "", "",
                              if script.ToolSucceeds() || error.None? then "" else error.value))
    && (script.ArtifactWritten() ==>
          events[1] == SpanOf(a, trace, "artifact", Time(times[3], 0), Time(times[4], 0), "succeeded",
                              "", uri, "application/json", ""))
    && events[|events| - 1] == SpanOf(a, trace, "run", Time(times[0], 0), Time(times[|times| - 1], 0),
                                      if error.None? then "succeeded" else "failed", "", "", "",
                                      if error.None? then "" else error.value)
  }

  ghost predicate Ordered(from: int, times: seq<int>, to: int) {
    && from <= to && (forall i | 0 <= i < |times| :: from <= times[i] <= to)
    && forall i, j | 0 <= i < j < |times| :: times[i] <= times[j]
  }

  /** What is recorded while the artifact is written, the tool called, the session open, and until
      exceptions have been caught. */
  function WriteSpans(a: Arguments, trace: string, script: Script, uri: string, times: seq<int>): seq<Execution>
    requires |times| == WriteReadings(script)
  {
    if script.writing.Some? then []
    else [SpanOf(a, trace, "artifact", Time(times[0], 0), Time(times[1], 0), "succeeded",
                 "", uri, "application/json", "")]
  }

  function CallSpans(a: Arguments, trace: string, script: Script, uri: string, times: seq<int>): seq<Execution>
    requires |times| == CallReadings(script)
  {
    if script.calling.Some? || script.resultIsError then []
    else
      [SpanOf(a, trace, "tool", Time(times[0], 0), Time(times[1], 0), "succeeded", a.tool, "", "", "")]
      + WriteSpans(a, trace, script, uri, times[2..])
  }

  function SessionSpans(a: Arguments, trace: string, script: Script, uri: string, times: seq<int>): seq<Execution>
    requires |times| == SessionReadings(script)
  {
    if script.initializing.None? && script.listing.None? && script.advertised
    then CallSpans(a, trace, script, uri, times) else []
  }

  function EarlySpans(a: Arguments, trace: string, script: Script, uri: string, times: seq<int>): seq<Execution>
    requires |times| == MainReadings(script)
  {
    if script.connecting.Some? then [] else SessionSpans(a, trace, script, uri, times[1..])
  }

  function FailedCall(a: Arguments, trace: string, script: Script, error: Option<ErrorName>, start: int, end: int)
    : seq<Execution>
    requires script.CallFails() ==> error.Some?
  {
    if !script.CallFails() then []
    else [SpanOf(a, trace, "tool", Time(start, 0), Time(end, 0), "failed", a.tool, "", "", error.value)]
  }

  function RunSpan(a: Arguments, trace: string, error: Option<ErrorName>, start: int, end: int): Execution {
    SpanOf(a, trace, "run", Time(start, 0), Time(end, 0), if error.None? then "succeeded" else "failed", "", "", "",
           if error.None? then "" else error.value)
  }

  lemma RecordedByParts(a: Arguments, trace: string, script: Script, uri: string, error: Option<ErrorName>,
                        main: seq<int>, failed: seq<int>, end: int)
    requires |main| == MainReadings(script) && |failed| == (if script.CallFails() then 1 else 0)
    requires error.None? <==> script.Succeeds()
    ensures RecordedAt(EarlySpans(a, trace, script, uri, main)
                       + FailedCall(a, trace, script, error, if script.CallFails() then main[1] else 0,
                                    if script.CallFails() then failed[0] else 0)
                       + [RunSpan(a, trace, error, main[0], end)],
                       a, trace, script, uri, error, main + failed + [end])
  {}

  lemma RecordedAndTimed(events: seq<Execution>, a: Arguments, trace: string, script: Script, uri: string,
                         error: Option<ErrorName>, times: seq<int>, from: int, to: int)
    requires RecordedAt(events, a, trace, script, uri, error, times) && Ordered(from, times, to)
    ensures Recorded(events, a, trace, script, uri, error, from, to) && Timed(events, script, times)
  {}

  /** The run span contains the others, and the tool has ended when the artifact is begun. */
  lemma RunContainsOthers(events: seq<Execution>, script: Script, times: seq<int>)
    requires Timed(events, script, times)
    ensures forall e | e in events ::
              var run := events[|events| - 1];
              run.startedAt.instant <= e.startedAt.instant <= e.endedAt.instant <= run.endedAt.instant
    ensures script.ArtifactWritten() ==> events[0].endedAt.instant <= events[1].startedAt.instant
  {
    forall i | 0 <= i < |events|
      ensures var run := events[|events| - 1];
              run.startedAt.instant <= events[i].startedAt.instant <= events[i].endedAt.instant <= run.endedAt.instant
    {
      assert i == |events| - 1 || i == 0 || i == 1;
    }
  }

  lemma OrderedTogether(from: int, main: seq<int>, middle: int, failed: seq<int>, to: int)
    requires Ordered(from, main, middle) && Ordered(middle, failed, to)
    ensures Ordered(from, main + failed + [to], to)
  {
    var times := main + failed + [to];
    forall i | 0 <= i < |times| ensures from <= times[i] <= to {}
    forall i, j | 0 <= i < j < |times| ensures times[i] <= times[j] {}
  }

  lemma WidenOrdered(from: int, earlier: int, times: seq<int>, to: int)
    requires Ordered(from, times, to) && earlier <= from
    ensures Ordered(earlier, times, to)
  {}

  lemma RunIsRecorded(events: seq<Execution>, a: Arguments, trace: string, script: Script, uri: string,
                      error: Option<ErrorName>, main: seq<int>, failed: seq<int>, from: int, middle: int, to: int)
    requires |main| == MainReadings(script) && |failed| == (if script.CallFails() then 1 else 0)
    requires error.None? <==> script.Succeeds()
    requires Ordered(from, main, middle) && Ordered(middle, failed, to)
    requires events == EarlySpans(a, trace, script, uri, main)
                       + FailedCall(a, trace, script, error, if script.CallFails() then main[1] else 0,
                                    if script.CallFails() then failed[0] else 0)
                       + [RunSpan(a, trace, error, main[0], to)]
    ensures Recorded(events, a, trace, script, uri, error, from, to) && Timed(events, script, main + failed + [to])
  {
    OrderedTogether(from, main, middle, failed, to);
    RecordedByParts(a, trace, script, uri, error, main, failed, to);
    RecordedAndTimed(events, a, trace, script, uri, error, main + failed + [to], from, to);
  }

  lemma Together(log: seq<Mark>, a: seq<Mark>, b: seq<Mark>)
    ensures (log + a) + b == log + (a + b)
  {}

  lemma LogGrows(log: seq<Mark>, a: Mark, b: Mark, c: Mark)
    ensures log + [a, b] + [c] == log + [a, b, c]
  {}

  lemma CallThenWrite(a: Arguments, trace: string, script: Script, uri: string, log: seq<Mark>, from: int,
                      called: seq<int>, writing: seq<int>, to: int)
    requires script.calling.None? && !script.resultIsError && |called| == 2 && |writing| == WriteReadings(script)
    requires from <= called[0] <= called[1] && Ordered(called[1], writing, to)
    ensures Ordered(from, called + writing, to)
    ensures var times := called + writing;
            && |times| == CallReadings(script)
            && log + [Reading(called[0]), Did(CallTool), Reading(called[1])] + WriteLog(script, writing)
               == log + CallLog(script, times)
            && CallSpans(a, trace, script, uri, times)
               == [SpanOf(a, trace, "tool", Time(called[0], 0), Time(called[1], 0), "succeeded", a.tool, "", "", "")]
                  + WriteSpans(a, trace, script, uri, writing)
  {
    assert (called + writing)[2..] == writing;
    Together(log, [Reading(called[0]), Did(CallTool), Reading(called[1])], WriteLog(script, writing));
  }

  class Recorder {
    const arguments: Arguments
    const trace: string
    const clock: Clock
    var events: seq<Execution>

    constructor (arguments: Arguments, trace: string, clock: Clock)
      ensures this.arguments == arguments && this.trace == trace && this.clock == clock && events == []
    {
      this.arguments := arguments;
      this.trace := trace;
      this.clock := clock;
      events := [];
    }

    method Span(kind: string, start: Time, status: string, tool: string, uri: string, mediaType: string,
                errorType: string)
      requires start.offset == 0
      modifies this`events, clock
      ensures old(clock.time) <= clock.time && clock.log == old(clock.log) + [Reading(clock.time)]
      ensures events == old(events)
                        + [SpanOf(arguments, trace, kind, start, Time(clock.time, 0), status, tool, uri,
                                  mediaType, errorType)]
    {
      var end := clock.Now();
      events := events + [SpanOf(arguments, trace, kind, start, end, status, tool, uri, mediaType, errorType)];
    }

    /** Writes the result of the call, and records that. */
    method WriteResult(script: Script, uri: string) returns (error: Option<ErrorName>, ghost times: seq<int>)
      modifies this`events, clock
      ensures |times| == WriteReadings(script) && clock.log == old(clock.log) + WriteLog(script, times)
      ensures Ordered(old(clock.time), times, clock.time)
      ensures error == script.writing
      ensures events == old(events) + WriteSpans(arguments, trace, script, uri, times)
    {
      var artifactStarted := clock.Now();
      times := [artifactStarted.instant];
      error := clock.Attempt(WriteArtifact, script.writing);
      if error.Some? { return; }
      Span("artifact", artifactStarted, "succeeded", "", uri, "application/json", "");
      times := times + [clock.time];
    }

    method Call(script: Script) returns (error: Option<ErrorName>, start: Time)
      modifies clock
      ensures clock.log == old(clock.log) + [Reading(start.instant), Did(CallTool)]
      ensures old(clock.time) <= clock.time == start.instant && start.offset == 0
      ensures error == if script.calling.None? && script.resultIsError then Some("RuntimeError") else script.calling
    {
      start := clock.Now();
      error := clock.Attempt(CallTool, script.calling);
      if error.None? && script.resultIsError { error := Some("RuntimeError"); }
    }

    /** Calls the tool: toolStarted remains set when the call did not succeed. */
    method CallAndWrite(script: Script, uri: string)
      returns (error: Option<ErrorName>, toolStarted: Option<Time>, ghost times: seq<int>)
      requires events == []
      modifies this`events, clock
      ensures |times| == CallReadings(script) && clock.log == old(clock.log) + CallLog(script, times)
      ensures Ordered(old(clock.time), times, clock.time)
      ensures error == script.CallRaises()
      ensures toolStarted == if script.calling.Some? || script.resultIsError then Some(Time(times[0], 0)) else None
      ensures events == CallSpans(arguments, trace, script, uri, times)
    {
      ghost var log, from := clock.log, clock.time;
      var start;
      error, start := Call(script);
      toolStarted, times := Some(start), [start.instant];
      if error.Some? { return; }
      Span("tool", start, "succeeded", arguments.tool, "", "", "");
      ghost var called, writing := [start.instant, clock.time], [];
      LogGrows(log, Reading(called[0]), Did(CallTool), Reading(called[1]));
      error, writing := WriteResult(script, uri);
      toolStarted, times := None, called + writing;
      CallThenWrite(arguments, trace, script, uri, log, from, called, writing, clock.time);
    }

    /** What happens while the session is open. */
    method InSession(script: Script, uri: string)
      returns (error: Option<ErrorName>, toolStarted: Option<Time>, ghost times: seq<int>)
      requires events == [] && script.connecting.None?
      modifies this`events, clock
      ensures |times| == SessionReadings(script) && clock.log == old(clock.log) + SessionLog(script, times)
      ensures Ordered(old(clock.time), times, clock.time)
      ensures error == script.SessionRaises()
      ensures toolStarted == if script.CallFails() then Some(Time(times[0], 0)) else None
      ensures events == SessionSpans(arguments, trace, script, uri, times)
    {
      ghost var log := clock.log;
      toolStarted, times := None, [];
      error := clock.Attempt(Initialize, script.initializing);
      if error.Some? { return; }
      error := clock.Attempt(ListTools, script.listing);
      assert clock.log == log + [Did(Initialize), Did(ListTools)];
      if error.None? && !script.advertised { error := Some("ValueError"); }
      if error.Some? { return; }
      error, toolStarted, times := CallAndWrite(script, uri);
      Together(log, [Did(Initialize), Did(ListTools)], CallLog(script, times));
    }

    /** The part of the run whose exceptions are caught. */
    method Run(script: Script, uri: string, ghost log: seq<Mark>, ghost started: int)
      returns (error: Option<ErrorName>, toolStarted: Option<Time>, ghost times: seq<int>)
      requires events == [] && clock.log == log + [Reading(started)] && clock.time == started
      modifies this`events, clock
      ensures |times| == MainReadings(script) && clock.log == log + MainLog(script, times)
      ensures times[0] == started && Ordered(started, times, clock.time)
      ensures error == script.Raises()
      ensures toolStarted == if script.CallFails() then Some(Time(times[1], 0)) else None
      ensures events == EarlySpans(arguments, trace, script, uri, times)
    {
      toolStarted, times := None, [started];
      error := clock.Attempt(Connect, script.connecting);
      ghost var begin := [Reading(started), Did(Connect)];
      assert clock.log == log + begin;
      if error.Some? { return; }
      ghost var inside;
      error, toolStarted, inside := InSession(script, uri);
      Together(log, begin, SessionLog(script, inside));
      times := [started] + inside;
      assert times[1..] == inside;
      var closing := clock.Attempt(Close, script.leaving);
      Together(log, begin + SessionLog(script, inside), [Did(Close)]);
      if closing.Some? { error := closing; }
    }

    /** After exceptions have been caught: a failed call is recorded, and the run. */
    method Finish(script: Script, error: Option<ErrorName>, started: Time, toolStarted: Option<Time>)
      returns (ghost failed: seq<int>)
      requires started.offset == 0 && (toolStarted.Some? <==> script.CallFails())
      requires toolStarted.Some? ==> toolStarted.value.offset == 0 && error.Some?
      modifies this`events, clock
      ensures |failed| == (if script.CallFails() then 1 else 0) && Ordered(old(clock.time), failed, clock.time)
      ensures clock.log == old(clock.log) + (if script.CallFails() then [Reading(failed[0])] else [])
                           + [Reading(clock.time)]
      ensures events == old(events)
                        + FailedCall(arguments, trace, script, error,
                                     if toolStarted.Some? then toolStarted.value.instant else 0,
                                     if script.CallFails() then failed[0] else 0)
                        + [RunSpan(arguments, trace, error, started.instant, clock.time)]
    {
      failed := [];
      if error.Some? && toolStarted.Some? {
        Span("tool", toolStarted.value, "failed", arguments.tool, "", "", error.value);
        failed := [clock.time];
      }
      Span("run", started, if error.Some? then "failed" else "succeeded", "", "", "",
           if error.Some? then error.value else "");
    }

    /** The whole run. */
    method Execute(script: Script, uri: string) returns (error: Option<ErrorName>, ghost times: seq<int>)
      requires events == []
      modifies this`events, clock
      ensures Recorded(events, arguments, trace, script, uri, error, old(clock.time), clock.time)
      ensures Timed(events, script, times) && clock.log == old(clock.log) + RunLog(script, times)
      ensures error == script.Raises()
    {
      ghost var log := clock.log;
      var started := clock.Now();
      var toolStarted;
      ghost var main, failed;
      error, toolStarted, main := Run(script, uri, log, started.instant);
      ghost var middle := clock.time;
      failed := Finish(script, error, started, toolStarted);
      times := main + failed + [clock.time];
      LogOfRun(log, script, main, failed, clock.time);
      WidenOrdered(started.instant, old(clock.time), main, middle);
      RunIsRecorded(events, arguments, trace, script, uri, error, main, failed, old(clock.time), middle, clock.time);
    }
  }

  lemma LogOfRun(log: seq<Mark>, script: Script, main: seq<int>, failed: seq<int>, end: int)
    requires |main| == MainReadings(script) && |failed| == if script.CallFails() then 1 else 0
    ensures log + MainLog(script, main) + (if script.CallFails() then [Reading(failed[0])] else []) + [Reading(end)]
            == log + RunLog(script, main + failed + [end])
  {
    var times := main + failed + [end];
    var late := if script.CallFails() then [Reading(failed[0])] else [];
    assert times[..|main|] == main;
    Together(log, MainLog(script, main), late);
    Together(log, MainLog(script, main) + late, [Reading(end)]);
  }

  lemma SameTraceSameKind(trace: string, a: string, b: string)
    requires trace + "-" + a == trace + "-" + b
    ensures a == b
  {
    Text.SameHeadSameTail(trace + "-", a, b);
  }

  /** The spans of a run have distinct event ids, and the run span is the parent of the others. */
  lemma IdsAndParents(events: seq<Execution>, a: Arguments, trace: string, script: Script, uri: string,
                      error: Option<ErrorName>, from: int, to: int)
    requires Recorded(events, a, trace, script, uri, error, from, to)
    ensures forall i, j | 0 <= i < j < |events| :: events[i].eventId != events[j].eventId
    ensures forall i | 0 <= i < |events| ::
              && events[i].traceId == trace
              && events[i].parentId == if i == |events| - 1 then "" else events[|events| - 1].eventId
  {
    forall i, j | 0 <= i < j < |events| ensures events[i].eventId != events[j].eventId {
      if events[i].eventId == events[j].eventId { SameTraceSameKind(trace, events[i].kind, events[j].kind); }
    }
  }

  lemma SpanOfAKind(events: seq<Execution>, a: Arguments, trace: string, script: Script, uri: string,
                    error: Option<ErrorName>, from: int, to: int, i: nat)
    returns (kind: string, status: string, tool: string, artifact: string, mediaType: string, errorType: string)
    requires Recorded(events, a, trace, script, uri, error, from, to) && i < |events|
    ensures IsSpan(events[i], a, trace, from, to, kind, status, tool, artifact, mediaType, errorType)
    ensures kind in {"tool", "artifact", "run"} && tool == (if kind == "tool" then a.tool else "")
    ensures artifact == (if kind == "artifact" then uri else "")
    ensures mediaType == if kind == "artifact" then "application/json" else ""
    ensures kind == "run" ==> status == if error.None? then "succeeded" else "failed"
    ensures kind == "tool" ==> status == if script.calling.None? && !script.resultIsError then "succeeded" else "failed"
    ensures kind == "artifact" ==> status == "succeeded"
    ensures if status == "failed" then error.Some? && errorType == error.value else errorType == ""
  {
    if i == |events| - 1 {
      kind, tool, artifact, mediaType := "run", "", "", "";
      status, errorType := if error.None? then "succeeded" else "failed", if error.None? then "" else error.value;
    } else if i == 0 {
      kind, tool, artifact, mediaType := "tool", a.tool, "", "";
      status, errorType := if script.ToolSucceeds() then "succeeded" else "failed",
                           if script.ToolSucceeds() then "" else error.value;
    } else {
      kind, tool, artifact, mediaType := "artifact", "", uri, "application/json";
      status, errorType := "succeeded", "";
    }
  }

  /** Every span that a run leaves behind, field by field: whose it is, where it stands in the trace, */
  lemma RecordedIdentities(events: seq<Execution>, a: Arguments, trace: string, script: Script, uri: string,
                           error: Option<ErrorName>, from: int, to: int)
    requires Recorded(events, a, trace, script, uri, error, from, to)
    ensures forall e | e in events ::
              && e.tenantId == a.tenant && e.cluster == a.cluster && e.namespace == a.namespace
              && e.agent == a.agent && e.name == a.tool && e.traceId == trace && e.runId == trace + "-run"
              && e.eventId == trace + "-" + e.kind
              && e.parentId == if e.kind == "run" then "" else trace + "-run"
  {
    forall i | 0 <= i < |events|
      ensures var e := events[i];
              && e.tenantId == a.tenant && e.cluster == a.cluster && e.namespace == a.namespace
              && e.agent == a.agent && e.name == a.tool && e.traceId == trace && e.runId == trace + "-run"
              && e.eventId == trace + "-" + e.kind
              && e.parentId == if e.kind == "run" then "" else trace + "-run"
    {
      var kind, status, tool, artifact, mediaType, errorType :=
        SpanOfAKind(events, a, trace, script, uri, error, from, to, i);
    }
  }

  /** and what it says: the tool span names the tool, the artifact span the artifact and its type, a
      failed span the error; nothing else is filled in. */
  lemma RecordedDetails(events: seq<Execution>, a: Arguments, trace: string, script: Script, uri: string,
                        error: Option<ErrorName>, from: int, to: int)
    requires Recorded(events, a, trace, script, uri, error, from, to)
    ensures forall e | e in events ::
              && e.kind in {"tool", "artifact", "run"}
              && e.tool == (if e.kind == "tool" then a.tool else "")
              && e.artifactUri == (if e.kind == "artifact" then uri else "")
              && e.artifactType == (if e.kind == "artifact" then "application/json" else "")
              && e.skillVersion == "" && e.targetAgent == "" && e.validation == "" && e.model == "" && e.provider == ""
              && e.inputTokens == 0 && e.outputTokens == 0 && e.costUsd == 0.0
    ensures forall e | e in events ::
              && (e.kind == "run" ==> e.status == if error.None? then "succeeded" else "failed")
              && (e.kind == "tool" ==>
                    e.status == if script.calling.None? && !script.resultIsError then "succeeded" else "failed")
              && (e.kind == "artifact" ==> e.status == "succeeded")
              && if e.status == "failed" then error.Some? && e.errorType == error.value else e.errorType == ""
  {
    forall i | 0 <= i < |events|
      ensures var e := events[i];
              && e.kind in {"tool", "artifact", "run"}
              && e.tool == (if e.kind == "tool" then a.tool else "")
              && e.artifactUri == (if e.kind == "artifact" then uri else "")
              && e.artifactType == (if e.kind == "artifact" then "application/json" else "")
              && e.skillVersion == "" && e.targetAgent == "" && e.validation == "" && e.model == "" && e.provider == ""
              && e.inputTokens == 0 && e.outputTokens == 0 && e.costUsd == 0.0
              && (e.kind == "run" ==> e.status == if error.None? then "succeeded" else "failed")
              && (e.kind == "tool" ==>
                    e.status == if script.calling.None? && !script.resultIsError then "succeeded" else "failed")
              && (e.kind == "artifact" ==> e.status == "succeeded")
              && if e.status == "failed" then error.Some? && e.errorType == error.value else e.errorType == ""
    {
      var kind, status, tool, artifact, mediaType, errorType :=
        SpanOfAKind(events, a, trace, script, uri, error, from, to, i);
    }
  }

  predicate Nonblank(a: Arguments) {
    !Blank(a.agent) && !Blank(a.tool) && !Blank(a.tenant) && !Blank(a.cluster) && !Blank(a.namespace)
  }

  lemma BlankParts(a: string, b: string)
    requires Blank(a + b)
    ensures Blank(a) && Blank(b)
  {
    forall i | 0 <= i < |a| ensures IsSpace(a[i]) { assert (a + b)[i] == a[i]; }
    forall i | 0 <= i < |b| ensures IsSpace(b[i]) { assert (a + b)[|a| + i] == b[i]; }
  }

  lemma NamesAreNotBlank(a: Arguments, trace: string, kind: string, status: string)
    requires Nonblank(a) && !Blank(trace)
    requires kind in {"tool", "artifact", "run"} && status in {"succeeded", "failed"}
    ensures !Blank(trace + "-" + kind) && !Blank(trace + "-run") && !Blank(kind) && !Blank(status)
    ensures trace + "-" + kind != "" && (kind != "run" ==> trace + "-run" != trace + "-" + kind)
  {
    if Blank(trace + "-" + kind) { BlankParts(trace + "-", kind); BlankParts(trace, "-"); }
    if Blank(trace + "-run") { BlankParts(trace, "-run"); }
    assert !IsSpace(kind[0]) && !IsSpace(status[0]);
    if trace + "-run" == trace + "-" + kind {
      Text.Associative(trace, "-", "run");
      Text.SameHeadSameTail(trace + "-", "run", kind);
    }
  }

  lemma SpanIsValid(e: Execution, a: Arguments, trace: string, from: int, to: int, kind: string, status: string,
                    tool: string, uri: string, mediaType: string, errorType: string, now: int, retention: int)
    requires IsSpan(e, a, trace, from, to, kind, status, tool, uri, mediaType, errorType)
    requires Nonblank(a) && !Blank(trace) && kind in {"tool", "artifact", "run"} && status in {"succeeded", "failed"}
    requires (kind == "tool" ==> tool != "") && (kind == "artifact" ==> uri != "" && mediaType != "")
    requires 0 < from && now - retention <= from && to <= now + FUTURE_TOLERANCE
    ensures Valid(e, now, retention)
  {
    NamesAreNotBlank(a, trace, kind, status);
  }

  /** Producer meets consumer: with nonblank arguments, every span that a run leaves behind passes the
      server's validation, at any instant within retention and not behind the producer by more than
      the clock tolerance. */
  lemma EmittedSpansAreValid(events: seq<Execution>, a: Arguments, trace: string, script: Script, uri: string,
                             error: Option<ErrorName>, from: int, to: int, now: int, retention: int)
    requires Recorded(events, a, trace, script, uri, error, from, to)
    requires Nonblank(a) && !Blank(trace) && uri != ""
    requires 0 < from && now - retention <= from && to <= now + FUTURE_TOLERANCE
    ensures forall e | e in events :: Valid(e, now, retention)
  {
    assert a.tool != "";
    forall i | 0 <= i < |events| ensures Valid(events[i], now, retention) {
      var e := events[i];
      if i == |events| - 1 {
        SpanIsValid(e, a, trace, from, to, "run", if error.None? then "succeeded" else "failed", "", "", "",
                    if error.None? then "" else error.value, now, retention);
      } else if i == 0 {
        SpanIsValid(e, a, trace, from, to, "tool", if script.ToolSucceeds() then "succeeded" else "failed",
                    a.tool, "", "",
                    if script.ToolSucceeds() then "" else error.value, now, retention);
      } else {
        SpanIsValid(e, a, trace, from, to, "artifact", "succeeded", "", uri, "application/json", "", now, retention);
      }
    }
  }
}
