/** The check that Cube returns exactly the spans of a trace. */
module Checker {
  import opened Options
  import opened Spans

  /** A result row on the six requested members; None when a member is absent or null. */
  datatype View = View(
    eventId: Option<string>,
    parentId: Option<string>,
    kind: Option<string>,
    status: Option<string>,
    tool: Option<string>,
    artifactUri: Option<string>)

  const NAMES := ["eventId", "parentId", "kind", "status", "tool", "artifactUri"]

  function Member(v: View, name: string): Option<string> {
    match name
    case "eventId" => v.eventId
    case "parentId" => v.parentId
    case "kind" => v.kind
    case "status" => v.status
    case "tool" => v.tool
    case _ => v.artifactUri
  }

  /** What Cube should return for a span; an absent field of the event reads as "". */
  function ViewOf(e: Execution): View {
    View(Some(e.eventId), Some(e.parentId), Some(e.kind), Some(e.status), Some(e.tool), Some(e.artifactUri))
  }

  function Views(events: seq<Execution>): (views: seq<View>)
    ensures |views| == |events| && forall i | 0 <= i < |events| :: views[i] == ViewOf(events[i])
  {
    seq(|events|, i requires 0 <= i < |events| => ViewOf(events[i]))
  }

  ghost function Ids(rows: seq<View>): set<Option<string>> {
    set i | 0 <= i < |rows| :: rows[i].eventId
  }

  /** The last row with an id. */
  function LastWith(rows: seq<View>, id: Option<string>): (v: Option<View>)
    ensures v.Some? ==> v.value.eventId == id && v.value in rows
    ensures v.None? ==> forall r | r in rows :: r.eventId != id
  {
    if rows == [] then None
    else if rows[|rows| - 1].eventId == id then Some(rows[|rows| - 1])
    else LastWith(rows[..|rows| - 1], id)
  }

  /** What the checker lets through. */
  ghost predicate Passes(rows: seq<View>, events: seq<Execution>) {
    && Ids(rows) == Ids(Views(events))
    && |rows| == |events|
    && forall i | 0 <= i < |events| :: LastWith(rows, Some(events[i].eventId)) == Some(ViewOf(events[i]))
  }

  datatype Problem = NoEventId | UnexpectedEvents | DuplicateEvents | Mismatch(name: string)

  /** The dictionary in which the last row of an id wins; None when a row has no id. */
  method LastById(rows: seq<View>) returns (byId: Option<map<Option<string>, View>>)
    ensures byId.None? <==> exists i :: 0 <= i < |rows| && rows[i].eventId.None?
    ensures byId.Some? ==> forall id :: (id in byId.value <==> LastWith(rows, id).Some?)
                                        && (id in byId.value ==> LastWith(rows, id) == Some(byId.value[id]))
  {
    var last: map<Option<string>, View> := map[];
    for i := 0 to |rows|
      invariant forall id :: (id in last <==> LastWith(rows[..i], id).Some?)
                             && (id in last ==> LastWith(rows[..i], id) == Some(last[id]))
      invariant forall j | 0 <= j < i :: rows[j].eventId.Some?
    {
      if rows[i].eventId.None? { return None; }
      assert rows[..i + 1][..i] == rows[..i];
      last := last[rows[i].eventId := rows[i]];
    }
    assert rows[..|rows|] == rows;
    return Some(last);
  }

  method CompareMembers(row: View, expected: View) returns (problem: Option<Problem>)
    ensures problem.None? <==> row == expected
    ensures problem.Some? ==>
              problem.value.Mismatch? && Member(row, problem.value.name) != Member(expected, problem.value.name)
  {
    for n := 0 to |NAMES|
      invariant forall m | 0 <= m < n :: Member(row, NAMES[m]) == Member(expected, NAMES[m])
    {
      if Member(row, NAMES[n]) != Member(expected, NAMES[n]) { return Some(Mismatch(NAMES[n])); }
    }
    SixMembers(row, expected);
    return None;
  }

  /** Compares the dictionary's keys with the event ids, then the lengths, then every field of every
      event. */
  method CheckRows(rows: seq<View>, events: seq<Execution>) returns (problem: Option<Problem>)
    ensures problem.None? <==> Passes(rows, events)
    ensures problem.None? ==> |rows| == |events|
    ensures problem.None? ==> forall e | e in events :: exists r ::
              && r in rows && r.eventId == Some(e.eventId) && r.parentId == Some(e.parentId) && r.kind == Some(e.kind)
              && r.status == Some(e.status) && r.tool == Some(e.tool) && r.artifactUri == Some(e.artifactUri)
    ensures DistinctIds(events) && |rows| == |events|
            && (forall e | e in events :: exists r ::
                  && r in rows && r.eventId == Some(e.eventId) && r.parentId == Some(e.parentId)
                  && r.kind == Some(e.kind) && r.status == Some(e.status) && r.tool == Some(e.tool)
                  && r.artifactUri == Some(e.artifactUri)) ==>
              problem.None?
    ensures problem == Some(NoEventId) <==> exists i :: 0 <= i < |rows| && rows[i].eventId.None?
    ensures problem == Some(UnexpectedEvents) <==> None !in Ids(rows) && Ids(rows) != Ids(Views(events))
    ensures problem == Some(DuplicateEvents) <==> Ids(rows) == Ids(Views(events)) && |rows| != |events|
  {
    PassingRows(rows, events);
    var byId := LastById(rows);
    if byId.None? {
      NoIdNeverPasses(rows, events);
      return Some(NoEventId);
    }
    KeysAreIds(rows, byId.value);
    var ids: set<Option<string>> := set i | 0 <= i < |events| :: Some(events[i].eventId);
    EventIds(events);
    if byId.value.Keys != ids { return Some(UnexpectedEvents); }
    if |rows| != |events| { return Some(DuplicateEvents); }
    problem := CompareEvents(rows, byId.value, events);
  }

  /** The loop over the events. */
  method CompareEvents(ghost rows: seq<View>, byId: map<Option<string>, View>, events: seq<Execution>)
    returns (problem: Option<Problem>)
    requires forall id | id in byId :: LastWith(rows, id) == Some(byId[id])
    requires forall i | 0 <= i < |events| :: Some(events[i].eventId) in byId
    ensures problem.None? <==>
              forall i | 0 <= i < |events| :: LastWith(rows, Some(events[i].eventId)) == Some(ViewOf(events[i]))
    ensures problem.Some? ==> problem.value.Mismatch?
  {
    for i := 0 to |events|
      invariant forall j | 0 <= j < i :: LastWith(rows, Some(events[j].eventId)) == Some(ViewOf(events[j]))
    {
      problem := CompareMembers(byId[Some(events[i].eventId)], ViewOf(events[i]));
      if problem.Some? { return; }
    }
    return None;
  }

  lemma EventIds(events: seq<Execution>)
    ensures Ids(Views(events)) == set i | 0 <= i < |events| :: Some(events[i].eventId)
  {
    var views := Views(events);
    assert forall i | 0 <= i < |events| :: views[i].eventId == Some(events[i].eventId);
  }

  lemma SixMembers(v: View, w: View)
    requires forall m | 0 <= m < |NAMES| :: Member(v, NAMES[m]) == Member(w, NAMES[m])
    ensures v == w
  {
    assert NAMES[0] == "eventId" && NAMES[1] == "parentId" && NAMES[2] == "kind" && NAMES[3] == "status"
      && NAMES[4] == "tool" && NAMES[5] == "artifactUri";
    assert Member(v, NAMES[0]) == v.eventId && Member(w, NAMES[0]) == w.eventId;
    assert Member(v, NAMES[1]) == v.parentId && Member(w, NAMES[1]) == w.parentId;
    assert Member(v, NAMES[2]) == v.kind && Member(w, NAMES[2]) == w.kind;
    assert Member(v, NAMES[3]) == v.status && Member(w, NAMES[3]) == w.status;
    assert Member(v, NAMES[4]) == v.tool && Member(w, NAMES[4]) == w.tool;
    assert Member(v, NAMES[5]) == v.artifactUri && Member(w, NAMES[5]) == w.artifactUri;
  }

  lemma NoIdNeverPasses(rows: seq<View>, events: seq<Execution>)
    requires exists i :: 0 <= i < |rows| && rows[i].eventId.None?
    ensures !Passes(rows, events)
  {
    var i :| 0 <= i < |rows| && rows[i].eventId.None?;
    assert rows[i].eventId in Ids(rows);
    assert None !in Ids(Views(events));
  }

  lemma KeysAreIds(rows: seq<View>, byId: map<Option<string>, View>)
    requires forall id :: id in byId <==> LastWith(rows, id).Some?
    ensures byId.Keys == Ids(rows)
  {
    forall id ensures id in byId <==> id in Ids(rows) {
      if id in Ids(rows) {
        var i :| 0 <= i < |rows| && rows[i].eventId == id;
        assert rows[i] in rows;
      }
      if id in byId {
        var r := LastWith(rows, id).value;
        var i :| 0 <= i < |rows| && rows[i] == r;
      }
    }
  }

  // ---- What passing means ----

  ghost predicate DistinctIds(events: seq<Execution>) {
    forall i, j | 0 <= i < j < |events| :: events[i].eventId != events[j].eventId
  }

  ghost predicate DistinctRows(rows: seq<View>) {
    forall i, j | 0 <= i < j < |rows| :: rows[i].eventId != rows[j].eventId
  }

  lemma IdsGrow(rows: seq<View>, last: View)
    ensures Ids(rows + [last]) == Ids(rows) + {last.eventId}
  {
    var all := rows + [last];
    forall i | 0 <= i < |rows| ensures all[i].eventId == rows[i].eventId {}
    assert all[|rows|] == last;
    forall id | id in Ids(rows) ensures id in Ids(all) {
      var i :| 0 <= i < |rows| && rows[i].eventId == id;
      assert all[i].eventId == id;
    }
  }

  lemma DistinctGrows(rows: seq<View>, last: View)
    ensures DistinctRows(rows + [last]) <==> DistinctRows(rows) && last.eventId !in Ids(rows)
  {
    var all := rows + [last];
    assert forall i | 0 <= i < |rows| :: all[i] == rows[i];
    if DistinctRows(all) {
      assert forall i | 0 <= i < |rows| :: all[i].eventId != all[|rows|].eventId;
    }
  }

  /** There are no more ids than rows, and as many only when they are distinct. */
  lemma {:induction false} Pigeonhole(rows: seq<View>)
    ensures |Ids(rows)| <= |rows|
    ensures |Ids(rows)| == |rows| <==> DistinctRows(rows)
    decreases |rows|
  {
    if rows != [] {
      var init, last := rows[..|rows| - 1], rows[|rows| - 1];
      assert rows == init + [last];
      Pigeonhole(init);
      IdsGrow(init, last);
      DistinctGrows(init, last);
      Insertion(Ids(init), last.eventId);
    } else {
      assert Ids(rows) == {};
    }
  }

  lemma Insertion(ids: set<Option<string>>, id: Option<string>)
    ensures |ids + {id}| == if id in ids then |ids| else |ids| + 1
  {
    if id in ids { assert ids + {id} == ids; }
  }

  lemma LastIsOnly(rows: seq<View>, i: nat)
    requires DistinctRows(rows) && i < |rows|
    ensures LastWith(rows, rows[i].eventId) == Some(rows[i])
  {
    var last := LastWith(rows, rows[i].eventId);
    assert rows[i] in rows;
    var j :| 0 <= j < |rows| && rows[j] == last.value;
  }

  lemma {:induction false} DistinctCountsOnce(rows: seq<View>, v: View)
    requires DistinctRows(rows)
    ensures multiset(rows)[v] == if v in rows then 1 else 0
    decreases |rows|
  {
    if rows != [] {
      var n := |rows| - 1;
      assert rows == rows[..n] + [rows[n]];
      DistinctCountsOnce(rows[..n], v);
    }
  }

  lemma SameRowsSameMultiset(a: seq<View>, b: seq<View>)
    requires DistinctRows(a) && DistinctRows(b) && forall v :: v in a <==> v in b
    ensures multiset(a) == multiset(b)
  {
    forall v ensures multiset(a)[v] == multiset(b)[v] {
      DistinctCountsOnce(a, v);
      DistinctCountsOnce(b, v);
    }
  }

  lemma PermutedIds(a: seq<View>, b: seq<View>)
    requires multiset(a) == multiset(b)
    ensures |a| == |b| && Ids(a) == Ids(b)
  {
    assert |multiset(a)| == |a| && |multiset(b)| == |b|;
    IdsPermute(a, b);
    IdsPermute(b, a);
  }

  lemma IdsPermute(a: seq<View>, b: seq<View>)
    requires multiset(a) == multiset(b)
    ensures Ids(a) <= Ids(b)
  {
    forall id | id in Ids(a) ensures id in Ids(b) {
      var i :| 0 <= i < |a| && a[i].eventId == id;
      assert a[i] in multiset(a);
      var j :| 0 <= j < |b| && b[j] == a[i];
    }
  }

  /** For events with distinct ids the checker is sound and complete: it passes exactly when the rows
      are the events, each once, in any order. */
  lemma PassesExactlyForPermutations(rows: seq<View>, events: seq<Execution>)
    requires DistinctIds(events)
    ensures Passes(rows, events) <==> multiset(rows) == multiset(Views(events))
  {
    var views := Views(events);
    assert DistinctRows(views);
    Pigeonhole(views);
    Pigeonhole(rows);
    if Passes(rows, events) {
      forall v ensures v in rows <==> v in views {
        if v in rows {
          var i :| 0 <= i < |rows| && rows[i] == v;
          assert rows[i].eventId in Ids(rows);
          var j :| 0 <= j < |views| && views[j].eventId == v.eventId;
          LastIsOnly(rows, i);
        }
        if v in views { var j :| 0 <= j < |views| && views[j] == v; }
      }
      SameRowsSameMultiset(rows, views);
    } else if multiset(rows) == multiset(views) {
      PermutedIds(rows, views);
      forall i | 0 <= i < |events| ensures LastWith(rows, Some(events[i].eventId)) == Some(ViewOf(events[i])) {
        assert views[i] in multiset(views);
        var j :| 0 <= j < |rows| && rows[j] == views[i];
        LastIsOnly(rows, j);
      }
    }
  }

  /** What passing says of the rows, member by member: every event has its row.  For events with distinct ids
      and as many rows, that is all it says. */
  lemma PassingRows(rows: seq<View>, events: seq<Execution>)
    ensures Passes(rows, events) ==> forall e | e in events :: exists r ::
              && r in rows && r.eventId == Some(e.eventId) && r.parentId == Some(e.parentId) && r.kind == Some(e.kind)
              && r.status == Some(e.status) && r.tool == Some(e.tool) && r.artifactUri == Some(e.artifactUri)
    ensures DistinctIds(events) && |rows| == |events|
            && (forall e | e in events :: exists r ::
                  && r in rows && r.eventId == Some(e.eventId) && r.parentId == Some(e.parentId)
                  && r.kind == Some(e.kind) && r.status == Some(e.status) && r.tool == Some(e.tool)
                  && r.artifactUri == Some(e.artifactUri)) ==>
              Passes(rows, events)
  {
    if Passes(rows, events) {
      forall e | e in events ensures ViewOf(e) in rows {
        var i :| 0 <= i < |events| && events[i] == e;
        assert LastWith(rows, Some(events[i].eventId)) == Some(ViewOf(e));
      }
    }
    if DistinctIds(events) && |rows| == |events|
       && forall e | e in events :: exists r ::
            && r in rows && r.eventId == Some(e.eventId) && r.parentId == Some(e.parentId)
            && r.kind == Some(e.kind) && r.status == Some(e.status) && r.tool == Some(e.tool)
            && r.artifactUri == Some(e.artifactUri)
    {
      forall e | e in events ensures ViewOf(e) in rows {}
      AllViewsPass(rows, events);
    }
  }

  lemma AllViewsPass(rows: seq<View>, events: seq<Execution>)
    requires DistinctIds(events) && |rows| == |events| && forall e | e in events :: ViewOf(e) in rows
    ensures Passes(rows, events)
  {
    var views := Views(events);
    forall v | v in views ensures v in rows {
      var i :| 0 <= i < |views| && views[i] == v;
      assert events[i] in events;
    }
    assert DistinctRows(views);
    Pigeonhole(views);
    Pigeonhole(rows);
    MoreRowsMoreIds(views, rows);
    SameSize(Ids(views), Ids(rows));
    forall i | 0 <= i < |events| ensures LastWith(rows, Some(events[i].eventId)) == Some(ViewOf(events[i])) {
      assert views[i] in rows;
      var j :| 0 <= j < |rows| && rows[j] == views[i];
      LastIsOnly(rows, j);
    }
  }

  lemma MoreRowsMoreIds(a: seq<View>, b: seq<View>)
    requires forall v | v in a :: v in b
    ensures Ids(a) <= Ids(b)
  {
    forall id | id in Ids(a) ensures id in Ids(b) {
      var i :| 0 <= i < |a| && a[i].eventId == id;
      assert a[i] in b;
    }
  }

  lemma SameSize<T>(a: set<T>, b: set<T>)
    requires a <= b && |b| <= |a|
    ensures a == b
  {
    assert b == a + (b - a);
    assert |b - a| == |b| - |a|;
  }

  // ---- What Cube returns ----

  /** The row that Cube returns for a stored span: each dimension is the column of its name, and a field that
      the payload does not fill in is the empty string. */
  function CubeRow(stored: Execution): View {
    View(eventId := Some(stored.eventId), parentId := Some(stored.parentId), kind := Some(stored.kind),
         status := Some(stored.status), tool := Some(stored.tool), artifactUri := Some(stored.artifactUri))
  }

  function CubeRows(scan: seq<Execution>): (rows: seq<View>)
    ensures |rows| == |scan| && forall i | 0 <= i < |scan| :: rows[i] == CubeRow(scan[i])
  {
    seq(|scan|, i requires 0 <= i < |scan| => CubeRow(scan[i]))
  }

  /** Cube returns what the checker expects of the same span. */
  lemma CubeRowsAreViews(scan: seq<Execution>)
    ensures CubeRows(scan) == Views(scan)
  {}

  // ---- When the ids are not distinct ----

  /** The rows of the events, except that the first of two events with one id comes back altered. */
  function Tampered(events: seq<Execution>, i: nat): seq<View>
    requires i < |events|
  {
    Views(events)[i := ViewOf(events[i]).(kind := None)]
  }

  lemma LastWithSkips(rows: seq<View>, changed: seq<View>, i: nat, j: nat, id: Option<string>)
    requires i < j < |rows| == |changed|
    requires rows[i].eventId == changed[i].eventId == rows[j].eventId
    requires forall k | 0 <= k < |rows| && k != i :: changed[k] == rows[k]
    ensures LastWith(changed, id) == LastWith(rows, id)
    decreases |rows|
  {
    var n := |rows| - 1;
    assert changed[n] == rows[n];
    if rows[n].eventId != id {
      if j < n {
        LastWithSkips(rows[..n], changed[..n], i, j, id);
      } else {
        NeitherMatters(rows[..n], changed[..n], id);
      }
    }
  }

  lemma {:induction false} NeitherMatters(rows: seq<View>, changed: seq<View>, id: Option<string>)
    requires |rows| == |changed|
    requires forall k | 0 <= k < |rows| :: changed[k].eventId == rows[k].eventId
    requires forall k | 0 <= k < |rows| && rows[k].eventId == id :: changed[k] == rows[k]
    ensures LastWith(changed, id) == LastWith(rows, id)
    decreases |rows|
  {
    if rows != [] && rows[|rows| - 1].eventId != id {
      NeitherMatters(rows[..|rows| - 1], changed[..|rows| - 1], id);
    }
  }

  lemma SameIdsElementwise(rows: seq<View>, changed: seq<View>)
    requires |rows| == |changed| && forall k | 0 <= k < |rows| :: changed[k].eventId == rows[k].eventId
    ensures Ids(changed) == Ids(rows)
  {
    forall id | id in Ids(rows) ensures id in Ids(changed) {
      var k :| 0 <= k < |rows| && rows[k].eventId == id;
      assert changed[k].eventId == id;
    }
  }

  lemma TamperingGoesUnnoticed(events: seq<Execution>, i: nat, j: nat)
    requires i < j < |events| && events[i].eventId == events[j].eventId
    requires Passes(Views(events), events)
    ensures Passes(Tampered(events, i), events)
    ensures multiset(Tampered(events, i)) != multiset(Views(events))
  {
    var views, changed := Views(events), Tampered(events, i);
    SameIdsElementwise(views, changed);
    forall k | 0 <= k < |events| ensures LastWith(changed, Some(events[k].eventId)) == Some(ViewOf(events[k])) {
      LastWithSkips(views, changed, i, j, Some(events[k].eventId));
    }
    assert multiset(changed) == multiset(views) - multiset{views[i]} + multiset{changed[i]};
    assert multiset(changed)[views[i]] < multiset(views)[views[i]];
  }

  /** The checker lets through exactly the permutations of the events if and only if the event ids
      are distinct: with a repeated id, either the events themselves are turned down, or an altered
      row is let through. */
  lemma ExactOnlyForDistinctIds(events: seq<Execution>)
    ensures (forall rows :: Passes(rows, events) <==> multiset(rows) == multiset(Views(events)))
            <==> DistinctIds(events)
  {
    if DistinctIds(events) {
      forall rows ensures Passes(rows, events) <==> multiset(rows) == multiset(Views(events)) {
        PassesExactlyForPermutations(rows, events);
      }
    } else {
      var i, j :| 0 <= i < j < |events| && events[i].eventId == events[j].eventId;
      if Passes(Views(events), events) { TamperingGoesUnnoticed(events, i, j); }
    }
  }

  // ---- Asking until Cube has an answer ----

  const QUERY_LIMIT := 20

  /** What Cube replies: an HTTP error, "Continue wait", another error, or rows. */
  datatype Answer = HttpError | ContinueWait | Rejected | Data(rows: seq<View>)

  datatype Verdict = Verified(rows: seq<View>) | Refused(problem: Problem) | HttpFailure | QueryRejected | NeverFinished

  /** answers[i] is what Cube would reply to the query after i others.  Its first answer other than
      "Continue wait" decides, provided that it comes within the limit. */
  method QueryAndCheck(events: seq<Execution>, answers: seq<Answer>) returns (verdict: Verdict, asked: nat)
    requires |answers| == 20
    ensures asked <= 20 && forall i | 0 <= i < asked - 1 :: answers[i].ContinueWait?
    ensures verdict.NeverFinished? <==> forall answer | answer in answers :: answer.ContinueWait?
    ensures !verdict.NeverFinished? ==> asked > 0 && !answers[asked - 1].ContinueWait?
    ensures verdict.Verified? <==>
              asked > 0 && answers[asked - 1].Data? && Passes(answers[asked - 1].rows, events)
    ensures verdict.Verified? ==> verdict.rows == answers[asked - 1].rows
    ensures verdict.HttpFailure? <==> asked > 0 && answers[asked - 1].HttpError?
    ensures verdict.QueryRejected? <==> asked > 0 && answers[asked - 1].Rejected?
  {
    asked := 0;
    while asked < QUERY_LIMIT
      invariant asked <= QUERY_LIMIT
      invariant forall i | 0 <= i < asked :: answers[i].ContinueWait?
    {
      var answer := answers[asked];
      assert answer in answers;
      asked := asked + 1;
      match answer {
        case HttpError => return HttpFailure, asked;
        case ContinueWait =>
        case Rejected => return QueryRejected, asked;
        case Data(rows) =>
          var problem := CheckRows(rows, events);
          return if problem.Some? then Refused(problem.value) else Verified(rows), asked;
      }
    }
    return NeverFinished, asked;
  }
}
