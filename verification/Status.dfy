/** The status that the Kopf controller writes over many reconciliations: when its Ready condition last
    changed. */
module Status {
  import opened Options

  datatype Verdict = Verdict(status: string, reason: string, message: string)

  datatype Condition = Condition(verdict: Verdict, lastTransitionTime: int)

  /** A reconciliation either writes a verdict or raises TemporaryError and writes nothing. */
  datatype Round = Wrote(generation: int, readyApis: int, verdict: Verdict, now: int) | Temporary

  datatype TypedCondition = TypedCondition(kind: string, condition: Condition)

  /** The first condition of type Ready. */
  function FirstReady(conditions: seq<TypedCondition>): (found: Option<Condition>)
    ensures found.None? <==> forall c | c in conditions :: c.kind != "Ready"
  {
    if conditions == [] then None
    else if conditions[0].kind == "Ready" then Some(conditions[0].condition)
    else FirstReady(conditions[1..])
  }

  /** The status of a resource, which set_status replaces as a whole. */
  class KopfStatus {
    var conditions: seq<TypedCondition>
    var observedGeneration: int
    var readyApis: int

    constructor ()
      ensures conditions == []
    {
      conditions, observedGeneration, readyApis := [], 0, 0;
    }

    /** generation is that of the spec which was reconciled; it is not read again. */
    method SetStatus(generation: int, readyApis: int, verdict: Verdict, now: int)
      modifies this
      ensures conditions == [TypedCondition("Ready", Stamped(FirstReady(old(conditions)), verdict, now))]
      ensures observedGeneration == generation && this.readyApis == readyApis
    {
      var previous: Option<Condition> := None;
      var i := 0;
      while i < |conditions| && previous.None?
        invariant i <= |conditions| && conditions == old(conditions)
        invariant if previous.Some? then previous == FirstReady(conditions)
                  else FirstReady(conditions[i..]) == FirstReady(conditions)
        decreases |conditions| - i
      {
        if conditions[i].kind == "Ready" { previous := Some(conditions[i].condition); }
        assert conditions[i..][1..] == conditions[i + 1..];
        i := i + 1;
      }
      var sameVerdict := previous.Some? && previous.value.verdict.status == verdict.status
                    && previous.value.verdict.reason == verdict.reason
                    && previous.value.verdict.message == verdict.message;
      var transition := if sameVerdict then previous.value.lastTransitionTime else now;
      observedGeneration, this.readyApis := generation, readyApis;
      conditions := [TypedCondition("Ready", Condition(verdict, transition))];
    }
  }

  function Stamped(previous: Option<Condition>, verdict: Verdict, now: int): Condition {
    Condition(verdict, if previous.Some? && previous.value.verdict == verdict
                       then previous.value.lastTransitionTime else now)
  }

  /** The condition after a history of reconciliations that began with an empty status. */
  function After(rounds: seq<Round>): Option<Condition> {
    if rounds == [] then None
    else
      var previous, last := After(rounds[..|rounds| - 1]), rounds[|rounds| - 1];
      if last.Temporary? then previous else Some(Stamped(previous, last.verdict, last.now))
  }

  /** The generation that the last write of a history named. */
  function LastGeneration(rounds: seq<Round>): Option<int> {
    if rounds == [] then None
    else if rounds[|rounds| - 1].Wrote? then Some(rounds[|rounds| - 1].generation)
    else LastGeneration(rounds[..|rounds| - 1])
  }

  /** A history of reconciliations on a resource whose status is empty. */
  method Replay(rounds: seq<Round>) returns (status: KopfStatus)
    ensures fresh(status) && FirstReady(status.conditions) == After(rounds)
    ensures LastGeneration(rounds).Some? ==> LastGeneration(rounds) == Some(status.observedGeneration)
  {
    status := new KopfStatus();
    for i := 0 to |rounds|
      invariant fresh(status) && FirstReady(status.conditions) == After(rounds[..i])
      invariant LastGeneration(rounds[..i]).Some? ==> LastGeneration(rounds[..i]) == Some(status.observedGeneration)
    {
      assert rounds[..i + 1][..i] == rounds[..i];
      match rounds[i] {
        case Temporary =>
        case Wrote(generation, readyApis, verdict, now) => status.SetStatus(generation, readyApis, verdict, now);
      }
    }
    assert rounds[..|rounds|] == rounds;
  }

  /** Round i wrote, and every later write gave the same verdict. */
  ghost predicate InLastBlock(rounds: seq<Round>, i: nat) {
    && i < |rounds| && rounds[i].Wrote?
    && forall j | i <= j < |rounds| && rounds[j].Wrote? :: rounds[j].verdict == rounds[i].verdict
  }

  /** Round i is the first write of the maximal block of equal verdicts that the history ends with. */
  ghost predicate StartsLastBlock(rounds: seq<Round>, i: nat) {
    InLastBlock(rounds, i) && forall j: nat | InLastBlock(rounds, j) :: i <= j
  }

  /** For every history, lastTransitionTime is the time of the first write of the block of equal
      verdicts it ends with; rounds that raise TemporaryError do not move it. */
  lemma {:induction false} TransitionTimeStartsBlock(rounds: seq<Round>, i: nat)
    requires StartsLastBlock(rounds, i)
    ensures After(rounds) == Some(Condition(rounds[i].verdict, rounds[i].now))
    decreases |rounds|
  {
    var n := |rounds| - 1;
    var init, last := rounds[..n], rounds[n];
    if last.Temporary? {
      forall j: nat ensures InLastBlock(init, j) <==> InLastBlock(rounds, j) {
        BlockOfInit(rounds, j);
      }
      TransitionTimeStartsBlock(init, i);
    } else if i < n {
      forall j: nat | InLastBlock(init, j) ensures i <= j {
        BlockOfInit(rounds, j);
        BlockOfInit(rounds, i);
        SameBlockSameVerdict(init, i, j);
      }
      BlockOfInit(rounds, i);
      TransitionTimeStartsBlock(init, i);
    } else {
      LastVerdictIsNew(rounds);
    }
  }

  lemma BlockHasStart(rounds: seq<Round>, k: nat) returns (i: nat)
    requires InLastBlock(rounds, k)
    ensures StartsLastBlock(rounds, i)
    decreases k
  {
    if j: nat :| j < k && InLastBlock(rounds, j) { i := BlockHasStart(rounds, j); } else { i := k; }
  }

  /** Whenever a condition has been written there is such a block, so its transition time is always
      the time of an earlier write. */
  lemma TransitionTimeIsAWrite(rounds: seq<Round>) returns (i: nat)
    requires After(rounds).Some?
    ensures StartsLastBlock(rounds, i) && After(rounds) == Some(Condition(rounds[i].verdict, rounds[i].now))
  {
    var k := LastWrite(rounds);
    i := BlockHasStart(rounds, k);
    TransitionTimeStartsBlock(rounds, i);
  }

  lemma BlockOfInit(rounds: seq<Round>, j: nat)
    requires rounds != []
    ensures var n := |rounds| - 1;
            j < n ==> (InLastBlock(rounds, j) <==>
                         InLastBlock(rounds[..n], j) && (rounds[n].Wrote? ==> rounds[n].verdict == rounds[j].verdict))
  {
    var n := |rounds| - 1;
    assert forall k | 0 <= k < n :: rounds[..n][k] == rounds[k];
  }

  lemma SameBlockSameVerdict(rounds: seq<Round>, i: nat, j: nat)
    requires InLastBlock(rounds, i) && InLastBlock(rounds, j)
    ensures rounds[i].verdict == rounds[j].verdict
  {}

  /** When the last round starts the block, the condition before it gave another verdict. */
  lemma LastVerdictIsNew(rounds: seq<Round>)
    requires rounds != [] && StartsLastBlock(rounds, |rounds| - 1)
    ensures var n := |rounds| - 1;
            After(rounds[..n]).Some? ==> After(rounds[..n]).value.verdict != rounds[n].verdict
  {
    var n := |rounds| - 1;
    var init := rounds[..n];
    if After(init).Some? {
      var k := LastWrite(init);
      if init[k].verdict == rounds[n].verdict {
        assert InLastBlock(init, k);
        BlockOfInit(rounds, k);
        assert false;
      }
    }
  }

  lemma {:induction false} LastWrite(rounds: seq<Round>) returns (k: nat)
    requires After(rounds).Some?
    ensures k < |rounds| && rounds[k].Wrote? && After(rounds).value.verdict == rounds[k].verdict
    ensures forall j | k < j < |rounds| :: rounds[j].Temporary?
    decreases |rounds|
  {
    var n := |rounds| - 1;
    if rounds[n].Wrote? { k := n; } else { k := LastWrite(rounds[..n]); }
  }
}
