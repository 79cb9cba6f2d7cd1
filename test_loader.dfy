/** The step driver (Framework/lambda/TestLoader.py): it advances the step cursor of one test
    and returns the next step, or the `Completed` marker once every step has run. */
module TestLoader {
  import opened Wrappers
  import opened Events
  import opened ScenarioIds
  import opened Audit

  /** The handler's result: `test_scenario_id`, `step_id`, `type` and `test`. */
  datatype StepOutput = StepOutput(scenarioId: string, stepId: int, kind: Json, test: Json)

  const CompletedTag: string := "Completed"

  /** How the f-string at line 60 renders the operation: a string as itself, any other value
      with Python's `str()`, which is `show`. */
  function Interpolate(show: Json -> string, op: Json): (r: string)
    ensures op.JStr? ==> r == op.s
    ensures !op.JStr? ==> r == show(op)
  {
    if op.JStr? then op.s else show(op)
  }

  /** Lines 37-45 and 59-64 at the advanced cursor `c`. */
  function Select(testId: string, steps: seq<Json>, c: int, show: Json -> string): (r: Result<StepOutput, Fault>)
    requires 0 <= c <= |steps|
    ensures r.Ok? ==> r.value.stepId == c
    ensures c == |steps| ==> r == Ok(StepOutput(ScenarioId(testId, CompletedTag), c, JStr(CompletedTag), JNull))
    ensures c < |steps| ==>
              (r.Ok? <==> Field(steps[c], "operation").Ok? && Field(steps[c], "input").Ok?)
    ensures c < |steps| && r.Ok? ==>
              && r.value.kind == Field(steps[c], "operation").value
              && r.value.test == Field(steps[c], "input").value
              && r.value.scenarioId == ScenarioId(testId, Interpolate(show, r.value.kind))
    ensures c < |steps| && r.Ok? && r.value.kind.JStr? ==> r.value.scenarioId == ScenarioId(testId, r.value.kind.s)
    ensures c < |steps| && r.Err? ==>
              r.error == if Field(steps[c], "operation").Err? then Field(steps[c], "operation").error
                         else Field(steps[c], "input").error
  {
    if c == |steps| then Ok(StepOutput(ScenarioId(testId, CompletedTag), c, JStr(CompletedTag), JNull))
    else
      match Field(steps[c], "operation")
      case Err(f) => Err(f)
      case Ok(op) =>
        match Field(steps[c], "input")
        case Err(f) => Err(f)
        case Ok(input) => Ok(StepOutput(ScenarioId(testId, Interpolate(show, op)), c, op, input))
  }

  /** Lines 48-55: the START record of the step at cursor `c`, naming the steps left after it. */
  function StartRecord(groupId: Json, testId: string, remaining: nat, now: string): Record
  {
    Record(groupId, JStr(ScenarioId(testId, NatToString(remaining))), JStr("START"),
           JStr("Remaining Steps: " + NatToString(remaining)), JStr("Iteration Started"), now)
  }

  /** The records a call at cursor `c` writes: one START record unless the test is complete
      or the table refuses the group id. It is written before the step's fields are read, so
      a malformed step is logged too. */
  function Logged(groupId: Json, testId: string, steps: seq<Json>, c: int, now: string): seq<Record>
    requires 0 <= c <= |steps|
  {
    if c == |steps| || !KeyString(groupId) then [] else [StartRecord(groupId, testId, |steps| - c - 1, now)]
  }

  /** What a call at cursor `c` returns: the `put_item` of its START record raises first on a
      group id the table refuses, and otherwise the step is selected. */
  function Reply(groupId: Json, testId: string, steps: seq<Json>, c: int, show: Json -> string): (r: Result<StepOutput, Fault>)
    requires 0 <= c <= |steps|
    ensures c < |steps| && !KeyString(groupId) ==> r == Err(ValidationException)
    ensures c == |steps| || KeyString(groupId) ==> r == Select(testId, steps, c, show)
  {
    if c < |steps| && !KeyString(groupId) then Err(ValidationException) else Select(testId, steps, c, show)
  }

  /** The handler. The cursor is the previous step's, starting from -1. */
  method Handle(groupId: Json, testId: string, steps: seq<Json>, stepId: int, show: Json -> string, now: string, log: LogTable)
    returns (r: Result<StepOutput, Fault>)
    requires -1 <= stepId < |steps|
    modifies log
    ensures r == Reply(groupId, testId, steps, stepId + 1, show)
    ensures log.records == old(log.records) + Logged(groupId, testId, steps, stepId + 1, now)
  {
    var c := stepId;
    c := c + 1;
    if c == |steps| {
      return Ok(StepOutput(ScenarioId(testId, CompletedTag), c, JStr(CompletedTag), JNull));
    }
    var step := steps[c];
    var raised := log.PutItem(StartRecord(groupId, testId, |steps| - c - 1, now));
    if raised.Some? {
      return Err(raised.value);
    }
    var op := Field(step, "operation");
    if op.Err? {
      return Err(op.error);
    }
    var input := Field(step, "input");
    if input.Err? {
      return Err(input.error);
    }
    return Ok(StepOutput(ScenarioId(testId, Interpolate(show, op.value)), c, op.value, input.value));
  }

  /** Two cursors of the same test never log under the same scenario id. */
  lemma LoggedIdsDistinct(groupId: Json, testId: string, steps: seq<Json>, c1: int, c2: int, now: string)
    requires 0 <= c1 < |steps| && 0 <= c2 < |steps| && c1 != c2
    ensures StartRecord(groupId, testId, |steps| - c1 - 1, now).scenarioId != StartRecord(groupId, testId, |steps| - c2 - 1, now).scenarioId
  {
    NatToStringInjective(|steps| - c1 - 1, |steps| - c2 - 1);
    ScenarioIdSteps(testId, NatToString(|steps| - c1 - 1), NatToString(|steps| - c2 - 1));
  }

  /** The id returned for a step names its operation and differs from every logged START id,
      unless the operation's text is a decimal count. */
  lemma ReturnedIdNotLogged(groupId: Json, testId: string, steps: seq<Json>, c: int, show: Json -> string, now: string, m: nat)
    requires 0 <= c <= |steps| && Select(testId, steps, c, show).Ok?
    requires c == |steps| || !AllDigits(Interpolate(show, Field(steps[c], "operation").value))
    ensures Select(testId, steps, c, show).value.scenarioId != ScenarioId(testId, NatToString(m))
  {
    var r := Select(testId, steps, c, show).value;
    if c == |steps| {
      ScenarioIdSteps(testId, CompletedTag, NatToString(m));
      assert !IsDigit(CompletedTag[0]);
    } else {
      ScenarioIdSteps(testId, Interpolate(show, r.kind), NatToString(m));
    }
  }
}
