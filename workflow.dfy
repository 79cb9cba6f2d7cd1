/** The state machine of Framework/lib/framework-stack.ts (lines 501-568) over the handlers:
    the choice on a loaded step's `type`, the per-test loop of the Map state, the group loop
    over iterations, and the top-level chain. The adapters, the waiter and the text renderings
    are parameters. Tests of one batch run one after the other here. */
module Workflow {
  import opened Wrappers
  import opened Events
  import opened ScenarioIds
  import opened Audit
  import opened Names
  import Resolver
  import ResolverProperties
  import Parser
  import IterationLoader
  import TestLoader
  import StepLogger
  import TestFinisher
  import IterationsFinisher

  // ---------------------------------------------------------------------------
  // Lines 501-542: the choice state and the unknown-operation pass state.

  datatype Route = AdapterState(tag: string) | WaiterState | FinishTestState | UnknownOperationState

  /** The `.when` rules, in order. */
  const Rules: seq<(string, Route)> := [
    ("CreateEntry", AdapterState("CreateEntry")), ("CreateTable", AdapterState("CreateTable")),
    ("GetEntry", AdapterState("GetEntry")), ("UpdateEntry", AdapterState("UpdateEntry")),
    ("DeleteEntry", AdapterState("DeleteEntry")), ("DeleteTable", AdapterState("DeleteTable")),
    ("DoesEntryExist", AdapterState("DoesEntryExist")), ("DoesTableExist", AdapterState("DoesTableExist")),
    ("CreateBucket", AdapterState("CreateBucket")), ("CreateFile", AdapterState("CreateFile")),
    ("DeleteFile", AdapterState("DeleteFile")), ("DeleteBucket", AdapterState("DeleteBucket")),
    ("DoesBucketExist", AdapterState("DoesBucketExist")), ("DoesFileExist", AdapterState("DoesFileExist")),
    ("ReadFile", AdapterState("ReadFile")), ("CreateTopic", AdapterState("CreateTopic")),
    ("DeleteTopic", AdapterState("DeleteTopic")), ("DoesTopicExist", AdapterState("DoesTopicExist")),
    ("PublishMessage", AdapterState("PublishMessage")), ("SendMessage", AdapterState("SendMessage")),
    ("ReadMessage", AdapterState("ReadMessage")), ("DeleteMessage", AdapterState("DeleteMessage")),
    ("DoesQueueExist", AdapterState("DoesQueueExist")), ("CreateQueue", AdapterState("CreateQueue")),
    ("DeleteQueue", AdapterState("DeleteQueue")),
    ("Wait", WaiterState), ("Completed", FinishTestState)]

  predicate IsAdapterTag(t: string)
  {
    exists i :: 0 <= i < |Rules| - 2 && Rules[i].0 == t
  }

  /** The first rule whose string equals `kind`, or the `otherwise` branch. */
  function FirstMatch(rules: seq<(string, Route)>, kind: Json): Route
  {
    if rules == [] then UnknownOperationState
    else if kind == JStr(rules[0].0) then rules[0].1
    else FirstMatch(rules[1..], kind)
  }

  lemma {:induction false} FirstMatchFinds(rules: seq<(string, Route)>, i: nat, kind: Json)
    requires i < |rules| && kind == JStr(rules[i].0)
    requires forall j :: 0 <= j < i ==> rules[j].0 != rules[i].0
    ensures FirstMatch(rules, kind) == rules[i].1
  {
    if i > 0 {
      FirstMatchFinds(rules[1..], i - 1, kind);
    }
  }

  lemma {:induction false} FirstMatchMisses(rules: seq<(string, Route)>, kind: Json)
    requires forall j :: 0 <= j < |rules| ==> kind != JStr(rules[j].0)
    ensures FirstMatch(rules, kind) == UnknownOperationState
  {
    if rules != [] {
      FirstMatchMisses(rules[1..], kind);
    }
  }

  /** The rules test distinct strings, so at most one of them matches a step. */
  lemma RulesDistinct()
    ensures forall i, j :: 0 <= i < j < |Rules| ==> Rules[i].0 != Rules[j].0
  {
  }

  lemma RulesShape()
    ensures |Rules| == 27
    ensures forall i :: 0 <= i < |Rules| - 2 ==> Rules[i].1 == AdapterState(Rules[i].0)
    ensures Rules[25] == ("Wait", WaiterState) && Rules[26] == ("Completed", FinishTestState)
  {
  }

  /** The choice state: each adapter tag to its own adapter state, `Wait` to the waiter,
      `Completed` to the test finisher, anything else to the unknown-operation state. */
  function Choose(kind: Json): (r: Route)
    ensures r.AdapterState? <==> kind.JStr? && IsAdapterTag(kind.s)
    ensures r.AdapterState? ==> kind == JStr(r.tag)
    ensures r == WaiterState <==> kind == JStr("Wait")
    ensures r == FinishTestState <==> kind == JStr("Completed")
  {
    RulesDistinct();
    RulesShape();
    if exists i :: 0 <= i < |Rules| && kind == JStr(Rules[i].0) then
      var i :| 0 <= i < |Rules| && kind == JStr(Rules[i].0);
      FirstMatchFinds(Rules, i, kind);
      FirstMatch(Rules, kind)
    else
      FirstMatchMisses(Rules, kind);
      FirstMatch(Rules, kind)
  }

  // ---------------------------------------------------------------------------
  // What the branches write at `$.testResult`.

  /** What the model takes as given: the adapter lambdas (the `Payload` each returns for its
      tag and input, or the exception it raises, and the other fields of the invocation's
      result, such as its status code and its HTTP metadata), whether the waiter, handed a
      `wait_time`, sleeps and reports success within its Lambda's timeout, `States.Format`
      of a step type, Python's `str()` of a step operation and of the iteration list, and
      the handlers' timestamp. */
  datatype Env = Env(adapter: (string, Json) -> Result<Json, Fault>, invocation: (string, Json) -> map<string, Json>,
                     waits: Json -> bool, format: Json -> string, show: Json -> string,
                     render: seq<seq<Name>> -> string, now: string)

  /** The waiter Lambda's timeout in seconds (three minutes, line 95). */
  const WaiterTimeout: int := 180

  /** What `time.sleep(float(wait_time))` in Waiter.py, under that timeout, surely refuses:
      `float()` of null, a list or an object raises TypeError, `time.sleep` of a negative
      number raises ValueError, and a sleep of the whole timeout or more never reaches
      `send_task_success`. Strings and booleans are left to `waits`: `float()` accepts some. */
  ghost predicate WaiterAsWritten(env: Env)
  {
    forall v: Json :: (v.JNull? || v.JArr? || v.JObj? || (v.JNum? && (v.n < 0 || v.n >= WaiterTimeout))) ==> !env.waits(v)
  }

  /** What stops an execution: a handler or state that raises, or the parser's own failure. */
  datatype Stop = Raised(fault: Fault) | ParserStopped(failure: Parser.ParseFailure)

  /** The records an execution leaves in the log table, in order, and what stopped it before
      the group finished, if anything. Records written before a failure stay in the table. */
  datatype Trace = Trace(records: seq<Record>, stopped: Option<Stop>)

  function Then(records: seq<Record>, t: Trace): Trace
  {
    Trace(records + t.records, t.stopped)
  }

  const UnknownPrefix: string := "Unknown Operation Requested: "

  /** `States.Format` of one argument inserts it as the loader's f-string does: a string as
      itself, any other value as its JSON text, which is `format` (where the f-string has
      Python's `str()`). */
  function StatesFormat(format: Json -> string, v: Json): (r: string)
    ensures v.JStr? ==> r == v.s
    ensures !v.JStr? ==> r == format(v)
  {
    TestLoader.Interpolate(format, v)
  }
  const WaitComplete: Json := JObj(map["status" := JStr("SUCCESS"), "response" := JStr("Wait Complete")])

  /** The loaded step as the loader's `resultSelector` writes it at `$.Payload`. */
  function StepJson(out: TestLoader.StepOutput): Json
  {
    JObj(map["test_scenario_id" := JStr(out.scenarioId), "step_id" := JNum(out.stepId),
             "type" := out.kind, "test" := out.test])
  }

  /** Lines 553-559: the Map parameters of one test; its cursor starts at -1. */
  function ItemState(testId: string, steps: Json, table: string, groupId: Json): map<string, Json>
  {
    map["test_id" := JStr(testId), "steps" := steps, "Payload" := JObj(map["step_id" := JNum(-1)]),
        "log_table_name" := JStr(table), "test_group_id" := groupId]
  }

  /** The state after a step is loaded: `$.Payload` replaced, `$.testResult` as the previous
      round left it (absent before the first step). */
  function StepState(item: map<string, Json>, out: TestLoader.StepOutput, testResult: Option<Json>): map<string, Json>
  {
    var s := item["Payload" := StepJson(out)];
    if testResult.Some? then s["testResult" := testResult.value] else s
  }

  /** The branch taken for a step that is not `Completed`. An adapter state replaces
      `$.testResult` with the lambda's whole invocation result, its `Payload` and the
      invocation's other fields; the waiter writes only `$.testResult.Payload`,
      so the other fields of the previous result stay, and fails when `wait_time` is missing or
      refused; the pass state for unknown operations writes a FAILED payload naming the type. */
  function Perform(env: Env, route: Route, out: TestLoader.StepOutput, prior: Option<Json>): (r: Result<Json, Fault>)
    requires route != FinishTestState
    ensures r.Err? <==> || (route == WaiterState && (Field(out.test, "wait_time").Err? ||
                                                     !env.waits(Field(out.test, "wait_time").value)))
                        || (route.AdapterState? && env.adapter(route.tag, out.test).Err?)
    ensures r.Err? && route == WaiterState ==>
              r.error == if Field(out.test, "wait_time").Err? then StatesRuntime else WaiterFailed
    ensures r.Err? && route.AdapterState? ==> r.error == env.adapter(route.tag, out.test).error
    ensures r.Ok? ==> r.value.JObj? && "Payload" in r.value.fields
    ensures r.Ok? && route.AdapterState? ==> r.value.fields["Payload"] == env.adapter(route.tag, out.test).value
    ensures r.Ok? && route.AdapterState? ==>
              && r.value.fields.Keys == env.invocation(route.tag, out.test).Keys + {"Payload"}
              && forall k :: k in env.invocation(route.tag, out.test) && k != "Payload" ==>
                   r.value.fields[k] == env.invocation(route.tag, out.test)[k]
    ensures r.Ok? && route == WaiterState ==> r.value.fields["Payload"] == WaitComplete
    ensures r.Ok? && route == UnknownOperationState ==>
              r.value.fields["Payload"] == JObj(map["status" := JStr("FAILED"),
                                                    "message" := JStr(UnknownPrefix + StatesFormat(env.format, out.kind))])
    ensures r.Ok? && route == WaiterState && prior.Some? && prior.value.JObj? ==>
              forall k :: k in prior.value.fields && k != "Payload" ==> k in r.value.fields && r.value.fields[k] == prior.value.fields[k]
  {
    match route
    case AdapterState(tag) =>
      (match env.adapter(tag, out.test)
       case Err(f) => Err(f)
       case Ok(payload) => Ok(JObj(env.invocation(tag, out.test)["Payload" := payload])))
    case WaiterState =>
      (match Field(out.test, "wait_time")
       case Err(_) => Err(StatesRuntime)
       case Ok(w) =>
         if !env.waits(w) then Err(WaiterFailed) else
         var kept := if prior.Some? && prior.value.JObj? then prior.value.fields else map[];
         Ok(JObj(kept["Payload" := WaitComplete])))
    case UnknownOperationState =>
      Ok(JObj(map["Payload" := JObj(map["status" := JStr("FAILED"),
                                        "message" := JStr(UnknownPrefix + StatesFormat(env.format, out.kind))])]))
  }

  // ---------------------------------------------------------------------------
  // Line 546: the per-test loop, load-next-step then the choice.

  /** How one round of a test's loop ends: a state raised, the test finisher ran, or a step
      was logged and the loop goes on with the branch's result at `$.testResult`. */
  datatype Round = Stopped(written: seq<Record>, fault: Fault)
                 | Finished(written: seq<Record>)
                 | Continues(written: seq<Record>, result: Json)

  /** One round at cursor `c`: load the step, then finish the test on `Completed`, or run the
      chosen branch and log its result. `prior` is the `$.testResult` the previous round left.
      The loader's START record comes first whatever happens next, and the loop can go on
      only while a step is left. */
  function StepRound(env: Env, table: string, groupId: Json, testId: string, steps: seq<Json>, c: int, prior: Option<Json>)
    : (r: Round)
    requires 0 <= c <= |steps|
    ensures TestLoader.Logged(groupId, testId, steps, c, env.now) <= r.written
    ensures r.Continues? ==> c < |steps|
  {
    var item := ItemState(testId, JArr(steps), table, groupId);
    var loaded := TestLoader.Logged(groupId, testId, steps, c, env.now);
    match TestLoader.Reply(groupId, testId, steps, c, env.show)
    case Err(f) => Stopped(loaded, f)
    case Ok(out) =>
      var route := Choose(out.kind);
      if route == FinishTestState then
        match TestFinisher.FinishRecord(StepState(item, out, prior), env.now)
        case Err(f) => Stopped(loaded, f)
        case Ok(finish) => if KeyAccepted(finish) then Finished(loaded + [finish]) else Stopped(loaded, ValidationException)
      else
        match Perform(env, route, out, prior)
        case Err(f) => Stopped(loaded, f)
        case Ok(result) =>
          match StepLogger.StepRecord(StepState(item, out, Some(result)), env.now)
          case Err(f) => Stopped(loaded, f)
          case Ok(step) => if KeyAccepted(step) then Continues(loaded + [step], result) else Stopped(loaded, ValidationException)
  }

  /** Line 546: one test's branch from cursor `stepId`, round after round until the test
      finishes or a state raises. */
  function RunTest(env: Env, table: string, groupId: Json, testId: string, steps: seq<Json>, stepId: int, prior: Option<Json>): Trace
    requires -1 <= stepId < |steps|
    decreases |steps| - stepId
  {
    match StepRound(env, table, groupId, testId, steps, stepId + 1, prior)
    case Stopped(written, f) => Trace(written, Some(Raised(f)))
    case Finished(written) => Trace(written, None)
    case Continues(written, result) => Then(written, RunTest(env, table, groupId, testId, steps, stepId + 1, Some(result)))
  }

  /** One Map item: its `steps` must be a list for the loader to index it. */
  function RunItem(env: Env, table: string, groupId: Json, e: Parser.TestEntry): Trace
  {
    if !e.steps.JArr? then Trace([], Some(Raised(TypeError)))
    else RunTest(env, table, groupId, e.testId, e.steps.items, -1, None)
  }

  /** Lines 548-560: every test of a batch, each from cursor -1; the Map fails when one of
      its branches does. */
  function RunBatch(env: Env, table: string, groupId: Json, tests: seq<Parser.TestEntry>): Trace
    decreases |tests|
  {
    if tests == [] then Trace([], None)
    else
      var first := RunItem(env, table, groupId, tests[0]);
      if first.stopped.Some? then first
      else Then(first.records, RunBatch(env, table, groupId, tests[1..]))
  }

  // ---------------------------------------------------------------------------
  // Lines 561-568: the group loop and the top-level chain.

  const CompletedPayload: Json := JObj(map["completed" := JBool(true), "tests" := JNull, "iterations" := JNull])

  /** The state the group finisher receives: the event as the workflow holds it (its
      `test_group` untouched, since the parser mutates only its own copy) and the loader's
      completed result at `$.Payload`. */
  function GroupState(event: Parser.ParseEvent): map<string, Json>
  {
    Parser.EventJson(event).fields["Payload" := CompletedPayload]
  }

  /** Load the next iteration; on `completed` finish the group, otherwise run the batch and
      load again with the returned pending list. */
  function RunGroup(env: Env, event: Parser.ParseEvent, pending: seq<seq<Parser.TestEntry>>): Trace
    decreases |pending|
  {
    var loaded := IterationLoader.Logged(event.testGroupId, pending, env.now);
    match IterationLoader.Reply(event.testGroupId, pending)
    case Err(f) => Trace(loaded, Some(Raised(f)))
    case Ok(out) =>
      if out.completed then
        match IterationsFinisher.GroupRecord(GroupState(event), env.now)
        case Err(f) => Trace(loaded, Some(Raised(f)))
        case Ok(finish) =>
          if KeyAccepted(finish) then Trace(loaded + [finish], None) else Trace(loaded, Some(Raised(ValidationException)))
      else
        var batch := RunBatch(env, event.logTableName, event.testGroupId, out.tests.value);
        if batch.stopped.Some? then Then(loaded, batch)
        else Then(loaded + batch.records, RunGroup(env, event, out.iterations.value))
  }

  /** Line 568: parse once, then the group loop. */
  function Run(env: Env, event: Parser.ParseEvent, bucket: Name -> Option<Json>): Trace
    requires Resolver.WellFormed(event.testGroup)
  {
    var logged := Parser.Logged(event, env.render, env.now);
    match Parser.Parse(event, bucket)
    case Err(f) => Trace(logged, Some(ParserStopped(f)))
    case Ok(its) => Then(logged, RunGroup(env, event, its))
  }

  // ---------------------------------------------------------------------------
  // Properties of an execution.

  /** A step the loader and the branch it selects can run: it has `operation` and `input`,
      its operation is not `Completed`, and a `Wait` step names a `wait_time` the waiter
      accepts. */
  predicate RunnableStep(env: Env, step: Json)
  {
    && Field(step, "operation").Ok? && Field(step, "input").Ok?
    && Field(step, "operation").value != JStr("Completed")
    && (Field(step, "operation").value == JStr("Wait") ==>
          && Field(Field(step, "input").value, "wait_time").Ok?
          && env.waits(Field(Field(step, "input").value, "wait_time").value))
  }

  /** Every adapter returns without raising, and answers with an object, as the step logger
      needs. */
  ghost predicate AdaptersAnswer(env: Env)
  {
    forall tag, test :: env.adapter(tag, test).Ok? && env.adapter(tag, test).value.JObj?
  }

  /** Once every step has run, the loader reports `Completed` and the test finisher writes
      the test's FINISH record; nothing else is written. */
  lemma RoundFinishes(env: Env, table: string, groupId: Json, testId: string, steps: seq<Json>, prior: Option<Json>)
    returns (finish: Record)
    requires KeyString(groupId)
    ensures StepRound(env, table, groupId, testId, steps, |steps|, prior) == Finished([finish])
    ensures finish.groupId == groupId && finish.status == JStr("FINISH")
    ensures finish.scenarioId == JStr(ScenarioId(testId, TestLoader.CompletedTag))
  {
    var item := ItemState(testId, JArr(steps), table, groupId);
    var out := TestLoader.Select(testId, steps, |steps|, env.show).value;
    TestFinisher.FinishRecordDefined(StepState(item, out, prior), env.now);
    finish := TestFinisher.FinishRecord(StepState(item, out, prior), env.now).value;
  }

  /** A branch other than `Completed` that does not raise hands the step logger a result it
      can log: the record names the group and the loaded step. */
  lemma BranchLogs(env: Env, item: map<string, Json>, out: TestLoader.StepOutput, prior: Option<Json>)
    returns (result: Json, step: Record)
    requires AdaptersAnswer(env)
    requires Choose(out.kind) != FinishTestState
    requires Choose(out.kind) == WaiterState ==> Field(out.test, "wait_time").Ok? && env.waits(Field(out.test, "wait_time").value)
    requires "log_table_name" in item && "test_group_id" in item
    ensures Perform(env, Choose(out.kind), out, prior) == Ok(result)
    ensures StepLogger.StepRecord(StepState(item, out, Some(result)), env.now) == Ok(step)
    ensures step.groupId == item["test_group_id"] && step.scenarioId == JStr(out.scenarioId)
  {
    result := Perform(env, Choose(out.kind), out, prior).value;
    var state := StepState(item, out, Some(result));
    assert result.fields["Payload"].JObj?;
    StepLogger.StepRecordDefined(state, env.now);
    StepLogger.StepRecordIdentity(state, env.now);
    step := StepLogger.StepRecord(state, env.now).value;
  }

  /** A round whose step loads, selects a branch other than `Completed`, and is logged,
      continues with that branch's result. */
  lemma RoundContinues(env: Env, table: string, groupId: Json, testId: string, steps: seq<Json>, c: int, prior: Option<Json>,
                       out: TestLoader.StepOutput, result: Json, step: Record)
    requires 0 <= c < |steps| && KeyString(groupId)
    requires TestLoader.Select(testId, steps, c, env.show) == Ok(out)
    requires Choose(out.kind) != FinishTestState
    requires Perform(env, Choose(out.kind), out, prior) == Ok(result)
    requires StepLogger.StepRecord(StepState(ItemState(testId, JArr(steps), table, groupId), out, Some(result)), env.now) == Ok(step)
    requires KeyAccepted(step)
    ensures StepRound(env, table, groupId, testId, steps, c, prior)
            == Continues([TestLoader.StartRecord(groupId, testId, |steps| - c - 1, env.now), step], result)
  {
    var loaded := TestLoader.Logged(groupId, testId, steps, c, env.now);
    assert loaded == [TestLoader.StartRecord(groupId, testId, |steps| - c - 1, env.now)];
    assert loaded + [step] == [TestLoader.StartRecord(groupId, testId, |steps| - c - 1, env.now), step];
  }

  /** One round on a runnable step: its START record, the step record of the branch it
      selects, then the loop again from the next cursor with the branch's result as the
      `$.testResult` it carries. */
  lemma RoundRuns(env: Env, table: string, groupId: Json, testId: string, steps: seq<Json>, stepId: int, prior: Option<Json>)
    returns (step: Record, result: Json)
    requires AdaptersAnswer(env) && KeyString(groupId)
    requires -1 <= stepId < |steps| - 1 && RunnableStep(env, steps[stepId + 1])
    ensures StepRound(env, table, groupId, testId, steps, stepId + 1, prior)
            == Continues([TestLoader.StartRecord(groupId, testId, |steps| - stepId - 2, env.now), step], result)
    ensures step.groupId == groupId
    ensures step.scenarioId == StepScenario(env, testId, steps[stepId + 1])
  {
    var c := stepId + 1;
    var item := ItemState(testId, JArr(steps), table, groupId);
    var out := TestLoader.Select(testId, steps, c, env.show).value;
    assert TestLoader.Select(testId, steps, c, env.show) == Ok(out);
    assert out.kind == Field(steps[c], "operation").value && out.test == Field(steps[c], "input").value;
    result, step := BranchLogs(env, item, out, prior);
    RoundContinues(env, table, groupId, testId, steps, c, prior, out, result, step);
  }

  /** Every step of `steps` is runnable. */
  predicate AllRunnable(env: Env, steps: seq<Json>)
  {
    forall k :: 0 <= k < |steps| ==> RunnableStep(env, steps[k])
  }

  /** The scenario id the loader gives a runnable step: `T<id>:S<operation>`. */
  function StepScenario(env: Env, testId: string, step: Json): Json
    requires RunnableStep(env, step)
  {
    JStr(ScenarioId(testId, TestLoader.Interpolate(env.show, Field(step, "operation").value)))
  }

  /** The scenario ids of runnable steps, in order. */
  function StepIds(env: Env, testId: string, steps: seq<Json>): (ids: seq<Json>)
    requires AllRunnable(env, steps)
    ensures |ids| == |steps|
    ensures forall k :: 0 <= k < |steps| ==> ids[k] == StepScenario(env, testId, steps[k])
  {
    if steps == [] then [] else [StepScenario(env, testId, steps[0])] + StepIds(env, testId, steps[1..])
  }

  /** What a test that ran `n` steps and then `Completed` leaves in the table: for each step a
      START record, whose remaining count goes down to 0, and the step record under the
      step's scenario id; then the FINISH record of `T<id>:S<Completed>`. Every record
      belongs to the group, and nothing stopped the test. */
  predicate CompletedTest(t: Trace, n: nat, groupId: Json, testId: string, now: string, ids: seq<Json>)
  {
    && |ids| == n
    && t.stopped == None
    && |t.records| == 2 * n + 1
    && (forall k :: 0 <= k < n ==> t.records[2 * k] == TestLoader.StartRecord(groupId, testId, n - 1 - k, now))
    && (forall k :: 0 <= k < n ==> t.records[2 * k + 1].scenarioId == ids[k])
    && t.records[2 * n].status == JStr("FINISH")
    && t.records[2 * n].scenarioId == JStr(ScenarioId(testId, TestLoader.CompletedTag))
    && (forall i :: 0 <= i < |t.records| ==> t.records[i].groupId == groupId)
  }

  /** A round's two records in front of a completed rest make a completed test one step
      longer. */
  lemma CompletedShift(t: Trace, rest: Trace, step: Record, n: nat, groupId: Json, testId: string, now: string,
                       ids: seq<Json>, tail: seq<Json>)
    requires n >= 1 && |ids| == n && tail == ids[1..]
    requires t == Then([TestLoader.StartRecord(groupId, testId, n - 1, now), step], rest)
    requires step.groupId == groupId && step.scenarioId == ids[0]
    requires CompletedTest(rest, n - 1, groupId, testId, now, tail)
    ensures CompletedTest(t, n, groupId, testId, now, ids)
  {
    var start := TestLoader.StartRecord(groupId, testId, n - 1, now);
    forall k | 0 <= k < n
      ensures t.records[2 * k] == TestLoader.StartRecord(groupId, testId, n - 1 - k, now)
      ensures t.records[2 * k + 1].scenarioId == ids[k]
    {
      if k > 0 {
        assert t.records[2 * k] == rest.records[2 * (k - 1)];
        assert t.records[2 * k + 1] == rest.records[2 * (k - 1) + 1];
        assert ids[1..][k - 1] == ids[k];
      }
    }
    assert t.records[2 * n] == rest.records[2 * (n - 1)];
    forall i | 0 <= i < |t.records|
      ensures t.records[i].groupId == groupId
    {
      if i >= 2 {
        assert t.records[i] == rest.records[i - 2];
      }
    }
  }

  lemma AllRunnableTail(env: Env, testId: string, steps: seq<Json>, c: int)
    requires 0 <= c < |steps| && AllRunnable(env, steps[c..])
    ensures RunnableStep(env, steps[c]) && AllRunnable(env, steps[c + 1..])
    ensures StepIds(env, testId, steps[c..])[0] == StepScenario(env, testId, steps[c])
    ensures StepIds(env, testId, steps[c..])[1..] == StepIds(env, testId, steps[c + 1..])
  {
    assert steps[c..][0] == steps[c];
    assert steps[c..][1..] == steps[c + 1..];
  }

  /** A test whose steps are runnable goes round the loop once per step and leaves it only
      through `Completed`. */
  lemma {:induction false} RunTestCompletes(env: Env, table: string, groupId: Json, testId: string, steps: seq<Json>,
                                             stepId: int, prior: Option<Json>)
    requires AdaptersAnswer(env) && KeyString(groupId)
    requires -1 <= stepId < |steps| && AllRunnable(env, steps[stepId + 1..])
    ensures CompletedTest(RunTest(env, table, groupId, testId, steps, stepId, prior), |steps| - stepId - 1,
                          groupId, testId, env.now, StepIds(env, testId, steps[stepId + 1..]))
    decreases |steps| - stepId
  {
    if stepId == |steps| - 1 {
      RunTestLast(env, table, groupId, testId, steps, prior);
    } else {
      AllRunnableTail(env, testId, steps, stepId + 1);
      var step, result := RoundRuns(env, table, groupId, testId, steps, stepId, prior);
      RunTestCompletes(env, table, groupId, testId, steps, stepId + 1, Some(result));
      var rest := RunTest(env, table, groupId, testId, steps, stepId + 1, Some(result));
      var start := TestLoader.StartRecord(groupId, testId, |steps| - stepId - 2, env.now);
      RunTestContinues(env, table, groupId, testId, steps, stepId, prior, [start, step], result);
      CompletedShift(Then([start, step], rest), rest, step, |steps| - stepId - 1, groupId, testId, env.now,
                     StepIds(env, testId, steps[stepId + 1..]), StepIds(env, testId, steps[stepId + 2..]));
    }
  }

  /** From the last step the loop writes only the test's FINISH record. */
  lemma RunTestLast(env: Env, table: string, groupId: Json, testId: string, steps: seq<Json>, prior: Option<Json>)
    requires KeyString(groupId)
    ensures CompletedTest(RunTest(env, table, groupId, testId, steps, |steps| - 1, prior), 0,
                          groupId, testId, env.now, StepIds(env, testId, steps[|steps|..]))
  {
    var finish := RoundFinishes(env, table, groupId, testId, steps, prior);
    RunTestFinished(env, table, groupId, testId, steps, |steps| - 1, prior, [finish]);
    assert steps[|steps|..] == [];
    FinishOnly(finish, groupId, testId, env.now);
  }

  /** The FINISH record alone is a test that ran no step. */
  lemma FinishOnly(finish: Record, groupId: Json, testId: string, now: string)
    requires finish.groupId == groupId && finish.status == JStr("FINISH")
    requires finish.scenarioId == JStr(ScenarioId(testId, TestLoader.CompletedTag))
    ensures CompletedTest(Trace([finish], None), 0, groupId, testId, now, [])
  {
  }

  /** A round that finishes the test ends the loop. */
  lemma RunTestFinished(env: Env, table: string, groupId: Json, testId: string, steps: seq<Json>, stepId: int,
                        prior: Option<Json>, written: seq<Record>)
    requires -1 <= stepId < |steps|
    requires StepRound(env, table, groupId, testId, steps, stepId + 1, prior) == Finished(written)
    ensures RunTest(env, table, groupId, testId, steps, stepId, prior) == Trace(written, None)
  {
  }

  /** A round that continues is followed by the loop from the next cursor. */
  lemma RunTestContinues(env: Env, table: string, groupId: Json, testId: string, steps: seq<Json>, stepId: int,
                         prior: Option<Json>, written: seq<Record>, result: Json)
    requires -1 <= stepId < |steps| - 1
    requires StepRound(env, table, groupId, testId, steps, stepId + 1, prior) == Continues(written, result)
    ensures RunTest(env, table, groupId, testId, steps, stepId, prior)
            == Then(written, RunTest(env, table, groupId, testId, steps, stepId + 1, Some(result)))
  {
  }

  /** A three-step test started at cursor -1: the loader is called at cursors 0, 1 and 2,
      logging 2, 1 and 0 remaining steps, and a fourth time to report `Completed`. */
  lemma ThreeStepTest(env: Env, table: string, groupId: Json, testId: string, steps: seq<Json>)
    requires AdaptersAnswer(env) && KeyString(groupId) && |steps| == 3 && AllRunnable(env, steps)
    ensures var t := RunTest(env, table, groupId, testId, steps, -1, None);
            && t.stopped == None && |t.records| == 7
            && t.records[0].scenarioId == JStr("T<" + testId + ">:S<2>")
            && t.records[2].scenarioId == JStr("T<" + testId + ">:S<1>")
            && t.records[4].scenarioId == JStr("T<" + testId + ">:S<0>")
            && t.records[6].scenarioId == JStr("T<" + testId + ">:S<Completed>")
  {
    assert steps[0..] == steps;
    RunTestCompletes(env, table, groupId, testId, steps, -1, None);
    ThreeStepShape(RunTest(env, table, groupId, testId, steps, -1, None), groupId, testId, env.now, StepIds(env, testId, steps));
  }

  lemma ThreeStepShape(t: Trace, groupId: Json, testId: string, now: string, ids: seq<Json>)
    requires CompletedTest(t, 3, groupId, testId, now, ids)
    ensures |t.records| == 7
    ensures t.records[0].scenarioId == JStr("T<" + testId + ">:S<2>")
    ensures t.records[2].scenarioId == JStr("T<" + testId + ">:S<1>")
    ensures t.records[4].scenarioId == JStr("T<" + testId + ">:S<0>")
    ensures t.records[6].scenarioId == JStr("T<" + testId + ">:S<Completed>")
  {
    forall k | 0 <= k < 3
      ensures t.records[2 * k] == TestLoader.StartRecord(groupId, testId, 2 - k, now)
    {
    }
    assert t.records[2 * 0] == TestLoader.StartRecord(groupId, testId, 2, now);
    assert t.records[2 * 1] == TestLoader.StartRecord(groupId, testId, 1, now);
    assert t.records[2 * 2] == TestLoader.StartRecord(groupId, testId, 0, now);
    assert NatToString(2) == "2" && NatToString(1) == "1" && NatToString(0) == "0";
  }

  /** A step whose operation is the literal `Completed` is taken for the loader's own marker:
      the choice sends it to the test finisher, so the test ends there and the steps after
      it never run. */
  lemma CompletedStepEndsTest(env: Env, table: string, groupId: Json, testId: string, steps: seq<Json>, c: int, prior: Option<Json>)
    returns (finish: Record)
    requires 0 <= c < |steps| && KeyString(groupId)
    requires Field(steps[c], "operation") == Ok(JStr("Completed")) && Field(steps[c], "input").Ok?
    ensures RunTest(env, table, groupId, testId, steps, c - 1, prior)
            == Trace([TestLoader.StartRecord(groupId, testId, |steps| - c - 1, env.now), finish], None)
    ensures finish.status == JStr("FINISH") && finish.groupId == groupId
    ensures finish.scenarioId == JStr(ScenarioId(testId, TestLoader.CompletedTag))
  {
    finish := CompletedStepFinishes(env, table, groupId, testId, steps, c, prior);
  }

  lemma CompletedStepFinishes(env: Env, table: string, groupId: Json, testId: string, steps: seq<Json>, c: int, prior: Option<Json>)
    returns (finish: Record)
    requires 0 <= c < |steps| && KeyString(groupId)
    requires Field(steps[c], "operation") == Ok(JStr("Completed")) && Field(steps[c], "input").Ok?
    ensures StepRound(env, table, groupId, testId, steps, c, prior)
            == Finished([TestLoader.StartRecord(groupId, testId, |steps| - c - 1, env.now), finish])
    ensures finish.status == JStr("FINISH") && finish.groupId == groupId
    ensures finish.scenarioId == JStr(ScenarioId(testId, TestLoader.CompletedTag))
  {
    var item := ItemState(testId, JArr(steps), table, groupId);
    var out := TestLoader.Select(testId, steps, c, env.show).value;
    assert TestLoader.Select(testId, steps, c, env.show) == Ok(out) && out.kind == JStr("Completed");
    finish := FinishOf(item, out, prior, env.now);
    var loaded := TestLoader.Logged(groupId, testId, steps, c, env.now);
    assert loaded == [TestLoader.StartRecord(groupId, testId, |steps| - c - 1, env.now)];
    assert loaded + [finish] == [TestLoader.StartRecord(groupId, testId, |steps| - c - 1, env.now), finish];
  }

  /** The test finisher logs a loaded step in the Map item's state. */
  lemma FinishOf(item: map<string, Json>, out: TestLoader.StepOutput, prior: Option<Json>, now: string) returns (finish: Record)
    requires "log_table_name" in item && "test_group_id" in item
    ensures TestFinisher.FinishRecord(StepState(item, out, prior), now) == Ok(finish)
    ensures KeyString(item["test_group_id"]) && out.scenarioId != "" ==> KeyAccepted(finish)
    ensures finish.status == JStr("FINISH") && finish.groupId == item["test_group_id"]
    ensures finish.scenarioId == JStr(out.scenarioId)
  {
    TestFinisher.FinishRecordDefined(StepState(item, out, prior), now);
    finish := TestFinisher.FinishRecord(StepState(item, out, prior), now).value;
  }

  /** A branch that raises, an adapter Lambda, the waiter's path to `wait_time` or the
      waiter itself, stops the test after the loader's START record; the step itself is never
      logged. */
  lemma BranchRaises(env: Env, table: string, groupId: Json, testId: string, steps: seq<Json>, c: int, prior: Option<Json>)
    requires 0 <= c < |steps| && KeyString(groupId)
    requires Field(steps[c], "operation").Ok? && Field(steps[c], "input").Ok?
    requires var kind, test := Field(steps[c], "operation").value, Field(steps[c], "input").value;
             || (Choose(kind).AdapterState? && env.adapter(Choose(kind).tag, test).Err?)
             || (Choose(kind) == WaiterState && (Field(test, "wait_time").Err? || !env.waits(Field(test, "wait_time").value)))
    ensures var kind, test := Field(steps[c], "operation").value, Field(steps[c], "input").value;
            StepRound(env, table, groupId, testId, steps, c, prior)
              == Stopped([TestLoader.StartRecord(groupId, testId, |steps| - c - 1, env.now)],
                         if Choose(kind) == WaiterState then (if Field(test, "wait_time").Err? then StatesRuntime else WaiterFailed)
                         else env.adapter(Choose(kind).tag, test).error)
  {
    var out := TestLoader.Select(testId, steps, c, env.show).value;
    assert TestLoader.Select(testId, steps, c, env.show) == Ok(out);
  }

  /** A step of an unknown type does not stop the test: it is logged as FAILED, with the
      message naming the type as its only output, and the loop goes on. */
  lemma UnknownOperationLogged(env: Env, table: string, groupId: Json, testId: string, steps: seq<Json>, c: int, prior: Option<Json>)
    returns (step: Record, result: Json)
    requires 0 <= c < |steps| && KeyString(groupId)
    requires Field(steps[c], "operation").Ok? && Field(steps[c], "input").Ok?
    requires Choose(Field(steps[c], "operation").value) == UnknownOperationState
    ensures StepRound(env, table, groupId, testId, steps, c, prior)
            == Continues([TestLoader.StartRecord(groupId, testId, |steps| - c - 1, env.now), step], result)
    ensures step.status == JStr("FAILED")
    ensures step.output == JObj(map["message" := JStr(UnknownPrefix + StatesFormat(env.format, Field(steps[c], "operation").value))])
    ensures Field(steps[c], "operation").value.JStr? ==>
              step.output == JObj(map["message" := JStr(UnknownPrefix + Field(steps[c], "operation").value.s)])
    ensures step.scenarioId == JStr(ScenarioId(testId, TestLoader.Interpolate(env.show, Field(steps[c], "operation").value)))
    ensures Field(steps[c], "operation").value.JStr? ==>
              step.scenarioId == JStr(ScenarioId(testId, Field(steps[c], "operation").value.s))
  {
    var item := ItemState(testId, JArr(steps), table, groupId);
    var out := TestLoader.Select(testId, steps, c, env.show).value;
    assert TestLoader.Select(testId, steps, c, env.show) == Ok(out);
    result, step := UnknownRecord(env, item, out, prior);
    RoundContinues(env, table, groupId, testId, steps, c, prior, out, result, step);
  }

  lemma UnknownRecord(env: Env, item: map<string, Json>, out: TestLoader.StepOutput, prior: Option<Json>)
    returns (result: Json, step: Record)
    requires "log_table_name" in item && "test_group_id" in item
    ensures Perform(env, UnknownOperationState, out, prior) == Ok(result)
    ensures StepLogger.StepRecord(StepState(item, out, Some(result)), env.now) == Ok(step)
    ensures step.status == JStr("FAILED") && step.scenarioId == JStr(out.scenarioId)
    ensures step.output == JObj(map["message" := JStr(UnknownPrefix + StatesFormat(env.format, out.kind))])
  {
    result := Perform(env, UnknownOperationState, out, prior).value;
    var state := StepState(item, out, Some(result));
    StepLogger.StepRecordDefined(state, env.now);
    StepLogger.StepRecordIdentity(state, env.now);
    step := StepLogger.StepRecord(state, env.now).value;
    var payload := map["status" := JStr("FAILED"), "message" := JStr(UnknownPrefix + StatesFormat(env.format, out.kind))];
    assert state["testResult"].fields["Payload"].fields == payload;
    assert payload - {"status"} == map["message" := JStr(UnknownPrefix + StatesFormat(env.format, out.kind))];
  }

  // ---------------------------------------------------------------------------
  // Batches and the group.

  /** The test has a list of runnable steps. */
  predicate RunnableEntry(env: Env, e: Parser.TestEntry)
  {
    e.steps.JArr? && AllRunnable(env, e.steps.items)
  }

  predicate RunnableBatch(env: Env, tests: seq<Parser.TestEntry>)
  {
    forall i :: 0 <= i < |tests| ==> RunnableEntry(env, tests[i])
  }

  predicate RunnableGroup(env: Env, pending: seq<seq<Parser.TestEntry>>)
  {
    forall i :: 0 <= i < |pending| ==> RunnableBatch(env, pending[i])
  }

  /** The records a completed test writes: two per step and its FINISH record. */
  function TestSize(e: Parser.TestEntry): nat
    requires e.steps.JArr?
  {
    2 * |e.steps.items| + 1
  }

  function BatchSize(env: Env, tests: seq<Parser.TestEntry>): nat
    requires RunnableBatch(env, tests)
  {
    if tests == [] then 0 else TestSize(tests[0]) + BatchSize(env, tests[1..])
  }

  /** One iteration START record per batch, the batch's records, and the group's FINISH. */
  function GroupSize(env: Env, pending: seq<seq<Parser.TestEntry>>): nat
    requires RunnableGroup(env, pending)
  {
    if pending == [] then 1 else 1 + BatchSize(env, pending[0]) + GroupSize(env, pending[1..])
  }

  /** Nothing stopped the run, it wrote `n` records, and all of them belong to the group. */
  predicate Clean(t: Trace, groupId: Json, n: nat)
  {
    && t.stopped == None
    && |t.records| == n
    && (forall i :: 0 <= i < |t.records| ==> t.records[i].groupId == groupId)
  }

  lemma CleanThen(first: seq<Record>, rest: Trace, groupId: Json, n: nat, m: nat)
    requires |first| == n && forall i :: 0 <= i < n ==> first[i].groupId == groupId
    requires Clean(rest, groupId, m)
    ensures Clean(Then(first, rest), groupId, n + m)
  {
    var t := Then(first, rest);
    forall i | 0 <= i < |t.records|
      ensures t.records[i].groupId == groupId
    {
      if i >= n {
        assert t.records[i] == rest.records[i - n];
      }
    }
  }

  lemma LastOfAppend<T>(a: seq<T>, b: seq<T>)
    requires b != []
    ensures (a + b)[|a + b| - 1] == b[|b| - 1]
  {
  }

  /** A test whose steps are runnable completes from cursor -1. */
  lemma RunItemCompletes(env: Env, table: string, groupId: Json, e: Parser.TestEntry)
    requires AdaptersAnswer(env) && KeyString(groupId) && RunnableEntry(env, e)
    ensures Clean(RunItem(env, table, groupId, e), groupId, TestSize(e))
  {
    assert e.steps.items[0..] == e.steps.items;
    RunTestCompletes(env, table, groupId, e.testId, e.steps.items, -1, None);
  }

  /** A batch of runnable tests completes, each test in turn, with every record in the
      group. */
  lemma {:induction false} RunBatchCompletes(env: Env, table: string, groupId: Json, tests: seq<Parser.TestEntry>)
    requires AdaptersAnswer(env) && KeyString(groupId) && RunnableBatch(env, tests)
    ensures Clean(RunBatch(env, table, groupId, tests), groupId, BatchSize(env, tests))
    decreases |tests|
  {
    if tests != [] {
      RunItemCompletes(env, table, groupId, tests[0]);
      RunBatchCompletes(env, table, groupId, tests[1..]);
      var first := RunItem(env, table, groupId, tests[0]);
      CleanThen(first.records, RunBatch(env, table, groupId, tests[1..]), groupId, TestSize(tests[0]), BatchSize(env, tests[1..]));
    }
  }

  /** With nothing pending, the loader reports completion and the group finisher writes the
      group's FINISH record on the event as the workflow holds it. */
  lemma GroupFinishes(env: Env, event: Parser.ParseEvent) returns (finish: Record)
    requires KeyString(event.testGroupId)
    ensures RunGroup(env, event, []) == Trace([finish], None)
    ensures IterationsFinisher.GroupRecord(GroupState(event), env.now) == Ok(finish)
    ensures finish.groupId == event.testGroupId && finish.status == JStr("FINISH")
    ensures finish.scenarioId == JStr(ScenarioId("Completed", "Completed"))
    ensures finish.input.JObj? && finish.input.fields["test_group"] == Parser.GroupJson(event.testGroup)
  {
    IterationsFinisher.GroupRecordDefined(GroupState(event), env.now);
    finish := IterationsFinisher.GroupRecord(GroupState(event), env.now).value;
  }

  /** A batch that runs to its end is announced, then followed by the rest of the group. */
  lemma RunGroupStep(env: Env, event: Parser.ParseEvent, pending: seq<seq<Parser.TestEntry>>)
    requires pending != [] && KeyString(event.testGroupId)
    requires RunBatch(env, event.logTableName, event.testGroupId, pending[0]).stopped == None
    ensures RunGroup(env, event, pending) ==
              Then([IterationLoader.StartRecord(event.testGroupId, |pending| - 1, env.now)]
                   + RunBatch(env, event.logTableName, event.testGroupId, pending[0]).records,
                   RunGroup(env, event, pending[1..]))
  {
  }

  /** A group whose tests are runnable goes through every pending batch, each announced by
      the iteration loader, and ends with the group's FINISH record. */
  lemma {:induction false} RunGroupCompletes(env: Env, event: Parser.ParseEvent, pending: seq<seq<Parser.TestEntry>>)
    requires AdaptersAnswer(env) && KeyString(event.testGroupId) && RunnableGroup(env, pending)
    ensures var t := RunGroup(env, event, pending);
            && Clean(t, event.testGroupId, GroupSize(env, pending))
            && IterationsFinisher.GroupRecord(GroupState(event), env.now) == Ok(t.records[|t.records| - 1])
            && (pending != [] ==> t.records[0] == IterationLoader.StartRecord(event.testGroupId, |pending| - 1, env.now))
    decreases |pending|
  {
    if pending == [] {
      var _ := GroupFinishes(env, event);
    } else {
      var start := IterationLoader.StartRecord(event.testGroupId, |pending| - 1, env.now);
      RunBatchCompletes(env, event.logTableName, event.testGroupId, pending[0]);
      var batch := RunBatch(env, event.logTableName, event.testGroupId, pending[0]);
      RunGroupStep(env, event, pending);
      RunGroupCompletes(env, event, pending[1..]);
      var rest := RunGroup(env, event, pending[1..]);
      AnnouncedClean(start, batch.records, rest, event.testGroupId, BatchSize(env, pending[0]), GroupSize(env, pending[1..]));
    }
  }

  /** An announced batch followed by a clean rest of the group is clean, starts with the
      announcement and ends where the rest ends. */
  lemma AnnouncedClean(start: Record, batch: seq<Record>, rest: Trace, groupId: Json, n: nat, m: nat)
    requires start.groupId == groupId
    requires |batch| == n && forall i :: 0 <= i < n ==> batch[i].groupId == groupId
    requires Clean(rest, groupId, m) && m > 0
    ensures var t := Then([start] + batch, rest);
            && Clean(t, groupId, 1 + n + m)
            && t.records[0] == start
            && t.records[|t.records| - 1] == rest.records[m - 1]
  {
    var first := [start] + batch;
    assert forall i :: 0 <= i < 1 + n ==> first[i].groupId == groupId by {
      forall i | 0 <= i < 1 + n ensures first[i].groupId == groupId {
        if i > 0 { assert first[i] == batch[i - 1]; }
      }
    }
    CleanThen(first, rest, groupId, 1 + n, m);
    LastOfAppend(first, rest.records);
  }

  // ---------------------------------------------------------------------------
  // The whole execution.

  /** A group that loads is announced by the parser's START record, then runs. */
  lemma RunStarts(env: Env, event: Parser.ParseEvent, bucket: Name -> Option<Json>) returns (start: Record)
    requires Resolver.WellFormed(event.testGroup) && Parser.Parse(event, bucket).Ok?
    ensures Resolver.Resolve(event.testGroup).Ok? && KeyString(event.testGroupId)
    ensures start == Parser.StartRecord(event.(testGroup := Resolver.Group([], map[])),
                                        Resolver.Resolve(event.testGroup).value, env.render, env.now)
    ensures start.groupId == event.testGroupId
    ensures Run(env, event, bucket) == Then([start], RunGroup(env, event, Parser.Parse(event, bucket).value))
  {
    start := Parser.StartRecord(event.(testGroup := Resolver.Group([], map[])),
                                Resolver.Resolve(event.testGroup).value, env.render, env.now);
  }

  /** A group that resolves, whose files all load and whose tests are runnable runs to the
      end: the parser's START record first, logging the event with the emptied
      `test_group`, and the group's FINISH record last, logging it as submitted. */
  lemma RunCompletes(env: Env, event: Parser.ParseEvent, bucket: Name -> Option<Json>, its: seq<seq<Parser.TestEntry>>)
    requires Resolver.WellFormed(event.testGroup)
    requires Parser.Parse(event, bucket) == Ok(its) && RunnableGroup(env, its)
    requires AdaptersAnswer(env)
    ensures Resolver.Resolve(event.testGroup).Ok? && KeyString(event.testGroupId)
    ensures var t := Run(env, event, bucket);
            && Clean(t, event.testGroupId, 1 + GroupSize(env, its))
            && t.records[0] == Parser.StartRecord(event.(testGroup := Resolver.Group([], map[])),
                                                  Resolver.Resolve(event.testGroup).value, env.render, env.now)
            && IterationsFinisher.GroupRecord(GroupState(event), env.now) == Ok(t.records[|t.records| - 1])
            && t.records[|t.records| - 1].status == JStr("FINISH")
            && t.records[|t.records| - 1].scenarioId == JStr(ScenarioId("Completed", "Completed"))
  {
    RunGroupCompletes(env, event, its);
    var rest := RunGroup(env, event, its);
    var start := RunStarts(env, event, bucket);
    StartedClean(start, rest, event.testGroupId, GroupSize(env, its));
  }

  /** The parser's START record in front of a clean group run. */
  lemma StartedClean(start: Record, rest: Trace, groupId: Json, m: nat)
    requires start.groupId == groupId && Clean(rest, groupId, m) && m > 0
    ensures var t := Then([start], rest);
            && Clean(t, groupId, 1 + m)
            && t.records[0] == start
            && t.records[|t.records| - 1] == rest.records[|rest.records| - 1]
  {
    CleanThen([start], rest, groupId, 1, m);
    LastOfAppend([start], rest.records);
  }

  /** A group the resolver rejects stops the execution before anything is logged: with a
      repeated `*` it is the resolver's KeyError, with a dependency cycle the resolver's
      endless pass loop (which is modelled as `Diverges`). */
  lemma RunRejectsGroup(env: Env, event: Parser.ParseEvent, bucket: Name -> Option<Json>)
    requires Resolver.WellFormed(event.testGroup)
    ensures !Resolver.AtMostOneWildcard(event.testGroup) ==>
              && Run(env, event, bucket).records == []
              && Run(env, event, bucket).stopped.Some?
              && Run(env, event, bucket).stopped.value.ParserStopped?
              && Run(env, event, bucket).stopped.value.failure.Unresolvable?
              && Run(env, event, bucket).stopped.value.failure.failure.KeyError?
    ensures Resolver.AtMostOneWildcard(event.testGroup) && !ResolverProperties.Acyclic(event.testGroup) ==>
              Run(env, event, bucket) == Trace([], Some(ParserStopped(Parser.Unresolvable(Resolver.Diverges))))
  {
    ResolverProperties.ResolveOutcome(event.testGroup);
  }

  /** A test file that does not load stops the execution after the parser's START record:
      the record is written before any file is downloaded. */
  lemma RunStopsOnUnloadable(env: Env, event: Parser.ParseEvent, bucket: Name -> Option<Json>)
    requires Resolver.WellFormed(event.testGroup)
    requires Resolver.Resolve(event.testGroup).Ok? && KeyString(event.testGroupId)
    requires !(forall i, j :: 0 <= i < |Resolver.Resolve(event.testGroup).value| && 0 <= j < |Resolver.Resolve(event.testGroup).value[i]| ==>
                Parser.Loads(bucket, Resolver.Resolve(event.testGroup).value[i][j]))
    ensures |Run(env, event, bucket).records| == 1
    ensures Run(env, event, bucket).records[0].status == JStr("START")
    ensures Run(env, event, bucket).stopped.Some? && Run(env, event, bucket).stopped.value.ParserStopped?
    ensures Run(env, event, bucket).stopped.value.failure.Unloadable?
  {
    Parser.LoadAllShape(bucket, Resolver.Resolve(event.testGroup).value);
  }

  // ---------------------------------------------------------------------------
  // Items the log table refuses, and waits the waiter refuses.

  /** Every record of a round is keyed by the group id, so a group id the table refuses
      makes the round's first `put_item` raise: the loader's START record, or the test
      finisher's FINISH record once no step is left. Nothing is written. */
  lemma RoundRejectsKey(env: Env, table: string, groupId: Json, testId: string, steps: seq<Json>, c: int, prior: Option<Json>)
    requires 0 <= c <= |steps| && !KeyString(groupId)
    ensures StepRound(env, table, groupId, testId, steps, c, prior) == Stopped([], ValidationException)
  {
  }

  /** Likewise the group loop: the iteration loader's START record, or the group finisher's
      FINISH record when nothing is pending, is refused first. */
  lemma GroupRejectsKey(env: Env, event: Parser.ParseEvent, pending: seq<seq<Parser.TestEntry>>)
    requires !KeyString(event.testGroupId)
    ensures RunGroup(env, event, pending) == Trace([], Some(Raised(ValidationException)))
  {
  }

  /** A group that resolves but whose id the table refuses stops at the parser's `put_item`:
      nothing is logged and no file is loaded. */
  lemma RunRejectsGroupId(env: Env, event: Parser.ParseEvent, bucket: Name -> Option<Json>)
    requires Resolver.WellFormed(event.testGroup) && Resolver.Resolve(event.testGroup).Ok?
    requires !KeyString(event.testGroupId)
    ensures Run(env, event, bucket) == Trace([], Some(ParserStopped(Parser.Rejected(ValidationException))))
  {
  }

  /** A `Wait` step whose `wait_time` Waiter.py surely refuses (null, a list, an object, a
      negative count or one of the whole timeout or more) stops the test after the loader's
      START record, and the step is never logged. */
  lemma WaitRefused(env: Env, table: string, groupId: Json, testId: string, steps: seq<Json>, c: int, prior: Option<Json>, w: Json)
    requires WaiterAsWritten(env) && KeyString(groupId)
    requires 0 <= c < |steps|
    requires Field(steps[c], "operation") == Ok(JStr("Wait")) && Field(steps[c], "input").Ok?
    requires Field(Field(steps[c], "input").value, "wait_time") == Ok(w)
    requires w.JNull? || w.JArr? || w.JObj? || (w.JNum? && (w.n < 0 || w.n >= WaiterTimeout))
    ensures StepRound(env, table, groupId, testId, steps, c, prior)
            == Stopped([TestLoader.StartRecord(groupId, testId, |steps| - c - 1, env.now)], WaiterFailed)
  {
  }
}
