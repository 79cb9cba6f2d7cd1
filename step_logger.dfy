/** The step-result logger (Framework/lambda/StepLogger.py): one record per executed step,
    holding the step's input and the adapter's result. */
module StepLogger {
  import opened Wrappers
  import opened Events
  import opened Audit

  const DefaultStatus: Json := JStr("FAILED")

  /** `d.pop("status", "FAILED")`: the status, or the default when there is none. */
  function StatusOf(payload: map<string, Json>): Json
  {
    if "status" in payload then payload["status"] else DefaultStatus
  }

  /** What `output.pop("status", "FAILED")` raises on a payload that is not a dict: a list's
      `pop` takes at most one argument, and the other values have no `pop` at all. */
  function PopFault(output: Json): (f: Fault)
    requires !output.JObj?
    ensures f == TypeError <==> output.JArr?
    ensures f == AttributeError <==> !output.JArr?
  {
    if output.JArr? then TypeError else AttributeError
  }

  /** Lines 35-48, in the order the handler reads the event. */
  function StepRecord(event: map<string, Json>, now: string): (r: Result<Record, Fault>)
  {
    if "log_table_name" !in event then Err(KeyError("log_table_name"))
    else if "Payload" !in event then Err(KeyError("Payload"))
    else if "testResult" !in event then Err(KeyError("testResult"))
    else
      match Field(event["testResult"], "Payload")
      case Err(f) => Err(f)
      case Ok(output) =>
        if !output.JObj? then Err(PopFault(output))
        else if "test_group_id" !in event then Err(KeyError("test_group_id"))
        else
          match Field(event["Payload"], "test_scenario_id")
          case Err(f) => Err(f)
          case Ok(id) =>
            Ok(Record(event["test_group_id"], id, StatusOf(output.fields), event["Payload"],
                      JObj(output.fields - {"status"}), now))
  }

  /** The handler: `testResult` is popped off the event and `status` off its payload before
      the record is put; it returns nothing. A record whose key the table refuses makes
      `put_item` raise. */
  method Handle(event: map<string, Json>, now: string, log: LogTable) returns (raised: Option<Fault>)
    modifies log
    ensures raised.None? <==> StepRecord(event, now).Ok? && KeyAccepted(StepRecord(event, now).value)
    ensures raised.Some? ==> raised.value == if StepRecord(event, now).Err? then StepRecord(event, now).error else ValidationException
    ensures log.records == old(log.records) + if raised.None? then [StepRecord(event, now).value] else []
  {
    var ev := event;
    if "log_table_name" !in ev {
      return Some(KeyError("log_table_name"));
    }
    if "Payload" !in ev {
      return Some(KeyError("Payload"));
    }
    var inp := ev["Payload"];
    if "testResult" !in ev {
      return Some(KeyError("testResult"));
    }
    var testResult := ev["testResult"];
    ev := ev - {"testResult"};
    var result := Field(testResult, "Payload");
    if result.Err? {
      return Some(result.error);
    }
    if !result.value.JObj? {
      return Some(PopFault(result.value));
    }
    var output := result.value.fields;
    var status := if "status" in output then output["status"] else DefaultStatus;
    output := output - {"status"};
    if "test_group_id" !in ev {
      return Some(KeyError("test_group_id"));
    }
    var id := Field(inp, "test_scenario_id");
    if id.Err? {
      return Some(id.error);
    }
    raised := log.PutItem(Record(ev["test_group_id"], id.value, status, inp, JObj(output), now));
  }

  /** The record is written exactly when the event carries what the handler reads. */
  lemma StepRecordDefined(event: map<string, Json>, now: string)
    ensures StepRecord(event, now).Ok? <==>
              && "log_table_name" in event && "Payload" in event && "testResult" in event && "test_group_id" in event
              && Field(event["testResult"], "Payload").Ok? && Field(event["testResult"], "Payload").value.JObj?
              && Field(event["Payload"], "test_scenario_id").Ok?
  {
  }

  /** A payload that is not a dict stops the handler at the `pop` of its status, before the
      group id is read: a list raises TypeError, any other value AttributeError. */
  lemma StepRecordNonDictPayload(event: map<string, Json>, now: string)
    requires "log_table_name" in event && "Payload" in event && "testResult" in event
    requires Field(event["testResult"], "Payload").Ok? && !Field(event["testResult"], "Payload").value.JObj?
    ensures StepRecord(event, now).Err?
    ensures StepRecord(event, now).error == TypeError <==> Field(event["testResult"], "Payload").value.JArr?
    ensures StepRecord(event, now).error == AttributeError <==> !Field(event["testResult"], "Payload").value.JArr?
  {
  }

  /** The record keeps the step's identity: the group, the scenario id of the loaded step, and
      the whole loaded step as its input. */
  lemma StepRecordIdentity(event: map<string, Json>, now: string)
    requires StepRecord(event, now).Ok?
    ensures StepRecord(event, now).value.groupId == event["test_group_id"]
    ensures StepRecord(event, now).value.scenarioId == event["Payload"].fields["test_scenario_id"]
    ensures StepRecord(event, now).value.input == event["Payload"]
  {
  }

  /** The status and the output split the adapter's payload: a missing status is recorded as
      "FAILED" and never raises, a present one is recorded as it is, and putting it back into
      the output restores the payload. */
  lemma {:induction false} StepRecordSplitsPayload(event: map<string, Json>, now: string)
    requires StepRecord(event, now).Ok?
    ensures var payload := event["testResult"].fields["Payload"].fields;
            var r := StepRecord(event, now).value;
            && r.output.JObj? && "status" !in r.output.fields
            && (forall k :: k in payload && k != "status" ==> k in r.output.fields && r.output.fields[k] == payload[k])
            && r.status == (if "status" in payload then payload["status"] else JStr("FAILED"))
            && ("status" in payload ==> r.output.fields["status" := r.status] == payload)
            && ("status" !in payload ==> r.output.fields == payload)
  {
    var payload := event["testResult"].fields["Payload"].fields;
    var r := StepRecord(event, now).value;
    if "status" in payload {
      assert r.output.fields["status" := r.status] == payload;
    } else {
      assert r.output.fields == payload;
    }
  }
}
