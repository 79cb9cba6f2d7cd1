/** The per-test finisher (Framework/lambda/TestFinisher.py): one FINISH record when the step
    driver reports `Completed`, and a fixed success response. */
module TestFinisher {
  import opened Wrappers
  import opened Events
  import opened Audit

  const Response: Json := JObj(map["status" := JStr("SUCCESS"), "response" := JStr("Test Execution Completed")])

  /** Lines 27-38: the id is the loaded step's, and the input is the whole event. */
  function FinishRecord(event: map<string, Json>, now: string): Result<Record, Fault>
  {
    if "log_table_name" !in event then Err(KeyError("log_table_name"))
    else if "test_group_id" !in event then Err(KeyError("test_group_id"))
    else if "Payload" !in event then Err(KeyError("Payload"))
    else
      match Field(event["Payload"], "test_scenario_id")
      case Err(f) => Err(f)
      case Ok(id) =>
        Ok(Record(event["test_group_id"], id, JStr("FINISH"), JObj(event), JStr("Test Completed Successfully"), now))
  }

  method Handle(event: map<string, Json>, now: string, log: LogTable) returns (r: Result<Json, Fault>)
    modifies log
    ensures r.Ok? <==> FinishRecord(event, now).Ok? && KeyAccepted(FinishRecord(event, now).value)
    ensures r.Ok? ==> r.value == Response
    ensures r.Err? ==> r.error == if FinishRecord(event, now).Err? then FinishRecord(event, now).error else ValidationException
    ensures log.records == old(log.records) + if r.Ok? then [FinishRecord(event, now).value] else []
  {
    if "log_table_name" !in event {
      return Err(KeyError("log_table_name"));
    }
    var inp := JObj(event);
    if "test_group_id" !in event {
      return Err(KeyError("test_group_id"));
    }
    if "Payload" !in event {
      return Err(KeyError("Payload"));
    }
    var id := Field(event["Payload"], "test_scenario_id");
    if id.Err? {
      return Err(id.error);
    }
    var raised := log.PutItem(Record(event["test_group_id"], id.value, JStr("FINISH"), inp, JStr("Test Completed Successfully"), now));
    if raised.Some? {
      return Err(raised.value);
    }
    return Ok(Response);
  }

  /** The record is written exactly when the event has the group id and a loaded step with a
      scenario id; it is a FINISH record holding the whole event. */
  lemma FinishRecordDefined(event: map<string, Json>, now: string)
    ensures FinishRecord(event, now).Ok? <==>
              && "log_table_name" in event && "test_group_id" in event && "Payload" in event
              && Field(event["Payload"], "test_scenario_id").Ok?
    ensures FinishRecord(event, now).Ok? ==>
              && FinishRecord(event, now).value.scenarioId == event["Payload"].fields["test_scenario_id"]
              && FinishRecord(event, now).value.status == JStr("FINISH")
              && FinishRecord(event, now).value.input == JObj(event)
  {
  }
}
