/** The per-group finisher (Framework/lambda/IterationsFinisher.py): one FINISH record once the
    iteration list is exhausted, and a fixed success response. */
module IterationsFinisher {
  import opened Wrappers
  import opened Events
  import opened ScenarioIds
  import opened Audit

  const Response: Json := JObj(map["status" := JStr("SUCCESS"), "response" := JStr("Test Group Execution Completed")])

  /** Lines 25-36: the id is fixed, and the input is the whole event. */
  function GroupRecord(event: map<string, Json>, now: string): Result<Record, Fault>
  {
    if "log_table_name" !in event then Err(KeyError("log_table_name"))
    else if "test_group_id" !in event then Err(KeyError("test_group_id"))
    else Ok(Record(event["test_group_id"], JStr(ScenarioId("Completed", "Completed")), JStr("FINISH"), JObj(event),
                   JStr("Test Group Completed Successfully"), now))
  }

  method Handle(event: map<string, Json>, now: string, log: LogTable) returns (r: Result<Json, Fault>)
    modifies log
    ensures r.Ok? <==> FinishRecordWritten(event) && KeyString(event["test_group_id"])
    ensures r.Ok? ==> r.value == Response
    ensures r.Err? ==> r.error == if GroupRecord(event, now).Err? then GroupRecord(event, now).error else ValidationException
    ensures log.records == old(log.records) + if r.Ok? then [GroupRecord(event, now).value] else []
  {
    if "log_table_name" !in event {
      return Err(KeyError("log_table_name"));
    }
    var inp := JObj(event);
    if "test_group_id" !in event {
      return Err(KeyError("test_group_id"));
    }
    var raised := log.PutItem(Record(event["test_group_id"], JStr(ScenarioId("Completed", "Completed")), JStr("FINISH"), inp,
                                     JStr("Test Group Completed Successfully"), now));
    if raised.Some? {
      return Err(raised.value);
    }
    return Ok(Response);
  }

  predicate FinishRecordWritten(event: map<string, Json>)
  {
    "log_table_name" in event && "test_group_id" in event
  }

  /** The record is written exactly when the event names a log table and a group. */
  lemma GroupRecordDefined(event: map<string, Json>, now: string)
    ensures GroupRecord(event, now).Ok? <==> FinishRecordWritten(event)
    ensures GroupRecord(event, now).Ok? ==>
              && GroupRecord(event, now).value.scenarioId == JStr("T<Completed>:S<Completed>")
              && GroupRecord(event, now).value.input == JObj(event)
  {
    CompletedId();
  }
}
