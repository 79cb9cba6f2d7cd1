/** The DynamoDB log table the handlers write with `put_item`. */
module Audit {
  import opened Wrappers
  import opened Events

  /** One log item: the table's key (group id, scenario id) and what is recorded. The
      timestamp is the handler's `time.strftime` reading, taken as given. */
  datatype Record = Record(groupId: Json, scenarioId: Json, status: Json, input: Json, output: Json, timestamp: string)

  /** A value the table accepts for a key attribute: both keys are declared of type `S`
      (Parser.py creates the table so), and DynamoDB refuses an empty string as a key. */
  predicate KeyString(v: Json)
  {
    v.JStr? && v.s != ""
  }

  predicate KeyAccepted(item: Record)
  {
    KeyString(item.groupId) && KeyString(item.scenarioId)
  }

  /** The table as the sequence of items put into it, oldest first. */
  class LogTable {
    var records: seq<Record>

    constructor ()
      ensures records == []
    {
      records := [];
    }

    /** `put_item`: the item goes after every earlier one, unless its key does not match the
        table's key schema, in which case the call raises and the table is unchanged. */
    method PutItem(item: Record) returns (raised: Option<Fault>)
      modifies this
      ensures raised.None? <==> KeyAccepted(item)
      ensures raised.Some? ==> raised.value == ValidationException
      ensures records == old(records) + if KeyAccepted(item) then [item] else []
    {
      if !KeyAccepted(item) {
        return Some(ValidationException);
      }
      records := records + [item];
      return None;
    }
  }
}
