/** The iteration driver (Framework/lambda/IterationLoader.py): it pops the next batch off
    the pending iteration list, which the workflow threads back into the next call. */
module IterationLoader {
  import opened Wrappers
  import opened Events
  import opened ScenarioIds
  import opened Audit

  /** The handler's result; `None` stands for Python's None. */
  datatype Output<T> = Output(completed: bool, tests: Option<seq<T>>, iterations: Option<seq<seq<T>>>)

  /** Only the outer list is tested for emptiness: a pending empty batch is still delivered. */
  function Next<T>(iterations: seq<seq<T>>): (out: Output<T>)
    ensures out.completed <==> iterations == []
    ensures out.completed ==> out.tests == None && out.iterations == None
    ensures !out.completed ==>
              && out.tests.Some? && out.iterations.Some?
              && [out.tests.value] + out.iterations.value == iterations
  {
    if iterations == [] then Output(true, None, None)
    else Output(false, Some(iterations[0]), Some(iterations[1..]))
  }

  /** The START record of a delivered batch; `remaining` is the count left after the pop. */
  function StartRecord(groupId: Json, remaining: nat, now: string): Record
  {
    Record(groupId, JStr(ScenarioId("Started", NatToString(remaining))), JStr("START"),
           JStr("Remaining Iterations: " + NatToString(remaining)), JStr("Iteration Started"), now)
  }

  /** The records a call writes: one START record unless the list is exhausted or the table
      refuses the group id. */
  function Logged<T>(groupId: Json, iterations: seq<seq<T>>, now: string): seq<Record>
  {
    if iterations == [] || !KeyString(groupId) then [] else [StartRecord(groupId, |iterations| - 1, now)]
  }

  /** What a call returns: the next batch, or the `put_item` failure of its START record. */
  function Reply<T>(groupId: Json, iterations: seq<seq<T>>): (r: Result<Output<T>, Fault>)
    ensures r.Err? <==> iterations != [] && !KeyString(groupId)
    ensures r.Err? ==> r.error == ValidationException
    ensures r.Ok? ==> r.value == Next(iterations)
  {
    if iterations != [] && !KeyString(groupId) then Err(ValidationException) else Ok(Next(iterations))
  }

  /** The handler: report completion, or pop the head and log one START record. */
  method Handle<T>(groupId: Json, iterations: seq<seq<T>>, now: string, log: LogTable) returns (r: Result<Output<T>, Fault>)
    modifies log
    ensures r == Reply(groupId, iterations)
    ensures log.records == old(log.records) + Logged(groupId, iterations, now)
  {
    var pending := iterations;
    if |pending| == 0 {
      return Ok(Output(true, None, None));
    }
    var iteration := pending[0];
    pending := pending[1..];
    var raised := log.PutItem(StartRecord(groupId, |pending|, now));
    if raised.Some? {
      return Err(raised.value);
    }
    return Ok(Output(false, Some(iteration), Some(pending)));
  }

  /** The batches delivered by calling the handler on what it returned, until it reports
      completion. */
  function Drain<T>(iterations: seq<seq<T>>): seq<seq<T>>
    decreases |iterations|
  {
    var out := Next(iterations);
    if out.completed then []
    else
      assert |out.iterations.value| < |iterations|;
      [out.tests.value] + Drain(out.iterations.value)
  }

  /** The records those calls write, in order. */
  function DrainRecords<T>(groupId: Json, iterations: seq<seq<T>>, now: string): (r: seq<Record>)
    ensures |r| == |iterations|
    decreases |iterations|
  {
    if iterations == [] then []
    else [StartRecord(groupId, |iterations| - 1, now)] + DrainRecords(groupId, iterations[1..], now)
  }

  /** The records still to come after a call returned `out`. */
  function Remaining<T>(groupId: Json, out: Output<T>, now: string): seq<Record>
  {
    if out.completed || out.iterations.None? then [] else DrainRecords(groupId, out.iterations.value, now)
  }

  /** The drained records are the records of the first call followed by those of the calls
      on what it returned, when the table accepts the group id. */
  lemma DrainRecordsLogged<T>(groupId: Json, iterations: seq<seq<T>>, now: string)
    requires iterations == [] || KeyString(groupId)
    ensures DrainRecords(groupId, iterations, now) == Logged(groupId, iterations, now) + Remaining(groupId, Next(iterations), now)
  {
  }

  lemma RecordsAssoc(a: seq<Record>, b: seq<Record>, c: seq<Record>)
    ensures (a + b) + c == a + (b + c)
  {
  }

  /** The workflow's loop of Load Next Iteration and Are Iterations Over?: the handler is
      called on what it returned until it reports completion. The batches it hands out are
      the pending list, and the log gains exactly the drained records. A group id the table
      refuses makes the first call raise, before anything is delivered or logged. */
  method HandleAll<T>(groupId: Json, iterations: seq<seq<T>>, now: string, log: LogTable)
    returns (delivered: seq<seq<T>>, raised: Option<Fault>)
    modifies log
    ensures raised.Some? <==> iterations != [] && !KeyString(groupId)
    ensures raised.Some? ==> raised.value == ValidationException && delivered == [] && log.records == old(log.records)
    ensures raised.None? ==> delivered == iterations && log.records == old(log.records) + DrainRecords(groupId, iterations, now)
  {
    delivered := [];
    var pending := iterations;
    var r := Handle(groupId, pending, now, log);
    if r.Err? {
      return [], Some(r.error);
    }
    raised := None;
    var out := r.value;
    DrainRecordsLogged(groupId, pending, now);
    RecordsAssoc(old(log.records), Logged(groupId, pending, now), Remaining(groupId, out, now));
    while !out.completed
      invariant out == Next(pending)
      invariant delivered + pending == iterations
      invariant old(log.records) + DrainRecords(groupId, iterations, now) == log.records + Remaining(groupId, out, now)
      decreases |pending|
    {
      var before := log.records;
      var head, rest := out.tests.value, out.iterations.value;
      assert [head] + rest == pending;
      assert delivered + [head] + rest == iterations by {
        assert delivered + pending == iterations;
        assert delivered + ([head] + rest) == delivered + [head] + rest;
      }
      delivered := delivered + [head];
      pending := rest;
      DrainRecordsLogged(groupId, pending, now);
      r := Handle(groupId, pending, now, log);
      out := r.value;
      RecordsAssoc(before, Logged(groupId, pending, now), Remaining(groupId, out, now));
    }
    assert delivered + [] == delivered;
  }

  /** Threading the pending list back delivers every iteration once, in order. */
  lemma {:induction false} DrainDeliversAll<T>(iterations: seq<seq<T>>)
    ensures Drain(iterations) == iterations
    decreases |iterations|
  {
    if iterations != [] {
      DrainDeliversAll(iterations[1..]);
      assert [iterations[0]] + iterations[1..] == iterations;
    }
  }

  /** One record per delivered batch, counting down to zero. */
  lemma {:induction false} DrainRecordsCount<T>(groupId: Json, iterations: seq<seq<T>>, now: string)
    ensures forall k :: 0 <= k < |iterations| ==>
              DrainRecords(groupId, iterations, now)[k] == StartRecord(groupId, |iterations| - 1 - k, now)
    decreases |iterations|
  {
    if iterations != [] {
      var rest := iterations[1..];
      DrainRecordsCount(groupId, rest, now);
      var rs := DrainRecords(groupId, iterations, now);
      assert rs == [StartRecord(groupId, |iterations| - 1, now)] + DrainRecords(groupId, rest, now);
      forall k | 0 < k < |iterations|
        ensures rs[k] == StartRecord(groupId, |iterations| - 1 - k, now)
      {
        assert rs[k] == DrainRecords(groupId, rest, now)[k - 1];
      }
    }
  }

  /** No two records of the drained iterations share a scenario id. */
  lemma DrainRecordIds<T>(groupId: Json, iterations: seq<seq<T>>, now: string)
    ensures forall k1, k2 :: 0 <= k1 < k2 < |iterations| ==>
              DrainRecords(groupId, iterations, now)[k1].scenarioId != DrainRecords(groupId, iterations, now)[k2].scenarioId
  {
    DrainRecordsCount(groupId, iterations, now);
    var rs := DrainRecords(groupId, iterations, now);
    forall k1, k2 | 0 <= k1 < k2 < |iterations| ensures rs[k1].scenarioId != rs[k2].scenarioId {
      NatToStringInjective(|iterations| - 1 - k1, |iterations| - 1 - k2);
      ScenarioIdSteps("Started", NatToString(|iterations| - 1 - k1), NatToString(|iterations| - 1 - k2));
    }
  }
}
