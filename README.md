# A model of the no-code test runner's workflow

The framework runs groups of cloud tests written as JSON files. A group execution starts
from an event that names:

- the group (`test_group_id`);
- the log table (`log_table_name`);
- the bucket that holds the test files (`bucket_name`);
- the dependency dictionary `test_group`, which maps each test file to the test files it
  depends on.

A Step Functions state machine then runs these Lambda handlers, one after another:

1. **Parser**:
   - Resolves the dependency dictionary into an iteration list: a list of batches, where
     the tests of one batch may run side by side.
   - Logs a START record.
   - Downloads the `steps` of every test file.
2. **Iteration loader**: pops the next batch off the pending list and logs a START record
   for it. It reports `completed` once the list is empty.
3. **Map state**: runs every test of the batch. For each test:
   - The **test loader** advances the step cursor and logs a START record for the step.
     It returns the step's operation, or the marker `Completed` once every step has run.
   - A **choice** state routes the operation:
     - one of 25 adapter tags goes to that adapter Lambda;
     - `Wait` goes to the waiter;
     - `Completed` goes to the **test finisher**, which logs the test's FINISH record;
     - any other operation goes to a pass state, which produces a FAILED result.
   - The **step logger** logs the branch's result.
4. **Iterations finisher**: once no batch is left, logs the group's FINISH record.

Every record lands in a DynamoDB table, keyed by group id and a scenario id of the form
`T<...>:S<...>`. Both keys are declared as strings, so `put_item` raises on an item whose
group id is not a non-empty string, and the handler that put it fails.

The model has one module per handler, plus these:

- `Resolver`: the resolution algorithm, as functions.
- `ResolverProperties`: what the resolution guarantees.
- `ScenarioIds`: the id grammar and Python's `str()` of a count.
- `Events`: JSON values and Python's `d[key]`.
- `Audit`: the log table.
- `Workflow`: the state machine over the handlers.

Each handler that writes the table is a method on a `LogTable` object. The method's
contract ties the returned value and the appended records to a specification function,
and lemmas state what those functions guarantee.

How the loops of the Parser handler are modelled:

- The loops are methods with invariants, proved equal to the functions in `Resolver`.
- A Python dict is modelled as its key order (`order`/`live`) plus a map from key to list.
- Deleting entries while a `for` loop runs over a list is modelled with the list
  iterator's index, so a removal makes the iterator skip the entry that follows it.
- The `while (testGroup)` loop does not always end. The model returns `Err(Diverges)` in
  the state where the loop would run forever.

Behaviour of the code that the model reproduces (the members named in brackets prove it):

- A `"*"` in a test's list moves that test to a last iteration of its own. If a list
  holds `"*"` twice, the second `testGroup.pop` raises a KeyError
  (`ResolverProperties.ResolveOutcome`).
- The loop ends exactly when the non-wildcard tests have no dependency cycle
  (`ResolverProperties.Acyclic`). On a cycle it never ends: a stalled pass is a fixed
  point of the loop.
- Any dependency name that is not a key of the group goes into the first iteration,
  whichever test lists it, wildcard tests included. The scan checks each name against the
  keys still in the dictionary. A wildcard test that is named in a list scanned after
  that test was popped therefore also goes into the first iteration, and it then runs
  twice: in the first iteration and in the last.
- When the group has no non-wildcard test, the first iteration is dropped, together with
  every name collected in it (`ResolverProperties.ResolveNoNormal`).
- The strike loop removes entries from the list it iterates, so every removal skips the
  next entry. A test can therefore wait an extra pass, and each extra pass produces an
  empty iteration in the middle of the list. `ResolverExamples` works this out for a test
  that lists two external names: the passes yield the batches `[]`, `[]` and `[A]`.
- The docstring of Parser.py (lines 71-79) shows an example output in which the first
  iteration starts with the tests that have no dependencies. The code puts them after the
  external names collected by the scan. The model follows the code
  (`ResolverProperties.ResolveFirst`). For the docstring's own group, the code gives
  `[E, S, T0]`, `[D]`, `[T1]`, `[T2]`. This is the docstring's output except for the order
  of the first iteration (`ResolverExamples.DocResolve`, `ResolverExamples.DocstringExample`).
- The handler mutates the event's own `test_group`. The Parser's START record therefore
  logs the event with the emptied dictionary. The state machine keeps its own copy, so the
  group's FINISH record logs the original (`Workflow.RunStarts`, `Workflow.GroupFinishes`).
- The test loader and the choice state both compare the operation with the literal
  `Completed`. A step whose operation is `Completed` ends its test early: the test
  finisher logs it as the test's FINISH record (`Workflow.CompletedStepEndsTest`).

## Model

| member | source | states |
|---|---|---|
| Events.Field | Framework/lambda/TestLoader.py:60-63 | `d[key]` on a JSON value succeeds exactly when the value is an object holding the key, and then yields its value. It raises KeyError on an object without the key and TypeError on any other value. |
| ScenarioIds.NatToString | Framework/lambda/TestLoader.py:50 | `str()` of a count is a non-empty string of decimal digits that starts with `0` only for zero. |
| ScenarioIds.ParseNatToString | Framework/lambda/TestLoader.py:50 | Reading the printed digits back gives the count. |
| ScenarioIds.NatToStringInjective | Framework/lambda/IterationLoader.py:43 | Two counts print the same exactly when they are equal. |
| ScenarioIds.CompletedId | Framework/lambda/IterationsFinisher.py:31 | The group's FINISH id is the id grammar applied to `Completed` twice. |
| ScenarioIds.ScenarioIdParts | Framework/lambda/TestLoader.py:50 | An id's length, and where its test part and step part sit. |
| ScenarioIds.ScenarioIdSteps | Framework/lambda/TestLoader.py:50 | Within one test, two ids are equal exactly when their step parts are equal. |
| ScenarioIds.ScenarioIdInjective | Framework/lambda/TestLoader.py:60 | For test ids without `>`, equal ids have equal test parts and equal step parts, and conversely. |
| Audit.LogTable.PutItem | Framework/lambda/Parser.py:39-58 | `put_item` adds the item after every earlier one exactly when both key attributes are non-empty strings, as the table's `S` key schema demands. Otherwise it raises ValidationException and leaves the table unchanged. |
| Resolver.Ready | Framework/lambda/Parser.py:95-98 | A pass's batch holds exactly the snapshot keys whose list is empty, each once. |
| Resolver.RemoveFirst | Framework/lambda/Parser.py:103 | `list.remove` drops exactly one occurrence of the value. |
| Resolver.StrikeFrom | Framework/lambda/Parser.py:101-103 | Striking a list keeps every live name with its multiplicity and only removes names. The list shrinks whenever a non-live name lies at or after the iterator's index. |
| Resolver.StrikeAll | Framework/lambda/Parser.py:100-103 | The strike loop keeps the keys, leaves the lists it does not visit unchanged, strikes each visited list, and never lengthens a list. |
| Resolver.StrikeAllSnoc | Framework/lambda/Parser.py:100-103 | Striking one more key changes that key's list alone. |
| Resolver.PassShrinks | Framework/lambda/Parser.py:94-105 | Every pass that is not stalled removes a key or a list entry, so the loop either ends or reaches a stalled state. |
| Resolver.Prepend | Framework/lambda/Parser.py:104 | A pass's batch goes in front of the later batches, and a failure of the later passes is kept. |
| Resolver.LayersStep | Framework/lambda/Parser.py:94-105 | A pass that is not stalled produces its batch, followed by the batches of the passes after it. |
| ResolverProperties.WildcardsInMembers | Framework/lambda/Parser.py:86-90 | The wildcard keys are collected in key order, each once. |
| ResolverProperties.ScanOutcome | Framework/lambda/Parser.py:84-92 | The scan fails exactly when a list holds `"*"` twice, and then with KeyError. Otherwise it pops exactly the wildcard keys and leaves the others live. It collects every dependency that is not a key into the first iteration, in order and once per occurrence. |
| ResolverProperties.InitialInv | Framework/lambda/Parser.py:84-94 | After the scan, the live keys are the non-wildcard keys, and each list names every live test it depends on. |
| ResolverProperties.PassInv | Framework/lambda/Parser.py:94-105 | A pass only removes entries from lists, and it keeps every entry that names a live test. |
| ResolverProperties.StalledClosed | Framework/lambda/Parser.py:94-105 | In a stalled state no live list is empty, and the live tests form a closed set, that is a cycle. |
| ResolverProperties.StalledFixpoint | Framework/lambda/Parser.py:94-105 | A stalled state is a fixed point of the pass, so the loop never ends from it. |
| ResolverProperties.LayersCover | Framework/lambda/Parser.py:94-105 | The passes either diverge or place every live test exactly once. |
| ResolverProperties.LayersOrder | Framework/lambda/Parser.py:94-105 | No test lists a test placed in the same batch or a later one. |
| ResolverProperties.LayersStuck | Framework/lambda/Parser.py:94-105 | The loop fails to end exactly when a closed set of live tests exists. |
| ResolverProperties.AssembleShape | Framework/lambda/Parser.py:107-109 | The final list is the batches, with the scanned names in front of the first batch, followed by the wildcard iteration when there is one. |
| ResolverProperties.LayerParts | Framework/lambda/Parser.py:94-105 | After a successful scan, the batches cover the non-wildcard tests once each and are ordered. The first batch holds the keys with empty lists, and there are no batches exactly when there are no non-wildcard tests. |
| ResolverProperties.ResolveParts | Framework/lambda/Parser.py:82-109 | A successful resolution is the scan, then the passes, then the assembly, with the facts of each part. |
| ResolverProperties.ResolveOutcome | Framework/lambda/Parser.py:82-109 | Resolution succeeds exactly when no list holds `"*"` twice and there is no cycle. It raises KeyError exactly on a double `"*"`, and never ends exactly on a cycle. |
| ResolverProperties.LayersOutcome | Framework/lambda/Parser.py:94-105 | After a successful scan, the loop ends exactly when there is no cycle. |
| ResolverProperties.PendingOutcome | Framework/lambda/Parser.py:94-105 | From any loop state whose live keys are the non-wildcard keys, the loop ends exactly when there is no cycle. |
| ResolverProperties.ResolveOnce | Framework/lambda/Parser.py:82-109 | Every non-wildcard test appears exactly once in the iteration list. |
| ResolverProperties.NormalPlacement | Framework/lambda/Parser.py:97 | A non-wildcard test sits only in the iteration of the pass that popped it. |
| ResolverProperties.ResolveOrder | Framework/lambda/Parser.py:82-109 | A non-wildcard test runs in a strictly later iteration than every non-wildcard test it lists. |
| ResolverProperties.ResolveExternal | Framework/lambda/Parser.py:91-92 | A dependency that is not a test of the group runs in the first iteration, and a test that lists it runs later. |
| ResolverProperties.ResolveFirst | Framework/lambda/Parser.py:92-97 | The first iteration is the scan's collected external names, in scan order, followed by the first pass's batch: the keys whose list is empty, in key order. A non-wildcard test is in it exactly when its list is empty. |
| ResolverProperties.ResolveNoNormal | Framework/lambda/Parser.py:107-109 | With no non-wildcard test, the list is only the wildcard iteration, if any: the first iteration is dropped. |
| ResolverProperties.ResolveWildcardsLast | Framework/lambda/Parser.py:86-90 | The wildcard tests, in key order, form the last iteration when there are any. Every other iteration after the first holds only non-wildcard tests. |
| ResolverExamples.SkippedScan | Framework/lambda/Parser.py:86-92 | For a test A that lists two external names X and Y, the scan collects X and Y for the first iteration. |
| ResolverExamples.StrikeSkips | Framework/lambda/Parser.py:101-103 | Striking `[X, Y]` removes X and skips Y. |
| ResolverExamples.StrikeLast | Framework/lambda/Parser.py:101-103 | Striking `[Y]` empties it. |
| ResolverExamples.WaitingPass | Framework/lambda/Parser.py:94-105 | A pass that finds A's list non-empty pops nothing and strikes the list. |
| ResolverExamples.WaitingLayers | Framework/lambda/Parser.py:94-105 | Each such pass that shortens the list yields an empty iteration. |
| ResolverExamples.SkippedPass | Framework/lambda/Parser.py:94-105 | The first pass leaves A waiting on Y, although Y is not a test of the group. |
| ResolverExamples.SecondPass | Framework/lambda/Parser.py:94-105 | The second pass empties A's list, still without popping A. |
| ResolverExamples.FinalPass | Framework/lambda/Parser.py:95-98 | The pass that finds A's list empty pops A. |
| ResolverExamples.LastLayer | Framework/lambda/Parser.py:94-105 | That pass yields the batch `[A]` and ends the loop. |
| ResolverExamples.SkippedLayers | Framework/lambda/Parser.py:94-105 | The passes on A's list `[X, Y]` yield `[]`, `[]` and `[A]`. |
| ResolverExamples.SkippedResolve | Framework/lambda/Parser.py:82-109 | The group `{A: [X, Y]}` resolves to `[[X, Y], [], [A]]`. |
| ResolverExamples.DocScan | Framework/lambda/Parser.py:86-92 | For the docstring's group, the scan pops T2 into the wildcard iteration and collects E and S. |
| ResolverExamples.DocReady1 | Framework/lambda/Parser.py:95-98 | The first pass's batch is `[T0]`. |
| ResolverExamples.DocPass1 | Framework/lambda/Parser.py:94-105 | The first pass pops T0, strikes E from T1's list and empties D's list. |
| ResolverExamples.DocPass2 | Framework/lambda/Parser.py:94-105 | The second pass pops D and empties T1's list. |
| ResolverExamples.DocLayers | Framework/lambda/Parser.py:94-105 | The passes yield `[T0]`, `[D]` and `[T1]`. |
| ResolverExamples.DocResolve | Framework/lambda/Parser.py:71-109 | The docstring's group resolves to `[E, S, T0]`, `[D]`, `[T1]`, `[T2]`. The first iteration holds the docstring's three names, but not in the docstring's order. |
| ResolverExamples.DocstringExample | Framework/lambda/Parser.py:71-79 | The same resolution, with the docstring's file names. |
| Parser.ScanList | Framework/lambda/Parser.py:87-92 | The inner scan loop computes the scan of one list. |
| Parser.ScanGroup | Framework/lambda/Parser.py:86-92 | The outer scan loop over the snapshot computes the scan of the group. |
| Parser.PlaceReady | Framework/lambda/Parser.py:95-98 | The ready keys are appended to the open iteration and popped from the live keys. |
| Parser.StrikeList | Framework/lambda/Parser.py:101-103 | The removal loop on one list computes its strike. |
| Parser.StrikeDeparted | Framework/lambda/Parser.py:100-103 | The strike loop over the live keys computes the struck lists. |
| Parser.PassStep | Framework/lambda/Parser.py:94-105 | One pass of the `while` body either reaches a fixed point or moves on to the next batch. |
| Parser.Finish | Framework/lambda/Parser.py:107-109 | Once no key is live, the open iteration is popped and the wildcard iteration appended. |
| Parser.BuildIterations | Framework/lambda/Parser.py:82-109 | The loops compute the resolution and leave `testGroup` empty on success. They succeed exactly when there is neither a double `"*"` nor a cycle, raise KeyError exactly on a double `"*"`, and never end exactly on a cycle. |
| Parser.LoadTest | Framework/lambda/Parser.py:129-134 | A file loads exactly when it is in the bucket and its JSON has `steps`, and then the entry is the file name with those steps. |
| Parser.LoadRowShape | Framework/lambda/Parser.py:127-134 | An iteration loads exactly when each of its files does. Its entries then name the files in order, and otherwise the first failing file's failure stops the handler. |
| Parser.LoadAllShape | Framework/lambda/Parser.py:124-134 | The loaded output has the shape of the iteration list, entry (i, j) being file j of iteration i. Otherwise the first failing file in order stops the handler. |
| Parser.LoadIteration | Framework/lambda/Parser.py:127-134 | The inner loading loop computes the row's entries. |
| Parser.LoadTests | Framework/lambda/Parser.py:124-134 | The outer loading loop computes the loaded iteration list. |
| Parser.Handle | Framework/lambda/Parser.py:82-137 | The handler returns the loaded iteration list or its failure. It writes the START record, which holds the emptied group, exactly when resolution succeeds and the table accepts the group id. A refused group id stops it there, before any file is loaded. |
| IterationLoader.Next | Framework/lambda/IterationLoader.py:32-56 | The handler reports completion exactly when nothing is pending, with no tests. Otherwise it returns the head as the tests and the rest as pending; an empty batch is still delivered. |
| IterationLoader.Handle | Framework/lambda/IterationLoader.py:26-56 | The handler returns the next batch and writes one START record, named by the count left after the pop, unless it completes. A group id the table refuses makes it raise ValidationException instead, with nothing written. |
| IterationLoader.Reply | Framework/lambda/IterationLoader.py:32-56 | A call raises ValidationException exactly when a batch is pending and the group id is not a key the table accepts; otherwise it returns `Next`. |
| IterationLoader.DrainRecords | Framework/lambda/IterationLoader.py:41-50 | Feeding the pending list back writes one record per iteration. |
| IterationLoader.HandleAll | Framework/lib/framework-stack.ts:561-568 | Calling the handler on what it returned until it completes hands out every pending batch, in order, and the log gains exactly the drained records, one START record per batch. With a group id the table refuses, the first call raises and nothing is delivered or logged. |
| IterationLoader.DrainDeliversAll | Framework/lambda/IterationLoader.py:38-56 | Feeding the pending list back delivers every iteration once, in order. |
| IterationLoader.DrainRecordsCount | Framework/lambda/IterationLoader.py:41-50 | The k-th START record counts down the iterations left after it. |
| IterationLoader.DrainRecordIds | Framework/lambda/IterationLoader.py:43 | No two START records of one group's iterations share a scenario id. |
| TestLoader.Select | Framework/lambda/TestLoader.py:37-64 | Past the last step, the result is the `Completed` marker with no test. Otherwise the call succeeds exactly when the step has `operation` and `input`, and returns them under the id `T<test>:S<operation>`; an operation that is a string appears there as itself. The cursor is the advanced one. |
| TestLoader.Handle | Framework/lambda/TestLoader.py:27-65 | The handler returns the step at the advanced cursor. It logs a START record naming the steps left, even when the step later fails to load, and no record on `Completed`. A group id the table refuses raises at that START record, before the step is read. |
| TestLoader.Reply | Framework/lambda/TestLoader.py:45-64 | With a step left and a group id the table refuses, the call raises ValidationException; otherwise it returns the selected step. |
| TestLoader.LoggedIdsDistinct | Framework/lambda/TestLoader.py:50 | Two cursors of one test never log under the same scenario id. |
| TestLoader.ReturnedIdNotLogged | Framework/lambda/TestLoader.py:39-60 | The id returned for a step differs from every START id of the test, unless the printed operation is all digits. |
| StepLogger.Handle | Framework/lambda/StepLogger.py:31-51 | The handler raises exactly when the event lacks what it reads, with that error, or when the table refuses the record's key, with ValidationException. A payload that is not a dict raises at the `pop` of its status: TypeError for a list, AttributeError otherwise. It appends the step record only on success. |
| StepLogger.StepRecordNonDictPayload | Framework/lambda/StepLogger.py:39-42 | A payload that is not a dict stops the handler before the group id is read: a list with TypeError, any other value with AttributeError. |
| StepLogger.StepRecordDefined | Framework/lambda/StepLogger.py:35-48 | A step record is written exactly when the event carries the table, a loaded step with a scenario id, a result whose `Payload` is an object, and the group. |
| StepLogger.StepRecordIdentity | Framework/lambda/StepLogger.py:41-45 | The record keeps the group, the loaded step's scenario id, and the loaded step as input. |
| StepLogger.StepRecordSplitsPayload | Framework/lambda/StepLogger.py:39-46 | A missing status is recorded as FAILED. The output is the payload without its status, and putting the status back restores the payload. |
| TestFinisher.Handle | Framework/lambda/TestFinisher.py:23-44 | The handler returns its fixed response exactly when the record is defined and the table accepts its key. It raises the read's error or ValidationException otherwise, and appends the record only on success. |
| TestFinisher.FinishRecordDefined | Framework/lambda/TestFinisher.py:27-38 | A record is written exactly when the event has the table, the group and a loaded step with an id. It is then a FINISH record under the step's id, with the whole event as input. |
| IterationsFinisher.Handle | Framework/lambda/IterationsFinisher.py:21-43 | The handler returns its fixed response exactly when the event names a table and a group that is a non-empty string. It raises the read's error or ValidationException otherwise, and appends the record only on success. |
| IterationsFinisher.GroupRecordDefined | Framework/lambda/IterationsFinisher.py:25-36 | A record is written exactly when the event names a table and a group. It is then a FINISH record under `T<Completed>:S<Completed>`, with the whole event as input. |
| Workflow.RulesDistinct | Framework/lib/framework-stack.ts:514-542 | The choice rules test distinct strings, so at most one of them matches. |
| Workflow.FirstMatchFinds | Framework/lib/framework-stack.ts:514-542 | A step whose type is a rule's string takes that rule's branch. |
| Workflow.FirstMatchMisses | Framework/lib/framework-stack.ts:542 | A step whose type matches no rule takes the `otherwise` branch. |
| Workflow.Choose | Framework/lib/framework-stack.ts:514-542 | Each adapter tag routes to its own adapter, `Wait` to the waiter and `Completed` to the test finisher, each both ways. Anything else, including a non-string type, goes to the unknown-operation state. |
| Workflow.Perform | Framework/lib/framework-stack.ts:331-511 | An adapter that raises fails the branch with its exception. Otherwise the adapter's whole invocation result replaces `$.testResult`: its `Payload` and the invocation's other fields. The waiter fails with the state machine's runtime error exactly when the step's test has no `wait_time`, and with the waiter's failure exactly when the waiter refuses that `wait_time`. Otherwise it writes `Wait Complete` and keeps the other fields of the previous result. An unknown type yields a FAILED payload whose message is `Unknown Operation Requested: ` followed by the type, a string type as itself. |
| Workflow.StatesFormat | Framework/lib/framework-stack.ts:507 | `States.Format` inserts a string argument as itself. |
| Workflow.BranchRaises | Framework/lib/framework-stack.ts:331-498 | A raising adapter, a waiter step without `wait_time`, or one whose `wait_time` the waiter refuses, stops the test after the loader's START record, with that error; the step is never logged. |
| Workflow.StepRound | Framework/lib/framework-stack.ts:287-329 | One round of a test's loop writes the loader's START record first, whatever happens next, and can continue only while a step is left. A record the table refuses raises at its `put_item`. |
| Workflow.RoundFinishes | Framework/lib/framework-stack.ts:323-329 | Past the last step, the round writes only the test's FINISH record, under `T<test>:S<Completed>`. |
| Workflow.BranchLogs | Framework/lib/framework-stack.ts:307-313 | A branch that does not raise (adapters answer, and a Wait step names a `wait_time` the waiter accepts) hands the step logger a result it records, under the loaded step's id and the group. |
| Workflow.RoundContinues | Framework/lib/framework-stack.ts:287-313 | A round whose step loads, runs and is logged writes the START record and then the step record. |
| Workflow.RoundRuns | Framework/lib/framework-stack.ts:287-313 | With a group id the table accepts, a round on a runnable step (a Wait step's `wait_time` accepted by the waiter) continues, writing its START record and the step record under `T<test>:S<operation>`. |
| Workflow.AllRunnableTail | Framework/lib/framework-stack.ts:545 | The ids of the remaining runnable steps are the ids of the current step and of the steps after it. |
| Workflow.CompletedShift | Framework/lib/framework-stack.ts:545 | A round's two records in front of a completed rest make a completed test with one step more. |
| Workflow.RunTestCompletes | Framework/lib/framework-stack.ts:545 | With a group id the table accepts, a test whose steps are runnable (each Wait step's `wait_time` accepted by the waiter) goes round the loop once per step: a START record counting down and a step record per step, then its FINISH record, all in the group. |
| Workflow.RunTestLast | Framework/lib/framework-stack.ts:545 | From the last step, the loop writes only the FINISH record. |
| Workflow.RunTestFinished | Framework/lib/framework-stack.ts:541 | A round that finishes the test ends the loop. |
| Workflow.RunTestContinues | Framework/lib/framework-stack.ts:545 | A round that continues is followed by the loop from the next cursor. |
| Workflow.FinishOnly | Framework/lib/framework-stack.ts:323-329 | The FINISH record alone is a test that ran no step. |
| Workflow.ThreeStepTest | Framework/lambda/TestLoader.py:37-57 | A three-step test of runnable steps (waits the waiter accepts), in a group the table accepts, logs seven records, with START ids counting `S<2>`, `S<1>`, `S<0>`, and ends with `S<Completed>`. |
| Workflow.ThreeStepShape | Framework/lambda/TestLoader.py:50 | The scenario ids of a completed three-step test's START records and FINISH record. |
| Workflow.CompletedStepEndsTest | Framework/lib/framework-stack.ts:541 | A step whose operation is `Completed` ends the test: it is logged as the FINISH record under `T<test>:S<Completed>`, the id of the loader's own marker, and the later steps never run. |
| Workflow.CompletedStepFinishes | Framework/lib/framework-stack.ts:541 | The round on such a step writes its START record and the FINISH record. |
| Workflow.FinishOf | Framework/lambda/TestFinisher.py:31-38 | The test finisher logs a loaded step in the Map item's state as FINISH under the step's id, a key the table accepts when the group id is one. |
| Workflow.UnknownOperationLogged | Framework/lib/framework-stack.ts:501-511 | A step of unknown type does not stop the test: it is logged as FAILED with a message naming the type. When the type is a string, the message is `Unknown Operation Requested: <type>` and the record's id is `T<test>:S<type>`. |
| Workflow.UnknownRecord | Framework/lib/framework-stack.ts:501-511 | The unknown-operation result is logged as FAILED, with the message as output. |
| Workflow.CleanThen | Framework/lib/framework-stack.ts:547-565 | Records of the group in front of a clean rest give a clean run. |
| Workflow.RunItemCompletes | Framework/lib/framework-stack.ts:547-561 | With a group id the table accepts, a Map item with runnable steps completes from cursor -1 with only the group's records. |
| Workflow.RunBatchCompletes | Framework/lib/framework-stack.ts:547-561 | With a group id the table accepts, a batch of runnable tests completes, each test in turn, with every record in the group. |
| Workflow.GroupFinishes | Framework/lib/framework-stack.ts:315-321 | With nothing pending, the group finisher writes the FINISH record `T<Completed>:S<Completed>`, which logs the original `test_group`. |
| Workflow.RunGroupStep | Framework/lib/framework-stack.ts:563-565 | A batch that runs to its end is announced by a START record and followed by the rest of the group. |
| Workflow.RunGroupCompletes | Framework/lib/framework-stack.ts:547-565 | With a group id the table accepts, a group whose tests are runnable goes through every pending batch. Each batch is announced by a START record, and the run ends with the group's FINISH record. |
| Workflow.AnnouncedClean | Framework/lib/framework-stack.ts:563-565 | An announced batch in front of a clean rest is clean, with its START record first and the rest's last record last. |
| Workflow.RunStarts | Framework/lib/framework-stack.ts:568 | A group that loads has a group id the table accepts, and is announced by the Parser's START record, which logs the emptied group, before the group loop runs. |
| Workflow.StartedClean | Framework/lib/framework-stack.ts:568 | The Parser's START record in front of a clean group run is clean, and the last record is unchanged. |
| Workflow.RunCompletes | Framework/lib/framework-stack.ts:568 | A group that resolves, whose id the table accepts, whose files load and whose tests are runnable (adapters answer, waits accepted) runs to the end. Nothing stops it; every record belongs to the group; the count is the Parser's START, one START per batch, two records per step, one FINISH per test and the group's FINISH. The Parser's START comes first and the group's FINISH last. |
| Workflow.RunRejectsGroup | Framework/lambda/Parser.py:82-109 | A group with a double `"*"` stops the execution with KeyError, and one with a cycle never gets past the Parser. In both cases nothing is logged. |
| Workflow.RunStopsOnUnloadable | Framework/lambda/Parser.py:121-134 | With a group id the table accepts, a file that does not load stops the execution after the Parser's START record, which is then the only record. |
| Workflow.RoundRejectsKey | Framework/lambda/TestLoader.py:48-57 | With a group id the table refuses, a round writes nothing and stops with ValidationException: at the loader's START record, or at the test finisher's FINISH record once no step is left. |
| Workflow.GroupRejectsKey | Framework/lambda/IterationLoader.py:41-50 | With a group id the table refuses, the group loop writes nothing and stops with ValidationException. |
| Workflow.RunRejectsGroupId | Framework/lambda/Parser.py:112-121 | A group that resolves but whose id is not a non-empty string stops at the Parser's `put_item`: nothing is logged and no file is loaded. |
| Workflow.WaitRefused | Framework/lambda/Waiter.py:23-24 | A Wait step whose `wait_time` is null, a list, an object, a negative count or a count of the waiter's whole timeout or more stops the test after its START record with the waiter's failure. |

## Left out

- The adapter Lambdas (framework-stack.ts lines 343-498) are the `adapter` and
  `invocation` parameters of `Workflow.Env`: the `Payload` each answers or the exception
  it raises, and the other fields of the invocation's result. Each adapter's effect on the cloud resources it touches is not part of
  this model.
- The waiter is modelled as the payload it writes and the `waits` parameter of
  `Workflow.Env`, which says whether, handed a `wait_time`, it sleeps and reports success
  within its 3-minute Lambda timeout (framework-stack.ts line 95). `Workflow.WaiterAsWritten`
  pins the values `time.sleep(float(...))` surely refuses: null, a list, an object, a
  negative count, and a count of 180 seconds or more. Which strings and booleans `float()`
  accepts is left to `waits`. A waiter that raises or times out never sends its callback;
  the model stops the test with `WaiterFailed`, whether the real task then fails or keeps
  waiting. The sleep itself, the task token and the callback are not modelled.
- `Audit.LogTable.PutItem` checks only that both key attributes are non-empty strings. DynamoDB's
  other limits (the size of a key or of an item) and throttling are not modelled.
- Time stamps are the `now` parameter.
- Python's `str()` of an operation that is not a string, of the iteration list, and
  `States.Format` of a step type that is not a string, are the `show`, `render` and
  `format` parameters.
- Creating the log table (Parser.py lines 29-65) is not modelled. The model starts from a
  table that exists and is empty.
- The S3 download and the JSON parse of a test file are the `bucket` parameter, which
  gives a file's parsed content or nothing.
- `put_item` overwrites an item that has the same key. The model's table is the sequence
  of all items put, so a repeated key shows up twice rather than replacing the earlier
  item.
- The Map state runs the tests of a batch one after the other, and its `maxConcurrency`
  is not modelled. When one test of a batch raises, the model stops the batch at that test;
  concurrent branches of the real Map state may already have written records.
- The 10-minute timeout of the state machine (framework-stack.ts line 573) is not
  modelled. A loop that never ends is `Err(Diverges)`.
- Only the event fields the handlers read are modelled. The Parser's START record
  (Parser.py line 116) and the group's FINISH record (IterationsFinisher.py) log the whole
  submitted event. In the model that event holds only `test_group_id`, `log_table_name`,
  `bucket_name` and `test_group` (`Parser.EventJson`), so any other field the submitted
  event carries is missing from those two records.
- Infrastructure definitions, IAM roles and the CDK constructs outside lines 501-568 of
  framework-stack.ts are left out.
- JSON numbers are integers. Floating-point values are not modelled.
- `Parser.Handle`: the event is a typed `Parser.ParseEvent`, so the untyped event's error
  paths are not modelled:
  - a missing `log_table_name` raises KeyError first (Parser.py line 31);
  - a missing `test_group` raises KeyError at line 82;
  - a missing `test_group_id` raises KeyError at line 113, after the resolution and
    before the START record;
  - a `test_group` that is not a dict of lists of strings fails, or iterates characters,
    at lines 82-103;
  - a missing `bucket_name` raises KeyError at line 130, after the START record, when
    at least one file is to be loaded. When no file is to be loaded, it never raises.
- `Workflow.RunItem`: a `steps` value that is not a JSON list stops the test with a
  TypeError before any record. Python behaves that way only for a number, a bool or
  null, where `len` raises. An empty string or an empty object has length 0, so the
  test completes and writes its FINISH record. A non-empty object raises KeyError(0) at
  `steps[stepID]` (TestLoader.py line 45), before the START record. A non-empty string
  writes its START record (line 57), then raises TypeError at `step["operation"]` (line 60).
- `ScenarioIds.ScenarioIdInjective` holds only for test ids without `>`. Ids that contain
  `>` can collide, and that case is not covered.
- `TestLoader.ReturnedIdNotLogged` excludes operations whose printed form is all digits:
  such an id can equal a START id.
- `Workflow.RunCompletes` assumes that every adapter returns without raising and answers
  with a JSON object (`AdaptersAnswer`), and that the waiter accepts every Wait step's
  `wait_time` (`RunnableStep`); a refused wait stops the test (`Workflow.WaitRefused`). A raising adapter ends the test with no step
  record (`Workflow.BranchRaises`). The adapter tasks have no Catch, so in the real state
  machine that failure also fails the Map state and the execution. The model stops the
  batch at that test. An adapter that answers otherwise makes the step logger raise, and
  that case is covered only by `StepLogger.Handle`.
