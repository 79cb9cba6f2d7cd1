/** The Parser handler (Framework/lambda/Parser.py) as the loops it runs: the wildcard scan,
    the placement passes with their in-place strikes, the step loading and the START record.
    Each loop is proved to compute the function of module Resolver that describes it, so the
    properties proved in ResolverProperties hold of what the handler returns. */
module Parser {
  import opened Wrappers
  import opened Names
  import opened Resolver
  import ResolverProperties
  import opened Events
  import opened Audit
  import opened ScenarioIds

  // ---------------------------------------------------------------------------
  // Lines 84-92.

  lemma {:induction false} ScanDepsErrSticks(s: Scan, file: Name, ds: seq<Name>, j: nat)
    requires j <= |ds| && ScanDeps(s, file, ds[..j]).Err?
    ensures ScanDeps(s, file, ds) == ScanDeps(s, file, ds[..j])
    decreases |ds| - j
  {
    if j < |ds| {
      assert ds[..j + 1][..j] == ds[..j];
      ScanDepsErrSticks(s, file, ds, j + 1);
    } else {
      assert ds[..j] == ds;
    }
  }

  lemma {:induction false} ScanFilesErrSticks(g: Group, files: seq<Name>, i: nat)
    requires i <= |files| && ScanFiles(g, files[..i]).Err?
    ensures ScanFiles(g, files) == ScanFiles(g, files[..i])
    decreases |files| - i
  {
    if i < |files| {
      assert files[..i + 1][..i] == files[..i];
      ScanFilesErrSticks(g, files, i + 1);
    } else {
      assert files[..i] == files;
    }
  }

  /** The inner loop over the list of `file`: a "*" pops `file` into `end` (a second "*"
      pops a key that is gone), a name that is not a key goes into the open first iteration. */
  method ScanList(t: Scan, file: Name, deps: seq<Name>) returns (r: Result<Scan, Failure>)
    ensures r == ScanDeps(t, file, deps)
  {
    var live, first, end := t.live, t.first, t.end;
    var j := 0;
    while j < |deps|
      invariant 0 <= j <= |deps|
      invariant ScanDeps(t, file, deps[..j]) == Ok(Scan(live, first, end))
    {
      var depend := deps[j];
      assert deps[..j + 1][..j] == deps[..j];
      if depend == Wildcard {
        if file !in live {
          ScanDepsErrSticks(t, file, deps, j + 1);
          return Err(Failure.KeyError(file));
        }
        end := end + [file];
        live := Keep(live, {file});
      } else if depend !in live {
        first := first + [depend];
      }
      j := j + 1;
    }
    assert deps[..j] == deps;
    return Ok(Scan(live, first, end));
  }

  /** The outer loop over the keys of the snapshot, in insertion order. */
  method ScanGroup(g: Group) returns (r: Result<Scan, Failure>)
    requires WellFormed(g)
    ensures r == ScanFiles(g, g.order)
  {
    var t := Scan(g.order, [], []);
    var i := 0;
    while i < |g.order|
      invariant 0 <= i <= |g.order|
      invariant ScanFiles(g, g.order[..i]) == Ok(t)
    {
      var file := g.order[i];
      assert g.order[..i + 1][..i] == g.order[..i];
      var u := ScanList(t, file, g.deps[file]);
      if u.Err? {
        ScanFilesErrSticks(g, g.order, i + 1);
        return u;
      }
      t := u.value;
      i := i + 1;
    }
    assert g.order[..i] == g.order;
    return Ok(t);
  }

  // ---------------------------------------------------------------------------
  // Lines 95-98.

  lemma ReadyStep(pre: seq<Name>, k: nat, cur: map<Name, seq<Name>>)
    requires k < |pre|
    ensures Ready(pre[..k + 1], cur) == Ready(pre[..k], cur) + (if IsReady(cur, pre[k]) then [pre[k]] else [])
  {
    assert pre[..k + 1][..k] == pre[..k];
  }

  lemma PopStep(live: seq<Name>, batch: seq<Name>, file: Name)
    ensures Keep(Keep(live, Elems(batch)), {file}) == Keep(live, Elems(batch + [file]))
  {
    KeepKeep(live, Elems(batch), {file});
    ElemsAppend(batch, [file]);
    assert Elems([file]) == {file};
  }

  /** Every key of the snapshot whose list is empty is appended to the last iteration and
      popped from the group, in snapshot order. */
  method PlaceReady(pre: seq<Name>, live: seq<Name>, cur: map<Name, seq<Name>>, its: seq<seq<Name>>)
    returns (live': seq<Name>, its': seq<seq<Name>>)
    requires its != []
    ensures live' == Keep(live, Elems(Ready(pre, cur)))
    ensures its' == its[..|its| - 1] + [its[|its| - 1] + Ready(pre, cur)]
  {
    live' := live;
    var last := its[|its| - 1];
    ghost var batch: seq<Name> := [];
    KeepNothing(live, {});
    assert Elems(batch) == {};
    assert pre[..0] == [];
    var k := 0;
    while k < |pre|
      invariant 0 <= k <= |pre|
      invariant batch == Ready(pre[..k], cur)
      invariant live' == Keep(live, Elems(batch))
      invariant last == its[|its| - 1] + batch
    {
      var file := pre[k];
      ReadyStep(pre, k, cur);
      if file in cur && cur[file] == [] {
        last := last + [file];
        PopStep(live, batch, file);
        live' := Keep(live', {file});
        batch := batch + [file];
      }
      k := k + 1;
    }
    assert pre[..k] == pre;
    assert batch == Ready(pre, cur);
    its' := its[..|its| - 1] + [last];
  }

  // ---------------------------------------------------------------------------
  // Lines 100-103.

  /** `for depend in lst: if depend not in testGroup: lst.remove(depend)` on one list: the
      iterator walks indices of the list it shrinks, so the entry after a removed one is
      skipped. */
  method StrikeList(xs: seq<Name>, live: seq<Name>) returns (ys: seq<Name>)
    ensures ys == Strike(xs, Elems(live))
  {
    ys := xs;
    var x := 0;
    while x < |ys|
      invariant StrikeFrom(ys, x, Elems(live)) == Strike(xs, Elems(live))
      decreases |ys| - x
    {
      if ys[x] !in live {
        ys := RemoveFirst(ys, ys[x]);
      }
      x := x + 1;
    }
  }

  /** The strike loop over every key still in the group. */
  method StrikeDeparted(live: seq<Name>, cur: map<Name, seq<Name>>) returns (cur': map<Name, seq<Name>>)
    ensures cur' == StrikeAll(live, Elems(live), cur)
  {
    cur' := cur;
    var f := 0;
    while f < |live|
      invariant 0 <= f <= |live|
      invariant cur' == StrikeAll(live[..f], Elems(live), cur)
    {
      var file := live[f];
      assert live[..f + 1] == live[..f] + [file];
      StrikeAllSnoc(live[..f], file, Elems(live), cur);
      if file in cur' {
        var struck := StrikeList(cur'[file], live);
        cur' := cur'[file := struck];
      }
      f := f + 1;
    }
    assert live[..f] == live;
  }

  // ---------------------------------------------------------------------------
  // Lines 82-109.

  /** What the passes still to run return, put after the batches already produced. */
  function After(done: seq<seq<Name>>, rest: Result<seq<seq<Name>>, Failure>): Result<seq<seq<Name>>, Failure>
  {
    match rest
    case Err(e) => Err(e)
    case Ok(layers) => Ok(done + layers)
  }

  lemma AfterNothing(rest: Result<seq<seq<Name>>, Failure>)
    ensures After([], rest) == rest
  {
    if rest.Ok? {
      assert [] + rest.value == rest.value;
    }
  }

  /** A batch moves from the front of the batches still to come to the end of the batches
      already produced. */
  lemma AfterPrepend(done: seq<seq<Name>>, batch: seq<Name>, rest: Result<seq<seq<Name>>, Failure>)
    ensures After(done, Prepend(batch, rest)) == After(done + [batch], rest)
  {
    if rest.Ok? {
      assert done + ([batch] + rest.value) == (done + [batch]) + rest.value;
    }
  }

  /** Line 104 opens a new iteration after each pass, so the open entry is the next batch. */
  lemma MergeSnoc(first: seq<Name>, done: seq<seq<Name>>, batch: seq<Name>)
    ensures Merge(first, done + [batch]) == Merge(first, done) + [(if done == [] then first else []) + batch]
  {
    if done != [] {
      assert (done + [batch])[1..] == done[1..] + [batch];
      assert [] + batch == batch;
    }
  }

  /** The open last entry receives the batch of a pass, and line 104 opens the next one. */
  lemma OpenStep(first: seq<Name>, done: seq<seq<Name>>, batch: seq<Name>, its: seq<seq<Name>>)
    requires its == Merge(first, done) + [if done == [] then first else []]
    ensures its[..|its| - 1] + [its[|its| - 1] + batch] + [[]] == Merge(first, done + [batch]) + [[]]
  {
    MergeSnoc(first, done, batch);
    assert its[..|its| - 1] == Merge(first, done);
  }

  /** Once no key is live, lines 107-109 turn the list into the assembled iteration list. */
  lemma Finish(g: Group, s: Scan, done: seq<seq<Name>>, pre: seq<Name>, cur: map<Name, seq<Name>>, its: seq<seq<Name>>)
    requires ScanFiles(g, g.order) == Ok(s)
    requires Layers(Initial(g, s)) == After(done, Layers(Pending(pre, [], cur)))
    requires its == Merge(s.first, done) + [if done == [] then s.first else []]
    ensures Resolve(g) == Ok(its[..|its| - 1] + (if s.end == [] then [] else [s.end]))
  {
    assert done + [] == done;
    assert its[..|its| - 1] == Merge(s.first, done);
  }

  /** One pass of the `while` body, from the batch placed to the lists struck: either the
      loop can never end, or the pass consumed something and the loop state moved on. */
  lemma PassStep(g: Group, s: Scan, done: seq<seq<Name>>, p: Pending, live: seq<Name>, struck: map<Name, seq<Name>>,
                 its: seq<seq<Name>>, its': seq<seq<Name>>)
    requires p.live != []
    requires Layers(Initial(g, s)) == After(done, Layers(p))
    requires its == Merge(s.first, done) + [if done == [] then s.first else []]
    requires live == Keep(p.live, Elems(Ready(p.pre, p.cur)))
    requires struck == StrikeAll(live, Elems(live), p.cur)
    requires its' == its[..|its| - 1] + [its[|its| - 1] + Ready(p.pre, p.cur)] + [[]]
    ensures live == p.live && struck == p.cur ==> Layers(Initial(g, s)) == Err(Diverges)
    ensures !(live == p.live && struck == p.cur) ==>
              && Measure(Pending(live, live, struck)) < Measure(p)
              && Layers(Initial(g, s)) == After(done + [Ready(p.pre, p.cur)], Layers(Pending(live, live, struck)))
              && its' == Merge(s.first, done + [Ready(p.pre, p.cur)]) + [[]]
  {
    assert Pass(p) == Pending(live, live, struck);
    if !(live == p.live && struck == p.cur) {
      PassShrinks(p);
      LayersStep(p);
      AfterPrepend(done, Ready(p.pre, p.cur), Layers(Pass(p)));
      OpenStep(s.first, done, Ready(p.pre, p.cur), its);
    }
  }

  /** The dict `testGroup`: its live keys and their current lists. */
  function Dict(live: seq<Name>, cur: map<Name, seq<Name>>): Group
  {
    Group(live, map k | k in live && k in cur :: cur[k])
  }

  /** The iteration list of the test group, or the failure that stops the handler: a
      KeyError from a second "*", or a `while` loop that would never end. */
  method BuildIterations(g: Group) returns (r: Result<seq<seq<Name>>, Failure>, testGroup: Group)
    requires WellFormed(g)
    ensures r == Resolve(g)
    ensures r.Ok? ==> testGroup == Group([], map[])
    ensures r.Ok? <==> AtMostOneWildcard(g) && ResolverProperties.Acyclic(g)
    ensures r.Err? && r.error.KeyError? <==> !AtMostOneWildcard(g)
    ensures r == Err(Diverges) <==> AtMostOneWildcard(g) && !ResolverProperties.Acyclic(g)
  {
    var scan := ScanGroup(g);
    if scan.Err? {
      ResolverProperties.ResolveOutcome(g);
      return Err(scan.error), g;
    }
    var s := scan.value;
    var pre, live, cur := g.order, s.live, g.deps;
    var its: seq<seq<Name>> := [s.first];
    ghost var done: seq<seq<Name>> := [];
    AfterNothing(Layers(Initial(g, s)));
    while live != []
      invariant its == Merge(s.first, done) + [if done == [] then s.first else []]
      invariant Layers(Initial(g, s)) == After(done, Layers(Pending(pre, live, cur)))
      decreases Measure(Pending(pre, live, cur))
    {
      ghost var p := Pending(pre, live, cur);
      ghost var batch := Ready(pre, cur);
      var before := live;
      ghost var old_its := its;
      live, its := PlaceReady(pre, live, cur, its);
      var struck := StrikeDeparted(live, cur);
      its := its + [[]];
      PassStep(g, s, done, p, live, struck, old_its, its);
      if live == before && struck == cur {
        ResolverProperties.ResolveOutcome(g);
        return Err(Diverges), Dict(live, struck);
      }
      cur := struck;
      pre := live;
      done := done + [batch];
    }
    Finish(g, s, done, pre, cur, its);
    ghost var expected := its[..|its| - 1] + (if s.end == [] then [] else [s.end]);
    its := its[..|its| - 1];
    if s.end != [] {
      its := its + [s.end];
    } else {
      assert its + [] == its;
    }
    assert its == expected;
    ResolverProperties.ResolveOutcome(g);
    assert Dict(live, cur).deps == map[];
    return Ok(its), Dict(live, cur);
  }

  // ---------------------------------------------------------------------------
  // Lines 124-134.

  /** One loaded test: its file name and the `steps` of the file's JSON. */
  datatype TestEntry = TestEntry(testId: Name, steps: Json)

  /** Why loading a test file fails: the download or the JSON parse (no value from the
      bucket), or `test["steps"]`. */
  datatype LoadFailure = Unreadable(name: Name) | NoSteps(name: Name, fault: Fault)

  /** The download, parse and `test["steps"]` of one file; `bucket` is the parsed content of
      the event's bucket by file name. */
  function LoadTest(bucket: Name -> Option<Json>, name: Name): (r: Result<TestEntry, LoadFailure>)
    ensures r.Ok? <==> bucket(name).Some? && Field(bucket(name).value, "steps").Ok?
    ensures r.Ok? ==> r.value == TestEntry(name, Field(bucket(name).value, "steps").value)
  {
    match bucket(name)
    case None => Err(Unreadable(name))
    case Some(test) =>
      match Field(test, "steps")
      case Err(f) => Err(NoSteps(name, f))
      case Ok(steps) => Ok(TestEntry(name, steps))
  }

  /** The inner loop over one iteration's file names. */
  function LoadRow(bucket: Name -> Option<Json>, names: seq<Name>): Result<seq<TestEntry>, LoadFailure>
  {
    if names == [] then Ok([])
    else
      match LoadRow(bucket, names[..|names| - 1])
      case Err(f) => Err(f)
      case Ok(row) =>
        match LoadTest(bucket, names[|names| - 1])
        case Err(f) => Err(f)
        case Ok(t) => Ok(row + [t])
  }

  /** The outer loop over the iteration list. */
  function LoadAll(bucket: Name -> Option<Json>, its: seq<seq<Name>>): Result<seq<seq<TestEntry>>, LoadFailure>
  {
    if its == [] then Ok([])
    else
      match LoadAll(bucket, its[..|its| - 1])
      case Err(f) => Err(f)
      case Ok(out) =>
        match LoadRow(bucket, its[|its| - 1])
        case Err(f) => Err(f)
        case Ok(row) => Ok(out + [row])
  }

  predicate Loads(bucket: Name -> Option<Json>, name: Name)
  {
    LoadTest(bucket, name).Ok?
  }

  lemma {:induction false} LoadRowShape(bucket: Name -> Option<Json>, names: seq<Name>)
    ensures LoadRow(bucket, names).Ok? <==> forall j :: 0 <= j < |names| ==> Loads(bucket, names[j])
    ensures LoadRow(bucket, names).Ok? ==> |LoadRow(bucket, names).value| == |names|
    ensures LoadRow(bucket, names).Ok? ==>
              forall j :: 0 <= j < |names| ==> LoadRow(bucket, names).value[j] == LoadTest(bucket, names[j]).value
    ensures LoadRow(bucket, names).Err? ==>
              exists j :: 0 <= j < |names| && LoadTest(bucket, names[j]) == Err(LoadRow(bucket, names).error)
  {
    if names != [] {
      var init := names[..|names| - 1];
      LoadRowShape(bucket, init);
      assert forall j :: 0 <= j < |init| ==> init[j] == names[j];
    }
  }

  /** The loaded output has the shape of the iteration list: entry (i, j) is the file
      `its[i][j]` with the steps of its JSON. Loading fails exactly when some file fails, and
      then with that file's failure. */
  lemma {:induction false} LoadAllShape(bucket: Name -> Option<Json>, its: seq<seq<Name>>)
    ensures LoadAll(bucket, its).Ok? <==>
              forall i, j :: 0 <= i < |its| && 0 <= j < |its[i]| ==> Loads(bucket, its[i][j])
    ensures LoadAll(bucket, its).Ok? ==>
              && |LoadAll(bucket, its).value| == |its|
              && (forall i :: 0 <= i < |its| ==> |LoadAll(bucket, its).value[i]| == |its[i]|)
              && (forall i, j :: 0 <= i < |its| && 0 <= j < |its[i]| ==>
                    LoadAll(bucket, its).value[i][j] == TestEntry(its[i][j], Field(bucket(its[i][j]).value, "steps").value))
    ensures LoadAll(bucket, its).Err? ==>
              exists i, j :: 0 <= i < |its| && 0 <= j < |its[i]| && LoadTest(bucket, its[i][j]) == Err(LoadAll(bucket, its).error)
  {
    if its != [] {
      var init, last := its[..|its| - 1], its[|its| - 1];
      LoadAllShape(bucket, init);
      LoadRowShape(bucket, last);
      assert forall i :: 0 <= i < |init| ==> init[i] == its[i];
      if LoadAll(bucket, init).Ok? && LoadRow(bucket, last).Err? {
        var j :| 0 <= j < |last| && LoadTest(bucket, last[j]) == Err(LoadRow(bucket, last).error);
        assert its[|its| - 1][j] == last[j];
      }
    }
  }

  /** The inner `for` loop of lines 126-133 over the file names of one iteration. */
  method LoadIteration(bucket: Name -> Option<Json>, iterationFiles: seq<Name>) returns (r: Result<seq<TestEntry>, LoadFailure>)
    ensures r == LoadRow(bucket, iterationFiles)
  {
    var row: seq<TestEntry> := [];
    var j := 0;
    while j < |iterationFiles|
      invariant 0 <= j <= |iterationFiles|
      invariant LoadRow(bucket, iterationFiles[..j]) == Ok(row)
    {
      var testFile := iterationFiles[j];
      assert iterationFiles[..j + 1][..j] == iterationFiles[..j];
      var test := bucket(testFile);
      if test.None? {
        LoadRowErrSticks(bucket, iterationFiles, j + 1);
        return Err(Unreadable(testFile));
      }
      var steps := Field(test.value, "steps");
      if steps.Err? {
        LoadRowErrSticks(bucket, iterationFiles, j + 1);
        return Err(NoSteps(testFile, steps.error));
      }
      row := row + [TestEntry(testFile, steps.value)];
      j := j + 1;
    }
    assert iterationFiles[..j] == iterationFiles;
    return Ok(row);
  }

  /** Lines 124-134: every file of every iteration, read from the bucket in order; the
      first file that cannot be read, or has no `steps`, stops the handler. */
  method LoadTests(bucket: Name -> Option<Json>, its: seq<seq<Name>>) returns (r: Result<seq<seq<TestEntry>>, LoadFailure>)
    ensures r == LoadAll(bucket, its)
  {
    var output: seq<seq<TestEntry>> := [];
    var i := 0;
    while i < |its|
      invariant 0 <= i <= |its|
      invariant LoadAll(bucket, its[..i]) == Ok(output)
    {
      assert its[..i + 1][..i] == its[..i];
      var row := LoadIteration(bucket, its[i]);
      if row.Err? {
        LoadAllErrSticks(bucket, its, i + 1);
        return Err(row.error);
      }
      output := output + [row.value];
      i := i + 1;
    }
    assert its[..i] == its;
    return Ok(output);
  }

  lemma {:induction false} LoadRowErrSticks(bucket: Name -> Option<Json>, names: seq<Name>, j: nat)
    requires j <= |names| && LoadRow(bucket, names[..j]).Err?
    ensures LoadRow(bucket, names) == LoadRow(bucket, names[..j])
    decreases |names| - j
  {
    if j < |names| {
      assert names[..j + 1][..j] == names[..j];
      LoadRowErrSticks(bucket, names, j + 1);
    } else {
      assert names[..j] == names;
    }
  }

  lemma {:induction false} LoadAllErrSticks(bucket: Name -> Option<Json>, its: seq<seq<Name>>, i: nat)
    requires i <= |its| && LoadAll(bucket, its[..i]).Err?
    ensures LoadAll(bucket, its) == LoadAll(bucket, its[..i])
    decreases |its| - i
  {
    if i < |its| {
      assert its[..i + 1][..i] == its[..i];
      LoadAllErrSticks(bucket, its, i + 1);
    } else {
      assert its[..i] == its;
    }
  }

  // ---------------------------------------------------------------------------
  // The handler: lines 82-134 without the table provisioning.

  /** The event fields the handler reads. */
  datatype ParseEvent = ParseEvent(testGroupId: Json, logTableName: string, bucketName: string, testGroup: Group)

  /** The resolver's failure, the table refusing the START record, or a file that does not load. */
  datatype ParseFailure = Unresolvable(failure: Failure) | Rejected(fault: Fault) | Unloadable(cause: LoadFailure)

  function GroupJson(g: Group): Json
  {
    JObj(map k | k in g.deps :: Strings(g.deps[k]))
  }

  function EventJson(e: ParseEvent): Json
  {
    JObj(map["test_group_id" := e.testGroupId, "log_table_name" := JStr(e.logTableName),
             "bucket_name" := JStr(e.bucketName), "test_group" := GroupJson(e.testGroup)])
  }

  const ListCreated: string := "Input Parsing Finished, Created Iteration List: "
  const DownloadStarted: string := "\n Started Downloading tests from S3 bucket"

  /** Lines 112-119; `render` is Python's `str()` of the iteration list. */
  function StartRecord(event: ParseEvent, its: seq<seq<Name>>, render: seq<seq<Name>> -> string, now: string): Record
  {
    Record(event.testGroupId, JStr(ScenarioId("Null", "Null")), JStr("START"), EventJson(event),
           JStr(ListCreated + render(its) + DownloadStarted), now)
  }

  /** What the handler returns: the loaded iteration list, or what stops it. The START
      record is put between resolving and loading, so a group id the table refuses stops the
      handler there. */
  function Parse(event: ParseEvent, bucket: Name -> Option<Json>): Result<seq<seq<TestEntry>>, ParseFailure>
  {
    match Resolve(event.testGroup)
    case Err(f) => Err(Unresolvable(f))
    case Ok(its) =>
      if !KeyString(event.testGroupId) then Err(Rejected(ValidationException))
      else
        match LoadAll(bucket, its)
        case Err(f) => Err(Unloadable(f))
        case Ok(out) => Ok(out)
  }

  /** The records the handler writes: the START record once the iteration list is built,
      when the table accepts the group id. The event it logs is the one whose `test_group`
      the resolver has emptied. */
  function Logged(event: ParseEvent, render: seq<seq<Name>> -> string, now: string): seq<Record>
  {
    match Resolve(event.testGroup)
    case Err(_) => []
    case Ok(its) =>
      if !KeyString(event.testGroupId) then [] else [StartRecord(event.(testGroup := Group([], map[])), its, render, now)]
  }

  /** The handler. `testGroup` is the event's own dict, so the START record logs the event
      with the group the resolver has emptied. The record is written before any file is
      loaded, and only when the iteration list was built. */
  method Handle(event: ParseEvent, bucket: Name -> Option<Json>, render: seq<seq<Name>> -> string, now: string, log: LogTable)
    returns (r: Result<seq<seq<TestEntry>>, ParseFailure>)
    requires WellFormed(event.testGroup)
    modifies log
    ensures r == Parse(event, bucket)
    ensures log.records == old(log.records) + Logged(event, render, now)
  {
    var its, testGroup := BuildIterations(event.testGroup);
    if its.Err? {
      return Err(Unresolvable(its.error));
    }
    var logged := event.(testGroup := testGroup);
    var raised := log.PutItem(StartRecord(logged, its.value, render, now));
    if raised.Some? {
      return Err(Rejected(raised.value));
    }
    var output := LoadTests(bucket, its.value);
    if output.Err? {
      return Err(Unloadable(output.error));
    }
    return Ok(output.value);
  }
}
