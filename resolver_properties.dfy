/** What the iteration list built by Framework/lambda/Parser.py (lines 82-109) guarantees:
    coverage, ordering, the wildcard iteration, the first iteration, and exactly when the
    `while (testGroup)` loop ends. */
module ResolverProperties {
  import opened Wrappers
  import opened Names
  import opened Resolver

  /** A non-empty set of tests each of which lists a member of the set: none of them can
      ever reach an empty list. */
  ghost predicate Closed(g: Group, S: set<Name>)
  {
    S != {} && forall k :: k in S ==> k in g.deps && |Within(g.deps[k], S)| > 0
  }

  /** No set of non-wildcard tests is closed: the dependency graph among them has no cycle. */
  ghost predicate Acyclic(g: Group)
  {
    forall S :: S <= NormalKeys(g) ==> !Closed(g, S)
  }

  // ---------------------------------------------------------------------------
  // The wildcard scan (lines 84-92).

  lemma {:induction false} WildcardsInMembers(g: Group, files: seq<Name>)
    ensures forall x :: x in WildcardsIn(g, files) <==> x in files && IsWildcard(g, x)
    ensures Distinct(files) ==> Distinct(WildcardsIn(g, files))
  {
    if files != [] {
      var prefix, f := files[..|files| - 1], files[|files| - 1];
      assert files == prefix + [f];
      WildcardsInMembers(g, prefix);
      if Distinct(files) {
        DistinctPrefix(files);
        if IsWildcard(g, f) {
          DistinctAppend(WildcardsIn(g, prefix), [f]);
        } else {
          assert WildcardsIn(g, files) == WildcardsIn(g, prefix);
        }
      }
    }
  }

  /** The scan fails exactly when some list holds `"*"` twice, and then with a KeyError;
      otherwise it pops exactly the wildcard keys, collects them in key order, leaves
      the other keys live, and puts every dependency that is not a key into the first
      iteration, in order and once per occurrence. */
  lemma ScanOutcome(g: Group)
    requires WellFormed(g)
    ensures ScanFiles(g, g.order).Ok? <==> AtMostOneWildcard(g)
    ensures ScanFiles(g, g.order).Err? ==> ScanFiles(g, g.order).error.KeyError?
    ensures ScanFiles(g, g.order).Ok? ==>
      var s := ScanFiles(g, g.order).value;
      && s.end == WildcardsIn(g, g.order)
      && Distinct(s.end) && (forall x :: x in s.end <==> IsWildcard(g, x))
      && Distinct(s.live) && (forall x :: x in s.live <==> IsNormal(g, x))
      && Keep(s.first, KeysAndWildcard(g)) == Keep(AllDeps(g, g.order), KeysAndWildcard(g))
      && (forall x :: x in s.first ==> !IsNormal(g, x))
  {
    ScanFilesFacts(g, g.order);
    assert SingleWildcards(g, g.order) <==> AtMostOneWildcard(g);
    WildcardsInMembers(g, g.order);
    if ScanFiles(g, g.order).Ok? {
      var s := ScanFiles(g, g.order).value;
      KeepDistinct(g.order, Elems(s.end));
    }
  }

  // ---------------------------------------------------------------------------
  // The invariant of the `while (testGroup)` loop (lines 94-105).

  /** The loop state of group `g` between passes:
      - the snapshot and the live order have no repeated key;
      - every key's list is still in `cur`;
      - live keys are non-wildcard keys, and all of them are in the snapshot;
      - a key of the snapshot whose list is empty is live, so `testGroup.pop` finds it;
      - a live key's list holds only entries of its original list;
      - a live key's list still holds every live test its original list names. */
  ghost predicate Inv(g: Group, p: Pending)
  {
    && Distinct(p.pre) && Distinct(p.live)
    && p.cur.Keys == g.deps.Keys
    && (forall k :: k in p.live ==> IsNormal(g, k) && k in p.pre)
    && (forall k :: k in p.pre && IsReady(p.cur, k) ==> k in p.live)
    && (forall k :: k in p.live ==> multiset(p.cur[k]) <= multiset(g.deps[k]))
    && (forall k, d :: k in p.live && d in p.live && d in g.deps[k] ==> d in p.cur[k])
  }

  /** The loop starts in the invariant, with the non-wildcard keys live. */
  lemma InitialInv(g: Group, s: Scan)
    requires WellFormed(g) && ScanFiles(g, g.order) == Ok(s)
    ensures Inv(g, Initial(g, s))
    ensures forall x :: x in Initial(g, s).live <==> IsNormal(g, x)
  {
    ScanLive(g, s);
    var p := Initial(g, s);
    assert Distinct(p.pre) && Distinct(p.live) && p.cur.Keys == g.deps.Keys;
    assert forall k :: k in p.live ==> IsNormal(g, k) && k in p.pre;
    assert forall k :: k in p.pre && IsReady(p.cur, k) ==> k in p.live by {
      forall k | k in p.pre && IsReady(p.cur, k) ensures k in p.live {
        assert IsNormal(g, k);
      }
    }
  }

  /** After the scan, the live keys are the non-wildcard keys, once each. */
  lemma ScanLive(g: Group, s: Scan)
    requires WellFormed(g) && ScanFiles(g, g.order) == Ok(s)
    ensures Distinct(s.live) && forall x :: x in s.live <==> IsNormal(g, x)
  {
    ScanOutcome(g);
  }

  /** Every pass keeps the invariant. */
  lemma PassInv(g: Group, p: Pending)
    requires Inv(g, p)
    ensures Inv(g, Pass(p))
  {
    var q := Pass(p);
    KeepDistinct(p.live, Elems(Ready(p.pre, p.cur)));
    forall k | k in q.live
      ensures multiset(q.cur[k]) <= multiset(g.deps[k])
      ensures forall d :: d in q.live && d in g.deps[k] ==> d in q.cur[k]
    {
      assert q.cur[k] == Strike(p.cur[k], Elems(q.live));
      forall d | d in q.live && d in g.deps[k] ensures d in q.cur[k] {
        assert d in p.cur[k];
        assert multiset(q.cur[k])[d] == multiset(p.cur[k])[d];
      }
    }
  }

  // ---------------------------------------------------------------------------
  // What the passes produce.

  /** When a pass pops nothing, no live test's list is empty. */
  lemma NothingReady(g: Group, p: Pending)
    requires Inv(g, p)
    requires Keep(p.live, Elems(Ready(p.pre, p.cur))) == p.live
    ensures forall k :: k in p.live ==> !IsReady(p.cur, k)
  {
  }

  /** When a pass strikes nothing, every entry of a live list is a live test of the
      original list. */
  lemma NothingStruck(g: Group, p: Pending, k: Name)
    requires Inv(g, p) && k in p.live
    requires StrikeAll(p.live, Elems(p.live), p.cur) == p.cur
    ensures forall d :: d in p.cur[k] ==> d in p.live && d in g.deps[k]
  {
    var xs := p.cur[k];
    assert Strike(xs, Elems(p.live)) == xs;
    forall d | d in xs ensures d in p.live && d in g.deps[k] {
      var j :| 0 <= j < |xs| && xs[j] == d;
      assert xs[j] in Elems(p.live);
      assert multiset(xs)[d] > 0;
    }
  }

  lemma NothingStruckAll(g: Group, p: Pending)
    requires Inv(g, p)
    requires StrikeAll(p.live, Elems(p.live), p.cur) == p.cur
    ensures forall k, d :: k in p.live && d in p.cur[k] ==> d in p.live && d in g.deps[k]
  {
    forall k | k in p.live {
      NothingStruck(g, p, k);
    }
  }

  /** Live tests whose lists are non-empty and name only live tests form a closed set. */
  lemma ClosedOfLive(g: Group, live: seq<Name>, cur: map<Name, seq<Name>>)
    requires live != []
    requires forall k :: k in live ==> k in g.deps && k in cur && cur[k] != []
    requires forall k, d :: k in live && d in cur[k] ==> d in live && d in g.deps[k]
    ensures Closed(g, Elems(live))
  {
    var S := Elems(live);
    forall k | k in S ensures k in g.deps && |Within(g.deps[k], S)| > 0 {
      var d := cur[k][0];
      assert d in cur[k];
      assert d in live && d in g.deps[k];
      assert d in S;
      assert d in Within(g.deps[k], S);
    }
    assert live[0] in S;
  }

  /** In a stalled state no live test's list is empty, and every live list names only live
      tests: the live tests form a closed set. */
  lemma StalledClosed(g: Group, p: Pending)
    requires Inv(g, p) && p.live != [] && Stalled(p)
    ensures Closed(g, Elems(p.live))
    ensures forall k :: k in p.live ==> !IsReady(p.cur, k)
  {
    NothingReady(g, p);
    NothingStruckAll(g, p);
    ClosedOfLive(g, p.live, p.cur);
  }

  /** A stalled state is a fixed point of the pass: from it, the `while` loop runs forever
      without changing anything. */
  lemma StalledFixpoint(g: Group, p: Pending)
    requires Inv(g, p) && Stalled(p)
    ensures Pass(Pass(p)) == Pass(p)
  {
    assert Pass(p) == Pending(p.live, p.live, p.cur);
    assert Keep(p.live, Elems(Ready(p.live, p.cur))) == p.live by {
      StalledNoneReady(g, p);
      ReadyNone(p.live, p.cur);
      KeepNothing(p.live, {});
      assert Elems([]) == {};
    }
  }

  lemma StalledNoneReady(g: Group, p: Pending)
    requires Inv(g, p) && Stalled(p)
    ensures forall k :: k in p.live ==> !IsReady(p.cur, k)
  {
    NothingReady(g, p);
  }

  lemma ReadyNone(pre: seq<Name>, cur: map<Name, seq<Name>>)
    requires forall k :: k in pre ==> !IsReady(cur, k)
    ensures Ready(pre, cur) == []
  {
  }

  /** The layers of a run: a failure is always divergence; on success the layers hold the
      live tests, each exactly once. */
  lemma {:induction false} LayersCover(g: Group, p: Pending)
    requires Inv(g, p)
    ensures Layers(p).Err? ==> Layers(p).error == Diverges
    ensures Layers(p).Ok? ==> Distinct(Flatten(Layers(p).value))
    ensures Layers(p).Ok? ==> forall x :: x in Flatten(Layers(p).value) <==> x in p.live
    decreases Measure(p)
  {
    if p.live != [] && !Stalled(p) {
      PassShrinks(p);
      PassInv(g, p);
      LayersCover(g, Pass(p));
      var r := Layers(Pass(p));
      if r.Ok? {
        var R := Ready(p.pre, p.cur);
        var L := [R] + r.value;
        assert L[0] == R && L[1..] == r.value;
        assert Flatten(L) == R + Flatten(r.value);
        DistinctAppend(R, Flatten(r.value));
      }
    }
  }

  /** No test of a batch lists a test of the same or a later batch. */
  ghost predicate Ordered(g: Group, L: seq<seq<Name>>)
  {
    forall i, j, k, d :: 0 <= i <= j < |L| && k in L[i] && d in L[j] && k in g.deps ==> d !in g.deps[k]
  }

  lemma OrderedCons(g: Group, R: seq<Name>, rest: seq<seq<Name>>)
    requires Ordered(g, rest)
    requires forall k, d :: k in R && k in g.deps && d in Flatten([R] + rest) ==> d !in g.deps[k]
    ensures Ordered(g, [R] + rest)
  {
    var L := [R] + rest;
    forall i, j, k, d | 0 <= i <= j < |L| && k in L[i] && d in L[j] && k in g.deps ensures d !in g.deps[k] {
      if i == 0 {
        assert d in Flatten(L);
      } else {
        assert L[i] == rest[i - 1] && L[j] == rest[j - 1];
      }
    }
  }

  /** A test whose list is empty lists no live test. */
  lemma ReadyListsNoLive(g: Group, p: Pending)
    requires Inv(g, p)
    ensures forall k, d :: k in Ready(p.pre, p.cur) && k in g.deps && d in p.live ==> d !in g.deps[k]
  {
  }

  /** A test never lists a test placed in the same or a later layer. */
  lemma {:induction false} LayersOrder(g: Group, p: Pending)
    requires Inv(g, p) && Layers(p).Ok?
    ensures Ordered(g, Layers(p).value)
    decreases Measure(p)
  {
    if p.live != [] {
      PassShrinks(p);
      PassInv(g, p);
      LayersOrder(g, Pass(p));
      LayersCover(g, p);
      ReadyListsNoLive(g, p);
      OrderedCons(g, Ready(p.pre, p.cur), Layers(Pass(p)).value);
    }
  }

  /** A closed set of live tests stays live through a pass: none of its lists empties. */
  lemma ClosedSurvivesPass(g: Group, p: Pending, S: set<Name>)
    requires Inv(g, p) && S <= Elems(p.live) && Closed(g, S)
    ensures S <= Elems(Pass(p).live)
  {
    forall k | k in S ensures k in Pass(p).live {
      var d := Within(g.deps[k], S)[0];
      assert d in Within(g.deps[k], S);
      assert d in p.live && k in p.live;
      assert d in p.cur[k];
      assert k !in Ready(p.pre, p.cur);
    }
  }

  lemma PassLiveShrinks(p: Pending)
    ensures Elems(Pass(p).live) <= Elems(p.live)
  {
  }

  /** The loop ends exactly when no closed set of live tests exists. */
  lemma {:induction false} LayersStuck(g: Group, p: Pending)
    requires Inv(g, p)
    ensures Layers(p).Err? <==> exists S :: S <= Elems(p.live) && Closed(g, S)
    decreases Measure(p)
  {
    if p.live == [] {
      forall S | S <= Elems(p.live) ensures !Closed(g, S) {
        assert S == {};
      }
    } else if Stalled(p) {
      StalledClosed(g, p);
    } else {
      PassShrinks(p);
      PassInv(g, p);
      LayersStuck(g, Pass(p));
      PassLiveShrinks(p);
      assert Layers(p).Err? <==> Layers(Pass(p)).Err?;
      forall S | S <= Elems(p.live) && Closed(g, S) ensures S <= Elems(Pass(p).live) {
        ClosedSurvivesPass(g, p, S);
      }
    }
  }

  // ---------------------------------------------------------------------------
  // The iteration list (lines 83, 104, 107-109).

  lemma AssembleShape(first: seq<Name>, L: seq<seq<Name>>, end: seq<Name>)
    ensures |Assemble(first, L, end)| == |L| + (if end == [] then 0 else 1)
    ensures forall i :: 0 <= i < |L| ==> Assemble(first, L, end)[i] == if i == 0 then first + L[0] else L[i]
    ensures end != [] ==> Assemble(first, L, end)[|L|] == end
    ensures Flatten(Assemble(first, L, end)) == (if L == [] then [] else first) + Flatten(L) + end
  {
    MergeFlatten(first, L);
    var E := if end == [] then [] else [end];
    FlattenAppend(Merge(first, L), E);
    assert Flatten(E) == end by {
      if end != [] {
        assert E[1..] == [];
      }
    }
  }

  lemma MergeFlatten(first: seq<Name>, L: seq<seq<Name>>)
    ensures Flatten(Merge(first, L)) == (if L == [] then [] else first) + Flatten(L)
  {
    if L != [] {
      var M := Merge(first, L);
      assert M[0] == first + L[0] && M[1..] == L[1..];
      assert Flatten(M) == (first + L[0]) + Flatten(L[1..]);
      assert Flatten(L) == L[0] + Flatten(L[1..]);
    }
  }

  /** A dependency named in the list of one of `files` is among their concatenated lists. */
  lemma {:induction false} AllDepsMember(g: Group, files: seq<Name>, k: Name, d: Name)
    requires k in files && k in g.deps && d in g.deps[k]
    ensures d in AllDeps(g, files)
  {
    var prefix, f := files[..|files| - 1], files[|files| - 1];
    assert files == prefix + [f];
    if k != f {
      assert k in prefix;
      AllDepsMember(g, prefix, k, d);
    }
  }

  /** The first layer is the first pass's batch; there are layers exactly when a test is live. */
  lemma LayersHead(p: Pending)
    requires Layers(p).Ok?
    ensures Layers(p).value == [] <==> p.live == []
    ensures p.live != [] ==> Layers(p).value[0] == Ready(p.pre, p.cur)
  {
    if p.live != [] {
      PassShrinks(p);
      assert Layers(p).value == [Ready(p.pre, p.cur)] + Layers(Pass(p)).value;
    }
  }

  /** The layers of the passes from the scan of a group. */
  lemma LayerParts(g: Group, s: Scan) returns (L: seq<seq<Name>>)
    requires WellFormed(g) && ScanFiles(g, g.order) == Ok(s) && Layers(Initial(g, s)).Ok?
    ensures Layers(Initial(g, s)) == Ok(L)
    ensures Distinct(Flatten(L)) && forall x :: x in Flatten(L) <==> IsNormal(g, x)
    ensures Ordered(g, L)
    ensures L != [] ==> L[0] == Ready(g.order, g.deps)
    ensures forall i, x :: 0 <= i < |L| && x in L[i] ==> IsNormal(g, x)
    ensures L == [] <==> NormalKeys(g) == {}
  {
    InitialInv(g, s);
    var p := Initial(g, s);
    L := Layers(p).value;
    LayersCover(g, p);
    LayersOrder(g, p);
    LayersHead(p);
    forall i, x | 0 <= i < |L| && x in L[i] ensures IsNormal(g, x) {
      assert x in Flatten(L);
    }
    if p.live != [] {
      assert p.live[0] in NormalKeys(g);
    }
  }

  /** How a successful resolution is put together: the scan `s`, then the layers `L` of the
      passes, then the assembly. */
  lemma ResolveParts(g: Group) returns (s: Scan, L: seq<seq<Name>>)
    requires WellFormed(g) && Resolve(g).Ok?
    ensures ScanFiles(g, g.order) == Ok(s) && Layers(Initial(g, s)) == Ok(L)
    ensures Resolve(g).value == Assemble(s.first, L, s.end)
    ensures s.end == WildcardsIn(g, g.order)
    ensures Distinct(s.end) && forall x :: x in s.end <==> IsWildcard(g, x)
    ensures Keep(s.first, KeysAndWildcard(g)) == Keep(AllDeps(g, g.order), KeysAndWildcard(g))
    ensures forall x :: x in s.first ==> !IsNormal(g, x)
    ensures Distinct(Flatten(L)) && forall x :: x in Flatten(L) <==> IsNormal(g, x)
    ensures Ordered(g, L)
    ensures L != [] ==> L[0] == Ready(g.order, g.deps)
    ensures forall i, x :: 0 <= i < |L| && x in L[i] ==> IsNormal(g, x)
    ensures L == [] <==> NormalKeys(g) == {}
  {
    ScanOutcome(g);
    s := ScanFiles(g, g.order).value;
    L := LayerParts(g, s);
  }

  /** Resolution fails with a KeyError exactly when a list holds `"*"` twice, never ends
      exactly when the other tests have a dependency cycle, and succeeds otherwise. */
  lemma ResolveOutcome(g: Group)
    requires WellFormed(g)
    ensures Resolve(g).Ok? <==> AtMostOneWildcard(g) && Acyclic(g)
    ensures Resolve(g).Err? && Resolve(g).error.KeyError? <==> !AtMostOneWildcard(g)
    ensures Resolve(g) == Err(Diverges) <==> AtMostOneWildcard(g) && !Acyclic(g)
  {
    ScanOutcome(g);
    if ScanFiles(g, g.order).Ok? {
      LayersOutcome(g, ScanFiles(g, g.order).value);
    }
  }

  /** After a successful scan, the passes end exactly when the graph has no cycle, and
      otherwise never end. */
  lemma LayersOutcome(g: Group, s: Scan)
    requires WellFormed(g) && ScanFiles(g, g.order) == Ok(s)
    ensures Layers(Initial(g, s)).Ok? <==> Acyclic(g)
    ensures Layers(Initial(g, s)).Err? ==> Layers(Initial(g, s)).error == Diverges
  {
    InitialInv(g, s);
    var p := Initial(g, s);
    assert Elems(p.live) == NormalKeys(g);
    PendingOutcome(g, p);
  }

  /** From any state of the loop whose live keys are the non-wildcard keys, the passes end
      exactly when those keys have no cycle. */
  lemma PendingOutcome(g: Group, p: Pending)
    requires Inv(g, p) && Elems(p.live) == NormalKeys(g)
    ensures Layers(p).Ok? <==> Acyclic(g)
    ensures Layers(p).Err? ==> Layers(p).error == Diverges
  {
    LayersCover(g, p);
    LayersStuck(g, p);
  }

  /** Every non-wildcard test is scheduled exactly once. */
  lemma ResolveOnce(g: Group, k: Name)
    requires WellFormed(g) && Resolve(g).Ok? && IsNormal(g, k)
    ensures multiset(Flatten(Resolve(g).value))[k] == 1
  {
    var s, L := ResolveParts(g);
    AssembleShape(s.first, L, s.end);
    var a := if L == [] then [] else s.first;
    assert k in Flatten(L) && k !in a && k !in s.end;
    DistinctOnce(Flatten(L), k);
    CountOnce(a, Flatten(L), s.end, k);
  }

  lemma CountOnce(a: seq<Name>, b: seq<Name>, c: seq<Name>, k: Name)
    requires k !in a && k !in c && multiset(b)[k] == 1
    ensures multiset(a + b + c)[k] == 1
  {
    assert multiset(a + b + c) == multiset(a) + multiset(b) + multiset(c);
  }

  /** Where a non-wildcard test can sit in the iteration list: only in the layer of its pass. */
  lemma NormalPlacement(g: Group, s: Scan, L: seq<seq<Name>>, i: nat, x: Name)
    requires WellFormed(g) && Resolve(g).Ok? && Resolve(g).value == Assemble(s.first, L, s.end)
    requires forall y :: y in s.first ==> !IsNormal(g, y)
    requires forall y :: y in s.end <==> IsWildcard(g, y)
    requires i < |Resolve(g).value| && IsNormal(g, x)
    ensures x in Resolve(g).value[i] <==> i < |L| && x in L[i]
  {
    AssembleShape(s.first, L, s.end);
  }

  /** A non-wildcard test runs in a strictly later iteration than every non-wildcard test
      it lists. */
  lemma ResolveOrder(g: Group)
    requires WellFormed(g) && Resolve(g).Ok?
    ensures var its := Resolve(g).value;
      forall i, j, k, d ::
        0 <= i < |its| && 0 <= j < |its| && k in its[i] && d in its[j] &&
        IsNormal(g, k) && IsNormal(g, d) && d in g.deps[k]
        ==> j < i
  {
    var s, L := ResolveParts(g);
    var its := Resolve(g).value;
    forall i, j, k, d |
      0 <= i < |its| && 0 <= j < |its| && k in its[i] && d in its[j] &&
      IsNormal(g, k) && IsNormal(g, d) && d in g.deps[k]
      ensures j < i
    {
      NormalPlacement(g, s, L, i, k);
      NormalPlacement(g, s, L, j, d);
    }
  }

  /** Every dependency that is not a test of the group runs in the first iteration, and a
      test that lists one runs later. */
  lemma ResolveExternal(g: Group)
    requires WellFormed(g) && Resolve(g).Ok?
    ensures var its := Resolve(g).value;
      forall i, k, d ::
        0 <= i < |its| && k in its[i] && IsNormal(g, k) && d in g.deps[k] && d !in g.deps
        ==> 0 < i && d in its[0]
  {
    var s, L := ResolveParts(g);
    var its := Resolve(g).value;
    var K := KeysAndWildcard(g);
    forall i, k, d | 0 <= i < |its| && k in its[i] && IsNormal(g, k) && d in g.deps[k] && d !in g.deps
      ensures 0 < i && d in its[0]
    {
      NormalPlacement(g, s, L, i, k);
      assert i != 0 by {
        assert k !in Ready(g.order, g.deps);
      }
      AllDepsMember(g, g.order, k, d);
      assert d in Keep(AllDeps(g, g.order), K);
      assert d in s.first;
      AssembleShape(s.first, L, s.end);
    }
  }

  /** The first iteration: the names the scan collected come first, then the keys whose
      list is empty, in key order. Its names that are not tests of the group are exactly the
      dependencies that are not tests, in order and once per occurrence; its non-wildcard
      tests are exactly those with an empty list. */
  lemma ResolveFirst(g: Group)
    requires WellFormed(g) && Resolve(g).Ok? && NormalKeys(g) != {}
    ensures ScanFiles(g, g.order).Ok?
    ensures var its := Resolve(g).value;
      && |its| > 0
      && its[0] == ScanFiles(g, g.order).value.first + Ready(g.order, g.deps)
      && Keep(its[0], KeysAndWildcard(g)) == Keep(AllDeps(g, g.order), KeysAndWildcard(g))
      && forall x :: IsNormal(g, x) ==> (x in its[0] <==> g.deps[x] == [])
  {
    var s, L := ResolveParts(g);
    var K := KeysAndWildcard(g);
    AssembleShape(s.first, L, s.end);
    KeepAppend(s.first, L[0], K);
    KeepAll(L[0], K);
    assert Resolve(g).value[0] == s.first + L[0];
  }

  /** With no non-wildcard test the first iteration is dropped with the trailing empty one:
      the dependencies of the wildcard tests that are not tests never run, and only the
      wildcard iteration can remain. */
  lemma ResolveNoNormal(g: Group)
    requires WellFormed(g) && Resolve(g).Ok? && NormalKeys(g) == {}
    ensures Resolve(g).value == if WildcardsIn(g, g.order) == [] then [] else [WildcardsIn(g, g.order)]
  {
    var s, L := ResolveParts(g);
    assert Merge(s.first, L) == [];
  }

  /** The wildcard tests, in key order, form the last iteration when there are any; every
      other iteration after the first holds only non-wildcard tests. */
  lemma ResolveWildcardsLast(g: Group)
    requires WellFormed(g) && Resolve(g).Ok?
    ensures forall x :: x in WildcardsIn(g, g.order) <==> IsWildcard(g, x)
    ensures var its := Resolve(g).value;
      && (WildcardsIn(g, g.order) != [] ==> |its| > 0 && its[|its| - 1] == WildcardsIn(g, g.order))
      && (forall i, x :: 0 < i < |its| && x in its[i] && !IsNormal(g, x) ==>
            WildcardsIn(g, g.order) != [] && i == |its| - 1)
  {
    var s, L := ResolveParts(g);
    AssembleShape(s.first, L, s.end);
  }
}
