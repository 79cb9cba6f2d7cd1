/** The resolver on a small group: a test A whose list names two names X and Y that are not
    keys of the group (Framework/lambda/Parser.py, lines 82-109). The scan puts X and Y in
    the first iteration; the strike loop of the first pass removes X and skips Y, so A's
    list empties only in the second pass and A is popped by the third: the passes yield
    the batches [], [] and [A]. The names are left symbolic, so the lemmas hold for any
    three distinct names other than `"*"`; each lemma evaluates one step of the handler. */
module ResolverExamples {
  import opened Wrappers
  import opened Names
  import opened Resolver

  predicate ThreeNames(a: Name, x: Name, y: Name)
  {
    a != x && a != y && x != y && a != Wildcard && x != Wildcard && y != Wildcard
  }

  // ---------------------------------------------------------------------------
  // The wildcard scan: X and Y go to the first iteration.

  lemma ScanX(a: Name, x: Name, y: Name)
    requires ThreeNames(a, x, y)
    ensures ScanDeps(Scan([a], [], []), a, [x]) == Ok(Scan([a], [x], []))
  {
    assert [x][..0] == [];
    assert [] + [x] == [x];
  }

  lemma ScanXY(a: Name, x: Name, y: Name)
    requires ThreeNames(a, x, y)
    ensures ScanDeps(Scan([a], [], []), a, [x, y]) == Ok(Scan([a], [x, y], []))
  {
    ScanX(a, x, y);
    assert [x, y][..1] == [x];
    assert [x] + [y] == [x, y];
  }

  lemma SkippedScan(a: Name, x: Name, y: Name)
    requires ThreeNames(a, x, y)
    ensures ScanFiles(Group([a], map[a := [x, y]]), [a]) == Ok(Scan([a], [x, y], []))
  {
    ScanXY(a, x, y);
    assert [a][..0] == [];
  }

  // ---------------------------------------------------------------------------
  // The passes: the strike loop removes X and skips Y, so A's list empties one pass late.

  /** Removing X moves Y to the index the list iterator has already passed. */
  lemma StrikeSkips(a: Name, x: Name, y: Name)
    requires ThreeNames(a, x, y)
    ensures Strike([x, y], {a}) == [y]
  {
    assert RemoveFirst([x, y], x) == [y];
    assert StrikeFrom([y], 1, {a}) == [y];
  }

  lemma StrikeLast(a: Name, y: Name)
    requires a != y
    ensures Strike([y], {a}) == []
  {
    assert RemoveFirst([y], y) == [];
    assert StrikeFrom([], 1, {a}) == [];
  }

  /** A pass that pops nothing and finds A's list `xs` non-empty strikes it. */
  lemma WaitingPass(a: Name, xs: seq<Name>)
    requires xs != []
    ensures Ready([a], map[a := xs]) == []
    ensures Pass(Pending([a], [a], map[a := xs])) == Pending([a], [a], map[a := Strike(xs, {a})])
  {
    var cur := map[a := xs];
    assert [a][..0] == [];
    assert Ready([a], cur) == [];
    assert Elems([]) == {} && Elems([a]) == {a};
    KeepNothing([a], {});
    assert StrikeAll([a], {a}, cur) == cur[a := Strike(xs, {a})];
    assert cur[a := Strike(xs, {a})] == map[a := Strike(xs, {a})];
  }

  /** While A waits, each pass that shortens its list yields an empty iteration. */
  lemma WaitingLayers(a: Name, xs: seq<Name>, rest: seq<seq<Name>>)
    requires xs != [] && Strike(xs, {a}) != xs
    requires Layers(Pending([a], [a], map[a := Strike(xs, {a})])) == Ok(rest)
    ensures Layers(Pending([a], [a], map[a := xs])) == Ok([[]] + rest)
  {
    var p := Pending([a], [a], map[a := xs]);
    WaitingPass(a, xs);
    assert p.cur[a] != Pass(p).cur[a];
    LayersStep(p);
  }

  /** The pass that finds A's list empty pops A. */
  lemma FinalPass(a: Name)
    ensures Ready([a], map[a := []]) == [a]
    ensures Pass(Pending([a], [a], map[a := []])) == Pending([], [], map[a := []])
  {
    var cur: map<Name, seq<Name>> := map[a := []];
    assert [a][..0] == [];
    assert Ready([a], cur) == [] + [a];
    assert Elems([a]) == {a};
    KeepAll([a], {a});
  }

  lemma LastLayer(a: Name)
    ensures Layers(Pending([a], [a], map[a := []])) == Ok([[a]])
  {
    FinalPass(a);
    var p := Pending([a], [a], map[a := []]);
    LayersStep(p);
    assert Layers(Pending([], [], map[a := []])) == Ok([]);
    assert [[a]] + [] == [[a]];
  }

  /** The first pass pops nothing and leaves A waiting on Y, though Y is not a test. */
  lemma SkippedPass(a: Name, x: Name, y: Name)
    requires ThreeNames(a, x, y)
    ensures Ready([a], map[a := [x, y]]) == []
    ensures Pass(Pending([a], [a], map[a := [x, y]])) == Pending([a], [a], map[a := [y]])
  {
    WaitingPass(a, [x, y]);
    StrikeSkips(a, x, y);
  }

  /** The second pass pops nothing either; it empties A's list. */
  lemma SecondPass(a: Name, y: Name)
    requires a != y
    ensures Ready([a], map[a := [y]]) == []
    ensures Pass(Pending([a], [a], map[a := [y]])) == Pending([a], [a], map[a := []])
  {
    WaitingPass(a, [y]);
    StrikeLast(a, y);
  }

  /** The passes on A's list [Y]: an empty batch, then [A]. */
  lemma SkippedLastLayers(a: Name, y: Name)
    requires a != y
    ensures Layers(Pending([a], [a], map[a := [y]])) == Ok([[], [a]])
  {
    LastLayer(a);
    StrikeLast(a, y);
    WaitingLayers(a, [y], [[a]]);
    assert [[]] + [[a]] == [[], [a]];
  }

  /** The passes on A's list [X, Y]: two empty batches, then [A]. */
  lemma SkippedLayers(a: Name, x: Name, y: Name)
    requires ThreeNames(a, x, y)
    ensures Layers(Pending([a], [a], map[a := [x, y]])) == Ok([[], [], [a]])
  {
    SkippedLastLayers(a, y);
    StrikeSkips(a, x, y);
    WaitingLayers(a, [x, y], [[], [a]]);
    ConsThree([], [], [a]);
  }

  /** The scan and the passes of the group. */
  lemma SkippedParts(a: Name, x: Name, y: Name)
    requires ThreeNames(a, x, y)
    ensures var g := Group([a], map[a := [x, y]]);
            && ScanFiles(g, g.order) == Ok(Scan([a], [x, y], []))
            && Layers(Initial(g, Scan([a], [x, y], []))) == Ok([[], [], [a]])
  {
    SkippedScan(a, x, y);
    SkippedLayers(a, x, y);
    assert Initial(Group([a], map[a := [x, y]]), Scan([a], [x, y], [])) == Pending([a], [a], map[a := [x, y]]);
  }

  lemma SkippedAssemble(a: Name, x: Name, y: Name)
    ensures Assemble([x, y], [[], [], [a]], []) == [[x, y], [], [a]]
  {
    AssembleNoEnd([x, y], [], [[], [a]]);
    assert [[]] + [[], [a]] == [[], [], [a]];
    assert [x, y] + [] == [x, y];
    assert [[x, y]] + [[], [a]] == [[x, y], [], [a]];
  }

  /** The whole resolution of the group: the first iteration [X, Y], then the batches [],
      [] and [A]. */
  lemma SkippedResolve(a: Name, x: Name, y: Name)
    requires ThreeNames(a, x, y)
    ensures Resolve(Group([a], map[a := [x, y]])) == Ok([[x, y], [], [a]])
  {
    SkippedParts(a, x, y);
    ResolveOf(Group([a], map[a := [x, y]]), Scan([a], [x, y], []), [[], [], [a]]);
    SkippedAssemble(a, x, y);
  }

  /** Without wildcard tests the iteration list is the batches, the scanned names in front. */
  lemma AssembleNoEnd(first: seq<Name>, b0: seq<Name>, bs: seq<seq<Name>>)
    ensures Assemble(first, [b0] + bs, []) == [first + b0] + bs
  {
    assert ([b0] + bs)[0] == b0 && ([b0] + bs)[1..] == bs;
    assert Merge(first, [b0] + bs) + [] == Merge(first, [b0] + bs);
  }

  /** How a resolution is put together once the scan and the passes are known. */
  lemma ResolveOf(g: Group, sc: Scan, L: seq<seq<Name>>)
    requires ScanFiles(g, g.order) == Ok(sc) && Layers(Initial(g, sc)) == Ok(L)
    ensures Resolve(g) == Ok(Assemble(sc.first, L, sc.end))
  {
  }

  // ---------------------------------------------------------------------------
  // The example of the handler's docstring (lines 71-79): T0 has no dependency, T1 lists D
  // and E, T2 lists "*", D lists S; E and S are not tests of the group.

  /** Six distinct names, none of them the wildcard. */
  predicate SixNames(t0: Name, t1: Name, t2: Name, d: Name, e: Name, s: Name)
  {
    Distinct([t0, t1, t2, d, e, s, Wildcard])
  }

  lemma SixApart(t0: Name, t1: Name, t2: Name, d: Name, e: Name, s: Name)
    requires SixNames(t0, t1, t2, d, e, s)
    ensures && t0 != t1 && t0 != t2 && t0 != d && t0 != e && t0 != s
            && t1 != t2 && t1 != d && t1 != e && t1 != s
            && t2 != d && t2 != e && t2 != s
            && d != e && d != s && e != s
            && t0 != Wildcard && t1 != Wildcard && t2 != Wildcard && d != Wildcard && e != Wildcard && s != Wildcard
  {
    var ns := [t0, t1, t2, d, e, s, Wildcard];
    assert ns[0] == t0 && ns[1] == t1 && ns[2] == t2 && ns[3] == d && ns[4] == e && ns[5] == s && ns[6] == Wildcard;
  }

  lemma SixNamesIntro(t0: Name, t1: Name, t2: Name, d: Name, e: Name, s: Name)
    requires && t0 != t1 && t0 != t2 && t0 != d && t0 != e && t0 != s
             && t1 != t2 && t1 != d && t1 != e && t1 != s
             && t2 != d && t2 != e && t2 != s
             && d != e && d != s && e != s
             && t0 != Wildcard && t1 != Wildcard && t2 != Wildcard && d != Wildcard && e != Wildcard && s != Wildcard
    ensures SixNames(t0, t1, t2, d, e, s)
  {
  }

  function DocGroup(t0: Name, t1: Name, t2: Name, d: Name, e: Name, s: Name): Group
  {
    Group([t0, t1, t2, d], map[t0 := [], t1 := [d, e], t2 := [Wildcard], d := [s]])
  }

  lemma KeepOne(x: Name, drop: set<Name>)
    ensures Keep([x], drop) == if x in drop then [] else [x]
  {
    KeepCons(x, [], drop);
    assert [x] + [] == [x];
  }

  /** Keep on a list of two, one name at a time. */
  lemma KeepTwo(x: Name, y: Name, drop: set<Name>)
    ensures Keep([x, y], drop) == Keep([x], drop) + Keep([y], drop)
  {
    KeepAppend([x], [y], drop);
    assert [x] + [y] == [x, y];
  }

  lemma ReadySnoc(pre: seq<Name>, x: Name, cur: map<Name, seq<Name>>)
    ensures Ready(pre + [x], cur) == Ready(pre, cur) + (if IsReady(cur, x) then [x] else [])
  {
    assert (pre + [x])[..|pre|] == pre;
  }

  lemma ScanDepsSnoc(t: Scan, file: Name, ds: seq<Name>, d: Name)
    requires ScanDeps(t, file, ds).Ok?
    ensures ScanDeps(t, file, ds + [d]) == ScanDep(ScanDeps(t, file, ds).value, file, d)
  {
    assert (ds + [d])[..|ds|] == ds;
  }

  /** A list of one name is scanned by one ScanDep step. */
  lemma ScanDepsOne(t: Scan, file: Name, d: Name)
    ensures ScanDeps(t, file, [d]) == ScanDep(t, file, d)
  {
    assert ScanDeps(t, file, []) == Ok(t);
    ScanDepsSnoc(t, file, [], d);
    assert [] + [d] == [d];
  }

  lemma ScanFilesSnoc(g: Group, files: seq<Name>, f: Name)
    requires ScanFiles(g, files).Ok?
    ensures ScanFiles(g, files + [f]) == ScanDeps(ScanFiles(g, files).value, f, if f in g.deps then g.deps[f] else [])
  {
    assert (files + [f])[..|files|] == files;
  }

  /** T1's list adds E to the first iteration; D is a key. */
  lemma DocScanT1(order: seq<Name>, d: Name, e: Name, t1: Name)
    requires d in order && e !in order && d != Wildcard && e != Wildcard
    ensures ScanDeps(Scan(order, [], []), t1, [d, e]) == Ok(Scan(order, [e], []))
  {
    ScanDepsOne(Scan(order, [], []), t1, d);
    ScanDepsSnoc(Scan(order, [], []), t1, [d], e);
    assert [d] + [e] == [d, e];
    assert [] + [e] == [e];
  }

  /** Striking T2 out of the keys leaves T0, T1 and D. */
  lemma DocKeepT2(t0: Name, t1: Name, t2: Name, d: Name)
    requires t2 != t0 && t2 != t1 && t2 != d
    ensures Keep([t0, t1, t2, d], {t2}) == [t0, t1, d]
  {
    assert Keep([t0, t1], {t2}) == [t0, t1] by {
      KeepTwo(t0, t1, {t2});
      KeepOne(t0, {t2});
      KeepOne(t1, {t2});
      assert [t0] + [t1] == [t0, t1];
    }
    assert Keep([t2, d], {t2}) == [d] by {
      KeepTwo(t2, d, {t2});
      KeepOne(t2, {t2});
      KeepOne(d, {t2});
      assert [] + [d] == [d];
    }
    KeepAppend([t0, t1], [t2, d], {t2});
    assert [t0, t1] + [t2, d] == [t0, t1, t2, d];
    assert [t0, t1] + [d] == [t0, t1, d];
  }

  /** T2's `"*"` pops it into the wildcard iteration. */
  lemma DocScanT2(t0: Name, t1: Name, t2: Name, d: Name, e: Name)
    requires t2 != t0 && t2 != t1 && t2 != d
    ensures ScanDeps(Scan([t0, t1, t2, d], [e], []), t2, [Wildcard]) == Ok(Scan([t0, t1, d], [e], [t2]))
  {
    ScanDepsOne(Scan([t0, t1, t2, d], [e], []), t2, Wildcard);
    DocKeepT2(t0, t1, t2, d);
    assert [] + [t2] == [t2];
  }

  /** D's list adds S to the first iteration. */
  lemma DocScanD(live: seq<Name>, d: Name, e: Name, s: Name, t2: Name)
    requires s !in live && s != Wildcard
    ensures ScanDeps(Scan(live, [e], [t2]), d, [s]) == Ok(Scan(live, [e, s], [t2]))
  {
    ScanDepsOne(Scan(live, [e], [t2]), d, s);
    assert [e] + [s] == [e, s];
  }

  /** The scan over T0 and T1 collects E. */
  lemma DocScanFirstTwo(t0: Name, t1: Name, t2: Name, d: Name, e: Name, s: Name)
    requires SixNames(t0, t1, t2, d, e, s)
    ensures var g := DocGroup(t0, t1, t2, d, e, s);
            ScanFiles(g, [t0, t1]) == Ok(Scan(g.order, [e], []))
  {
    SixApart(t0, t1, t2, d, e, s);
    var g := DocGroup(t0, t1, t2, d, e, s);
    assert ScanFiles(g, [t0]) == Ok(Scan(g.order, [], [])) by {
      assert ScanFiles(g, []) == Ok(Scan(g.order, [], []));
      assert ScanDeps(Scan(g.order, [], []), t0, []) == Ok(Scan(g.order, [], []));
      ScanFilesSnoc(g, [], t0);
      assert [] + [t0] == [t0];
    }
    assert g.deps[t1] == [d, e];
    DocScanT1(g.order, d, e, t1);
    ScanFilesSnoc(g, [t0], t1);
    assert [t0] + [t1] == [t0, t1];
  }

  /** The scan pops T2 into the wildcard iteration and collects E and S. */
  lemma DocScan(t0: Name, t1: Name, t2: Name, d: Name, e: Name, s: Name)
    requires SixNames(t0, t1, t2, d, e, s)
    ensures var g := DocGroup(t0, t1, t2, d, e, s);
            ScanFiles(g, g.order) == Ok(Scan([t0, t1, d], [e, s], [t2]))
  {
    var g := DocGroup(t0, t1, t2, d, e, s);
    DocScanFirstTwo(t0, t1, t2, d, e, s);
    SixApart(t0, t1, t2, d, e, s);
    assert ScanFiles(g, [t0, t1, t2]) == Ok(Scan([t0, t1, d], [e], [t2])) by {
      assert g.deps[t2] == [Wildcard];
      DocScanT2(t0, t1, t2, d, e);
      ScanFilesSnoc(g, [t0, t1], t2);
      assert [t0, t1] + [t2] == [t0, t1, t2];
    }
    assert g.deps[d] == [s];
    DocScanD([t0, t1, d], d, e, s, t2);
    ScanFilesSnoc(g, [t0, t1, t2], d);
    assert [t0, t1, t2] + [d] == g.order;
  }

  /** Striking T1's list in the first pass removes E, the last entry, so nothing is skipped. */
  lemma DocStrikeFirst(t1: Name, d: Name, e: Name)
    requires t1 != e && d != e
    ensures Strike([d, e], {t1, d}) == [d]
  {
    assert RemoveFirst([e], e) == [];
    assert RemoveFirst([d, e], e) == [d] + RemoveFirst([e], e);
    assert StrikeFrom([d], 2, {t1, d}) == [d];
    assert StrikeFrom([d, e], 1, {t1, d}) == [d];
  }

  /** Ready over two names, one at a time. */
  lemma ReadyTwo(x: Name, y: Name, cur: map<Name, seq<Name>>)
    ensures Ready([x, y], cur) == (if IsReady(cur, x) then [x] else []) + (if IsReady(cur, y) then [y] else [])
  {
    assert Ready([], cur) == [];
    ReadySnoc([], x, cur);
    assert [] + [x] == [x];
    ReadySnoc([x], y, cur);
    assert [x] + [y] == [x, y];
  }

  /** Of four keys only the first has an empty list. */
  lemma ReadyFirstOfFour(a: Name, b: Name, c: Name, d: Name, cur: map<Name, seq<Name>>)
    requires IsReady(cur, a) && !IsReady(cur, b) && !IsReady(cur, c) && !IsReady(cur, d)
    ensures Ready([a, b, c, d], cur) == [a]
  {
    assert Ready([a, b], cur) == [a] by {
      ReadyTwo(a, b, cur);
      assert [a] + [] == [a];
    }
    assert Ready([a, b, c], cur) == [a] by {
      ReadySnoc([a, b], c, cur);
      assert [a, b] + [c] == [a, b, c];
      assert [a] + [] == [a];
    }
    ReadySnoc([a, b, c], d, cur);
    assert [a, b, c] + [d] == [a, b, c, d];
    assert [a] + [] == [a];
  }

  /** The lists of the docstring's group. */
  lemma DocDeps(t0: Name, t1: Name, t2: Name, d: Name, e: Name, s: Name)
    requires SixNames(t0, t1, t2, d, e, s)
    ensures var m := DocGroup(t0, t1, t2, d, e, s).deps;
            && t0 in m && t1 in m && t2 in m && d in m
            && m[t0] == [] && m[t1] == [d, e] && m[t2] == [Wildcard] && m[d] == [s]
  {
    SixApart(t0, t1, t2, d, e, s);
  }

  /** The first pass's batch is [T0]. */
  lemma DocReady1(t0: Name, t1: Name, t2: Name, d: Name, e: Name, s: Name)
    requires SixNames(t0, t1, t2, d, e, s)
    ensures var g := DocGroup(t0, t1, t2, d, e, s);
            Ready(g.order, g.deps) == [t0]
  {
    DocDeps(t0, t1, t2, d, e, s);
    ReadyFirstOfFour(t0, t1, t2, d, DocGroup(t0, t1, t2, d, e, s).deps);
  }

  /** T1's list is struck first: E goes, D stays. */
  lemma DocStrikeT1(t1: Name, d: Name, e: Name, cur: map<Name, seq<Name>>)
    requires t1 != e && d != e && t1 in cur && cur[t1] == [d, e]
    ensures StrikeAll([t1], {t1, d}, cur) == cur[t1 := [d]]
  {
    DocStrikeFirst(t1, d, e);
    assert StrikeAll([], {t1, d}, cur) == cur;
    StrikeAllSnoc([], t1, {t1, d}, cur);
    assert [] + [t1] == [t1];
  }

  /** The strike loop of the first pass: T1's list becomes [D] and D's list empties. */
  lemma DocStrike1(t1: Name, d: Name, e: Name, s: Name, cur: map<Name, seq<Name>>)
    requires t1 != d && t1 != e && d != e && t1 != s && d != s
    requires t1 in cur && d in cur && cur[t1] == [d, e] && cur[d] == [s]
    ensures StrikeAll([t1, d], {t1, d}, cur) == cur[t1 := [d]][d := []]
  {
    DocStrikeT1(t1, d, e, cur);
    assert Strike([s], {t1, d}) == [] by {
      assert RemoveFirst([s], s) == [];
      assert StrikeFrom([], 1, {t1, d}) == [];
    }
    StrikeAllSnoc([t1], d, {t1, d}, cur);
    assert [t1] + [d] == [t1, d];
  }

  /** Popping T0 from the live names T0, T1, D. */
  lemma DocKeepT0(t0: Name, t1: Name, d: Name)
    requires t0 != t1 && t0 != d
    ensures Keep([t0, t1, d], {t0}) == [t1, d]
  {
    assert Keep([t1, d], {t0}) == [t1, d] by {
      KeepTwo(t1, d, {t0});
      KeepOne(t1, {t0});
      KeepOne(d, {t0});
      assert [t1] + [d] == [t1, d];
    }
    KeepCons(t0, [t1, d], {t0});
    assert [t0] + [t1, d] == [t0, t1, d];
  }

  /** A first pass whose batch is [T0] pops T0, leaves T1 waiting on D and empties D's list. */
  lemma FirstPassOf(order: seq<Name>, t0: Name, t1: Name, d: Name, e: Name, s: Name, cur: map<Name, seq<Name>>)
    requires Ready(order, cur) == [t0]
    requires t0 != t1 && t0 != d && t1 != d && t1 != e && d != e && t1 != s && d != s
    requires t1 in cur && d in cur && cur[t1] == [d, e] && cur[d] == [s]
    ensures Pass(Pending(order, [t0, t1, d], cur)) == Pending([t1, d], [t1, d], cur[t1 := [d]][d := []])
  {
    var live := Keep([t0, t1, d], Elems(Ready(order, cur)));
    assert live == [t1, d] by {
      assert Elems([t0]) == {t0};
      DocKeepT0(t0, t1, d);
    }
    assert StrikeAll(live, Elems(live), cur) == cur[t1 := [d]][d := []] by {
      assert Elems([t1, d]) == {t1, d};
      DocStrike1(t1, d, e, s, cur);
    }
  }

  /** The first pass pops T0 and empties D's list. */
  lemma DocPass1(t0: Name, t1: Name, t2: Name, d: Name, e: Name, s: Name)
    requires SixNames(t0, t1, t2, d, e, s)
    ensures var g := DocGroup(t0, t1, t2, d, e, s);
            Pass(Pending(g.order, [t0, t1, d], g.deps)) == Pending([t1, d], [t1, d], g.deps[t1 := [d]][d := []])
  {
    var g := DocGroup(t0, t1, t2, d, e, s);
    DocReady1(t0, t1, t2, d, e, s);
    DocDeps(t0, t1, t2, d, e, s);
    SixApart(t0, t1, t2, d, e, s);
    FirstPassOf(g.order, t0, t1, d, e, s, g.deps);
  }

  /** The second pass pops D and empties T1's list. */
  lemma DocPass2(t1: Name, d: Name, cur: map<Name, seq<Name>>)
    requires t1 != d && t1 in cur && d in cur && cur[t1] == [d] && cur[d] == []
    ensures Ready([t1, d], cur) == [d]
    ensures Pass(Pending([t1, d], [t1, d], cur)) == Pending([t1], [t1], cur[t1 := []])
  {
    assert Ready([t1, d], cur) == [d] by {
      ReadyTwo(t1, d, cur);
      assert [] + [d] == [d];
    }
    assert Keep([t1, d], {d}) == [t1] by {
      KeepTwo(t1, d, {d});
      KeepOne(t1, {d});
      KeepOne(d, {d});
      assert [t1] + [] == [t1];
    }
    assert Elems([d]) == {d} && Elems([t1]) == {t1};
    assert StrikeAll([t1], {t1}, cur) == cur[t1 := []] by {
      assert Strike([d], {t1}) == [] by {
        assert RemoveFirst([d], d) == [];
        assert StrikeFrom([], 1, {t1}) == [];
      }
      assert StrikeAll([], {t1}, cur) == cur;
      StrikeAllSnoc([], t1, {t1}, cur);
      assert [] + [t1] == [t1];
    }
  }

  /** The last pass pops the last live test, whatever the other lists hold. */
  lemma LastLayerIn(a: Name, cur: map<Name, seq<Name>>)
    requires a in cur && cur[a] == []
    ensures Layers(Pending([a], [a], cur)) == Ok([[a]])
  {
    var p := Pending([a], [a], cur);
    assert Ready([], cur) == [];
    ReadySnoc([], a, cur);
    assert [] + [a] == [a];
    assert Elems([a]) == {a};
    KeepOne(a, {a});
    assert Pass(p).live == [];
    LayersStep(p);
    assert Layers(Pass(p)) == Ok([]);
    assert [[a]] + [] == [[a]];
  }

  /** The passes after the first yield [D] and [T1]. */
  lemma DocLaterLayers(t1: Name, d: Name, cur: map<Name, seq<Name>>)
    requires t1 != d && t1 in cur && d in cur && cur[t1] == [d] && cur[d] == []
    ensures Layers(Pending([t1, d], [t1, d], cur)) == Ok([[d], [t1]])
  {
    var p := Pending([t1, d], [t1, d], cur);
    DocPass2(t1, d, cur);
    LastLayerIn(t1, cur[t1 := []]);
    LayersStep(p);
    assert [[d]] + [[t1]] == [[d], [t1]];
  }

  /** A pass that changes the live names puts its batch in front of the later ones. */
  lemma LayersCons(p: Pending, q: Pending, rest: seq<seq<Name>>)
    requires p.live != [] && Pass(p) == q && q.live != p.live && Layers(q) == Ok(rest)
    ensures Layers(p) == Ok([Ready(p.pre, p.cur)] + rest)
  {
    LayersStep(p);
  }

  /** After the first pass, the passes yield [D] and [T1]. */
  lemma DocLayersAfterFirst(t0: Name, t1: Name, t2: Name, d: Name, e: Name, s: Name)
    requires SixNames(t0, t1, t2, d, e, s)
    ensures var cur := DocGroup(t0, t1, t2, d, e, s).deps[t1 := [d]][d := []];
            Layers(Pending([t1, d], [t1, d], cur)) == Ok([[d], [t1]])
  {
    SixApart(t0, t1, t2, d, e, s);
    DocLaterLayers(t1, d, DocGroup(t0, t1, t2, d, e, s).deps[t1 := [d]][d := []]);
  }

  /** The passes yield [T0], [D] and [T1]. */
  lemma DocLayers(t0: Name, t1: Name, t2: Name, d: Name, e: Name, s: Name)
    requires SixNames(t0, t1, t2, d, e, s)
    ensures var g := DocGroup(t0, t1, t2, d, e, s);
            Layers(Pending(g.order, [t0, t1, d], g.deps)) == Ok([[t0], [d], [t1]])
  {
    var g := DocGroup(t0, t1, t2, d, e, s);
    var p1 := Pending(g.order, [t0, t1, d], g.deps);
    var p2 := Pending([t1, d], [t1, d], g.deps[t1 := [d]][d := []]);
    assert Layers(p1) == Ok([[t0]] + [[d], [t1]]) by {
      DocLayersAfterFirst(t0, t1, t2, d, e, s);
      DocPass1(t0, t1, t2, d, e, s);
      DocReady1(t0, t1, t2, d, e, s);
      LayersCons(p1, p2, [[d], [t1]]);
    }
    ConsThree([t0], [d], [t1]);
  }

  lemma ConsThree(a: seq<Name>, b: seq<Name>, c: seq<Name>)
    ensures [a] + [b, c] == [a, b, c]
  {
  }

  /** Putting the docstring's iterations together: E and S in front of the first batch, T2
      at the end. */
  lemma DocAssemble(t0: Name, t1: Name, t2: Name, d: Name, e: Name, s: Name)
    ensures Assemble([e, s], [[t0], [d], [t1]], [t2]) == [[e, s, t0], [d], [t1], [t2]]
  {
    var L := [[t0], [d], [t1]];
    assert L[0] == [t0] && L[1..] == [[d], [t1]];
    assert [e, s] + [t0] == [e, s, t0];
    assert Merge([e, s], L) == [[e, s, t0], [d], [t1]];
    assert [[e, s, t0], [d], [t1]] + [[t2]] == [[e, s, t0], [d], [t1], [t2]];
  }

  /** The docstring's group resolves to [E, S, T0], [D], [T1], [T2]: the batches of the
      docstring, except that the first lists the collected names E and S before T0. */
  lemma DocResolve(t0: Name, t1: Name, t2: Name, d: Name, e: Name, s: Name)
    requires SixNames(t0, t1, t2, d, e, s)
    ensures var r := Resolve(DocGroup(t0, t1, t2, d, e, s));
            && r == Ok([[e, s, t0], [d], [t1], [t2]])
            && multiset(r.value[0]) == multiset([t0, e, s])
            && r.value[0] != [t0, e, s]
  {
    var g := DocGroup(t0, t1, t2, d, e, s);
    var sc := Scan([t0, t1, d], [e, s], [t2]);
    assert Resolve(g) == Ok(Assemble([e, s], [[t0], [d], [t1]], [t2])) by {
      DocScan(t0, t1, t2, d, e, s);
      DocLayers(t0, t1, t2, d, e, s);
      assert Initial(g, sc) == Pending(g.order, [t0, t1, d], g.deps);
      ResolveOf(g, sc, [[t0], [d], [t1]]);
    }
    DocAssemble(t0, t1, t2, d, e, s);
    SixApart(t0, t1, t2, d, e, s);
    assert [e, s, t0][0] != [t0, e, s][0];
  }

  /** The same with the file names of the docstring. */
  lemma DocstringExample()
    ensures Resolve(Group(["a_test_without_dependencies.json", "a_test_with_dependencies.json",
                           "a_test_to_fill_space.json", "a_dependent_test.json"],
                          map["a_test_without_dependencies.json" := [],
                              "a_test_with_dependencies.json" := ["a_dependent_test.json", "another_dependent_test.json"],
                              "a_test_to_fill_space.json" := ["*"],
                              "a_dependent_test.json" := ["second_level_dependency.json"]]))
            == Ok([["another_dependent_test.json", "second_level_dependency.json", "a_test_without_dependencies.json"],
                   ["a_dependent_test.json"], ["a_test_with_dependencies.json"], ["a_test_to_fill_space.json"]])
  {
    SixNamesIntro("a_test_without_dependencies.json", "a_test_with_dependencies.json", "a_test_to_fill_space.json",
                  "a_dependent_test.json", "another_dependent_test.json", "second_level_dependency.json");
    DocResolve("a_test_without_dependencies.json", "a_test_with_dependencies.json", "a_test_to_fill_space.json",
               "a_dependent_test.json", "another_dependent_test.json", "second_level_dependency.json");
  }
}
