/** Dependency resolution of the test group (Framework/lambda/Parser.py, lines 82-109),
    stated as functions that follow the handler statement by statement. The dict
    `testGroup` is the pair (live key order, current lists); `preTestGroup` is the
    snapshot the placement loop walks. */
module Resolver {
  import opened Wrappers
  import opened Names

  /** The dependency entry that sends a test to the final iteration. */
  const Wildcard: Name := "*"

  /** The `test_group` object of the event: the keys in insertion order and each key's list. */
  datatype Group = Group(order: seq<Name>, deps: map<Name, seq<Name>>)

  /** A JSON object has distinct keys, and the order lists exactly those keys. */
  predicate WellFormed(g: Group)
  {
    Distinct(g.order) && (forall k :: k in g.order ==> k in g.deps) && (forall k :: k in g.deps ==> k in g.order)
  }

  predicate IsWildcard(g: Group, k: Name)
  {
    k in g.deps && Wildcard in g.deps[k]
  }

  predicate IsNormal(g: Group, k: Name)
  {
    k in g.deps && Wildcard !in g.deps[k]
  }

  function NormalKeys(g: Group): set<Name>
  {
    set k | k in g.deps && Wildcard !in g.deps[k]
  }

  /** Names that are keys of the group, plus the wildcard itself. */
  function KeysAndWildcard(g: Group): set<Name>
  {
    g.deps.Keys + {Wildcard}
  }

  /** The wildcard keys among `files`, in order. */
  function WildcardsIn(g: Group, files: seq<Name>): seq<Name>
  {
    if files == [] then []
    else WildcardsIn(g, files[..|files| - 1])
         + (if IsWildcard(g, files[|files| - 1]) then [files[|files| - 1]] else [])
  }

  /** The dependency lists of `files`, concatenated in order. */
  function AllDeps(g: Group, files: seq<Name>): seq<Name>
  {
    if files == [] then []
    else AllDeps(g, files[..|files| - 1])
         + (if files[|files| - 1] in g.deps then g.deps[files[|files| - 1]] else [])
  }

  /** `testGroup.pop(file)` raises KeyError on a second wildcard entry in the same list. */
  predicate AtMostOneWildcard(g: Group)
  {
    forall k :: k in g.deps ==> multiset(g.deps[k])[Wildcard] <= 1
  }

  /** What stops the handler: a KeyError, or a `while` loop that would never end. */
  datatype Failure = KeyError(key: Name) | Diverges

  // ---------------------------------------------------------------------------
  // Lines 84-92: the wildcard scan over the original keys and lists.

  /** `live` is the key order of `testGroup`, `first` is `iterationsFilesList[-1]`,
      `end` is the wildcard iteration. */
  datatype Scan = Scan(live: seq<Name>, first: seq<Name>, end: seq<Name>)

  /** One dependency `d` of `file`. */
  function ScanDep(s: Scan, file: Name, d: Name): Result<Scan, Failure>
  {
    if d == Wildcard then
      if file in s.live then Ok(Scan(Keep(s.live, {file}), s.first, s.end + [file]))
      else Err(KeyError(file))
    else if d !in s.live then Ok(s.(first := s.first + [d]))
    else Ok(s)
  }

  /** The inner `for depend in preTestGroup[file]` loop. */
  function ScanDeps(s: Scan, file: Name, ds: seq<Name>): Result<Scan, Failure>
  {
    if ds == [] then Ok(s)
    else match ScanDeps(s, file, ds[..|ds| - 1])
      case Err(e) => Err(e)
      case Ok(t) => ScanDep(t, file, ds[|ds| - 1])
  }

  /** The outer `for file in preTestGroup` loop over the first |files| keys. */
  function ScanFiles(g: Group, files: seq<Name>): Result<Scan, Failure>
  {
    if files == [] then Ok(Scan(g.order, [], []))
    else
      var f := files[|files| - 1];
      match ScanFiles(g, files[..|files| - 1])
      case Err(e) => Err(e)
      case Ok(t) => ScanDeps(t, f, if f in g.deps then g.deps[f] else [])
  }

  /** What scanning the list `ds` of `f` does to the scan state `s`, when it succeeds. */
  ghost predicate ScannedDeps(g: Group, s: Scan, f: Name, ds: seq<Name>, t: Scan)
  {
    && t.end == s.end + (if Wildcard in ds then [f] else [])
    && t.live == (if Wildcard in ds then Keep(s.live, {f}) else s.live)
    && Keep(t.first, KeysAndWildcard(g)) == Keep(s.first, KeysAndWildcard(g)) + Keep(ds, KeysAndWildcard(g))
    && (forall x :: x in t.first ==> x in s.first || !IsNormal(g, x))
  }

  /** The invariant of the inner scan loop, before the entry `d` of the list of `f`. */
  ghost predicate ScanDepPre(g: Group, s: Scan, f: Name, pre: seq<Name>, d: Name, t: Scan)
  {
    && f in s.live
    && (forall k :: IsNormal(g, k) ==> k in s.live)
    && (forall k :: k in s.live ==> k in g.deps)
    && (Wildcard in pre + [d] ==> IsWildcard(g, f))
    && multiset(pre)[Wildcard] <= 1
    && ScannedDeps(g, s, f, pre, t)
  }

  lemma ScanWildcardStep(g: Group, s: Scan, f: Name, pre: seq<Name>, t: Scan)
    requires ScanDepPre(g, s, f, pre, Wildcard, t)
    ensures ScanDep(t, f, Wildcard).Ok? <==> multiset(pre + [Wildcard])[Wildcard] <= 1
    ensures ScanDep(t, f, Wildcard).Err? ==> ScanDep(t, f, Wildcard).error == KeyError(f)
    ensures ScanDep(t, f, Wildcard).Ok? ==> ScannedDeps(g, s, f, pre + [Wildcard], ScanDep(t, f, Wildcard).value)
  {
    assert multiset(pre + [Wildcard])[Wildcard] == multiset(pre)[Wildcard] + 1;
    if Wildcard in pre {
      assert f !in t.live;
    } else {
      ScanFirstWildcard(g, s, f, pre, t);
    }
  }

  /** The first `"*"` of the list of `f` strikes `f` and appends it to the end list. */
  lemma ScanFirstWildcard(g: Group, s: Scan, f: Name, pre: seq<Name>, t: Scan)
    requires ScanDepPre(g, s, f, pre, Wildcard, t) && Wildcard !in pre
    ensures ScanDep(t, f, Wildcard) == Ok(Scan(Keep(t.live, {f}), t.first, t.end + [f]))
    ensures ScannedDeps(g, s, f, pre + [Wildcard], Scan(Keep(t.live, {f}), t.first, t.end + [f]))
  {
    var K := KeysAndWildcard(g);
    assert t.live == s.live && t.end == s.end;
    assert f in t.live;
    KeepAppend(pre, [Wildcard], K);
    assert Keep([Wildcard], K) == [];
    assert Keep(pre, K) + [] == Keep(pre, K);
    assert Wildcard in pre + [Wildcard];
  }

  lemma ScanExternalStep(g: Group, s: Scan, f: Name, pre: seq<Name>, d: Name, t: Scan)
    requires ScanDepPre(g, s, f, pre, d, t)
    requires d != Wildcard && d !in t.live
    ensures ScanDep(t, f, d) == Ok(t.(first := t.first + [d]))
    ensures ScannedDeps(g, s, f, pre + [d], t.(first := t.first + [d]))
  {
    assert !IsNormal(g, d) by {
      if d in s.live {
        assert d == f && Wildcard in pre;
      }
    }
    assert (Wildcard in pre + [d]) == (Wildcard in pre);
    KeptAppend(s.first, t.first, pre, d, KeysAndWildcard(g));
    assert forall x :: x in t.first + [d] ==> x in t.first || x == d;
  }

  /** Appending the same name to the scanned list and to the list of `f` keeps them in step. */
  lemma KeptAppend(sFirst: seq<Name>, tFirst: seq<Name>, pre: seq<Name>, d: Name, K: set<Name>)
    requires Keep(tFirst, K) == Keep(sFirst, K) + Keep(pre, K)
    ensures Keep(tFirst + [d], K) == Keep(sFirst, K) + Keep(pre + [d], K)
  {
    KeepAppend(pre, [d], K);
    KeepAppend(tFirst, [d], K);
    AppendAssoc(Keep(sFirst, K), Keep(pre, K), Keep([d], K));
  }

  lemma ScanLiveStep(g: Group, s: Scan, f: Name, pre: seq<Name>, d: Name, t: Scan)
    requires ScanDepPre(g, s, f, pre, d, t)
    requires d != Wildcard && d in t.live
    ensures ScanDep(t, f, d) == Ok(t)
    ensures ScannedDeps(g, s, f, pre + [d], t)
  {
    var K := KeysAndWildcard(g);
    KeepAppend(pre, [d], K);
    assert d in g.deps;
    assert Keep([d], K) == [];
    assert (Wildcard in pre + [d]) == (Wildcard in pre);
  }

  lemma {:induction false} ScanDepsFacts(g: Group, s: Scan, f: Name, ds: seq<Name>)
    requires f in s.live
    requires forall k :: IsNormal(g, k) ==> k in s.live
    requires forall k :: k in s.live ==> k in g.deps
    requires Wildcard in ds ==> IsWildcard(g, f)
    ensures ScanDeps(s, f, ds).Ok? <==> multiset(ds)[Wildcard] <= 1
    ensures ScanDeps(s, f, ds).Err? ==> ScanDeps(s, f, ds).error == KeyError(f)
    ensures ScanDeps(s, f, ds).Ok? ==> ScannedDeps(g, s, f, ds, ScanDeps(s, f, ds).value)
  {
    if ds == [] {
      assert Keep(ds, KeysAndWildcard(g)) == [];
    } else {
      var pre, d := ds[..|ds| - 1], ds[|ds| - 1];
      assert ds == pre + [d];
      assert Wildcard in pre ==> Wildcard in ds;
      assert multiset(ds)[Wildcard] >= multiset(pre)[Wildcard];
      ScanDepsFacts(g, s, f, pre);
      var r := ScanDeps(s, f, pre);
      if r.Ok? {
        var t := r.value;
        assert ScanDepPre(g, s, f, pre, d, t);
        assert multiset(ds)[Wildcard] == multiset(pre)[Wildcard] + (if d == Wildcard then 1 else 0);
        if d == Wildcard {
          ScanWildcardStep(g, s, f, pre, t);
        } else if d !in t.live {
          ScanExternalStep(g, s, f, pre, d, t);
        } else {
          ScanLiveStep(g, s, f, pre, d, t);
        }
      }
    }
  }

  /** What scanning the first keys of the group has produced, when it succeeds. */
  ghost predicate ScannedFiles(g: Group, files: seq<Name>, t: Scan)
  {
    && t.end == WildcardsIn(g, files)
    && Elems(t.end) <= Elems(files)
    && (forall x :: x in t.end ==> IsWildcard(g, x))
    && t.live == Keep(g.order, Elems(t.end))
    && Keep(t.first, KeysAndWildcard(g)) == Keep(AllDeps(g, files), KeysAndWildcard(g))
    && (forall x :: x in t.first ==> !IsNormal(g, x))
  }

  /** Scanning the list of one more key `f` after the keys `prefix`. */
  lemma ScanFileStep(g: Group, prefix: seq<Name>, f: Name, t: Scan)
    requires WellFormed(g) && f in g.deps && f !in prefix
    requires ScannedFiles(g, prefix, t)
    ensures ScanDeps(t, f, g.deps[f]).Ok? <==> multiset(g.deps[f])[Wildcard] <= 1
    ensures ScanDeps(t, f, g.deps[f]).Err? ==> ScanDeps(t, f, g.deps[f]).error.KeyError?
    ensures ScanDeps(t, f, g.deps[f]).Ok? ==> ScannedFiles(g, prefix + [f], ScanDeps(t, f, g.deps[f]).value)
  {
    assert f in t.live && forall k :: IsNormal(g, k) ==> k in t.live by {
      assert f !in Elems(t.end);
    }
    ScanDepsFacts(g, t, f, g.deps[f]);
    var r := ScanDeps(t, f, g.deps[f]);
    if r.Ok? {
      ScanFileState(g, prefix, f, t, r.value);
    }
  }

  lemma ScanFileState(g: Group, prefix: seq<Name>, f: Name, t: Scan, u: Scan)
    requires WellFormed(g) && f in g.deps && f !in prefix
    requires ScannedFiles(g, prefix, t)
    requires ScannedDeps(g, t, f, g.deps[f], u)
    ensures ScannedFiles(g, prefix + [f], u)
  {
    var w := Wildcard in g.deps[f];
    ScanEndStep(g, prefix, f, t.end, u.end);
    ScanLiveUpdate(g.order, t.end, f, w, t.live, u.live);
    ScanFirstStep(g, prefix, f, t.first, u.first);
  }

  lemma ScanEndStep(g: Group, prefix: seq<Name>, f: Name, e: seq<Name>, e': seq<Name>)
    requires f in g.deps
    requires e == WildcardsIn(g, prefix) && Elems(e) <= Elems(prefix)
    requires forall x :: x in e ==> IsWildcard(g, x)
    requires e' == e + (if Wildcard in g.deps[f] then [f] else [])
    ensures e' == WildcardsIn(g, prefix + [f]) && Elems(e') <= Elems(prefix + [f])
    ensures forall x :: x in e' ==> IsWildcard(g, x)
  {
    var files := prefix + [f];
    assert files[..|files| - 1] == prefix && files[|files| - 1] == f;
    ElemsAppend(prefix, [f]);
    ElemsAppend(e, [f]);
    assert Elems([f]) == {f};
  }

  lemma ScanLiveUpdate(order: seq<Name>, e: seq<Name>, f: Name, w: bool, live: seq<Name>, live': seq<Name>)
    requires live == Keep(order, Elems(e))
    requires live' == if w then Keep(live, {f}) else live
    ensures live' == Keep(order, Elems(e + (if w then [f] else [])))
  {
    if w {
      ElemsAppend(e, [f]);
      assert Elems([f]) == {f};
      KeepKeep(order, Elems(e), {f});
    } else {
      assert e + [] == e;
    }
  }

  lemma ScanFirstStep(g: Group, prefix: seq<Name>, f: Name, first: seq<Name>, first': seq<Name>)
    requires f in g.deps
    requires Keep(first, KeysAndWildcard(g)) == Keep(AllDeps(g, prefix), KeysAndWildcard(g))
    requires Keep(first', KeysAndWildcard(g)) == Keep(first, KeysAndWildcard(g)) + Keep(g.deps[f], KeysAndWildcard(g))
    ensures Keep(first', KeysAndWildcard(g)) == Keep(AllDeps(g, prefix + [f]), KeysAndWildcard(g))
  {
    var files := prefix + [f];
    assert files[..|files| - 1] == prefix && files[|files| - 1] == f;
    assert AllDeps(g, files) == AllDeps(g, prefix) + g.deps[f];
    KeepAppend(AllDeps(g, prefix), g.deps[f], KeysAndWildcard(g));
  }

  /** No list among `files` holds the wildcard twice. */
  predicate SingleWildcards(g: Group, files: seq<Name>)
  {
    forall k :: k in files && k in g.deps ==> multiset(g.deps[k])[Wildcard] <= 1
  }

  lemma ScanFilesEmpty(g: Group)
    ensures ScanFiles(g, []) == Ok(Scan(g.order, [], []))
    ensures ScannedFiles(g, [], Scan(g.order, [], []))
  {
    var t := Scan(g.order, [], []);
    assert Elems(t.end) == {};
    KeepNothing(g.order, {});
  }

  lemma {:induction false} ScanFilesFacts(g: Group, files: seq<Name>)
    requires WellFormed(g) && Distinct(files)
    requires forall k :: k in files ==> k in g.deps
    ensures ScanFiles(g, files).Ok? <==> SingleWildcards(g, files)
    ensures ScanFiles(g, files).Err? ==> ScanFiles(g, files).error.KeyError?
    ensures ScanFiles(g, files).Ok? ==> ScannedFiles(g, files, ScanFiles(g, files).value)
  {
    if files == [] {
      ScanFilesEmpty(g);
    } else {
      var prefix, f := files[..|files| - 1], files[|files| - 1];
      assert files == prefix + [f];
      DistinctPrefix(files);
      ScanFilesFacts(g, prefix);
      ScanFilesStep(g, prefix, f);
    }
  }

  lemma ScanFilesStep(g: Group, prefix: seq<Name>, f: Name)
    requires WellFormed(g) && f in g.deps && f !in prefix
    requires ScanFiles(g, prefix).Ok? <==> SingleWildcards(g, prefix)
    requires ScanFiles(g, prefix).Err? ==> ScanFiles(g, prefix).error.KeyError?
    requires ScanFiles(g, prefix).Ok? ==> ScannedFiles(g, prefix, ScanFiles(g, prefix).value)
    ensures ScanFiles(g, prefix + [f]).Ok? <==> SingleWildcards(g, prefix + [f])
    ensures ScanFiles(g, prefix + [f]).Err? ==> ScanFiles(g, prefix + [f]).error.KeyError?
    ensures ScanFiles(g, prefix + [f]).Ok? ==> ScannedFiles(g, prefix + [f], ScanFiles(g, prefix + [f]).value)
  {
    var files := prefix + [f];
    assert files[..|files| - 1] == prefix && files[|files| - 1] == f;
    var r := ScanFiles(g, prefix);
    assert SingleWildcards(g, files) <==> SingleWildcards(g, prefix) && multiset(g.deps[f])[Wildcard] <= 1;
    if r.Ok? {
      ScanFileStep(g, prefix, f, r.value);
    }
  }

  // ---------------------------------------------------------------------------
  // Lines 94-105: the passes of the `while (testGroup)` loop.

  /** The loop state: the snapshot `preTestGroup` walks (its key order), the key order of
      `testGroup`, and every key's current list. Entries of popped keys are kept in `cur`
      and never read again except through the first snapshot. */
  datatype Pending = Pending(pre: seq<Name>, live: seq<Name>, cur: map<Name, seq<Name>>)

  predicate IsReady(cur: map<Name, seq<Name>>, k: Name)
  {
    k in cur && cur[k] == []
  }

  /** Lines 95-98: the keys of the snapshot whose list is empty, in snapshot order. */
  function Ready(pre: seq<Name>, cur: map<Name, seq<Name>>): (r: seq<Name>)
    ensures forall x :: x in r <==> x in pre && IsReady(cur, x)
    ensures Distinct(pre) ==> Distinct(r)
  {
    if pre == [] then []
    else
      var rest := Ready(pre[..|pre| - 1], cur);
      assert Distinct(pre) ==> Distinct(pre[..|pre| - 1]) && pre[|pre| - 1] !in pre[..|pre| - 1];
      rest + (if IsReady(cur, pre[|pre| - 1]) then [pre[|pre| - 1]] else [])
  }

  /** Python's `lst.remove(v)`: drop the first occurrence. */
  function RemoveFirst(xs: seq<Name>, v: Name): (r: seq<Name>)
    requires v in xs
    ensures |r| == |xs| - 1
    ensures multiset(r) == multiset(xs) - multiset{v}
  {
    assert xs == [xs[0]] + xs[1..];
    if xs[0] == v then xs[1..] else [xs[0]] + RemoveFirst(xs[1..], v)
  }

  /** Lines 101-103 on one list: `for depend in lst: if depend not in testGroup:
      lst.remove(depend)`, with the list iterator's index `i` and the removals it skips over. */
  function StrikeFrom(xs: seq<Name>, i: nat, live: set<Name>): (r: seq<Name>)
    ensures multiset(r) <= multiset(xs)
    ensures forall d :: d in live ==> multiset(r)[d] == multiset(xs)[d]
    ensures r == xs || |r| < |xs|
    ensures (exists j :: i <= j < |xs| && xs[j] !in live) ==> |r| < |xs|
    decreases |xs| - i
  {
    if i >= |xs| then xs
    else if xs[i] !in live then StrikeFrom(RemoveFirst(xs, xs[i]), i + 1, live)
    else StrikeFrom(xs, i + 1, live)
  }

  function Strike(xs: seq<Name>, live: set<Name>): seq<Name>
  {
    StrikeFrom(xs, 0, live)
  }

  /** Line 101-103 for one key `f`: its list, struck, if `f` is still a key. */
  function StrikeKey(m: map<Name, seq<Name>>, f: Name, live: set<Name>): map<Name, seq<Name>>
  {
    if f in m then m[f := Strike(m[f], live)] else m
  }

  /** Lines 100-103: the lists of `files`, struck one after the other. */
  function StrikeAll(files: seq<Name>, live: set<Name>, cur: map<Name, seq<Name>>): (r: map<Name, seq<Name>>)
    ensures r.Keys == cur.Keys
    ensures forall k :: k in cur && k !in files ==> r[k] == cur[k]
    ensures Distinct(files) ==> forall k :: k in files && k in cur ==> r[k] == Strike(cur[k], live)
    ensures forall k :: k in cur ==> r[k] == cur[k] || |r[k]| < |cur[k]|
  {
    if files == [] then cur
    else
      var init, f := files[..|files| - 1], files[|files| - 1];
      var m := StrikeAll(init, live, cur);
      StrikeKeyKeeps(init, f, live, cur, m);
      StrikeKeyStrikes(init, f, live, cur, m);
      StrikeKey(m, f, live)
  }

  /** Striking one more key acts on its list alone. */
  lemma StrikeAllSnoc(files: seq<Name>, f: Name, live: set<Name>, cur: map<Name, seq<Name>>)
    ensures StrikeAll(files + [f], live, cur) == StrikeKey(StrikeAll(files, live, cur), f, live)
  {
    assert (files + [f])[..|files|] == files;
  }

  lemma StrikeKeyKeeps(init: seq<Name>, f: Name, live: set<Name>, cur: map<Name, seq<Name>>, m: map<Name, seq<Name>>)
    requires m.Keys == cur.Keys
    requires forall k :: k in cur && k !in init ==> m[k] == cur[k]
    requires forall k :: k in cur ==> m[k] == cur[k] || |m[k]| < |cur[k]|
    ensures StrikeKey(m, f, live).Keys == cur.Keys
    ensures forall k :: k in cur && k !in init + [f] ==> StrikeKey(m, f, live)[k] == cur[k]
    ensures forall k :: k in cur ==> StrikeKey(m, f, live)[k] == cur[k] || |StrikeKey(m, f, live)[k]| < |cur[k]|
  {
    var r := StrikeKey(m, f, live);
    forall k | k in cur ensures r[k] == cur[k] || |r[k]| < |cur[k]| {
      if k == f {
        assert r[k] == m[k] || |r[k]| < |m[k]|;
      }
    }
  }

  lemma StrikeKeyStrikes(init: seq<Name>, f: Name, live: set<Name>, cur: map<Name, seq<Name>>, m: map<Name, seq<Name>>)
    requires m.Keys == cur.Keys
    requires forall k :: k in cur && k !in init ==> m[k] == cur[k]
    requires Distinct(init) ==> forall k :: k in init && k in cur ==> m[k] == Strike(cur[k], live)
    ensures Distinct(init + [f]) ==> forall k :: k in init + [f] && k in cur ==> StrikeKey(m, f, live)[k] == Strike(cur[k], live)
  {
    var files := init + [f];
    if Distinct(files) {
      assert files[..|files| - 1] == init && files[|files| - 1] == f;
      DistinctPrefix(files);
    }
  }

  function SumLen(s: seq<Name>, m: map<Name, seq<Name>>): nat
  {
    if s == [] then 0 else (if s[0] in m then |m[s[0]]| else 0) + SumLen(s[1..], m)
  }

  /** What a pass can consume: the live keys and the entries of their lists. */
  function Measure(p: Pending): nat
  {
    |p.live| + SumLen(p.live, p.cur)
  }

  /** One pass of the `while` body: pop the ready keys (their batch is `Ready(p.pre, p.cur)`),
      strike departed names from the remaining lists, and re-snapshot. */
  function Pass(p: Pending): Pending
  {
    var live := Keep(p.live, Elems(Ready(p.pre, p.cur)));
    Pending(live, live, StrikeAll(live, Elems(live), p.cur))
  }

  /** A pass that pops nothing and strikes nothing: the loop cannot end from here. */
  predicate Stalled(p: Pending)
  {
    Pass(p).live == p.live && Pass(p).cur == p.cur
  }

  lemma {:induction false} SumLenKeep(s: seq<Name>, drop: set<Name>, m: map<Name, seq<Name>>)
    ensures SumLen(Keep(s, drop), m) <= SumLen(s, m)
  {
    if s != [] {
      SumLenKeep(s[1..], drop, m);
      var rest := Keep(s[1..], drop);
      if s[0] !in drop {
        assert Keep(s, drop) == [s[0]] + rest;
        assert ([s[0]] + rest)[1..] == rest;
        assert SumLen(Keep(s, drop), m) == (if s[0] in m then |m[s[0]]| else 0) + SumLen(rest, m);
      } else {
        assert Keep(s, drop) == rest;
      }
    }
  }

  lemma {:induction false} SumLenShrink(s: seq<Name>, m1: map<Name, seq<Name>>, m2: map<Name, seq<Name>>)
    requires m1.Keys == m2.Keys
    requires forall k :: k in m1 ==> |m2[k]| <= |m1[k]|
    ensures SumLen(s, m2) <= SumLen(s, m1)
    ensures (exists k :: k in s && k in m1 && |m2[k]| < |m1[k]|) ==> SumLen(s, m2) < SumLen(s, m1)
  {
    if s != [] {
      SumLenShrink(s[1..], m1, m2);
      if exists k :: k in s && k in m1 && |m2[k]| < |m1[k]| {
        var k :| k in s && k in m1 && |m2[k]| < |m1[k]|;
        if k != s[0] {
          assert k in s[1..];
        }
      }
    }
  }

  /** Every pass that is not stalled consumes a key or a list entry. */
  lemma PassShrinks(p: Pending)
    ensures !Stalled(p) ==> Measure(Pass(p)) < Measure(p)
  {
    var q := Pass(p);
    var batch := Elems(Ready(p.pre, p.cur));
    SumLenKeep(p.live, batch, p.cur);
    SumLenShrink(q.live, p.cur, q.cur);
    if q.live != p.live {
      if forall x :: x in p.live ==> x !in batch {
        KeepNothing(p.live, batch);
      }
      KeepShorter(p.live, batch);
    } else if q.cur != p.cur {
      var k :| k in p.cur && q.cur[k] != p.cur[k];
      assert k in q.live;
    }
  }

  /** A batch in front of the batches that follow it, unless those stop with a failure. */
  function Prepend(batch: seq<Name>, rest: Result<seq<seq<Name>>, Failure>): (r: Result<seq<seq<Name>>, Failure>)
    ensures r.Ok? <==> rest.Ok?
    ensures rest.Ok? ==> |r.value| == |rest.value| + 1 && r.value[0] == batch && r.value[1..] == rest.value
    ensures rest.Err? ==> r.error == rest.error
  {
    match rest
    case Err(e) => Err(e)
    case Ok(layers) => Ok([batch] + layers)
  }

  /** A pass that is not stalled puts its batch in front of the batches of the passes after it. */
  lemma LayersStep(p: Pending)
    requires p.live != [] && !Stalled(p)
    ensures Layers(p) == Prepend(Ready(p.pre, p.cur), Layers(Pass(p)))
  {
  }

  /** The batches the passes produce, one per pass, until no key is live. */
  function Layers(p: Pending): Result<seq<seq<Name>>, Failure>
    decreases Measure(p)
  {
    if p.live == [] then Ok([])
    else if Stalled(p) then Err(Diverges)
    else
      PassShrinks(p);
      Prepend(Ready(p.pre, p.cur), Layers(Pass(p)))
  }

  // ---------------------------------------------------------------------------
  // Lines 83, 104 and 107-109: how the batches become the iteration list.

  /** `iterationsFilesList` after the passes that produced `layers`, without its open last
      entry: the first batch shares its list with the names scanned at line 92. */
  function Merge(first: seq<Name>, layers: seq<seq<Name>>): seq<seq<Name>>
  {
    if layers == [] then [] else [first + layers[0]] + layers[1..]
  }

  /** Line 107 pops the open entry; lines 108-109 append the wildcard iteration. */
  function Assemble(first: seq<Name>, layers: seq<seq<Name>>, end: seq<Name>): seq<seq<Name>>
  {
    Merge(first, layers) + (if end == [] then [] else [end])
  }

  function Initial(g: Group, s: Scan): Pending
  {
    Pending(g.order, s.live, g.deps)
  }

  /** The iteration list the handler builds from `g`, or the failure that stops it. */
  function Resolve(g: Group): Result<seq<seq<Name>>, Failure>
  {
    match ScanFiles(g, g.order)
    case Err(e) => Err(e)
    case Ok(s) =>
      match Layers(Initial(g, s))
      case Err(e) => Err(e)
      case Ok(layers) => Ok(Assemble(s.first, layers, s.end))
  }
}
