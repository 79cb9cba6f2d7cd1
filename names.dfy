/** Test names and the sequence operations the resolver performs on the dict keys and lists. */
module Names {
  type Name = string

  predicate Distinct(s: seq<Name>)
  {
    forall i, j :: 0 <= i < j < |s| ==> s[i] != s[j]
  }

  function Elems(s: seq<Name>): set<Name>
  {
    set x | x in s
  }

  /** The names of `s` that are not in `drop`, in their order: what is left of a
      dict's key order after popping the keys in `drop`. */
  function Keep(s: seq<Name>, drop: set<Name>): (r: seq<Name>)
    ensures |r| <= |s|
    ensures forall x :: x in r <==> x in s && x !in drop
  {
    if s == [] then [] else (if s[0] in drop then [] else [s[0]]) + Keep(s[1..], drop)
  }

  /** The names of `s` that are in `S`, in their order. */
  function Within(s: seq<Name>, S: set<Name>): (r: seq<Name>)
    ensures forall x :: x in r <==> x in s && x in S
  {
    if s == [] then [] else (if s[0] in S then [s[0]] else []) + Within(s[1..], S)
  }

  /** The batches of an iteration list laid end to end. */
  function Flatten(batches: seq<seq<Name>>): (r: seq<Name>)
    ensures forall i, x :: 0 <= i < |batches| && x in batches[i] ==> x in r
    ensures forall x :: x in r ==> exists i :: 0 <= i < |batches| && x in batches[i]
  {
    if batches == [] then [] else batches[0] + Flatten(batches[1..])
  }

  lemma KeepCons(x: Name, t: seq<Name>, drop: set<Name>)
    ensures Keep([x] + t, drop) == (if x in drop then [] else [x]) + Keep(t, drop)
  {
    assert ([x] + t)[0] == x && ([x] + t)[1..] == t;
  }

  lemma {:induction false} KeepAppend(a: seq<Name>, b: seq<Name>, drop: set<Name>)
    ensures Keep(a + b, drop) == Keep(a, drop) + Keep(b, drop)
  {
    if a == [] {
      assert a + b == b;
    } else {
      var t := a[1..];
      assert a == [a[0]] + t;
      assert a + b == [a[0]] + (t + b);
      KeepCons(a[0], t + b, drop);
      KeepCons(a[0], t, drop);
      KeepAppend(t, b, drop);
      AppendAssoc(if a[0] in drop then [] else [a[0]], Keep(t, drop), Keep(b, drop));
    }
  }

  lemma {:induction false} KeepKeep(s: seq<Name>, a: set<Name>, b: set<Name>)
    ensures Keep(Keep(s, a), b) == Keep(s, a + b)
  {
    if s != [] {
      KeepKeep(s[1..], a, b);
      var t := Keep(s[1..], a);
      if s[0] in a {
        assert Keep(s, a) == t;
      } else {
        assert Keep(s, a) == [s[0]] + t;
        assert ([s[0]] + t)[1..] == t;
        assert Keep(Keep(s, a), b) == (if s[0] in b then [] else [s[0]]) + Keep(t, b);
      }
    }
  }

  lemma {:induction false} KeepDistinct(s: seq<Name>, drop: set<Name>)
    requires Distinct(s)
    ensures Distinct(Keep(s, drop))
  {
    if s != [] {
      assert Distinct(s[1..]) by {
        forall i, j | 0 <= i < j < |s[1..]| ensures s[1..][i] != s[1..][j] {
          assert s[1..][i] == s[i + 1] && s[1..][j] == s[j + 1];
        }
      }
      KeepDistinct(s[1..], drop);
      assert s[0] !in s[1..] by {
        forall j | 0 <= j < |s[1..]| ensures s[1..][j] != s[0] {
          assert s[1..][j] == s[j + 1];
        }
      }
    }
  }

  /** Popping keys that are all absent leaves the order as it was. */
  lemma {:induction false} KeepNothing(s: seq<Name>, drop: set<Name>)
    requires forall x :: x in s ==> x !in drop
    ensures Keep(s, drop) == s
  {
    if s != [] {
      KeepNothing(s[1..], drop);
      assert s == [s[0]] + s[1..];
    }
  }

  /** Popping every name of the order leaves nothing. */
  lemma KeepAll(s: seq<Name>, drop: set<Name>)
    requires forall x :: x in s ==> x in drop
    ensures Keep(s, drop) == []
  {
  }

  /** Popping at least one present key makes the order strictly shorter. */
  lemma {:induction false} KeepShorter(s: seq<Name>, drop: set<Name>)
    requires exists x :: x in s && x in drop
    ensures |Keep(s, drop)| < |s|
  {
    if s[0] !in drop {
      KeepShorter(s[1..], drop);
    }
  }

  lemma {:induction false} FlattenAppend(a: seq<seq<Name>>, b: seq<seq<Name>>)
    ensures Flatten(a + b) == Flatten(a) + Flatten(b)
  {
    if a == [] {
      assert a + b == b;
    } else {
      assert (a + b)[0] == a[0] && (a + b)[1..] == a[1..] + b;
      FlattenAppend(a[1..], b);
      assert Flatten(a + b) == a[0] + Flatten(a[1..] + b);
    }
  }

  lemma AppendAssoc(a: seq<Name>, b: seq<Name>, c: seq<Name>)
    ensures (a + b) + c == a + (b + c)
  {
  }

  lemma ElemsAppend(a: seq<Name>, b: seq<Name>)
    ensures Elems(a + b) == Elems(a) + Elems(b)
  {
  }

  /** Dropping the last name keeps a sequence distinct, and that name is not among the rest. */
  lemma DistinctPrefix(s: seq<Name>)
    requires Distinct(s) && s != []
    ensures Distinct(s[..|s| - 1]) && s[|s| - 1] !in s[..|s| - 1]
  {
    var p := s[..|s| - 1];
    forall j | 0 <= j < |p| ensures p[j] != s[|s| - 1] {
      assert p[j] == s[j];
    }
  }

  /** Two distinct sequences with no common name concatenate to a distinct sequence. */
  lemma DistinctAppend(a: seq<Name>, b: seq<Name>)
    requires Distinct(a) && Distinct(b)
    requires forall x :: x in a ==> x !in b
    ensures Distinct(a + b)
  {
    forall i, j | 0 <= i < j < |a + b| ensures (a + b)[i] != (a + b)[j] {
      if j < |a| {
        assert (a + b)[i] == a[i] && (a + b)[j] == a[j];
      } else if i < |a| {
        assert (a + b)[i] == a[i] && (a + b)[j] == b[j - |a|];
        assert a[i] in a;
      } else {
        assert (a + b)[i] == b[i - |a|] && (a + b)[j] == b[j - |a|];
      }
    }
  }

  /** A name of a distinct sequence occurs in it exactly once. */
  lemma {:induction false} DistinctOnce(s: seq<Name>, x: Name)
    requires Distinct(s)
    ensures multiset(s)[x] == if x in s then 1 else 0
  {
    if s != [] {
      assert s == [s[0]] + s[1..];
      assert Distinct(s[1..]) by {
        forall i, j | 0 <= i < j < |s[1..]| ensures s[1..][i] != s[1..][j] {
          assert s[1..][i] == s[i + 1] && s[1..][j] == s[j + 1];
        }
      }
      DistinctOnce(s[1..], x);
      assert s[0] !in s[1..] by {
        forall j | 0 <= j < |s[1..]| ensures s[1..][j] != s[0] {
          assert s[1..][j] == s[j + 1];
        }
      }
    }
  }
}
