/** The `T<...>:S<...>` scenario ids of the log records, and Python's `str()` of a count. */
module ScenarioIds {
  predicate IsDigit(c: char)
  {
    '0' <= c <= '9'
  }

  predicate AllDigits(s: string)
  {
    forall i :: 0 <= i < |s| ==> IsDigit(s[i])
  }

  function DigitChar(d: nat): (c: char)
    requires d < 10
    ensures IsDigit(c)
  {
    ('0' as int + d) as char
  }

  /** Python's `str(n)` for a count: decimal digits, no leading zero. */
  function NatToString(n: nat): (r: string)
    ensures |r| >= 1 && AllDigits(r)
    ensures r[0] == '0' ==> n == 0
  {
    if n < 10 then [DigitChar(n)]
    else NatToString(n / 10) + [DigitChar(n % 10)]
  }

  /** Reading a string of digits back as a count. */
  function ParseNat(s: string): nat
    requires AllDigits(s)
  {
    if s == [] then 0
    else ParseNat(s[..|s| - 1]) * 10 + (s[|s| - 1] as int - '0' as int)
  }

  lemma {:induction false} ParseNatToString(n: nat)
    ensures ParseNat(NatToString(n)) == n
  {
    if n >= 10 {
      ParseNatToString(n / 10);
      var r := NatToString(n);
      assert r[..|r| - 1] == NatToString(n / 10);
    }
  }

  /** Distinct counts are written differently. */
  lemma NatToStringInjective(a: nat, b: nat)
    ensures NatToString(a) == NatToString(b) <==> a == b
  {
    ParseNatToString(a);
    ParseNatToString(b);
  }

  /** The id grammar shared by every log record. */
  function ScenarioId(test: string, step: string): string
  {
    "T<" + test + ">:S<" + step + ">"
  }

  /** The id of the records that close a test or a test group. */
  lemma CompletedId()
    ensures ScenarioId("Completed", "Completed") == "T<Completed>:S<Completed>"
  {
    assert "T<" + "Completed" == "T<Completed";
    assert "T<Completed" + ">:S<" == "T<Completed>:S<";
    assert "T<Completed>:S<" + "Completed" == "T<Completed>:S<Completed";
  }

  lemma ScenarioIdParts(test: string, step: string)
    ensures |ScenarioId(test, step)| == |test| + |step| + 7
    ensures ScenarioId(test, step)[2 + |test|] == '>'
    ensures ScenarioId(test, step)[2..2 + |test|] == test
    ensures ScenarioId(test, step)[6 + |test|..|test| + |step| + 6] == step
  {
  }

  /** Within one test, the step part decides the id. */
  lemma {:induction false} ScenarioIdSteps(test: string, s1: string, s2: string)
    ensures ScenarioId(test, s1) == ScenarioId(test, s2) <==> s1 == s2
  {
    ScenarioIdParts(test, s1);
    ScenarioIdParts(test, s2);
  }

  /** For test ids without a '>', the id determines both of its parts. */
  lemma {:induction false} ScenarioIdInjective(t1: string, s1: string, t2: string, s2: string)
    requires '>' !in t1 && '>' !in t2
    ensures ScenarioId(t1, s1) == ScenarioId(t2, s2) <==> t1 == t2 && s1 == s2
  {
    ScenarioIdParts(t1, s1);
    ScenarioIdParts(t2, s2);
    var a, b := ScenarioId(t1, s1), ScenarioId(t2, s2);
    if a == b {
      assert |t1| == |t2|;
      ScenarioIdSteps(t1, s1, s2);
    }
  }
}
