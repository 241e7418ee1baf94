/** String helpers the source gets from JavaScript: `includes`, template-literal numbers, `toUpperCase`. */
module Text {

  /** `s.includes(sub)`: a case-sensitive substring test. */
  predicate Contains(s: string, sub: string) {
    exists i | 0 <= i <= |s| - |sub| :: OccursAt(s, sub, i)
  }

  predicate OccursAt(s: string, sub: string, i: int)
    requires 0 <= i <= |s| - |sub|
  {
    s[i..i + |sub|] == sub
  }

  /** Any text with `sub` written inside it contains `sub`. */
  lemma ContainsInfix(p: string, sub: string, q: string)
    ensures Contains(p + sub + q, sub)
  {
    var s := p + sub + q;
    assert s[|p|..|p| + |sub|] == sub;
    assert OccursAt(s, sub, |p|);
  }

  /** The test is case-sensitive: `"generate_report"` contains `"report"`, `"Report"` does not. */
  lemma ContainsIsCaseSensitive()
    ensures Contains("generate_report", "report")
    ensures !Contains("Report", "report")
  {
    ContainsInfix("generate_", "report", "");
    assert "generate_" + "report" + "" == "generate_report";
    assert "Report"[0] != "report"[0];
  }

  function DigitChar(d: nat): (c: char)
    requires d < 10
    ensures '0' <= c <= '9'
  {
    ('0' as int + d) as char
  }

  function DigitValue(c: char): (d: nat)
    ensures d < 10
  {
    if '0' <= c <= '9' then (c as int - '0' as int) as nat else 0
  }

  /** The decimal text of `n`, as `${n}` prints a non-negative integer. */
  function NatToString(n: nat): (s: string)
    ensures |s| >= 1
    ensures forall i :: 0 <= i < |s| ==> '0' <= s[i] <= '9'
    decreases n
  {
    if n < 10 then [DigitChar(n)] else NatToString(n / 10) + [DigitChar(n % 10)]
  }

  /** Reads a string of decimal digits back; any other character reads as 0. */
  function ParseNat(s: string): nat
    decreases |s|
  {
    if s == [] then 0 else 10 * ParseNat(s[..|s| - 1]) + DigitValue(s[|s| - 1])
  }

  /** Printing a number and reading it back gives the number. */
  lemma {:induction false} ParseNatToString(n: nat)
    ensures ParseNat(NatToString(n)) == n
    decreases n
  {
    var s := NatToString(n);
    if n < 10 {
      assert s[..0] == [];
    } else {
      ParseNatToString(n / 10);
      assert s[..|s| - 1] == NatToString(n / 10);
    }
  }

  /** `toUpperCase` restricted to ASCII letters. */
  function UpperChar(c: char): (u: char)
    ensures 'a' <= c <= 'z' ==> u as int == c as int - 32
    ensures !('a' <= c <= 'z') ==> u == c
  {
    if 'a' <= c <= 'z' then (c as int - 32) as char else c
  }

  function ToUpper(s: string): (r: string)
    ensures |r| == |s|
    ensures forall i :: 0 <= i < |s| ==> r[i] == UpperChar(s[i])
  {
    seq(|s|, i requires 0 <= i < |s| => UpperChar(s[i]))
  }
}
