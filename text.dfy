/** The string operations the middleware relies on: `str.lower()`, `str.split(sep, 1)[1]`
    and `'%s' % n` for a non-negative integer. */
module Text {
  import opened Wrappers

  /** Lower-cases one character (ASCII letters only). */
  function LowerChar(c: char): char
  {
    if 'A' <= c <= 'Z' then (c as int - 'A' as int + 'a' as int) as char else c
  }

  /** `s.lower()`: same length, no upper-case ASCII letter left, and every '@' stays where it was. */
  function Lower(s: string): (r: string)
    ensures |r| == |s|
    ensures forall i :: 0 <= i < |r| ==> !('A' <= r[i] <= 'Z')
    ensures forall i :: 0 <= i < |r| ==> (r[i] == '@' <==> s[i] == '@')
    ensures forall i :: 0 <= i < |r| ==> r[i] == LowerChar(s[i])
  {
    seq(|s|, i requires 0 <= i < |s| => LowerChar(s[i]))
  }

  /** `s.split(sep, 1)[1]`: the text after the first `sep`, or `None` where Python raises
      `IndexError` because `sep` does not occur. */
  function AfterFirst(s: string, sep: char): (r: Option<string>)
    ensures r.None? <==> sep !in s
    ensures r.Some? ==> |r.value| < |s| && s[|s| - |r.value| - 1] == sep
    ensures r.Some? ==> sep !in s[..|s| - |r.value| - 1] && r.value == s[|s| - |r.value|..]
  {
    if s == [] then None
    else if s[0] == sep then Some(s[1..])
    else
      AfterFirst(s[1..], sep)
  }

  /** Lower-casing first and then splitting at the first '@' gives the lower-cased text
      after the first '@' of the original string. */
  lemma {:induction false} AfterFirstAtOfLower(s: string)
    ensures AfterFirst(Lower(s), '@') == (if '@' in s then Some(Lower(AfterFirst(s, '@').value)) else None)
  {
    if s != [] {
      assert Lower(s)[1..] == Lower(s[1..]);
      if s[0] != '@' {
        AfterFirstAtOfLower(s[1..]);
      }
    }
  }

  function DigitChar(d: nat): char
    requires d < 10
  {
    ('0' as int + d) as char
  }

  function DigitValue(c: char): nat
  {
    if '0' <= c <= '9' then c as int - '0' as int else 0
  }

  /** `'%s' % n` for a natural number: its decimal digits, most significant first. */
  function Decimal(n: nat): (r: string)
    ensures |r| >= 1
    ensures forall i :: 0 <= i < |r| ==> '0' <= r[i] <= '9'
    decreases n
  {
    if n < 10 then [DigitChar(n)] else Decimal(n / 10) + [DigitChar(n % 10)]
  }

  /** Reads a string of decimal digits back as a number; it reads `Decimal`'s rendering back
      (`ParseDecimalOfDecimal`). */
  function ParseDecimal(s: string): nat
  {
    if s == [] then 0 else ParseDecimal(s[..|s| - 1]) * 10 + DigitValue(s[|s| - 1])
  }

  lemma {:induction false} ParseDecimalOfDecimal(n: nat)
    ensures ParseDecimal(Decimal(n)) == n
    decreases n
  {
    var s := Decimal(n);
    if n < 10 {
      assert s[..|s| - 1] == [];
    } else {
      assert s[..|s| - 1] == Decimal(n / 10);
      ParseDecimalOfDecimal(n / 10);
    }
  }

  /** Distinct numbers print as distinct strings. */
  lemma DecimalInjective(a: nat, b: nat)
    ensures Decimal(a) == Decimal(b) ==> a == b
  {
    ParseDecimalOfDecimal(a);
    ParseDecimalOfDecimal(b);
  }
}
