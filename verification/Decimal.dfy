/** Decimal printing (`{}` on an unsigned integer) and the digit parser that inverts it. */
module Decimal {
  import opened Prelude

  predicate IsDigit(c: char) {
    '0' <= c <= '9'
  }

  predicate AllDigits(s: string) {
    forall k :: 0 <= k < |s| ==> IsDigit(s[k])
  }

  function DigitChar(d: nat): (c: char)
    requires d < 10
    ensures IsDigit(c) && c as int - '0' as int == d
  {
    '0' + d as char
  }

  function DigitValue(c: char): (d: nat)
    requires IsDigit(c)
    ensures d < 10 && DigitChar(d) == c
  {
    c as int - '0' as int
  }

  /** The shortest decimal numeral of `n`. */
  function Print(n: nat): (s: string)
    ensures |s| > 0 && AllDigits(s) && (n > 0 ==> s[0] != '0')
  {
    if n < 10 then [DigitChar(n)] else Print(n / 10) + [DigitChar(n % 10)]
  }

  function Value(s: string): nat
    requires AllDigits(s)
  {
    if s == [] then 0 else 10 * Value(s[..|s| - 1]) + DigitValue(s[|s| - 1])
  }

  lemma {:induction false} ValueOfPrint(n: nat)
    ensures Value(Print(n)) == n
  {
    if n >= 10 {
      ValueOfPrint(n / 10);
      assert Print(n)[..|Print(n)| - 1] == Print(n / 10);
    }
  }

  lemma PrintInjective(m: nat, n: nat)
    requires Print(m) == Print(n)
    ensures m == n
  {
    ValueOfPrint(m);
    ValueOfPrint(n);
  }

  /** Rust's `str::parse::<u64>`: an optional `+`, at least one digit, no overflow. */
  function ParseU64(s: string): Option<u64>
  {
    var digits := if s != [] && s[0] == '+' then s[1..] else s;
    if digits != [] && AllDigits(digits) && Value(digits) < U64_LIMIT then Some(Value(digits)) else None
  }

  /** Every numeral of a u64 reads back, with or without the sign, and no larger one does. */
  lemma ParsePrinted(n: nat)
    ensures ParseU64(Print(n)) == if n < 0x1_0000_0000_0000_0000 then Some(n) else None
    ensures ParseU64(['+'] + Print(n)) == ParseU64(Print(n))
  {
    ValueOfPrint(n);
    assert IsDigit(Print(n)[0]);
    assert (['+'] + Print(n))[1..] == Print(n);
  }

  /** Nothing else is accepted: not the empty string, not a lone sign, not any other character. */
  lemma ParseRejects(s: string, k: nat)
    requires k < |s| ==> !('0' <= s[k] <= '9') && (k > 0 || s[k] != '+' || |s| == 1)
    requires k < |s| || s == []
    ensures ParseU64(s).None?
  {
    if s != [] && s[0] == '+' {
      assert k > 0 ==> s[1..][k - 1] == s[k];
    }
  }

  lemma {:induction false} PrintLength(n: nat, width: nat, bound: nat)
    requires 0 < width && n < bound && bound <= Power10(width)
    ensures |Print(n)| <= width
    decreases width
  {
    if n >= 10 {
      assert width > 1;
      PrintLength(n / 10, width - 1, Power10(width - 1));
    }
  }

  function Power10(e: nat): nat {
    if e == 0 then 1 else 10 * Power10(e - 1)
  }
}
