/** The base-10 integer literals accepted for the `value` field of a `BigInt`
    tagged object, and the canonical rendering of an integer (what
    `BigInt.prototype.toString()` produces). */
module Decimal {
  import opened JsonValues

  predicate IsDigit(c: char) {
    '0' <= c <= '9'
  }

  function DigitValue(c: char): (d: nat)
    requires IsDigit(c)
    ensures d < 10
  {
    (c as int) - ('0' as int)
  }

  function DigitChar(d: nat): (c: char)
    requires d < 10
    ensures IsDigit(c) && DigitValue(c) == d
  {
    (('0' as int) + d) as char
  }

  predicate AllDigits(s: string) {
    forall i :: 0 <= i < |s| ==> IsDigit(s[i])
  }

  /** The part of a literal after an optional leading sign. */
  function Unsigned(s: string): string {
    if |s| > 0 && (s[0] == '-' || s[0] == '+') then s[1..] else s
  }

  /** The literal grammar: an optional `+` or `-`, then one or more decimal digits. */
  predicate IsIntLiteral(s: string) {
    |Unsigned(s)| > 0 && AllDigits(Unsigned(s))
  }

  /** Scans digits left to right, accumulating into `acc`; fails at the first non-digit. */
  function ScanDigits(s: string, acc: nat): Option<nat>
    decreases |s|
  {
    if s == [] then Some(acc)
    else if IsDigit(s[0]) then ScanDigits(s[1..], acc * 10 + DigitValue(s[0]))
    else None
  }

  /** The value of a string of digits, read most significant digit first;
      leading zeros add nothing. */
  function DigitsValue(s: string): nat
    requires AllDigits(s)
    decreases |s|
  {
    if s == [] then 0 else DigitsValue(s[..|s| - 1]) * 10 + DigitValue(s[|s| - 1])
  }

  /** The integer a literal denotes: its digits' value, negated after a `-`. */
  function LiteralValue(s: string): int
    requires IsIntLiteral(s)
  {
    if s[0] == '-' then 0 - DigitsValue(Unsigned(s)) else DigitsValue(Unsigned(s))
  }

  /** Parses a base-10 integer literal: it succeeds exactly on the literal
      grammar, and then gives the literal's value. */
  function ParseInt(s: string): (r: Option<int>)
    ensures r.Some? <==> IsIntLiteral(s)
    ensures r.Some? ==> r.value == LiteralValue(s)
  {
    var body := Unsigned(s);
    ScanSucceedsIffDigits(body, 0);
    if body == [] then None
    else
      match ScanDigits(body, 0)
      case None => None
      case Some(n) =>
        ScanIsDigitsValue(body);
        var v: int := if |s| > 0 && s[0] == '-' then 0 - (n as int) else n;
        Some(v)
  }

  /** The shortest decimal digits of a natural number. */
  function DigitsOf(n: nat): (s: string)
    ensures |s| > 0 && AllDigits(s)
    decreases n
  {
    if n < 10 then [DigitChar(n)] else DigitsOf(n / 10) + [DigitChar(n % 10)]
  }

  /** The canonical rendering: a `-` for negative numbers, then the digits. */
  function ToDecimal(n: int): string {
    if n < 0 then "-" + DigitsOf(-n) else DigitsOf(n)
  }

  lemma {:induction false} ScanSucceedsIffDigits(s: string, acc: nat)
    ensures ScanDigits(s, acc).Some? <==> AllDigits(s)
    decreases |s|
  {
    if s != [] {
      ScanSucceedsIffDigits(s[1..], if IsDigit(s[0]) then acc * 10 + DigitValue(s[0]) else 0);
      if IsDigit(s[0]) && !AllDigits(s) {
        var i :| 0 <= i < |s| && !IsDigit(s[i]);
        assert !IsDigit(s[1..][i - 1]);
      }
    }
  }

  lemma {:induction false} ScanAppendDigit(s: string, c: char, acc: nat)
    requires IsDigit(c)
    ensures ScanDigits(s + [c], acc) ==
      match ScanDigits(s, acc)
      case None => None
      case Some(v) => Some(v * 10 + DigitValue(c))
    decreases |s|
  {
    if s == [] {
      assert s + [c] == [c];
      assert [c][1..] == [];
    } else {
      assert (s + [c])[0] == s[0];
      assert (s + [c])[1..] == s[1..] + [c];
      if IsDigit(s[0]) {
        ScanAppendDigit(s[1..], c, acc * 10 + DigitValue(s[0]));
      }
    }
  }

  lemma {:induction false} ScanDigitsOf(n: nat)
    ensures ScanDigits(DigitsOf(n), 0) == Some(n)
    decreases n
  {
    if n < 10 {
      assert DigitsOf(n)[1..] == [];
    } else {
      ScanDigitsOf(n / 10);
      ScanAppendDigit(DigitsOf(n / 10), DigitChar(n % 10), 0);
    }
  }

  lemma {:induction false} ScanIsDigitsValue(s: string)
    requires AllDigits(s)
    ensures ScanDigits(s, 0) == Some(DigitsValue(s))
    decreases |s|
  {
    if s != [] {
      var init := s[..|s| - 1];
      ScanIsDigitsValue(init);
      ScanAppendDigit(init, s[|s| - 1], 0);
      assert init + [s[|s| - 1]] == s;
    }
  }

  /** A leading `+` keeps the sign, and leading zeros do not change the value. */
  lemma SignAndLeadingZeros()
    ensures ParseInt("+3") == Some(3)
    ensures ParseInt("-007") == Some(-7)
    ensures ParseInt("") == None && ParseInt("-") == None && ParseInt("a") == None
  {
    assert Unsigned("+3") == "3" && AllDigits("3");
    assert DigitsValue("3") == 3 by {
      assert "3"[..0] == "";
    }
    assert Unsigned("-007") == "007" && AllDigits("007");
    assert DigitsValue("007") == 7 by {
      assert "007"[..2] == "00" && "00"[..1] == "0" && "0"[..0] == "";
    }
    assert !IsDigit("a"[0]);
  }

  /** Every integer's canonical rendering parses back to that integer. */
  lemma ParseIntRoundTrip(n: int)
    ensures ParseInt(ToDecimal(n)) == Some(n)
  {
    if n < 0 {
      var d := DigitsOf(-n);
      assert ToDecimal(n) == "-" + d;
      assert Unsigned("-" + d) == d;
      ScanDigitsOf(-n);
    } else {
      var d := DigitsOf(n);
      assert IsDigit(d[0]);
      assert Unsigned(d) == d;
      ScanDigitsOf(n);
    }
  }
}
