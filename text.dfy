/**
 * Number formatting the daemon does with `ostream`: `<< hex << uppercase`
 * for PID filter strings and plain decimal `<<` for channel strings, with
 * the parsers that invert them.
 */
module Text {
  import opened Wrappers

  /** The digit for d: '0'-'9', then uppercase 'A'-'F'. */
  function DigitChar(d: nat): (c: char)
    requires d < 16
  {
    if d < 10 then ('0' as int + d) as char else ('A' as int + d - 10) as char
  }

  /** The value of a digit character, 16 for anything that is not one. */
  function DigitValue(c: char): (v: nat)
    ensures v <= 16
  {
    if '0' <= c <= '9' then c as int - '0' as int
    else if 'A' <= c <= 'F' then c as int - 'A' as int + 10
    else 16
  }

  lemma DigitRoundTrip(d: nat)
    requires d < 16
    ensures DigitValue(DigitChar(d)) == d
  {
  }

  predicate IsDigit(c: char, base: nat) { DigitValue(c) < base }

  predicate AllDigits(s: string, base: nat)
  {
    forall i :: 0 <= i < |s| ==> IsDigit(s[i], base)
  }

  predicate Base(base: nat) { 2 <= base <= 16 }

  lemma DivFacts(n: nat, base: nat)
    requires 2 <= base <= n
    ensures 1 <= n / base < n && n % base < base && n == n / base * base + n % base
  {
    var q, r := n / base, n % base;
    assert n == q * base + r && 0 <= r < base;
    assert q * base == q * 2 + q * (base - 2);
    assert q * (base - 2) >= 0;
  }

  /** n in the given base, most significant digit first, no leading
      zeros; "0" for zero. */
  function Render(n: nat, base: nat): (s: string)
    requires Base(base)
    ensures |s| >= 1 && AllDigits(s, base)
    ensures |s| > 1 ==> s[0] != '0'
    ensures n == 0 <==> s == "0"
    decreases n
  {
    if n < base then [DigitChar(n)]
    else
      DivFacts(n, base);
      Render(n / base, base) + [DigitChar(n % base)]
  }

  /** The number a digit string denotes. */
  function Value(s: string, base: nat): nat
    requires Base(base) && AllDigits(s, base)
    decreases |s|
  {
    if s == [] then 0 else Value(s[..|s| - 1], base) * base + DigitValue(s[|s| - 1])
  }

  lemma {:induction false} ValueRender(n: nat, base: nat)
    requires Base(base)
    ensures Value(Render(n, base), base) == n
    decreases n
  {
    if n >= base {
      var s := Render(n, base);
      DivFacts(n, base);
      ValueRender(n / base, base);
      assert s[..|s| - 1] == Render(n / base, base);
      DigitRoundTrip(n % base);
    } else {
      DigitRoundTrip(n);
    }
  }

  /** Rendering is injective: distinct numbers never print alike. */
  lemma RenderInjective(m: nat, n: nat, base: nat)
    requires Base(base) && Render(m, base) == Render(n, base)
    ensures m == n
  {
    ValueRender(m, base);
    ValueRender(n, base);
  }

  /** The longest digit prefix of s, and what follows it. */
  function TakeDigits(s: string, base: nat): (r: (string, string))
    requires Base(base)
    ensures r.0 + r.1 == s && AllDigits(r.0, base)
    ensures r.1 != [] ==> !IsDigit(r.1[0], base)
    decreases |s|
  {
    if s == [] || !IsDigit(s[0], base) then ([], s)
    else
      var r := TakeDigits(s[1..], base);
      ([s[0]] + r.0, r.1)
  }

  lemma {:induction false} TakeDigitsOf(d: string, t: string, base: nat)
    requires Base(base) && AllDigits(d, base) && (t != [] ==> !IsDigit(t[0], base))
    ensures TakeDigits(d + t, base) == (d, t)
    decreases |d|
  {
    if d != [] {
      assert (d + t)[1..] == d[1..] + t;
      TakeDigitsOf(d[1..], t, base);
      assert [d[0]] + d[1..] == d;
    } else {
      assert d + t == t;
    }
  }

  // ---------------------------------------------------------------------
  // Signed decimal, as `ostream << int` prints it
  // ---------------------------------------------------------------------

  function Decimal(n: int): (s: string)
  {
    if n < 0 then "-" + Render(-n, 10) else Render(n, 10)
  }

  function ParseDecimal(s: string): (r: Option<int>)
  {
    if |s| > 0 && s[0] == '-' then
      if |s| > 1 && AllDigits(s[1..], 10) then Some(0 - Value(s[1..], 10)) else None
    else if |s| > 0 && AllDigits(s, 10) then Some(Value(s, 10))
    else None
  }

  lemma ParseDecimalOf(n: int)
    ensures ParseDecimal(Decimal(n)) == Some(n)
  {
    if n < 0 {
      var d := Render(-n, 10);
      var s := "-" + d;
      assert s[0] == '-' && s[1..] == d;
      ValueRender(-n, 10);
      assert ParseDecimal(s) == Some(0 - Value(d, 10));
    } else {
      var d := Render(n, 10);
      assert d[0] != '-' by { assert IsDigit(d[0], 10); }
      ValueRender(n, 10);
    }
  }
}
