/** The handful of JavaScript string operations the processors rely on,
    restricted to ASCII: `toLowerCase`, `trim`, `includes`, the extension
    taken by `split(".").pop()`, and the numeric prefix `/^(\d+\.?\d*)/`
    read back with `parseFloat`. */
module Text {
  import opened Common

  predicate IsDigit(c: char) {
    '0' <= c <= '9'
  }

  predicate IsUpper(c: char) {
    'A' <= c <= 'Z'
  }

  /** `toLowerCase` on the ASCII letters. */
  function Lower(s: string): (r: string)
    ensures |r| == |s|
    ensures forall k :: 0 <= k < |s| ==> !IsUpper(r[k])
    ensures forall k :: 0 <= k < |s| && !IsUpper(s[k]) ==> r[k] == s[k]
    ensures forall k :: 0 <= k < |s| && IsUpper(s[k]) ==> 'a' <= r[k] <= 'z' && r[k] as int - 'a' as int == s[k] as int - 'A' as int
  {
    if s == [] then []
    else [if IsUpper(s[0]) then (s[0] as int + 32) as char else s[0]] + Lower(s[1..])
  }

  /** The white-space characters `trim` removes (ASCII, no-break space, BOM). */
  predicate IsSpace(c: char) {
    c == ' ' || c == '\t' || c == '\n' || c == '\r' || c == '\U{000B}' || c == '\U{000C}' ||
    c == '\U{00A0}' || c == '\U{FEFF}'
  }

  function TrimStart(s: string): (r: string)
    ensures |r| <= |s|
    ensures r == s[|s| - |r|..]
    ensures r != [] ==> !IsSpace(r[0])
    ensures forall k :: 0 <= k < |s| - |r| ==> IsSpace(s[k])
  {
    if s != [] && IsSpace(s[0]) then TrimStart(s[1..]) else s
  }

  function TrimEnd(s: string): (r: string)
    ensures |r| <= |s|
    ensures r == s[..|r|]
    ensures r != [] ==> !IsSpace(r[|r| - 1])
    ensures forall k :: |r| <= k < |s| ==> IsSpace(s[k])
  {
    if s != [] && IsSpace(s[|s| - 1]) then TrimEnd(s[..|s| - 1]) else s
  }

  function Trim(s: string): string {
    TrimEnd(TrimStart(s))
  }

  /** `s.includes(sub)` */
  predicate Contains(s: string, sub: string) {
    sub <= s || (s != [] && Contains(s[1..], sub))
  }

  /** Length of the run of digits that `s` starts with. */
  function DigitRun(s: string): (n: nat)
    ensures n <= |s|
    ensures forall k :: 0 <= k < n ==> IsDigit(s[k])
    ensures n < |s| ==> !IsDigit(s[n])
  {
    if s != [] && IsDigit(s[0]) then 1 + DigitRun(s[1..]) else 0
  }

  function DigitsValue(ds: string): nat
    requires forall k :: 0 <= k < |ds| ==> IsDigit(ds[k])
    decreases |ds|
  {
    if ds == [] then 0
    else 10 * DigitsValue(ds[..|ds| - 1]) + DigitValue(ds[|ds| - 1])
  }

  function DigitValue(c: char): (d: nat)
    requires IsDigit(c)
    ensures d < 10
  {
    c as int - '0' as int
  }

  function Pow10(n: nat): (r: nat)
    ensures r >= 1
  {
    if n == 0 then 1 else 10 * Pow10(n - 1)
  }

  /** A run of n digits is worth less than 10^n. */
  lemma {:induction false} DigitsBelow(ds: string)
    requires forall k :: 0 <= k < |ds| ==> IsDigit(ds[k])
    ensures DigitsValue(ds) < Pow10(|ds|)
    decreases |ds|
  {
    if ds != [] {
      DigitsBelow(ds[..|ds| - 1]);
    }
  }

  /** A whole number below p, divided by p, is a fraction in [0, 1). */
  lemma {:induction false} FractionBelowOne(x: nat, p: nat)
    requires x < p
    ensures 0.0 <= x as real / p as real < 1.0
  {
    var q := x as real / p as real;
    assert q * p as real == x as real;
  }

  /** The number `parseFloat` reads from the match of `/^(\d+\.?\d*)/` on
      `s`, or None when `s` does not start with a digit: the whole part is
      the leading digits, and the digits after a following `.` add a
      fraction below 1. */
  function LeadingNumber(s: string): (r: Option<real>)
    ensures r.Some? <==> s != [] && IsDigit(s[0])
    ensures r.Some? ==> r.value >= 0.0
    ensures r.Some? ==>
              var whole := DigitsValue(s[..DigitRun(s)]) as real;
              whole <= r.value < whole + 1.0
    ensures r.Some? && !(DigitRun(s) < |s| && s[DigitRun(s)] == '.') ==> r.value == DigitsValue(s[..DigitRun(s)]) as real
  {
    var n := DigitRun(s);
    if n == 0 then None
    else
      var whole := DigitsValue(s[..n]) as real;
      if n < |s| && s[n] == '.' then
        var rest := s[n + 1..];
        var m := DigitRun(rest);
        DigitsBelow(rest[..m]);
        FractionBelowOne(DigitsValue(rest[..m]), Pow10(m));
        Some(whole + DigitsValue(rest[..m]) as real / Pow10(m) as real)
      else Some(whole)
  }

  /** Digits in front of a text lengthen its leading digit run by their number. */
  lemma {:induction false} DigitRunAppend(a: string, x: string)
    requires forall k :: 0 <= k < |a| ==> IsDigit(a[k])
    ensures DigitRun(a + x) == |a| + DigitRun(x)
    decreases |a|
  {
    if a != [] {
      assert (a + x)[0] == a[0];
      assert (a + x)[1..] == a[1..] + x;
      DigitRunAppend(a[1..], x);
    } else {
      assert a + x == x;
    }
  }

  /** Reading `a.b` followed by a non-digit gives a + b / 10^|b|, as
      `parseFloat` of the matched text does. */
  lemma {:induction false} LeadingNumberFraction(a: string, b: string, rest: string)
    requires |a| >= 1 && forall k :: 0 <= k < |a| ==> IsDigit(a[k])
    requires forall k :: 0 <= k < |b| ==> IsDigit(b[k])
    requires rest == [] || !IsDigit(rest[0])
    ensures LeadingNumber(a + ['.'] + b + rest) ==
              Some(DigitsValue(a) as real + DigitsValue(b) as real / Pow10(|b|) as real)
  {
    FractionParts(a, b, rest);
  }

  /** How the match splits `a.b` followed by a non-digit. */
  lemma {:induction false} FractionParts(a: string, b: string, rest: string)
    requires |a| >= 1 && forall k :: 0 <= k < |a| ==> IsDigit(a[k])
    requires forall k :: 0 <= k < |b| ==> IsDigit(b[k])
    requires rest == [] || !IsDigit(rest[0])
    ensures var s := a + ['.'] + b + rest;
            DigitRun(s) == |a| && s[..|a|] == a && s[|a|] == '.' &&
            DigitRun(s[|a| + 1..]) == |b| && s[|a| + 1..][..|b|] == b
  {
    var tail := ['.'] + b + rest;
    var s := a + ['.'] + b + rest;
    assert s == a + tail;
    DigitRunAppend(a, tail);
    var after := s[|a| + 1..];
    assert after == b + rest;
    DigitRunAppend(b, rest);
  }

  /** Reading digits followed by neither a digit nor `.` gives their value. */
  lemma {:induction false} LeadingNumberWhole(a: string, rest: string)
    requires |a| >= 1 && forall k :: 0 <= k < |a| ==> IsDigit(a[k])
    requires rest == [] || (!IsDigit(rest[0]) && rest[0] != '.')
    ensures LeadingNumber(a + rest) == Some(DigitsValue(a) as real)
  {
    DigitRunAppend(a, rest);
    assert (a + rest)[..|a|] == a;
  }

  lemma {:induction false} DecimalIsDigits(n: nat)
    ensures forall k :: 0 <= k < |Decimal(n)| ==> IsDigit(Decimal(n)[k])
    ensures DigitsValue(Decimal(n)) == n
    decreases n
  {
    if n >= 10 {
      DecimalIsDigits(n / 10);
      var d := Decimal(n);
      assert d[..|d| - 1] == Decimal(n / 10);
    }
  }

  lemma {:induction false} DigitRunAll(s: string)
    requires forall k :: 0 <= k < |s| ==> IsDigit(s[k])
    ensures DigitRun(s) == |s|
  {
    if s != [] {
      DigitRunAll(s[1..]);
    }
  }

  /** Reading back the decimal text of a whole number gives that number:
      `parseFloat(String(n)) === n` for the digits-only match. */
  lemma LeadingNumberOfDecimal(n: nat)
    ensures LeadingNumber(Decimal(n)) == Some(n as real)
  {
    DecimalIsDigits(n);
    DigitRunAll(Decimal(n));
    assert Decimal(n)[..|Decimal(n)|] == Decimal(n);
  }

  /** The text after the last `.`, or all of `s` when it has none
      (`s.split(".").pop()`). */
  function AfterLastDot(s: string): (r: string)
    ensures |r| <= |s|
  {
    if s == [] then []
    else if s[|s| - 1] == '.' then []
    else AfterLastDot(s[..|s| - 1]) + [s[|s| - 1]]
  }

  /** What `pop` returns is a dot-free suffix of the text, and what
      precedes it, if anything, is a dot. */
  lemma {:induction false} AfterLastDotSuffix(s: string)
    ensures var r := AfterLastDot(s);
            r == s[|s| - |r|..] && '.' !in r && (|r| < |s| ==> s[|s| - |r| - 1] == '.')
  {
    if s != [] && s[|s| - 1] != '.' {
      var init := s[..|s| - 1];
      AfterLastDotSuffix(init);
      var ri := AfterLastDot(init);
      var r := AfterLastDot(s);
      assert r == ri + [s[|s| - 1]];
      assert init[|init| - |ri|..] + [s[|s| - 1]] == s[|s| - |r|..];
      if |r| < |s| {
        assert s[|s| - |r| - 1] == init[|init| - |ri| - 1];
      }
    }
  }
}
