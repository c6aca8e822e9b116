/**
  Number text to value, the part of `strtod` the interpreter relies on:
  leading white space, an optional sign, decimal digits with an optional
  fraction. Conversion stops at the first character that cannot continue the
  number; text with no digits converts to zero. Values are exact reals.
*/
module Numbers {

  predicate IsDigit(c: char) {
    '0' <= c <= '9'
  }

  /** The white space `isspace` accepts in the C locale. */
  predicate IsSpace(c: char) {
    c == ' ' || c == '\t' || c == '\n' || c == '\U{000B}' || c == '\U{000C}' || c == '\r'
  }

  predicate AllDigits(d: string) {
    forall i :: 0 <= i < |d| ==> IsDigit(d[i])
  }

  function DigitValue(c: char): nat
    requires IsDigit(c)
  {
    (c as int - '0' as int) as nat
  }

  /**
    Removes the leading white space: what is left is a suffix of `s` that does
    not start with white space, and everything dropped was white space.
  */
  function SkipSpace(s: string): (t: string)
    ensures |t| <= |s|
    ensures t == [] || !IsSpace(t[0])
    ensures forall i :: 0 <= i < |s| - |t| ==> IsSpace(s[i])
    ensures t == s[|s| - |t|..]
  {
    if s != [] && IsSpace(s[0]) then
      var t := SkipSpace(s[1..]);
      assert s[1..][|s| - 1 - |t|..] == s[|s| - |t|..];
      t
    else s
  }

  /** Length of the maximal run of digits at the front of `s`. */
  function DigitRun(s: string): (n: nat)
    ensures n <= |s| && AllDigits(s[..n])
    ensures n < |s| ==> !IsDigit(s[n])
  {
    if s == [] || !IsDigit(s[0]) then 0 else 1 + DigitRun(s[1..])
  }

  /** The value of a digit string read as a whole number. */
  function DigitsValue(d: string): nat
    requires AllDigits(d)
  {
    if d == [] then 0 else 10 * DigitsValue(d[..|d| - 1]) + DigitValue(d[|d| - 1])
  }

  /** The value of a digit string read after a decimal point. */
  function FractionValue(d: string): (v: real)
    requires AllDigits(d)
    ensures 0.0 <= v < 1.0
  {
    if d == [] then 0.0 else (DigitValue(d[0]) as real + FractionValue(d[1..])) / 10.0
  }

  /** The value of unsigned number text: whole digits, then an optional fraction. */
  function Magnitude(u: string): (m: real)
    ensures m >= 0.0
  {
    var n := DigitRun(u);
    var rest := u[n..];
    var fraction := if rest != [] && rest[0] == '.' then rest[1..][..DigitRun(rest[1..])] else [];
    DigitsValue(u[..n]) as real + FractionValue(fraction)
  }

  /**
    The numeric value `strtod` gives the text `s`: it is negative only when a
    minus sign follows the leading white space.
  */
  function ParseNumber(s: string): (v: real)
    ensures var t := SkipSpace(s); t != [] && t[0] == '-' ==> v <= 0.0
    ensures var t := SkipSpace(s); (t == [] || t[0] != '-') ==> v >= 0.0
  {
    Signed(SkipSpace(s))
  }

  /** Text that holds no digit at all converts to zero. */
  lemma ParseNoDigits(s: string)
    requires forall i :: 0 <= i < |s| ==> !IsDigit(s[i])
    ensures ParseNumber(s) == 0.0
  {
    NoDigitsAfterSpace(s);
    SignedNoDigits(SkipSpace(s));
  }

  /** Signed text without a digit converts to zero. */
  lemma SignedNoDigits(t: string)
    requires forall i :: 0 <= i < |t| ==> !IsDigit(t[i])
    ensures Signed(t) == 0.0
  {
    var u := if t != [] && t[0] in {'-', '+'} then t[1..] else t;
    assert forall i :: 0 <= i < |u| ==> !IsDigit(u[i]);
    MagnitudeNoDigits(u);
  }

  /** Unsigned text without a digit has magnitude zero, a lone decimal point included. */
  lemma MagnitudeNoDigits(u: string)
    requires forall i :: 0 <= i < |u| ==> !IsDigit(u[i])
    ensures Magnitude(u) == 0.0
  {
    assert DigitRun(u) == 0;
    assert u[..0] == [];
    if u != [] && u[0] == '.' {
      assert DigitRun(u[1..]) == 0;
      assert u[1..][..0] == [];
    }
  }

  /** Skipping white space brings in no digit. */
  lemma {:induction false} NoDigitsAfterSpace(s: string)
    ensures (forall i :: 0 <= i < |s| ==> !IsDigit(s[i])) ==> forall i :: 0 <= i < |SkipSpace(s)| ==> !IsDigit(SkipSpace(s)[i])
  {
    if s != [] && IsSpace(s[0]) {
      NoDigitsAfterSpace(s[1..]);
    }
  }

  /** The value of number text after the white space: an optional sign, then the magnitude. */
  function Signed(t: string): (v: real)
    ensures t != [] && t[0] == '-' ==> v <= 0.0
    ensures (t == [] || t[0] != '-') ==> v >= 0.0
  {
    if t != [] && t[0] == '-' then -Magnitude(t[1..])
    else if t != [] && t[0] == '+' then Magnitude(t[1..])
    else Magnitude(t)
  }

  /** The decimal text of a natural number, most significant digit first. */
  function Digits(n: nat): (d: string)
    ensures d != [] && AllDigits(d)
    decreases n
  {
    (if n < 10 then [] else Digits(n / 10)) + ['0' + (n % 10) as char]
  }

  /** The decimal text of an integer, with a leading minus sign when negative. */
  function IntText(n: int): string {
    if n < 0 then "-" + Digits(-n) else Digits(n)
  }

  lemma {:induction false} DigitsValueOfDigits(n: nat)
    ensures DigitsValue(Digits(n)) == n
    decreases n
  {
    var d := Digits(n);
    assert d[..|d| - 1] == if n < 10 then [] else Digits(n / 10);
    if n >= 10 {
      DigitsValueOfDigits(n / 10);
    }
  }

  /** `DigitRun` reads a whole digit string and nothing of a non-digit tail. */
  lemma {:induction false} DigitRunOver(d: string, rest: string)
    requires AllDigits(d)
    requires rest == [] || !IsDigit(rest[0])
    ensures DigitRun(d + rest) == |d|
  {
    if d != [] {
      assert (d + rest)[1..] == d[1..] + rest;
      DigitRunOver(d[1..], rest);
    }
  }

  /** Unsigned digit text followed by a tail that cannot extend it has its digits' value. */
  lemma MagnitudeOfDigits(d: string, rest: string)
    requires AllDigits(d)
    requires rest == [] || (!IsDigit(rest[0]) && rest[0] != '.')
    ensures Magnitude(d + rest) == DigitsValue(d) as real
  {
    DigitRunOver(d, rest);
    assert (d + rest)[..|d|] == d;
    assert (d + rest)[|d|..] == rest;
  }

  /** Text that starts with a digit converts as unsigned text. */
  lemma ParseUnsigned(t: string)
    requires t != [] && IsDigit(t[0])
    ensures ParseNumber(t) == Magnitude(t)
  {
    assert SkipSpace(t) == t;
  }

  /** A minus sign followed by `u` converts to the negated magnitude of `u`. */
  lemma ParseNegative(u: string)
    ensures ParseNumber(['-'] + u) == -Magnitude(u)
  {
    var t := ['-'] + u;
    assert t[1..] == u;
    assert SkipSpace(t) == t;
  }

  /** Non-negative case of `ParseIntText`. */
  lemma ParseDigitsText(m: nat, rest: string)
    requires rest == [] || (!IsDigit(rest[0]) && rest[0] != '.')
    ensures ParseNumber(Digits(m) + rest) == m as real
  {
    var d := Digits(m);
    MagnitudeOfDigitsText(m, rest);
    assert (d + rest)[0] == d[0];
    ParseUnsigned(d + rest);
  }

  /** The magnitude of the decimal text of `m`, followed by a tail that cannot extend it, is `m`. */
  lemma MagnitudeOfDigitsText(m: nat, rest: string)
    requires rest == [] || (!IsDigit(rest[0]) && rest[0] != '.')
    ensures Magnitude(Digits(m) + rest) == m as real
  {
    DigitsValueOfDigits(m);
    MagnitudeOfDigits(Digits(m), rest);
  }

  /**
    Converting the decimal text of an integer gives the integer back, whatever
    follows the number as long as it cannot extend it.
  */
  lemma ParseIntText(n: int, rest: string)
    requires rest == [] || (!IsDigit(rest[0]) && rest[0] != '.')
    ensures ParseNumber(IntText(n) + rest) == n as real
  {
    if n < 0 {
      var m: nat := -n;
      assert IntText(n) + rest == "-" + Digits(m) + rest;
      ParseNegativeText(m, rest);
      assert -(m as real) == n as real;
    } else {
      assert IntText(n) == Digits(n);
      ParseDigitsText(n, rest);
    }
  }

  /** Negative case of `ParseIntText`: a minus sign, then the digits of `m`. */
  lemma ParseNegativeText(m: nat, rest: string)
    requires rest == [] || (!IsDigit(rest[0]) && rest[0] != '.')
    ensures ParseNumber("-" + Digits(m) + rest) == -(m as real)
  {
    var u := Digits(m) + rest;
    MagnitudeOfDigitsText(m, rest);
    MinusInFront(Digits(m), rest);
    ParseNegative(u);
  }

  /** The sign in front of number text, regrouped. */
  lemma MinusInFront(d: string, rest: string)
    ensures "-" + d + rest == ['-'] + (d + rest)
  {
  }

  /** The texts of small whole numbers convert to their values. */
  lemma SmallNumbers()
    ensures ParseNumber("0") == 0.0 && ParseNumber("1") == 1.0 && ParseNumber("5") == 5.0
    ensures ParseNumber("10") == 10.0 && ParseNumber("20") == 20.0
  {
    assert IntText(0) == "0" && IntText(1) == "1" && IntText(5) == "5";
    assert IntText(10) == "10" && IntText(20) == "20";
    ParseIntText(0, []);
    ParseIntText(1, []);
    ParseIntText(5, []);
    ParseIntText(10, []);
    ParseIntText(20, []);
    assert "0" + [] == "0" && "1" + [] == "1" && "5" + [] == "5" && "10" + [] == "10" && "20" + [] == "20";
  }
}
