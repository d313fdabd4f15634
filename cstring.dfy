/**
 * C strings and the base-10 conversion of `strtol` (ISO C11, section 7.22.1.4),
 * as `memory.c` and `factorial.c` use it through its `end` pointer.
 *
 * A C string is a `string`; reading `*p` at or beyond its length yields the
 * terminating NUL. The conversion is on unbounded integers: the saturation to
 * LONG_MIN/LONG_MAX with ERANGE is not part of this model.
 */
module CString {

  /** The character `*(s + k)`: past the end of `s` it is the terminating NUL. */
  function At(s: string, k: nat): char
  {
    if k < |s| then s[k] else '\0'
  }

  /** `isspace` in the "C" locale. */
  predicate IsSpace(c: char)
  {
    c == ' ' || c == '\t' || c == '\n' || c == '\U{B}' || c == '\U{C}' || c == '\r'
  }

  predicate IsDigit(c: char)
  {
    '0' <= c <= '9'
  }

  predicate IsSign(c: char)
  {
    c == '+' || c == '-'
  }

  predicate AllDigits(s: string)
  {
    forall k :: 0 <= k < |s| ==> IsDigit(s[k])
  }

  predicate AllSpace(s: string)
  {
    forall k :: 0 <= k < |s| ==> IsSpace(s[k])
  }

  function DigitValue(c: char): (d: nat)
    requires IsDigit(c)
    ensures d < 10
  {
    c as int - '0' as int
  }

  function DigitChar(d: nat): (c: char)
    requires d < 10
    ensures IsDigit(c) && DigitValue(c) == d
  {
    ('0' as int + d) as char
  }

  /** The index of the first character at or after `k` that `isspace` rejects. */
  function SkipSpace(s: string, k: nat): (j: nat)
    requires k <= |s|
    ensures k <= j <= |s|
    ensures forall m :: k <= m < j ==> IsSpace(s[m])
    ensures j < |s| ==> !IsSpace(s[j])
    decreases |s| - k
  {
    if k < |s| && IsSpace(s[k]) then SkipSpace(s, k + 1) else k
  }

  /** The index just past the longest run of decimal digits starting at `k`. */
  function DigitsEnd(s: string, k: nat): (j: nat)
    requires k <= |s|
    ensures k <= j <= |s|
    ensures forall m :: k <= m < j ==> IsDigit(s[m])
    ensures j < |s| ==> !IsDigit(s[j])
    decreases |s| - k
  {
    if k < |s| && IsDigit(s[k]) then DigitsEnd(s, k + 1) else k
  }

  /** The number a run of decimal digits denotes, most significant digit first. */
  function DigitsValue(s: string): nat
    requires AllDigits(s)
  {
    if s == [] then 0 else DigitsValue(s[..|s| - 1]) * 10 + DigitValue(s[|s| - 1])
  }

  /** What `strtol(s, &end, 10)` returns, and where it leaves `end` (as an index into `s`). */
  datatype Conversion = Conversion(value: int, end: nat)

  /**
   * `strtol(s, &end, 10)`: skip white space, take an optional sign and the
   * longest run of digits after it. Without any digit there is no conversion:
   * the value is 0 and `end` is the start of `s`.
   */
  function Strtol(s: string): (c: Conversion)
    ensures c.end <= |s|
    ensures c.end == 0 ==> c.value == 0
    ensures c.end > 0 ==> IsDigit(s[c.end - 1]) && !IsDigit(At(s, c.end))
    ensures c.end == 0 <==> !IsDigit(At(s, SignEnd(s)))
    ensures c.end > 0 ==> SignEnd(s) < c.end && AllDigits(s[SignEnd(s)..c.end])
    ensures c.end > 0 ==>
      var a := SkipSpace(s, 0);
      (if SignEnd(s) > a && s[a] == '-' then -c.value else c.value) == DigitsValue(s[SignEnd(s)..c.end])
  {
    var a := SkipSpace(s, 0);
    var b := SignEnd(s);
    var e := DigitsEnd(s, b);
    if e == b then Conversion(0, 0)
    else
      var magnitude: int := DigitsValue(s[b..e]);
      Conversion(if b > a && s[a] == '-' then -magnitude else magnitude, e)
  }

  /** The index where the digits of a conversion may start: after the white space and the sign. */
  function SignEnd(s: string): (b: nat)
    ensures b <= |s|
  {
    var a := SkipSpace(s, 0);
    if a < |s| && IsSign(s[a]) then a + 1 else a
  }

  /** The decimal digits of `m`, without leading zeros: what `printf("%ld")` prints for it. */
  function Digits(m: nat): string
  {
    if m < 10 then [DigitChar(m)] else Digits(m / 10) + [DigitChar(m % 10)]
  }

  /** `printf("%ld", n)`: a minus sign for negative numbers, then the digits of the magnitude. */
  function Decimal(n: int): string
  {
    if n < 0 then "-" + Digits(-n) else Digits(n)
  }

  lemma {:induction false} DigitsDenote(m: nat)
    ensures |Digits(m)| >= 1 && AllDigits(Digits(m))
    ensures DigitsValue(Digits(m)) == m
  {
    if m >= 10 {
      DigitsDenote(m / 10);
      var d := Digits(m / 10);
      var s := d + [DigitChar(m % 10)];
      assert s[..|s| - 1] == d;
    }
  }

  /** The contract of `SkipSpace` determines its result. */
  lemma SkipSpaceIs(s: string, k: nat, j: nat)
    requires k <= j <= |s|
    requires forall m :: k <= m < j ==> IsSpace(s[m])
    requires j < |s| ==> !IsSpace(s[j])
    ensures SkipSpace(s, k) == j
  {
  }

  /** The contract of `DigitsEnd` determines its result. */
  lemma DigitsEndIs(s: string, k: nat, j: nat)
    requires k <= j <= |s|
    requires forall m :: k <= m < j ==> IsDigit(s[m])
    requires j < |s| ==> !IsDigit(s[j])
    ensures DigitsEnd(s, k) == j
  {
  }

  /** The first character of a printed number is a minus sign or a digit. */
  lemma DecimalStart(n: int)
    ensures |Decimal(n)| >= 1
    ensures if n < 0 then Decimal(n)[0] == '-' else IsDigit(Decimal(n)[0])
    ensures n < 0 ==> Decimal(n)[1..] == Digits(-n)
    ensures n >= 0 ==> Decimal(n) == Digits(n)
  {
    DigitsDenote(if n < 0 then -n else n);
  }

  /** White space before a printed number is what `strtol` skips. */
  lemma SkipLeadingSpace(w: string, n: int, t: string)
    requires AllSpace(w)
    ensures SkipSpace(w + Decimal(n) + t, 0) == |w|
  {
    DecimalStart(n);
    var s := w + Decimal(n) + t;
    assert forall k :: 0 <= k < |w| ==> s[k] == w[k];
    assert s[|w|] == Decimal(n)[0];
    SkipSpaceIs(s, 0, |w|);
  }

  /** The digits of a printed number are the run `strtol` takes. */
  lemma TakeDigits(s: string, b: nat, ds: string, t: string)
    requires b + |ds| <= |s| && s[b..b + |ds|] == ds && AllDigits(ds)
    requires s[b + |ds|..] == t && (t == [] || !IsDigit(t[0]))
    ensures DigitsEnd(s, b) == b + |ds|
  {
    var e := b + |ds|;
    assert forall k :: b <= k < e ==> s[k] == ds[k - b];
    assert e < |s| ==> s[e] == t[0];
    DigitsEndIs(s, b, e);
  }

  /**
   * Parsing what `printf("%ld")` printed gives the number back, whatever white
   * space precedes it and whatever non-digit follows it; `end` is left just past
   * the digits.
   */
  lemma StrtolDecimal(w: string, n: int, t: string)
    requires AllSpace(w)
    requires t == [] || !IsDigit(t[0])
    ensures Strtol(w + Decimal(n) + t) == Conversion(n, |w| + |Decimal(n)|)
  {
    var s := w + Decimal(n) + t;
    var m := if n < 0 then -n else n;
    var b := if n < 0 then |w| + 1 else |w|;
    var e := |w| + |Decimal(n)|;
    DecimalLayout(w, n, t);
    DigitsDenote(m);
    TakeDigits(s, b, Digits(m), t);
    StrtolIs(s, |w|, b, e);
  }

  /** Where the sign, the digits and the rest lie in a printed number surrounded by `w` and `t`. */
  lemma DecimalLayout(w: string, n: int, t: string)
    requires AllSpace(w)
    ensures var s := w + Decimal(n) + t;
      var b := if n < 0 then |w| + 1 else |w|;
      var e := |w| + |Decimal(n)|;
      && SkipSpace(s, 0) == |w|
      && SignEnd(s) == b
      && (n < 0 <==> b > |w| && s[|w|] == '-')
      && b <= e <= |s|
      && s[b..e] == Digits(if n < 0 then -n else n)
      && s[e..] == t
  {
    var m := if n < 0 then -n else n;
    DigitsDenote(m);
    DecimalStart(n);
    var d := Decimal(n);
    var s := w + d + t;
    var a := |w|;
    var b := if n < 0 then a + 1 else a;
    var e := a + |d|;
    SkipLeadingSpace(w, n, t);
    assert s[a] == d[0];
    assert s[b..e] == Digits(m) by {
      assert s[a..e] == d;
    }
    assert s[e..] == t;
  }

  /** Unfolds `Strtol` once the white space, the sign and the digits have been located. */
  lemma StrtolIs(s: string, a: nat, b: nat, e: nat)
    requires a == SkipSpace(s, 0) && b == SignEnd(s) && b < e <= |s| && e == DigitsEnd(s, b)
    ensures Strtol(s).end == e
    ensures Strtol(s).value == if b > a && s[a] == '-' then -(DigitsValue(s[b..e]) as int) else DigitsValue(s[b..e])
  {
  }
}
