/**
 * Java's numeric conversions as the badge maker uses them: the narrowing `(int)` cast of a
 * float, truncating `int` division, `Integer.parseInt`/`Long.parseLong` with a radix,
 * `String.valueOf(int)`, `String.format("%06x")` and `Float.parseFloat` (decimal notation).
 */
module Numbers {
  import opened Wrappers
  import opened Strings

  const INT_MIN: int := -0x8000_0000
  const INT_MAX: int := 0x7fff_ffff
  const LONG_MIN: int := -0x8000_0000_0000_0000
  const LONG_MAX: int := 0x7fff_ffff_ffff_ffff

  /** Values of Java's 32-bit `int`. */
  type Int32 = x: int | -0x8000_0000 <= x <= 0x7fff_ffff

  /**
   * Java's `(int)` cast of a float or double: rounds toward zero and saturates at the
   * ends of the `int` range. (NaN, which Java casts to 0, is not a real number.)
   */
  function IntCast(x: real): (r: Int32)
    ensures 0.0 <= x ==> 0 <= r && r as real <= x
    ensures 0.0 <= x < 2147483648.0 ==> x < r as real + 1.0
    ensures x <= 0.0 ==> r <= 0 && x <= r as real
    ensures -2147483649.0 < x <= 0.0 ==> r as real - 1.0 < x
    ensures x >= 2147483648.0 ==> r == INT_MAX
  {
    if x >= 0.0 then (if x >= INT_MAX as real then INT_MAX else x.Floor)
    else (if x <= INT_MIN as real then INT_MIN else -((-x).Floor))
  }

  /**
   * Java's `(int)(fraction * n)`: a fraction of a pixel count, truncated. The product is
   * spelled out as repeated addition (`Times`), so that the solver meets it as a term rather
   * than as a product of two unknowns; `TimesIsProduct` ties the two together.
   */
  function Portion(fraction: real, n: int): Int32 {
    IntCast(Times(fraction, n))
  }

  /** `fraction * n`, accumulated one unit of `n` at a time. */
  function Times(fraction: real, n: int): real
    decreases if n < 0 then -n else n
  {
    if n == 0 then 0.0
    else if n > 0 then Times(fraction, n - 1) + fraction
    else Times(fraction, n + 1) - fraction
  }

  lemma {:induction false} TimesIsProduct(fraction: real, n: int)
    ensures Times(fraction, n) == fraction * n as real
    decreases if n < 0 then -n else n
  {
    if n > 0 {
      TimesIsProduct(fraction, n - 1);
    } else if n < 0 {
      TimesIsProduct(fraction, n + 1);
    }
  }

  /** A fraction between 0 and 1 of a non-negative pixel count, truncated, stays between 0 and that count. */
  lemma PortionWithin(f: real, n: int)
    requires 0.0 <= f <= 1.0 && n >= 0
    ensures 0 <= Portion(f, n) <= n
  {
    TimesIsProduct(f, n);
    Fraction(f, n);
    CastBelowReal(Times(f, n), n);
  }

  /** Truncating a real between 0 and a whole number `n` gives a whole number between 0 and `n`. */
  lemma CastBelowReal(x: real, n: int)
    requires 0.0 <= x <= n as real
    ensures 0 <= IntCast(x) <= n
  {
  }

  /** A fraction between 0 and 1 of a non-negative whole number, truncated, lies between 0 and that number. */
  lemma FractionCast(f: real, n: int)
    requires 0.0 <= f <= 1.0 && 0 <= n
    ensures 0 <= IntCast(f * n as real) <= n
  {
    Fraction(f, n);
    CastBelowReal(f * n as real, n);
  }

  lemma MulMonotone(a: real, b: real, k: real)
    requires a <= b && k >= 0.0
    ensures a * k <= b * k
  {
  }

  lemma MulStrict(a: real, b: real, k: real)
    requires a < b && k > 0.0
    ensures a * k < b * k
  {
  }

  /** A fraction between 0 and 1 of a non-negative whole number lies between 0 and that number. */
  lemma Fraction(f: real, n: int)
    requires 0.0 <= f <= 1.0 && 0 <= n
    ensures 0.0 <= f * (n as real) <= n as real
  {
    var a := n as real;
    MulMonotone(0.0, f, a);
    assert a - f * a == (1.0 - f) * a;
    MulMonotone(0.0, 1.0 - f, a);
  }

  /** Java's `a / 2` on `int`: the quotient rounds toward zero. */
  function Half(a: int): (q: int)
    ensures 0 <= a ==> 0 <= q && 2 * q <= a <= 2 * q + 1
    ensures a < 0 ==> q <= 0 && 2 * q - 1 <= a <= 2 * q
  {
    if a >= 0 then a / 2 else -((-a) / 2)
  }

  /** `(int)(len/2.0 - size/2.0)`: the offset that centres `size` in `len`; the two gaps differ by at most one. */
  function Centered(len: int, size: int): (r: Int32)
    ensures 0 <= len - size < 0x1_0000_0000 ==> 0 <= len - size - 2 * r <= 1
    ensures -0x1_0000_0000 < len - size < 0 ==> -1 <= len - size - 2 * r <= 0
  {
    var x := len as real / 2.0 - size as real / 2.0;
    assert x == (len - size) as real / 2.0;
    IntCast(x)
  }

  /** A whole number at most `x` is at most the truncation of `x`. */
  lemma WholeBelowCast(k: int, x: real)
    requires k as real <= x < 2147483648.0
    ensures k <= IntCast(x)
  {
    if x < 0.0 {
      assert IntCast(x) as real >= x;
      assert x > -2147483649.0 ==> IntCast(x) as real - 1.0 < x;
    }
  }

  // ---------------------------------------------------------------------------
  // Digits

  /** `Character.digit(c, 36)` for ASCII: the digit value of `c`, if it is one. */
  function DigitValue(c: char): (r: Option<nat>)
    ensures r.Some? ==> r.value < 36
  {
    if '0' <= c <= '9' then Some(c as int - '0' as int)
    else if 'a' <= c <= 'z' then Some(c as int - 'a' as int + 10)
    else if 'A' <= c <= 'Z' then Some(c as int - 'A' as int + 10)
    else None
  }

  predicate IsDigit(c: char, radix: nat) {
    DigitValue(c).Some? && DigitValue(c).value < radix
  }

  predicate AllDigits(s: string, radix: nat) {
    forall k :: 0 <= k < |s| ==> IsDigit(s[k], radix)
  }

  /** The value of a digit string, most significant digit first. */
  function ValueOf(s: string, radix: nat): nat
    requires AllDigits(s, radix)
  {
    if s == [] then 0
    else ValueOf(s[..|s| - 1], radix) * radix + DigitValue(s[|s| - 1]).value
  }

  /** The lower-case character for digit `d`, as `Integer.toString` and `%x` print it. */
  function DigitChar(d: nat): (c: char)
    requires d < 16
    ensures IsDigit(c, 16) && DigitValue(c) == Some(d)
    ensures d < 10 ==> IsDigit(c, 10)
  {
    "0123456789abcdef"[d]
  }

  lemma ValueOfSnoc(s: string, c: char, radix: nat)
    requires AllDigits(s, radix) && IsDigit(c, radix)
    ensures AllDigits(s + [c], radix)
    ensures ValueOf(s + [c], radix) == ValueOf(s, radix) * radix + DigitValue(c).value
  {
    assert (s + [c])[..|s|] == s;
  }

  // ---------------------------------------------------------------------------
  // Integer.parseInt / Long.parseLong

  /**
   * `Integer.parseInt(s, radix)` (with `lo`, `hi` the `int` range) or `Long.parseLong(s, radix)`
   * (the `long` range): an optional `+` or `-`, then at least one digit; a value outside
   * `lo..hi` is an error. `None` stands for the NumberFormatException.
   */
  function ParseInteger(s: string, radix: nat, lo: int, hi: int): (r: Option<int>)
    ensures r.Some? ==> lo <= r.value <= hi
    ensures r.Some? ==> |s| > 0 && (AllDigits(s, radix) || s[0] == '-' || s[0] == '+')
  {
    if |s| == 0 then None
    else
      var body := if s[0] == '-' || s[0] == '+' then s[1..] else s;
      if |body| == 0 || !AllDigits(body, radix) then None
      else
        var v: int := if s[0] == '-' then -(ValueOf(body, radix) as int) else ValueOf(body, radix);
        if lo <= v <= hi then Some(v) else None
  }

  /** `Integer.parseInt(s)`. */
  function ParseInt(s: string): (r: Option<Int32>)
    ensures r.Some? ==> ParseInteger(s, 10, INT_MIN, INT_MAX) == Some(r.value as int)
    ensures r.None? ==> ParseInteger(s, 10, INT_MIN, INT_MAX).None?
  {
    match ParseInteger(s, 10, INT_MIN, INT_MAX)
    case Some(v) => Some(v)
    case None => None
  }

  // ---------------------------------------------------------------------------
  // String.valueOf(int) and String.format("%02d")

  /** The decimal digits of `n` without leading zeros. */
  function DecimalDigits(n: nat): (s: string)
    ensures |s| > 0 && AllDigits(s, 10)
    ensures n < 10 <==> |s| == 1
  {
    if n < 10 then [DigitChar(n)] else DecimalDigits(n / 10) + [DigitChar(n % 10)]
  }

  lemma {:induction false} DecimalDigitsValue(n: nat)
    ensures ValueOf(DecimalDigits(n), 10) == n
  {
    if n >= 10 {
      DecimalDigitsValue(n / 10);
      ValueOfSnoc(DecimalDigits(n / 10), DigitChar(n % 10), 10);
    }
  }

  /** `String.valueOf(n)` for an `int`. */
  function FormatInt(n: int): (s: string)
    ensures |s| > 0
    ensures n < 0 <==> s[0] == '-'
  {
    if n < 0 then "-" + DecimalDigits(-n) else DecimalDigits(n)
  }

  /** `Integer.parseInt` reads back what `String.valueOf` printed. */
  lemma {:induction false} ParseFormatInt(n: Int32)
    ensures ParseInt(FormatInt(n)) == Some(n)
  {
    if n < 0 {
      ParseFormatNegative(n);
    } else {
      ParseFormatNonNegative(n);
    }
  }

  lemma {:induction false} ParseFormatNegative(n: int)
    requires INT_MIN <= n < 0
    ensures ParseInteger(FormatInt(n), 10, INT_MIN, INT_MAX) == Some(n)
  {
    var d := DecimalDigits(-n);
    DecimalDigitsValue(-n);
    assert -(ValueOf(d, 10) as int) == n;
    ParseNegative(d, 10, INT_MIN, INT_MAX);
    assert FormatInt(n) == "-" + d;
  }

  /** A `-` followed by digits parses as the negated value, when that is in range. */
  lemma ParseNegative(d: string, radix: nat, lo: int, hi: int)
    requires |d| > 0 && AllDigits(d, radix) && lo <= -(ValueOf(d, radix) as int) <= hi
    ensures ParseInteger("-" + d, radix, lo, hi) == Some(-(ValueOf(d, radix) as int))
  {
    var s := "-" + d;
    assert s[0] == '-' && s[1..] == d;
  }

  lemma {:induction false} ParseFormatNonNegative(n: int)
    requires 0 <= n <= INT_MAX
    ensures ParseInteger(FormatInt(n), 10, INT_MIN, INT_MAX) == Some(n)
  {
    var d := DecimalDigits(n);
    DecimalDigitsValue(n);
    assert FormatInt(n) == d;
    assert IsDigit(d[0], 10);
    assert d[0] != '-' && d[0] != '+';
  }

  /** `String.format("%02d", n)`: at least two characters, zero-padded after the sign. */
  function FormatTwoDigits(n: int): (s: string)
    ensures |s| >= 2
    ensures 0 <= n < 10 ==> s == ['0', DigitChar(n)]
    ensures n >= 10 || n < 0 ==> s == FormatInt(n)
  {
    if 0 <= n < 10 then "0" + FormatInt(n) else FormatInt(n)
  }

  // ---------------------------------------------------------------------------
  // String.format("%06x")

  function Pow(b: nat, e: nat): (r: nat)
    ensures b > 0 ==> r > 0
  {
    if e == 0 then 1 else b * Pow(b, e - 1)
  }

  /** The `width` least significant hexadecimal digits of `v`, lower case, most significant first. */
  function HexDigits(v: nat, width: nat): (s: string)
    ensures |s| == width && AllDigits(s, 16)
  {
    if width == 0 then [] else HexDigits(v / 16, width - 1) + [DigitChar(v % 16)]
  }

  lemma {:induction false} HexDigitsValue(v: nat, width: nat)
    requires v < Pow(16, width)
    ensures ValueOf(HexDigits(v, width), 16) == v
  {
    if width > 0 {
      HexDigitsValue(v / 16, width - 1);
      ValueOfSnoc(HexDigits(v / 16, width - 1), DigitChar(v % 16), 16);
    }
  }

  /** `String.format("%06x", v)` for `0 <= v < 0x1000000`: exactly six lower-case digits. */
  function Hex6(v: nat): (s: string)
    requires v < 0x100_0000
    ensures |s| == 6 && AllDigits(s, 16)
  {
    HexDigits(v, 6)
  }

  // ---------------------------------------------------------------------------
  // Float.parseFloat

  predicate IsDecimal(c: char) {
    '0' <= c <= '9'
  }

  /** Where the scanner of `Float.parseFloat` stands within the number's text. */
  datatype Phase =
    | Whole      // digits before any `.`
    | Fractional // digits after the `.`
    | ExpStart   // just after `e`/`E`
    | ExpSigned  // just after the exponent's sign
    | ExpDigits  // within the exponent's digits
    | Suffixed   // after the type suffix `f`, `F`, `d` or `D`

  /** What has been read so far: the digits as one integer, how many there are and how many follow the point, and the exponent. */
  datatype Digits = Digits(mantissa: nat, count: nat, fractional: nat, negativeExp: bool, exp: nat)

  function DigitOf(c: char): nat
    requires IsDecimal(c)
  {
    c as int - '0' as int
  }

  predicate IsSuffix(c: char) {
    c == 'f' || c == 'F' || c == 'd' || c == 'D'
  }

  /** `v * 10^k`, one decimal shift at a time. */
  function TimesPow10(v: nat, k: nat): nat {
    if k == 0 then v else 10 * TimesPow10(v, k - 1)
  }

  /** `x / 10^k`, one decimal shift at a time. */
  function DivPow10(x: real, k: nat): (r: real)
    ensures x >= 0.0 ==> r >= 0.0
  {
    if k == 0 then x else DivPow10(x, k - 1) / 10.0
  }

  /** `m * 10^e` as a real number. */
  function Scaled(m: nat, e: int): (r: real)
    ensures r >= 0.0
  {
    if e >= 0 then TimesPow10(m, e) as real else DivPow10(m as real, -e)
  }

  /** The value of what was read: the mantissa shifted by the exponent less the fractional digits. */
  function ValueRead(d: Digits): (r: real)
    ensures r >= 0.0
  {
    Scaled(d.mantissa, (if d.negativeExp then -(d.exp as int) else d.exp as int) - d.fractional)
  }

  /**
   * One character of the unsigned number read in `phase` with `d` read so far: the phase and
   * digits after it, or `None` when the character cannot stand there. Digits with an optional
   * `.`, then (only once a digit was read) an exponent (`e`/`E`, an optional sign, at least one
   * digit) and a type suffix.
   */
  function Step(c: char, phase: Phase, d: Digits): (r: Option<(Phase, Digits)>)
    ensures r.Some? ==> r.value.0 != Whole || phase == Whole
    ensures IsDecimal(c) && (phase == Whole || phase == Fractional) ==> r.Some? && r.value.0 == phase
  {
    match phase
    case Whole =>
      if IsDecimal(c) then Some((Whole, d.(mantissa := 10 * d.mantissa + DigitOf(c), count := d.count + 1)))
      else if c == '.' then Some((Fractional, d))
      else AfterDigits(c, d)
    case Fractional =>
      if IsDecimal(c) then
        Some((Fractional, d.(mantissa := 10 * d.mantissa + DigitOf(c), count := d.count + 1, fractional := d.fractional + 1)))
      else AfterDigits(c, d)
    case ExpStart =>
      if c == '-' || c == '+' then Some((ExpSigned, d.(negativeExp := c == '-')))
      else if IsDecimal(c) then Some((ExpDigits, d.(exp := DigitOf(c))))
      else None
    case ExpSigned =>
      if IsDecimal(c) then Some((ExpDigits, d.(exp := DigitOf(c)))) else None
    case ExpDigits =>
      if IsDecimal(c) then Some((ExpDigits, d.(exp := 10 * d.exp + DigitOf(c))))
      else if IsSuffix(c) then Some((Suffixed, d))
      else None
    case Suffixed => None
  }

  /** After the mantissa's digits only an exponent or a suffix may follow, and only when there was a digit. */
  function AfterDigits(c: char, d: Digits): (r: Option<(Phase, Digits)>)
    ensures r.Some? ==> d.count > 0 && r.value == (if IsSuffix(c) then Suffixed else ExpStart, d)
  {
    if d.count == 0 then None
    else if c == 'e' || c == 'E' then Some((ExpStart, d))
    else if IsSuffix(c) then Some((Suffixed, d))
    else None
  }

  /**
   * The unsigned decimal number that `t[i..]` spells out entirely, read one character at a time
   * from `phase` with `d` read so far. At the end there must have been a digit and no exponent
   * may be left without its digits.
   */
  function ScanUnsigned(t: string, i: nat, phase: Phase, d: Digits): (r: Option<real>)
    requires i <= |t|
    ensures r.Some? ==> r.value >= 0.0
    decreases |t| - i
  {
    if i == |t| then
      if phase == ExpStart || phase == ExpSigned || d.count == 0 then None else Some(ValueRead(d))
    else
      match Step(t[i], phase, d)
      case None => None
      case Some((next, read)) => ScanUnsigned(t, i + 1, next, read)
  }

  /**
   * `Float.parseFloat` on decimal notation: surrounding characters up to U+0020 are ignored,
   * then an optional sign, digits with an optional `.` (at least one digit in all), an optional
   * exponent and an optional type suffix. `None` is the NumberFormatException. The value is
   * exact (no rounding to float).
   */
  function ParseFloat(s: string): (r: Option<real>)
    ensures r.Some? ==> |Trim(s)| > 0
  {
    var t := Trim(s);
    var signed := |t| > 0 && (t[0] == '-' || t[0] == '+');
    match ScanUnsigned(t, if signed then 1 else 0, Whole, Digits(0, 0, 0, false, 0))
    case None => None
    case Some(m) => Some(if signed && t[0] == '-' then -m else m)
  }

  lemma {:induction false} TimesPow10Zero(k: nat)
    ensures TimesPow10(0, k) == 0
  {
    if k > 0 {
      TimesPow10Zero(k - 1);
    }
  }

  /** A radix-10 digit is exactly a decimal character. */
  lemma DecimalIsDigit(c: char)
    ensures IsDigit(c, 10) <==> IsDecimal(c)
    ensures IsDecimal(c) ==> DigitValue(c) == Some(DigitOf(c))
  {
  }

  /** Appending digits shifts the value of the first part left by their count. */
  lemma {:induction false} ValueOfAppend(a: string, b: string)
    requires AllDigits(a, 10) && AllDigits(b, 10)
    ensures AllDigits(a + b, 10)
    ensures ValueOf(a + b, 10) == TimesPow10(ValueOf(a, 10), |b|) + ValueOf(b, 10)
  {
    if b != [] {
      var b' := b[..|b| - 1];
      ValueOfAppend(a, b');
      assert (a + b)[..|a + b| - 1] == a + b';
      assert (a + b)[|a + b| - 1] == b[|b| - 1];
      var x := TimesPow10(ValueOf(a, 10), |b'|);
      assert TimesPow10(ValueOf(a, 10), |b|) == 10 * x;
      assert ValueOf(a + b, 10) == (x + ValueOf(b', 10)) * 10 + DigitValue(b[|b| - 1]).value;
    } else {
      assert a + b == a;
    }
  }

  /** What has been read after `n` more decimals of value `v` in `phase`. */
  function AfterRun(d: Digits, phase: Phase, n: nat, v: nat): Digits {
    d.(mantissa := TimesPow10(d.mantissa, n) + v,
       count := d.count + n,
       fractional := if phase == Fractional then d.fractional + n else d.fractional)
  }

  /** One decimal before or after the point is one step of a run. */
  lemma ScanDigit(t: string, i: nat, next: nat, phase: Phase, d: Digits, e: Digits)
    requires i < |t| && next == i + 1 && IsDecimal(t[i]) && (phase == Whole || phase == Fractional)
    requires e == AfterRun(d, phase, 1, DigitOf(t[i]))
    ensures ScanUnsigned(t, i, phase, d) == ScanUnsigned(t, next, phase, e)
  {
    assert TimesPow10(d.mantissa, 1) == 10 * d.mantissa;
    assert Step(t[i], phase, d) == Some((phase, e));
  }

  /** A run of decimals is a digit string whose value grows by its last digit. */
  lemma DecimalRun(t: string, i: nat, j: nat)
    requires i < j <= |t|
    requires forall k :: i <= k < j ==> IsDecimal(t[k])
    ensures AllDigits(t[i..j], 10) && AllDigits(t[i..j - 1], 10)
    ensures ValueOf(t[i..j], 10) == ValueOf(t[i..j - 1], 10) * 10 + DigitOf(t[j - 1])
  {
    forall k | 0 <= k < j - i {
      DecimalIsDigit(t[i..j][k]);
    }
    DecimalIsDigit(t[j - 1]);
    assert t[i..j][..j - i - 1] == t[i..j - 1];
  }

  /** A run of `n + 1` decimals of value `w` is a run of `n` decimals of value `v` followed by the digit `c`. */
  lemma AfterRunStep(d: Digits, phase: Phase, n: nat, v: nat, c: nat, n': nat, w: nat)
    requires n' == n + 1 && w == v * 10 + c
    ensures AfterRun(d, phase, n', w) == AfterRun(AfterRun(d, phase, n, v), phase, 1, c)
  {
    var m := TimesPow10(d.mantissa, n) + v;
    assert TimesPow10(m, 1) == 10 * m;
  }

  /** An empty run reads nothing. */
  lemma EmptyRun(t: string, i: nat, j: nat, phase: Phase, d: Digits)
    requires i == j <= |t|
    ensures AllDigits(t[i..j], 10)
    ensures AfterRun(d, phase, j - i, ValueOf(t[i..j], 10)) == d
  {
    assert t[i..j] == [];
  }

  /** A run of decimals one longer than a run already read adds its last digit. */
  lemma ScanDecimalsStep(t: string, i: nat, j: nat, phase: Phase, d: Digits)
    requires i < j <= |t| && (phase == Whole || phase == Fractional)
    requires forall k :: i <= k < j ==> IsDecimal(t[k])
    requires AllDigits(t[i..j - 1], 10)
    requires ScanUnsigned(t, i, phase, d) == ScanUnsigned(t, j - 1, phase, AfterRun(d, phase, j - 1 - i, ValueOf(t[i..j - 1], 10)))
    ensures AllDigits(t[i..j], 10)
    ensures ScanUnsigned(t, i, phase, d) == ScanUnsigned(t, j, phase, AfterRun(d, phase, j - i, ValueOf(t[i..j], 10)))
  {
    DecimalRun(t, i, j);
    var v := ValueOf(t[i..j - 1], 10);
    var w := ValueOf(t[i..j], 10);
    AfterRunStep(d, phase, j - 1 - i, v, DigitOf(t[j - 1]), j - i, w);
    ScanDigit(t, j - 1, j, phase, AfterRun(d, phase, j - 1 - i, v), AfterRun(d, phase, j - i, w));
  }

  /**
   * Reading a run of decimals `t[i..j]` before or after the point adds them to the mantissa,
   * the digit count and (after the point) the fractional count, and leaves the phase as it was.
   */
  lemma {:induction false} ScanDecimals(t: string, i: nat, j: nat, phase: Phase, d: Digits)
    requires i <= j <= |t| && (phase == Whole || phase == Fractional)
    requires forall k :: i <= k < j ==> IsDecimal(t[k])
    ensures AllDigits(t[i..j], 10)
    ensures ScanUnsigned(t, i, phase, d) == ScanUnsigned(t, j, phase, AfterRun(d, phase, j - i, ValueOf(t[i..j], 10)))
    decreases j - i
  {
    if j == i {
      EmptyRun(t, i, j, phase, d);
    } else {
      ScanDecimals(t, i, j - 1, phase, d);
      ScanDecimalsStep(t, i, j, phase, d);
    }
  }

  /** A string that neither starts nor ends with a trimmable character is left as it is by `String.trim`. */
  lemma Untrimmed(s: string)
    requires |s| > 0 && !IsTrimmed(s[0]) && !IsTrimmed(s[|s| - 1])
    ensures Trim(s) == s
  {
    assert Leading(s) == 0;
    assert Trailing(s) == 0;
  }

  /** The point between the whole and the fractional digits switches the phase and reads nothing. */
  lemma ScanPoint(t: string, i: nat, next: nat, d: Digits)
    requires i < |t| && t[i] == '.' && next == i + 1
    ensures ScanUnsigned(t, i, Whole, d) == ScanUnsigned(t, next, Fractional, d)
  {
  }

  /** At the end of the text, a number with at least one digit and no pending exponent is what was read. */
  lemma ScanEnd(t: string, phase: Phase, d: Digits)
    requires (phase == Whole || phase == Fractional) && d.count > 0
    ensures ScanUnsigned(t, |t|, phase, d) == Some(ValueRead(d))
  {
  }

  /** Without an exponent, the value read is the mantissa less its fractional digits. */
  lemma ValueReadPlain(d: Digits)
    requires !d.negativeExp && d.exp == 0
    ensures ValueRead(d) == DivPow10(d.mantissa as real, d.fractional)
  {
    if d.fractional == 0 {
      assert Scaled(d.mantissa, 0) == d.mantissa as real;
    }
  }

  /** Scanning the leading decimals `t[..n]` reads them as the whole part so far. */
  lemma ScanLeadingDigits(t: string, n: nat)
    requires n <= |t|
    requires forall k :: 0 <= k < n ==> IsDecimal(t[k])
    ensures AllDigits(t[0..n], 10)
    ensures ScanUnsigned(t, 0, Whole, Digits(0, 0, 0, false, 0)) ==
      ScanUnsigned(t, n, Whole, Digits(ValueOf(t[0..n], 10), n, 0, false, 0))
  {
    var d0 := Digits(0, 0, 0, false, 0);
    ScanDecimals(t, 0, n, Whole, d0);
    TimesPow10Zero(n - 0);
    assert AfterRun(d0, Whole, n - 0, ValueOf(t[0..n], 10)) == Digits(ValueOf(t[0..n], 10), n, 0, false, 0);
  }

  /** Scanning a plain digit string reads the integer it spells. */
  lemma ScanDigitString(s: string)
    requires |s| > 0 && forall k :: 0 <= k < |s| ==> IsDecimal(s[k])
    ensures AllDigits(s, 10)
    ensures ScanUnsigned(s, 0, Whole, Digits(0, 0, 0, false, 0)) == Some(ValueOf(s, 10) as real)
  {
    ScanLeadingDigits(s, |s|);
    var d := Digits(ValueOf(s[0..|s|], 10), |s|, 0, false, 0);
    ScanEnd(s, Whole, d);
    ValueReadPlain(d);
    assert s[0..|s|] == s;
  }

  /** Text with nothing to trim and no sign is parsed by scanning it from its first character. */
  lemma ParseUnsigned(t: string)
    requires |t| > 0 && !IsTrimmed(t[0]) && !IsTrimmed(t[|t| - 1]) && t[0] != '-' && t[0] != '+'
    ensures ParseFloat(t) == ScanUnsigned(t, 0, Whole, Digits(0, 0, 0, false, 0))
  {
    Untrimmed(t);
  }

  /** `Float.parseFloat` of a plain digit string is the integer those digits spell. */
  lemma ParseFloatDigits(s: string)
    requires |s| > 0 && forall k :: 0 <= k < |s| ==> IsDecimal(s[k])
    ensures AllDigits(s, 10)
    ensures ParseFloat(s) == Some(ValueOf(s, 10) as real)
  {
    ParseUnsigned(s);
    ScanDigitString(s);
  }

  /** Scanning the digits before a `.` at `p` and the point itself reads those digits as the whole part. */
  lemma ScanWholePart(t: string, p: nat)
    requires p < |t| && t[p] == '.'
    requires forall k :: 0 <= k < p ==> IsDecimal(t[k])
    ensures AllDigits(t[0..p], 10)
    ensures ScanUnsigned(t, 0, Whole, Digits(0, 0, 0, false, 0)) ==
      ScanUnsigned(t, p + 1, Fractional, Digits(ValueOf(t[0..p], 10), p, 0, false, 0))
  {
    ScanLeadingDigits(t, p);
    ScanPoint(t, p, p + 1, Digits(ValueOf(t[0..p], 10), p, 0, false, 0));
  }

  /** Scanning the digits after the point to the end adds them to the mantissa as fractional digits. */
  lemma ScanFractionPart(t: string, i: nat, v: nat, count: nat)
    requires i <= |t| && count + (|t| - i) > 0
    requires forall k :: i <= k < |t| ==> IsDecimal(t[k])
    ensures AllDigits(t[i..|t|], 10)
    ensures ScanUnsigned(t, i, Fractional, Digits(v, count, 0, false, 0)) ==
      Some(DivPow10((TimesPow10(v, |t| - i) + ValueOf(t[i..|t|], 10)) as real, |t| - i))
  {
    var d1 := Digits(v, count, 0, false, 0);
    ScanDecimals(t, i, |t|, Fractional, d1);
    var d2 := AfterRun(d1, Fractional, |t| - i, ValueOf(t[i..|t|], 10));
    ScanEnd(t, Fractional, d2);
    ValueReadPlain(d2);
  }

  /** Scanning digits with one `.` at `p` reads them all as one mantissa, with those after the point fractional. */
  lemma ScanPointNumber(t: string, p: nat)
    requires p < |t| && t[p] == '.' && |t| > 1
    requires forall k :: 0 <= k < |t| && k != p ==> IsDecimal(t[k])
    ensures AllDigits(t[0..p], 10) && AllDigits(t[p + 1..|t|], 10)
    ensures ScanUnsigned(t, 0, Whole, Digits(0, 0, 0, false, 0)) ==
      Some(DivPow10((TimesPow10(ValueOf(t[0..p], 10), |t| - (p + 1)) + ValueOf(t[p + 1..|t|], 10)) as real, |t| - (p + 1)))
  {
    ScanWholePart(t, p);
    ScanFractionPart(t, p + 1, ValueOf(t[0..p], 10), p);
  }

  /** A type suffix right after the digits ends the number. */
  lemma ScanSuffix(t: string, i: nat, d: Digits)
    requires i + 1 == |t| && IsSuffix(t[i]) && d.count > 0
    ensures ScanUnsigned(t, i, Whole, d) == Some(ValueRead(d))
  {
    assert Step(t[i], Whole, d) == Some((Suffixed, d));
  }

  /** A one-digit exponent right after the digits ends the number and scales it. */
  lemma ScanExponentDigit(t: string, i: nat, d: Digits)
    requires i + 2 == |t| && (t[i] == 'e' || t[i] == 'E') && IsDecimal(t[i + 1]) && d.count > 0
    ensures ScanUnsigned(t, i, Whole, d) == Some(ValueRead(d.(exp := DigitOf(t[i + 1]))))
  {
    var e := d.(exp := DigitOf(t[i + 1]));
    assert ScanUnsigned(t, i + 2, ExpDigits, e) == Some(ValueRead(e));
    assert Step(t[i + 1], ExpStart, d) == Some((ExpDigits, e));
    assert ScanUnsigned(t, i + 1, ExpStart, d) == ScanUnsigned(t, i + 2, ExpDigits, e);
    assert Step(t[i], Whole, d) == Some((ExpStart, d));
  }

  /** Scanning digits `t[..n]` and a type suffix reads the integer the digits spell. */
  lemma ScanSuffixNumber(t: string, n: nat)
    requires 0 < n && n + 1 == |t| && IsSuffix(t[n])
    requires forall k :: 0 <= k < n ==> IsDecimal(t[k])
    ensures AllDigits(t[0..n], 10)
    ensures ScanUnsigned(t, 0, Whole, Digits(0, 0, 0, false, 0)) == Some(ValueOf(t[0..n], 10) as real)
  {
    ScanLeadingDigits(t, n);
    var d := Digits(ValueOf(t[0..n], 10), n, 0, false, 0);
    ScanSuffix(t, n, d);
    ValueReadPlain(d);
  }

  /** `Float.parseFloat` ignores a type suffix: digits followed by `f`, `F`, `d` or `D` are the integer the digits spell. */
  lemma ParseFloatSuffixed(s: string, c: char)
    requires |s| > 0 && forall k :: 0 <= k < |s| ==> IsDecimal(s[k])
    requires IsSuffix(c)
    ensures AllDigits(s, 10)
    ensures ParseFloat(s + [c]) == Some(ValueOf(s, 10) as real)
  {
    var t := s + [c];
    assert t[0] == s[0] && t[|t| - 1] == c && t[0..|s|] == s;
    ParseUnsigned(t);
    ScanSuffixNumber(t, |s|);
  }

  /** Scanning digits `t[..n]`, `e` and one exponent digit reads the integer the digits spell, scaled. */
  lemma ScanExponentNumber(t: string, n: nat)
    requires 0 < n && n + 2 == |t| && (t[n] == 'e' || t[n] == 'E') && IsDecimal(t[n + 1])
    requires forall k :: 0 <= k < n ==> IsDecimal(t[k])
    ensures AllDigits(t[0..n], 10)
    ensures ScanUnsigned(t, 0, Whole, Digits(0, 0, 0, false, 0)) == Some(TimesPow10(ValueOf(t[0..n], 10), DigitOf(t[n + 1])) as real)
  {
    ScanLeadingDigits(t, n);
    ScanExponentDigit(t, n, Digits(ValueOf(t[0..n], 10), n, 0, false, 0));
  }

  /** `Float.parseFloat` of digits, `e` and one exponent digit `x` is the integer the digits spell times 10^x. */
  lemma ParseFloatExponent(s: string, x: char)
    requires |s| > 0 && forall k :: 0 <= k < |s| ==> IsDecimal(s[k])
    requires IsDecimal(x)
    ensures AllDigits(s, 10)
    ensures ParseFloat(s + ['e', x]) == Some(TimesPow10(ValueOf(s, 10), DigitOf(x)) as real)
  {
    var t := s + ['e', x];
    assert t[0] == s[0] && t[|t| - 1] == x && t[|s|] == 'e' && t[0..|s|] == s;
    ParseUnsigned(t);
    ScanExponentNumber(t, |s|);
  }

  /** The shape of `a.b`: the digits of `a`, the point at `|a|`, then the digits of `b`. */
  lemma PointNumberShape(a: string, b: string)
    requires forall k :: 0 <= k < |a| ==> IsDecimal(a[k])
    requires forall k :: 0 <= k < |b| ==> IsDecimal(b[k])
    ensures var t := a + "." + b;
      t[0..|a|] == a && t[|a|] == '.' && t[|a| + 1..|t|] == b &&
      (forall k :: 0 <= k < |t| && k != |a| ==> IsDecimal(t[k])) &&
      !IsTrimmed(t[0]) && !IsTrimmed(t[|t| - 1]) && t[0] != '-' && t[0] != '+'
  {
    var t := a + "." + b;
    assert t[0..|a|] == a && t[|a| + 1..|t|] == b;
    forall k | 0 <= k < |t| && k != |a|
      ensures IsDecimal(t[k])
    {
      if k < |a| { assert t[k] == a[k]; } else { assert t[k] == b[k - |a| - 1]; }
    }
  }

  /** `Float.parseFloat` of `a.b` is the digits of `a` and `b` read as one integer, divided by ten per digit of `b`. */
  lemma ParseFloatDecimal(a: string, b: string)
    requires |a| + |b| > 0
    requires forall k :: 0 <= k < |a| ==> IsDecimal(a[k])
    requires forall k :: 0 <= k < |b| ==> IsDecimal(b[k])
    ensures AllDigits(a + b, 10)
    ensures ParseFloat(a + "." + b) == Some(DivPow10(ValueOf(a + b, 10) as real, |b|))
  {
    var t := a + "." + b;
    PointNumberShape(a, b);
    ParseUnsigned(t);
    ScanPointNumber(t, |a|);
    var n := |t| - (|a| + 1);
    assert n == |b|;
    ValueOfAppend(a, b);
    assert TimesPow10(ValueOf(t[0..|a|], 10), n) + ValueOf(t[|a| + 1..|t|], 10) == ValueOf(a + b, 10);
  }

  /** `Float.parseFloat("0.15")` is exactly 0.15 before rounding to float. */
  lemma ParseFloatExample(s: string)
    requires s == "0.15"
    ensures ParseFloat(s) == Some(0.15)
  {
    var a, b := s[..1], s[2..];
    assert s == a + "." + b;
    ParseFloatDecimal(a, b);
    assert ValueOf(a + b, 10) == 15 by {
      assert a == "0" && b == "15";
      assert "0" + "15" == "015";
      assert "015"[..2] == "01" && "01"[..1] == "0" && "0"[..0] == "";
    }
    assert |b| == 2;
    assert DivPow10(15.0, 2) == 0.15;
  }
}
