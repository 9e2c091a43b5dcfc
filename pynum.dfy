/** Python's `int(text)` and `float(text)` on ASCII decimal numerals, and
    the decimal text an f-string gives for a non-negative integer. */
module PyNum {
  import opened Wrappers
  import opened PyStr

  predicate IsDigit(c: char)
  {
    '0' <= c <= '9'
  }

  predicate AllDigits(s: string)
  {
    forall i :: 0 <= i < |s| ==> IsDigit(s[i])
  }

  function DigitValue(c: char): nat
    requires IsDigit(c)
  {
    c as int - '0' as int
  }

  function DigitChar(d: nat): (c: char)
    requires d < 10
    ensures IsDigit(c) && DigitValue(c) == d
  {
    ('0' as int + d) as char
  }

  /** The value of a run of decimal digits, most significant first. */
  function DigitsValue(s: string): nat
    requires AllDigits(s)
    decreases |s|
  {
    if s == [] then 0 else DigitsValue(s[..|s| - 1]) * 10 + DigitValue(s[|s| - 1])
  }

  function Pow10(n: nat): (p: nat)
    ensures p >= 1
  {
    if n == 0 then 1 else 10 * Pow10(n - 1)
  }

  /** `f"{n}"` for a non-negative integer: its decimal digits, with no
      leading zero except for zero itself. */
  function NatToString(n: nat): (s: string)
    ensures |s| >= 1 && AllDigits(s)
    ensures s[0] == '0' ==> n == 0
    decreases n
  {
    if n < 10 then [DigitChar(n)] else NatToString(n / 10) + [DigitChar(n % 10)]
  }

  /** Reading back the digits of `f"{n}"` gives `n`. */
  lemma {:induction false} NatToStringValue(n: nat)
    ensures DigitsValue(NatToString(n)) == n
    decreases n
  {
    if n >= 10 {
      var s := NatToString(n);
      NatToStringValue(n / 10);
      assert s[..|s| - 1] == NatToString(n / 10);
    }
  }

  /** A leading `+` or `-` sign: whether it negates, and the rest. */
  function SignSplit(t: string): (bool, string)
  {
    if |t| > 0 && (t[0] == '+' || t[0] == '-') then (t[0] == '-', t[1..]) else (false, t)
  }

  /** Python's `int(text)`: surrounding whitespace is ignored, an optional
      sign, then one or more decimal digits; anything else raises
      ValueError. */
  function ParseInt(text: string): Result<int, PyError>
  {
    SignedInt(SignSplit(Strip(text)))
  }

  function SignedInt(signed: (bool, string)): Result<int, PyError>
  {
    var (negative, body) := signed;
    if |body| > 0 && AllDigits(body) then
      Ok(if negative then -(DigitsValue(body) as int) else DigitsValue(body) as int)
    else Err(ValueError)
  }

  /** The value of an unsigned decimal numeral: digits with at most one
      `.` and at least one digit in all. */
  function DecimalValue(body: string): Result<real, PyError>
  {
    PointedValue(Split(body, "."))
  }

  /** The value of the fields of a numeral cut at its points. */
  function PointedValue(parts: seq<string>): Result<real, PyError>
    requires |parts| >= 1
  {
    var fraction := if |parts| == 2 then parts[1] else "";
    if |parts| > 2 || !AllDigits(parts[0]) || !AllDigits(fraction) || |parts[0]| + |fraction| == 0 then
      Err(ValueError)
    else
      Ok(DigitsValue(parts[0]) as real + FractionValue(fraction))
  }

  /** The value of the digits after a decimal point. */
  function FractionValue(f: string): real
    requires AllDigits(f)
  {
    if f == [] then 0.0 else DigitsValue(f) as real / Pow10(|f|) as real
  }

  /** Python's `float(text)` on decimal numerals: surrounding whitespace is
      ignored, then an optional sign and an unsigned decimal numeral;
      anything else raises ValueError. */
  function ParseFloat(text: string): Result<real, PyError>
  {
    SignedFloat(SignSplit(Strip(text)))
  }

  function SignedFloat(signed: (bool, string)): Result<real, PyError>
  {
    var (negative, body) := signed;
    var magnitude :- DecimalValue(body);
    Ok(if negative then -magnitude else magnitude)
  }

  lemma NoDot(s: string)
    requires AllDigits(s)
    ensures !Contains(s, ".")
  {
    if Contains(s, ".") {
      ContainsNeedsChar(s, ".", 0);
    }
  }

  /** Text with no point whose first character is neither a digit nor a
      sign is not a numeral: `float()` raises ValueError. */
  lemma NotFloat(s: string)
    requires |s| > 0 && !IsDigit(s[0]) && s[0] != '+' && s[0] != '-' && Trimmed(s)
    requires forall i :: 0 <= i < |s| ==> s[i] != '.'
    ensures ParseFloat(s) == Err(ValueError)
  {
    StripTrimmed(s);
    CharFree(s, '.');
    assert [ '.' ] == ".";
    SplitSingle(s, ".");
  }

  /** Text that starts with a digit and has no whitespace at its ends is
      read by `int()`/`float()` as it stands: nothing stripped, no sign. */
  lemma PlainNumeral(s: string)
    requires |s| > 0 && IsDigit(s[0]) && !IsSpace(s[|s| - 1])
    ensures ParseFloat(s) == DecimalValue(s)
    ensures ParseInt(s) == if AllDigits(s) then Ok(DigitsValue(s) as int) else Err(ValueError)
  {
    PlainNumeralStrip(s);
    PlainNumeralSign(s);
  }

  lemma PlainNumeralStrip(s: string)
    requires |s| > 0 && IsDigit(s[0]) && !IsSpace(s[|s| - 1])
    ensures Strip(s) == s
  {
    StripTrimmed(s);
  }

  lemma PlainNumeralSign(s: string)
    requires |s| > 0 && IsDigit(s[0])
    ensures SignSplit(s) == (false, s)
  {
  }

  /** `int(f"{n}") == n`: the decimal text of a number parses back to it. */
  lemma ParseIntOfNat(n: nat)
    ensures ParseInt(NatToString(n)).Ok? && ParseInt(NatToString(n)).value == n
  {
    var s := NatToString(n);
    assert IsDigit(s[0]) && IsDigit(s[|s| - 1]);
    PlainNumeral(s);
    NatToStringValue(n);
  }

  /** A run of digits without a point is read as a whole number. */
  lemma DecimalOfDigits(s: string)
    requires |s| > 0 && AllDigits(s)
    ensures DecimalValue(s) == Ok(DigitsValue(s) as real)
  {
    NoDot(s);
    SplitSingle(s, ".");
  }

  /** Digits, a point and digits are read as `i + f / 10^|f|` (plain `i`
      when `f` is empty). */
  lemma DecimalOfPoint(i: string, f: string)
    requires AllDigits(i) && AllDigits(f) && |i| + |f| > 0
    ensures DecimalValue(i + "." + f).Ok?
    ensures DecimalValue(i + "." + f).value == DigitsValue(i) as real + FractionValue(f)
  {
    assert Split(i + "." + f, ".") == [i, f] by {
      SplitAtChar(i, '.', f);
      NoDot(f);
      SplitSingle(f, ".");
    }
    PointedValueOfTwo(i, f);
  }

  lemma PointedValueOfTwo(i: string, f: string)
    requires AllDigits(i) && AllDigits(f) && |i| + |f| > 0
    ensures PointedValue([i, f]).Ok?
    ensures PointedValue([i, f]).value == DigitsValue(i) as real + FractionValue(f)
  {
    var parts := [i, f];
    assert parts[0] == i && parts[1] == f;
  }

  /** `float(i + "." + f)` for digit runs `i` and `f` is the decimal value
      `i + f / 10^|f|` (plain `i` when `f` is empty). */
  lemma ParseFloatDecimal(i: string, f: string)
    requires |i| > 0 && AllDigits(i) && AllDigits(f)
    ensures ParseFloat(i + "." + f).Ok?
    ensures ParseFloat(i + "." + f).value == DigitsValue(i) as real + FractionValue(f)
  {
    var s := i + "." + f;
    assert s[0] == i[0] && IsDigit(s[0]);
    assert s[|s| - 1] == if |f| > 0 then f[|f| - 1] else '.';
    PlainNumeral(s);
    DecimalOfPoint(i, f);
  }

  /** `float(f"{n}") == n`. */
  lemma ParseFloatOfNat(n: nat)
    ensures ParseFloat(NatToString(n)).Ok? && ParseFloat(NatToString(n)).value == n as real
  {
    var s := NatToString(n);
    assert IsDigit(s[0]) && IsDigit(s[|s| - 1]);
    PlainNumeral(s);
    DecimalOfDigits(s);
    NatToStringValue(n);
  }

  /** A leading `-` negates what `float()` reads from a plain numeral. */
  lemma ParseFloatNegate(s: string)
    requires |s| > 0 && IsDigit(s[0]) && !IsSpace(s[|s| - 1])
    ensures ParseFloat("-" + s).Ok? <==> ParseFloat(s).Ok?
    ensures ParseFloat(s).Ok? ==> ParseFloat("-" + s).value == -ParseFloat(s).value
  {
    PlainFloat(s);
    NegativeFloat(s);
    SignedFloatNegate(s);
  }

  lemma PlainFloat(s: string)
    requires |s| > 0 && IsDigit(s[0]) && !IsSpace(s[|s| - 1])
    ensures ParseFloat(s) == SignedFloat((false, s))
  {
    PlainNumeralStrip(s);
    PlainNumeralSign(s);
  }

  lemma NegativeFloat(s: string)
    requires |s| > 0 && !IsSpace(s[|s| - 1])
    ensures ParseFloat("-" + s) == SignedFloat((true, s))
  {
    NegativeNumeralStrip(s);
    assert ("-" + s)[1..] == s;
  }

  lemma SignedFloatNegate(body: string)
    ensures SignedFloat((true, body)).Ok? <==> SignedFloat((false, body)).Ok?
    ensures SignedFloat((false, body)).Ok? ==> SignedFloat((true, body)).value == -SignedFloat((false, body)).value
  {
  }

  lemma NegativeNumeralStrip(s: string)
    requires |s| > 0 && !IsSpace(s[|s| - 1])
    ensures Strip("-" + s) == "-" + s
  {
    var t := "-" + s;
    assert t[|t| - 1] == s[|s| - 1];
    assert t[0] == '-' && !IsSpace(t[0]);
    StripTrimmed(t);
  }
}
