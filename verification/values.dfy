/** Python runtime values as they appear in tool parameters, tool results and
    the dictionaries the modelled code builds, together with the `int()` and
    `float()` conversions used when coercing parameters. */
module Values {
  import opened Wrappers
  import opened Text

  /** A decimal number `mantissa / 10^scale`; the model's stand-in for a
      Python `float` obtained from decimal text. The scale is the number of
      digits written after the point, so equality is that of the written
      form: `Decimal(15, 1)` and `Decimal(150, 2)` are the same number. */
  datatype Decimal = Decimal(mantissa: int, scale: nat)

  /** A JSON-like Python value. */
  datatype Value =
    | Null
    | Bool(b: bool)
    | Int(i: int)
    | Float(f: Decimal)
    | Str(s: string)
    | List(items: seq<Value>)
    | Dict(entries: map<string, Value>)

  /** Python's `bool(v)`: `None`, `False`, zero and empty containers are falsy. */
  predicate Truthy(v: Value) {
    match v
    case Null => false
    case Bool(b) => b
    case Int(i) => i != 0
    case Float(f) => f.mantissa != 0
    case Str(s) => s != []
    case List(items) => items != []
    case Dict(entries) => entries != map[]
  }

  predicate IsDigit(c: char) {
    '0' <= c <= '9'
  }

  predicate AllDigits(s: string) {
    forall i :: 0 <= i < |s| ==> IsDigit(s[i])
  }

  /** The number a string of decimal digits denotes. */
  function DigitsValue(d: string): nat
    requires AllDigits(d)
  {
    if |d| == 0 then 0
    else DigitsValue(d[..|d| - 1]) * 10 + (d[|d| - 1] as int - '0' as int)
  }

  /** The decimal digits of `n`, most significant first, without leading zeros. */
  function DigitsOf(n: nat): (d: string)
    ensures |d| >= 1 && AllDigits(d)
  {
    var last := ('0' as int + n % 10) as char;
    if n < 10 then [last] else DigitsOf(n / 10) + [last]
  }

  /** Python's `str(n)` for an integer. */
  function IntToString(n: int): string {
    if n < 0 then "-" + DigitsOf(-n) else DigitsOf(n)
  }

  /** Splits an optional leading `+` or `-` off `t`. */
  function SignOf(t: string): (r: (int, string))
    ensures r.0 == 1 || r.0 == -1
    ensures |r.1| <= |t| && r.1 == t[|t| - |r.1|..]
  {
    if |t| > 0 && t[0] == '-' then (-1, t[1..])
    else if |t| > 0 && t[0] == '+' then (1, t[1..])
    else (1, t)
  }

  /** CPython's default `sys.get_int_max_str_digits()`: `int()` refuses
      decimal text of more digits than this, and `str()` an integer of more
      digits than this. */
  const MaxStrDigits: nat := 4300

  /** The number of decimal digits of `n`, without sign or leading zeros. */
  function DigitCount(n: int): nat {
    |DigitsOf(if n < 0 then -n else n)|
  }

  /** `str(n)` succeeds. */
  predicate StrWithinLimit(n: int) {
    DigitCount(n) <= MaxStrDigits
  }

  /** Text made of surrounding whitespace, an optional sign and one or more
      ASCII digits: the integer literals the model reads. */
  predicate IsIntLiteral(s: string) {
    var body := SignOf(Strip(s)).1;
    |body| > 0 && AllDigits(body)
  }

  /** The integer an integer literal denotes. */
  function LiteralValue(s: string): int
    requires IsIntLiteral(s)
  {
    var (sign, body) := SignOf(Strip(s));
    sign * DigitsValue(body)
  }

  /** An integer literal with more digits than `int()` converts. Leading
      zeros count, as CPython counts every digit it scans. */
  predicate TooManyDigits(s: string) {
    IsIntLiteral(s) && |SignOf(Strip(s)).1| > MaxStrDigits
  }

  /** Python's `int(s)` on a string, simplified to integer literals of at
      most `MaxStrDigits` digits. `None` stands for the `ValueError` it
      raises otherwise, whose message is `IntErrorMessage(s)`. */
  function ParseInt(s: string): Option<int> {
    if IsIntLiteral(s) && !TooManyDigits(s) then Some(LiteralValue(s)) else None
  }

  const InvalidLiteralText: string := "invalid literal for int() with base 10: "
  const LimitTextHead: string := "Exceeds the limit (4300 digits) for integer string conversion: value has "
  const LimitTextTail: string := " digits; use sys.set_int_max_str_digits() to increase the limit"

  /** The message of the `ValueError` `int(s)` raises: the digit limit with
      the number of digits, or the invalid literal shown by `%.200R`. */
  function IntErrorMessage(s: string): (r: string)
    ensures TooManyDigits(s) ==> StartsWith(r, LimitTextHead) && EndsWith(r, LimitTextTail)
    ensures !TooManyDigits(s) ==> StartsWith(r, InvalidLiteralText)
    ensures !TooManyDigits(s) ==> |r| <= |InvalidLiteralText| + 200
  {
    if TooManyDigits(s) then LimitTextHead + IntToString(|SignOf(Strip(s)).1|) + LimitTextTail
    else InvalidLiteralText + TruncatedRepr(s, 200)
  }

  /** Python's `float(s)` on a string, simplified to: surrounding whitespace, an
      optional sign, and digits with at most one `.` and at least one digit. */
  function ParseFloat(s: string): Option<Decimal> {
    var (sign, body) := SignOf(Strip(s));
    match SplitOnce(body, '.')
    case None =>
      if |body| > 0 && AllDigits(body) then Some(Decimal(sign * DigitsValue(body), 0)) else None
    case Some((whole, frac)) =>
      if |whole| + |frac| > 0 && AllDigits(whole) && AllDigits(frac)
      then Some(Decimal(sign * DigitsValue(whole + frac), |frac|))
      else None
  }

  lemma {:induction false} DigitsOfValue(n: nat)
    ensures DigitsValue(DigitsOf(n)) == n
  {
    if n >= 10 {
      var d := DigitsOf(n);
      assert d[..|d| - 1] == DigitsOf(n / 10);
      DigitsOfValue(n / 10);
    }
  }

  lemma StripDigits(s: string)
    requires s != [] && (IsDigit(s[0]) || s[0] == '-') && IsDigit(s[|s| - 1])
    ensures Strip(s) == s
  {
    StripUnique(s, 0, |s|);
    assert s[0..|s|] == s;
  }

  /** `int()` reads back what `str()` prints, as far as `str()` prints:
      every printed integer is a literal denoting it, which `int()` converts
      exactly when it has at most `MaxStrDigits` digits. */
  lemma IntRoundTrip(n: int)
    ensures IsIntLiteral(IntToString(n)) && LiteralValue(IntToString(n)) == n
    ensures ParseInt(IntToString(n)) == (if StrWithinLimit(n) then Some(n) else None)
    ensures !StrWithinLimit(n) ==>
              IntErrorMessage(IntToString(n)) == LimitTextHead + IntToString(DigitCount(n)) + LimitTextTail
  {
    var s := IntToString(n);
    var d := DigitsOf(if n < 0 then -n else n);
    DigitsOfValue(if n < 0 then -n else n);
    StripDigits(s);
    assert Strip(s) == s;
    if n < 0 {
      assert s == "-" + d && s[1..] == d;
      assert SignOf(s) == (-1, d);
    } else {
      assert s == d && d[0] != '-' && d[0] != '+';
      assert SignOf(s) == (1, d);
    }
  }

  /** `float()` accepts every integer literal, with the literal's value;
      in particular every string `int()` accepts. */
  lemma ParseFloatExtendsParseInt(s: string)
    requires IsIntLiteral(s)
    ensures ParseFloat(s) == Some(Decimal(LiteralValue(s), 0))
    ensures ParseInt(s).Some? ==> ParseFloat(s) == Some(Decimal(ParseInt(s).value, 0))
  {
    var (sign, body) := SignOf(Strip(s));
    assert '.' !in body;
  }

  /** A literal free of characters `repr` escapes, and short enough not to
      be cut, is shown in single quotes exactly as written. */
  lemma InvalidLiteralShowsText(s: string)
    requires !TooManyDigits(s) && |s| <= 198 && '\'' !in s
    requires forall i :: 0 <= i < |s| ==> Plain(s[i], '\'')
    ensures IntErrorMessage(s) == InvalidLiteralText + ("'" + s + "'")
  {
    var r := Repr(s);
    assert r[0] == '\'';
  }

  /** A text holding a single quote and no double quote, otherwise free
      of characters `repr` escapes, is shown in double quotes as written:
      `int("it's")` reports `"it's"`. */
  lemma InvalidLiteralShowsDoubleQuoted(s: string)
    requires !TooManyDigits(s) && |s| <= 198 && '\'' in s && '"' !in s
    requires forall i :: 0 <= i < |s| ==> Plain(s[i], '"')
    ensures IntErrorMessage(s) == InvalidLiteralText + ("\"" + s + "\"")
  {
    var r := Repr(s);
    assert r[0] == '"';
  }
}
