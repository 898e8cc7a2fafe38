/** The few PHP value semantics the log grid relies on: the loosely typed
    values a database row holds, their truthiness in an `if`, and their
    conversion to string by the `.` concatenation operator. */
module PhpValues {
  import opened Wrappers

  /** A scalar cell of a database row. Floats and nested arrays are not
      modelled. */
  datatype Value = Null | Bool(b: bool) | Int(i: int) | Str(s: string)

  /** PHP's boolean conversion: `null`, `false`, `0`, `""` and `"0"` are
      falsy, every other scalar is truthy. */
  predicate Truthy(v: Value)
  {
    match v
    case Null => false
    case Bool(b) => b
    case Int(i) => i != 0
    case Str(s) => s != "" && s != "0"
  }

  predicate IsDigit(c: char)
  {
    '0' <= c <= '9'
  }

  predicate AllDigits(s: string)
  {
    forall k :: 0 <= k < |s| ==> IsDigit(s[k])
  }

  function DigitChar(d: nat): (c: char)
    requires d < 10
    ensures IsDigit(c) && (c as int) - ('0' as int) == d
  {
    ('0' as int + d) as char
  }

  /** Decimal digits of a natural number, most significant first, without
      leading zeros. */
  function NatToString(n: nat): (s: string)
    decreases n
  {
    if n < 10 then [DigitChar(n)] else NatToString(n / 10) + [DigitChar(n % 10)]
  }

  /** PHP's int-to-string conversion: decimal, with a leading `-` for
      negative numbers. */
  function IntToString(i: int): (s: string)
  {
    if i < 0 then "-" + NatToString(-i) else NatToString(i)
  }

  /** The number a string of decimal digits denotes (0 for the empty string). */
  function DigitsValue(s: string): nat
    requires AllDigits(s)
    decreases |s|
  {
    if |s| == 0 then 0
    else DigitsValue(s[..|s| - 1]) * 10 + ((s[|s| - 1] as int) - ('0' as int))
  }

  /** Reads back a canonical decimal integer: an optional `-`, then digits
      with no superfluous leading zero. Anything else is rejected. */
  function ParseInt(s: string): (r: Option<int>)
  {
    if |s| > 0 && s[0] == '-' then
      var t := s[1..];
      if |t| > 0 && AllDigits(t) && t[0] != '0' then Some(-(DigitsValue(t) as int)) else None
    else if |s| > 0 && AllDigits(s) && (s[0] != '0' || |s| == 1) then Some(DigitsValue(s))
    else None
  }

  /** What `.` makes of a value: `null` and `false` become `""`, `true`
      becomes `"1"`, integers their decimal form, strings themselves. */
  function ToStr(v: Value): string
  {
    match v
    case Null => ""
    case Bool(b) => if b then "1" else ""
    case Int(i) => IntToString(i)
    case Str(s) => s
  }

  /** The decimal form of a natural number is a canonical digit string that
      reads back as that number. */
  lemma {:induction false} NatToStringDigits(n: nat)
    ensures var s := NatToString(n);
      && |s| > 0
      && AllDigits(s)
      && (s[0] != '0' || n == 0)
      && (n == 0 ==> s == "0")
      && DigitsValue(s) == n
    decreases n
  {
    var s := NatToString(n);
    if n >= 10 {
      NatToStringDigits(n / 10);
      var p := NatToString(n / 10);
      assert s == p + [DigitChar(n % 10)];
      assert s[..|s| - 1] == p;
      assert s[0] == p[0];
      assert forall k :: 0 <= k < |s| ==> IsDigit(s[k]) by {
        forall k | 0 <= k < |s|
          ensures IsDigit(s[k])
        {
          if k < |p| { assert s[k] == p[k]; }
        }
      }
    }
  }

  /** Round trip: PHP's rendering of an integer parses back to that integer. */
  lemma IntToStringRoundTrip(i: int)
    ensures ParseInt(IntToString(i)) == Some(i)
  {
    if i < 0 {
      NatToStringDigits(-i);
      var s := IntToString(i);
      assert s[1..] == NatToString(-i);
    } else {
      NatToStringDigits(i);
    }
  }

  /** Distinct integers render as distinct strings, so the id shown in a
      grid label identifies the id stored in the row. */
  lemma IntToStringInjective(i: int, j: int)
    requires IntToString(i) == IntToString(j)
    ensures i == j
  {
    IntToStringRoundTrip(i);
    IntToStringRoundTrip(j);
  }
}
