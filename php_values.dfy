/**
 * PHP values as the plugin's code handles them, and the PHP conversions it
 * relies on: the `(string)` cast (with its decimal rendering of integers),
 * and `isset` on an array element.
 */
module PhpValues {
  import opened Wrappers

  /** PHP integers are 64-bit two's complement. */
  type Int64 = x: int | -0x8000_0000_0000_0000 <= x < 0x8000_0000_0000_0000

  /** A PHP array key. PHP stores decimal-integer string keys as integers, so
      a `StrKey` here is never a canonical decimal integer. */
  datatype Key = IntKey(i: int) | StrKey(s: string)

  /** A PHP value. An array is an ordered sequence of key/value entries. */
  datatype Value =
    | Null
    | Bool(b: bool)
    | Int(i: Int64)
    | Str(s: string)
    | Arr(entries: seq<(Key, Value)>)

  /** `isset($vars[$name])`: the element exists and is not null. */
  predicate IsSet(vars: map<string, Value>, name: string) {
    name in vars && vars[name] != Null
  }

  predicate IsDigit(c: char) {
    '0' <= c <= '9'
  }

  predicate AllDigits(s: string) {
    forall i :: 0 <= i < |s| ==> IsDigit(s[i])
  }

  function DigitValue(c: char): nat
    requires IsDigit(c)
  {
    c as int - '0' as int
  }

  function DigitChar(d: nat): (c: char)
    requires d < 10
    ensures IsDigit(c) && DigitValue(c) == d
  {
    ('0' as int + d) as char
  }

  /** Decimal rendering of a natural number, without leading zeros. */
  function NatToDecimal(n: nat): (s: string)
    ensures |s| >= 1 && AllDigits(s)
    ensures s[0] == '0' ==> n == 0
    decreases n
  {
    if n < 10 then [DigitChar(n)] else NatToDecimal(n / 10) + [DigitChar(n % 10)]
  }

  /** Decimal rendering of an integer, as PHP's `(string)` cast writes it. */
  function IntToDecimal(i: int): string {
    if i < 0 then "-" + NatToDecimal(-i) else NatToDecimal(i)
  }

  /** The value of a string of decimal digits, most significant first. */
  function ParseDigits(s: string): nat
    requires AllDigits(s)
    decreases |s|
  {
    if s == [] then 0 else ParseDigits(s[..|s| - 1]) * 10 + DigitValue(s[|s| - 1])
  }

  /** Reads an optionally signed decimal integer: the inverse of IntToDecimal. */
  function ParseDecimal(s: string): Option<int> {
    if |s| >= 2 && s[0] == '-' && AllDigits(s[1..]) then Some(-(ParseDigits(s[1..]) as int))
    else if |s| >= 1 && AllDigits(s) then Some(ParseDigits(s) as int)
    else None
  }

  lemma {:induction false} ParseNatToDecimal(n: nat)
    ensures ParseDigits(NatToDecimal(n)) == n
    decreases n
  {
    if n >= 10 {
      var s := NatToDecimal(n);
      assert s[..|s| - 1] == NatToDecimal(n / 10);
      ParseNatToDecimal(n / 10);
    }
  }

  /** Rendering an integer in decimal and reading it back gives the integer. */
  lemma DecimalRoundTrip(i: int)
    ensures ParseDecimal(IntToDecimal(i)) == Some(i)
  {
    var s := IntToDecimal(i);
    if i < 0 {
      assert s[1..] == NatToDecimal(-i);
      ParseNatToDecimal(-i);
      assert |s| >= 2 && s[0] == '-' && AllDigits(s[1..]);
    } else {
      ParseNatToDecimal(i);
      assert IsDigit(s[0]);
    }
  }

  /** The rendering is canonical: an optional minus sign, then digits with no
      leading zero except for 0 itself, and never "-0". */
  lemma CanonicalDecimal(i: int)
    ensures var s := IntToDecimal(i);
      && |s| >= 1
      && (s[0] == '-' <==> i < 0)
      && (s[0] == '-' ==> |s| >= 2 && AllDigits(s[1..]) && s[1] != '0')
      && (s[0] != '-' ==> AllDigits(s))
      && (s[0] == '0' ==> s == "0")
      && s != "-0"
  {
    var s := IntToDecimal(i);
    if i < 0 {
      assert s[1..] == NatToDecimal(-i);
    } else if s[0] == '0' {
      assert i == 0;
    }
  }

  /** Distinct integers have distinct decimal renderings. */
  lemma DecimalInjective(i: int, j: int)
    ensures IntToDecimal(i) == IntToDecimal(j) ==> i == j
  {
    DecimalRoundTrip(i);
    DecimalRoundTrip(j);
  }

  /** PHP's `(string)` cast. An array renders as "Array" (with a notice). */
  function ToPhpString(v: Value): (s: string)
    ensures v.Int? ==> s == IntToDecimal(v.i) && ParseDecimal(s) == Some(v.i)
    ensures v.Str? ==> s == v.s
    ensures v.Null? ==> s == ""
  {
    match v
    case Null => ""
    case Bool(b) => if b then "1" else ""
    case Int(i) => DecimalRoundTrip(i); IntToDecimal(i)
    case Str(s) => s
    case Arr(_) => "Array"
  }
}
