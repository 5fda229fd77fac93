/** JSON values as the web framework hands them to the handlers, and the
    text Python's `str()` produces for them before a pylogix write. */
module Values {
  import opened Wrappers

  /** A controller-side symbolic address, a JSON object key. */
  type Tag = string

  /** A parsed JSON value. Floats and compound values (arrays, objects) are
      opaque here: each carries only the text `str()` prints for it. */
  datatype Value =
    | VInt(i: int)
    | VFloat(text: string)
    | VBool(b: bool)
    | VStr(s: string)
    | VNull
    | VCompound(text: string)

  function Digit(d: nat): char
    requires d < 10
  {
    "0123456789"[d]
  }

  /** Decimal digits of a natural number, most significant first. */
  function NatToDecimal(n: nat): string
    decreases n
  {
    if n < 10 then [Digit(n)] else NatToDecimal(n / 10) + [Digit(n % 10)]
  }

  /** Python's `str(i)` for an integer. */
  function IntToDecimal(i: int): string {
    if i < 0 then "-" + NatToDecimal(-i) else NatToDecimal(i)
  }

  /** Python's `str(value)` for a JSON value. */
  function PyStr(v: Value): string {
    match v
    case VInt(i) => IntToDecimal(i)
    case VFloat(text) => text
    case VBool(b) => if b then "True" else "False"
    case VStr(s) => s
    case VNull => "None"
    case VCompound(text) => text
  }

  function DigitValue(c: char): Option<nat> {
    if '0' <= c <= '9' then Some(c as int - '0' as int) else None
  }

  /** Reads a non-empty string of decimal digits. */
  function ParseNat(s: string): Option<nat>
    decreases |s|
  {
    if |s| == 0 then None
    else
      match DigitValue(s[|s| - 1])
      case None => None
      case Some(d) =>
        if |s| == 1 then Some(d)
        else
          match ParseNat(s[..|s| - 1])
          case None => None
          case Some(m) => Some(10 * m + d)
  }

  /** Reads an optionally negative decimal integer, the inverse of `str` on ints. */
  function ParseInt(s: string): Option<int> {
    if |s| > 0 && s[0] == '-' then
      match ParseNat(s[1..])
      case None => None
      case Some(m) => Some(-(m as int))
    else ParseNat(s)
  }

  lemma {:induction false} NatToDecimalShape(n: nat)
    ensures |NatToDecimal(n)| > 0
    ensures forall k :: 0 <= k < |NatToDecimal(n)| ==> '0' <= NatToDecimal(n)[k] <= '9'
    decreases n
  {
    if n >= 10 {
      NatToDecimalShape(n / 10);
    }
  }

  lemma {:induction false} NatRoundTrip(n: nat)
    ensures ParseNat(NatToDecimal(n)) == Some(n)
    decreases n
  {
    if n >= 10 {
      var s := NatToDecimal(n);
      NatToDecimalShape(n / 10);
      NatRoundTrip(n / 10);
      assert s[..|s| - 1] == NatToDecimal(n / 10);
    }
  }

  /** A leading minus sign negates what the digits after it read as. */
  lemma ParseNegative(digits: string, n: nat)
    requires ParseNat(digits) == Some(n)
    ensures ParseInt("-" + digits) == Some(-(n as int))
  {
    assert ("-" + digits)[1..] == digits;
  }

  /** Text that does not start with a minus sign reads as a natural number. */
  lemma ParseUnsigned(digits: string, n: nat)
    requires |digits| > 0 && digits[0] != '-'
    requires ParseNat(digits) == Some(n)
    ensures ParseInt(digits) == Some(n)
  {
  }

  /** The text written for an integer value reads back as that integer. */
  lemma IntTextRoundTrip(i: int)
    ensures ParseInt(PyStr(VInt(i))) == Some(i)
  {
    if i < 0 {
      NatRoundTrip(-i);
      ParseNegative(NatToDecimal(-i), -i);
    } else {
      NatToDecimalShape(i);
      NatRoundTrip(i);
      ParseUnsigned(NatToDecimal(i), i);
    }
  }

  /** Distinct integers are written as distinct texts. */
  lemma IntTextInjective(i: int, j: int)
    requires PyStr(VInt(i)) == PyStr(VInt(j))
    ensures i == j
  {
    IntTextRoundTrip(i);
    IntTextRoundTrip(j);
  }
}
