/**
 * JSON-like values, as the exporter receives them from `json.loads` (backend
 * responses) and `yaml.safe_load` (the configuration file), together with the
 * Python built-ins the core applies to them: truthiness, `dict.get` with a
 * default, `str()`, `int()`/`float()`, `str.lower()` and `str.replace`.
 */
module Values {
  import opened Wrappers

  datatype Json =
    | Null
    | Bool(b: bool)
    | Int(i: int)
    | Str(s: string)
    | Arr(items: seq<Json>)
    | Obj(fields: map<string, Json>)

  /** The literal `{}`. */
  const EmptyObj: Json := Obj(map[])

  /** Python truthiness, as read by `if x`, `not x` and `x or y`. */
  predicate Truthy(j: Json) {
    match j
    case Null => false
    case Bool(b) => b
    case Int(i) => i != 0
    case Str(s) => s != ""
    case Arr(a) => a != []
    case Obj(m) => m != map[]
  }

  /** `d.get(key, dflt)`: the stored value when the key is present, even if it is `None`. */
  function GetOr(d: map<string, Json>, key: string, dflt: Json): Json {
    if key in d then d[key] else dflt
  }

  // ---------------------------------------------------------------------------
  // str() of a value

  function DigitChar(d: nat): (c: char)
    requires d < 10
    ensures '0' <= c <= '9'
  {
    ('0' as int + d) as char
  }

  /** The decimal digits of `n`, most significant first, without leading zeros. */
  function NatDigits(n: nat): (r: string)
    ensures 1 <= |r|
    ensures n < 10 <==> |r| == 1
    ensures forall k :: 0 <= k < |r| ==> '0' <= r[k] <= '9'
    decreases n
  {
    if n < 10 then [DigitChar(n)] else NatDigits(n / 10) + [DigitChar(n % 10)]
  }

  /** `str(i)` for an int: an optional minus sign and the decimal digits. */
  function Decimal(i: int): string {
    if i < 0 then "-" + NatDigits(-i) else NatDigits(i)
  }

  /**
   * `str(j)`. A string is itself, `None`, `True` and `False` are their names,
   * an int is its decimal form. A list or a dict is rendered exactly only when
   * empty; otherwise only its brackets are kept.
   */
  function PyStr(j: Json): string {
    match j
    case Null => "None"
    case Bool(b) => if b then "True" else "False"
    case Int(i) => Decimal(i)
    case Str(s) => s
    case Arr(a) => if a == [] then "[]" else "[...]"
    case Obj(m) => if m == map[] then "{}" else "{...}"
  }

  /** `str(j)` is "0" exactly for the int 0 and the string "0". */
  lemma PyStrIsZero(j: Json)
    ensures PyStr(j) == "0" <==> j == Int(0) || j == Str("0")
  {
    if j.Int? && j.i != 0 {
      if j.i < 0 {
        assert PyStr(j)[0] == '-';
      } else if j.i >= 10 {
        assert |NatDigits(j.i)| > 1;
      }
    }
  }

  /** `str(j)` is "1" exactly for the int 1 and the string "1". */
  lemma PyStrIsOne(j: Json)
    ensures PyStr(j) == "1" <==> j == Int(1) || j == Str("1")
  {
    if j.Int? && j.i != 1 {
      if j.i < 0 {
        assert PyStr(j)[0] == '-';
      } else if j.i >= 10 {
        assert |NatDigits(j.i)| > 1;
      }
    }
  }

  // ---------------------------------------------------------------------------
  // int() and float() of a value

  /** The ASCII whitespace `int()` strips around its argument. */
  predicate IsSpace(c: char) {
    c == ' ' || c == '\t' || c == '\n' || c == '\r' || c as int == 11 || c as int == 12
  }

  predicate IsDigit(c: char) {
    '0' <= c <= '9'
  }

  predicate AllDigits(s: string) {
    forall k :: 0 <= k < |s| ==> IsDigit(s[k])
  }

  function StripLeading(s: string): string {
    if s != [] && IsSpace(s[0]) then StripLeading(s[1..]) else s
  }

  function StripTrailing(s: string): string {
    if s != [] && IsSpace(s[|s| - 1]) then StripTrailing(s[..|s| - 1]) else s
  }

  function Strip(s: string): string {
    StripTrailing(StripLeading(s))
  }

  /** The value of a string of decimal digits, read left to right. */
  function DigitsValue(s: string): nat
    requires AllDigits(s)
  {
    if s == [] then 0 else 10 * DigitsValue(s[..|s| - 1]) + (s[|s| - 1] as int - '0' as int)
  }

  /**
   * `int(s)` for a string: whitespace around it is ignored, then an optional
   * sign and at least one decimal digit; anything else raises ValueError (None).
   */
  function ParseInt(s: string): Option<int> {
    ParseStripped(Strip(s))
  }

  /** An optional sign and at least one decimal digit, nothing else. */
  function ParseStripped(t: string): Option<int> {
    var signed := |t| > 0 && (t[0] == '-' || t[0] == '+');
    var body := if signed then t[1..] else t;
    if body != [] && AllDigits(body) then
      Some(if signed && t[0] == '-' then -(DigitsValue(body) as int) else DigitsValue(body) as int)
    else
      None
  }

  /**
   * `int(j)` (and `float(j)` restricted to integers): an int is itself, a bool
   * is 0 or 1, a string is parsed; `None`, a list or a dict raise TypeError (None).
   */
  function ToNumber(j: Json): Option<int> {
    match j
    case Int(i) => Some(i)
    case Bool(b) => Some(if b then 1 else 0)
    case Str(s) => ParseInt(s)
    case _ => None
  }

  lemma {:induction false} DigitsValueOfNatDigits(n: nat)
    ensures AllDigits(NatDigits(n)) && DigitsValue(NatDigits(n)) == n
    decreases n
  {
    var r := NatDigits(n);
    if n >= 10 {
      DigitsValueOfNatDigits(n / 10);
      assert r[..|r| - 1] == NatDigits(n / 10);
    }
  }

  lemma StripUnchanged(s: string)
    requires s != [] && !IsSpace(s[0]) && !IsSpace(s[|s| - 1])
    ensures Strip(s) == s
  {
  }

  /** Parsing the digits of a natural number gives it back. */
  lemma ParseIntOfNatDigits(n: nat)
    ensures ParseInt(NatDigits(n)) == Some(n)
  {
    var d := NatDigits(n);
    assert Strip(d) == d by {
      StripUnchanged(d);
    }
    assert AllDigits(d) && DigitsValue(d) == n by {
      DigitsValueOfNatDigits(n);
    }
    assert !(d[0] == '-' || d[0] == '+');
  }

  /** Parsing a minus sign followed by the digits of a positive number gives its negation. */
  lemma ParseIntOfNegative(n: nat)
    requires n > 0
    ensures ParseInt("-" + NatDigits(n)) == Some(-(n as int))
  {
    var digits := NatDigits(n);
    var d := "-" + digits;
    assert Strip(d) == d by {
      assert d[|d| - 1] == digits[|digits| - 1];
      StripUnchanged(d);
    }
    assert AllDigits(digits) && DigitsValue(digits) == n by {
      DigitsValueOfNatDigits(n);
    }
    assert d[0] == '-' && d[1..] == digits;
  }

  /** Parsing what `str()` prints for an int gives the int back. */
  lemma ParseIntOfDecimal(i: int)
    ensures ParseInt(Decimal(i)) == Some(i)
  {
    if i < 0 {
      ParseIntOfNegative(-i);
    } else {
      ParseIntOfNatDigits(i);
    }
  }

  // ---------------------------------------------------------------------------
  // str.lower() and str.replace(" ", "_")

  function LowerChar(c: char): char {
    if 'A' <= c <= 'Z' then (c as int + 32) as char else c
  }

  /** `s.lower()` on the ASCII letters. */
  function AsciiLower(s: string): (r: string) {
    seq(|s|, k requires 0 <= k < |s| => LowerChar(s[k]))
  }

  /** `s.replace(" ", "_")`. */
  function ReplaceSpaces(s: string): (r: string) {
    seq(|s|, k requires 0 <= k < |s| => if s[k] == ' ' then '_' else s[k])
  }

  /** Lower-casing keeps the length, leaves no upper-case letter and changes nothing else. */
  lemma AsciiLowerSpec(s: string)
    ensures |AsciiLower(s)| == |s|
    ensures forall k :: 0 <= k < |s| ==> !('A' <= AsciiLower(s)[k] <= 'Z')
    ensures forall k :: 0 <= k < |s| && !('A' <= s[k] <= 'Z') ==> AsciiLower(s)[k] == s[k]
    ensures AsciiLower(AsciiLower(s)) == AsciiLower(s)
  {
  }
}
