/**
 * PHP values as the console commands see them after JSON decoding, PHP
 * associative arrays with string keys (ordered, one entry per key), and the
 * string <-> integer conversions PHP applies when a cursor is written to a
 * file and read back.
 */
module Values {

  datatype Option<+T> = None | Some(value: T) {
    function GetOr(default: T): T {
      if Some? then value else default
    }
  }

  /** How a command ends: the exit code it returns, or an uncaught exception. */
  datatype Outcome = Exit(code: int) | Thrown

  /**
   * A scalar PHP value. `FloatOfString(s)` is what `(float) $s` makes of a
   * string: its numeric value is not modelled.
   */
  datatype Value =
    | Null
    | Bool(b: bool)
    | Int(i: int)
    | Float(x: real)
    | Str(s: string)
    | FloatOfString(s: string)

  /** A PHP array with string keys, in insertion order. */
  type Record = seq<(string, Value)>

  function Keys(r: Record): (ks: seq<string>)
    ensures |ks| == |r|
    ensures forall i :: 0 <= i < |r| ==> ks[i] == r[i].0
  {
    seq(|r|, i requires 0 <= i < |r| => r[i].0)
  }

  /** The keys of two arrays joined are the keys of the first, then those of the second. */
  lemma KeysConcat(a: Record, b: Record)
    ensures Keys(a + b) == Keys(a) + Keys(b)
  {
  }

  /** A PHP array never holds the same key twice. */
  predicate UniqueKeys(r: Record) {
    forall i, j :: 0 <= i < j < |r| ==> r[i].0 != r[j].0
  }

  /** `$r[$k]`, None when the key is absent. */
  function Lookup(r: Record, k: string): (v: Option<Value>)
    ensures v.None? <==> forall i :: 0 <= i < |r| ==> r[i].0 != k
    ensures v.Some? ==> (k, v.value) in r
  {
    if r == [] then None
    else if r[0].0 == k then Some(r[0].1)
    else Lookup(r[1..], k)
  }

  /** PHP's `isset($r[$k])`: the key is present and its value is not null. */
  predicate IsSet(r: Record, k: string) {
    Lookup(r, k).Some? && Lookup(r, k).value != Null
  }

  /** `$r[$k] = $v`: an existing key keeps its position, a new key goes last. */
  function Put(r: Record, k: string, v: Value): (r': Record)
    ensures Lookup(r, k).Some? ==> |r'| == |r|
    ensures Lookup(r, k).None? ==> r' == r + [(k, v)]
    ensures Lookup(r', k) == Some(v)
    ensures forall k' :: k' != k ==> Lookup(r', k') == Lookup(r, k')
  {
    if r == [] then [(k, v)]
    else if r[0].0 == k then [(k, v)] + r[1..]
    else [r[0]] + Put(r[1..], k, v)
  }

  // ---------------------------------------------------------------------------
  // Decimal text

  predicate IsDigit(c: char) {
    '0' <= c <= '9'
  }

  predicate AllDigits(s: string) {
    forall i :: 0 <= i < |s| ==> IsDigit(s[i])
  }

  /** The characters PHP skips around a numeric string: space, \t, \n, \v, \f, \r. */
  predicate IsSpace(c: char) {
    c == ' ' || 9 <= c as int <= 13
  }

  function DigitChar(d: int): (c: char)
    requires 0 <= d < 10
    ensures IsDigit(c)
  {
    "0123456789"[d]
  }

  function DigitValue(c: char): (d: nat)
    requires IsDigit(c)
    ensures d < 10
  {
    c as int - '0' as int
  }

  /** Decimal digits of n, most significant first, without leading zeros. */
  function NatToString(n: nat): (s: string)
    ensures |s| > 0 && AllDigits(s)
    decreases n
  {
    if n < 10 then [DigitChar(n)] else NatToString(n / 10) + [DigitChar(n % 10)]
  }

  /** What PHP writes for an int: `file_put_contents`, `sprintf('%s')`, string concatenation. */
  function IntToString(n: int): string {
    if n < 0 then "-" + NatToString(-n) else NatToString(n)
  }

  /** Value of a digit string read most significant first. */
  function DigitsValue(ds: string): nat
    requires AllDigits(ds)
  {
    if ds == [] then 0 else DigitsValue(ds[..|ds| - 1]) * 10 + DigitValue(ds[|ds| - 1])
  }

  /** The longest prefix of s made of digits. */
  function LeadingDigits(s: string): (ds: string)
    ensures AllDigits(ds) && ds <= s
    ensures |ds| < |s| ==> !IsDigit(s[|ds|])
  {
    if s == [] || !IsDigit(s[0]) then [] else [s[0]] + LeadingDigits(s[1..])
  }

  function SkipSpace(s: string): (t: string)
    ensures |t| <= |s| && t == s[|s| - |t|..]
    ensures t != [] ==> !IsSpace(t[0])
  {
    if s != [] && IsSpace(s[0]) then SkipSpace(s[1..]) else s
  }

  function DropSpaceEnd(s: string): (t: string)
    ensures t <= s
    ensures t != [] ==> !IsSpace(t[|t| - 1])
  {
    if s != [] && IsSpace(s[|s| - 1]) then DropSpaceEnd(s[..|s| - 1]) else s
  }

  function DropSign(s: string): string {
    if s != [] && (s[0] == '-' || s[0] == '+') then s[1..] else s
  }

  /**
   * PHP's `(int) $s` for a string: leading whitespace, an optional sign and
   * the digits that follow; 0 when there are none.
   */
  function CastInt(s: string): int {
    var t := SkipSpace(s);
    var magnitude: int := DigitsValue(LeadingDigits(DropSign(t)));
    if t != [] && t[0] == '-' then -magnitude else magnitude
  }

  /** PHP's integer-numeric string: optional whitespace, optional sign, digits, optional whitespace. */
  predicate IsIntString(s: string) {
    var u := DropSign(DropSpaceEnd(SkipSpace(s)));
    u != [] && AllDigits(u)
  }

  /** The integer a stored cursor text stands for in PHP arithmetic, None when it is not an integer string. */
  function IntCursor(s: string): Option<int> {
    if IsIntString(s) then Some(CastInt(s)) else None
  }

  /** An optional exponent: empty, or e/E, an optional sign and at least one digit. */
  predicate IsExponent(s: string) {
    s == [] || (s[0] in "eE" && DropSign(s[1..]) != [] && AllDigits(DropSign(s[1..])))
  }

  /**
   * PHP 8's `is_numeric` on a string: optional whitespace, an optional sign,
   * digits with an optional decimal point (at least one digit in all), an
   * optional exponent, optional whitespace.
   */
  predicate IsNumericString(s: string) {
    var u := DropSign(DropSpaceEnd(SkipSpace(s)));
    var whole := LeadingDigits(u);
    var rest := u[|whole|..];
    if rest != [] && rest[0] == '.' then
      var frac := LeadingDigits(rest[1..]);
      |whole| + |frac| > 0 && IsExponent(rest[1 + |frac|..])
    else
      |whole| > 0 && IsExponent(rest)
  }

  /** PHP's `is_numeric`. */
  predicate IsNumeric(v: Value) {
    match v
    case Int(_) => true
    case Float(_) => true
    case FloatOfString(_) => true
    case Str(s) => IsNumericString(s)
    case _ => false
  }

  /** PHP's `(float)` of a scalar; a string's numeric value stays uninterpreted. */
  function FloatCast(v: Value): Value {
    match v
    case Null => Float(0.0)
    case Bool(b) => Float(if b then 1.0 else 0.0)
    case Int(i) => Float(i as real)
    case Float(x) => Float(x)
    case Str(s) => FloatOfString(s)
    case FloatOfString(s) => FloatOfString(s)
  }

  /** PHP's `(int)` of a scalar: floats truncate toward zero, strings read as `CastInt` does. */
  function IntCast(v: Value): int {
    match v
    case Null => 0
    case Bool(b) => if b then 1 else 0
    case Int(i) => i
    case Float(x) => if x >= 0.0 then x.Floor else -((-x).Floor)
    case Str(s) => CastInt(s)
    case FloatOfString(s) => CastInt(s)
  }

  /** A string PHP treats as false: `""` and `"0"`. */
  predicate FalsyString(s: string) {
    s == "" || s == "0"
  }

  function Abs(n: int): nat {
    if n < 0 then -n else n
  }

  /** Division of magnitudes, rounding down. */
  function Quotient(x: nat, y: nat): (q: nat)
    requires y > 0
    ensures q * y <= x < q * y + y
  {
    x / y
  }

  /**
   * `(int) ($a / $b)` for ints: PHP's `/` gives the exact quotient (an int
   * or a float) and `(int)` truncates it toward zero. Float rounding of very
   * large quotients is not modelled.
   */
  function TruncDiv(a: int, b: int): (q: int)
    requires b != 0
    ensures Abs(q) == Quotient(Abs(a), Abs(b))
    ensures (a < 0) == (b < 0) ==> q >= 0
    ensures (a < 0) != (b < 0) ==> q <= 0
  {
    var m: int := Quotient(Abs(a), Abs(b));
    if (a < 0) != (b < 0) then -m else m
  }

  /** A larger dividend never has a smaller quotient. */
  lemma QuotientMonotone(x1: nat, x2: nat, y: nat)
    requires y > 0 && x1 <= x2
    ensures Quotient(x1, y) <= Quotient(x2, y)
  {
    var q1, q2 := Quotient(x1, y), Quotient(x2, y);
    assert (q1 - q2 - 1) * y < 0;
  }

  /** For a positive divisor, truncating division keeps the order of the dividends. */
  lemma TruncDivMonotone(a1: int, a2: int, b: int)
    requires b > 0 && a1 <= a2
    ensures TruncDiv(a1, b) <= TruncDiv(a2, b)
  {
    if a1 >= 0 {
      QuotientMonotone(a1, a2, b);
    } else if a2 < 0 {
      QuotientMonotone(-a2, -a1, b);
    }
  }

  // ---------------------------------------------------------------------------
  // Round trips of the decimal text

  lemma {:induction false} DigitsValueOfNatToString(n: nat)
    ensures DigitsValue(NatToString(n)) == n
    decreases n
  {
    if n >= 10 {
      var s := NatToString(n);
      assert s[..|s| - 1] == NatToString(n / 10);
      DigitsValueOfNatToString(n / 10);
    }
  }

  lemma {:induction false} LeadingDigitsOfDigits(s: string)
    requires AllDigits(s)
    ensures LeadingDigits(s) == s
  {
    if s != [] {
      LeadingDigitsOfDigits(s[1..]);
    }
  }

  /** The text of an int starts with a sign or a digit and ends with a digit. */
  lemma IntToStringShape(n: int)
    ensures var s := IntToString(n);
      && s != [] && !IsSpace(s[0]) && !IsSpace(s[|s| - 1])
      && DropSign(s) == NatToString(if n < 0 then -n else n)
      && (s[0] == '-' <==> n < 0)
  {
    var ds := NatToString(if n < 0 then -n else n);
    assert IsDigit(ds[0]) && IsDigit(ds[|ds| - 1]);
  }

  /** Casting the text PHP writes for n gives n back. */
  lemma CastIntOfIntToString(n: int)
    ensures CastInt(IntToString(n)) == n
  {
    var s := IntToString(n);
    var m: nat := if n < 0 then -n else n;
    IntToStringShape(n);
    assert SkipSpace(s) == s;
    LeadingDigitsOfDigits(NatToString(m));
    DigitsValueOfNatToString(m);
  }

  /** A cursor written as text by the commands reads back as the same integer. */
  lemma IntCursorOfIntToString(n: int)
    ensures IntCursor(IntToString(n)) == Some(n)
  {
    var s := IntToString(n);
    IntToStringShape(n);
    assert SkipSpace(s) == s;
    assert DropSpaceEnd(s) == s;
    CastIntOfIntToString(n);
  }

  /** The text of an int is never empty, and it is `"0"` exactly for 0. */
  lemma IntToStringFalsy(n: int)
    ensures FalsyString(IntToString(n)) <==> n == 0
  {
    if n >= 10 {
      assert |NatToString(n)| >= 2;
    } else if n < 0 {
      assert IntToString(n)[0] == '-';
    }
  }
}
