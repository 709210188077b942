/**
 * Value rules shared by the two GUI handle implementations (viser/_gui.py and
 * viser/_gui_handles.py) and the legacy message API: Python's type conversion
 * `type(current)(value)`, numpy-array assignment, Python equality of values, and the
 * dropdown's reconciliation of a value with a new option list.
 */
module HandleRules {
  import opened Wrappers
  import opened ServerMessages
  import Text

  /** The Python type of a GUI value: `bool`, `str`, `int`, `float` or `tuple`. */
  datatype Kind = BoolKind | StrKind | IntKind | FloatKind | TupleKind

  function KindOf(v: Value): Kind
  {
    match v
    case Flag(_) => BoolKind
    case Text(_) => StrKind
    case Number(IntN(_)) => IntKind
    case Number(FloatN(_)) => FloatKind
    case Vector(_) => TupleKind
  }

  /**
   * Values that `k(value)` converts without leaving the input's own kind of value: every
   * value converts to its own kind, and only numbers convert to another (int or float).
   */
  function Compatible(k: Kind, v: Value): (r: bool)
    ensures KindOf(v) == k ==> r
    ensures r && KindOf(v) != k ==> v.Number? && (k == IntKind || k == FloatKind)
  {
    KindOf(v) == k || ((k == IntKind || k == FloatKind) && v.Number?)
  }

  /** Python's `int(r)` on a float: truncation toward zero. */
  function TruncToInt(r: real): (n: int)
    ensures 0.0 <= r ==> 0 <= n && n as real <= r < n as real + 1.0
    ensures r < 0.0 ==> n <= 0 && n as real - 1.0 < r <= n as real
  {
    if r >= 0.0 then r.Floor else -((-r).Floor)
  }

  /** `k(v)`: the conversion the handles apply to every incoming or assigned value. */
  function Cast(k: Kind, v: Value): (r: Value)
    requires Compatible(k, v)
    ensures KindOf(r) == k
    ensures KindOf(v) == k ==> r == v
  {
    match k
    case IntKind => Number(IntN(if v.n.IntN? then v.n.i else TruncToInt(v.n.r)))
    case FloatKind => Number(FloatN(ToReal(v.n)))
    case _ => v
  }

  /** Python's truth value of a GUI value: `bool(v)`. */
  predicate Truthy(v: Value)
  {
    match v
    case Flag(b) => b
    case Text(s) => |s| > 0
    case Number(n) => ToReal(n) != 0.0
    case Vector(xs) => |xs| > 0
  }

  predicate IsDigit(c: char)
  {
    '0' <= c <= '9'
  }

  predicate AllDigits(s: string)
  {
    forall i :: 0 <= i < |s| ==> IsDigit(s[i])
  }

  function DigitChar(d: nat): (c: char)
    requires d < 10
    ensures IsDigit(c) && c as int - '0' as int == d
  {
    ('0' as int + d) as char
  }

  /** The number a string of decimal digits denotes. */
  function DigitsValue(s: string): nat
    requires AllDigits(s)
  {
    if |s| == 0 then 0 else DigitsValue(s[..|s| - 1]) * 10 + (s[|s| - 1] as int - '0' as int)
  }

  /** The value of the digits after a decimal point. */
  function FractionValue(s: string): real
    requires AllDigits(s)
  {
    if |s| == 0 then 0.0 else ((s[0] as int - '0' as int) as real + FractionValue(s[1..])) / 10.0
  }

  /** `str(n)` of a natural number: its decimal digits, without leading zeros. */
  function DecimalText(n: nat): (s: string)
    ensures |s| > 0 && AllDigits(s)
  {
    if n < 10 then [DigitChar(n)] else DecimalText(n / 10) + [DigitChar(n % 10)]
  }

  /** `str(i)` of an int. */
  function IntText(i: int): string
  {
    if i < 0 then "-" + DecimalText(-i) else DecimalText(i)
  }

  /** At most `fuel` digits of a fraction in [0, 1), without trailing zeros. */
  function FractionText(f: real, fuel: nat): string
    requires 0.0 <= f < 1.0
    decreases fuel
  {
    if f == 0.0 || fuel == 0 then ""
    else
      var d := (f * 10.0).Floor;
      [DigitChar(d)] + FractionText(f * 10.0 - d as real, fuel - 1)
  }

  /** `str(x)` of a float, written as its whole part, a point and up to 17 digits of fraction. */
  function FloatText(x: real): string
  {
    var m := if x < 0.0 then -x else x;
    var f := m - m.Floor as real;
    (if x < 0.0 then "-" else "") + DecimalText(m.Floor) + "." + (if f == 0.0 then "0" else FractionText(f, 17))
  }

  function NumText(n: Num): string
  {
    match n
    case IntN(i) => IntText(i)
    case FloatN(x) => FloatText(x)
  }

  /** The items of a tuple, separated by ", ". */
  function ItemsText(xs: seq<Num>): string
  {
    if |xs| == 0 then ""
    else if |xs| == 1 then NumText(xs[0])
    else NumText(xs[0]) + ", " + ItemsText(xs[1..])
  }

  /** `str(v)` of a GUI value. */
  function PyStr(v: Value): string
  {
    match v
    case Flag(b) => if b then "True" else "False"
    case Text(s) => s
    case Number(n) => NumText(n)
    case Vector(xs) => "(" + ItemsText(xs) + (if |xs| == 1 then ",)" else ")")
  }

  /** `int(s)` of a string: an optional sign and at least one decimal digit. */
  function ParseInt(s: string): Option<int>
  {
    var signed := |s| > 0 && (s[0] == '-' || s[0] == '+');
    var digits := if signed then s[1..] else s;
    if |digits| > 0 && AllDigits(digits) then
      Some(if signed && s[0] == '-' then -(DigitsValue(digits) as int) else DigitsValue(digits))
    else None
  }

  /** `float(s)` of a string: an optional sign, digits, and a point with digits after it. */
  function ParseFloat(s: string): Option<real>
  {
    var signed := |s| > 0 && (s[0] == '-' || s[0] == '+');
    var body := if signed then s[1..] else s;
    var whole := Text.BeforeFirst(body, '.');
    var frac := if |whole| < |body| then body[|whole| + 1..] else "";
    if AllDigits(whole) && AllDigits(frac) && |whole| + |frac| > 0 then
      var x := DigitsValue(whole) as real + FractionValue(frac);
      Some(if signed && s[0] == '-' then -x else x)
    else None
  }

  /** The messages of the exceptions a conversion raises. */
  const NotAnInt := "invalid literal for int()"
  const NotAFloat := "could not convert string to float"
  const NotANumber := "argument must be a string or a number"
  const NotIterable := "object is not iterable"
  const CharacterTuple := "a tuple of characters is not a GUI value"

  /**
   * The conversions `k(v)` that raise: `int` or `float` of a tuple (TypeError) or of a
   * string that is not a number (ValueError), and `tuple` of a bool or a number
   * (TypeError).
   */
  predicate Raises(k: Kind, v: Value)
  {
    match k
    case IntKind => v.Vector? || (v.Text? && ParseInt(v.s).None?)
    case FloatKind => v.Vector? || (v.Text? && ParseFloat(v.s).None?)
    case TupleKind => v.Flag? || v.Number?
    case _ => false
  }

  /**
   * `k(v)` on any value: `Cast` where the value is compatible; `bool` by truth value;
   * `str` as Python writes the value; `int` and `float` of a bool as 0 or 1 and of a
   * number literal by its value; an error where Python raises.
   */
  function Convert(k: Kind, v: Value): (r: Result<Value>)
    ensures Compatible(k, v) ==> r == Ok(Cast(k, v))
    ensures r.Err? <==> Raises(k, v) || (k == TupleKind && v.Text?)
    ensures r.Ok? ==> KindOf(r.value) == k
    ensures k == BoolKind ==> r == Ok(Flag(Truthy(v)))
    ensures k == StrKind ==> r == Ok(Text(PyStr(v)))
    ensures (k == IntKind || k == FloatKind) && v.Flag? ==> r.Ok? && ToReal(r.value.n) == if v.b then 1.0 else 0.0
    ensures k == IntKind && v.Text? && r.Ok? ==> ToReal(r.value.n) == ParseInt(v.s).value as real
    ensures k == FloatKind && v.Text? && r.Ok? ==> ToReal(r.value.n) == ParseFloat(v.s).value
  {
    match k
    case BoolKind => Ok(Flag(Truthy(v)))
    case StrKind => Ok(Text(PyStr(v)))
    case IntKind => (
      match v
      case Flag(b) => Ok(Number(IntN(if b then 1 else 0)))
      case Text(s) =>
        if ParseInt(s).Some? then Ok(Number(IntN(ParseInt(s).value))) else Err(NotAnInt)
      case Number(_) => Ok(Cast(k, v))
      case Vector(_) => Err(NotANumber))
    case FloatKind => (
      match v
      case Flag(b) => Ok(Number(FloatN(if b then 1.0 else 0.0)))
      case Text(s) =>
        if ParseFloat(s).Some? then Ok(Number(FloatN(ParseFloat(s).value))) else Err(NotAFloat)
      case Number(_) => Ok(Cast(k, v))
      case Vector(_) => Err(NotANumber))
    case TupleKind =>
      match v
      case Vector(_) => Ok(v)
      case Text(_) => Err(CharacterTuple)
      case _ => Err(NotIterable)
  }

  /** Reading back the digits of a natural number gives the number. */
  lemma {:induction false} DecimalRoundTrip(n: nat)
    ensures DigitsValue(DecimalText(n)) == n
  {
    if n >= 10 {
      var s := DecimalText(n);
      assert s[..|s| - 1] == DecimalText(n / 10);
      DecimalRoundTrip(n / 10);
    }
  }

  /** `int(s)` reads back the text `str` writes for an int. */
  lemma ParseIntText(i: int)
    ensures ParseInt(IntText(i)) == Some(i)
  {
    var m := if i < 0 then -i else i;
    var d := DecimalText(m);
    DecimalRoundTrip(m);
    if i < 0 {
      var t := "-" + d;
      assert t[0] == '-' && t[1..] == d;
      assert ParseInt(t) == Some(-(DigitsValue(d) as int));
    } else {
      assert IsDigit(d[0]);
      assert ParseInt(d) == Some(DigitsValue(d));
    }
  }

  /** `int(str(i)) == i`: an int written as text by `str` converts back to itself. */
  lemma IntTextRoundTrip(i: int)
    ensures Convert(StrKind, Number(IntN(i))) == Ok(Text(IntText(i)))
    ensures Convert(IntKind, Text(IntText(i))) == Ok(Number(IntN(i)))
  {
    ParseIntText(i);
    var r := Convert(IntKind, Text(IntText(i)));
    assert !Raises(IntKind, Text(IntText(i)));
    assert r.Ok? && KindOf(r.value) == IntKind && ToReal(r.value.n) == i as real;
  }

  /** Converting a converted value again to the same type changes nothing. */
  lemma ConvertIdempotent(k: Kind, v: Value)
    requires Convert(k, v).Ok?
    ensures Convert(k, Convert(k, v).value) == Convert(k, v)
  {
  }

  /**
   * Python `==` on values: numbers (also inside tuples) compare by numeric value, so an
   * int equals the float of the same value; booleans and strings compare as themselves.
   */
  function PyEq(a: Value, b: Value): (r: bool)
    ensures a == b ==> r
    ensures a.Flag? || a.Text? ==> (r <==> a == b)
  {
    match (a, b)
    case (Number(x), Number(y)) => ToReal(x) == ToReal(y)
    case (Vector(xs), Vector(ys)) =>
      |xs| == |ys| && forall i :: 0 <= i < |xs| ==> ToReal(xs[i]) == ToReal(ys[i])
    case _ => a == b
  }

  /** Converting twice is converting once. */
  lemma CastIdempotent(k: Kind, v: Value)
    requires Compatible(k, v)
    ensures Compatible(k, Cast(k, v)) && Cast(k, Cast(k, v)) == Cast(k, v)
  {
  }

  /** A float conversion keeps the number; an int conversion keeps it exactly when it is whole. */
  lemma CastKeepsNumber(k: Kind, v: Value)
    requires (k == FloatKind || k == IntKind) && v.Number?
    ensures k == FloatKind ==> PyEq(Cast(k, v), v)
    ensures k == IntKind ==> (PyEq(Cast(k, v), v) <==> ToReal(v.n) == ToReal(v.n).Floor as real)
  {
    var c := Cast(k, v);
    assert c.Number? && PyEq(c, v) == (ToReal(c.n) == ToReal(v.n));
    if k == IntKind && v.n.FloatN? {
      var x := v.n.r;
      var t := TruncToInt(x);
      assert ToReal(c.n) == t as real;
      if x < 0.0 {
        WholeUnderNegation(x);
      }
    }
  }

  /** A real is whole exactly when its negation is. */
  lemma WholeUnderNegation(x: real)
    ensures (x.Floor as real == x) <==> ((-x).Floor as real == -x)
  {
    if x.Floor as real == x {
      assert -x == (-x.Floor) as real;
    }
    if (-x).Floor as real == -x {
      assert x == (-((-x).Floor)) as real;
    }
  }

  /** `value = tuple(map(float, value))` for a numpy array, after `assert len(shape) <= 1`. */
  datatype NdArray = NdArray(shape: seq<nat>, flat: seq<real>)

  function FromArray(a: NdArray): (r: Result<Value>)
    ensures r.Ok? <==> |a.shape| == 1
    ensures r.Ok? ==>
              && r.value.Vector? && |r.value.xs| == |a.flat|
              && forall i :: 0 <= i < |a.flat| ==> r.value.xs[i] == FloatN(a.flat[i])
  {
    if |a.shape| > 1 then Err("array should be at most 1D")
    else if |a.shape| == 0 then Err("iteration over a 0-d array")
    else Ok(Vector(seq(|a.flat|, i requires 0 <= i < |a.flat| => FloatN(a.flat[i]))))
  }

  /** What is assigned to a handle's `value`: a plain value or a numpy array. */
  datatype Assigned = Plain(v: Value) | Array(a: NdArray)

  function Assignment(x: Assigned): Result<Value>
  {
    match x
    case Plain(v) => Ok(v)
    case Array(a) => FromArray(a)
  }

  /**
   * A dropdown's value after its options change: kept when still an option, otherwise
   * `options[0]`; `None` is the IndexError of an empty option list.
   */
  function Reconciled(current: string, options: seq<string>): (r: Option<string>)
    ensures r.Some? <==> |options| > 0
    ensures r.Some? ==> r.value in options && (r.value == current <==> current in options)
  {
    if current in options then Some(current)
    else if |options| == 0 then None
    else Some(options[0])
  }
}
