/** The Python values that the demo scripts pass around: the dictionaries the
    mock backends return, the parsed tool-call arguments, and the operations on
    them that the scripts rely on (`dict.get`, truthiness, `==`, `str(int)`). */
module PyValues {

  datatype Option<T> = None | Some(value: T)

  /** A JSON-like Python value. Python floats are modelled as exact reals. */
  datatype Value =
    | Nothing                          // Python None
    | Bool(b: bool)
    | Int(i: int)
    | Float(x: real)
    | Str(s: string)
    | List(items: seq<Value>)
    | Dict(entries: map<string, Value>)

  /** A Python dict with string keys, such as a backend's result. */
  type Record = map<string, Value>

  /** `d.get(key)`: the stored value, or None when the key is absent. */
  function Get(d: Record, key: string): Value
  {
    if key in d then d[key] else Nothing
  }

  /** Python truthiness (`bool(v)`). */
  predicate Truthy(v: Value)
  {
    match v
    case Nothing => false
    case Bool(b) => b
    case Int(i) => i != 0
    case Float(x) => x != 0.0
    case Str(s) => s != ""
    case List(xs) => xs != []
    case Dict(m) => m != map[]
  }

  /** Truthiness of an optional string (`None` and `""` are falsy). */
  predicate TruthyText(o: Option<string>)
  {
    o.Some? && o.value != ""
  }

  predicate IsNumber(v: Value)
  {
    v.Bool? || v.Int? || v.Float?
  }

  function NumericValue(v: Value): real
    requires IsNumber(v)
  {
    match v
    case Bool(b) => if b then 1.0 else 0.0
    case Int(i) => i as real
    case Float(x) => x
  }

  /** Python `a == b` on these values: booleans, integers and floats compare by
      numeric value (`True == 1 == 1.0`), containers compare element-wise, and
      values of unrelated kinds are unequal. */
  predicate Equal(a: Value, b: Value)
  {
    match (a, b)
    case (Nothing, Nothing) => true
    case (Str(x), Str(y)) => x == y
    case (List(xs), List(ys)) =>
      |xs| == |ys| && forall i :: 0 <= i < |xs| ==> Equal(xs[i], ys[i])
    case (Dict(m), Dict(n)) =>
      m.Keys == n.Keys && forall k :: k in m ==> Equal(m[k], n[k])
    case _ => IsNumber(a) && IsNumber(b) && NumericValue(a) == NumericValue(b)
  }

  /** Every value equals itself under Python `==` (there is no NaN here). */
  lemma {:induction false} EqualReflexive(v: Value)
    ensures Equal(v, v)
  {
    match v
    case List(xs) =>
      forall i | 0 <= i < |xs| ensures Equal(xs[i], xs[i]) {
        EqualReflexive(xs[i]);
      }
    case Dict(m) =>
      forall k | k in m ensures Equal(m[k], m[k]) {
        EqualReflexive(m[k]);
      }
    case _ =>
  }

  /** A string equals exactly the same string and nothing else. */
  lemma EqualString(s: string, v: Value)
    ensures Equal(v, Str(s)) <==> v == Str(s)
  {
  }

  function DigitChar(d: nat): (c: char)
    requires d < 10
    ensures '0' <= c <= '9'
  {
    "0123456789"[d]
  }

  /** Decimal digits of a natural number, as `str(n)` writes them. */
  function NatToDecimal(n: nat): (s: string)
    ensures s != []
    ensures forall i :: 0 <= i < |s| ==> '0' <= s[i] <= '9'
    decreases n
  {
    if n < 10 then [DigitChar(n)] else NatToDecimal(n / 10) + [DigitChar(n % 10)]
  }

  /** `str(i)` for a Python int: a minus sign before the digits of a negative. */
  function IntToDecimal(i: int): (s: string)
    ensures s != []
    ensures (s[0] == '-') <==> i < 0
  {
    if i < 0 then "-" + NatToDecimal(-i) else NatToDecimal(i)
  }

  /** The number a string of decimal digits denotes (the reference reading). */
  function DecimalValue(s: string): nat
    requires forall i :: 0 <= i < |s| ==> '0' <= s[i] <= '9'
  {
    if s == [] then 0
    else 10 * DecimalValue(s[..|s| - 1]) + (s[|s| - 1] - '0') as nat
  }

  /** Reading back the digits `str(n)` writes gives `n` again. */
  lemma {:induction false} NatToDecimalRoundTrip(n: nat)
    ensures DecimalValue(NatToDecimal(n)) == n
    decreases n
  {
    var s := NatToDecimal(n);
    if n < 10 {
      assert s[..|s| - 1] == [];
    } else {
      NatToDecimalRoundTrip(n / 10);
      assert s[..|s| - 1] == NatToDecimal(n / 10);
    }
  }

  lemma NatToDecimalInjective(a: nat, b: nat)
    requires NatToDecimal(a) == NatToDecimal(b)
    ensures a == b
  {
    NatToDecimalRoundTrip(a);
    NatToDecimalRoundTrip(b);
  }

  /** Distinct integers are written differently. */
  lemma IntToDecimalInjective(i: int, j: int)
    requires IntToDecimal(i) == IntToDecimal(j)
    ensures i == j
  {
    var s := IntToDecimal(i);
    if i < 0 {
      assert j < 0;
      assert s[1..] == NatToDecimal(-i) && s[1..] == NatToDecimal(-j);
      NatToDecimalInjective(-i, -j);
    } else {
      assert j >= 0;
      NatToDecimalInjective(i, j);
    }
  }
}
