/** Optional values, shared by the modules below. */
module Wrappers {

  /** An optional value; `None` also stands for a Python lookup that raises. */
  datatype Option<+T> = None | Some(value: T)
}

/**
 * The few Python built-ins that the webhook handler leans on, stated over the
 * values `json.loads` produces: `None`, `bool`, `int`, `str`, `list` and `dict`.
 */
module PyJson {
  import opened Wrappers

  /** A decoded JSON document as Python holds it. */
  datatype Json =
    | Null
    | Bool(b: bool)
    | Num(n: int)
    | Str(s: string)
    | Arr(items: seq<Json>)
    | Obj(fields: map<string, Json>)

  /** The `{}` literal that the handler passes as a default to `dict.get`. */
  const EmptyObj: Json := Obj(map[])

  /** Python's `bool(v)`: empty containers, `""`, `0`, `False` and `None` are false. */
  predicate Truthy(v: Json)
  {
    match v
    case Null => false
    case Bool(b) => b
    case Num(n) => n != 0
    case Str(s) => |s| > 0
    case Arr(a) => |a| > 0
    case Obj(m) => |m| > 0
  }

  /** Exactly six values are falsy; every other value, such as the string "false", is truthy. */
  lemma FalsyValues(v: Json)
    ensures !Truthy(v) <==> v in {Null, Bool(false), Num(0), Str(""), Arr([]), EmptyObj}
  {
    if v.Obj? && v.fields != map[] {
      var k :| k in v.fields;
      assert k in v.fields.Keys;
    }
  }

  /** `v[key]`: the value stored under `key`, or `None` when the subscript raises (not a dict, or no such key). */
  function Subscript(v: Json, key: string): Option<Json>
  {
    if v.Obj? && key in v.fields then Some(v.fields[key]) else None
  }

  /** `d.get(key, default)` on a dict `d`: the subscript, with `default` where it would raise. */
  function Get(d: map<string, Json>, key: string, default: Json): Json
  {
    match Subscript(Obj(d), key)
    case Some(x) => x
    case None => default
  }

  /** Python's `a or b`: the first operand when it is truthy, the second otherwise. */
  function Or(a: Json, b: Json): (r: Json)
    ensures r == a || r == b
    ensures Truthy(r) <==> Truthy(a) || Truthy(b)
    ensures Truthy(a) ==> r == a
    ensures !Truthy(a) ==> r == b
  {
    if Truthy(a) then a else b
  }

  /**
   * A lookup that never raises: the value at `key` when `v` is a dict that
   * holds it, `None` otherwise. It is the reference against which the
   * handler's chains of `.get(..., {})` are stated.
   */
  function Field(v: Json, key: string): Json
  {
    match Subscript(v, key)
    case Some(x) => x
    case None => Null
  }

  // ---------------------------------------------------------------------
  // str() of an integer

  predicate IsDigit(c: char) { '0' <= c <= '9' }

  function DigitChar(d: nat): (c: char)
    requires d < 10
    ensures IsDigit(c)
  {
    (48 + d) as char
  }

  function DigitValue(c: char): nat
    requires IsDigit(c)
  {
    c as int - 48
  }

  /** The decimal digits of `n`, without leading zeros. */
  function Digits(n: nat): (r: string)
    ensures |r| >= 1
    ensures forall i :: 0 <= i < |r| ==> IsDigit(r[i])
    ensures r[0] == '0' ==> n == 0 && r == "0"
    decreases n
  {
    if n < 10 then [DigitChar(n)] else Digits(n / 10) + [DigitChar(n % 10)]
  }

  /** The number a non-empty run of decimal digits denotes. */
  function DigitsValue(s: string): nat
    requires forall i :: 0 <= i < |s| ==> IsDigit(s[i])
    decreases |s|
  {
    if |s| == 0 then 0 else DigitsValue(s[..|s| - 1]) * 10 + DigitValue(s[|s| - 1])
  }

  /** Python's `str(i)` for an `int`: a minus sign for negatives, then the digits. */
  function Decimal(i: int): string
  {
    if i < 0 then "-" + Digits(-i) else Digits(i)
  }

  /** Python's `int(s)` on the strings `Decimal` produces. */
  function DecimalValue(s: string): int
    requires |s| >= 1
    requires forall i :: (if s[0] == '-' then 1 else 0) <= i < |s| ==> IsDigit(s[i])
  {
    if s[0] == '-' then -(DigitsValue(s[1..]) as int) else DigitsValue(s)
  }

  lemma {:induction false} DigitsRoundTrip(n: nat)
    ensures DigitsValue(Digits(n)) == n
    decreases n
  {
    if n >= 10 {
      DigitsRoundTrip(n / 10);
      var s := Digits(n);
      assert s[..|s| - 1] == Digits(n / 10);
      assert s[|s| - 1] == DigitChar(n % 10);
    }
  }

  /** `int(str(i)) == i`: the rendering of an integer loses nothing. */
  lemma DecimalRoundTrip(i: int)
    ensures |Decimal(i)| >= 1
    ensures forall k :: (if Decimal(i)[0] == '-' then 1 else 0) <= k < |Decimal(i)| ==> IsDigit(Decimal(i)[k])
    ensures DecimalValue(Decimal(i)) == i
  {
    var s := Decimal(i);
    if i < 0 {
      assert s[1..] == Digits(-i);
      DigitsRoundTrip(-i);
    } else {
      DigitsRoundTrip(i);
    }
  }

  /** Distinct integers render as distinct strings. */
  lemma DecimalInjective(a: int, b: int)
    requires Decimal(a) == Decimal(b)
    ensures a == b
  {
    DecimalRoundTrip(a);
    DecimalRoundTrip(b);
  }

  /**
   * Python's `str(v)`, which an f-string applies to what it interpolates.
   * `repr` is the interpreter's own rendering of a list or a dict.
   */
  function PyStr(v: Json, repr: Json -> string): string
  {
    match v
    case Null => "None"
    case Bool(b) => if b then "True" else "False"
    case Num(n) => Decimal(n)
    case Str(s) => s
    case Arr(_) => repr(v)
    case Obj(_) => repr(v)
  }
}
