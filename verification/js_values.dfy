/**
 The slice of JavaScript value semantics the application's handlers depend on:
 JSON-shaped values plus `undefined`, truthiness, `typeof`, the `in` operator,
 property reads (which throw on `null` and `undefined`), `String(x)` and
 `Error` objects. Numbers are integers here; floating point is not modelled.
 */
module JsValues {
  import opened Optional

  /** A value as the handlers see it: anything `JSON.parse` can produce, or `undefined`. */
  datatype JsValue =
    | Undefined
    | Null
    | Bool(b: bool)
    | Num(n: int)
    | Str(s: string)
    | Arr(elems: seq<JsValue>)
    | Obj(props: map<string, JsValue>)

  /** How an evaluation ends: with a value, or with a thrown value. */
  datatype Completion<+T> = Normal(value: T) | Throw(thrown: JsValue)

  /** The values that `if (v)`, `v && …` and `v || …` treat as true: all but the five falsy ones. */
  predicate Truthy(v: JsValue)
    ensures !Truthy(v) <==> v in [Undefined, Null, Bool(false), Num(0), Str("")]
  {
    match v
    case Undefined => false
    case Null => false
    case Bool(b) => b
    case Num(n) => n != 0
    case Str(s) => s != ""
    case Arr(_) => true
    case Obj(_) => true
  }

  /** The `typeof` operator; note that `typeof null` is "object". */
  function TypeOf(v: JsValue): (t: string)
    ensures t == "object" <==> v.Null? || v.Arr? || v.Obj?
    ensures t == "string" <==> v.Str?
  {
    match v
    case Undefined => "undefined"
    case Null => "object"
    case Bool(_) => "boolean"
    case Num(_) => "number"
    case Str(_) => "string"
    case Arr(_) => "object"
    case Obj(_) => "object"
  }

  function DigitChar(d: nat): char
    requires d < 10
  {
    "0123456789"[d]
  }

  predicate IsDigit(c: char)
  {
    '0' <= c <= '9'
  }

  /** Decimal notation of a natural number, without leading zeros. */
  function Decimal(n: nat): (s: string)
    ensures |s| > 0
    ensures forall i :: 0 <= i < |s| ==> IsDigit(s[i])
    ensures n > 0 ==> s[0] != '0'
    decreases n
  {
    if n < 10 then [DigitChar(n)] else Decimal(n / 10) + [DigitChar(n % 10)]
  }

  /** The numeric value of a string of decimal digits. */
  function DigitsValue(s: string): nat
    requires forall i :: 0 <= i < |s| ==> IsDigit(s[i])
    decreases |s|
  {
    if s == [] then 0
    else
      assert IsDigit(s[|s| - 1]);
      DigitsValue(s[..|s| - 1]) * 10 + ((s[|s| - 1] as int) - ('0' as int))
  }

  /**
   The array index a property key denotes, if any: a key is an index exactly
   when it is the canonical decimal spelling of a natural number.
   */
  function ArrayIndex(key: string): Option<nat>
  {
    if key != [] && (forall i :: 0 <= i < |key| ==> IsDigit(key[i])) && (key == "0" || key[0] != '0')
    then Some(DigitsValue(key))
    else None
  }

  /** Reading back the decimal spelling of a number gives the number. */
  lemma {:induction false} DigitsValueOfDecimal(n: nat)
    ensures DigitsValue(Decimal(n)) == n
    decreases n
  {
    var s := Decimal(n);
    if n >= 10 {
      DigitsValueOfDecimal(n / 10);
      assert s[..|s| - 1] == Decimal(n / 10);
    }
  }

  /** `a[i]` and `a["i"]` name the same element: the canonical spelling of `i` is index `i`. */
  lemma DecimalIsIndex(n: nat)
    ensures ArrayIndex(Decimal(n)) == Some(n)
  {
    DigitsValueOfDecimal(n);
  }

  /** The key "0" of `a[0]` is index 0. */
  lemma FirstIndexKey()
    ensures ArrayIndex("0") == Some(0)
  {
    DecimalIsIndex(0);
    assert Decimal(0) == "0";
  }

  /** The abstract operation `String(v)`, as `new Error(v)` applies it to its argument. */
  function ToString(v: JsValue): (s: string)
    ensures v.Str? ==> s == v.s
    ensures v.Obj? ==> s == "[object Object]"
    ensures v.Num? && v.n >= 0 ==> s == Decimal(v.n)
    decreases v
  {
    match v
    case Undefined => "undefined"
    case Null => "null"
    case Bool(b) => if b then "true" else "false"
    case Num(n) => if n < 0 then "-" + Decimal(-n) else Decimal(n)
    case Str(s) => s
    case Arr(elems) => JoinElements(elems)
    case Obj(_) => "[object Object]"
  }

  /** `Array.prototype.join(",")`: `null` and `undefined` elements print as empty. */
  function JoinElements(elems: seq<JsValue>): string
    decreases elems
  {
    if elems == [] then ""
    else
      var head := if elems[0].Undefined? || elems[0].Null? then "" else ToString(elems[0]);
      if |elems| == 1 then head else head + "," + JoinElements(elems[1..])
  }

  /** The object literal `{ key: value }`, as `JSON.stringify` writes it for a defined value. */
  function SingleField(key: string, value: JsValue): (o: JsValue)
    ensures o.Obj? && o.props.Keys == {key} && o.props[key] == value
  {
    Obj(map[key := value])
  }

  /** A fresh `Error`-like object as the runtime throws it. */
  function ErrorObject(name: string, message: string): (e: JsValue)
    ensures e.Obj? && "message" in e.props && e.props["message"] == Str(message)
  {
    Obj(map["name" := Str(name), "message" := Str(message)])
  }

  /** What V8 throws when a property is read from `null` or `undefined`. */
  function ReadError(base: string, key: string): JsValue
  {
    ErrorObject("TypeError", "Cannot read properties of " + base + " (reading '" + key + "')")
  }

  /** `base[key]` on an own data property; absent keys read as `undefined`. */
  function Get(base: JsValue, key: string): (r: Completion<JsValue>)
    ensures r.Throw? <==> base.Undefined? || base.Null?
    ensures base.Obj? ==> r == Normal(if key in base.props then base.props[key] else Undefined)
    ensures base.Arr? && ArrayIndex(key).Some? && ArrayIndex(key).value < |base.elems| ==>
              r == Normal(base.elems[ArrayIndex(key).value])
  {
    match base
    case Undefined => Throw(ReadError("undefined", key))
    case Null => Throw(ReadError("null", key))
    case Obj(props) => Normal(if key in props then props[key] else Undefined)
    case Arr(elems) =>
      Normal(
        if key == "length" then Num(|elems|)
        else match ArrayIndex(key)
          case Some(i) => if i < |elems| then elems[i] else Undefined
          case None => Undefined)
    case Str(s) =>
      Normal(
        if key == "length" then Num(|s|)
        else match ArrayIndex(key)
          case Some(i) => if i < |s| then Str([s[i]]) else Undefined
          case None => Undefined)
    case Bool(_) => Normal(Undefined)
    case Num(_) => Normal(Undefined)
  }

  /** The `in` operator; JavaScript only allows it on objects. */
  predicate HasProperty(v: JsValue, key: string)
    requires v.Arr? || v.Obj?
    ensures v.Obj? ==> (HasProperty(v, key) <==> key in v.props)
    ensures v.Arr? && ArrayIndex(key).Some? ==> (HasProperty(v, key) <==> ArrayIndex(key).value < |v.elems|)
  {
    match v
    case Obj(props) => key in props
    case Arr(elems) =>
      key == "length" || (ArrayIndex(key).Some? && ArrayIndex(key).value < |elems|)
  }

  /** `String(i) in a` holds exactly for the indices of `a`. */
  lemma IndexKeysPresent(elems: seq<JsValue>, n: nat)
    ensures HasProperty(Arr(elems), Decimal(n)) <==> n < |elems|
  {
    DecimalIsIndex(n);
  }
}
