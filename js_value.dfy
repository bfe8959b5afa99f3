/**
  JavaScript values as the resolvers and the merge helper see them: the
  primitive kinds, arrays, plain objects (their own properties) and function
  values. Truthiness, property reads (with the members every plain object
  inherits from Object.prototype), template-literal stringification and the
  keys a `for...in` loop enumerates are defined here once and shared by every
  other module.
 */
module JsValue {

  /** A JavaScript value. Numbers are integers; a function is identified by its source text. */
  datatype Value =
    | Undefined
    | Null
    | Bool(b: bool)
    | Num(n: int)
    | Str(s: string)
    | Arr(elems: seq<Value>)
    | Obj(props: Object)
    | Func(code: string)

  /** The own properties of a plain object. */
  type Object = map<string, Value>

  /** What a thrown exception carries. */
  datatype Error =
    | TypeError(property: string)   // reading `property` of null or undefined
    | Raised(reason: Value)         // a rejection coming from a delegated call

  datatype Result<T> = Ok(value: T) | Err(error: Error)

  datatype Option<T> = None | Some(value: T)

  /** JavaScript truthiness: `undefined`, `null`, `false`, `0` and `""` are falsy. */
  predicate Truthy(v: Value) {
    match v
    case Undefined => false
    case Null => false
    case Bool(b) => b
    case Num(n) => n != 0
    case Str(s) => s != ""
    case Arr(_) => true
    case Obj(_) => true
    case Func(_) => true
  }

  /** `x || y`: the left operand when it is truthy, otherwise the right one. */
  function Or(x: Value, y: Value): (r: Value)
    ensures Truthy(x) ==> r == x
    ensures !Truthy(x) ==> r == y
  {
    if Truthy(x) then x else y
  }

  predicate Nullish(v: Value) {
    v.Undefined? || v.Null?
  }

  // ---------------------------------------------------------------------
  // Object.prototype

  /** The members a plain object inherits from Object.prototype (`__proto__` is not modelled). */
  const PrototypeNames: set<string> := {
    "constructor", "hasOwnProperty", "isPrototypeOf", "propertyIsEnumerable",
    "toLocaleString", "toString", "valueOf",
    "__defineGetter__", "__defineSetter__", "__lookupGetter__", "__lookupSetter__"
  }

  /** `Object.prototype[key]`: a native function for the inherited names, `undefined` otherwise. */
  function ObjectPrototype(key: string): (r: Value)
    ensures r != Undefined <==> key in PrototypeNames
  {
    if key !in PrototypeNames then Undefined
    else if key == "constructor" then Func("function Object() { [native code] }")
    else Func("function " + key + "() { [native code] }")
  }

  /** `object[key]` on a plain object: the own property, else the inherited one. */
  function Lookup(o: Object, key: string): (r: Value)
    ensures key in o ==> r == o[key]
    ensures key !in o ==> r == ObjectPrototype(key)
  {
    if key in o then o[key] else ObjectPrototype(key)
  }

  /** `value.key` on any value. Reading a property of `null` or `undefined` throws a TypeError;
      the built-in properties of primitives and arrays are not modelled. */
  function GetProp(v: Value, key: string): (r: Result<Value>)
    ensures r.Err? <==> Nullish(v)
    ensures r.Err? ==> r.error == TypeError(key)
    ensures v.Obj? ==> r == Ok(Lookup(v.props, key))
  {
    match v
    case Undefined => Err(TypeError(key))
    case Null => Err(TypeError(key))
    case Obj(o) => Ok(Lookup(o, key))
    case _ => Ok(Undefined)
  }

  // ---------------------------------------------------------------------
  // Decimal numerals

  predicate IsDigit(c: char) {
    '0' <= c <= '9'
  }

  predicate AllDigits(s: string) {
    forall i :: 0 <= i < |s| ==> IsDigit(s[i])
  }

  function DigitChar(d: nat): (c: char)
    requires d < 10
    ensures IsDigit(c) && c as int - '0' as int == d
  {
    (d + '0' as int) as char
  }

  /** The shortest decimal numeral of `n`, as `String(n)` prints it. */
  function Decimal(n: nat): (s: string)
    ensures |s| > 0 && AllDigits(s)
    ensures (|s| == 1) == (n < 10)
  {
    if n < 10 then [DigitChar(n)] else Decimal(n / 10) + [DigitChar(n % 10)]
  }

  /** The value of a string of decimal digits. */
  function ParseDecimal(s: string): nat
    requires AllDigits(s)
  {
    if s == [] then 0
    else ParseDecimal(s[..|s| - 1]) * 10 + (s[|s| - 1] as int - '0' as int)
  }

  lemma {:induction false} ParseDecimalOfDecimal(n: nat)
    ensures ParseDecimal(Decimal(n)) == n
  {
    if n >= 10 {
      var s := Decimal(n);
      assert s[..|s| - 1] == Decimal(n / 10);
      ParseDecimalOfDecimal(n / 10);
    }
  }

  lemma DecimalInjective()
    ensures forall a: nat, b: nat :: Decimal(a) == Decimal(b) ==> a == b
  {
    forall a: nat, b: nat | Decimal(a) == Decimal(b) ensures a == b {
      ParseDecimalOfDecimal(a);
      ParseDecimalOfDecimal(b);
    }
  }

  function NumberToString(n: int): string {
    if n < 0 then "-" + Decimal(-n) else Decimal(n)
  }

  // ---------------------------------------------------------------------
  // String(value), as a template literal `${value}` applies it

  /** `String(v)`: an object prints as "[object Object]", an array joins its
      elements with commas (null and undefined elements print as ""). */
  function ToStr(v: Value): string
    decreases v, if v.Arr? then |v.elems| + 1 else 0
  {
    match v
    case Undefined => "undefined"
    case Null => "null"
    case Bool(b) => if b then "true" else "false"
    case Num(n) => NumberToString(n)
    case Str(s) => s
    case Arr(es) => JoinElems(v, 0)
    case Obj(_) => "[object Object]"
    case Func(code) => code
  }

  function JoinElems(a: Value, i: nat): string
    requires a.Arr? && i <= |a.elems|
    decreases a, |a.elems| - i
  {
    if i == |a.elems| then ""
    else
      var e := a.elems[i];
      (if i == 0 then "" else ",") + (if Nullish(e) then "" else ToStr(e)) + JoinElems(a, i + 1)
  }

  // ---------------------------------------------------------------------
  // for...in over Object(source)

  /** The keys `for (key in Object(v))` visits, with the value `Object(v)[key]` of each:
      an object's own properties, the indices of an array or a string, nothing for the rest. */
  function Enumerable(v: Value): (m: Object)
    ensures v.Obj? ==> m == v.props
    ensures !(v.Obj? || v.Arr? || v.Str?) ==> m == map[]
  {
    DecimalInjective();
    match v
    case Obj(o) => o
    case Arr(es) => map i | 0 <= i < |es| :: Decimal(i) := es[i]
    case Str(s) => map i | 0 <= i < |s| :: Decimal(i) := Str([s[i]])
    case _ => map[]
  }
}
