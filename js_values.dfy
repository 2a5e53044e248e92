/** The fragment of JavaScript's value semantics that the window manager
 *  relies on: plain values, truthiness, property reads, object spread and
 *  string conversion. */
module JsValues {

  /** A JavaScript value. Numbers are integers; `Func` is a function object
   *  known only by its identity; `Obj` is a plain object given by its own
   *  enumerable properties (key order is not modelled). */
  datatype Value =
    | Undefined
    | Null
    | Bool(b: bool)
    | Num(n: int)
    | Str(s: string)
    | Arr(items: seq<Value>)
    | Obj(props: map<string, Value>)
    | Func(ref: nat)

  /** The own properties of a plain object. */
  type Props = map<string, Value>

  /** JavaScript truthiness (`!!v`). */
  predicate Truthy(v: Value)
  {
    match v
    case Undefined => false
    case Null => false
    case Bool(b) => b
    case Num(n) => n != 0
    case Str(s) => s != ""
    case _ => true
  }

  /** `v == null` in JavaScript: the values a destructuring pattern rejects. */
  predicate Nullish(v: Value)
  {
    v.Undefined? || v.Null?
  }

  /** Reading property `k` of an object: `undefined` when it is absent. */
  function Get(m: Props, k: string): Value
  {
    if k in m then m[k] else Undefined
  }

  /** `v[k]` for any value; only plain objects have own named properties here. */
  function Prop(v: Value, k: string): Value
  {
    if v.Obj? then Get(v.props, k) else Undefined
  }

  /** The properties `{...v}` copies. `undefined`, `null`, booleans, numbers
   *  and functions contribute none. */
  function Spread(v: Value): (m: Props)
    ensures !v.Obj? && !v.Str? && !v.Arr? ==> m == map[]
  {
    if v.Obj? then v.props else map[]
  }

  /** The decimal digits of a natural number. */
  function NatToString(n: nat): (s: string)
    ensures |s| >= 1
  {
    var d := ['0', '1', '2', '3', '4', '5', '6', '7', '8', '9'][n % 10];
    if n < 10 then [d] else NatToString(n / 10) + [d]
  }

  /** `"" + v`: the string a value turns into when it is concatenated. */
  function ToJsString(v: Value): string
    decreases v
  {
    match v
    case Undefined => "undefined"
    case Null => "null"
    case Bool(b) => if b then "true" else "false"
    case Num(n) => if n < 0 then "-" + NatToString(-n) else NatToString(n)
    case Str(s) => s
    case Arr(items) => JoinItems(items)
    case Obj(_) => "[object Object]"
    case Func(_) => "function"
  }

  /** `items.join(",")`, in which `null` and `undefined` become empty. */
  function JoinItems(items: seq<Value>): string
    decreases items
  {
    if items == [] then ""
    else
      var first := if Nullish(items[0]) then "" else ToJsString(items[0]);
      if |items| == 1 then first else first + "," + JoinItems(items[1..])
  }
}
