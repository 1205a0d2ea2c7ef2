/** The JavaScript values a request payload can carry, and the few pieces of
    JavaScript semantics the controllers rely on: property access on a plain
    object, truthiness (`!x`), `.length`, and `String(x)` inside a template
    literal. Numbers are integers. */
module JsonValues {
  import opened Text

  datatype Json =
    | Undefined
    | Null
    | Bool(b: bool)
    | Num(n: int)
    | Str(s: string)
    | Arr(items: seq<Json>)
    | Obj(props: map<string, Json>)

  /** A plain object: its own properties and their values. */
  type Record = map<string, Json>

  /** `r[key]`: `undefined` when the object has no such property. */
  function Get(r: Record, key: string): Json
  {
    if key in r then r[key] else Undefined
  }

  /** `v.key` where `v` may be any value: only objects have properties here
      (the property names arrays and strings carry are never read). */
  function Prop(v: Json, key: string): Json
  {
    if v.Obj? then Get(v.props, key) else Undefined
  }

  /** JavaScript truthiness: `undefined`, `null`, `false`, `0` and `""` are
      falsy, every array and object is truthy. */
  predicate Truthy(v: Json)
  {
    match v
    case Undefined => false
    case Null => false
    case Bool(b) => b
    case Num(n) => n != 0
    case Str(s) => s != ""
    case Arr(_) => true
    case Obj(_) => true
  }

  /** A boolean compared with a number: `true` is 1, `false` is 0. */
  function BoolToNumber(b: bool): int
  {
    if b then 1 else 0
  }

  /** `v.length` for a value known to be truthy. */
  function Length(v: Json): Json
  {
    match v
    case Arr(items) => Num(|items|)
    case Str(s) => Num(|s|)
    case Obj(props) => Get(props, "length")
    case _ => Undefined
  }

  /** `String(v)`, as a template literal `${v}` renders it. */
  function Display(v: Json): string
  {
    match v
    case Undefined => "undefined"
    case Null => "null"
    case Bool(b) => if b then "true" else "false"
    case Num(n) => IntToString(n)
    case Str(s) => s
    case Obj(_) => "[object Object]"
    case Arr(items) =>
      // Array.prototype.toString: elements joined by ",", null and undefined as ""
      Join(seq(|items|, i requires 0 <= i < |items| =>
                 if items[i].Undefined? || items[i].Null? then "" else Display(items[i])), ",")
  }

  /** `const { data = {} } = req.body`: the payload object every later stage
      reads. A `data` that is not an object has none of the properties the
      stages read, so it is taken as the empty object. */
  function RequestData(body: Json): Record
  {
    match Prop(body, "data")
    case Obj(props) => props
    case _ => map[]
  }
}
