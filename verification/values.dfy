/** The dynamically typed values that flow through the dashboard's forms,
    route state and store, with JavaScript's truthiness and the loose
    comparison against the empty string. */
module Values {

  /** A moment.js instant in milliseconds, or an invalid moment (what
      parsing an empty or malformed date string yields). */
  datatype Moment = Valid(ms: int) | Invalid

  /** The `paging` object the list screens send with every query. */
  datatype Paging = Paging(pageNum: int, pageSize: int, needTotal: bool)

  /** A time window produced by the shared duration builder: its raw start
      and end moments. */
  datatype Window = Window(start: Moment, end: Moment)

  datatype Value =
    | Undefined
    | Null
    | Bool(b: bool)
    | Num(n: int)
    | Str(s: string)
    | Picked(start: Moment, end: Moment)   // a range picker's [start, end] pair
    | Dur(window: Window)                  // a duration object (`values.duration`)
    | DurInput(window: Window)             // its query form (`duration.input`)
    | Pg(paging: Paging)                   // a paging object
    | Obj(ref: nat)                        // any other object, opaque

  /** A plain JavaScript object used as a record of named values. */
  type Record = map<string, Value>

  /** JavaScript truthiness (NaN is not modelled: numbers are integers). */
  predicate Truthy(v: Value) {
    match v
    case Undefined => false
    case Null => false
    case Bool(b) => b
    case Num(n) => n != 0
    case Str(s) => s != ""
    case _ => true
  }

  /** Property read: a missing property reads as `undefined`. */
  function Get(r: Record, key: string): (v: Value)
    ensures key !in r ==> v == Undefined
    ensures key in r ==> v == r[key]
  {
    if key in r then r[key] else Undefined
  }

  /** `v == ''` under JavaScript's loose equality: the empty string itself,
      and every value that converts to the number 0 (0 and false). Objects
      and the range pair never have an empty string form here. */
  predicate LooselyEmpty(v: Value) {
    match v
    case Str(s) => s == ""
    case Num(n) => n == 0
    case Bool(b) => !b
    case _ => false
  }

  /** What a `required` form rule accepts: anything but undefined, null and
      the empty string. */
  predicate FilledIn(v: Value) {
    !(v.Undefined? || v.Null? || v == Str(""))
  }

  /** `{...a, ...b}`: every property of `b` overrides the one of `a`. */
  function Spread(a: Record, b: Record): (r: Record)
    ensures r.Keys == a.Keys + b.Keys
    ensures forall k :: k in b ==> r[k] == b[k]
    ensures forall k :: k in a && k !in b ==> r[k] == a[k]
  {
    a + b
  }
}
