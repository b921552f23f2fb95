/** JSON-like values as the tool layer sees them after the request body has been
    parsed: the argument bag of a tool call and the payload of a translated request.

    JavaScript `undefined` is not a value here: a key whose value would be
    `undefined` is simply absent from the map (JSON serialisation and deep
    equality both drop such keys), and an argument that was not supplied is
    `None` when looked up. */
module Json {

  datatype Option<+T> = None | Some(value: T) {
    function GetOr(default: T): T {
      match this
      case Some(v) => v
      case None => default
    }
  }

  /** A JavaScript value reachable from parsed JSON. Numbers are kept as reals;
      NaN and the two infinities are explicit, because the guards classify them. */
  datatype JValue =
    | JNull
    | JBool(b: bool)
    | JNum(n: real)
    | JNaN
    | JInf(negative: bool)
    | JStr(s: string)
    | JArr(items: seq<JValue>)
    | JObj(fields: map<string, JValue>)

  /** A plain object: the argument bag, a payload, a `fields` or `filter` bag. */
  type Obj = map<string, JValue>

  /** `typeof v === 'number'` */
  predicate IsNumber(v: JValue) {
    v.JNum? || v.JNaN? || v.JInf?
  }

  /** JavaScript truthiness (`!!v`). */
  predicate Truthy(v: JValue) {
    match v
    case JNull => false
    case JBool(b) => b
    case JNum(n) => n != 0.0
    case JNaN => false
    case JInf(_) => true
    case JStr(s) => s != ""
    case JArr(_) => true
    case JObj(_) => true
  }

  /** Property read `o.k` on a plain object: `None` is `undefined`. */
  function Get(o: Obj, k: string): (r: Option<JValue>)
    ensures r.Some? <==> k in o
    ensures r.Some? ==> r.value == o[k]
  {
    if k in o then Some(o[k]) else None
  }

  /** `undefined` or `null`: the "absent" case of every optional guard. */
  predicate Missing(v: Option<JValue>) {
    v.None? || v.value.JNull?
  }

  /** `x || d` where `x` may be `undefined`. */
  function Or(x: Option<JValue>, d: JValue): (r: JValue)
    ensures x.Some? && Truthy(x.value) ==> r == x.value
    ensures !(x.Some? && Truthy(x.value)) ==> r == d
  {
    if x.Some? && Truthy(x.value) then x.value else d
  }

  /** `typeof x === 'number' ? x : undefined` */
  function NumberOrUndefined(x: Option<JValue>): (r: Option<JValue>)
    ensures r.Some? <==> x.Some? && IsNumber(x.value)
    ensures r.Some? ==> r == x
  {
    if x.Some? && IsNumber(x.value) then x else None
  }

  /** `{ ...m, [k]: v }` where `v` may be `undefined`: an undefined value
      leaves no key behind. Also models `if (v) { m[k] = v; }` for values
      that are always truthy when present. */
  function Put(m: Obj, k: string, v: Option<JValue>): (r: Obj)
    ensures v.Some? ==> r == m[k := v.value]
    ensures v.None? ==> r == m
  {
    if v.Some? then m[k := v.value] else m
  }

  function StrOpt(s: Option<string>): (r: Option<JValue>)
    ensures r.Some? <==> s.Some?
    ensures s.Some? ==> r == Some(JStr(s.value))
  {
    if s.Some? then Some(JStr(s.value)) else None
  }

  function ObjOpt(o: Option<Obj>): (r: Option<JValue>)
    ensures r.Some? <==> o.Some?
    ensures o.Some? ==> r == Some(JObj(o.value))
  {
    if o.Some? then Some(JObj(o.value)) else None
  }

  function StrArray(xs: seq<string>): (r: seq<JValue>)
    ensures |r| == |xs|
    ensures forall i :: 0 <= i < |xs| ==> r[i] == JStr(xs[i])
  {
    seq(|xs|, i requires 0 <= i < |xs| => JStr(xs[i]))
  }
}
