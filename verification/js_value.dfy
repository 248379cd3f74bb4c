/**
 JSON-shaped JavaScript values as the Jabber code sees them: request bodies,
 upstream payloads and responses read back by the browser. JavaScript's
 truthiness, `a || b`, property reads and `String(v)` are written out here.
 */
module JsValue {
  import opened JsString

  datatype Value =
    | Undefined
    | Null
    | Bool(b: bool)
    | Num(n: int)
    | Str(s: string)
    | Arr(elems: seq<Value>)
    | Obj(fields: map<string, Value>)

  /** JavaScript truthiness: `undefined`, `null`, `false`, `0` and `""` are falsy. */
  predicate Truthy(v: Value) {
    match v
    case Undefined => false
    case Null => false
    case Bool(b) => b
    case Num(n) => n != 0
    case Str(s) => s != ""
    case Arr(_) => true
    case Obj(_) => true
  }

  /** `undefined` or `null`: reading a property of it throws a TypeError. */
  predicate IsNullish(v: Value) {
    v.Undefined? || v.Null?
  }

  /** A string that is truthy: the check `!x || typeof x !== "string"` rejects everything else. */
  predicate IsNonEmptyStr(v: Value) {
    v.Str? && v.s != ""
  }

  /** `a || b` */
  function Or(a: Value, b: Value): Value {
    if Truthy(a) then a else b
  }

  /** `a && b` */
  function And(a: Value, b: Value): Value {
    if Truthy(a) then b else a
  }

  /**
   `v?.[key]`: the own property `key` of an object, the `length` of a string
   or array, and `undefined` for everything else (including `null`).
   */
  function Get(v: Value, key: string): Value {
    match v
    case Obj(m) => if key in m then m[key] else Undefined
    case Str(s) => if key == "length" then Num(|s|) else Undefined
    case Arr(a) => if key == "length" then Num(|a|) else Undefined
    case _ => Undefined
  }

  /** `v?.[i]`: an array element, a one-character string, or an object property named by the digits of `i`. */
  function At(v: Value, i: nat): Value {
    match v
    case Arr(a) => if i < |a| then a[i] else Undefined
    case Str(s) => if i < |s| then Str([s[i]]) else Undefined
    case Obj(_) => Get(v, NatToStr(i))
    case _ => Undefined
  }

  function Digit(d: nat): char
    requires d < 10
  {
    "0123456789"[d]
  }

  /** Decimal digits of `n`, without leading zeros. */
  function NatToStr(n: nat): (r: string)
    ensures |r| > 0
    ensures forall i :: 0 <= i < |r| ==> '0' <= r[i] <= '9'
    ensures |r| > 1 ==> r[0] != '0'
    decreases n
  {
    if n < 10 then [Digit(n)] else NatToStr(n / 10) + [Digit(n % 10)]
  }

  /** `String(n)` for an integer `n`. */
  function IntToStr(n: int): string {
    if n < 0 then "-" + NatToStr(-n) else NatToStr(n)
  }

  /**
   `String(v)`, which template literals and `+` with a string also use:
   arrays are joined with "," (with `null` and `undefined` elements as ""),
   plain objects print as "[object Object]". This is the text printed when
   printing does not throw, that is when `!PrintThrows(v)`.
   */
  function ToStr(v: Value): string
    decreases v
  {
    match v
    case Undefined => "undefined"
    case Null => "null"
    case Bool(b) => if b then "true" else "false"
    case Num(n) => IntToStr(n)
    case Str(s) => s
    case Arr(a) =>
      Join(seq(|a|, i requires 0 <= i < |a| => if IsNullish(a[i]) then "" else ToStr(a[i])), ",")
    case Obj(_) => "[object Object]"
  }

  /**
   `String(v)` throws a TypeError: `v` is an object with an own `toString`
   field, which in a JSON value is never a function (and the inherited
   `valueOf` gives back the object itself), or an array holding such a value
   at any depth, since an array prints by printing its elements.
   */
  predicate PrintThrows(v: Value)
    decreases v
  {
    match v
    case Obj(m) => "toString" in m
    case Arr(a) => exists i :: 0 <= i < |a| && PrintThrows(a[i])
    case _ => false
  }

  /** A JSON array of strings. */
  function Strings(ss: seq<string>): (r: Value)
    ensures r.Arr? && |r.elems| == |ss|
    ensures forall i :: 0 <= i < |ss| ==> r.elems[i] == Str(ss[i])
  {
    Arr(seq(|ss|, i requires 0 <= i < |ss| => Str(ss[i])))
  }
}

/** HTTP as the handlers and the browser see it: a status and a JSON body. */
module Http {
  import opened Options
  import opened JsValue

  datatype Response = Response(status: nat, body: Value)

  /** A `res.status(status).json(fields)` reply. */
  function Json(status: nat, fields: map<string, Value>): Response {
    Response(status, Obj(fields))
  }

  /** `res.status(400).json({ error })` */
  function BadRequest(error: string): (r: Response)
    ensures r.status == 400 && Get(r.body, "error") == Str(error)
  {
    Json(400, map["error" := Str(error)])
  }

  /** A `fetch` seen from the browser: the network failed, or a response arrived whose body may not be JSON. */
  datatype Fetched = Unreachable | Answered(ok: bool, body: Option<Value>)

  /** What the browser gets back when a handler answers with `r`; `resp.ok` means a 2xx status. */
  function Deliver(r: Response): (f: Fetched)
    ensures f.Answered? && f.body == Some(r.body)
    ensures f.ok <==> 200 <= r.status < 300
  {
    Answered(200 <= r.status < 300, Some(r.body))
  }
}
