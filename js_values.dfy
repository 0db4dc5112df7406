/** The slice of JavaScript value semantics the session and request layer relies on:
    JSON values, reading a property, truthiness, conversion to a string, the exceptions
    the layer can raise, and JSON text as an abstract codec. */
module JsValues {
  import Decimal

  datatype Option<+T> = None | Some(value: T)

  /** A value that JSON.parse can produce. Numbers are restricted to integers. */
  datatype Json =
    | JNull
    | JBool(b: bool)
    | JNum(n: int)
    | JStr(s: string)
    | JArr(items: seq<Json>)
    | JObj(fields: map<string, Json>)

  /** The result of reading a property: `undefined`, or a JSON value. */
  datatype Prop = Undefined | Present(value: Json)

  /** What the layer can throw. */
  datatype Exception =
    | Error(message: string)        // `new Error(message)`
    | SyntaxError                   // JSON.parse or Response.json() on text that is not JSON
    | TypeError                     // reading a property of `null`
    | ReferenceError(name: string)  // a global that does not exist in this context
    | Rejected(reason: string)      // an opaque failure raised inside fetch or axios

  /** A call that either returns a value or throws. */
  datatype Outcome<+T> = Ok(value: T) | Thrown(error: Exception)

  /** JavaScript's `!!v` on a JSON value. */
  predicate Truthy(v: Json) {
    match v
    case JNull => false
    case JBool(b) => b
    case JNum(n) => n != 0
    case JStr(s) => s != ""
    case JArr(_) => true
    case JObj(_) => true
  }

  /** `!!v.key` for a property that has been read. */
  predicate PropTruthy(p: Prop) {
    p.Present? && Truthy(p.value)
  }

  /** `v.key` for the keys this layer reads (`token`, `role`, `message`): only an object
      can hold them; `null` has no properties at all. */
  function GetProp(v: Json, key: string): (r: Outcome<Prop>)
    ensures r.Thrown? <==> v == JNull
    ensures r.Thrown? ==> r.error == TypeError
    ensures r.Ok? && r.value.Present? <==> v.JObj? && key in v.fields
    ensures r.Ok? && r.value.Present? ==> r.value.value == v.fields[key]
  {
    match v
    case JNull => Thrown(TypeError)
    case JObj(fields) => Ok(if key in fields then Present(fields[key]) else Undefined)
    case _ => Ok(Undefined)
  }

  /** `String(v)`: what `'...' + v` and `new Error(v)` make of a JSON value. A number is
      written in plain decimal, which matches JavaScript below 10^21. Any truthy value that
      is not an array gives non-empty text (TruthyTextNonEmpty). */
  function ToJsString(v: Json): string
    decreases v
  {
    match v
    case JNull => "null"
    case JBool(b) => if b then "true" else "false"
    case JNum(n) => Decimal.IntText(n)
    case JStr(s) => s
    case JArr(items) => Join(items)
    case JObj(_) => "[object Object]"
  }

  /** `items.join(",")`, where `null` elements become empty text. */
  function Join(items: seq<Json>): string
    decreases items
  {
    if |items| == 0 then ""
    else
      var last := items[|items| - 1];
      var text := if last == JNull then "" else ToJsString(last);
      if |items| == 1 then text else Join(items[..|items| - 1]) + "," + text
  }

  /** `String(p)` for a property that has been read. */
  function PropString(p: Prop): string {
    match p
    case Undefined => "undefined"
    case Present(v) => ToJsString(v)
  }

  /** A truthy value converts to non-empty text, unless it is an array:
      `String([])` and `String([null])` are both empty. */
  lemma TruthyTextNonEmpty(v: Json)
    requires Truthy(v) && !v.JArr?
    ensures ToJsString(v) != ""
  {
  }

  /** JSON text: JSON.stringify and JSON.parse, the latter failing on text that is not JSON. */
  datatype Codec = Codec(stringify: Json -> string, parse: string -> Option<Json>)

  /** What every JSON implementation guarantees: parsing what was stringified gives the
      value back, and the empty text is not JSON. */
  ghost predicate Lawful(c: Codec) {
    && (forall j :: c.parse(c.stringify(j)) == Some(j))
    && c.parse("") == None
  }

  /** `JSON.parse(text)`. Under a lawful codec, stringified text is never empty
      (StringifiedNonEmpty), so a saved reply always passes a truthiness test on its text. */
  function Parse(c: Codec, text: string): (r: Outcome<Json>)
    ensures r.Ok? <==> c.parse(text).Some?
    ensures r.Ok? ==> c.parse(text) == Some(r.value)
    ensures r.Thrown? ==> r.error == SyntaxError
  {
    match c.parse(text)
    case Some(j) => Ok(j)
    case None => Thrown(SyntaxError)
  }

  /** Stringified JSON is never empty, since the empty text does not parse. */
  lemma StringifiedNonEmpty(c: Codec, j: Json)
    requires Lawful(c)
    ensures c.stringify(j) != ""
  {
  }
}
