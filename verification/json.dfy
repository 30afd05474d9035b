/**
  JSON values as JavaScript sees them after `JSON.parse`, the JavaScript
  operations the communication layer applies to them (property reads,
  truthiness), and the parse/stringify pair, which is left abstract.
 */
module Json {
  import opened Wrappers
  import JsText

  /** A parsed JSON value. Numbers are kept as reals; objects are maps because a
      JavaScript object holds each key once. */
  datatype Json =
    | JNull
    | JBool(b: bool)
    | JNum(n: real)
    | JStr(s: string)
    | JArr(items: seq<Json>)
    | JObj(fields: map<string, Json>)

  /** `v[key]` for a value that is not null: an own field of an object, or
      `undefined` (None) for every other value and every missing key. Reading a
      field of `null` throws; callers test `JNull?` first. */
  function Get(v: Json, key: string): (r: Option<Json>)
    ensures r.Some? <==> v.JObj? && key in v.fields
    ensures r.Some? ==> r.value == v.fields[key]
  {
    match v
    case JObj(fields) => if key in fields then Some(fields[key]) else None
    case _ => None
  }

  /** `v?.key`: optional chaining yields `undefined` for a missing or null value. */
  function GetOpt(v: Option<Json>, key: string): (r: Option<Json>)
    ensures v.None? || v == Some(JNull) ==> r.None?
    ensures v.Some? && !v.value.JNull? ==> r == Get(v.value, key)
  {
    match v
    case None => None
    case Some(JNull) => None
    case Some(x) => Get(x, key)
  }

  /** JavaScript truthiness of a possibly-undefined JSON value: `undefined`,
      `null`, `false`, `0` and `""` are falsy. */
  predicate Truthy(v: Option<Json>) {
    match v
    case None => false
    case Some(JNull) => false
    case Some(JBool(b)) => b
    case Some(JNum(n)) => n != 0.0
    case Some(JStr(s)) => s != ""
    case Some(JArr(_)) => true
    case Some(JObj(_)) => true
  }

  /** A string field compared with `===` against a string literal. */
  predicate IsString(v: Option<Json>, s: string) {
    v == Some(JStr(s))
  }

  /** `JSON.parse` (which may fail, hence the Option) and `JSON.stringify`. */
  datatype JsonCodec = JsonCodec(parse: string -> Option<Json>, stringify: Json -> string)

  /** `2^n`. */
  function Pow2(n: nat): (p: nat)
    ensures p >= 1
  {
    if n == 0 then 1 else 2 * Pow2(n - 1)
  }

  /** The number `m * 2^e`. */
  function Scaled(m: int, e: int): real {
    if e >= 0 then m as real * Pow2(e) as real else m as real / Pow2(-e) as real
  }

  /** A finite IEEE 754 double: a 53-bit significand times a power of two
      between the subnormal and the largest exponent. These are the numbers a
      JavaScript value can hold; NaN and the infinities are not JSON. */
  ghost predicate IsDouble(r: real) {
    exists m: int, e: int :: -0x20_0000_0000_0000 < m < 0x20_0000_0000_0000 && -1074 <= e <= 971 && r == Scaled(m, e)
  }

  /** A value JavaScript can hold and send: every number in it is a finite
      double. */
  ghost predicate OnWire(v: Json)
    decreases v
  {
    match v
    case JNum(n) => IsDouble(n)
    case JArr(items) => forall i :: 0 <= i < |items| ==> OnWire(items[i])
    case JObj(fields) => forall k :: k in fields ==> OnWire(fields[k])
    case _ => true
  }

  /** What the layer assumes of the runtime's JSON: the text `stringify` produces
      holds no raw line feed (line feeds inside strings are escaped) and is
      never empty or blank, and `parse` reads the text of every value on the
      wire back as the same value. Only countably many values are on the wire,
      so a codec of this kind exists; `JSON.parse` and `JSON.stringify` are one,
      because the shortest decimal text of a finite double reads back as that
      double. */
  ghost predicate Lawful(c: JsonCodec) {
    && (forall v: Json :: '\n' !in c.stringify(v) && !JsText.Blank(c.stringify(v)))
    && (forall v: Json | OnWire(v) :: c.parse(c.stringify(v)) == Some(v))
  }

  /** An object whose field values are all on the wire is on the wire. */
  lemma ObjectOnWire(fields: map<string, Json>)
    requires forall k :: k in fields ==> OnWire(fields[k])
    ensures OnWire(JObj(fields))
  {
  }

  /** Every safe integer (magnitude below 2^53) travels, so the hypothesis
      `OnWire` admits ids, counts and progress steps, and is not vacuous. */
  lemma SafeIntegerOnWire(n: int)
    requires -0x20_0000_0000_0000 < n < 0x20_0000_0000_0000
    ensures OnWire(JNum(n as real))
  {
    assert Scaled(n, 0) == n as real;
  }
}
