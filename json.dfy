/** JSON documents as the storage layer sees them once `JSON.parse` has succeeded.
    Objects are maps: key order never matters to the application. Numbers are integers
    in this model (see README, "Left out"). */
module JsonModel {
  import opened Wrappers

  datatype Json =
    | JNull
    | JBool(b: bool)
    | JNum(n: int)
    | JStr(s: string)
    | JArr(items: seq<Json>)
    | JObj(fields: map<string, Json>)

  /** JavaScript truthiness of a parsed value: `null`, `false`, `0` and `""` are falsy,
      every array and object is truthy. */
  predicate Truthy(j: Json) {
    match j
    case JNull => false
    case JBool(b) => b
    case JNum(n) => n != 0
    case JStr(s) => s != ""
    case JArr(_) => true
    case JObj(_) => true
  }

  /** The two halves of the JSON library: `JSON.parse` (None when it throws) and
      `JSON.stringify`. They are injected; the model only relies on the round trip. */
  datatype JsonCodec = JsonCodec(parse: string -> Option<Json>, stringify: Json -> string)

  /** Parsing what was stringified gives the value back, and the empty text does not
      parse (`JSON.parse("")` throws). */
  ghost predicate Lawful(c: JsonCodec) {
    && (forall j :: c.parse(c.stringify(j)) == Some(j))
    && c.parse("") == None
  }

  /** A lawful codec never produces the empty text. */
  lemma StringifyNonEmpty(c: JsonCodec, j: Json)
    requires Lawful(c)
    ensures c.stringify(j) != ""
  {
    assert c.parse(c.stringify(j)) == Some(j);
  }
}
