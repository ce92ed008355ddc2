/** The parse result (src/parser/value.rs). */
module Values {

  /**
   * A JSON value. A number keeps the lexeme the tokenizer accepted as a
   * 64-bit float; an object is a map, so a later duplicate key replaces an
   * earlier one and key order is not significant.
   */
  datatype JsonValue =
    | String(text: string)
    | Number(lexeme: string)
    | Boolean(b: bool)
    | Null
    | Array(items: seq<JsonValue>)
    | Object(members: map<string, JsonValue>)
}
