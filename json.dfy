/** The untyped input a recipe document arrives as: a parsed JSON value. */
module Json {

  /**
   * A JSON value. Numbers are exact reals; the parsing of number literals to
   * doubles, and their overflow to infinity, are not modelled.
   * An object maps each key to its value; a key that is not in the map is what
   * JavaScript sees as `undefined`.
   */
  datatype Json =
    | JNull
    | JBool(b: bool)
    | JNum(n: real)
    | JStr(s: string)
    | JArr(items: seq<Json>)
    | JObj(fields: map<string, Json>)
}
