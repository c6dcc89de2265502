/**
 * The JSON values the client receives and sends, and the codec it calls.
 * Parsing and serialising belong to Ruby's json library and are parameters of
 * the model: `Codec` carries them as functions.
 */
module Json {

  datatype Json =
    | JNull
    | JBool(b: bool)
    | JInt(i: int)
    | JStr(s: string)
    | JArr(items: seq<Json>)
    | JObj(fields: map<string, Json>)

  /** What `JSON.parse` does with a body: a value, or the exception it raises (class name and message). */
  datatype Parse = Parsed(value: Json) | Unparsable(className: string, message: string)

  /**
   * The library functions the client depends on: `JSON.parse`, `to_json`, and
   * Ruby's `inspect` rendering of an Array or Hash (which `to_s` uses when such
   * a value is interpolated into a message).
   */
  datatype Codec = Codec(parse: string -> Parse, serialize: Json -> string, inspect: Json -> string)
}
