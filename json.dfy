/**
 * The JSON values exchanged with the CouchDB server and stored in realm
 * objects (`[String:AnyObject]` in the source). Numbers are integers here.
 */
module Json {

  datatype Json =
    | JNull
    | JBool(b: bool)
    | JNum(n: int)
    | JStr(s: string)
    | JArr(items: seq<Json>)
    | JObj(fields: map<string, Json>)

  /** A JSON object: a dictionary from keys to values. */
  type Dict = map<string, Json>
}
