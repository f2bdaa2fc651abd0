/** JSON values as `json.loads` produces them and `json.dumps` consumes them.
    An object keeps its members in insertion order, as a Python dict does. */
module Json {
  datatype Json =
    | JNull
    | JBool(b: bool)
    | JInt(i: int)
    | JStr(s: string)
    | JArr(items: seq<Json>)
    | JObj(members: seq<(string, Json)>)
}
