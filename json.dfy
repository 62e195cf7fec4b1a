/** The JSON-like values the transport hands back after parsing a reply body.
    An object is a dictionary: each key occurs once. */
module Json {

  datatype Value =
    | JNull
    | JBool(b: bool)
    | JNum(n: int)
    | JStr(s: string)
    | JArr(elems: seq<Value>)
    | JObj(members: map<string, Value>)
}
