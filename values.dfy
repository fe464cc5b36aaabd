/** Values that travel through the facade untyped (Go: any): key/value
    arguments of a log call and the members of a decoded event. */
module Values {

  newtype byte = x: int | 0 <= x < 256

  datatype Value =
    | VString(s: string)
    | VNumber(n: real)
    | VBool(b: bool)
    | VNull
    | VArray(items: seq<Value>)
    | VObject(members: map<string, Value>)
}
