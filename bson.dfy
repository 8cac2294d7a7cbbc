/** The values a document of the store (and a decoded JSON object) can hold. */
module Bson {

  /** A document value: Python's None, bool, int, string, list and dict. */
  datatype Value =
    | Null
    | Bool(b: bool)
    | Int(i: int)
    | Str(s: string)
    | List(items: seq<Value>)
    | Obj(fields: map<string, Value>)

  /** A document, or a query over documents: a dictionary keyed by field name. */
  type Doc = map<string, Value>
}
