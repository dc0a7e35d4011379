/**
 * The parsed manifest: a tagged-union tree standing for what the YAML
 * library produces when a document is decoded into untyped Go values
 * (nested mappings, sequences and scalars).
 */
module Document {

  datatype Value =
    | Map(entries: map<string, Value>)
    | Seq(items: seq<Value>)
    | Str(s: string)
    | Int(i: int)
    | Bool(b: bool)
    | Null

  /** A whole manifest: its top level is always a mapping with string keys. */
  type Doc = map<string, Value>
}
