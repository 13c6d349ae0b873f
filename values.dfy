/**
  The values a configuration document holds and hands to synchronised fields,
  and the document itself, seen as a flat map from dotted path to value.
 */
module Values {

  /** Stands in for a Java reference that may be null. */
  datatype Option<+T> = None | Some(value: T)

  /**
    A value stored at a path of a configuration document. `Null` is Java's
    null; `Section` is a configuration section built by createSection. This
    is a representative subset of what YAML holds (no doubles, longs or
    serialised objects); the sync engine passes values through unexamined.
   */
  datatype Value =
    | Null
    | Bool(b: bool)
    | Int(i: int)
    | Str(s: string)
    | List(items: seq<Value>)
    | Section(entries: map<string, Value>)

  /** A loaded YAML document: what each dotted path is set to. */
  type Document = map<string, Value>
}
