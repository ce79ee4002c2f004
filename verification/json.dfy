/** The document the analyzer receives: a parsed JSON (or YAML) tree. */
module Json {
  import opened Text

  /** A parsed configuration value. Numbers are integers; an object keeps its members
      in insertion order. */
  datatype Doc =
    | Null
    | Bool(b: bool)
    | Num(n: int)
    | Str(s: string)
    | Arr(items: seq<Doc>)
    | Obj(members: seq<Member>)

  datatype Member = Member(key: string, value: Doc)

  /** JavaScript truthiness of a property read: a missing property (`None`), `null`,
      `false`, `0` and `""` are falsy; every other value, `[]` and `{}` included, is truthy. */
  predicate Truthy(v: Option<Doc>) {
    match v
    case None => false
    case Some(Null) => false
    case Some(Bool(b)) => b
    case Some(Num(n)) => n != 0
    case Some(Str(s)) => s != ""
    case Some(_) => true
  }
}
