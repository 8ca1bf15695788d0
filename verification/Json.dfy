/** JSON values as the runtime's Python code sees them. A dictionary keeps its insertion
    order in `keys`, because the repr of a dictionary, which marks it in dedupe_keep_order,
    shows that order. */
module Json {

  datatype Json =
    | Null
    | Bool(b: bool)
    | Num(n: real)
    | Str(s: string)
    | List(items: seq<Json>)
    | Dict(keys: seq<string>, fields: map<string, Json>)

  function Self(key: string): string {
    key
  }

  ghost predicate Distinct(keys: seq<string>) {
    forall i, j :: 0 <= i < j < |keys| ==> keys[i] != keys[j]
  }

  /** What every Python dictionary satisfies: each key once, each with a value. */
  ghost predicate WellFormed(j: Json) {
    match j
    case List(items) => forall x :: x in items ==> WellFormed(x)
    case Dict(keys, fields) =>
      && Distinct(keys)
      && (forall k :: k in keys <==> k in fields)
      && forall k :: k in fields ==> WellFormed(fields[k])
    case _ => true
  }
}
