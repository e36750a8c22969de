/** JSON documents as values. */
module JsonModel {
  import opened Basics

  datatype Json =
    | Null
    | Bool(b: bool)
    | Num(n: real)
    | Str(s: string)
    | Arr(items: seq<Json>)
    | Obj(fields: map<string, Json>)

  /** `Value::as_str`. */
  function AsStr(j: Json): Option<string> {
    if j.Str? then Some(j.s) else None
  }

  /** `Value::as_f64`. */
  function AsNum(j: Json): Option<real> {
    if j.Num? then Some(j.n) else None
  }
}
