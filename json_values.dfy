/** JSON values: what the entity extractor returns, what the enrichment
    service answers and what the `verification_data` column stores. */
module JsonValues {

  datatype Json =
    | JNull
    | JBool(b: bool)
    | JInt(i: int)
    | JStr(s: string)
    | JArr(items: seq<Json>)
    | JObj(fields: map<string, Json>)

  /** Python's `d.get(key, None)` on a JSON object. */
  function Get(d: map<string, Json>, key: string): (v: Json)
    ensures key !in d ==> v == JNull
  {
    if key in d then d[key] else JNull
  }

  /** Python's `d.get(key, default)`. */
  function GetOr(d: map<string, Json>, key: string, default: Json): (v: Json)
    ensures key !in d ==> v == default
  {
    if key in d then d[key] else default
  }
}
