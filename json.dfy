/** Decoded JSON values, shared by the backend (Python dicts and lists) and
    the frontend (spreadsheet cells and fetch replies). */
module JsonValues {
  /** Numbers are integers (floating point is not modelled). */
  datatype Json =
    | JNull
    | JBool(b: bool)
    | JInt(n: int)
    | JStr(s: string)
    | JArr(items: seq<Json>)
    | JObj(fields: map<string, Json>)

  /** `d.get(key)` / `obj[key]`: JNull (None, undefined) when absent. */
  function Lookup(d: map<string, Json>, key: string): (v: Json)
    ensures key in d ==> v == d[key]
    ensures key !in d ==> v == JNull
  {
    if key in d then d[key] else JNull
  }
}
