/**
 JSON values as the builders and readers see them: an object is its members in writing order, and
 looking a key up returns its first member. Reading and writing JSON text is not modelled.
 */
module Json {
  import opened Entries
  import opened Prelude

  datatype Json =
    | Null
    | Bool(flag: bool)
    | Int(value: int)
    | Real(bits: Double)
    | Str(text: string)
    | Arr(items: seq<Json>)
    | Obj(members: seq<(string, Json)>)

  type Members = seq<(string, Json)>

  /** `yyjson_obj_get`: nothing is found in a value that is not an object. */
  function Get(value: Json, key: string): Option<Json> {
    if value.Obj? then Lookup(value.members, key) else None
  }

  /** The text under a key, when there is one and it is a string. */
  function GetString(value: Json, key: string): Option<string> {
    match Get(value, key)
    case Some(Str(text)) => Some(text)
    case _ => None
  }

  /** A member that is written only when its text is not empty. */
  function StringMember(key: string, text: string): Members {
    if text == "" then [] else [(key, Str(text))]
  }
}
