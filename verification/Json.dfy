/** JSON values as the daemon's bodies denote them, with the accessors the engine uses. */
module Json {
  import opened Outcome

  datatype Json =
    | Null
    | Bool(flag: bool)
    | Number(text: string)
    | Str(text: string)
    | Arr(items: seq<Json>)
    | Obj(fields: map<string, Json>)
  {
    /** A member of an object; nothing for a missing key or any other shape. */
    function Get(key: string): Option<Json> {
      if Obj? && key in fields then Some(fields[key]) else None
    }

    function AsStr(): Option<string> {
      if Str? then Some(text) else None
    }

    /** `Get` followed by `AsStr`. */
    function GetStr(key: string): Option<string> {
      match Get(key)
      case None => None
      case Some(value) => value.AsStr()
    }

    /** `Get`, with an explicit null read as absent. */
    function GetNonNull(key: string): Option<Json> {
      match Get(key)
      case Some(Null) => None
      case other => other
    }
  }

  const MAX_COLLECTION_ITEMS := 4096
  const MAX_JSON_BYTES := 8 * 1024 * 1024
}
