/** JSON as the app sees it after JSONSerialization: a dictionary `[String: Any]` whose
    values are strings, numbers, booleans, null, arrays or nested dictionaries. The casts
    the entity classes apply to it (`as? String`, `as? [Any]`, `as? [String: Any]`) are
    the accessors below: a key whose value has another shape reads as absent. */
module Json {

  datatype Option<+T> = None | Some(value: T) {
    function GetOr(default: T): (r: T)
      ensures Some? ==> r == value
      ensures None? ==> r == default
    {
      match this
      case Some(v) => v
      case None => default
    }
  }

  datatype Json =
    | JString(str: string)
    | JNumber(num: int)
    | JBool(truth: bool)
    | JNull
    | JArray(items: seq<Json>)
    | JObject(fields: map<string, Json>)

  type JsonObject = map<string, Json>

  /** `dict[key] as? String` */
  function StringField(obj: JsonObject, key: string): (r: Option<string>)
    ensures r.Some? <==> key in obj && obj[key].JString?
    ensures r.Some? ==> obj[key] == JString(r.value)
  {
    if key in obj && obj[key].JString? then Some(obj[key].str) else None
  }

  /** `dict[key] as? [Any]` */
  function ArrayField(obj: JsonObject, key: string): (r: Option<seq<Json>>)
    ensures r.Some? <==> key in obj && obj[key].JArray?
    ensures r.Some? ==> obj[key] == JArray(r.value)
  {
    if key in obj && obj[key].JArray? then Some(obj[key].items) else None
  }

  /** The value a payload writes for an optional string field: `field ?? ""`. */
  function OrEmpty(field: Option<string>): (j: Json)
    ensures j.JString?
    ensures field.Some? ==> j.str == field.value
    ensures field.None? ==> j.str == ""
  {
    JString(field.GetOr(""))
  }
}
