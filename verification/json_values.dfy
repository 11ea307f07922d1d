/**
 * Decoded JSON values as the server sees them after `json.loads`, or as
 * LangChain hands them over already decoded.
 */
module JsonValues {

  /**
   * A JSON value. Dicts, lists and strings are kept; every other JSON
   * scalar (a number, a boolean or null) is kept only through its truth
   * value, which is all the server looks at.
   */
  datatype Json =
    | JObject(fields: map<string, Json>)
    | JArray(items: seq<Json>)
    | JString(text: string)
    | JOther(truthy: bool)

  /** The value Python's `dict.get` returns when the key is missing and no default is given. */
  const JNONE := JOther(false)

  /** Python truthiness, as `a or b` evaluates it: empty containers and strings are false. */
  predicate Truthy(j: Json)
  {
    match j
    case JObject(fields) => |fields| > 0
    case JArray(items) => |items| > 0
    case JString(text) => |text| > 0
    case JOther(truthy) => truthy
  }

  /** `fields.get(key, default)` on a dict. */
  function Get(fields: map<string, Json>, key: string, default: Json): Json
  {
    if key in fields then fields[key] else default
  }
}
