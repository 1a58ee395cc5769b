/** An already-parsed JSON value and the org.json accessors the conversation core
    uses on it. Only "present with the expected type" versus "absent" is modelled:
    a value of another type is read as absent (org.json would coerce it). */
module Json {
  import opened Common

  datatype JValue =
    | JNull
    | JBool(b: bool)
    | JNumber(n: int)
    | JString(str: string)
    | JArray(elems: seq<JValue>)
    | JObject(fields: map<string, JValue>)

  type JObj = map<string, JValue>

  /** `optString(key, null)`: the string under `key`, or null. */
  function OptString(o: JObj, key: string): Option<string> {
    if key in o && o[key].JString? then Some(o[key].str) else None
  }

  /** `optString(key, fallback)`; `optString(key)` is `OptStringOr(o, key, "")`. */
  function OptStringOr(o: JObj, key: string, fallback: string): string {
    OptString(o, key).GetOr(fallback)
  }

  /** `optBoolean(key, fallback)`. */
  function OptBoolean(o: JObj, key: string, fallback: bool): bool {
    if key in o && o[key].JBool? then o[key].b else fallback
  }

  /** `optInt(key, fallback)`. */
  function OptInt(o: JObj, key: string, fallback: int): int {
    if key in o && o[key].JNumber? then o[key].n else fallback
  }

  /** `optJSONObject(key)`. */
  function OptObject(o: JObj, key: string): Option<JObj> {
    if key in o && o[key].JObject? then Some(o[key].fields) else None
  }

  /** `optJSONArray(key)`. */
  function OptArray(o: JObj, key: string): Option<seq<JValue>> {
    if key in o && o[key].JArray? then Some(o[key].elems) else None
  }
}
