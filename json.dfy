/**
 * A decoded JSON document, as org.json holds it in memory, and the org.json
 * lookups that the sandwich parser uses. Every lookup that would throw
 * JSONException yields None.
 */
module Json {
  import opened Wrappers

  datatype JValue =
    | JNull
    | JBool(b: bool)
    | JNumber(n: int)
    | JString(str: string)
    | JArray(items: seq<JValue>)
    | JObject(fields: map<string, JValue>)

  /**
   * `new JSONObject(text)`: the text is handed to a JSON decoder (a parameter
   * here) and the result must be an object.
   */
  function NewJSONObject(text: string, decode: string -> Option<JValue>): (r: Option<map<string, JValue>>)
    ensures r.Some? <==> decode(text).Some? && decode(text).value.JObject?
    ensures r.Some? ==> r.value == decode(text).value.fields
  {
    match decode(text)
    case Some(JObject(fields)) => Some(fields)
    case _ => None
  }

  /** `JSONObject.getJSONObject(key)`: the key must be present and hold an object. */
  function GetJSONObject(obj: map<string, JValue>, key: string): (r: Option<map<string, JValue>>)
    ensures r.Some? <==> key in obj && obj[key].JObject?
    ensures r.Some? ==> r.value == obj[key].fields
  {
    if key in obj && obj[key].JObject? then Some(obj[key].fields) else None
  }

  /** `JSONObject.getJSONArray(key)`: the key must be present and hold an array. */
  function GetJSONArray(obj: map<string, JValue>, key: string): (r: Option<seq<JValue>>)
    ensures r.Some? <==> key in obj && obj[key].JArray?
    ensures r.Some? ==> r.value == obj[key].items
  {
    if key in obj && obj[key].JArray? then Some(obj[key].items) else None
  }

  /**
   * `JSONObject.getString(key)`: the key must be present and hold a string.
   * org.json would also turn a number, boolean or null into text; here those fail.
   */
  function GetString(obj: map<string, JValue>, key: string): (r: Option<string>)
    ensures r.Some? <==> key in obj && obj[key].JString?
    ensures r.Some? ==> r.value == obj[key].str
  {
    if key in obj && obj[key].JString? then Some(obj[key].str) else None
  }

  /**
   * `JSONArray.getString(index)`: the index must be in range and hold a string.
   * org.json would also turn a number, boolean or null element into text; here those fail.
   */
  function ArrayGetString(arr: seq<JValue>, index: int): (r: Option<string>)
    ensures r.Some? <==> 0 <= index < |arr| && arr[index].JString?
    ensures r.Some? ==> r.value == arr[index].str
  {
    if 0 <= index < |arr| && arr[index].JString? then Some(arr[index].str) else None
  }
}
