/**
 * The values a Vert.x JSON object hands out once turned into a Java `Map<String, Object>`:
 * `null`, booleans, integral numbers, strings, lists and nested maps.
 */
module Json {
  import opened Wrappers
  import JavaText

  datatype Json =
    | JNull
    | JBool(b: bool)
    | JInt(i: int)
    | JString(s: string)
    | JArray(elements: seq<Json>)
    | JObject(members: map<string, Json>)

  /** A decoded JSON object: Java's `Map<String, Object>`. A key may be present with a null value. */
  type JsonMap = map<string, Json>

  /** `map.get(key)`: a missing key and a key holding null both give null. */
  function Get(m: JsonMap, key: string): (v: Json)
    ensures key !in m ==> v == JNull
    ensures key in m ==> v == m[key]
  {
    if key in m then m[key] else JNull
  }

  /**
   * `value.toString()` on a value taken out of a map; `None` is the NullPointerException
   * that calling it on null throws. Lists print as `[a, b]` with `null` for null elements;
   * a nested map prints as a text that opens with `{` (its entries are not rendered).
   */
  function ToText(v: Json): (r: Option<string>)
    ensures r.None? <==> v.JNull?
    ensures v.JString? ==> r == Some(v.s)
    ensures v.JInt? ==> r == Some(JavaText.IntToText(v.i))
    ensures (v.JArray? || v.JObject?) ==> r.Some? && |r.value| > 0 && (r.value[0] == '[' || r.value[0] == '{')
  {
    match v
    case JNull => None
    case JBool(b) => Some(if b then "true" else "false")
    case JInt(i) => Some(JavaText.IntToText(i))
    case JString(s) => Some(s)
    case JArray(elements) => Some("[" + ElementsText(elements) + "]")
    case JObject(_) => Some("{...}")
  }

  /** The elements of a list joined by `, `, as `AbstractCollection.toString` prints them. */
  function ElementsText(elements: seq<Json>): string
    decreases elements
  {
    if elements == [] then ""
    else
      var head := match ToText(elements[0]) case Some(t) => t case None => "null";
      if |elements| == 1 then head else head + ", " + ElementsText(elements[1..])
  }
}
