/**
 * The JSON values the search API decodes, with the SwiftyJSON accessors
 * that NextcloudKit+Search.swift reads them through. Numbers are kept as
 * `real`; an accessor that yields a Swift `Int` truncates toward zero.
 */
module Json {
  import opened Maybe

  datatype Json =
    | JNull
    | JBool(b: bool)
    | JNumber(n: real)
    | JString(s: string)
    | JArray(items: seq<Json>)
    | JObject(fields: map<string, Json>)
  {
    /** `json[key]`: the member of an object, null for a missing key or a non-object. */
    function Get(key: string): (r: Json)
      ensures r != JNull ==> JObject? && key in fields && r == fields[key]
    {
      if JObject? && key in fields then fields[key] else JNull
    }

    /** `.string`: only a JSON string yields a value. */
    function AsString(): (r: Option<string>)
      ensures r.Some? <==> JString?
    {
      if JString? then Some(s) else None
    }

    /** `.bool`: only a JSON boolean yields a value. */
    function AsBool(): (r: Option<bool>)
      ensures r.Some? <==> JBool?
    {
      if JBool? then Some(b) else None
    }

    /**
     * `.int`, which SwiftyJSON reads through `.number`: a number, truncated
     * toward zero, or a boolean as 1 or 0.
     */
    function AsInt(): (r: Option<int>)
      ensures r.Some? <==> JNumber? || JBool?
      ensures JBool? ==> r == Some(if b then 1 else 0)
      ensures JNumber? ==> r == Some(Truncate(n))
    {
      match this
      case JNumber(x) => Some(Truncate(x))
      case JBool(v) => Some(if v then 1 else 0)
      case _ => None
    }

    /** `.array`: only a JSON array yields its elements. */
    function AsArray(): (r: Option<seq<Json>>)
      ensures r.Some? <==> JArray?
    {
      if JArray? then Some(items) else None
    }

    /** `.dictionaryObject`: only a JSON object yields its members. */
    function AsDictionary(): (r: Option<map<string, Json>>)
      ensures r.Some? <==> JObject?
      ensures r.Some? ==> r.value == fields
    {
      if JObject? then Some(fields) else None
    }
  }

  /** Conversion of a number to `Int`: rounds toward zero. */
  function Truncate(x: real): (i: int)
    ensures x >= 0.0 ==> 0.0 <= i as real <= x < i as real + 1.0
    ensures x < 0.0 ==> i as real - 1.0 < x <= i as real <= 0.0
  {
    if x >= 0.0 then x.Floor else -((-x).Floor)
  }

  /** `key` names a string member of the object `j`. */
  predicate HasString(j: Json, key: string) {
    j.JObject? && key in j.fields && j.fields[key].JString?
  }

  /** `key` names a boolean member of the object `j`. */
  predicate HasBool(j: Json, key: string) {
    j.JObject? && key in j.fields && j.fields[key].JBool?
  }

  /** `key` names a member of `j` that `.int` can read (a number or a boolean). */
  predicate HasIntLike(j: Json, key: string) {
    j.JObject? && key in j.fields && (j.fields[key].JNumber? || j.fields[key].JBool?)
  }

  /** `key` names an array member of the object `j`. */
  predicate HasArray(j: Json, key: string) {
    j.JObject? && key in j.fields && j.fields[key].JArray?
  }
}
