/**
 * JSON values (RFC 8259) as json-glib hands them to the decoder once a line
 * has been parsed. Parsing itself is not modelled: it is a parameter of the
 * operations that need it.
 */
module Json {
  import opened Optional

  datatype Json =
    | JNull
    | JBool(b: bool)
    | JInt(i: int)
    | JString(s: string)
    | JArray(elements: seq<Json>)
    | JObject(members: map<string, Json>)

  type Object = map<string, Json>

  /** `json_object_get_member`: the node stored under `key`, or NULL when the key is absent. */
  function GetMember(obj: Object, key: string): (r: Option<Json>)
    ensures r.Some? <==> key in obj
    ensures r.Some? ==> r.value == obj[key]
  {
    if key in obj then Some(obj[key]) else None
  }

  /*
   * The `_or_else` accessors: a member that is present and of the expected
   * type gives its value, anything else (absent, null, another type) gives
   * the caller's default.
   */

  function StringMemberOrElse(obj: Object, key: string, default: Option<string>): (r: Option<string>)
    ensures key in obj && obj[key].JString? ==> r == Some(obj[key].s)
    ensures !(key in obj && obj[key].JString?) ==> r == default
  {
    if key in obj && obj[key].JString? then Some(obj[key].s) else default
  }

  function BooleanMemberOrElse(obj: Object, key: string, default: bool): (r: bool)
    ensures key in obj && obj[key].JBool? ==> r == obj[key].b
    ensures !(key in obj && obj[key].JBool?) ==> r == default
  {
    if key in obj && obj[key].JBool? then obj[key].b else default
  }

  function IntMemberOrElse(obj: Object, key: string, default: int): (r: int)
    ensures key in obj && obj[key].JInt? ==> r == obj[key].i
    ensures !(key in obj && obj[key].JInt?) ==> r == default
  {
    if key in obj && obj[key].JInt? then obj[key].i else default
  }
}
