/**
 * JSON documents as an abstract tree, with the accessors of the jansson
 * library that the plugin relies on.  Text parsing and printing are not
 * modelled: every import and export works on this tree.
 */
module Json {
  import opened Wrappers

  datatype Json =
    | JNull
    | JBool(b: bool)
    | JInt(i: int)
    | JReal(r: real)
    | JStr(s: string)
    | JArr(items: seq<Json>)
    | JObj(fields: map<string, Json>)

  /** `json_object_get`: the member `key` of an object, nothing for a missing key or a non-object. */
  function Get(j: Json, key: string): (r: Option<Json>)
    ensures r.Some? <==> j.JObj? && key in j.fields
    ensures r.Some? ==> r.value == j.fields[key]
  {
    if j.JObj? && key in j.fields then Some(j.fields[key]) else None
  }

  /** `Get` on a member that may itself be missing (a NULL `json_t*`). */
  function GetIn(j: Option<Json>, key: string): (r: Option<Json>)
    ensures j.None? ==> r.None?
    ensures j.Some? ==> r == Get(j.value, key)
  {
    if j.Some? then Get(j.value, key) else None
  }

  /** `json_integer_value`: 0 for NULL and for anything that is not an integer. */
  function IntValue(j: Option<Json>): (r: int)
    ensures j.Some? && j.value.JInt? ==> r == j.value.i
    ensures !(j.Some? && j.value.JInt?) ==> r == 0
  {
    if j.Some? && j.value.JInt? then j.value.i else 0
  }

  /** `json_boolean_value`: true only for the JSON value `true`. */
  function BoolValue(j: Option<Json>): (r: bool)
    ensures r <==> j == Some(JBool(true))
  {
    j.Some? && j.value.JBool? && j.value.b
  }

  /** True when `j` is present and a string, so that `json_string_value` is not NULL. */
  predicate IsString(j: Option<Json>) {
    j.Some? && j.value.JStr?
  }

  /** `json_string_value` of a member known to be a string. */
  function StringValue(j: Option<Json>): string
    requires IsString(j)
  {
    j.value.s
  }

  /**
   * The elements `json_array_foreach` visits: none for NULL or for a
   * value that is not an array (`json_array_size` is then 0).
   */
  function Items(j: Option<Json>): (r: seq<Json>)
    ensures j.Some? && j.value.JArr? ==> r == j.value.items
    ensures !(j.Some? && j.value.JArr?) ==> r == []
  {
    if j.Some? && j.value.JArr? then j.value.items else []
  }
}
