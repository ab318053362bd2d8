/**
 * A JSON value as the pages receive it in `res.data`, with the two pieces of
 * JavaScript semantics they apply to it: optional property access (`x?.key`)
 * and truthiness. Numbers are integers here; see the README.
 */
module Json {
  import opened Wrappers

  datatype Json =
    | JNull
    | JBool(b: bool)
    | JNumber(n: int)
    | JString(s: string)
    | JArray(items: seq<Json>)
    | JObject(fields: seq<(string, Json)>)

  /** The value bound to `key`; when a key repeats, the last binding wins, as `JSON.parse` keeps it. */
  function Lookup(fields: seq<(string, Json)>, key: string): (r: Option<Json>)
    ensures r.Some? <==> exists k | 0 <= k < |fields| :: fields[k].0 == key
    ensures r.Some? ==> exists k | 0 <= k < |fields| :: fields[k] == (key, r.value)
  {
    if |fields| == 0 then None
    else if fields[|fields| - 1].0 == key then Some(fields[|fields| - 1].1)
    else
      var r := Lookup(fields[..|fields| - 1], key);
      assert forall k | 0 <= k < |fields| - 1 :: fields[..|fields| - 1][k] == fields[k];
      r
  }

  /** The binding `Lookup` finds is the last one for its key. */
  lemma {:induction false} LookupLastBindingWins(fields: seq<(string, Json)>, key: string, k: nat)
    requires k < |fields| && fields[k].0 == key
    requires forall j | k < j < |fields| :: fields[j].0 != key
    ensures Lookup(fields, key) == Some(fields[k].1)
  {
    if k < |fields| - 1 {
      var init := fields[..|fields| - 1];
      assert forall j | k < j < |init| :: init[j] == fields[j];
      LookupLastBindingWins(init, key, k);
    }
  }

  /** `j?.key`: a property of an object; anything else (null, a string, an array, ...) has none. */
  function Member(j: Option<Json>, key: string): (r: Option<Json>)
    ensures r.Some? <==> j.Some? && j.value.JObject? && exists k | 0 <= k < |j.value.fields| :: j.value.fields[k].0 == key
  {
    match j
    case Some(JObject(fields)) => Lookup(fields, key)
    case _ => None
  }

  /** JavaScript truthiness; `None` is `undefined`. Every array and object is truthy, even an empty one. */
  predicate Truthy(j: Option<Json>)
    ensures Truthy(j) ==> j.Some? && !j.value.JNull?
    ensures j.Some? && (j.value.JArray? || j.value.JObject?) ==> Truthy(j)
  {
    match j
    case None => false
    case Some(JNull) => false
    case Some(JBool(b)) => b
    case Some(JNumber(n)) => n != 0
    case Some(JString(s)) => s != ""
    case Some(JArray(_)) => true
    case Some(JObject(_)) => true
  }

  /** `Array.isArray`; an array is truthy. */
  predicate IsArray(j: Option<Json>)
    ensures IsArray(j) ==> Truthy(j)
  {
    j.Some? && j.value.JArray?
  }

  /** The elements of an array value (empty for anything else). */
  function Elements(j: Option<Json>): (r: seq<Json>)
    ensures IsArray(j) ==> r == j.value.items
    ensures !IsArray(j) ==> r == []
  {
    if IsArray(j) then j.value.items else []
  }
}
