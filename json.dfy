/** Parsed JSON values, as `json.load` hands them to the helpers and
    `json.dump` takes them back. Objects are maps: the helpers only look
    keys up and assign them, so key order plays no part in any edit. */
module Json {
  import opened Base

  datatype Value =
    | Null
    | Bool(b: bool)
    | Num(n: int)
    | Str(s: string)
    | Arr(items: seq<Value>)
    | Obj(fields: map<string, Value>)

  /** `d.get(key, default)` on a dict. */
  function Get(m: map<string, Value>, key: string, default: Value): (v: Value)
    ensures key in m ==> v == m[key]
    ensures key !in m ==> v == default
  {
    if key in m then m[key] else default
  }

  /** `v[k] = e` for every entry, in place: only a dict accepts item
      assignment; anything else raises TypeError. */
  function SetItems(v: Value, entries: map<string, Value>): (r: Result<Value>)
    requires entries != map[]
    ensures r.Ok? <==> v.Obj?
    ensures r.Err? ==> r.error.TypeError?
    ensures r.Ok? ==>
      r.value.Obj? && r.value.fields.Keys == v.fields.Keys + entries.Keys
      && (forall k :: k in entries ==> r.value.fields[k] == entries[k])
      && (forall k :: k in v.fields && k !in entries ==> r.value.fields[k] == v.fields[k])
  {
    if v.Obj? then Ok(Obj(v.fields + entries)) else Err(TypeError("object does not support item assignment"))
  }

  /** `v[key][k] = e` for every entry: `v` must be a dict holding `key`
      (KeyError otherwise), and `v[key]` must be a dict. */
  function SetNestedItems(v: Value, key: string, entries: map<string, Value>): (r: Result<Value>)
    requires entries != map[]
    ensures r.Ok? <==> v.Obj? && key in v.fields && v.fields[key].Obj?
    ensures v.Obj? && key !in v.fields ==> r == Err(KeyError(key))
    ensures r.Ok? ==>
      r.value.Obj? && r.value.fields.Keys == v.fields.Keys
      && (forall k :: k in v.fields && k != key ==> r.value.fields[k] == v.fields[k])
      && r.value.fields[key].Obj?
      && r.value.fields[key].fields.Keys == v.fields[key].fields.Keys + entries.Keys
      && (forall k :: k in entries ==> r.value.fields[key].fields[k] == entries[k])
      && (forall k :: k in v.fields[key].fields && k !in entries ==> r.value.fields[key].fields[k] == v.fields[key].fields[k])
  {
    if !v.Obj? then Err(TypeError("object is not subscriptable"))
    else if key !in v.fields then Err(KeyError(key))
    else match SetItems(v.fields[key], entries)
      case Err(e) => Err(e)
      case Ok(inner) => Ok(Obj(v.fields[key := inner]))
  }

  /** Assigning the same entries again changes nothing. */
  lemma SetNestedItemsIdempotent(v: Value, key: string, entries: map<string, Value>)
    requires entries != map[] && SetNestedItems(v, key, entries).Ok?
    ensures SetNestedItems(SetNestedItems(v, key, entries).value, key, entries) == SetNestedItems(v, key, entries)
  {
    var w := SetNestedItems(v, key, entries).value;
    assert w.fields[key].fields + entries == w.fields[key].fields;
    assert w.fields[key := Obj(w.fields[key].fields + entries)] == w.fields;
  }
}
