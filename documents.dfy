/** The loosely typed data of a Firestore document, as the app reads it
    through Kotlin's safe casts (`as? String`, `as? Map<*, *>`, `as? List<*>`). */
module Documents {
  import opened Wrappers

  /** A stored value: only `Str` passes `as? String`, only `Obj` passes
      `as? Map<*, *>`, only `Lst` passes `as? List<*>`; `Other` stands for
      numbers, booleans, timestamps and null. */
  datatype Value = Str(s: string) | Obj(fields: map<string, Value>) | Lst(items: seq<Value>) | Other

  /** A document's data: field name to value. */
  type Doc = map<string, Value>

  /** `m[key] as? String`. */
  function StringField(m: map<string, Value>, key: string): (r: Option<string>)
    ensures r.Some? <==> key in m && m[key].Str?
    ensures r.Some? ==> m[key] == Str(r.value)
  {
    if key in m && m[key].Str? then Some(m[key].s) else None
  }

  /** `m[key] as? Map<*, *>`. */
  function MapField(m: map<string, Value>, key: string): (r: Option<map<string, Value>>)
    ensures r.Some? <==> key in m && m[key].Obj?
    ensures r.Some? ==> m[key] == Obj(r.value)
  {
    if key in m && m[key].Obj? then Some(m[key].fields) else None
  }

  /** `m[key] as? List<*>`. */
  function ListField(m: map<string, Value>, key: string): (r: Option<seq<Value>>)
    ensures r.Some? <==> key in m && m[key].Lst?
    ensures r.Some? ==> m[key] == Lst(r.value)
  {
    if key in m && m[key].Lst? then Some(m[key].items) else None
  }

  /** `nested?.get(key) as? String ?: ""`: a string read through a map that may be missing. */
  function NestedString(nested: Option<map<string, Value>>, key: string): (r: string)
    ensures nested.None? ==> r == ""
    ensures nested.Some? && key in nested.value && nested.value[key].Str? ==> r == nested.value[key].s
    ensures nested.Some? && (key !in nested.value || !nested.value[key].Str?) ==> r == ""
  {
    match nested
    case None => ""
    case Some(m) => StringField(m, key).GetOr("")
  }
}
