/** The global response interceptor: every handler result is wrapped in a
    `{success, data, timestamp}` envelope unless it already is one. */
module ResponseEnvelope {
  /** A JavaScript value as a handler returns it. */
  datatype Value =
    | Undefined
    | Null
    | Bool(b: bool)
    | Num(n: int)
    | Str(s: string)
    | Arr(items: seq<Value>)
    | Obj(fields: map<string, Value>)

  /** Property read: a missing property reads as undefined. */
  function Get(fields: map<string, Value>, key: string): (v: Value)
    ensures key !in fields ==> v == Undefined
    ensures key in fields ==> v == fields[key]
  {
    if key in fields then fields[key] else Undefined
  }

  /** `data && typeof data === 'object' && key in data`: arrays and primitives
      have neither `success` nor `items`. */
  predicate HasKey(data: Value, key: string)
  {
    data.Obj? && key in data.fields
  }

  function Intercept(data: Value, timestamp: string): (r: Value)
    ensures r.Obj? && Get(r.fields, "timestamp") == Str(timestamp)
    ensures "success" in r.fields
    // an object that already has `success` passes through with a timestamp
    ensures HasKey(data, "success") ==>
      r.fields.Keys == data.fields.Keys + {"timestamp"} &&
      forall k :: k in data.fields && k != "timestamp" ==> r.fields[k] == data.fields[k]
    // a page object without `success` is unwrapped into data and meta
    ensures !HasKey(data, "success") && HasKey(data, "items") ==>
      r.fields.Keys == {"success", "data", "meta", "timestamp"} &&
      r.fields["success"] == Bool(true) && r.fields["data"] == data.fields["items"] &&
      r.fields["meta"] == Obj(map[
        "page" := Get(data.fields, "page"), "limit" := Get(data.fields, "limit"),
        "total" := Get(data.fields, "total"), "totalPages" := Get(data.fields, "totalPages")])
    // anything else, null and primitives included, becomes the data
    ensures !HasKey(data, "success") && !HasKey(data, "items") ==>
      r.fields.Keys == {"success", "data", "timestamp"} &&
      r.fields["success"] == Bool(true) && r.fields["data"] == data
  {
    if HasKey(data, "success") then
      Obj(data.fields["timestamp" := Str(timestamp)])
    else if HasKey(data, "items") then
      var f := data.fields;
      Obj(map[
        "success" := Bool(true),
        "data" := f["items"],
        "meta" := Obj(map[
          "page" := Get(f, "page"), "limit" := Get(f, "limit"),
          "total" := Get(f, "total"), "totalPages" := Get(f, "totalPages")]),
        "timestamp" := Str(timestamp)])
    else
      Obj(map["success" := Bool(true), "data" := data, "timestamp" := Str(timestamp)])
  }

  /** Wrapping is stable: an envelope goes through again unchanged except for
      its timestamp. */
  lemma InterceptTwice(data: Value, t1: string, t2: string)
    ensures Intercept(Intercept(data, t1), t2).fields == Intercept(data, t1).fields["timestamp" := Str(t2)]
  {
  }
}
