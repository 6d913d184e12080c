/**
 * The part of `org.json` the result encoder relies on: a JSON object is a
 * mutable map from key strings to values, a JSON array a mutable list. The
 * textual JSON form is not modelled.
 */
module Json {

  /** A JSON value; `Opaque` stands for any other Java object put into a record. */
  datatype Value =
    | Null
    | Int(i: int)
    | Str(s: string)
    | List(items: seq<Value>)
    | Opaque(id: nat)

  /** The contents of a JSON object. */
  type Record = map<string, Value>

  /** `JSONObject.isNull(key)`: the key is absent or bound to JSON null. */
  predicate IsNullField(r: Record, key: string) {
    key !in r || r[key] == Null
  }

  /** `org.json.JSONObject`, updated in place by `put`. */
  class JsonObject {
    var fields: Record

    constructor ()
      ensures fields == map[]
    {
      fields := map[];
    }

    /** `put(key, value)` for a non-null value: binds or rebinds `key`. */
    method Put(key: string, value: Value)
      modifies this
      ensures fields == old(fields)[key := value]
    {
      fields := fields[key := value];
    }
  }

  /** `org.json.JSONArray`, appended to in place by `put`. */
  class JsonArray {
    var items: seq<Value>

    constructor ()
      ensures items == []
    {
      items := [];
    }

    method Put(value: Value)
      modifies this
      ensures items == old(items) + [value]
    {
      items := items + [value];
    }
  }
}
