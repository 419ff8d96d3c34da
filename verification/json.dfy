/**
  * The JSON document model (`serde_json::Value`) that the serializers produce and the
  * template helpers receive. Numbers are integers; the helpers read them with `as_i64`.
  */
module JsonValues {
  datatype Json =
    | Null
    | Bool(b: bool)
    | Number(n: int)
    | Str(s: string)
    | Array(items: seq<Json>)
    | Object(fields: map<string, Json>)

  /** One `serialize_field` call of a struct serializer: a key and its value, in emission order. */
  datatype Field = Field(key: string, value: Json)

  /** The keys of a serialized struct, in emission order. */
  function Keys(fs: seq<Field>): seq<string> {
    seq(|fs|, i requires 0 <= i < |fs| => fs[i].key)
  }
}
