/** The server-to-client envelope: `SetCharacteristicSchema`, which is the
    whole of `ServerMessage`. Both the envelope and its `data` object are
    plain (key-removing) zod objects. */
module ServerMessageSchema {
  import opened Wrappers
  import opened Json
  import opened Zod

  const SetCharacteristicTag: Value := JString("SetCharacteristic")
  const DataKeys: set<string> := {"serviceId", "iid", "value"}

  predicate ValidData(v: Value) {
    && v.JObject?
    && Required(v.fields, "serviceId", String)
    && Required(v.fields, "iid", Number)
    && Required(v.fields, "value", Scalar)
  }

  predicate Valid(v: Value) {
    && v.JObject?
    && Versioned(v.fields)
    && Required(v.fields, "type", Literal(SetCharacteristicTag))
    && "data" in v.fields && ValidData(v.fields["data"])
  }

  /** `ServerMessage.safeParse`. An accepted message parses to an envelope
      carrying exactly `version` 1, the `SetCharacteristic` tag and a `data`
      object with exactly the input's `serviceId`, `iid` and `value`; every
      other key, at either level, is removed. */
  function Parse(v: Value): (r: Option<Value>)
    ensures r.Some? <==> Valid(v)
    ensures r.Some? ==>
      var d := v.fields["data"].fields;
      r.value == JObject(map["version" := VersionOne, "type" := SetCharacteristicTag,
                             "data" := JObject(map["serviceId" := d["serviceId"], "iid" := d["iid"], "value" := d["value"]])])
  {
    if Valid(v) then
      var d := v.fields["data"].fields;
      assert Strip(d, DataKeys) == map["serviceId" := d["serviceId"], "iid" := d["iid"], "value" := d["value"]];
      assert Strip(v.fields, EnvelopeKeys)["data" := JObject(Strip(d, DataKeys))]
          == map["version" := VersionOne, "type" := SetCharacteristicTag, "data" := JObject(Strip(d, DataKeys))];
      Some(JObject(Strip(v.fields, EnvelopeKeys)["data" := JObject(Strip(d, DataKeys))]))
    else None
  }

  /** Only the `SetCharacteristic` tag and `version` 1 are accepted. */
  lemma TagAndVersion(o: map<string, Value>, tag: Value, version: Value)
    requires Valid(JObject(o))
    ensures Valid(JObject(o["type" := tag])) <==> tag == SetCharacteristicTag
    ensures Valid(JObject(o["version" := version])) <==> version == VersionOne
  {
  }

  /** `serviceId` must be a string, `iid` a number, and `value` a number,
      string or boolean: null or a missing value is rejected. */
  lemma DataFields(d: map<string, Value>, x: Value)
    requires ValidData(JObject(d))
    ensures ValidData(JObject(d["value" := x])) <==> (x.JNumber? || x.JString? || x.JBool?)
    ensures !ValidData(JObject(d["value" := JNull]))
    ensures !ValidData(JObject(d - {"value"}))
    ensures ValidData(JObject(d["serviceId" := x])) <==> x.JString?
    ensures ValidData(JObject(d["iid" := x])) <==> x.JNumber?
  {
  }
}
