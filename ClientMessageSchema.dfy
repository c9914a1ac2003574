/** The client-to-server envelopes: the loose, key-keeping
    `ClientCharacteristic` and `ClientService` objects, the two versioned
    (key-removing) message schemas, and their union `ClientMessage`. */
module ClientMessageSchema {
  import opened Wrappers
  import opened Json
  import opened Zod

  const CharacteristicKeys: set<string> := {"iid", "value", "serviceType", "serviceName", "type"}
  const ServiceKeys: set<string> := {"uniqueId", "serviceCharacteristics"}

  const DeviceListTag: Value := JString("deviceList")
  const DeviceStatusChangeTag: Value := JString("deviceStatusChange")

  /** `ClientCharacteristic` (passthrough). */
  predicate ValidCharacteristic(v: Value) {
    && v.JObject?
    && Required(v.fields, "iid", Number)
    && Optional(v.fields, "value", Primitive)
    && Required(v.fields, "serviceType", String)
    && Required(v.fields, "serviceName", String)
    && Required(v.fields, "type", String)
  }

  /** Parsing a passthrough object: the declared keys, then every other key
      unchanged. An accepted characteristic comes back exactly as it went in. */
  function ParseCharacteristic(v: Value): (r: Option<Value>)
    ensures r.Some? <==> ValidCharacteristic(v)
    ensures r.Some? ==> r.value == v
  {
    if ValidCharacteristic(v) then
      PassthroughKeepsAll(v.fields, CharacteristicKeys);
      Some(JObject(Strip(v.fields, CharacteristicKeys) + Extras(v.fields, CharacteristicKeys)))
    else None
  }

  predicate AllCharacteristics(items: seq<Value>) {
    forall i | 0 <= i < |items| :: ValidCharacteristic(items[i])
  }

  /** `ClientService` (passthrough). */
  predicate ValidService(v: Value) {
    && v.JObject?
    && Optional(v.fields, "uniqueId", String)
    && "serviceCharacteristics" in v.fields && v.fields["serviceCharacteristics"].JArray?
    && AllCharacteristics(v.fields["serviceCharacteristics"].items)
  }

  /** `z.array(ClientCharacteristic)`: every element accepted, each passed
      through unchanged. */
  function ParseCharacteristics(items: seq<Value>): (r: Option<seq<Value>>)
    ensures r.Some? <==> AllCharacteristics(items)
    ensures r.Some? ==> r.value == items
  {
    if items == [] then Some([])
    else
      match ParseCharacteristic(items[0])
      case None => None
      case Some(head) =>
        match ParseCharacteristics(items[1..])
        case None => None
        case Some(tail) => Some([head] + tail)
  }

  /** An accepted service comes back exactly as it went in, extra keys included. */
  function ParseService(v: Value): (r: Option<Value>)
    ensures r.Some? <==> ValidService(v)
    ensures r.Some? ==> r.value == v
  {
    if ValidService(v) then
      var items := ParseCharacteristics(v.fields["serviceCharacteristics"].items).value;
      var known := Strip(v.fields, ServiceKeys)["serviceCharacteristics" := JArray(items)];
      assert known + Extras(v.fields, ServiceKeys) == v.fields;
      Some(JObject(known + Extras(v.fields, ServiceKeys)))
    else None
  }

  predicate AllServices(items: seq<Value>) {
    forall i | 0 <= i < |items| :: ValidService(items[i])
  }

  /** `z.array(ClientService)`. */
  function ParseServices(items: seq<Value>): (r: Option<seq<Value>>)
    ensures r.Some? <==> AllServices(items)
    ensures r.Some? ==> r.value == items
  {
    if items == [] then Some([])
    else
      match ParseService(items[0])
      case None => None
      case Some(head) =>
        match ParseServices(items[1..])
        case None => None
        case Some(tail) => Some([head] + tail)
  }

  /** `DeviceListSchema`. */
  predicate ValidDeviceList(v: Value) {
    && v.JObject?
    && Versioned(v.fields)
    && Required(v.fields, "type", Literal(DeviceListTag))
    && "data" in v.fields && v.fields["data"].JArray?
    && AllServices(v.fields["data"].items)
  }

  /** `DeviceStatusChangeSchema`. */
  predicate ValidDeviceStatusChange(v: Value) {
    && v.JObject?
    && Versioned(v.fields)
    && Required(v.fields, "type", Literal(DeviceStatusChangeTag))
    && "data" in v.fields && ValidService(v.fields["data"])
  }

  /** The `ClientMessage` union. */
  predicate Valid(v: Value) {
    ValidDeviceList(v) || ValidDeviceStatusChange(v)
  }

  /** The envelope a versioned schema outputs: `version`, `type` and the
      parsed `data`, and nothing else. */
  function Envelope(tag: Value, data: Value): (r: Value)
    ensures r.JObject? && r.fields.Keys == EnvelopeKeys
  {
    JObject(map["version" := VersionOne, "type" := tag, "data" := data])
  }

  /** Stripping an envelope leaves exactly its `version`, `type` and `data`. */
  lemma StripEnvelope(o: map<string, Value>)
    requires "version" in o && "type" in o && "data" in o
    ensures Strip(o, EnvelopeKeys) == map["version" := o["version"], "type" := o["type"], "data" := o["data"]]
  {
    var m := map["version" := o["version"], "type" := o["type"], "data" := o["data"]];
    assert Strip(o, EnvelopeKeys).Keys == m.Keys;
  }

  function ParseDeviceList(v: Value): (r: Option<Value>)
    ensures r.Some? <==> ValidDeviceList(v)
    ensures r.Some? ==> r.value == JObject(Strip(v.fields, EnvelopeKeys))
  {
    if ValidDeviceList(v) then
      var services := ParseServices(v.fields["data"].items).value;
      StripEnvelope(v.fields);
      Some(Envelope(DeviceListTag, JArray(services)))
    else None
  }

  function ParseDeviceStatusChange(v: Value): (r: Option<Value>)
    ensures r.Some? <==> ValidDeviceStatusChange(v)
    ensures r.Some? ==> r.value == JObject(Strip(v.fields, EnvelopeKeys))
  {
    if ValidDeviceStatusChange(v) then
      StripEnvelope(v.fields);
      Some(Envelope(DeviceStatusChangeTag, ParseService(v.fields["data"]).value))
    else None
  }

  /** `ClientMessage.safeParse`: the first member of the union that accepts.
      Every accepted message has `version` exactly 1 and one of the two
      tags, and parsing keeps only `version`, `type` and `data`, each
      unchanged: an envelope-level `apiKey` never survives. */
  function Parse(v: Value): (r: Option<Value>)
    ensures r.Some? <==> Valid(v)
    ensures r.Some? ==> v.fields["version"] == VersionOne
    ensures r.Some? ==> v.fields["type"] == DeviceListTag || v.fields["type"] == DeviceStatusChangeTag
    ensures r.Some? ==> r.value == Envelope(v.fields["type"], v.fields["data"])
    ensures r.Some? ==> "apiKey" !in r.value.fields
  {
    if Valid(v) then
      StripEnvelope(v.fields);
      match ParseDeviceList(v)
      case Some(out) => Some(out)
      case None => ParseDeviceStatusChange(v)
    else None
  }

  /** The two variants never both accept: their `type` tags differ. */
  lemma VariantsDisjoint(v: Value)
    ensures !(ValidDeviceList(v) && ValidDeviceStatusChange(v))
  {
  }

  /** `deviceList` data is an array of services, possibly empty;
      `deviceStatusChange` data is one service. */
  lemma DataShapes(services: seq<Value>, service: Value)
    ensures Valid(Envelope(DeviceListTag, JArray(services))) <==> AllServices(services)
    ensures Valid(Envelope(DeviceListTag, JArray([])))
    ensures Valid(Envelope(DeviceStatusChangeTag, service)) <==> ValidService(service)
    ensures !Valid(Envelope(DeviceStatusChangeTag, JArray(services)))
  {
  }

  /** Any tag other than the two variants' is rejected. */
  lemma OtherTagRejected(o: map<string, Value>, tag: Value)
    requires tag != DeviceListTag && tag != DeviceStatusChangeTag
    ensures !Valid(JObject(o["type" := tag]))
  {
  }

  /** Any version other than 1 is rejected. */
  lemma OtherVersionRejected(o: map<string, Value>, version: Value)
    requires version != VersionOne
    ensures !Valid(JObject(o["version" := version]))
  {
  }

  /** A characteristic needs a numeric `iid` and string `serviceType`,
      `serviceName` and `type`; `value` is optional and, when present, a
      number, string, boolean or null. */
  lemma CharacteristicFields(o: map<string, Value>, key: string, x: Value)
    requires ValidCharacteristic(JObject(o))
    requires key in {"iid", "serviceType", "serviceName", "type"}
    ensures !ValidCharacteristic(JObject(o - {key}))
    ensures !ValidCharacteristic(JObject(o[key := JNull]))
    ensures ValidCharacteristic(JObject(o - {"value"}))
    ensures ValidCharacteristic(JObject(o["value" := x])) <==> (x.JNumber? || x.JString? || x.JBool? || x.JNull?)
  {
  }

  /** Extra keys keep a characteristic or a service accepted, and survive parsing. */
  lemma ExtraKeysSurvive(o: map<string, Value>, key: string, x: Value)
    ensures ValidCharacteristic(JObject(o)) && key !in CharacteristicKeys ==>
              ParseCharacteristic(JObject(o[key := x])) == Some(JObject(o[key := x]))
    ensures ValidService(JObject(o)) && key !in ServiceKeys ==>
              ParseService(JObject(o[key := x])) == Some(JObject(o[key := x]))
  {
  }
}
