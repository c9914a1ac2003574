/** The client-to-server message type declarations: `DeviceList` and
    `DeviceStatusChange`, each with `version: 1` and an `apiKey` that the
    runtime schema does not declare. */
module ClientMessageTypes {
  import opened Wrappers
  import opened Json
  import opened Zod
  import Schema = ClientMessageSchema

  /** The HAP client's `ServiceType` is declared outside this repository;
      here it is any JSON object. */
  type ServiceType = map<string, Value>

  datatype ClientMessage =
    | DeviceList(version: ProtocolVersion, apiKey: string, services: seq<ServiceType>)
    | DeviceStatusChange(version: ProtocolVersion, apiKey: string, service: ServiceType)

  function ServicesJson(services: seq<ServiceType>): (r: seq<Value>)
    ensures |r| == |services|
    ensures forall i | 0 <= i < |r| :: r[i] == JObject(services[i])
  {
    seq(|services|, i requires 0 <= i < |services| => JObject(services[i]))
  }

  /** The JSON object a message of this type is on the wire. */
  function Encode(m: ClientMessage): (v: Value)
    ensures v.JObject? && v.fields.Keys == {"version", "apiKey", "type", "data"}
    ensures v.fields["type"] == (if m.DeviceList? then Schema.DeviceListTag else Schema.DeviceStatusChangeTag)
  {
    var data := match m
      case DeviceList(_, _, services) => JArray(ServicesJson(services))
      case DeviceStatusChange(_, _, service) => JObject(service);
    JObject(map["version" := VersionOne, "apiKey" := JString(m.apiKey),
                "type" := (if m.DeviceList? then Schema.DeviceListTag else Schema.DeviceStatusChangeTag),
                "data" := data])
  }

  /** The services a message carries all satisfy `ClientService`. */
  predicate ServicesConform(m: ClientMessage) {
    match m
    case DeviceList(_, _, services) => forall i | 0 <= i < |services| :: Schema.ValidService(JObject(services[i]))
    case DeviceStatusChange(_, _, service) => Schema.ValidService(JObject(service))
  }

  /** A typed message is accepted by the runtime schema exactly when its
      services conform. */
  lemma SchemaAcceptsTyped(m: ClientMessage)
    ensures Schema.Valid(Encode(m)) <==> ServicesConform(m)
  {
    var v := Encode(m);
    match m
    case DeviceList(_, _, services) =>
      var items := ServicesJson(services);
      assert v.fields["data"] == JArray(items);
      assert Schema.AllServices(items) <==> ServicesConform(m);
      assert !Schema.ValidDeviceStatusChange(v);
    case DeviceStatusChange(_, _, service) =>
      assert !Schema.ValidDeviceList(v);
  }

  /** An accepted typed message loses `apiKey`, and nothing else, to parsing. */
  lemma SchemaDropsApiKey(m: ClientMessage)
    requires ServicesConform(m)
    ensures Schema.Parse(Encode(m)) == Some(JObject(Encode(m).fields - {"apiKey"}))
  {
    var v := Encode(m);
    SchemaAcceptsTyped(m);
    assert Schema.Envelope(v.fields["type"], v.fields["data"]).fields == v.fields - {"apiKey"};
  }

  /** Nothing downstream of validation can tell two messages apart that
      differ only in `apiKey`: the schema never passes it on. */
  lemma SchemaCannotSeeApiKey(m: ClientMessage, key: string)
    ensures Schema.Parse(Encode(m)) == Schema.Parse(Encode(m.(apiKey := key)))
  {
    var m' := m.(apiKey := key);
    assert ServicesConform(m) == ServicesConform(m');
    SchemaAcceptsTyped(m);
    SchemaAcceptsTyped(m');
    if ServicesConform(m) {
      SchemaDropsApiKey(m);
      SchemaDropsApiKey(m');
      assert Encode(m).fields - {"apiKey"} == Encode(m').fields - {"apiKey"};
    } else {
    }
  }
}
