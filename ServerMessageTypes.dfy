/** The server-to-client message type declarations: a tagged union of
    `SetCharacteristic` and a placeholder `Future` variant, both carrying
    `version: 1`. */
module ServerMessageTypes {
  import opened Wrappers
  import opened Json
  import opened Zod
  import Schema = ServerMessageSchema

  /** `number | string | boolean`: a characteristic can never be set to null. */
  datatype SetValue = NumberValue(n: real) | StringValue(s: string) | BoolValue(b: bool)

  datatype SetCharacteristicData = SetCharacteristicData(serviceId: string, iid: real, value: SetValue)

  /** `SetCharacteristic | Future`; `Future`'s `data: unknown` may also be
      `undefined`, hence the `Option`. */
  datatype ServerMessage =
    | SetCharacteristic(version: ProtocolVersion, data: SetCharacteristicData)
    | Future(version: ProtocolVersion, futureData: Option<Value>)

  function Tag(m: ServerMessage): (t: string)
    ensures t == "SetCharacteristic" <==> m.SetCharacteristic?
  {
    match m
    case SetCharacteristic(_, _) => "SetCharacteristic"
    case Future(_, _) => "Future"
  }

  function EncodeValue(x: SetValue): (v: Value)
    ensures v.JNumber? || v.JString? || v.JBool?
  {
    match x
    case NumberValue(n) => JNumber(n)
    case StringValue(s) => JString(s)
    case BoolValue(b) => JBool(b)
  }

  /** The JSON object a message of this type is on the wire. */
  function Encode(m: ServerMessage): (v: Value)
    ensures v.JObject? && Get(v.fields, "type") == Some(JString(Tag(m)))
    ensures Get(v.fields, "version") == Some(VersionOne)
  {
    match m
    case SetCharacteristic(_, d) =>
      JObject(map["version" := VersionOne, "type" := JString("SetCharacteristic"),
                  "data" := JObject(map["serviceId" := JString(d.serviceId), "iid" := JNumber(d.iid),
                                        "value" := EncodeValue(d.value)])])
    case Future(_, payload) =>
      var base := map["version" := VersionOne, "type" := JString("Future")];
      JObject(match payload case Some(p) => base["data" := p] case None => base)
  }

  function DecodeValue(v: Value): (x: SetValue)
    requires v.JNumber? || v.JString? || v.JBool?
  {
    match v
    case JNumber(n) => NumberValue(n)
    case JString(s) => StringValue(s)
    case JBool(b) => BoolValue(b)
  }

  /** The typed message a JSON value stands for, if the runtime schema accepts it. */
  function Decode(v: Value): (r: Option<ServerMessage>)
  {
    if Schema.Valid(v) then
      var d := v.fields["data"].fields;
      Some(SetCharacteristic(1, SetCharacteristicData(d["serviceId"].s, d["iid"].n, DecodeValue(d["value"]))))
    else None
  }

  /** Every `SetCharacteristic` message survives encoding and validation
      unchanged; no `Future` message is accepted, because the runtime schema
      has no `Future` variant. */
  lemma DecodeEncode(m: ServerMessage)
    ensures Decode(Encode(m)) == if m.SetCharacteristic? then Some(m) else None
  {
    if m.SetCharacteristic? {
      assert Schema.Valid(Encode(m));
      var x := m.data.value;
      assert DecodeValue(EncodeValue(x)) == x;
    } else {
      assert Encode(m).fields["type"] == JString("Future");
    }
  }

  /** Decoding an accepted value and encoding it back gives exactly the
      schema's parse output: the typed message loses only what parsing drops. */
  lemma EncodeDecode(v: Value)
    ensures Decode(v).Some? <==> Schema.Valid(v)
    ensures Decode(v).Some? ==> Some(Encode(Decode(v).value)) == Schema.Parse(v)
  {
    if Schema.Valid(v) {
      var d := v.fields["data"].fields;
      assert EncodeValue(DecodeValue(d["value"])) == d["value"];
    }
  }

  /** The two variants are told apart by their tags. */
  lemma TagsDistinguish(m1: ServerMessage, m2: ServerMessage)
    requires Tag(m1) == Tag(m2)
    ensures m1.SetCharacteristic? == m2.SetCharacteristic?
  {
  }
}
