/** The automation script embedded in `PLATFORM_SCRIPT`: an `automation`
    object whose `services` cache follows the client messages it is handed,
    and whose `set` builds a `SetCharacteristic` envelope for the host. */
module PlatformApi {
  import opened Wrappers
  import opened Json
  import opened Zod
  import ClientSchema = ClientMessageSchema
  import ServerSchema = ServerMessageSchema
  import ServerTypes = ServerMessageTypes

  /** A cached service is a plain JSON object. */
  type CachedService = map<string, Value>

  /** `s.uniqueId === message.data.uniqueId`: two objects that both lack
      `uniqueId` match, since `undefined === undefined`. */
  predicate SameId(s: CachedService, data: map<string, Value>) {
    Get(s, "uniqueId") == Get(data, "uniqueId")
  }

  /** `services.find(...)`, as the index of the first cached service whose
      `uniqueId` matches. */
  function FindFirst(services: seq<CachedService>, data: map<string, Value>): (r: Option<nat>)
    ensures r.Some? ==> r.value < |services| && SameId(services[r.value], data)
    ensures r.Some? ==> forall j | 0 <= j < r.value :: !SameId(services[j], data)
    ensures r.None? ==> forall j | 0 <= j < |services| :: !SameId(services[j], data)
  {
    if services == [] then None
    else if SameId(services[0], data) then Some(0)
    else
      match FindFirst(services[1..], data)
      case None => None
      case Some(i) => Some(i + 1)
  }

  /** Messages the script can take without throwing or leaving a non-array in
      its cache: an object whose `deviceStatusChange` data is an object and
      whose `deviceList` data is an array of objects. Other tags carry anything. */
  predicate Forwardable(message: Value) {
    && message.JObject?
    && (Get(message.fields, "type") == Some(ClientSchema.DeviceStatusChangeTag) ==>
          "data" in message.fields && message.fields["data"].JObject?)
    && (Get(message.fields, "type") == Some(ClientSchema.DeviceListTag) ==>
          "data" in message.fields && message.fields["data"].JArray?
          && forall i | 0 <= i < |message.fields["data"].items| :: message.fields["data"].items[i].JObject?)
  }

  function Objects(items: seq<Value>): (r: seq<CachedService>)
    requires forall i | 0 <= i < |items| :: items[i].JObject?
    ensures |r| == |items| && forall i | 0 <= i < |r| :: JObject(r[i]) == items[i]
  {
    seq(|items|, i requires 0 <= i < |items| => items[i].fields)
  }

  /** The cache after `automation.handleMessage(message)`. `Object.assign`
      copies the data's own keys over the matched entry, which is the
      right-biased union `entry + data`. */
  function Handled(services: seq<CachedService>, message: Value): (cache: seq<CachedService>)
    requires Forwardable(message)
  {
    var tag := Get(message.fields, "type");
    if tag == Some(ClientSchema.DeviceStatusChangeTag) then
      var data := message.fields["data"].fields;
      match FindFirst(services, data)
      case Some(i) => services[i := services[i] + data]
      case None => services
    else if tag == Some(ClientSchema.DeviceListTag) then
      Objects(message.fields["data"].items)
    else
      services
  }

  /** The script's `automation` object, with its `services` cache. */
  class Automation {
    var services: seq<CachedService>

    constructor ()
      ensures services == []
    {
      services := [];
    }

    method HandleMessage(message: Value)
      requires Forwardable(message)
      modifies this
      ensures services == Handled(old(services), message)
    {
      var tag := Get(message.fields, "type");
      if tag == Some(ClientSchema.DeviceStatusChangeTag) {
        // `onMessage(message.data)` is called here. The script does not define it; when the host
        // or the user's code supplies a global `onMessage`, it runs and leaves the cache alone.
        var data := message.fields["data"].fields;
        var found := FindFirst(services, data);
        if found.Some? {
          var i := found.value;
          services := services[i := services[i] + data];
        }
      }
      if tag == Some(ClientSchema.DeviceListTag) {
        services := Objects(message.fields["data"].items);
      }
    }
  }

  /** A status change for a known `uniqueId` overwrites, with the data's
      keys, the FIRST matching entry, keeps the keys only that entry has,
      leaves every other entry alone and never changes the cache's length. */
  lemma StatusChangeMerges(services: seq<CachedService>, message: Value, i: nat)
    requires Forwardable(message) && Get(message.fields, "type") == Some(ClientSchema.DeviceStatusChangeTag)
    requires var data := message.fields["data"].fields;
             i < |services| && SameId(services[i], data) && forall j | 0 <= j < i :: !SameId(services[j], data)
    ensures var data := message.fields["data"].fields;
      var r := Handled(services, message);
      && |r| == |services|
      && r[i].Keys == services[i].Keys + data.Keys
      && (forall key | key in data :: r[i][key] == data[key])
      && (forall key | key in services[i] && key !in data :: r[i][key] == services[i][key])
      && (forall j | 0 <= j < |services| && j != i :: r[j] == services[j])
  {
    var data := message.fields["data"].fields;
    var found := FindFirst(services, data);
    assert found == Some(i) by {
      if found.None? {
      } else if found.value < i {
      } else if found.value > i {
      }
    }
  }

  /** A status change whose `uniqueId` matches nothing leaves the cache as
      it is: it never appends. */
  lemma UnknownIdUnchanged(services: seq<CachedService>, message: Value)
    requires Forwardable(message) && Get(message.fields, "type") == Some(ClientSchema.DeviceStatusChangeTag)
    requires forall j | 0 <= j < |services| :: !SameId(services[j], message.fields["data"].fields)
    ensures Handled(services, message) == services
  {
  }

  /** A device list replaces the whole cache with its data, in order;
      any other tag leaves the cache as it is. */
  lemma ListReplacesOthersKeep(services: seq<CachedService>, message: Value)
    requires Forwardable(message)
    ensures Get(message.fields, "type") == Some(ClientSchema.DeviceListTag) ==>
              var items := message.fields["data"].items;
              |Handled(services, message)| == |items| &&
              forall i | 0 <= i < |items| :: JObject(Handled(services, message)[i]) == items[i]
    ensures Get(message.fields, "type") != Some(ClientSchema.DeviceListTag) &&
            Get(message.fields, "type") != Some(ClientSchema.DeviceStatusChangeTag) ==>
              Handled(services, message) == services
    ensures |Handled(services, message)| != |services| ==> Get(message.fields, "type") == Some(ClientSchema.DeviceListTag)
  {
  }

  /** Every message the `ClientMessage` schema accepts, and its parse output,
      can be handed to the script. */
  lemma ValidatedForwardable(v: Value)
    requires ClientSchema.Valid(v)
    ensures Forwardable(v)
    ensures Forwardable(ClientSchema.Parse(v).value)
  {
  }

  /** The envelope `automation.set(serviceId, iid, value)` hands to the host.
      It passes the server schema exactly when the arguments have the
      schema's types, and then validation hands it on unchanged. */
  function SetEnvelope(serviceId: Value, iid: Value, value: Value): (envelope: Value)
    ensures ServerSchema.Valid(envelope) <==>
              serviceId.JString? && iid.JNumber? && (value.JNumber? || value.JString? || value.JBool?)
    ensures ServerSchema.Valid(envelope) ==> ServerSchema.Parse(envelope) == Some(envelope)
  {
    JObject(map["version" := VersionOne, "type" := ServerSchema.SetCharacteristicTag,
                "data" := JObject(map["serviceId" := serviceId, "iid" := iid, "value" := value])])
  }

  /** A valid `set` envelope decodes to the typed `SetCharacteristic`
      message carrying `set`'s arguments. */
  lemma SetEnvelopeDecodes(serviceId: Value, iid: Value, value: Value)
    requires ServerSchema.Valid(SetEnvelope(serviceId, iid, value))
    ensures ServerTypes.Decode(SetEnvelope(serviceId, iid, value)) ==
            Some(ServerTypes.SetCharacteristic(1, ServerTypes.SetCharacteristicData(serviceId.s, iid.n, ServerTypes.DecodeValue(value))))
  {
  }

  /** Every typed `SetCharacteristic` message is what `set` emits for its fields. */
  lemma SetEnvelopeEncodes(d: ServerTypes.SetCharacteristicData)
    ensures SetEnvelope(JString(d.serviceId), JNumber(d.iid), ServerTypes.EncodeValue(d.value)) ==
            ServerTypes.Encode(ServerTypes.SetCharacteristic(1, d))
  {
  }

  // ---- As written ----

  /** What `handleMessage` does as written when nothing outside the script
      defines a global `onMessage`: line 7 calls it anyway, so a status
      change throws a ReferenceError before the merge is reached. */
  datatype Outcome = Outcome(services: seq<CachedService>, threw: bool)

  function HandledAsWritten(services: seq<CachedService>, message: Value): (r: Outcome)
    requires Forwardable(message)
  {
    var tag := Get(message.fields, "type");
    if tag == Some(ClientSchema.DeviceStatusChangeTag) then Outcome(services, true)
    else Outcome(Handled(services, message), false)
  }

  /** A status change for a cached lamp is lost as written, while the
      intended handler records it. */
  lemma OnMessageLosesUpdate()
    ensures
      var cache := [map["uniqueId" := JString("lamp"), "on" := JBool(false)]];
      var message := JObject(map["type" := ClientSchema.DeviceStatusChangeTag,
                                 "data" := JObject(map["uniqueId" := JString("lamp"), "on" := JBool(true)])]);
      && HandledAsWritten(cache, message) == Outcome(cache, true)
      && Handled(cache, message) == [map["uniqueId" := JString("lamp"), "on" := JBool(true)]]
  {
    var cache := [map["uniqueId" := JString("lamp"), "on" := JBool(false)]];
    var data := map["uniqueId" := JString("lamp"), "on" := JBool(true)];
    assert FindFirst(cache, data) == Some(0);
    assert cache[0] + data == data;
  }
}
