/** `ServiceSchema`: a plain (key-removing) zod object describing one HomeKit
    service, whose `serviceCharacteristics` are checked one by one against
    `CharacteristicSchema`. */
module ServiceSchema {
  import opened Wrappers
  import opened Json
  import opened Zod
  import Characteristic = CharacteristicSchema

  const Keys: set<string> :=
    {"aid", "iid", "uuid", "type", "humanType", "linked", "hidden", "serviceName",
     "serviceCharacteristics", "uniqueId"}

  predicate AllCharacteristics(items: seq<Value>) {
    forall i | 0 <= i < |items| :: Characteristic.Valid(items[i])
  }

  predicate ValidFields(o: map<string, Value>) {
    && Required(o, "aid", Number)
    && Required(o, "iid", Number)
    && Required(o, "uuid", String)
    && Required(o, "type", String)
    && Required(o, "humanType", String)
    && Optional(o, "linked", NumberArray)
    && Optional(o, "hidden", Boolean)
    && Required(o, "serviceName", String)
    && "serviceCharacteristics" in o && o["serviceCharacteristics"].JArray?
    && AllCharacteristics(o["serviceCharacteristics"].items)
    && Optional(o, "uniqueId", String)
  }

  predicate Valid(v: Value) {
    v.JObject? && ValidFields(v.fields)
  }

  /** `z.array(CharacteristicSchema)`: succeeds exactly when every element is
      accepted, and then yields each element's own parse output, in order. */
  function ParseCharacteristics(items: seq<Value>): (r: Option<seq<Value>>)
    ensures r.Some? <==> AllCharacteristics(items)
    ensures r.Some? ==> |r.value| == |items|
    ensures r.Some? ==> forall i | 0 <= i < |items| :: Characteristic.Parse(items[i]) == Some(r.value[i])
  {
    if items == [] then Some([])
    else
      match Characteristic.Parse(items[0])
      case None => None
      case Some(head) =>
        match ParseCharacteristics(items[1..])
        case None => None
        case Some(tail) => Some([head] + tail)
  }

  lemma ParsedCharacteristicsValid(items: seq<Value>)
    requires AllCharacteristics(items)
    ensures AllCharacteristics(ParseCharacteristics(items).value)
  {
    var out := ParseCharacteristics(items).value;
    forall i | 0 <= i < |out| ensures Characteristic.Valid(out[i]) {
      assert Characteristic.Parse(items[i]) == Some(out[i]);
    }
  }

  /** `ServiceSchema.safeParse`: the output keeps the declared keys present in
      the input, with every characteristic replaced by its parse output. */
  function Parse(v: Value): (r: Option<Value>)
    ensures r.Some? <==> Valid(v)
    ensures r.Some? ==> r.value.JObject? && r.value.fields.Keys == v.fields.Keys * Keys
    ensures r.Some? ==> forall key :: key in r.value.fields && key != "serviceCharacteristics" ==>
                          r.value.fields[key] == v.fields[key]
    ensures r.Some? ==> Valid(r.value)
    ensures r.Some? ==> r.value.fields["serviceCharacteristics"] ==
                          JArray(ParseCharacteristics(v.fields["serviceCharacteristics"].items).value)
  {
    if Valid(v) then
      var items := ParseCharacteristics(v.fields["serviceCharacteristics"].items).value;
      ParsedCharacteristicsValid(v.fields["serviceCharacteristics"].items);
      Some(JObject(Strip(v.fields, Keys)["serviceCharacteristics" := JArray(items)]))
    else None
  }

  /** Every characteristic of an accepted service loses its undeclared keys:
      the nested schema strips them too. */
  lemma NestedUnknownKeyRemoved(v: Value, i: nat, key: string)
    requires Valid(v)
    requires i < |v.fields["serviceCharacteristics"].items|
    requires key !in Characteristic.Keys
    ensures Parse(v).Some?
    ensures var out := Parse(v).value.fields["serviceCharacteristics"].items;
            i < |out| && out[i].JObject? && key !in out[i].fields
  {
    var items := v.fields["serviceCharacteristics"].items;
    var out := ParseCharacteristics(items).value;
    assert Characteristic.Parse(items[i]) == Some(out[i]);
  }

  /** A service is accepted with a given characteristic list exactly when
      every element of that list is an accepted characteristic. */
  lemma CharacteristicsElementwise(o: map<string, Value>, items: seq<Value>)
    requires ValidFields(o)
    ensures ValidFields(o["serviceCharacteristics" := JArray(items)]) <==>
              forall i | 0 <= i < |items| :: Characteristic.Valid(items[i])
    ensures ValidFields(o["serviceCharacteristics" := JArray([])])
  {
  }

  /** One rejected characteristic rejects the whole service. */
  lemma BadCharacteristicRejects(v: Value, i: nat)
    requires v.JObject? && "serviceCharacteristics" in v.fields
    requires v.fields["serviceCharacteristics"].JArray?
    requires i < |v.fields["serviceCharacteristics"].items|
    requires !Characteristic.Valid(v.fields["serviceCharacteristics"].items[i])
    ensures Parse(v) == None
  {
  }

  /** `uniqueId` may be missing but, when present, must be a string. */
  lemma UniqueIdOptional(o: map<string, Value>, x: Value)
    requires ValidFields(o)
    ensures ValidFields(o - {"uniqueId"})
    ensures ValidFields(o["uniqueId" := x]) <==> x.JString?
  {
  }

  /** `linked` is an optional array of numbers. */
  lemma LinkedOptional(o: map<string, Value>, x: Value)
    requires ValidFields(o)
    ensures ValidFields(o - {"linked"})
    ensures ValidFields(o["linked" := x]) <==> x.JArray? && forall i | 0 <= i < |x.items| :: x.items[i].JNumber?
  {
  }

  /** `hidden` is an optional boolean. */
  lemma HiddenOptional(o: map<string, Value>, x: Value)
    requires ValidFields(o)
    ensures ValidFields(o - {"hidden"})
    ensures ValidFields(o["hidden" := x]) <==> x.JBool?
  {
  }

  /** `aid`, `iid` must be numbers and `uuid`, `type`, `humanType`,
      `serviceName` strings: a missing or null one rejects the service. */
  lemma RequiredFields(o: map<string, Value>, key: string)
    requires key in {"aid", "iid", "uuid", "type", "humanType", "serviceName", "serviceCharacteristics"}
    ensures !ValidFields(o - {key})
    ensures !ValidFields(o[key := JNull])
  {
  }

  /** Undeclared keys, such as the HAP client's `instance` block, are removed. */
  lemma InstanceRemoved(v: Value)
    requires Valid(v)
    ensures "instance" !in Parse(v).value.fields
  {
    assert "instance" !in Keys;
    assert "instance" !in v.fields.Keys * Keys;
  }
}
