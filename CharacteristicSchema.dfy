/** `CharacteristicSchema`: a plain (key-removing) zod object describing one
    HomeKit characteristic as the HAP client reports it. */
module CharacteristicSchema {
  import opened Wrappers
  import opened Json
  import opened Zod

  const Formats: set<string> :=
    {"bool", "int", "float", "string", "uint8", "uint16", "uint32", "uint64",
     "data", "tlv8", "array", "dictionary"}

  const Perms: set<string> := {"pr", "pw", "ev", "aa", "tw", "hd", "wr"}

  const Units: set<string> := {"unit", "percentage", "celsius", "arcdegrees", "lux", "seconds"}

  /** The keys whose absence or wrong type rejects the object. */
  const RequiredKeys: set<string> :=
    {"aid", "iid", "type", "description", "format", "perms", "canRead", "canWrite", "ev"}

  /** Every key the schema declares; any other key is removed by parsing. */
  const Keys: set<string> :=
    RequiredKeys +
    {"value", "unit", "maxValue", "minValue", "minStep", "maxLen", "validValues", "validValueRanges"}

  predicate ValidFields(o: map<string, Value>) {
    && Required(o, "aid", Number)
    && Required(o, "iid", Number)
    && Required(o, "type", String)
    && Required(o, "description", String)
    && Optional(o, "value", Primitive)
    && Required(o, "format", Enum(Formats))
    && Required(o, "perms", EnumArray(Perms))
    && Optional(o, "unit", Enum(Units))
    && Optional(o, "maxValue", Number)
    && Optional(o, "minValue", Number)
    && Optional(o, "minStep", Number)
    && Optional(o, "maxLen", Number)
    && Optional(o, "validValues", NumberArray)
    && Optional(o, "validValueRanges", NumberPair)
    && Required(o, "canRead", Boolean)
    && Required(o, "canWrite", Boolean)
    && Required(o, "ev", Boolean)
  }

  /** The object accepted by `CharacteristicSchema.safeParse`. */
  predicate Valid(v: Value) {
    v.JObject? && ValidFields(v.fields)
  }

  /** Validity looks only at declared keys. */
  lemma ValidFieldsOnlyDeclared(o: map<string, Value>, o': map<string, Value>)
    requires forall key :: key in Keys ==> (key in o <==> key in o') && (key in o ==> o[key] == o'[key])
    ensures ValidFields(o) <==> ValidFields(o')
  {
  }

  /** `CharacteristicSchema.safeParse`: `None` on rejection, otherwise the
      output object, which keeps exactly the declared keys present in the input. */
  function Parse(v: Value): (r: Option<Value>)
    ensures r.Some? <==> Valid(v)
    ensures r.Some? ==> r.value.JObject? && r.value.fields.Keys == v.fields.Keys * Keys
    ensures r.Some? ==> forall key :: key in r.value.fields ==> r.value.fields[key] == v.fields[key]
    ensures r.Some? ==> Valid(r.value)
  {
    if Valid(v) then
      var out := Strip(v.fields, Keys);
      ValidFieldsOnlyDeclared(v.fields, out);
      Some(JObject(out))
    else None
  }

  /** Parsing an accepted object again changes nothing. */
  lemma ParseIdempotent(v: Value)
    requires Valid(v)
    ensures Parse(Parse(v).value) == Parse(v)
  {
    var out := Parse(v).value;
    assert Strip(out.fields, Keys) == out.fields;
  }

  /** An undeclared key never reaches the output. */
  lemma UnknownKeyRemoved(v: Value, key: string)
    requires Valid(v) && key !in Keys
    ensures key !in Parse(v).value.fields
  {
  }

  /** `format` is accepted exactly when it is one of the twelve listed strings. */
  lemma FormatAcceptedIff(o: map<string, Value>, f: Value)
    requires ValidFields(o)
    ensures ValidFields(o["format" := f]) <==> f.JString? && f.s in Formats
  {
  }

  /** `perms` is accepted exactly when every element is a listed permission;
      the empty array is accepted. */
  lemma PermsAcceptedIff(o: map<string, Value>, items: seq<Value>)
    requires ValidFields(o)
    ensures ValidFields(o["perms" := JArray(items)]) <==>
              forall i | 0 <= i < |items| :: items[i].JString? && items[i].s in Perms
    ensures ValidFields(o["perms" := JArray([])])
  {
  }

  /** `value` may be missing; when present it is a number, string, boolean or null. */
  lemma ValueOptional(o: map<string, Value>, x: Value)
    requires ValidFields(o)
    ensures ValidFields(o - {"value"})
    ensures ValidFields(o["value" := x]) <==> (x.JNumber? || x.JString? || x.JBool? || x.JNull?)
  {
  }

  /** `unit` may be missing; when present it is one of the six listed units. */
  lemma UnitOptional(o: map<string, Value>, x: Value)
    requires ValidFields(o)
    ensures ValidFields(o - {"unit"})
    ensures ValidFields(o["unit" := x]) <==> x.JString? && x.s in Units
  {
  }

  /** `validValueRanges` is exactly a pair of numbers; `validValues` an array of numbers. */
  lemma RangesShape(o: map<string, Value>, x: Value)
    requires ValidFields(o)
    ensures ValidFields(o["validValueRanges" := x]) <==>
              x.JArray? && |x.items| == 2 && x.items[0].JNumber? && x.items[1].JNumber?
    ensures ValidFields(o["validValues" := x]) <==>
              x.JArray? && forall i | 0 <= i < |x.items| :: x.items[i].JNumber?
  {
  }

  /** A required key that is missing, or set to null, rejects the object. */
  lemma RequiredKeyMissingOrNull(o: map<string, Value>, key: string)
    requires key in RequiredKeys
    ensures !ValidFields(o - {key})
    ensures !ValidFields(o[key := JNull])
  {
  }
}
