/** The handful of zod building blocks the protocol schemas are made of:
    field kinds, required and optional fields, the two ways an object schema
    treats keys it does not declare, and the shared `{version: 1}` base. */
module Zod {
  import opened Wrappers
  import opened Json

  /** The leaf schemas used in the message validators. */
  datatype Kind =
    | Number                       // z.number()
    | String                       // z.string()
    | Boolean                      // z.boolean()
    | Primitive                    // z.union([z.number(), z.string(), z.boolean(), z.null()])
    | Scalar                       // z.union([z.number(), z.string(), z.boolean()])
    | Enum(allowed: set<string>)   // z.enum([...])
    | EnumArray(allowed: set<string>) // z.array(z.enum([...]))
    | NumberArray                  // z.number().array()
    | NumberPair                   // z.tuple([z.number(), z.number()])
    | Literal(expected: Value)     // z.literal(...)

  predicate Is(v: Value, k: Kind) {
    match k
    case Number => v.JNumber?
    case String => v.JString?
    case Boolean => v.JBool?
    case Primitive => v.JNumber? || v.JString? || v.JBool? || v.JNull?
    case Scalar => v.JNumber? || v.JString? || v.JBool?
    case Enum(allowed) => v.JString? && v.s in allowed
    case EnumArray(allowed) =>
      v.JArray? && forall i | 0 <= i < |v.items| :: v.items[i].JString? && v.items[i].s in allowed
    case NumberArray => v.JArray? && forall i | 0 <= i < |v.items| :: v.items[i].JNumber?
    case NumberPair => v.JArray? && |v.items| == 2 && v.items[0].JNumber? && v.items[1].JNumber?
    case Literal(expected) => v == expected
  }

  /** A declared key without `.optional()`: it must be present and match. */
  predicate Required(o: map<string, Value>, key: string, k: Kind) {
    key in o && Is(o[key], k)
  }

  /** A declared key wrapped in `z.optional`: absent, or present and matching. */
  predicate Optional(o: map<string, Value>, key: string, k: Kind) {
    key in o ==> Is(o[key], k)
  }

  /** What a plain `z.object` keeps of its input: the declared keys only. */
  function Strip(o: map<string, Value>, declared: set<string>): (r: map<string, Value>)
    ensures r.Keys == o.Keys * declared
    ensures forall key :: key in r ==> r[key] == o[key]
  {
    map key | key in o && key in declared :: o[key]
  }

  /** The keys a `.passthrough()` object carries over untouched. */
  function Extras(o: map<string, Value>, declared: set<string>): (r: map<string, Value>)
    ensures r.Keys == o.Keys - declared
    ensures forall key :: key in r ==> r[key] == o[key]
  {
    o - declared
  }

  /** A passthrough object's output: its declared keys (already parsed, and
      here unchanged by parsing) together with every extra key. */
  lemma PassthroughKeepsAll(o: map<string, Value>, declared: set<string>)
    ensures Strip(o, declared) + Extras(o, declared) == o
  {
  }

  /** `z.object({version: z.literal(1)})`, the base both envelopes extend. */
  const VersionOne: Value := JNumber(1.0)

  /** The keys a versioned envelope schema declares. */
  const EnvelopeKeys: set<string> := {"version", "type", "data"}

  predicate Versioned(o: map<string, Value>) {
    Required(o, "version", Literal(VersionOne))
  }

  /** `version: 1` in the type declarations. */
  type ProtocolVersion = v: int | v == 1 witness 1
}
