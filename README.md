# homebridge-plugin-automation, modelled in Dafny

This project models the core of a Homebridge plugin. The plugin connects a
local HomeKit accessory network to a remote service over a WebSocket and
embeds a small automation script. The model covers:

- **The wire protocol validators** (`src/schemas/*.ts`). These are zod
  schemas over JSON. JSON is the datatype `Json.Value`, with objects as
  `map<string, Value>`. Each schema is a validity predicate plus a `Parse`
  function that returns zod's output object. A plain `z.object` drops
  undeclared keys (`Zod.Strip`). A `.passthrough()` object keeps them, so
  `ClientCharacteristic` and `ClientService` parse to exactly their input
  (zod's one exception, a `__proto__` key, is listed under "Left out").
  Both envelopes extend a plain object, so they drop undeclared keys,
  `apiKey` among them.
- **The message type declarations** (`src/types/*.ts`) as datatypes. Two
  lemmas show where the types and the schemas disagree:
  `ServerMessageTypes.DecodeEncode` shows that `Future` has no schema and
  is always rejected. `ClientMessageTypes.SchemaCannotSeeApiKey` shows that
  the required `apiKey` never survives validation.
- **The automation script's `services` cache** (`src/platformApi.ts`). The
  `Automation` class holds the cache and its `HandleMessage` method updates
  it. `SetEnvelope` builds the envelope that `set` hands to the host.
- **`debounce`** (`src/util/debounce.ts`) as a one-slot timer over an
  abstract millisecond clock. `Debouncer` is the class; `Timer`, `OnCall`
  and `OnTick` are its specification.
- **`findConfigPin`** (`src/util/findConfigPin.ts`) as a loop over paths.
  A path is a sequence of segments and the root `/` is `[]`. The
  filesystem is an oracle map from a directory to what its `config.json`
  holds.
- **`HomebridgeAI`'s bookkeeping** (`src/platform.ts`). The model covers:
  - `reconnectAttempts`, `socketReady`, `hapReady` and `hapMonitor`, as the
    event handlers change them;
  - the debounced start of monitoring;
  - the readiness gate in `fetchAllDevicesAndCharacteristics`;
  - the envelope `sendMessage` builds.

  The pure specification is `Platform.Apply` / `Platform.Run` over
  `Bookkeeping`. Each handler of the class is proved against it.

Two facts about the code as it stands:

- The embedded script does not parse. The `automation` object literal has
  two syntax errors. The first is `services: [];` at src/platformApi.ts:3,
  where a `;` stands in place of a `,`. The second is a missing `,`
  between the closing brace of `handleMessage` (src/platformApi.ts:16) and
  `set` (src/platformApi.ts:18). The model takes the evident reading with
  both commas in place.
- src/platform.ts:14 imports `DeviceStatus`, `Message` and `reduceService`
  from src/types/clientMessage.ts, which exports none of them. In the model,
  `Message` is the `(type, data)` pair `sendMessage` receives, and
  `reduceService` is a function parameter.

The code has no reconnect backoff, outbound buffering, metrics counters,
`Notify` message or characteristic-write fulfilment, so none is modelled.

## Model

| member | source | states |
|---|---|---|
| CharacteristicSchema.Parse | src/schemas/Characteristic.ts:3-54 | accepts exactly the valid objects; the output has exactly the declared keys present in the input, with unchanged values, and is itself valid |
| CharacteristicSchema.ValidFieldsOnlyDeclared | src/schemas/Characteristic.ts:3-54 | validity depends only on the declared keys |
| CharacteristicSchema.ParseIdempotent | src/schemas/Characteristic.ts:3-54 | parsing a parse output again gives the same output |
| CharacteristicSchema.UnknownKeyRemoved | src/schemas/Characteristic.ts:3 | an undeclared key never appears in the output |
| CharacteristicSchema.FormatAcceptedIff | src/schemas/Characteristic.ts:16-29 | `format` is accepted iff it is one of the twelve listed strings |
| CharacteristicSchema.PermsAcceptedIff | src/schemas/Characteristic.ts:32 | `perms` is accepted iff every element is one of `pr, pw, ev, aa, tw, hd, wr`; `[]` is accepted |
| CharacteristicSchema.ValueOptional | src/schemas/Characteristic.ts:15 | `value` may be absent; if present it is accepted iff it is a number, string, boolean or null |
| CharacteristicSchema.UnitOptional | src/schemas/Characteristic.ts:34-36 | `unit` may be absent; if present it is accepted iff it is one of the six units |
| CharacteristicSchema.RangesShape | src/schemas/Characteristic.ts:47-48 | `validValueRanges` is accepted iff it is an array of exactly two numbers; `validValues` iff it is an array of numbers |
| CharacteristicSchema.RequiredKeyMissingOrNull | src/schemas/Characteristic.ts:4-53 | removing any of `aid, iid, type, description, format, perms, canRead, canWrite, ev`, or setting it to null, rejects the object |
| ServiceSchema.ParseCharacteristics | src/schemas/Service.ts:19 | the characteristic array is accepted iff every element is; the output has the same length and holds each element's own parse output, in order |
| ServiceSchema.Parse | src/schemas/Service.ts:4-47 | accepts exactly the valid services; the output keeps exactly the declared keys present, with every value except `serviceCharacteristics` unchanged; `serviceCharacteristics` becomes the element-wise parse of the input list, in order; the output is itself valid |
| ServiceSchema.NestedUnknownKeyRemoved | src/schemas/Service.ts:19 | in an accepted service, every characteristic of the output has lost the keys its own schema does not declare |
| ServiceSchema.CharacteristicsElementwise | src/schemas/Service.ts:19 | a service with a given characteristic list is accepted iff every element is an accepted characteristic; `[]` is accepted |
| ServiceSchema.BadCharacteristicRejects | src/schemas/Service.ts:19 | one rejected characteristic rejects the whole service |
| ServiceSchema.UniqueIdOptional | src/schemas/Service.ts:46 | `uniqueId` may be absent; if present it is accepted iff it is a string |
| ServiceSchema.LinkedOptional | src/schemas/Service.ts:10-12 | `linked` may be absent; if present it is accepted iff it is an array of numbers |
| ServiceSchema.HiddenOptional | src/schemas/Service.ts:17 | `hidden` may be absent; if present it is accepted iff it is a boolean |
| ServiceSchema.RequiredFields | src/schemas/Service.ts:5-19 | removing `aid, iid, uuid, type, humanType, serviceName` or `serviceCharacteristics`, or setting it to null, rejects the service |
| ServiceSchema.InstanceRemoved | src/schemas/Service.ts:34-40 | an `instance` block never appears in the output |
| ClientMessageSchema.ParseCharacteristic | src/schemas/ClientMessage.ts:5-13 | accepts exactly the valid client characteristics and returns them unchanged, extra keys included |
| ClientMessageSchema.ParseCharacteristics | src/schemas/ClientMessage.ts:18 | the array is accepted iff every element is, and comes back unchanged |
| ClientMessageSchema.ParseService | src/schemas/ClientMessage.ts:15-20 | accepts exactly the valid client services and returns them unchanged, extra keys included |
| ClientMessageSchema.ParseServices | src/schemas/ClientMessage.ts:28 | the service array is accepted iff every element is, and comes back unchanged |
| ClientMessageSchema.ParseDeviceList | src/schemas/ClientMessage.ts:26-29 | accepts exactly the valid `deviceList` envelopes; the output is the input restricted to `version`, `type`, `data` |
| ClientMessageSchema.ParseDeviceStatusChange | src/schemas/ClientMessage.ts:31-34 | the same for `deviceStatusChange` envelopes |
| ClientMessageSchema.VariantsDisjoint | src/schemas/ClientMessage.ts:36-39 | no value matches both union members |
| ClientMessageSchema.Parse | src/schemas/ClientMessage.ts:22-39 | the union accepts exactly the valid messages; each has `version` 1 and one of the two tags; the output holds only `version`, `type` and `data`, each unchanged, so `apiKey` never survives |
| ClientMessageSchema.DataShapes | src/schemas/ClientMessage.ts:26-34 | `deviceList` data is accepted iff it is an array of client services, possibly empty; `deviceStatusChange` data must be one service, not an array |
| ClientMessageSchema.OtherTagRejected | src/schemas/ClientMessage.ts:26-39 | any tag other than `deviceList` and `deviceStatusChange` is rejected, whatever the other fields |
| ClientMessageSchema.OtherVersionRejected | src/schemas/ClientMessage.ts:22-24 | any version other than 1 is rejected, whatever the other fields |
| ClientMessageSchema.CharacteristicFields | src/schemas/ClientMessage.ts:5-12 | missing or null `iid, serviceType, serviceName, type` reject; `value` may be absent and, if present, is accepted iff it is a number, string, boolean or null |
| ClientMessageSchema.ExtraKeysSurvive | src/schemas/ClientMessage.ts:13-20 | adding an undeclared key to a valid client characteristic or service keeps it valid, and the key survives parsing |
| ServerMessageSchema.Parse | src/schemas/ServerMessage.ts:14-23 | accepts exactly the valid messages; the output is exactly `{version: 1, type: "SetCharacteristic", data: {serviceId, iid, value}}` with the input's three data values; every other key, at both levels, is removed |
| ServerMessageSchema.TagAndVersion | src/schemas/ServerMessage.ts:3-23 | a valid message stays valid under another tag iff the tag is `SetCharacteristic`, and under another version iff it is 1 |
| ServerMessageSchema.DataFields | src/schemas/ServerMessage.ts:16-20 | `value` is accepted iff it is a number, string or boolean, and null or absence is rejected; `serviceId` must be a string and `iid` a number |
| ServerMessageTypes.Tag | src/types/serverMessage.ts:11-21 | the tag is `SetCharacteristic` iff the message is that variant |
| ServerMessageTypes.EncodeValue | src/types/serverMessage.ts:8 | a settable value is a number, string or boolean, never null |
| ServerMessageTypes.Encode | src/types/serverMessage.ts:1-21 | every encoded message is an object with `version` 1 and its variant's tag |
| ServerMessageTypes.DecodeEncode | src/types/serverMessage.ts:16-21 | every `SetCharacteristic` round-trips through validation; every `Future` is rejected, since no schema exists for it |
| ServerMessageTypes.EncodeDecode | src/types/serverMessage.ts:5-14 | decoding succeeds iff the schema accepts, and re-encoding gives exactly the schema's parse output |
| ServerMessageTypes.TagsDistinguish | src/types/serverMessage.ts:21 | equal tags mean the same variant |
| ClientMessageTypes.Encode | src/types/clientMessage.ts:3-18 | an encoded message has exactly `version`, `apiKey`, `type`, `data`; its tag matches its variant |
| ClientMessageTypes.SchemaAcceptsTyped | src/types/clientMessage.ts:8-18 | a typed message passes the runtime schema iff its services conform to `ClientService` |
| ClientMessageTypes.SchemaDropsApiKey | src/types/clientMessage.ts:3-6 | validating an accepted typed message removes `apiKey` and nothing else |
| ClientMessageTypes.SchemaCannotSeeApiKey | src/types/clientMessage.ts:3-6 | messages that differ only in `apiKey` parse identically |
| PlatformApi.FindFirst | src/platformApi.ts:8 | `find` returns the first cached service whose `uniqueId` equals the data's, where absent equals absent; `None` iff there is none |
| PlatformApi.Automation.constructor | src/platformApi.ts:2-3 | the cache starts empty |
| PlatformApi.Automation.HandleMessage | src/platformApi.ts:5-16 | the new cache is `Handled(old cache, message)` |
| PlatformApi.StatusChangeMerges | src/platformApi.ts:6-12 | for any handled `deviceStatusChange` message, whatever its other keys (`version`, `apiKey`): the first entry whose `uniqueId` matches the data's gets the union of keys, with data values winning and cache-only keys kept; other entries and the length do not change |
| PlatformApi.UnknownIdUnchanged | src/platformApi.ts:9 | a status change with no matching `uniqueId` leaves the cache unchanged and never appends |
| PlatformApi.ListReplacesOthersKeep | src/platformApi.ts:5-16 | `deviceList` replaces the cache with its data in order; other tags leave it unchanged; only `deviceList` changes the length |
| PlatformApi.ValidatedForwardable | src/platformApi.ts:5-16 | every message the `ClientMessage` schema accepts, and its parse output, is one the script handles without throwing |
| PlatformApi.SetEnvelope | src/platformApi.ts:18-28 | `set`'s envelope passes the server schema iff `serviceId` is a string, `iid` a number and `value` a number, string or boolean; it then passes validation unchanged |
| PlatformApi.SetEnvelopeDecodes | src/platformApi.ts:18-28 | a valid `set` envelope decodes to the typed `SetCharacteristic` carrying `set`'s three arguments |
| PlatformApi.SetEnvelopeEncodes | src/platformApi.ts:18-28 | every typed `SetCharacteristic` is exactly what `set` emits for its fields |
| PlatformApi.OnMessageLosesUpdate | src/platformApi.ts:7 | as written, a status change for a cached lamp throws and is lost; the intended handler merges it |
| Debounce.EffectiveDelay | src/util/debounce.ts:10 | the timer delay is `waitFor` when 1 <= `waitFor` <= 2^31-1, otherwise 1 ms (Node's clamp) |
| Debounce.CallCancelsPending | src/util/debounce.ts:9-10 | a call never invokes `func`; whatever was pending is replaced by one timer due at now + delay, with this call's arguments |
| Debounce.BurstDefers | src/util/debounce.ts:8-11 | during a burst (every event less than the delay after the latest call) nothing fires; afterwards exactly one invocation is pending, with the latest call's arguments, due at that call + delay |
| Debounce.BurstFiresOnce | src/util/debounce.ts:8-11 | a burst followed by a tick at or after the deadline invokes `func` exactly once, with the latest arguments, and leaves nothing pending |
| Debounce.IdleTicksDoNothing | src/util/debounce.ts:10 | with nothing pending, ticks never invoke `func` |
| Debounce.Debouncer.constructor | src/util/debounce.ts:1-5 | no timer is pending and nothing has been invoked |
| Debounce.Debouncer.Call | src/util/debounce.ts:8-11 | the state becomes `OnCall(old state, ...)` |
| Debounce.Debouncer.Tick | src/util/debounce.ts:10 | the state becomes `OnTick(old state, now)`; `fired` holds the pending arguments iff an invocation happened |
| FindConfigPin.Parent | src/util/findConfigPin.ts:20 | `dirname` drops exactly the last segment |
| FindConfigPin.Examine | src/util/findConfigPin.ts:8-16 | one directory throws iff its `config.json` exists and is unreadable, malformed or `null`; it yields a pin iff the config is an object whose `bridge` is an object with a truthy `pin`, and the pin is that value |
| FindConfigPin.FindConfigPin | src/util/findConfigPin.ts:4-25 | the loop returns `Search(start)` and examines exactly `Visited(start)` |
| FindConfigPin.VisitOrder | src/util/findConfigPin.ts:5-20 | the search examines `start` first and then each parent in turn, never more than `|start|` directories, and never the root |
| FindConfigPin.SkipClear | src/util/findConfigPin.ts:14-20 | directories that yield no pin and do not throw are skipped |
| FindConfigPin.NotFoundIff | src/util/findConfigPin.ts:7-24 | null is returned iff no directory below the root yields a pin or throws |
| FindConfigPin.NearestPin | src/util/findConfigPin.ts:10-16 | a returned pin comes from the nearest directory with a truthy `bridge.pin`, and every nearer directory yields nothing; such a directory always determines the result |
| FindConfigPin.RootNeverExamined | src/util/findConfigPin.ts:7 | the result does not depend on the root's `config.json` |
| FindConfigPin.NoPinContinues | src/util/findConfigPin.ts:14-20 | any object config without `bridge`, whose `bridge` is not an object, or without a truthy `bridge.pin`, whatever its other keys, does not stop the search |
| Platform.ApplyKeepsInv | src/platform.ts:62-98 | every event keeps the rule that a monitor or a pending start implies `hapReady` |
| Platform.MonitorOnlyAfterDiscovery | src/platform.ts:62-98 | from start-up, no monitor exists before an instance has been discovered |
| Platform.ReadyAndMonitorStay | src/platform.ts:66-98 | `hapReady` is never reset; a set monitor is never replaced, so at most one monitor is created |
| Platform.SocketBookkeeping | src/platform.ts:148-185 | over any event sequence: `reconnectAttempts` is the number of errors since the latest open or close; `socketReady` is true iff that latest event was an open; each launch and each close adds exactly one connection |
| Platform.DeviceListData | src/platform.ts:122 | the `deviceList` data has the fetched services' length and order, each reduced |
| Platform.VersionedEnvelope | src/platform.ts:188-193 | the envelope carries `apiKey` iff it is defined; without `apiKey` it is exactly the `{version: 1, type, data}` object the `ClientMessage` schema outputs, and the schema accepts it iff it accepts that object and then returns that object |
| Platform.DeviceListEnvelope | src/platform.ts:188-194 | with a string `apiKey`, `sendMessage`'s `deviceList` envelope is exactly the typed `DeviceList` message; the schema drops its `apiKey` |
| Platform.HomebridgeAI.constructor | src/platform.ts:33-88 | counters zero, both flags false, no monitor, nothing pending or sent |
| Platform.HomebridgeAI.ConnectSocket | src/platform.ts:143-146 | one more connection is opened |
| Platform.HomebridgeAI.OnDidFinishLaunching | src/platform.ts:74-77 | the state becomes `Apply(old, Launched)`: one connection is opened |
| Platform.HomebridgeAI.OnOpen | src/platform.ts:148-152 | `reconnectAttempts` becomes 0 and `socketReady` true |
| Platform.HomebridgeAI.OnError | src/platform.ts:170-178 | `reconnectAttempts` grows by exactly 1 and nothing else changes; `exhausted` iff it has reached 50 |
| Platform.HomebridgeAI.OnClose | src/platform.ts:180-185 | `socketReady` becomes false, `reconnectAttempts` 0, and a new connection opens at once |
| Platform.HomebridgeAI.OnInstanceDiscovered | src/platform.ts:66-71 | `hapReady` becomes true and the debounced start is re-armed for now + 4000 |
| Platform.HomebridgeAI.StartMonitoring | src/platform.ts:90-98 | does nothing when a monitor exists, otherwise sets it |
| Platform.HomebridgeAI.OnClockTick | src/platform.ts:62-65 | the state becomes `Apply(old, ClockTick)`: a due debounced call starts monitoring |
| Platform.HomebridgeAI.SendMessage | src/platform.ts:188-195 | exactly one envelope `{version: 1, apiKey, type, data}` is appended to the outbox |
| Platform.HomebridgeAI.FetchAllDevicesAndCharacteristics | src/platform.ts:105-123 | sends iff both `hapReady` and `socketReady` hold, and then exactly one `deviceList` envelope; bookkeeping is unchanged |

## Findings

| source | as written | input that shows it | evidently intended | confidence | as-written member | corrected member |
|---|---|---|---|---|---|---|
| src/platformApi.ts:7 | `handleMessage` calls `onMessage(message.data)` before the merge, and the script never defines `onMessage`. Unless the host or the user's code supplies a global `onMessage`, every `deviceStatusChange` throws a ReferenceError and the cache is never updated | cache `[{uniqueId: "lamp", on: false}]`, message `{type: "deviceStatusChange", data: {uniqueId: "lamp", on: true}}` | the status change is merged into the cached lamp, giving `[{uniqueId: "lamp", on: true}]` | medium (depends on whether the host supplies `onMessage`); not executed | PlatformApi.HandledAsWritten, PlatformApi.OnMessageLosesUpdate | PlatformApi.Automation.HandleMessage |

## Left out

- PlatformApi.Automation.HandleMessage: requires `Forwardable(message)`, so inputs outside it are not modelled: a message that is not an object, `deviceStatusChange` data that is not an object, and `deviceList` data that is not an array of objects. The script has no guard against these. Some of them throw (`null` status data with a non-empty cache). Others do not: a number or array message is a no-op, string or array status data makes `Object.assign` copy index keys onto the matched entry, and a `deviceList` of `[1, 2]` caches non-objects. `PlatformApi.ValidatedForwardable` shows that every schema-accepted message, and its parse output, is `Forwardable`.
- PlatformApi.SameId: `uniqueId` values are compared by value. JavaScript's `===` compares object-valued ids by reference.
- PlatformApi.Automation.HandleMessage: cache entries are values. `Object.assign` mutates the cached object in place. That object may be shared with the `deviceList` message that supplied it, and this aliasing is not modelled.
- The script defines neither `onMessage` (src/platformApi.ts:7) nor `__host` (src/platformApi.ts:19). Both must come from outside the script, and their bodies are not modelled. `PlatformApi.Handled` and `PlatformApi.Automation.HandleMessage` assume a global `onMessage` exists and leaves the cache alone. `PlatformApi.HandledAsWritten` models the case where none exists (see Findings). `set` is modelled as the envelope it hands to `__host`.
- PlatformApi.SetEnvelope: `set` called with fewer than three arguments puts `undefined` into `data` (src/platformApi.ts:18-26). `Value` cannot hold `undefined`, so such calls are not modelled.
- The two syntax errors in the script (src/platformApi.ts:3 and between lines 16 and 18) are not modelled (see above).
- WebSocket construction, TLS options and `socket.send` (src/platform.ts:144-146, 194) are network I/O. Sending appends to `outbox`.
- The socket `message` handler (src/platform.ts:154-168) is not modelled. It runs `JSON.parse` on the payload and destructures the result, and it does nothing else. A non-JSON or `null` payload makes the async handler reject, and nothing catches that rejection. `HomebridgeAI.handleMessage` (src/platform.ts:197-199) and `configureAccessory` (src/platform.ts:201-206) do nothing.
- The shutdown handler (src/platform.ts:79-82) only calls `finish()` on the monitor. That is a foreign call and changes no field.
- The HAP client is outside the model: its construction, `getAllServices`, `monitorCharacteristics`, the `service-update` listener and the 20 s diagnostic timer (src/platform.ts:53-60, 84-87, 98-102). The fetched services and the resulting monitor are parameters.
- `reduceService` is a function parameter, because it is defined nowhere in this repository.
- Platform.HomebridgeAI.StartMonitoring: assumes `monitorCharacteristics()` resolves. If it rejects, the source leaves `hapMonitor` unset (src/platform.ts:98), whereas the model always stores the monitor it is given.
- Platform.HomebridgeAI.StartMonitoring: handlers run one at a time. The race between the check and the awaited assignment (src/platform.ts:91-98) is async interleaving and is not modelled.
- Platform.HomebridgeAI.FetchAllDevicesAndCharacteristics: assumes `getAllServices()` resolves. If it rejects, the source sends nothing even when both flags hold (src/platform.ts:116), whereas `sent` is true exactly when both flags hold.
- Platform.HomebridgeAI.FetchAllDevicesAndCharacteristics: the `await` between the readiness check and the send is treated as atomic.
- Platform.HomebridgeAI.OnError: logging is left out. Only the branch at 50 attempts is kept, as `exhausted`.
- `fs.existsSync`, `readFileSync`, `JSON.parse` and `path.dirname` are replaced by the oracle and segment lists. A read or parse failure is `Unreadable`, and it escapes as `Failed`.
- FindConfigPin.FindConfigPin: only absolute paths are modelled, because `__dirname` is absolute. From a relative path, `dirname` would stop at `.` and loop forever.
- Debounce: real timers are replaced by an abstract integer clock. `func`'s own effect is recorded only as the arguments it ran with.
- JSON numbers are `real`, which has no infinities. `JSON.parse` turns an overflowing literal such as `1e400` into `Infinity`, which `z.number()` accepts; such numbers are not modelled. JSON cannot carry NaN, so zod's NaN check has nothing to reject.
- ClientMessageSchema.ParseCharacteristic: zod 3 never copies a key named `__proto__` into an object's output. A passthrough characteristic carrying that key therefore comes back without it, not unchanged as the contract states. Inputs with a `__proto__` key are not modelled.
- ClientMessageSchema.ParseService: the same for a passthrough service carrying a `__proto__` key.
- ClientMessageSchema.ParseCharacteristics, ClientMessageSchema.ParseServices: the identity contract inherits the same `__proto__` exception from the element parsers.
- ClientMessageSchema.ExtraKeysSurvive: the added key must not be `__proto__`, which zod drops.
- ClientMessageSchema.Parse: the `data` it passes on is the input's only when no service or characteristic inside it carries a `__proto__` key. The same holds for ClientMessageSchema.ParseDeviceList, ClientMessageSchema.ParseDeviceStatusChange, ClientMessageTypes.SchemaDropsApiKey and Platform.DeviceListEnvelope.
- src/index.ts (plugin registration), src/test.ts (smoke instantiation) and all logging carry no logic.
