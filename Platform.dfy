/** The `HomebridgeAI` platform's own bookkeeping: the reconnect counter,
    the two readiness flags, the single HAP monitor, the debounced start of
    monitoring, the gate in front of the device-list snapshot and the
    envelope `sendMessage` builds. Sockets and the HAP client are outside the
    model: their events arrive as method calls, and what would be sent on
    the socket is appended to `outbox`. */
module Platform {
  import opened Wrappers
  import opened Json
  import opened Zod
  import Debounce
  import ClientSchema = ClientMessageSchema
  import ClientTypes = ClientMessageTypes

  /** `debounce(this.startMonitoring, 4000)`. */
  const MonitorDelay: int := 4000

  /** From this many consecutive errors on, the error handler logs that it gives up. */
  const MaxReconnectAttempts: nat := 50

  /** The monitor `hap.monitorCharacteristics()` resolves to. */
  type MonitorId = nat

  /** The fields the handlers change; `connections` counts `connectSocket` calls. */
  datatype Bookkeeping = Bookkeeping(
    reconnectAttempts: nat,
    socketReady: bool,
    hapReady: bool,
    hapMonitor: Option<MonitorId>,
    connections: nat,
    monitorTimer: Debounce.Timer<()>)

  const Initial: Bookkeeping := Bookkeeping(0, false, false, None, 0, Debounce.Timer(None, []))

  /** The events the handlers react to. `ClockTick` lets time reach `now`;
      `monitor` is what starting the monitor would yield if the debounced
      timer fires. */
  datatype Event =
    | Launched
    | SocketOpen
    | SocketError
    | SocketClose
    | InstanceDiscovered(now: int)
    | ClockTick(now: int, monitor: MonitorId)

  /** `startMonitoring`: skipped once a monitor exists. */
  function StartMonitoring(s: Bookkeeping, m: MonitorId): (s': Bookkeeping) {
    if s.hapMonitor.Some? then s else s.(hapMonitor := Some(m))
  }

  function Apply(s: Bookkeeping, e: Event): (s': Bookkeeping) {
    match e
    case Launched => s.(connections := s.connections + 1)
    case SocketOpen => s.(reconnectAttempts := 0, socketReady := true)
    case SocketError => s.(reconnectAttempts := s.reconnectAttempts + 1)
    case SocketClose => s.(socketReady := false, reconnectAttempts := 0, connections := s.connections + 1)
    case InstanceDiscovered(now) =>
      s.(hapReady := true, monitorTimer := Debounce.OnCall(s.monitorTimer, MonitorDelay, now, ()))
    case ClockTick(now, m) =>
      var t := Debounce.OnTick(s.monitorTimer, now);
      var s' := s.(monitorTimer := t);
      if |t.invoked| > |s.monitorTimer.invoked| then StartMonitoring(s', m) else s'
  }

  /** The state after a sequence of events, taken in order. */
  function Run(s: Bookkeeping, events: seq<Event>): (s': Bookkeeping)
    decreases |events|
  {
    if events == [] then s
    else Apply(Run(s, events[..|events| - 1]), events[|events| - 1])
  }

  /** A monitor, a pending start or a past start all imply that an instance
      has been discovered. */
  ghost predicate Inv(s: Bookkeeping) {
    && (s.hapMonitor.Some? ==> s.hapReady)
    && (s.monitorTimer.pending.Some? ==> s.hapReady)
    && (|s.monitorTimer.invoked| > 0 ==> s.hapReady)
  }

  lemma ApplyKeepsInv(s: Bookkeeping, e: Event)
    requires Inv(s)
    ensures Inv(Apply(s, e))
  {
  }

  /** From start-up on, no monitor exists before an instance is discovered. */
  lemma {:induction false} MonitorOnlyAfterDiscovery(events: seq<Event>)
    ensures Inv(Run(Initial, events))
    ensures Run(Initial, events).hapMonitor.Some? ==> Run(Initial, events).hapReady
    decreases |events|
  {
    if events != [] {
      MonitorOnlyAfterDiscovery(events[..|events| - 1]);
      ApplyKeepsInv(Run(Initial, events[..|events| - 1]), events[|events| - 1]);
    }
  }

  /** `hapReady` is never reset, and a monitor, once set, is never replaced:
      at most one monitor is ever created. */
  lemma {:induction false} ReadyAndMonitorStay(s: Bookkeeping, events: seq<Event>)
    ensures s.hapReady ==> Run(s, events).hapReady
    ensures s.hapMonitor.Some? ==> Run(s, events).hapMonitor == s.hapMonitor
    decreases |events|
  {
    if events != [] {
      ReadyAndMonitorStay(s, events[..|events| - 1]);
    }
  }

  /** Errors since the latest open or close. */
  function ErrorsSinceReset(events: seq<Event>): (n: nat)
    decreases |events|
  {
    if events == [] then 0
    else
      match events[|events| - 1]
      case SocketError => ErrorsSinceReset(events[..|events| - 1]) + 1
      case SocketOpen => 0
      case SocketClose => 0
      case _ => ErrorsSinceReset(events[..|events| - 1])
  }

  /** The latest open or close, if any. */
  function LastOpenOrClose(events: seq<Event>): (r: Option<Event>)
    ensures r.Some? ==> r.value == SocketOpen || r.value == SocketClose
    decreases |events|
  {
    if events == [] then None
    else if events[|events| - 1] == SocketOpen || events[|events| - 1] == SocketClose then Some(events[|events| - 1])
    else LastOpenOrClose(events[..|events| - 1])
  }

  /** The number of `connectSocket` calls: one at launch, one per close. */
  function ConnectCount(events: seq<Event>): (n: nat)
    decreases |events|
  {
    if events == [] then 0
    else ConnectCount(events[..|events| - 1]) +
         (if events[|events| - 1] == Launched || events[|events| - 1] == SocketClose then 1 else 0)
  }

  /** `reconnectAttempts` counts the errors since the latest open or close,
      each adding exactly one; `socketReady` is true exactly when the latest
      open or close was an open; every close reconnects at once, so the
      connection count grows by one per launch and per close. */
  lemma {:induction false} SocketBookkeeping(s: Bookkeeping, events: seq<Event>)
    ensures Run(s, events).reconnectAttempts ==
              ErrorsSinceReset(events) + (if LastOpenOrClose(events).None? then s.reconnectAttempts else 0)
    ensures Run(s, events).socketReady ==
              match LastOpenOrClose(events) case None => s.socketReady case Some(e) => e == SocketOpen
    ensures Run(s, events).connections == s.connections + ConnectCount(events)
    decreases |events|
  {
    if events != [] {
      SocketBookkeeping(s, events[..|events| - 1]);
    }
  }

  /** What `sendMessage` hands to the socket: `{version: 1, apiKey, ...message}`.
      An undefined `apiKey` is dropped by `JSON.stringify`. Without its
      `apiKey` the envelope is exactly what the `ClientMessage` schema
      outputs, so the schema judges and returns it as if `apiKey` were absent. */
  function VersionedEnvelope(apiKey: Option<Value>, tag: string, data: Value): (envelope: Value)
    ensures envelope.JObject?
    ensures "apiKey" in envelope.fields <==> apiKey.Some?
    ensures apiKey.Some? ==> envelope.fields["apiKey"] == apiKey.value
    ensures JObject(envelope.fields - {"apiKey"}) == ClientSchema.Envelope(JString(tag), data)
    ensures ClientSchema.Valid(envelope) <==> ClientSchema.Valid(ClientSchema.Envelope(JString(tag), data))
    ensures ClientSchema.Valid(envelope) ==> ClientSchema.Parse(envelope) == Some(ClientSchema.Envelope(JString(tag), data))
  {
    var base := match apiKey
      case Some(k) => map["version" := VersionOne, "apiKey" := k]
      case None => map["version" := VersionOne];
    JObject(base["type" := JString(tag)]["data" := data])
  }

  /** The `deviceList` data: each fetched service reduced, in the same order. */
  function DeviceListData(services: seq<Value>, reduce: Value -> Value): (r: seq<Value>)
    ensures |r| == |services|
    ensures forall i | 0 <= i < |r| :: r[i] == reduce(services[i])
  {
    seq(|services|, i requires 0 <= i < |services| => reduce(services[i]))
  }

  /** With a string `apiKey`, the envelope is the typed `DeviceList` message
      on the wire; the schema accepts it exactly when the services conform,
      and then passes on everything but `apiKey`. */
  lemma DeviceListEnvelope(apiKey: string, services: seq<ClientTypes.ServiceType>)
    ensures VersionedEnvelope(Some(JString(apiKey)), "deviceList", JArray(ClientTypes.ServicesJson(services))) ==
            ClientTypes.Encode(ClientTypes.DeviceList(1, apiKey, services))
    ensures var m := ClientTypes.DeviceList(1, apiKey, services);
            ClientTypes.ServicesConform(m) ==>
              ClientSchema.Parse(ClientTypes.Encode(m)) == Some(JObject(ClientTypes.Encode(m).fields - {"apiKey"}))
  {
    var m := ClientTypes.DeviceList(1, apiKey, services);
    if ClientTypes.ServicesConform(m) {
      ClientTypes.SchemaDropsApiKey(m);
    }
  }

  /** The platform object. */
  class HomebridgeAI {
    const apiKey: Option<Value>
    var reconnectAttempts: nat
    var socketReady: bool
    var hapReady: bool
    var hapMonitor: Option<MonitorId>
    var connections: nat
    /** Envelopes handed to `socket.send`, oldest first. */
    var outbox: seq<Value>
    const eventuallyStartMonitoring: Debounce.Debouncer<()>

    function State(): (s: Bookkeeping)
      reads this, eventuallyStartMonitoring
    {
      Bookkeeping(reconnectAttempts, socketReady, hapReady, hapMonitor, connections,
                  eventuallyStartMonitoring.State())
    }

    ghost predicate Valid()
      reads this, eventuallyStartMonitoring
    {
      eventuallyStartMonitoring.waitFor == MonitorDelay && Inv(State())
    }

    constructor (apiKey: Option<Value>)
      ensures Valid() && State() == Initial && outbox == [] && this.apiKey == apiKey
      ensures fresh(eventuallyStartMonitoring)
    {
      this.apiKey := apiKey;
      reconnectAttempts := 0;
      socketReady := false;
      hapReady := false;
      hapMonitor := None;
      connections := 0;
      outbox := [];
      eventuallyStartMonitoring := new Debounce.Debouncer(MonitorDelay);
    }

    /** `connectSocket`: a new socket, whose events arrive as the handlers below. */
    method ConnectSocket()
      modifies this`connections
      ensures connections == old(connections) + 1
    {
      connections := connections + 1;
    }

    /** The `didFinishLaunching` handler. */
    method OnDidFinishLaunching()
      requires Valid()
      modifies this`connections
      ensures Valid() && State() == Apply(old(State()), Launched)
    {
      ConnectSocket();
    }

    /** The socket's `open` handler. */
    method OnOpen()
      requires Valid()
      modifies this`reconnectAttempts, this`socketReady
      ensures Valid() && State() == Apply(old(State()), SocketOpen)
    {
      reconnectAttempts := 0;
      socketReady := true;
    }

    /** The socket's `error` handler: one more attempt counted, no retry
      scheduled (the retry line is commented out); `exhausted` is the
      branch that logs giving up. */
    method OnError() returns (exhausted: bool)
      requires Valid()
      modifies this`reconnectAttempts
      ensures Valid() && State() == Apply(old(State()), SocketError)
      ensures exhausted <==> reconnectAttempts >= MaxReconnectAttempts
    {
      reconnectAttempts := reconnectAttempts + 1;
      exhausted := !(reconnectAttempts < MaxReconnectAttempts);
    }

    /** The socket's `close` handler: not ready, counter reset, and an
      immediate reconnect. */
    method OnClose()
      requires Valid()
      modifies this`socketReady, this`reconnectAttempts, this`connections
      ensures Valid() && State() == Apply(old(State()), SocketClose)
    {
      socketReady := false;
      reconnectAttempts := 0;
      ConnectSocket();
    }

    /** The HAP client's `instance-discovered` handler. */
    method OnInstanceDiscovered(now: int)
      requires Valid()
      modifies this`hapReady, eventuallyStartMonitoring
      ensures Valid() && State() == Apply(old(State()), InstanceDiscovered(now))
    {
      hapReady := true;
      eventuallyStartMonitoring.Call(now, ());
    }

    /** `startMonitoring`, with the monitor the HAP client yields. */
    method StartMonitoring(monitor: MonitorId)
      modifies this`hapMonitor
      ensures hapMonitor == if old(hapMonitor).Some? then old(hapMonitor) else Some(monitor)
    {
      if hapMonitor.Some? {
        return;
      }
      hapMonitor := Some(monitor);
    }

    /** Time reaching `now`: a due debounced call starts monitoring. */
    method OnClockTick(now: int, monitor: MonitorId)
      requires Valid()
      modifies this`hapMonitor, eventuallyStartMonitoring
      ensures Valid() && State() == Apply(old(State()), ClockTick(now, monitor))
    {
      var fired := eventuallyStartMonitoring.Tick(now);
      if fired.Some? {
        StartMonitoring(monitor);
      }
    }

    /** `sendMessage`. */
    method SendMessage(tag: string, data: Value)
      modifies this`outbox
      ensures outbox == old(outbox) + [VersionedEnvelope(apiKey, tag, data)]
    {
      outbox := outbox + [VersionedEnvelope(apiKey, tag, data)];
    }

    /** `fetchAllDevicesAndCharacteristics`, with the services the HAP client
      returns and its `reduceService` as parameters: nothing is sent unless
      both an instance has been discovered and the socket is ready. */
    method FetchAllDevicesAndCharacteristics(services: seq<Value>, reduce: Value -> Value) returns (sent: bool)
      requires Valid()
      modifies this`outbox
      ensures Valid() && State() == old(State())
      ensures sent <==> hapReady && socketReady
      ensures outbox == if sent then old(outbox) + [VersionedEnvelope(apiKey, "deviceList", JArray(DeviceListData(services, reduce)))]
                        else old(outbox)
    {
      if !hapReady || !socketReady {
        return false;
      }
      SendMessage("deviceList", JArray(DeviceListData(services, reduce)));
      sent := true;
    }
  }
}
