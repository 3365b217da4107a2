/**
 * The service as a state machine over values: one function per operation of
 * the service, each giving the state the operation leaves behind. The class in
 * HolderService implements these operations step by step and is proved to
 * reach exactly these states.
 */
module Lifecycle {
  import opened Options
  import opened JvmInts
  import opened Intents
  import opened Settings
  import opened Notifications
  import opened Platform

  const ActionShutdown := "SHUTDOWN"
  const ActionStart := "START"
  const ActionUpdateNotification := "UPDATE_NOTIFICATION"
  const NotificationId: Int32 := 1

  /** The key of every record the service logs. */
  const Tag := "isolateHandler"

  /** The identity of an event sink handed to `onListen`. */
  type SinkId = nat

  /** A location fix as the provider hands it over; the service never looks inside. */
  type Fix = map<string, string>

  datatype LogRecord = LogRecord(key: string, value: string)

  /** A log record delivered to a sink. */
  datatype Delivery = Delivery(sink: SinkId, record: LogRecord)

  /** The payload sent on the background channel for one fix. */
  datatype LocationEvent = LocationEvent(callback: Int64, location: Fix)

  datatype MethodName = ServiceInitialized | OtherMethod(name: string)

  /** The replies `onMethodCall` sends on its result. */
  datatype Reply = NotImplemented | SuccessNull

  /** What `onStartCommand` returns: START_STICKY, or whatever `Service.onStartCommand` returns. */
  datatype StartMode = StartSticky | SuperclassDefault

  datatype ServiceState = ServiceState(
    config: Config,
    /** The running flag kept in the preferences. */
    running: bool,
    /** The location backend kept in the preferences. */
    clientPreference: LocationClient,
    locatorClient: Option<Provider>,
    /** Provider instances created so far; the next one gets this id. */
    clientsCreated: nat,
    /** Wake-lock instances created so far; the next one gets this id. */
    locksCreated: nat,
    calls: seq<PlatformCall>,
    sink: Option<SinkId>,
    deliveries: seq<Delivery>,
    /** Whether the static `backgroundEngine` is set. */
    engine: bool,
    /** The callback handle stored by the plugin. */
    callbackHandle: Int64,
    locationEvents: seq<LocationEvent>)

  /** Every lock and client id the platform has seen was handed out by the service. */
  ghost predicate Valid(s: ServiceState) {
    && (forall i | 0 <= i < |s.calls| :: IdsBelow(s.calls[i], s.locksCreated, s.clientsCreated))
    && (s.locatorClient.Some? ==> s.locatorClient.value.id < s.clientsCreated)
  }

  /** From `s` to `t` deliveries were only appended, each to the sink current in `s`. */
  ghost predicate LogsOnlyToSink(s: ServiceState, t: ServiceState) {
    && |s.deliveries| <= |t.deliveries|
    && t.deliveries[..|s.deliveries|] == s.deliveries
    && forall i | |s.deliveries| <= i < |t.deliveries| :: Some(t.deliveries[i].sink) == s.sink
  }

  /** Appending only to the current sink composes, also across a moment with no sink. */
  lemma LogsOnlyToSinkTransitive(a: ServiceState, b: ServiceState, c: ServiceState)
    requires LogsOnlyToSink(a, b) && LogsOnlyToSink(b, c)
    requires b.sink == a.sink || b.sink.None?
    ensures LogsOnlyToSink(a, c)
  {
    assert c.deliveries[..|a.deliveries|] == c.deliveries[..|b.deliveries|][..|a.deliveries|];
  }

  /** A freshly created service: the field initialisers, and the preferences and plugin state it finds. */
  function Initial(running: bool, preference: LocationClient, engine: bool, callbackHandle: Int64): (s: ServiceState)
    ensures Valid(s) && ViewOf(s.calls) == Untouched
    ensures s.config == Defaults && s.locatorClient.None? && s.sink.None?
  {
    ServiceState(Defaults, running, preference, None, 0, 0, [], None, [], engine, callbackHandle, [])
  }

  /**
   * `onCreate`: before any command the service is put in the foreground with
   * the notification of its current (initial) settings under id 1, then logs.
   */
  function OnCreate(s: ServiceState): (t: ServiceState)
    ensures LogsOnlyToSink(s, t)
    ensures t == s.(calls := s.calls + [StartForeground(NotificationId, Build(s.config))], deliveries := t.deliveries)
  {
    Log(s.(calls := s.calls + [StartForeground(NotificationId, Build(s.config))]), Tag, "onCreate")
  }

  /** `log`: the record goes to the current sink, if there is one, and nowhere else. */
  function Log(s: ServiceState, key: string, message: string): (t: ServiceState)
    ensures t == s.(deliveries := t.deliveries)
    ensures LogsOnlyToSink(s, t)
    ensures s.sink.None? ==> t.deliveries == s.deliveries
    ensures s.sink.Some? ==> t.deliveries == s.deliveries + [Delivery(s.sink.value, LogRecord(key, message))]
  {
    match s.sink
    case None => s
    case Some(k) => s.(deliveries := s.deliveries + [Delivery(k, LogRecord(key, message))])
  }

  /**
   * `start`: nothing but logging when the running flag is set; otherwise a new
   * wake lock acquired for the configured time, the notification shown in the
   * foreground under id 1, and the flag set.
   */
  function Start(s: ServiceState): (t: ServiceState)
    ensures LogsOnlyToSink(s, t)
    ensures t.running
    ensures s.running ==> t == s.(deliveries := t.deliveries)
    ensures !s.running ==> t == s.(
              running := true,
              locksCreated := s.locksCreated + 1,
              calls := s.calls + [AcquireWakeLock(s.locksCreated, s.config.wakeLockMs),
                                  StartForeground(NotificationId, Build(s.config))],
              deliveries := t.deliveries)
  {
    var s1 := Log(s, Tag, "start");
    if s1.running then
      Log(s1, Tag, "isAlready Running")
    else
      var lock := s1.locksCreated;
      var s2 := Log(s1.(locksCreated := lock + 1,
                        calls := s1.calls + [AcquireWakeLock(lock, s1.config.wakeLockMs)]),
                    Tag, "Wake lock acquired");
      var notification := Build(s2.config);
      var s3 := Log(s2, Tag, "Built notification");
      var s4 := Log(s3.(calls := s3.calls + [StartForeground(NotificationId, notification)]),
                    Tag, "Starting foreground");
      s4.(running := true)
  }

  /** `getLocationClient`: a new provider of the preferred backend. */
  function GetLocationClient(s: ServiceState): (r: (ServiceState, Provider))
    ensures r.1 == ClientFor(s.clientPreference, s.clientsCreated)
    ensures r.0 == s.(clientsCreated := s.clientsCreated + 1, deliveries := r.0.deliveries)
    ensures LogsOnlyToSink(s, r.0)
  {
    var id := s.clientsCreated;
    var s1 := s.(clientsCreated := id + 1);
    match s.clientPreference
    case Google => (Log(s1, Tag, "Location client - Google"), GoogleLocationProviderClient(id))
    case Android => (Log(s1, Tag, "Location client - Android"), AndroidLocationProviderClient(id))
  }

  /**
   * `startHolderService`: the configuration is overwritten from the intent and
   * a new provider subscribed, whether or not the service is already running;
   * only then does `start` check the running flag.
   */
  function StartHolderService(s: ServiceState, intent: Intent, resources: string -> Int32): (t: ServiceState)
    ensures LogsOnlyToSink(s, t)
    ensures t.running && t.config == FromStartIntent(intent, resources)
    ensures var c := FromStartIntent(intent, resources);
            var p := ClientFor(s.clientPreference, s.clientsCreated);
            t == s.(
              config := c,
              running := true,
              locatorClient := Some(p),
              clientsCreated := s.clientsCreated + 1,
              locksCreated := if s.running then s.locksCreated else s.locksCreated + 1,
              calls := s.calls + [RequestLocationUpdates(p, intent)]
                       + (if s.running then []
                          else [AcquireWakeLock(s.locksCreated, c.wakeLockMs), StartForeground(NotificationId, Build(c))]),
              deliveries := t.deliveries)
  {
    var s1 := s.(config := FromStartIntent(intent, resources));
    var (s2, client) := GetLocationClient(s1);
    var s3 := s2.(locatorClient := Some(client), calls := s2.calls + [RequestLocationUpdates(client, intent)]);
    LogsOnlyToSinkTransitive(s, s3, Start(s3));
    Start(s3)
  }

  /**
   * `shutdownHolderService`: release a wake lock if the new lock instance
   * reports being held, unsubscribe the current provider if there is one, clear
   * the running flag, leave the foreground and stop the service.
   */
  function ShutdownHolderService(s: ServiceState): (t: ServiceState)
    ensures !t.running && t.deliveries == s.deliveries
    ensures t == s.(
              running := false,
              locksCreated := s.locksCreated + 1,
              calls := s.calls
                       + (if s.locksCreated in ViewOf(s.calls).heldLocks then [ReleaseWakeLock(s.locksCreated)] else [])
                       + (if s.locatorClient.Some? then [RemoveLocationUpdates(s.locatorClient.value)] else [])
                       + [StopForeground(true), StopSelf])
  {
    var lock := s.locksCreated;
    var s1 := s.(locksCreated := lock + 1);
    var s2 := if lock in ViewOf(s1.calls).heldLocks then s1.(calls := s1.calls + [ReleaseWakeLock(lock)]) else s1;
    var s3 := match s2.locatorClient
              case Some(p) => s2.(calls := s2.calls + [RemoveLocationUpdates(p)])
              case None => s2;
    s3.(running := false, calls := s3.calls + [StopForeground(true), StopSelf])
  }

  /** `updateNotification`: merge the present extras, then re-post the notification under id 1. */
  function UpdateNotification(s: ServiceState, intent: Intent): (t: ServiceState)
    ensures t.config == ApplyUpdate(s.config, intent)
    ensures t == s.(config := t.config, calls := s.calls + [Notify(NotificationId, Build(t.config))])
  {
    var s1 := s.(config := ApplyUpdate(s.config, intent));
    s1.(calls := s1.calls + [Notify(NotificationId, Build(s1.config))])
  }

  predicate IsAction(intent: Intent, action: string) {
    intent.action == Some(action)
  }

  /** The intent's action is none of the three the service knows. */
  predicate Unrecognised(intent: Intent) {
    !IsAction(intent, ActionShutdown) && !IsAction(intent, ActionStart) && !IsAction(intent, ActionUpdateNotification)
  }

  /**
   * `onStartCommand`: a null intent goes to the superclass untouched; any other
   * intent is dispatched on its action and answered with START_STICKY.
   */
  function OnStartCommand(s: ServiceState, intent: Option<Intent>, resources: string -> Int32): (r: (ServiceState, StartMode))
    ensures intent.None? ==> r == (s, SuperclassDefault)
    ensures intent.Some? ==> r.1 == StartSticky
    ensures LogsOnlyToSink(s, r.0)
    ensures intent.Some? && Unrecognised(intent.value) ==> r.0 == s.(deliveries := r.0.deliveries)
    ensures intent.Some? && IsAction(intent.value, ActionUpdateNotification) && !s.running
            ==> r.0 == s.(deliveries := r.0.deliveries)
  {
    match intent
    case None => (s, SuperclassDefault)
    case Some(i) =>
      var s1 := Log(s, Tag, "On start comm");
      var s2 :=
        if IsAction(i, ActionShutdown) then
          Log(ShutdownHolderService(s1), Tag, "On start comm - shutdown")
        else if IsAction(i, ActionStart) then
          Log(StartHolderService(s1, i, resources), Tag, "On start comm - start")
        else if IsAction(i, ActionUpdateNotification) && s1.running then
          Log(UpdateNotification(s1, i), Tag, "On start comm - update")
        else
          s1;
      (s2, StartSticky)
  }

  /** `onMethodCall`: only the service-initialized call has an effect, setting the running flag. */
  function OnMethodCall(s: ServiceState, call: MethodName): (r: (ServiceState, seq<Reply>))
    ensures r.0 == s.(running := r.0.running)
    ensures r.0.running == (call == ServiceInitialized || s.running)
    ensures |r.1| > 0 && r.1[|r.1| - 1] == SuccessNull
    ensures NotImplemented in r.1 <==> call != ServiceInitialized
    ensures |r.1| == if call == ServiceInitialized then 1 else 2
  {
    match call
    case ServiceInitialized => (s.(running := true), [SuccessNull])
    case OtherMethod(_) => (s, [NotImplemented, SuccessNull])
  }

  /** `onDestroy`: the running flag is cleared and nothing else changes. */
  function OnDestroy(s: ServiceState): (t: ServiceState)
    ensures !t.running && t.(running := s.running) == s
  {
    s.(running := false)
  }

  /** `sendLocationEvent`: the event is sent only when the background engine exists. */
  function SendLocationEvent(s: ServiceState, event: LocationEvent): (t: ServiceState)
    ensures LogsOnlyToSink(s, t)
    ensures t == s.(deliveries := t.deliveries, locationEvents := t.locationEvents)
    ensures t.locationEvents == s.locationEvents + (if s.engine then [event] else [])
    ensures !s.engine ==> t == s
  {
    if s.engine then
      var s1 := Log(s, Tag, "Send location");
      s1.(locationEvents := s1.locationEvents + [event])
    else
      s
  }

  /** `onLocationUpdated`: a non-null fix is tagged with the callback handle and sent on. */
  function OnLocationUpdated(s: ServiceState, location: Option<Fix>): (t: ServiceState)
    ensures LogsOnlyToSink(s, t)
    ensures t == s.(deliveries := t.deliveries, locationEvents := t.locationEvents)
    ensures t.locationEvents == s.locationEvents
              + (if location.Some? && s.engine then [LocationEvent(s.callbackHandle, location.value)] else [])
    ensures location.None? ==> t == s
  {
    match location
    case None => s
    case Some(fix) =>
      var s1 := Log(s, Tag, "New location");
      SendLocationEvent(s1, LocationEvent(s1.callbackHandle, fix))
  }

  /** `onListen`: the sink handed over replaces the current one (a null sink clears it). */
  function OnListen(s: ServiceState, events: Option<SinkId>): (t: ServiceState)
    ensures t.sink == events && t.(sink := s.sink) == s
  {
    s.(sink := events)
  }

  /** `onCancel`: there is no sink any more. */
  function OnCancel(s: ServiceState): (t: ServiceState)
    ensures t.sink.None? && t.(sink := s.sink) == s
  {
    s.(sink := None)
  }

  /** What reaches the service from outside: commands, method calls, teardown, fixes, listeners. */
  datatype Event =
    | Command(intent: Option<Intent>)
    | MethodCall(call: MethodName)
    | Destroy
    | LocationUpdated(location: Option<Fix>)
    | Listen(events: Option<SinkId>)
    | Cancel

  function Step(s: ServiceState, e: Event, resources: string -> Int32): ServiceState {
    match e
    case Command(intent) => OnStartCommand(s, intent, resources).0
    case MethodCall(call) => OnMethodCall(s, call).0
    case Destroy => OnDestroy(s)
    case LocationUpdated(location) => OnLocationUpdated(s, location)
    case Listen(events) => OnListen(s, events)
    case Cancel => OnCancel(s)
  }

  /** The state after the events of `es`, one at a time and in order. */
  function Run(s: ServiceState, es: seq<Event>, resources: string -> Int32): ServiceState
    decreases |es|
  {
    if es == [] then s else Step(Run(s, es[..|es| - 1], resources), es[|es| - 1], resources)
  }
}
