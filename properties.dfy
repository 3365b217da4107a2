/**
 * Properties of the service over single commands and over whole traces of
 * events: what START, UPDATE_NOTIFICATION and SHUTDOWN leave on the platform,
 * which flag value the lifecycle events leave behind, where log records and
 * location events go.
 */
module LifecycleProperties {
  import opened Options
  import opened JvmInts
  import opened Intents
  import opened Settings
  import opened Notifications
  import opened Platform
  import opened Lifecycle

  /** Running a trace in two parts is running it at once. */
  lemma {:induction false} RunAppend(s: ServiceState, a: seq<Event>, b: seq<Event>, resources: string -> Int32)
    ensures Run(s, a + b, resources) == Run(Run(s, a, resources), b, resources)
    decreases |b|
  {
    if b == [] {
      assert a + b == a;
    } else {
      var n := |b| - 1;
      assert (a + b)[..|a + b| - 1] == a + b[..n];
      assert (a + b)[|a + b| - 1] == b[n];
      RunAppend(s, a, b[..n], resources);
    }
  }

  /** A trace of two events. */
  lemma RunTwo(s: ServiceState, e1: Event, e2: Event, resources: string -> Int32)
    ensures Run(s, [e1, e2], resources) == Step(Step(s, e1, resources), e2, resources)
  {
    var es := [e1, e2];
    assert es[..1] == [e1] && [e1][..0] == [];
    assert Run(s, [e1], resources) == Step(Run(s, [], resources), e1, resources);
    assert Run(s, es, resources) == Step(Run(s, [e1], resources), e2, resources);
  }

  // ---------------------------------------------------------------------------
  // Creation

  /**
   * A service just created is already in the foreground under id 1, showing
   * the notification of the default settings, before any command arrives; the
   * running flag is still the stored one.
   */
  lemma CreatedServiceShowsDefaults(running: bool, preference: LocationClient, engine: bool, handle: Int64)
    ensures var t := OnCreate(Initial(running, preference, engine, handle));
            && t.running == running && t.config == Defaults
            && ViewOf(t.calls) == Untouched.(shown := map[NotificationId := Build(Defaults)],
                                             foregroundId := Some(NotificationId))
  {
    var call := StartForeground(NotificationId, Build(Defaults));
    ViewOfAppendOne([], call);
    assert [] + [call] == [call];
  }

  lemma OnCreatePreservesValid(s: ServiceState)
    requires Valid(s)
    ensures Valid(OnCreate(s))
  {
    var t := OnCreate(s);
    assert forall i | 0 <= i < |t.calls| :: t.calls[i] == if i < |s.calls| then s.calls[i] else StartForeground(NotificationId, Build(s.config));
  }

  /**
   * A new instance created while the stored running flag is still set (after
   * the process was killed, or a restart) has no provider and holds no wake
   * lock. A START then subscribes a provider but, finding the flag set,
   * acquires no wake lock and leaves the default notification in the
   * foreground.
   */
  lemma StartAfterRestartTakesNoLock(preference: LocationClient, engine: bool, handle: Int64, intent: Intent,
                                     resources: string -> Int32)
    requires IsAction(intent, ActionStart)
    ensures var c := OnCreate(Initial(true, preference, engine, handle));
            var t := OnStartCommand(c, Some(intent), resources).0;
            var v := ViewOf(t.calls);
            && v.heldLocks == {}
            && v.subscribed == {ClientFor(preference, 0)}
            && v.shown == map[NotificationId := Build(Defaults)] && v.foregroundId == Some(NotificationId)
  {
    var c := OnCreate(Initial(true, preference, engine, handle));
    CreatedServiceShowsDefaults(true, preference, engine, handle);
    OnCreatePreservesValid(Initial(true, preference, engine, handle));
    StartCommandEffects(c, intent, resources);
  }

  // ---------------------------------------------------------------------------
  // START

  /**
   * A START command overwrites the configuration and subscribes a new client
   * of the preferred backend whether or not the service runs, and keeps every
   * earlier subscription. Only when the flag was clear does it acquire a new
   * wake lock for the configured time and show the notification in the
   * foreground under id 1; when it was set, nothing else reaches the platform.
   */
  lemma StartCommandEffects(s: ServiceState, intent: Intent, resources: string -> Int32)
    requires Valid(s) && IsAction(intent, ActionStart)
    ensures var t := OnStartCommand(s, Some(intent), resources).0;
            var c := FromStartIntent(intent, resources);
            var p := ClientFor(s.clientPreference, s.clientsCreated);
            var before, after := ViewOf(s.calls), ViewOf(t.calls);
            && t.running && t.config == c && t.locatorClient == Some(p)
            && t.clientsCreated == s.clientsCreated + 1 && t.clientPreference == s.clientPreference
            && p !in before.subscribed
            && after.subscribed == before.subscribed + {p}
            && (s.running ==> after.heldLocks == before.heldLocks && after.shown == before.shown
                              && after.foregroundId == before.foregroundId)
            && (!s.running ==> s.locksCreated !in before.heldLocks
                               && after.heldLocks == before.heldLocks + {s.locksCreated}
                               && after.shown == before.shown[NotificationId := Build(c)]
                               && after.foregroundId == Some(NotificationId))
  {
    var s1 := Log(s, Tag, "On start comm");
    var t := OnStartCommand(s, Some(intent), resources).0;
    var c := FromStartIntent(intent, resources);
    var p := ClientFor(s.clientPreference, s.clientsCreated);
    assert t == Log(StartHolderService(s1, intent, resources), Tag, "On start comm - start");
    HeldAndSubscribedAreKnown(s.calls, s.locksCreated, s.clientsCreated);
    var req := s.calls + [RequestLocationUpdates(p, intent)];
    ViewOfAppendOne(s.calls, RequestLocationUpdates(p, intent));
    if s.running {
      assert t.calls == req;
    } else {
      assert t.calls == req + [AcquireWakeLock(s.locksCreated, c.wakeLockMs), StartForeground(NotificationId, Build(c))];
      ViewOfAppendTwo(req, AcquireWakeLock(s.locksCreated, c.wakeLockMs), StartForeground(NotificationId, Build(c)));
    }
  }

  /**
   * Two START commands in a row leave two clients subscribed: the second
   * command does not unsubscribe the first client.
   */
  lemma SecondStartKeepsFirstSubscription(s: ServiceState, first: Intent, second: Intent, resources: string -> Int32)
    requires Valid(s) && IsAction(first, ActionStart) && IsAction(second, ActionStart)
    ensures var t := Run(s, [Command(Some(first)), Command(Some(second))], resources);
            var p1 := ClientFor(s.clientPreference, s.clientsCreated);
            var p2 := ClientFor(s.clientPreference, s.clientsCreated + 1);
            && p1 != p2
            && p1 in ViewOf(t.calls).subscribed && p2 in ViewOf(t.calls).subscribed
            && t.locatorClient == Some(p2)
  {
    RunTwo(s, Command(Some(first)), Command(Some(second)), resources);
    var u := OnStartCommand(s, Some(first), resources).0;
    var t := OnStartCommand(u, Some(second), resources).0;
    assert Run(s, [Command(Some(first)), Command(Some(second))], resources) == t;
    StartCommandEffects(s, first, resources);
    StepPreservesValid(s, Command(Some(first)), resources);
    StartCommandEffects(u, second, resources);
  }

  // ---------------------------------------------------------------------------
  // UPDATE_NOTIFICATION

  /**
   * While running, UPDATE_NOTIFICATION merges the present extras into the
   * configuration and replaces the notification under id 1 with one built from
   * it; nothing else on the platform changes. While not running it changes
   * nothing but the log.
   */
  lemma UpdateCommandEffects(s: ServiceState, intent: Intent, resources: string -> Int32)
    requires IsAction(intent, ActionUpdateNotification)
    ensures var t := OnStartCommand(s, Some(intent), resources).0;
            var before, after := ViewOf(s.calls), ViewOf(t.calls);
            && (!s.running ==> t == s.(deliveries := t.deliveries))
            && (s.running ==>
                  && t == s.(config := ApplyUpdate(s.config, intent), calls := t.calls, deliveries := t.deliveries)
                  && after == before.(shown := before.shown[NotificationId := Build(t.config)]))
  {
    if s.running {
      var t := OnStartCommand(s, Some(intent), resources).0;
      var s1 := Log(s, Tag, "On start comm");
      assert t == Log(UpdateNotification(s1, intent), Tag, "On start comm - update");
      ViewOfAppendOne(s.calls, Notify(NotificationId, Build(t.config)));
    }
  }

  /**
   * START with title "T1" and then UPDATE_NOTIFICATION with only a new title:
   * the notification shown under id 1 has the new title and keeps the message,
   * big message and buttons that START set.
   */
  lemma StartThenRetitle(s: ServiceState, start: Intent, update: Intent, resources: string -> Int32)
    requires IsAction(start, ActionStart) && Holds(start, TitleKey, Str("T1"))
    requires IsAction(update, ActionUpdateNotification) && update.extras == map[TitleKey := Str("T2")]
    ensures var t := Run(s, [Command(Some(start)), Command(Some(update))], resources);
            var c := FromStartIntent(start, resources);
            && c.title == "T1"
            && NotificationId in ViewOf(t.calls).shown
            && ViewOf(t.calls).shown[NotificationId] == Build(c.(title := "T2"))
  {
    RunTwo(s, Command(Some(start)), Command(Some(update)), resources);
    var c := FromStartIntent(start, resources);
    var u := OnStartCommand(s, Some(start), resources).0;
    var t := OnStartCommand(u, Some(update), resources).0;
    assert u.running && u.config == c;
    UpdateCommandEffects(u, update, resources);
    assert t.config == ApplyUpdate(c, update) == c.(title := "T2");
    assert ViewOf(t.calls).shown == ViewOf(u.calls).shown[NotificationId := Build(t.config)];
  }

  // ---------------------------------------------------------------------------
  // SHUTDOWN

  /**
   * SHUTDOWN never releases a wake lock: the lock it asks `isHeld` of was
   * created just now and acquired by no one. It unsubscribes the current
   * client if there is one, leaves the foreground taking the notification with
   * it, asks to stop, and clears the running flag. From a service that was
   * never started it does exactly that and nothing more.
   */
  lemma ShutdownCommandEffects(s: ServiceState, intent: Intent, resources: string -> Int32)
    requires Valid(s) && IsAction(intent, ActionShutdown)
    ensures var r := OnStartCommand(s, Some(intent), resources);
            var t := r.0;
            var before, after := ViewOf(s.calls), ViewOf(t.calls);
            && r.1 == StartSticky
            && !t.running
            && t.calls == s.calls
                          + (if s.locatorClient.Some? then [RemoveLocationUpdates(s.locatorClient.value)] else [])
                          + [StopForeground(true), StopSelf]
            && after.heldLocks == before.heldLocks
            && after.subscribed == (if s.locatorClient.Some? then before.subscribed - {s.locatorClient.value}
                                    else before.subscribed)
            && after.foregroundId.None? && after.stopRequested
            && (before.foregroundId.Some? ==> before.foregroundId.value !in after.shown)
  {
    var s1 := Log(s, Tag, "On start comm");
    var t := OnStartCommand(s, Some(intent), resources).0;
    assert t == Log(ShutdownHolderService(s1), Tag, "On start comm - shutdown");
    HeldAndSubscribedAreKnown(s.calls, s.locksCreated, s.clientsCreated);
    assert s.locksCreated !in ViewOf(s1.calls).heldLocks;
    var removed := s.calls + (if s.locatorClient.Some? then [RemoveLocationUpdates(s.locatorClient.value)] else []);
    if s.locatorClient.Some? {
      ViewOfAppendOne(s.calls, RemoveLocationUpdates(s.locatorClient.value));
    } else {
      assert removed == s.calls;
    }
    ViewOfAppendTwo(removed, StopForeground(true), StopSelf);
  }

  // ---------------------------------------------------------------------------
  // Traces

  /** The value a lifecycle event leaves in the running flag; None for events that leave it alone. */
  function RunningEffect(e: Event): Option<bool> {
    match e
    case Command(Some(intent)) =>
      if IsAction(intent, ActionShutdown) then Some(false)
      else if IsAction(intent, ActionStart) then Some(true)
      else None
    case MethodCall(ServiceInitialized) => Some(true)
    case Destroy => Some(false)
    case _ => None
  }

  lemma StepRunning(s: ServiceState, e: Event, resources: string -> Int32)
    ensures Step(s, e, resources).running == if RunningEffect(e).Some? then RunningEffect(e).value else s.running
  {
    match e
    case Command(Some(intent)) =>
      var s1 := Log(s, Tag, "On start comm");
      if IsAction(intent, ActionUpdateNotification) && s.running {
        assert Step(s, e, resources) == Log(UpdateNotification(s1, intent), Tag, "On start comm - update");
      }
    case _ =>
  }

  /** No event after position `i` of the trace touches the running flag. */
  predicate NoLifecycleAfter(es: seq<Event>, i: int) {
    forall j | 0 <= j < |es| && i < j :: RunningEffect(es[j]).None?
  }

  /**
   * The running flag after a trace is the value set by its last START,
   * SHUTDOWN, service-initialized call or teardown, and the initial flag when
   * there is none.
   */
  lemma {:induction false} RunningIsSetByLastLifecycleEvent(s: ServiceState, es: seq<Event>, resources: string -> Int32)
    ensures NoLifecycleAfter(es, -1) ==> Run(s, es, resources).running == s.running
    ensures forall i | 0 <= i < |es| && RunningEffect(es[i]).Some? && NoLifecycleAfter(es, i)
              :: Run(s, es, resources).running == RunningEffect(es[i]).value
    decreases |es|
  {
    if es != [] {
      var n := |es| - 1;
      var prefix := es[..n];
      RunningIsSetByLastLifecycleEvent(s, prefix, resources);
      StepRunning(Run(s, prefix, resources), es[n], resources);
      if RunningEffect(es[n]).None? {
        forall i | -1 <= i < n && NoLifecycleAfter(es, i)
          ensures NoLifecycleAfter(prefix, i)
        {
        }
      }
    }
  }

  /** Apart from listen and cancel, every event logs only to the sink it finds. */
  lemma StepLogsOnlyToSink(s: ServiceState, e: Event, resources: string -> Int32)
    requires !e.Listen?
    ensures LogsOnlyToSink(s, Step(s, e, resources))
    ensures Step(s, e, resources).sink == if e.Cancel? then None else s.sink
  {
  }

  /**
   * In a trace without `onListen`, every log record goes to the sink current at
   * its start, and after a cancel to none at all.
   */
  lemma {:induction false} LogsReachOnlyTheListeningSink(s: ServiceState, es: seq<Event>, resources: string -> Int32)
    requires forall i | 0 <= i < |es| :: !es[i].Listen?
    ensures LogsOnlyToSink(s, Run(s, es, resources))
    ensures Run(s, es, resources).sink in {s.sink, None}
    decreases |es|
  {
    if es != [] {
      var n := |es| - 1;
      var t := Run(s, es[..n], resources);
      LogsReachOnlyTheListeningSink(s, es[..n], resources);
      StepLogsOnlyToSink(t, es[n], resources);
      LogsOnlyToSinkTransitive(s, t, Run(s, es, resources));
    }
  }

  /**
   * After `onListen(A)` and then `onListen(B)`, everything logged until a
   * further `onListen` is delivered to B: when B is another sink, nothing
   * reaches A.
   */
  lemma LastListenerWins(s: ServiceState, a: SinkId, b: SinkId, es: seq<Event>, resources: string -> Int32)
    requires forall i | 0 <= i < |es| :: !es[i].Listen?
    ensures var t := Run(s, [Listen(Some(a)), Listen(Some(b))] + es, resources);
            forall i | |s.deliveries| <= i < |t.deliveries| :: t.deliveries[i].sink == b
  {
    var pre := [Listen(Some(a)), Listen(Some(b))];
    RunTwo(s, Listen(Some(a)), Listen(Some(b)), resources);
    var u := Run(s, pre, resources);
    RunAppend(s, pre, es, resources);
    LogsReachOnlyTheListeningSink(u, es, resources);
  }

  /** The non-null fixes of a trace, in order. */
  function Fixes(es: seq<Event>): seq<Fix>
    decreases |es|
  {
    if es == [] then []
    else
      Fixes(es[..|es| - 1])
      + match es[|es| - 1]
        case LocationUpdated(Some(fix)) => [fix]
        case _ => []
  }

  /** The payloads sent for `fixes` under callback `handle`. */
  function Tagged(handle: Int64, fixes: seq<Fix>): (r: seq<LocationEvent>)
    ensures |r| == |fixes|
  {
    seq(|fixes|, i requires 0 <= i < |fixes| => LocationEvent(handle, fixes[i]))
  }

  lemma StepLocationEvents(s: ServiceState, e: Event, resources: string -> Int32)
    ensures var t := Step(s, e, resources);
            && t.engine == s.engine && t.callbackHandle == s.callbackHandle
            && t.locationEvents == s.locationEvents
                 + if s.engine && e.LocationUpdated? && e.location.Some?
                   then [LocationEvent(s.callbackHandle, e.location.value)] else []
  {
  }

  /**
   * Over any trace, the location events sent are exactly the non-null fixes in
   * order, each tagged with the callback handle, when the background engine
   * exists, and none when it does not.
   */
  lemma {:induction false} LocationEventsFollowFixes(s: ServiceState, es: seq<Event>, resources: string -> Int32)
    ensures Run(s, es, resources).locationEvents
         == s.locationEvents + if s.engine then Tagged(s.callbackHandle, Fixes(es)) else []
    ensures Run(s, es, resources).engine == s.engine
    ensures Run(s, es, resources).callbackHandle == s.callbackHandle
    decreases |es|
  {
    if es != [] {
      var n := |es| - 1;
      var t := Run(s, es[..n], resources);
      LocationEventsFollowFixes(s, es[..n], resources);
      StepLocationEvents(t, es[n], resources);
      if s.engine {
        var added := match es[n] case LocationUpdated(Some(fix)) => [fix] case _ => [];
        assert Fixes(es) == Fixes(es[..n]) + added;
        assert Tagged(s.callbackHandle, Fixes(es)) == Tagged(s.callbackHandle, Fixes(es[..n])) + Tagged(s.callbackHandle, added);
      }
    }
  }

  /** A fix arriving after SHUTDOWN is still sent when the engine exists: only the provider's removal stops fixes. */
  lemma FixAfterShutdownIsStillSent(s: ServiceState, shutdown: Intent, fix: Fix, resources: string -> Int32)
    requires IsAction(shutdown, ActionShutdown) && s.engine
    ensures var t := Run(s, [Command(Some(shutdown)), LocationUpdated(Some(fix))], resources);
            t.locationEvents == s.locationEvents + [LocationEvent(s.callbackHandle, fix)]
  {
    RunTwo(s, Command(Some(shutdown)), LocationUpdated(Some(fix)), resources);
    StepLocationEvents(s, Command(Some(shutdown)), resources);
    StepLocationEvents(Step(s, Command(Some(shutdown)), resources), LocationUpdated(Some(fix)), resources);
  }

  predicate IsStartCommand(e: Event) {
    e.Command? && e.intent.Some? && IsAction(e.intent.value, ActionStart)
  }

  /** The number of START commands in a trace. */
  function CountStarts(es: seq<Event>): nat
    decreases |es|
  {
    if es == [] then 0 else CountStarts(es[..|es| - 1]) + if IsStartCommand(es[|es| - 1]) then 1 else 0
  }

  lemma StepConfigAndClients(s: ServiceState, e: Event, resources: string -> Int32)
    ensures var t := Step(s, e, resources);
            && t.clientsCreated == s.clientsCreated + (if IsStartCommand(e) then 1 else 0)
            && t.clientPreference == s.clientPreference
            && (!IsStartCommand(e) ==>
                  && t.config.channelName == s.config.channelName && t.config.icon == s.config.icon
                  && t.config.iconColor == s.config.iconColor && t.config.wakeLockMs == s.config.wakeLockMs)
  {
    match e
    case Command(Some(intent)) =>
      var s1 := Log(s, Tag, "On start comm");
      if IsAction(intent, ActionUpdateNotification) && s.running && !IsAction(intent, ActionStart) {
        assert Step(s, e, resources) == Log(UpdateNotification(s1, intent), Tag, "On start comm - update");
      }
    case _ =>
  }

  /**
   * Over any trace, one new provider is created per START command, and
   * without a START the channel name, icon, colour and wake-lock time stay as
   * they were.
   */
  lemma {:induction false} OnlyStartReconfigures(s: ServiceState, es: seq<Event>, resources: string -> Int32)
    ensures Run(s, es, resources).clientsCreated == s.clientsCreated + CountStarts(es)
    ensures CountStarts(es) == 0 ==>
              var c := Run(s, es, resources).config;
              c.channelName == s.config.channelName && c.icon == s.config.icon
              && c.iconColor == s.config.iconColor && c.wakeLockMs == s.config.wakeLockMs
    decreases |es|
  {
    if es != [] {
      var n := |es| - 1;
      OnlyStartReconfigures(s, es[..n], resources);
      StepConfigAndClients(Run(s, es[..n], resources), es[n], resources);
    }
  }

  /** Counters only grow, so ids below them stay below. */
  lemma IdsBelowGrow(calls: seq<PlatformCall>, locks: nat, clients: nat, locks': nat, clients': nat)
    requires locks <= locks' && clients <= clients'
    requires forall i | 0 <= i < |calls| :: IdsBelow(calls[i], locks, clients)
    ensures forall i | 0 <= i < |calls| :: IdsBelow(calls[i], locks', clients')
  {
  }

  lemma StartHolderServicePreservesValid(s: ServiceState, intent: Intent, resources: string -> Int32)
    requires Valid(s)
    ensures Valid(StartHolderService(s, intent, resources))
  {
    var t := StartHolderService(s, intent, resources);
    IdsBelowGrow(s.calls, s.locksCreated, s.clientsCreated, t.locksCreated, t.clientsCreated);
  }

  lemma ShutdownHolderServicePreservesValid(s: ServiceState)
    requires Valid(s)
    ensures Valid(ShutdownHolderService(s))
  {
    var t := ShutdownHolderService(s);
    IdsBelowGrow(s.calls, s.locksCreated, s.clientsCreated, t.locksCreated, t.clientsCreated);
  }

  /** Every event keeps every lock and client id the platform sees below the counters. */
  lemma StepPreservesValid(s: ServiceState, e: Event, resources: string -> Int32)
    requires Valid(s)
    ensures Valid(Step(s, e, resources))
  {
    match e
    case Command(Some(intent)) =>
      var s1 := Log(s, Tag, "On start comm");
      var t := Step(s, e, resources);
      if IsAction(intent, ActionShutdown) {
        ShutdownHolderServicePreservesValid(s1);
        assert t == Log(ShutdownHolderService(s1), Tag, "On start comm - shutdown");
      } else if IsAction(intent, ActionStart) {
        StartHolderServicePreservesValid(s1, intent, resources);
        assert t == Log(StartHolderService(s1, intent, resources), Tag, "On start comm - start");
      } else if IsAction(intent, ActionUpdateNotification) && s.running {
        assert t == Log(UpdateNotification(s1, intent), Tag, "On start comm - update");
      }
    case _ =>
  }

  /** The service's invariant holds after any trace from a valid state, hence from a fresh service. */
  lemma {:induction false} RunPreservesValid(s: ServiceState, es: seq<Event>, resources: string -> Int32)
    requires Valid(s)
    ensures Valid(Run(s, es, resources))
    decreases |es|
  {
    if es != [] {
      var n := |es| - 1;
      RunPreservesValid(s, es[..n], resources);
      StepPreservesValid(Run(s, es[..n], resources), es[n], resources);
    }
  }
}
