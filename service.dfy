/**
 * The service object itself: its mutable fields, and one method per operation
 * that updates them step by step, as the Kotlin class does. Each method is
 * proved to leave the object in exactly the state the matching function of
 * Lifecycle describes, so every property proved there holds of the object.
 */
module HolderService {
  import opened Options
  import opened JvmInts
  import opened Intents
  import opened Settings
  import opened Notifications
  import opened Platform
  import opened Lifecycle
  import LifecycleProperties

  class IsolateHolderService {
    var notificationChannelName: string
    var notificationTitle: string
    var notificationMsg: string
    var notificationBigMsg: string
    var notificationButtonMsg: string
    var hasNotificationButtons: bool
    var notificationIconColor: Int32
    var icon: Int32
    var wakeLockTime: Int64
    var locatorClient: Option<Provider>
    var sink: Option<SinkId>

    /** The running flag and the backend selection kept by PreferencesManager. */
    var serviceRunning: bool
    var locationClientPreference: LocationClient

    /** Provider and wake-lock instances created so far (their identities). */
    var clientsCreated: nat
    var wakeLocksCreated: nat

    /** The calls made into the platform, the log records delivered, the location events sent. */
    var platformCalls: seq<PlatformCall>
    var deliveries: seq<Delivery>
    var locationEvents: seq<LocationEvent>

    /** The static `backgroundEngine` is set; the callback handle the plugin stored. */
    var backgroundEngine: bool
    var callbackHandle: Int64

    /** `resources.getIdentifier(name, "drawable", packageName)`. */
    const resources: string -> Int32

    function CurrentConfig(): Config
      reads this
    {
      Config(notificationChannelName, notificationTitle, notificationMsg, notificationBigMsg,
             notificationButtonMsg, hasNotificationButtons, icon, notificationIconColor, wakeLockTime)
    }

    /** The object's fields as a value of the state machine. */
    function State(): ServiceState
      reads this
    {
      ServiceState(CurrentConfig(), serviceRunning, locationClientPreference, locatorClient,
                   clientsCreated, wakeLocksCreated, platformCalls, sink, deliveries,
                   backgroundEngine, callbackHandle, locationEvents)
    }

    ghost predicate Valid()
      reads this
    {
      Lifecycle.Valid(State())
    }

    constructor (running: bool, preference: LocationClient, engine: bool, handle: Int64, resources: string -> Int32)
      ensures Valid()
      ensures State() == Initial(running, preference, engine, handle)
      ensures this.resources == resources
    {
      notificationChannelName := Defaults.channelName;
      notificationTitle := Defaults.title;
      notificationMsg := Defaults.msg;
      notificationBigMsg := Defaults.bigMsg;
      notificationButtonMsg := Defaults.buttonMsg;
      hasNotificationButtons := Defaults.hasButtons;
      notificationIconColor := Defaults.iconColor;
      icon := Defaults.icon;
      wakeLockTime := Defaults.wakeLockMs;
      locatorClient := None;
      sink := None;
      serviceRunning := running;
      locationClientPreference := preference;
      clientsCreated := 0;
      wakeLocksCreated := 0;
      platformCalls := [];
      deliveries := [];
      locationEvents := [];
      backgroundEngine := engine;
      callbackHandle := handle;
      this.resources := resources;
    }

    method OnCreate()
      requires Valid()
      modifies this
      ensures Valid()
      ensures State() == Lifecycle.OnCreate(old(State()))
    {
      LifecycleProperties.OnCreatePreservesValid(State());
      platformCalls := platformCalls + [StartForeground(NotificationId, Build(CurrentConfig()))];
      Log(Tag, "onCreate");
    }

    method Log(key: string, message: string)
      modifies this
      ensures State() == Lifecycle.Log(old(State()), key, message)
    {
      if sink.Some? {
        deliveries := deliveries + [Delivery(sink.value, LogRecord(key, message))];
      }
    }

    method Start()
      modifies this
      ensures State() == Lifecycle.Start(old(State()))
    {
      Log(Tag, "start");
      if serviceRunning {
        Log(Tag, "isAlready Running");
        return;
      }
      var lock := wakeLocksCreated;
      wakeLocksCreated := wakeLocksCreated + 1;
      platformCalls := platformCalls + [AcquireWakeLock(lock, wakeLockTime)];
      Log(Tag, "Wake lock acquired");
      var notification := Build(CurrentConfig());
      Log(Tag, "Built notification");
      platformCalls := platformCalls + [StartForeground(NotificationId, notification)];
      Log(Tag, "Starting foreground");
      serviceRunning := true;
    }

    method GetLocationClient() returns (client: Provider)
      modifies this
      ensures (State(), client) == Lifecycle.GetLocationClient(old(State()))
    {
      var id := clientsCreated;
      clientsCreated := clientsCreated + 1;
      match locationClientPreference
      case Google =>
        Log(Tag, "Location client - Google");
        client := GoogleLocationProviderClient(id);
      case Android =>
        Log(Tag, "Location client - Android");
        client := AndroidLocationProviderClient(id);
    }

    /** The first half of `startHolderService`: every setting read from the START intent. */
    method ReadStartSettings(intent: Intent)
      modifies this`notificationChannelName, this`notificationTitle, this`notificationMsg, this`notificationBigMsg
      modifies this`notificationButtonMsg, this`hasNotificationButtons, this`icon, this`notificationIconColor, this`wakeLockTime
      ensures CurrentConfig() == FromStartIntent(intent, resources)
    {
      notificationChannelName := NullableToString(GetStringExtra(intent, ChannelNameKey));
      notificationTitle := NullableToString(GetStringExtra(intent, TitleKey));
      notificationMsg := NullableToString(GetStringExtra(intent, MsgKey));
      notificationBigMsg := NullableToString(GetStringExtra(intent, BigMsgKey));
      notificationButtonMsg := NullableToString(GetStringExtra(intent, ButtonMsgKey));
      hasNotificationButtons := GetBooleanExtra(intent, HasButtonsKey, false);
      var iconName := GetStringExtra(intent, IconKey);
      if iconName.None? || iconName.value == [] {
        iconName := Some(DefaultIconName);
      }
      icon := resources(iconName.value);
      notificationIconColor := Wrap32(GetLongExtra(intent, IconColorKey, 0) as int);
      wakeLockTime := WakeLockMillis(GetIntExtra(intent, WakeLockTimeKey, DefaultWakeLockMinutes));
    }

    method StartHolderService(intent: Intent)
      modifies this
      ensures State() == Lifecycle.StartHolderService(old(State()), intent, resources)
    {
      ghost var before := State();
      ReadStartSettings(intent);
      ghost var s1 := State();
      assert s1 == before.(config := FromStartIntent(intent, resources));

      var client := GetLocationClient();
      ghost var s2 := State();
      assert (s2, client) == Lifecycle.GetLocationClient(s1);
      locatorClient := Some(client);
      platformCalls := platformCalls + [RequestLocationUpdates(client, intent)];
      ghost var s3 := State();
      assert s3 == s2.(locatorClient := Some(client), calls := s2.calls + [RequestLocationUpdates(client, intent)]);

      Start();
      assert State() == Lifecycle.Start(s3);
      assert Lifecycle.StartHolderService(before, intent, resources) == Lifecycle.Start(s3);
    }

    method ShutdownHolderService()
      modifies this
      ensures State() == Lifecycle.ShutdownHolderService(old(State()))
    {
      var lock := wakeLocksCreated;
      wakeLocksCreated := wakeLocksCreated + 1;
      if lock in ViewOf(platformCalls).heldLocks {
        platformCalls := platformCalls + [ReleaseWakeLock(lock)];
      }
      if locatorClient.Some? {
        platformCalls := platformCalls + [RemoveLocationUpdates(locatorClient.value)];
      }
      serviceRunning := false;
      platformCalls := platformCalls + [StopForeground(true)];
      platformCalls := platformCalls + [StopSelf];
    }

    /** The sparse merge of `updateNotification`: only the settings the intent carries are replaced. */
    method ReadUpdateSettings(intent: Intent)
      modifies this`notificationTitle, this`notificationMsg, this`notificationBigMsg
      modifies this`notificationButtonMsg, this`hasNotificationButtons
      ensures CurrentConfig() == ApplyUpdate(old(CurrentConfig()), intent)
    {
      if HasExtra(intent, TitleKey) {
        notificationTitle := NullableToString(GetStringExtra(intent, TitleKey));
      }
      if HasExtra(intent, MsgKey) {
        notificationMsg := NullableToString(GetStringExtra(intent, MsgKey));
      }
      if HasExtra(intent, BigMsgKey) {
        notificationBigMsg := NullableToString(GetStringExtra(intent, BigMsgKey));
      }
      if HasExtra(intent, ButtonMsgKey) {
        notificationButtonMsg := NullableToString(GetStringExtra(intent, ButtonMsgKey));
      }
      if HasExtra(intent, HasButtonsKey) {
        hasNotificationButtons := GetBooleanExtra(intent, HasButtonsKey, false);
      }
    }

    method UpdateNotification(intent: Intent)
      modifies this
      ensures State() == Lifecycle.UpdateNotification(old(State()), intent)
    {
      ReadUpdateSettings(intent);
      var notification := Build(CurrentConfig());
      platformCalls := platformCalls + [Notify(NotificationId, notification)];
    }

    method OnStartCommand(intent: Option<Intent>) returns (mode: StartMode)
      requires Valid()
      modifies this
      ensures Valid()
      ensures (State(), mode) == Lifecycle.OnStartCommand(old(State()), intent, resources)
    {
      LifecycleProperties.StepPreservesValid(State(), Command(intent), resources);
      if intent.None? {
        return SuperclassDefault;
      }
      var i := intent.value;
      Log(Tag, "On start comm");
      if IsAction(i, ActionShutdown) {
        ShutdownHolderService();
        Log(Tag, "On start comm - shutdown");
      } else if IsAction(i, ActionStart) {
        StartHolderService(i);
        Log(Tag, "On start comm - start");
      } else if IsAction(i, ActionUpdateNotification) {
        if serviceRunning {
          UpdateNotification(i);
          Log(Tag, "On start comm - update");
        }
      }
      return StartSticky;
    }

    method OnMethodCall(call: MethodName) returns (replies: seq<Reply>)
      requires Valid()
      modifies this
      ensures Valid()
      ensures (State(), replies) == Lifecycle.OnMethodCall(old(State()), call)
    {
      replies := [];
      match call {
        case ServiceInitialized =>
          serviceRunning := true;
        case OtherMethod(_) =>
          replies := replies + [NotImplemented];
      }
      replies := replies + [SuccessNull];
      assert State() == old(State()).(running := serviceRunning);
      assert call == ServiceInitialized ==> serviceRunning && replies == [SuccessNull];
      assert call != ServiceInitialized ==> serviceRunning == old(serviceRunning) && replies == [NotImplemented, SuccessNull];
      ghost var r := Lifecycle.OnMethodCall(old(State()), call);
      assert r.0 == State();
      assert r.1 == replies;
    }

    method OnDestroy()
      requires Valid()
      modifies this
      ensures Valid()
      ensures State() == Lifecycle.OnDestroy(old(State()))
    {
      serviceRunning := false;
    }

    method SendLocationEvent(event: LocationEvent)
      modifies this
      ensures State() == Lifecycle.SendLocationEvent(old(State()), event)
    {
      if backgroundEngine {
        Log(Tag, "Send location");
        locationEvents := locationEvents + [event];
      }
    }

    method OnLocationUpdated(location: Option<Fix>)
      requires Valid()
      modifies this
      ensures Valid()
      ensures State() == Lifecycle.OnLocationUpdated(old(State()), location)
    {
      if location.Some? {
        var result := LocationEvent(callbackHandle, location.value);
        Log(Tag, "New location");
        SendLocationEvent(result);
      }
    }

    method OnListen(events: Option<SinkId>)
      requires Valid()
      modifies this
      ensures Valid()
      ensures State() == Lifecycle.OnListen(old(State()), events)
    {
      sink := events;
    }

    method OnCancel()
      requires Valid()
      modifies this
      ensures Valid()
      ensures State() == Lifecycle.OnCancel(old(State()))
    {
      sink := None;
    }
  }
}
