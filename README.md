# IsolateHolderService, modelled in Dafny

This project models `IsolateHolderService`, the Android foreground service of
the background_locator Flutter plugin. The service keeps a background Dart
isolate alive while location tracking runs. It receives three commands as
intents: START, UPDATE_NOTIFICATION and SHUTDOWN. It holds a wake lock,
shows an ongoing notification, subscribes a location provider of the
preferred backend (Google or Android), and forwards each location fix to the
background engine tagged with the stored callback handle. It reports
progress as `key`/`value` log records to whichever event sink is listening.

The model has two layers:

- **Lifecycle** (`lifecycle.dfy`) is the service as a state machine over
  values. `ServiceState` holds the notification and wake-lock settings
  (`Settings.Config`), the running flag kept by PreferencesManager, the
  current provider, the event sink, and the background-engine presence and
  callback handle. It also holds three append-only logs: the calls made to
  the platform, the log records delivered and the location events sent.
  There is one function per operation of the Kotlin class, plus `Step` and
  `Run` over traces of external events.
- **HolderService** (`service.dfy`) is the class `IsolateHolderService`. Its
  fields are the Kotlin fields, and its methods update them step by step as
  the Kotlin methods do. Each method is proved to leave the object in
  exactly the state the matching Lifecycle function gives, so every property
  proved about Lifecycle holds of the object.

Platform effects are modelled as calls that are logged and never executed:
acquiring or releasing a wake lock, `startForeground`, `notify`,
`stopForeground`, `stopSelf`, and requesting or removing location updates.
What the service has asked the platform for is the `Platform.View` folded
from that log: the held locks, the notifications shown by id, the foreground id,
the subscribed providers and whether a stop was requested. Every
`newWakeLock(...)` and every provider constructor makes a new object. The
model gives each one a fresh number, so identity is modelled and
`shutdownHolderService`'s `isHeld` guard is checked against the lock it
actually asks.

Kotlin's `Int` and `Long` are the `JvmInts.Int32` and `JvmInts.Int64`
newtypes. Wrap-around is written out where the source can overflow:

- the `.toInt()` on the icon colour;
- the `Int` product `minutes * 60` in the wake-lock time, which is only
  widened to `Long` at `* 1000L`.

Three behaviours of the code are worth knowing:

- A START while running still overwrites the settings and subscribes a new
  provider, because the running guard sits in `start`, after the
  subscription. The previous provider is never unsubscribed, so two START
  commands leave two subscriptions, not one
  (`LifecycleProperties.SecondStartKeepsFirstSubscription`).
- SHUTDOWN asks `isHeld` of a wake lock it has just created. That lock is
  never held, so SHUTDOWN never releases the lock that START acquired; that
  lock only ends at its timeout (`LifecycleProperties.ShutdownCommandEffects`).
- The service has no guard against a fix that arrives after SHUTDOWN. It is
  forwarded whenever the background engine exists
  (`LifecycleProperties.FixAfterShutdownIsStillSent`).

Every non-null intent is answered with START_STICKY, SHUTDOWN included. Only
a null intent goes to the superclass.

## Model

Source paths are under `android/src/main/kotlin/rekab/app/background_locator/`.

| member | source | states |
|---|---|---|
| JvmInts.Wrap32 | android/src/main/kotlin/rekab/app/background_locator/IsolateHolderService.kt:182-183 | Kotlin's narrowing to `Int` gives the unique 32-bit value congruent to its input modulo 2^32, and leaves values already in range unchanged |
| JvmInts.Wrap32Unique | android/src/main/kotlin/rekab/app/background_locator/IsolateHolderService.kt:182 | an `Int` congruent to x modulo 2^32 is exactly Wrap32(x) |
| Settings.WakeLockMillis | android/src/main/kotlin/rekab/app/background_locator/IsolateHolderService.kt:183 | the wake-lock time is a whole number of seconds within ±(2^31)·1000 ms, its seconds are minutes·60 modulo 2^32, and it equals minutes·60000 exactly when \|minutes\| ≤ 35791394 (beyond that the `Int` product overflows) |
| Settings.WakeLockMillisSamples | android/src/main/kotlin/rekab/app/background_locator/IsolateHolderService.kt:183 | the default 60 minutes is one hour, 3600000 ms, and 35791395 minutes wraps to a negative time |
| Settings.IconName | android/src/main/kotlin/rekab/app/background_locator/IsolateHolderService.kt:176-180 | the icon looked up is the extra when it is present and non-empty, and "ic_stat_name" otherwise; it is never empty |
| Settings.FromStartIntent | android/src/main/kotlin/rekab/app/background_locator/IsolateHolderService.kt:170-183 | each text setting is the string extra or "null" when absent; buttons only when a true boolean extra is present; icon from the resolved icon name; the colour is the low 32 bits of a `Long` extra and 0 without one; the wake-lock time is WakeLockMillis of an `Int` extra and one hour without one |
| Settings.StartWithoutSettings | android/src/main/kotlin/rekab/app/background_locator/IsolateHolderService.kt:170-183 | a START with no extras gives "null" texts, no buttons, the default icon, colour 0 and a one-hour wake lock |
| Settings.StartReadsEverySetting | android/src/main/kotlin/rekab/app/background_locator/IsolateHolderService.kt:170-183 | a START that carries every setting is read back exactly: the colour as its low 32 bits, minutes in the exact range \|minutes\| ≤ 35791394, negative ones included, turned into milliseconds |
| Settings.OpaqueColourWraps | android/src/main/kotlin/rekab/app/background_locator/IsolateHolderService.kt:182 | an opaque ARGB colour above the `Int` range, 0xFF2196F3, is kept as the negative `Int` -14575885 |
| Settings.ApplyUpdate | android/src/main/kotlin/rekab/app/background_locator/IsolateHolderService.kt:207-225 | an update replaces exactly the title, message, big message, button label and has-buttons settings whose extras are present, and keeps everything else |
| Settings.UpdateWithoutExtrasKeepsConfig | android/src/main/kotlin/rekab/app/background_locator/IsolateHolderService.kt:206-225 | an update carrying none of the five notification extras leaves the settings unchanged |
| Settings.UpdatesMergeLastWriterWins | android/src/main/kotlin/rekab/app/background_locator/IsolateHolderService.kt:206-225 | two updates in a row equal one update whose extras are the first's overridden by the second's |
| Settings.UpdateIdempotent | android/src/main/kotlin/rekab/app/background_locator/IsolateHolderService.kt:206-225 | repeating an update changes nothing more |
| Notifications.Build | android/src/main/kotlin/rekab/app/background_locator/IsolateHolderService.kt:125-141 | the notification shows the title, message, big text, icon and colour; it has high priority and is ongoing and alert-once; it has exactly one action, (0, button label), iff buttons are on |
| Notifications.BuildShowsExactly | android/src/main/kotlin/rekab/app/background_locator/IsolateHolderService.kt:125-141 | two settings give the same notification iff they agree on every shown field; the channel name, the wake-lock time and an unused button label play no part |
| Platform.ClientFor | android/src/main/kotlin/rekab/app/background_locator/IsolateHolderService.kt:262-273 | the provider built is of the preferred backend and is a new instance |
| Platform.ClientForInverse | android/src/main/kotlin/rekab/app/background_locator/IsolateHolderService.kt:262-273 | a provider is determined by its backend and instance |
| Platform.HeldAndSubscribedAreKnown | android/src/main/kotlin/rekab/app/background_locator/IsolateHolderService.kt:192-198 | only a lock some call acquired can be held and only a provider some call subscribed can be subscribed, so a lock created now is not held |
| Lifecycle.Initial | android/src/main/kotlin/rekab/app/background_locator/IsolateHolderService.kt:49-64 | a new service has the default settings, no provider, no sink, and has made no platform call |
| Lifecycle.OnCreate | android/src/main/kotlin/rekab/app/background_locator/IsolateHolderService.kt:69-75 | creation puts the service in the foreground under id 1 with the notification of its current settings; only the log changes besides |
| Lifecycle.Log | android/src/main/kotlin/rekab/app/background_locator/IsolateHolderService.kt:311-316 | a record goes to the current sink and nowhere else, and is dropped when there is none; nothing else changes |
| Lifecycle.Start | android/src/main/kotlin/rekab/app/background_locator/IsolateHolderService.kt:77-99 | when running, only logging happens; otherwise a new wake lock is acquired for the configured time, the notification is shown in the foreground under id 1, and the flag is set |
| Lifecycle.GetLocationClient | android/src/main/kotlin/rekab/app/background_locator/IsolateHolderService.kt:262-273 | returns a new provider of the preferred backend, and changes nothing but the instance count and the log |
| Lifecycle.StartHolderService | android/src/main/kotlin/rekab/app/background_locator/IsolateHolderService.kt:169-189 | the settings come from the intent and a new provider is subscribed before the running guard; the lock and foreground follow only when the service was not running; the service is running afterwards |
| Lifecycle.ShutdownHolderService | android/src/main/kotlin/rekab/app/background_locator/IsolateHolderService.kt:191-204 | a release only if the new lock is held, removal of updates only with a current provider, then stopForeground(true) and stopSelf, with the flag cleared; the log is untouched |
| Lifecycle.UpdateNotification | android/src/main/kotlin/rekab/app/background_locator/IsolateHolderService.kt:206-230 | the sparse merge is applied, and the notification built from the merged settings is posted under id 1; nothing else changes |
| Lifecycle.OnStartCommand | android/src/main/kotlin/rekab/app/background_locator/IsolateHolderService.kt:144-167 | a null intent goes to the superclass with no effect; every other intent gets START_STICKY; an unknown action, or UPDATE while not running, changes only the log; logs reach only the current sink |
| Lifecycle.OnMethodCall | android/src/main/kotlin/rekab/app/background_locator/IsolateHolderService.kt:245-254 | only the service-initialized call sets the running flag; it gets the single reply success(null), and any other method gets two replies, not-implemented then success(null) |
| Lifecycle.OnDestroy | android/src/main/kotlin/rekab/app/background_locator/IsolateHolderService.kt:256-259 | the running flag is cleared and nothing else changes |
| Lifecycle.SendLocationEvent | android/src/main/kotlin/rekab/app/background_locator/IsolateHolderService.kt:293-309 | the event is sent iff the background engine exists; without the engine the state is unchanged: no event and no log record |
| Lifecycle.OnLocationUpdated | android/src/main/kotlin/rekab/app/background_locator/IsolateHolderService.kt:275-291 | exactly one event, the fix tagged with the callback handle, is sent iff the fix is non-null and the engine exists; a null fix changes nothing, not even the log |
| Lifecycle.OnListen | android/src/main/kotlin/rekab/app/background_locator/IsolateHolderService.kt:318-320 | the given sink, or none, replaces the current one; nothing else changes |
| Lifecycle.OnCancel | android/src/main/kotlin/rekab/app/background_locator/IsolateHolderService.kt:322-324 | there is no sink afterwards; nothing else changes |
| LifecycleProperties.CreatedServiceShowsDefaults | android/src/main/kotlin/rekab/app/background_locator/IsolateHolderService.kt:69-75 | a service just created has asked for exactly the notification of the default settings in the foreground under id 1, before any command, and the running flag is the stored one |
| LifecycleProperties.OnCreatePreservesValid | android/src/main/kotlin/rekab/app/background_locator/IsolateHolderService.kt:69-75 | creation keeps the invariant |
| LifecycleProperties.StartAfterRestartTakesNoLock | android/src/main/kotlin/rekab/app/background_locator/IsolateHolderService.kt:69-99 | an instance created with the stored flag still set, given a START, subscribes one provider but holds no wake lock, and keeps the notification requested at creation, of the default settings, as the foreground one |
| LifecycleProperties.StartCommandEffects | android/src/main/kotlin/rekab/app/background_locator/IsolateHolderService.kt:154-157 | START sets the settings from the intent, adds a new, previously unsubscribed provider to the subscriptions and runs; the lock and notification appear only when it was not running, and otherwise the locks and notifications are as before |
| LifecycleProperties.SecondStartKeepsFirstSubscription | android/src/main/kotlin/rekab/app/background_locator/IsolateHolderService.kt:185-188 | after two STARTs two distinct providers are subscribed and the second is the current one |
| LifecycleProperties.UpdateCommandEffects | android/src/main/kotlin/rekab/app/background_locator/IsolateHolderService.kt:158-163 | while running, UPDATE merges the extras and replaces notification 1 and changes no other platform state; while not running it changes nothing but the log |
| LifecycleProperties.StartThenRetitle | android/src/main/kotlin/rekab/app/background_locator/IsolateHolderService.kt:206-230 | START then a title-only UPDATE shows the START notification with only the title changed |
| LifecycleProperties.ShutdownCommandEffects | android/src/main/kotlin/rekab/app/background_locator/IsolateHolderService.kt:191-204 | SHUTDOWN answers START_STICKY, releases no lock, unsubscribes exactly the current provider, leaves the foreground taking its notification with it, requests a stop and clears the flag |
| LifecycleProperties.StepRunning | android/src/main/kotlin/rekab/app/background_locator/IsolateHolderService.kt:77-259 | START and service-initialized set the flag, SHUTDOWN and destroy clear it, and every other event leaves it alone |
| LifecycleProperties.RunningIsSetByLastLifecycleEvent | android/src/main/kotlin/rekab/app/background_locator/IsolateHolderService.kt:77-259 | after any trace the running flag is the value set by the last lifecycle event, or the initial value when there is none |
| LifecycleProperties.StepLogsOnlyToSink | android/src/main/kotlin/rekab/app/background_locator/IsolateHolderService.kt:311-324 | every event but listen only appends log records to the sink it finds; only cancel changes the sink |
| LifecycleProperties.LogsReachOnlyTheListeningSink | android/src/main/kotlin/rekab/app/background_locator/IsolateHolderService.kt:311-324 | over a trace without listen, records only go to the sink present at the start, and the sink ends as that one or none |
| LifecycleProperties.LastListenerWins | android/src/main/kotlin/rekab/app/background_locator/IsolateHolderService.kt:318-320 | after listen(A) then listen(B), for any A and B, every later record goes to B until the next listen, so none reaches A when A differs from B |
| LifecycleProperties.StepLocationEvents | android/src/main/kotlin/rekab/app/background_locator/IsolateHolderService.kt:275-309 | an event sends a location only when it is a non-null fix and the engine exists, and no event changes the engine or the handle |
| LifecycleProperties.LocationEventsFollowFixes | android/src/main/kotlin/rekab/app/background_locator/IsolateHolderService.kt:275-309 | over any trace the events sent are exactly the non-null fixes in order, each tagged with the callback handle, when the engine exists, and none otherwise |
| LifecycleProperties.FixAfterShutdownIsStillSent | android/src/main/kotlin/rekab/app/background_locator/IsolateHolderService.kt:275-309 | a fix arriving right after SHUTDOWN is still sent when the engine exists |
| LifecycleProperties.StepConfigAndClients | android/src/main/kotlin/rekab/app/background_locator/IsolateHolderService.kt:169-230 | only START creates a provider, and only START changes the channel name, icon, colour or wake-lock time |
| LifecycleProperties.OnlyStartReconfigures | android/src/main/kotlin/rekab/app/background_locator/IsolateHolderService.kt:169-230 | over any trace one provider is created per START, and with no START the channel name, icon, colour and wake-lock time are as before |
| LifecycleProperties.StartHolderServicePreservesValid | android/src/main/kotlin/rekab/app/background_locator/IsolateHolderService.kt:169-189 | a START keeps every lock and provider the platform has seen among those the service created |
| LifecycleProperties.ShutdownHolderServicePreservesValid | android/src/main/kotlin/rekab/app/background_locator/IsolateHolderService.kt:191-204 | a SHUTDOWN keeps the same invariant |
| LifecycleProperties.StepPreservesValid | android/src/main/kotlin/rekab/app/background_locator/IsolateHolderService.kt:144-324 | every event keeps the invariant |
| LifecycleProperties.RunPreservesValid | android/src/main/kotlin/rekab/app/background_locator/IsolateHolderService.kt:144-324 | any trace from a valid state, hence from a new service, keeps the invariant |
| HolderService.IsolateHolderService.constructor | android/src/main/kotlin/rekab/app/background_locator/IsolateHolderService.kt:49-64 | the field initialisers give the state Lifecycle.Initial describes, which satisfies the invariant |
| HolderService.IsolateHolderService.OnCreate | android/src/main/kotlin/rekab/app/background_locator/IsolateHolderService.kt:69-75 | leaves the state Lifecycle.OnCreate gives, keeping the invariant |
| HolderService.IsolateHolderService.Log | android/src/main/kotlin/rekab/app/background_locator/IsolateHolderService.kt:311-316 | leaves the object in the state Lifecycle.Log gives |
| HolderService.IsolateHolderService.Start | android/src/main/kotlin/rekab/app/background_locator/IsolateHolderService.kt:77-99 | leaves the object in the state Lifecycle.Start gives |
| HolderService.IsolateHolderService.GetLocationClient | android/src/main/kotlin/rekab/app/background_locator/IsolateHolderService.kt:262-273 | returns the provider and leaves the state Lifecycle.GetLocationClient gives |
| HolderService.IsolateHolderService.ReadStartSettings | android/src/main/kotlin/rekab/app/background_locator/IsolateHolderService.kt:170-183 | writes only the nine settings fields, which then hold Settings.FromStartIntent of the intent |
| HolderService.IsolateHolderService.StartHolderService | android/src/main/kotlin/rekab/app/background_locator/IsolateHolderService.kt:169-189 | leaves the object in the state Lifecycle.StartHolderService gives |
| HolderService.IsolateHolderService.ShutdownHolderService | android/src/main/kotlin/rekab/app/background_locator/IsolateHolderService.kt:191-204 | leaves the object in the state Lifecycle.ShutdownHolderService gives |
| HolderService.IsolateHolderService.ReadUpdateSettings | android/src/main/kotlin/rekab/app/background_locator/IsolateHolderService.kt:207-225 | writes only the five notification fields, which then hold Settings.ApplyUpdate of the old settings |
| HolderService.IsolateHolderService.UpdateNotification | android/src/main/kotlin/rekab/app/background_locator/IsolateHolderService.kt:206-230 | leaves the object in the state Lifecycle.UpdateNotification gives |
| HolderService.IsolateHolderService.OnStartCommand | android/src/main/kotlin/rekab/app/background_locator/IsolateHolderService.kt:144-167 | returns the start mode and leaves the state Lifecycle.OnStartCommand gives, keeping the invariant |
| HolderService.IsolateHolderService.OnMethodCall | android/src/main/kotlin/rekab/app/background_locator/IsolateHolderService.kt:245-254 | returns the replies and leaves the state Lifecycle.OnMethodCall gives, keeping the invariant |
| HolderService.IsolateHolderService.OnDestroy | android/src/main/kotlin/rekab/app/background_locator/IsolateHolderService.kt:256-259 | leaves the state Lifecycle.OnDestroy gives, keeping the invariant |
| HolderService.IsolateHolderService.SendLocationEvent | android/src/main/kotlin/rekab/app/background_locator/IsolateHolderService.kt:293-309 | leaves the state Lifecycle.SendLocationEvent gives |
| HolderService.IsolateHolderService.OnLocationUpdated | android/src/main/kotlin/rekab/app/background_locator/IsolateHolderService.kt:275-291 | leaves the state Lifecycle.OnLocationUpdated gives, keeping the invariant |
| HolderService.IsolateHolderService.OnListen | android/src/main/kotlin/rekab/app/background_locator/IsolateHolderService.kt:318-320 | leaves the state Lifecycle.OnListen gives, keeping the invariant |
| HolderService.IsolateHolderService.OnCancel | android/src/main/kotlin/rekab/app/background_locator/IsolateHolderService.kt:322-324 | leaves the state Lifecycle.OnCancel gives, keeping the invariant |

## Left out

- Notification channel creation (lines 102-109) is not modelled. On Android O and later every `getNotification` registers the user-visible channel under `notificationChannelName`. The model records no channels, so `Config.channelName` is stored and read by no modelled operation.
- The `PendingIntent`s and `getMainActivityClass` (lines 111-123, 232-243) are not modelled. They decide where a tap on the notification or its button leads, and they can also make `getNotification` throw:
  - `getMainActivityClass` returns null when the app has no launch activity (line 235) or its class cannot be loaded (line 241), and the `Intent` built from that null class throws;
  - `FLAG_UPDATE_CURRENT` alone, without an immutability flag, makes `PendingIntent.getActivity` throw on Android 12 and later for apps targeting API 31 or later.
  The model assumes `getNotification` always returns (`Notifications.Build` is total). It does not capture a failing `onCreate`, `start` or `updateNotification`, nor a `start` that fails after acquiring the wake lock and before setting the running flag.
- `onBind` (lines 65-67) returns null and has no effect. In `onCreate`, `startLocatorService` and `loggerChannel.setStreamHandler` are not part of this model; its `startForeground` and its log record are (`Lifecycle.OnCreate`).
- `Lifecycle.OnCreate` is not a `Lifecycle.Event`. Traces start from a given state, which may be `Lifecycle.Initial` with or without creation applied. `Lifecycle.Initial` alone shows no notification and has no foreground.
- The model assumes `startForeground` and `notify` accept every notification, and the View records what was asked for. Android refuses a notification whose small icon is 0 (no valid small icon): `notify` throws, and `startForeground` shows a system notification in its place. The icon is 0 in the notification `onCreate` posts, because the field starts at 0 (line 57) and is only set by a START (line 181). It is also 0 after a START whose icon name `getIdentifier` cannot resolve, since that returns 0. So `LifecycleProperties.CreatedServiceShowsDefaults` and `LifecycleProperties.StartAfterRestartTakesNoLock` describe the notification requested, not the one shown, and an UPDATE_NOTIFICATION while the icon is 0 would throw out of `onStartCommand` (line 229) rather than replace notification 1.
- A trace is the life of one service instance. On Android, `onDestroy` ends the instance, and later commands reach a new one. That includes the null intent of a START_STICKY restart after the process is killed (line 166). The new instance is a new trace from `OnCreate(Initial(<stored running flag>, ...))`: the default settings, no provider, no wake lock, and the stored flag, which may still be set (`LifecycleProperties.StartAfterRestartTakesNoLock`). `Command(None)` models only the hand-off to the superclass, not the restart. Events after `Destroy` in one trace act on the old instance's state. Properties over traces, such as `LifecycleProperties.OnlyStartReconfigures`, hold within one instance only.
- The values of the `Keys` constants are not part of this model. Intent extra keys and method names are distinct datatype constructors.
- `getLocationRequest` and the provider classes are not part of this model. A subscription records the START intent it was built from.
- `resources.getIdentifier` is a function parameter, `string -> Int32`.
- Wake-lock timeouts are not modelled: a lock acquired stays held in `Platform.View`. `setReferenceCounted(false)` plays no part, because each lock object is acquired at most once.
- `Handler.post` is not modelled. Log records and location events are recorded when posted, in posting order, and concurrency between the provider's callbacks and commands is left out.
- `FlutterInjector` initialisation, the `MethodChannel` construction and `Log.d` have no effect the service can observe.
- The Kotlin `as Long` cast on the callback handle is not modelled. It throws when no handle is stored (null) or when another type is stored. The handle is an `Int64` given to the service.
- PreferencesManager's storage, the setters of the static `backgroundEngine` and the plugin's storage of the callback handle live in other files. The running flag, the client preference, the engine's presence and the callback handle are state fields. No `Lifecycle.Event` lets other code change any of them between events. Only the service's own operations change the running flag, and nothing changes the other three. `LifecycleProperties.LocationEventsFollowFixes`, `LifecycleProperties.OnlyStartReconfigures` and `LifecycleProperties.SecondStartKeepsFirstSubscription` hold under that assumption; the last relies on both providers having the same backend.
- `super.onStartCommand` and `super.onDestroy` are the framework's. `SuperclassDefault` marks the delegation and nothing more.
- `onMethodCall`'s `MethodChannel.Result` is a returned list of replies.
