/**
 * The service's notification configuration and the two ways commands change it:
 * `startHolderService` overwrites every field from the START intent, and
 * `updateNotification` changes only the fields whose extras are present.
 */
module Settings {
  import opened Options
  import opened JvmInts
  import opened Intents

  /** The fields `notificationChannelName` .. `wakeLockTime` of the service. */
  datatype Config = Config(
    channelName: string,
    title: string,
    msg: string,
    bigMsg: string,
    buttonMsg: string,
    hasButtons: bool,
    icon: Int32,
    iconColor: Int32,
    wakeLockMs: Int64)

  const DefaultIconName := "ic_stat_name"
  const DefaultWakeLockMinutes: Int32 := 60
  const HourInMs: Int64 := 3_600_000

  /** The field initialisers of the service. */
  const Defaults := Config(
    "Flutter Locator Plugin",
    "Start Location Tracking",
    "Track location in background",
    "Background location is on to keep the app up-tp-date with your location. This is required for main features to work properly when the app is not running.",
    "Button1",
    true,
    0,
    0,
    HourInMs)

  /** The largest minute count whose `Int` product `minutes * 60` does not wrap. */
  const MaxExactMinutes: int := 35_791_394

  /**
   * `minutes * 60 * 1000L`: the first product is `Int` and wraps at 32 bits,
   * the second is `Long` and is exact.
   */
  function WakeLockMillis(minutes: Int32): (ms: Int64)
    ensures ms as int % 1000 == 0
    ensures MinInt32 * 1000 <= ms as int <= MaxInt32 * 1000
    ensures ms as int == minutes as int * 60_000 <==> -MaxExactMinutes <= minutes as int <= MaxExactMinutes
    ensures (ms as int / 1000 - minutes as int * 60) % TwoTo32 == 0
  {
    var seconds := Wrap32(minutes as int * 60);
    (seconds as int * 1000) as Int64
  }

  /** The drawable name looked up for the icon: the extra, unless it is absent or empty. */
  function IconName(intent: Intent): (name: string)
    ensures name != []
    ensures GetStringExtra(intent, IconKey).Some? && GetStringExtra(intent, IconKey).value != [] ==>
              name == GetStringExtra(intent, IconKey).value
    ensures GetStringExtra(intent, IconKey) in {None, Some([])} ==> name == DefaultIconName
  {
    var iconName := GetStringExtra(intent, IconKey);
    if iconName.None? || iconName.value == [] then DefaultIconName else iconName.value
  }

  /** The intent carries `value` under `key`. */
  predicate Holds(intent: Intent, key: ExtraKey, value: Extra) {
    key in intent.extras && intent.extras[key] == value
  }

  /** The text a string setting takes: the extra's string, or "null" when there is none. */
  ghost function TextSetting(intent: Intent, key: ExtraKey): string {
    if key in intent.extras && intent.extras[key].Str? then intent.extras[key].text else "null"
  }

  /**
   * The configuration `startHolderService` assigns from a START intent;
   * `resources` stands for `resources.getIdentifier(name, "drawable", packageName)`.
   */
  function FromStartIntent(intent: Intent, resources: string -> Int32): (c: Config)
    ensures c.channelName == TextSetting(intent, ChannelNameKey)
    ensures c.title == TextSetting(intent, TitleKey)
    ensures c.msg == TextSetting(intent, MsgKey)
    ensures c.bigMsg == TextSetting(intent, BigMsgKey)
    ensures c.buttonMsg == TextSetting(intent, ButtonMsgKey)
    ensures c.hasButtons <==> Holds(intent, HasButtonsKey, Boolean(true))
    ensures c.icon == resources(IconName(intent))
    ensures IconColorKey !in intent.extras || !intent.extras[IconColorKey].Long? ==> c.iconColor == 0
    ensures IconColorKey in intent.extras && intent.extras[IconColorKey].Long? ==>
              c.iconColor == Wrap32(intent.extras[IconColorKey].int64 as int)
    ensures WakeLockTimeKey !in intent.extras || !intent.extras[WakeLockTimeKey].Integer? ==> c.wakeLockMs == HourInMs
    ensures WakeLockTimeKey in intent.extras && intent.extras[WakeLockTimeKey].Integer? ==>
              c.wakeLockMs == WakeLockMillis(intent.extras[WakeLockTimeKey].int32)
  {
    Config(
      NullableToString(GetStringExtra(intent, ChannelNameKey)),
      NullableToString(GetStringExtra(intent, TitleKey)),
      NullableToString(GetStringExtra(intent, MsgKey)),
      NullableToString(GetStringExtra(intent, BigMsgKey)),
      NullableToString(GetStringExtra(intent, ButtonMsgKey)),
      GetBooleanExtra(intent, HasButtonsKey, false),
      resources(IconName(intent)),
      Wrap32(GetLongExtra(intent, IconColorKey, 0) as int),
      WakeLockMillis(GetIntExtra(intent, WakeLockTimeKey, DefaultWakeLockMinutes)))
  }

  /** The sparse merge `updateNotification` performs on the configuration. */
  function ApplyUpdate(c: Config, intent: Intent): (u: Config)
    ensures u.channelName == c.channelName && u.icon == c.icon
    ensures u.iconColor == c.iconColor && u.wakeLockMs == c.wakeLockMs
    ensures u.title == if TitleKey in intent.extras then TextSetting(intent, TitleKey) else c.title
    ensures u.msg == if MsgKey in intent.extras then TextSetting(intent, MsgKey) else c.msg
    ensures u.bigMsg == if BigMsgKey in intent.extras then TextSetting(intent, BigMsgKey) else c.bigMsg
    ensures u.buttonMsg == if ButtonMsgKey in intent.extras then TextSetting(intent, ButtonMsgKey) else c.buttonMsg
    ensures u.hasButtons == if HasButtonsKey in intent.extras then intent.extras[HasButtonsKey] == Boolean(true) else c.hasButtons
  {
    c.(
      title := if HasExtra(intent, TitleKey) then NullableToString(GetStringExtra(intent, TitleKey)) else c.title,
      msg := if HasExtra(intent, MsgKey) then NullableToString(GetStringExtra(intent, MsgKey)) else c.msg,
      bigMsg := if HasExtra(intent, BigMsgKey) then NullableToString(GetStringExtra(intent, BigMsgKey)) else c.bigMsg,
      buttonMsg := if HasExtra(intent, ButtonMsgKey) then NullableToString(GetStringExtra(intent, ButtonMsgKey)) else c.buttonMsg,
      hasButtons := if HasExtra(intent, HasButtonsKey) then GetBooleanExtra(intent, HasButtonsKey, false) else c.hasButtons)
  }

  /** The keys an UPDATE_NOTIFICATION intent may carry. */
  predicate CarriesNotificationExtras(intent: Intent) {
    TitleKey in intent.extras || MsgKey in intent.extras || BigMsgKey in intent.extras
    || ButtonMsgKey in intent.extras || HasButtonsKey in intent.extras
  }

  /** A START intent with none of the settings gives "null" texts, no buttons, the default icon, colour 0 and one hour. */
  lemma StartWithoutSettings(intent: Intent, resources: string -> Int32)
    requires intent.extras == map[]
    ensures FromStartIntent(intent, resources)
         == Config("null", "null", "null", "null", "null", false, resources(DefaultIconName), 0, HourInMs)
  {
  }

  /**
   * A START intent carrying every setting is read back exactly: the colour as
   * its low 32 bits, the minutes turned into milliseconds.
   */
  lemma StartReadsEverySetting(intent: Intent, resources: string -> Int32, sent: Config, iconName: string, color: Int64, minutes: Int32)
    requires Holds(intent, ChannelNameKey, Str(sent.channelName))
    requires Holds(intent, TitleKey, Str(sent.title))
    requires Holds(intent, MsgKey, Str(sent.msg))
    requires Holds(intent, BigMsgKey, Str(sent.bigMsg))
    requires Holds(intent, ButtonMsgKey, Str(sent.buttonMsg))
    requires Holds(intent, HasButtonsKey, Boolean(sent.hasButtons))
    requires Holds(intent, IconKey, Str(iconName)) && iconName != [] && sent.icon == resources(iconName)
    requires Holds(intent, IconColorKey, Long(color)) && sent.iconColor == Wrap32(color as int)
    requires Holds(intent, WakeLockTimeKey, Integer(minutes)) && -MaxExactMinutes <= minutes as int <= MaxExactMinutes
    requires sent.wakeLockMs as int == minutes as int * 60_000
    ensures FromStartIntent(intent, resources) == sent
  {
  }

  /** An update without any of the five notification extras leaves the configuration as it was. */
  lemma UpdateWithoutExtrasKeepsConfig(c: Config, intent: Intent)
    requires !CarriesNotificationExtras(intent)
    ensures ApplyUpdate(c, intent) == c
  {
  }

  /** Two sparse updates in a row are one update with the later extras overriding the earlier. */
  lemma UpdatesMergeLastWriterWins(c: Config, first: Intent, second: Intent)
    ensures ApplyUpdate(ApplyUpdate(c, first), second)
         == ApplyUpdate(c, first.(extras := first.extras + second.extras))
  {
  }

  /** Updating twice with the same intent is updating once. */
  lemma UpdateIdempotent(c: Config, intent: Intent)
    ensures ApplyUpdate(ApplyUpdate(c, intent), intent) == ApplyUpdate(c, intent)
  {
  }

  /**
   * An opaque ARGB colour such as 0xFF2196F3 is above the `Int` range; the
   * service keeps its low 32 bits, a negative `Int`, as Android expects.
   */
  lemma OpaqueColourWraps(intent: Intent, resources: string -> Int32)
    requires Holds(intent, IconColorKey, Long(0xFF2196F3))
    ensures FromStartIntent(intent, resources).iconColor == -14_575_885
  {
  }

  /** Sixty minutes, the default, is one hour; one minute past the exact range wraps to a negative time. */
  lemma WakeLockMillisSamples()
    ensures WakeLockMillis(DefaultWakeLockMinutes) == HourInMs
    ensures WakeLockMillis((MaxExactMinutes + 1) as Int32) as int == -2_147_483_596_000
  {
  }
}
