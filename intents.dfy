/**
 * The part of an Android `Intent` the service reads: its action string and its
 * extras, with the typed getters' behaviour when an extra is absent or of
 * another type.
 */
module Intents {
  import opened Options
  import opened JvmInts

  /**
   * The extra keys the service reads. Their string values are defined in
   * Keys.kt, which is not part of this model, so each key is a constructor and
   * distinct keys are distinct constructors.
   */
  datatype ExtraKey =
    | ChannelNameKey
    | TitleKey
    | MsgKey
    | BigMsgKey
    | ButtonMsgKey
    | HasButtonsKey
    | IconKey
    | IconColorKey
    | WakeLockTimeKey
    | OtherKey(name: string)

  /** A value stored under an extra key; `NullValue` is an extra put with a null value. */
  datatype Extra =
    | Str(text: string)
    | Boolean(flag: bool)
    | Integer(int32: Int32)
    | Long(int64: Int64)
    | NullValue

  datatype Intent = Intent(action: Option<string>, extras: map<ExtraKey, Extra>)

  /** `Intent.hasExtra`: true for a key present with any value, null included. */
  predicate HasExtra(intent: Intent, key: ExtraKey) {
    key in intent.extras
  }

  /** `Intent.getStringExtra`: null unless the key holds a string. */
  function GetStringExtra(intent: Intent, key: ExtraKey): Option<string> {
    if key in intent.extras && intent.extras[key].Str? then Some(intent.extras[key].text) else None
  }

  /** `Intent.getBooleanExtra`: the default unless the key holds a boolean. */
  function GetBooleanExtra(intent: Intent, key: ExtraKey, default: bool): bool {
    if key in intent.extras && intent.extras[key].Boolean? then intent.extras[key].flag else default
  }

  /** `Intent.getIntExtra`: the default unless the key holds an `Int`. */
  function GetIntExtra(intent: Intent, key: ExtraKey, default: Int32): Int32 {
    if key in intent.extras && intent.extras[key].Integer? then intent.extras[key].int32 else default
  }

  /** `Intent.getLongExtra`: the default unless the key holds a `Long`. */
  function GetLongExtra(intent: Intent, key: ExtraKey, default: Int64): Int64 {
    if key in intent.extras && intent.extras[key].Long? then intent.extras[key].int64 else default
  }

  /** Kotlin's `Any?.toString()`: a null string becomes the four letters "null". */
  function NullableToString(s: Option<string>): string {
    match s
    case Some(text) => text
    case None => "null"
  }
}
