/**
 * The flat key-value preference store (`UserDefaults.standard`) shared by
 * both applications.
 *
 * Keys are an enumeration; `KeyName` gives the string each one stands for
 * in the app. Encoded collections are stored as typed blobs: a blob written
 * from a list decodes back to that list, and `Undecodable` stands for any
 * data that does not decode.
 */
module Store {
  import opened Wrappers
  import opened Models

  datatype Key =
    // PantheonGoalsStorageManager.Keys, plus the run-once setup flag
    | IsFirstLaunch | SoundEnabled | HapticEnabled | NotificationsEnabled
    | UserName | UserAvatar | Artifacts | Achievements | DefaultsConfigured
    // AppConfig.Keys
    | WebViewShown | TargetUrl | ForceGame | ChecksComplete | AppStatus | ApiFailed
    | PushIdentifier | PushPermissionAsked | CachedToken | DeviceId | LinkProcessed
    | WebKey | GameKey | Cookies
    // the attribution payload saved by AppParameters.saveConversionData
    | ConversionData

  /** The string under which each key is stored. */
  function KeyName(k: Key): string
  {
    match k
    case IsFirstLaunch => "PantheonGoals_IsFirstLaunch"
    case SoundEnabled => "PantheonGoals_SoundEnabled"
    case HapticEnabled => "PantheonGoals_HapticEnabled"
    case NotificationsEnabled => "PantheonGoals_NotificationsEnabled"
    case UserName => "PantheonGoals_UserName"
    case UserAvatar => "PantheonGoals_UserAvatar"
    case Artifacts => "PantheonGoals_Artifacts"
    case Achievements => "PantheonGoals_Achievements"
    case DefaultsConfigured => "PantheonGoals_DefaultsConfigured"
    case WebViewShown => "pantefokwebview_shown"
    case TargetUrl => "pantefoktarget_url"
    case ForceGame => "pantefokforce_game"
    case ChecksComplete => "pantefokchecks_complete"
    case AppStatus => "pantefokapp_status"
    case ApiFailed => "pantefokapi_failed"
    case PushIdentifier => "pantefokpush_identifier"
    case PushPermissionAsked => "pantefokpush_permission_asked"
    case CachedToken => "pantefokcached_token"
    case DeviceId => "pantefokdevice_id"
    case LinkProcessed => "pantefoklink_processed"
    case WebKey => "pantefokweb_key"
    case GameKey => "pantefokgame_key"
    case Cookies => "pantefokcookies"
    case ConversionData => "conversion_data"
  }

  datatype Blob =
    | ArtifactList(artifacts: seq<Artifact>)
    | AchievementList(achievements: seq<Achievement>)
    | Undecodable

  datatype Value =
    | BoolValue(b: bool)
    | IntValue(i: int)
    | StringValue(s: string)
    | DataValue(blob: Blob)

  type Prefs = map<Key, Value>

  /** `bool(forKey:)`: false when unset or not a boolean or number. */
  function BoolOf(m: Prefs, k: Key): (r: bool)
    ensures k !in m ==> !r
    ensures k in m && m[k].BoolValue? ==> r == m[k].b
  {
    if k !in m then false
    else match m[k]
      case BoolValue(b) => b
      case IntValue(i) => i != 0
      case _ => false
  }

  /** `integer(forKey:)`: 0 when unset. */
  function IntegerOf(m: Prefs, k: Key): (r: int)
    ensures k !in m ==> r == 0
    ensures k in m && m[k].IntValue? ==> r == m[k].i
  {
    if k !in m then 0
    else match m[k]
      case IntValue(i) => i
      case BoolValue(b) => if b then 1 else 0
      case _ => 0
  }

  /** `string(forKey:)`: nil unless a string is stored. */
  function StringOf(m: Prefs, k: Key): (r: Option<string>)
    ensures r.Some? <==> k in m && m[k].StringValue?
    ensures r.Some? ==> r.value == m[k].s
  {
    if k in m && m[k].StringValue? then Some(m[k].s) else None
  }

  /** `data(forKey:)`: nil unless data is stored. */
  function DataOf(m: Prefs, k: Key): (r: Option<Blob>)
    ensures r.Some? <==> k in m && m[k].DataValue?
    ensures r.Some? ==> r.value == m[k].blob
  {
    if k in m && m[k].DataValue? then Some(m[k].blob) else None
  }

  /** `string(forKey:)` followed by the `!isEmpty` test the callers apply. */
  function NonEmptyString(m: Prefs, k: Key): (r: Option<string>)
    ensures r.Some? <==> StringOf(m, k).Some? && StringOf(m, k).value != ""
    ensures r.Some? ==> r.value == m[k].s
  {
    match StringOf(m, k)
    case Some(s) => if s != "" then Some(s) else None
    case None => None
  }

  /** The store itself: one map, changed by `set(_:forKey:)`. */
  class Defaults {
    var entries: Prefs

    constructor(initial: Prefs)
      ensures entries == initial
    {
      entries := initial;
    }

    method Set(k: Key, v: Value)
      modifies this
      ensures entries == old(entries)[k := v]
    {
      entries := entries[k := v];
    }
  }
}
