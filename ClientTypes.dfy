/** The client's view of the settings (client/src/lib/types.ts): the typed
    `AppSettings` object, the partial objects the admin page sends around,
    the object spread that merges them, and the two stream channels. */
module ClientTypes {
  import opened Js

  /** An `AppSettings` object as it exists at run time. The union-typed
      fields are plain strings, because decoding casts without checking, and
      the string fields may be `undefined` (None) when the server's object
      lacks their key. `quickActions` is never read or written and is left
      out. */
  datatype AppSettings = AppSettings(
    bannerText: Option<string>,
    showBanner: bool,
    primaryColor: Option<string>,
    currentStream: Option<string>,
    autoDetectStream: bool,
    offlineBehavior: Option<string>,
    darkMode: bool,
    animationsEnabled: bool,
    showAnnouncements: bool,
    showNextStream: bool,
    showSocials: bool,
    seasonalTheme: Option<string>)

  /** `Partial<AppSettings>`: None marks a property the object does not have. */
  datatype Patch = Patch(
    bannerText: Option<string>,
    showBanner: Option<bool>,
    primaryColor: Option<string>,
    currentStream: Option<string>,
    autoDetectStream: Option<bool>,
    offlineBehavior: Option<string>,
    darkMode: Option<bool>,
    animationsEnabled: Option<bool>,
    showAnnouncements: Option<bool>,
    showNextStream: Option<bool>,
    showSocials: Option<bool>,
    seasonalTheme: Option<string>)

  const NoChange := Patch(None, None, None, None, None, None, None, None, None, None, None, None)

  predicate OfflineBehaviorValue(s: string) {
    s == "clips" || s == "message" || s == "schedule"
  }

  predicate SeasonalThemeValue(s: string) {
    s == "default" || s == "halloween" || s == "christmas" || s == "spring" || s == "summer"
  }

  /** The object has the shape its declared type promises: every string
      field is defined, and the two unions hold one of their members. */
  predicate WellTyped(s: AppSettings) {
    && s.bannerText.Some? && s.primaryColor.Some? && s.currentStream.Some?
    && s.offlineBehavior.Some? && OfflineBehaviorValue(s.offlineBehavior.value)
    && s.seasonalTheme.Some? && SeasonalThemeValue(s.seasonalTheme.value)
  }

  /** Every string field is defined. */
  predicate Defined(s: AppSettings) {
    s.bannerText.Some? && s.primaryColor.Some? && s.currentStream.Some? && s.offlineBehavior.Some? && s.seasonalTheme.Some?
  }

  /** `{ ...s, ...p }`: each property the patch has replaces the one in `s`. */
  function Apply(s: AppSettings, p: Patch): AppSettings {
    AppSettings(
      PickOptional(p.bannerText, s.bannerText),
      Pick(p.showBanner, s.showBanner),
      PickOptional(p.primaryColor, s.primaryColor),
      PickOptional(p.currentStream, s.currentStream),
      Pick(p.autoDetectStream, s.autoDetectStream),
      PickOptional(p.offlineBehavior, s.offlineBehavior),
      Pick(p.darkMode, s.darkMode),
      Pick(p.animationsEnabled, s.animationsEnabled),
      Pick(p.showAnnouncements, s.showAnnouncements),
      Pick(p.showNextStream, s.showNextStream),
      Pick(p.showSocials, s.showSocials),
      PickOptional(p.seasonalTheme, s.seasonalTheme))
  }

  /** `{ ...p, ...q }` on two partial objects. */
  function Merge(p: Patch, q: Patch): Patch {
    Patch(
      PickOptional(q.bannerText, p.bannerText),
      PickOptional(q.showBanner, p.showBanner),
      PickOptional(q.primaryColor, p.primaryColor),
      PickOptional(q.currentStream, p.currentStream),
      PickOptional(q.autoDetectStream, p.autoDetectStream),
      PickOptional(q.offlineBehavior, p.offlineBehavior),
      PickOptional(q.darkMode, p.darkMode),
      PickOptional(q.animationsEnabled, p.animationsEnabled),
      PickOptional(q.showAnnouncements, p.showAnnouncements),
      PickOptional(q.showNextStream, p.showNextStream),
      PickOptional(q.showSocials, p.showSocials),
      PickOptional(q.seasonalTheme, p.seasonalTheme))
  }

  /** `JSON.parse(JSON.stringify(s))`: an `undefined` property is dropped. */
  function Persisted(s: AppSettings): Patch {
    Patch(s.bannerText, Some(s.showBanner), s.primaryColor, s.currentStream, Some(s.autoDetectStream),
          s.offlineBehavior, Some(s.darkMode), Some(s.animationsEnabled), Some(s.showAnnouncements),
          Some(s.showNextStream), Some(s.showSocials), s.seasonalTheme)
  }

  /** The names of the properties a patch has. */
  function DefinedKeys(p: Patch): set<string> {
    (if p.bannerText.Some? then {"bannerText"} else {})
    + (if p.showBanner.Some? then {"showBanner"} else {})
    + (if p.primaryColor.Some? then {"primaryColor"} else {})
    + (if p.currentStream.Some? then {"currentStream"} else {})
    + (if p.autoDetectStream.Some? then {"autoDetectStream"} else {})
    + (if p.offlineBehavior.Some? then {"offlineBehavior"} else {})
    + (if p.darkMode.Some? then {"darkMode"} else {})
    + (if p.animationsEnabled.Some? then {"animationsEnabled"} else {})
    + (if p.showAnnouncements.Some? then {"showAnnouncements"} else {})
    + (if p.showNextStream.Some? then {"showNextStream"} else {})
    + (if p.showSocials.Some? then {"showSocials"} else {})
    + (if p.seasonalTheme.Some? then {"seasonalTheme"} else {})
  }

  /** The properties of `AppSettings`, and the value of one of them. */
  datatype Property =
    | BannerTextProp | ShowBannerProp | PrimaryColorProp
    | CurrentStreamProp | AutoDetectStreamProp | OfflineBehaviorProp
    | DarkModeProp | AnimationsEnabledProp | ShowAnnouncementsProp
    | ShowNextStreamProp | ShowSocialsProp | SeasonalThemeProp

  datatype FieldValue = TextField(text: Option<string>) | FlagField(flag: bool)

  /** The property's name as a key of the object. */
  function PropertyName(f: Property): string {
    match f
    case BannerTextProp => "bannerText"
    case ShowBannerProp => "showBanner"
    case PrimaryColorProp => "primaryColor"
    case CurrentStreamProp => "currentStream"
    case AutoDetectStreamProp => "autoDetectStream"
    case OfflineBehaviorProp => "offlineBehavior"
    case DarkModeProp => "darkMode"
    case AnimationsEnabledProp => "animationsEnabled"
    case ShowAnnouncementsProp => "showAnnouncements"
    case ShowNextStreamProp => "showNextStream"
    case ShowSocialsProp => "showSocials"
    case SeasonalThemeProp => "seasonalTheme"
  }

  function FieldOf(s: AppSettings, f: Property): FieldValue {
    match f
    case BannerTextProp => TextField(s.bannerText)
    case ShowBannerProp => FlagField(s.showBanner)
    case PrimaryColorProp => TextField(s.primaryColor)
    case CurrentStreamProp => TextField(s.currentStream)
    case AutoDetectStreamProp => FlagField(s.autoDetectStream)
    case OfflineBehaviorProp => TextField(s.offlineBehavior)
    case DarkModeProp => FlagField(s.darkMode)
    case AnimationsEnabledProp => FlagField(s.animationsEnabled)
    case ShowAnnouncementsProp => FlagField(s.showAnnouncements)
    case ShowNextStreamProp => FlagField(s.showNextStream)
    case ShowSocialsProp => FlagField(s.showSocials)
    case SeasonalThemeProp => TextField(s.seasonalTheme)
  }

  /** A property the patch does not define keeps its value under the spread. */
  lemma ApplyUntouched(s: AppSettings, p: Patch, f: Property)
    requires PropertyName(f) !in DefinedKeys(p)
    ensures FieldOf(Apply(s, p), f) == FieldOf(s, f)
  {
  }

  /** Applying a patch never undefines a field; the empty patch changes nothing. */
  lemma ApplyKeepsDefined(s: AppSettings, p: Patch)
    requires Defined(s)
    ensures Defined(Apply(s, p))
    ensures Apply(s, NoChange) == s
  {
  }

  /** Spreading two patches in turn is spreading their merge. */
  lemma ApplyMerge(s: AppSettings, p: Patch, q: Patch)
    ensures Apply(Apply(s, p), q) == Apply(s, Merge(p, q))
  {
  }

  /** Applying the same patch twice is applying it once. */
  lemma ApplyIdempotent(s: AppSettings, p: Patch)
    ensures Apply(Apply(s, p), p) == Apply(s, p)
  {
  }

  /** A full persisted object restores `s` over any base: every property
      it has wins, and the ones it lacks are the undefined ones of `s`. */
  lemma ApplyPersisted(base: AppSettings, s: AppSettings)
    requires Defined(s)
    ensures Apply(base, Persisted(s)) == s
  {
  }

  // ---------------------------------------------------------------------
  // Announcement type and stream channels

  datatype AnnouncementType = DefaultType | SpecialType | ImportantType

  function AnnouncementTypeName(t: AnnouncementType): string {
    match t
    case DefaultType => "default"
    case SpecialType => "special"
    case ImportantType => "important"
  }

  /** The union has exactly three distinct members. */
  lemma AnnouncementTypesDistinct(a: AnnouncementType, b: AnnouncementType)
    ensures AnnouncementTypeName(a) == AnnouncementTypeName(b) <==> a == b
    ensures a == DefaultType || a == SpecialType || a == ImportantType
  {
  }

  datatype ChannelType = IRL | Gaming

  datatype Channel = Channel(id: string, displayName: string, username: string, kind: ChannelType)

  /** The IRL channel, then the gaming channel; each id is its username. */
  const StreamChannels: seq<Channel> := [
    Channel("rennsz", "IRL Channel", "rennsz", IRL),
    Channel("rennszino", "Gaming Channel", "rennszino", Gaming)]

  /** `STREAM_CHANNELS.find(s => s.id === id)`. */
  function FindChannel(channels: seq<Channel>, id: string): (r: Option<Channel>)
    ensures r.Some? ==> r.value in channels && r.value.id == id
    ensures r.None? <==> forall i :: 0 <= i < |channels| ==> channels[i].id != id
  {
    if |channels| == 0 then None
    else if channels[0].id == id then Some(channels[0])
    else FindChannel(channels[1..], id)
  }

  lemma StreamChannelsShape()
    ensures |StreamChannels| == 2
    ensures forall i :: 0 <= i < |StreamChannels| ==> StreamChannels[i].id == StreamChannels[i].username
    ensures StreamChannels[0].kind == IRL && StreamChannels[1].kind == Gaming
    ensures FindChannel(StreamChannels, "rennsz") == Some(StreamChannels[0])
    ensures FindChannel(StreamChannels, "rennszino") == Some(StreamChannels[1])
  {
    assert StreamChannels[1..][0] == StreamChannels[1];
  }
}
