/** The record shapes shared by server and client (shared/schema.ts): the
    three tables, their insert shapes, the partial updates the store
    accepts, the constraints the generated insert schemas check, and the
    `SettingKey` enumeration. */
module Schema {
  import opened Js

  /** A row of the announcements table. The `type` column is a free string
      (called `kind` here, `type` being a Dafny keyword). It is None when the
      insert omitted it: the column default "default" is applied by a
      database, not by the in-memory store. Timestamps are milliseconds. */
  datatype Announcement = Announcement(id: int, title: string, content: string, kind: Option<string>, timestamp: int)

  /** The insert shape: the generated id and the timestamp are omitted. */
  datatype InsertAnnouncement = InsertAnnouncement(title: string, content: string, kind: Option<string>)

  /** `Partial<InsertAnnouncement>`: None marks an absent field. */
  datatype AnnouncementPatch = AnnouncementPatch(title: Option<string>, content: Option<string>, kind: Option<string>)

  /** A row of the settings table; `key` is unique and not null. */
  datatype Setting = Setting(id: int, key: string, value: string)

  datatype InsertSetting = InsertSetting(key: string, value: string)

  /** A row of the stream_schedules table. `isActive` is None when the insert
      omitted it (the column default true is a database default). */
  datatype StreamSchedule = StreamSchedule(id: int, title: string, streamType: string, date: string, time: string, isActive: Option<bool>)

  datatype InsertStreamSchedule = InsertStreamSchedule(title: string, streamType: string, date: string, time: string, isActive: Option<bool>)

  datatype SchedulePatch = SchedulePatch(title: Option<string>, streamType: Option<string>, date: Option<string>, time: Option<string>, isActive: Option<bool>)

  /** A schedule counts as active when `isActive` is truthy. */
  predicate Active(s: StreamSchedule) {
    s.isActive == Some(true)
  }

  /** `{ ...existing, ...patch }` for an announcement: the fields the patch
      defines replace the stored ones; id and timestamp are kept. */
  function OverlayAnnouncement(a: Announcement, p: AnnouncementPatch): (r: Announcement)
    ensures r.id == a.id && r.timestamp == a.timestamp
    ensures p == AnnouncementPatch(None, None, None) ==> r == a
    ensures p.title.Some? ==> r.title == p.title.value
    ensures p.content.Some? ==> r.content == p.content.value
    ensures p.kind.Some? ==> r.kind == p.kind
  {
    a.(title := Pick(p.title, a.title), content := Pick(p.content, a.content), kind := PickOptional(p.kind, a.kind))
  }

  /** `{ ...existing, ...patch }` for a schedule; the id is kept. */
  function OverlaySchedule(s: StreamSchedule, p: SchedulePatch): (r: StreamSchedule)
    ensures r.id == s.id
    ensures p == SchedulePatch(None, None, None, None, None) ==> r == s
    ensures p.isActive.Some? ==> r.isActive == p.isActive
    ensures p.isActive.None? ==> r.isActive == s.isActive
  {
    s.(title := Pick(p.title, s.title), streamType := Pick(p.streamType, s.streamType),
       date := Pick(p.date, s.date), time := Pick(p.time, s.time), isActive := PickOptional(p.isActive, s.isActive))
  }

  // ---------------------------------------------------------------------
  // The generated insert schemas, as predicates over a parsed JSON body.
  // A column that is NOT NULL without a default must be a string; a column
  // with a default may be absent; unknown keys are dropped. None stands
  // for a validation error.

  type Body = map<string, Json>

  function RequiredString(body: Body, field: string): Option<string> {
    if field in body && body[field].JString? then Some(body[field].s) else None
  }

  predicate OptionalStringOk(body: Body, field: string) {
    field !in body || body[field].JString?
  }

  function OptionalString(body: Body, field: string): Option<string> {
    if field in body && body[field].JString? then Some(body[field].s) else None
  }

  predicate OptionalBoolOk(body: Body, field: string) {
    field !in body || body[field].JBool?
  }

  function OptionalBool(body: Body, field: string): Option<bool> {
    if field in body && body[field].JBool? then Some(body[field].b) else None
  }

  /** `insertAnnouncementSchema.parse(body)`: no length limits, `type` optional. */
  function ParseInsertAnnouncement(body: Body): Option<InsertAnnouncement> {
    var title := RequiredString(body, "title");
    var content := RequiredString(body, "content");
    if title.Some? && content.Some? && OptionalStringOk(body, "type") then
      Some(InsertAnnouncement(title.value, content.value, OptionalString(body, "type")))
    else None
  }

  /** `insertStreamScheduleSchema.parse(body)`: `isActive` optional. */
  function ParseInsertStreamSchedule(body: Body): Option<InsertStreamSchedule> {
    var title := RequiredString(body, "title");
    var streamType := RequiredString(body, "streamType");
    var date := RequiredString(body, "date");
    var time := RequiredString(body, "time");
    if title.Some? && streamType.Some? && date.Some? && time.Some? && OptionalBoolOk(body, "isActive") then
      Some(InsertStreamSchedule(title.value, streamType.value, date.value, time.value, OptionalBool(body, "isActive")))
    else None
  }

  /** The JSON body a client sends for an announcement. */
  function AnnouncementBody(a: InsertAnnouncement): Body {
    var base := map["title" := JString(a.title), "content" := JString(a.content)];
    if a.kind.Some? then base["type" := JString(a.kind.value)] else base
  }

  /** The JSON body a client sends for a schedule. */
  function ScheduleBody(s: InsertStreamSchedule): Body {
    var base := map["title" := JString(s.title), "streamType" := JString(s.streamType),
                    "date" := JString(s.date), "time" := JString(s.time)];
    if s.isActive.Some? then base["isActive" := JBool(s.isActive.value)] else base
  }

  /** Every announcement the client can send passes the server's schema unchanged. */
  lemma ParseAnnouncementBody(a: InsertAnnouncement)
    ensures ParseInsertAnnouncement(AnnouncementBody(a)) == Some(a)
  {
  }

  lemma ParseScheduleBody(s: InsertStreamSchedule)
    ensures ParseInsertStreamSchedule(ScheduleBody(s)) == Some(s)
  {
  }

  /** A body without a string title or content is rejected; so is a `type`
      that is present but not a string. No length is checked. */
  lemma ParseAnnouncementRejects(body: Body)
    ensures ParseInsertAnnouncement(body).None? <==>
      (RequiredString(body, "title").None? || RequiredString(body, "content").None? || !OptionalStringOk(body, "type"))
  {
  }

  // ---------------------------------------------------------------------
  // SettingKey

  datatype SettingKey =
    | BannerText | ShowBanner | PrimaryColor | CurrentStream | AutoDetectStream | OfflineBehavior
    | DarkMode | AnimationsEnabled | ShowAnnouncements | ShowNextStream | ShowSocials | SeasonalTheme
    | AdminPassword

  /** The string each key is stored under. */
  function KeyName(k: SettingKey): string {
    match k
    case BannerText => "banner_text"
    case ShowBanner => "show_banner"
    case PrimaryColor => "primary_color"
    case CurrentStream => "current_stream"
    case AutoDetectStream => "auto_detect_stream"
    case OfflineBehavior => "offline_behavior"
    case DarkMode => "dark_mode"
    case AnimationsEnabled => "animations_enabled"
    case ShowAnnouncements => "show_announcements"
    case ShowNextStream => "show_next_stream"
    case ShowSocials => "show_socials"
    case SeasonalTheme => "seasonal_theme"
    case AdminPassword => "admin_password"
  }

  /** The key stored under a name, if any. */
  function KeyOfName(name: string): Option<SettingKey> {
    if name == "banner_text" then Some(BannerText)
    else if name == "show_banner" then Some(ShowBanner)
    else if name == "primary_color" then Some(PrimaryColor)
    else if name == "current_stream" then Some(CurrentStream)
    else if name == "auto_detect_stream" then Some(AutoDetectStream)
    else if name == "offline_behavior" then Some(OfflineBehavior)
    else if name == "dark_mode" then Some(DarkMode)
    else if name == "animations_enabled" then Some(AnimationsEnabled)
    else if name == "show_announcements" then Some(ShowAnnouncements)
    else if name == "show_next_stream" then Some(ShowNextStream)
    else if name == "show_socials" then Some(ShowSocials)
    else if name == "seasonal_theme" then Some(SeasonalTheme)
    else if name == "admin_password" then Some(AdminPassword)
    else None
  }

  const AllSettingKeys: seq<SettingKey> := [
    BannerText, ShowBanner, PrimaryColor, CurrentStream, AutoDetectStream, OfflineBehavior,
    DarkMode, AnimationsEnabled, ShowAnnouncements, ShowNextStream, ShowSocials, SeasonalTheme,
    AdminPassword]

  /** Names and keys correspond one to one, so the thirteen names are distinct. */
  lemma KeyNameRoundTrip(k: SettingKey)
    ensures KeyOfName(KeyName(k)) == Some(k)
  {
    match k
    case BannerText =>
    case ShowBanner =>
    case PrimaryColor =>
    case CurrentStream =>
    case AutoDetectStream =>
    case OfflineBehavior =>
    case DarkMode =>
    case AnimationsEnabled =>
    case ShowAnnouncements =>
    case ShowNextStream =>
    case ShowSocials =>
    case SeasonalTheme =>
    case AdminPassword =>
  }

  lemma KeyNamesDistinct(a: SettingKey, b: SettingKey)
    ensures KeyName(a) == KeyName(b) ==> a == b
  {
    KeyNameRoundTrip(a);
    KeyNameRoundTrip(b);
  }

  lemma AllSettingKeysListed(k: SettingKey)
    ensures k in AllSettingKeys
    ensures |AllSettingKeys| == 13
    ensures KeyName(AllSettingKeys[12]) == "admin_password"
  {
  }
}
