/** client/src/lib/storage.ts: the default settings, the settings cache in
    localStorage, the token slot, the snake_case string codec the settings
    API uses, and the fetch helpers with their fallbacks. */
module ClientStorage {
  import opened Js
  import opened Schema
  import opened ClientTypes
  import opened Browser
  import ThemeUtils

  const DefaultAppSettings := AppSettings(
    Some("Welcome to Rennsz's Stream Hub!"), false, Some("#FF6B00"), Some("rennsz"), true, Some("clips"),
    true, true, true, true, true, Some("default"))

  const SettingsCacheKey := "rennsz_stream_hub_settings"
  const AnnouncementsCacheKey := "rennsz_stream_hub_announcements"
  const ScheduleCacheKey := "rennsz_stream_hub_schedule"
  const AuthTokenKey := "rennsz_stream_hub_auth"

  lemma DefaultsWellTyped()
    ensures WellTyped(DefaultAppSettings)
  {
  }

  // ---------------------------------------------------------------------
  // Cache and token

  /** `getSettings()`: the defaults overlaid by the cached object. A missing
      or empty entry, or one that does not parse, gives the defaults. */
  function CachedSettings(storage: map<string, Stored>): (r: AppSettings)
    ensures Defined(r)
  {
    if SettingsCacheKey in storage && storage[SettingsCacheKey].SettingsJson? then
      ApplyKeepsDefined(DefaultAppSettings, storage[SettingsCacheKey].fields);
      Apply(DefaultAppSettings, storage[SettingsCacheKey].fields)
    else DefaultAppSettings
  }

  /** `getAuthToken()`. */
  function AuthToken(storage: map<string, Stored>): Option<string> {
    StoredText(storage, AuthTokenKey)
  }

  method SaveAuthToken(page: Page, token: string)
    modifies page`localStorage
    ensures page.localStorage == old(page.localStorage)[AuthTokenKey := Text(token)]
    ensures AuthToken(page.localStorage) == Some(token)
    ensures CachedSettings(page.localStorage) == CachedSettings(old(page.localStorage))
  {
    page.SetItem(AuthTokenKey, Text(token));
  }

  method ClearAuthToken(page: Page)
    modifies page`localStorage
    ensures page.localStorage == old(page.localStorage) - {AuthTokenKey}
    ensures AuthToken(page.localStorage) == None
    ensures CachedSettings(page.localStorage) == CachedSettings(old(page.localStorage))
  {
    page.RemoveItem(AuthTokenKey);
  }

  /** The storage keys are distinct, so each slot is written independently
      of the others; in particular nothing writes the announcements slot. */
  lemma CacheKeysDistinct()
    ensures SettingsCacheKey != AnnouncementsCacheKey && SettingsCacheKey != ScheduleCacheKey
    ensures SettingsCacheKey != AuthTokenKey && AnnouncementsCacheKey != ScheduleCacheKey
    ensures AnnouncementsCacheKey != AuthTokenKey && ScheduleCacheKey != AuthTokenKey
    ensures ThemeUtils.ThemeTokenKey != AuthTokenKey
  {
    assert SettingsCacheKey[19] != AnnouncementsCacheKey[19];
    assert SettingsCacheKey[19] != ScheduleCacheKey[19];
    assert SettingsCacheKey[19] != AuthTokenKey[19];
    assert AnnouncementsCacheKey[19] != ScheduleCacheKey[19];
    assert AnnouncementsCacheKey[19] != AuthTokenKey[19];
    assert ScheduleCacheKey[19] != AuthTokenKey[19];
  }

  // ---------------------------------------------------------------------
  // Theme derivation

  /** Radius (in hundredths) and variant for a seasonal theme. */
  function ThemeStyle(theme: string): (int, Variant) {
    if theme == "christmas" then (100, Tint)
    else if theme == "halloween" then (25, Vibrant)
    else if theme == "spring" then (85, Professional)
    else if theme == "summer" then (50, Vibrant)
    else (75, Vibrant)
  }

  /** The theme table: only christmas and spring change the variant, and
      every radius lies between a quarter and one. */
  lemma ThemeStyleTable(theme: string)
    ensures ThemeStyle("christmas") == (100, Tint) && ThemeStyle("halloween") == (25, Vibrant)
    ensures ThemeStyle("spring") == (85, Professional) && ThemeStyle("summer") == (50, Vibrant)
    ensures theme != "christmas" && theme != "spring" ==> ThemeStyle(theme).1 == Vibrant
    ensures 25 <= ThemeStyle(theme).0 <= 100
    ensures !SeasonalThemeValue(theme) ==> ThemeStyle(theme) == ThemeStyle("default")
  {
  }

  /** The gate of `updateThemeFile`: a truthy colour or theme, or dark mode on. */
  predicate ThemeRelevant(p: Patch) {
    TruthyText(p.primaryColor) || TruthyText(p.seasonalTheme) || p.darkMode == Some(true)
  }

  /** The seasonal theme in force: the patch's when truthy, else the cached one. */
  function SeasonOf(p: Patch, current: AppSettings): string
    requires Defined(current)
  {
    if TruthyText(p.seasonalTheme) then p.seasonalTheme.value else current.seasonalTheme.value
  }

  /** The theme request body: patch values override the cached settings. */
  function ThemeFor(p: Patch, current: AppSettings): ThemeData
    requires Defined(current)
  {
    var dark := if p.darkMode.Some? then p.darkMode.value else current.darkMode;
    var style := ThemeStyle(SeasonOf(p, current));
    ThemeData(if TruthyText(p.primaryColor) then p.primaryColor.value else current.primaryColor.value,
              if dark then Dark else Light, style.0, style.1)
  }

  /** Read over the cache after the save, the patch adds nothing: the theme
      request describes the settings in force, whatever the patch held. */
  lemma ThemeForSaved(c: AppSettings, p: Patch)
    requires Defined(c)
    ensures Defined(Apply(c, p))
    ensures ThemeFor(p, Apply(c, p)) == ThemeFor(NoChange, Apply(c, p))
  {
    ApplyKeepsDefined(c, p);
  }

  /** The body classes after `updateThemeFile(p)` over `storage`: nothing
      changes unless the patch is theme-relevant; then the theme in force
      is applied when it is truthy. */
  function ThemeClassesAfter(storage: map<string, Stored>, p: Patch, classes: set<string>): set<string> {
    var season := SeasonOf(p, CachedSettings(storage));
    if ThemeRelevant(p) && season != "" then ThemeUtils.AppliedTheme(classes, season) else classes
  }

  /** The theme requests `updateThemeFile(p)` sends over `storage`: one,
      when the patch is theme-relevant, a token is stored and applying the
      theme in force did not throw first. */
  function ThemeRequests(storage: map<string, Stored>, p: Patch): seq<Request> {
    if ThemeRelevant(p) && TruthyText(AuthToken(storage)) && ThemeUtils.ClassToken(SeasonOf(p, CachedSettings(storage))) then
      [ThemePost(AuthToken(storage).value, ThemeFor(p, CachedSettings(storage)))]
    else []
  }

  /** A patch turning dark mode off, and nothing else, passes no truthiness
      test, so it neither restyles the page nor sends a request; a truthy
      seasonal theme in the patch is the class applied. A theme with
      whitespace strips the five classes, adds none and, the exception
      being swallowed, sends no request; a seasonal theme name sends the
      request whenever a token is stored. */
  lemma ThemeGate(storage: map<string, Stored>, p: Patch, classes: set<string>)
    ensures p.darkMode == Some(false) && !TruthyText(p.primaryColor) && !TruthyText(p.seasonalTheme) ==>
      ThemeRequests(storage, p) == [] && ThemeClassesAfter(storage, p, classes) == classes
    ensures !TruthyText(AuthToken(storage)) ==> ThemeRequests(storage, p) == []
    ensures TruthyText(p.seasonalTheme) ==>
      ThemeClassesAfter(storage, p, classes) == ThemeUtils.AppliedTheme(classes, p.seasonalTheme.value)
    ensures TruthyText(p.seasonalTheme) && !ThemeUtils.ClassToken(p.seasonalTheme.value) ==>
      ThemeRequests(storage, p) == [] && ThemeClassesAfter(storage, p, classes) == classes - ThemeUtils.ThemeClasses
    ensures TruthyText(p.seasonalTheme) && SeasonalThemeValue(p.seasonalTheme.value) && TruthyText(AuthToken(storage)) ==>
      ThemeRequests(storage, p) == [ThemePost(AuthToken(storage).value, ThemeFor(p, CachedSettings(storage)))]
  {
    if TruthyText(p.seasonalTheme) {
      ThemeUtils.AppliedThemeClasses(classes, p.seasonalTheme.value);
      ThemeUtils.ClassTokenValues(p.seasonalTheme.value);
    }
  }

  /** Updating the theme twice from the same storage leaves the classes of
      one update. */
  lemma ThemeClassesTwice(storage: map<string, Stored>, p: Patch, classes: set<string>)
    ensures ThemeClassesAfter(storage, p, ThemeClassesAfter(storage, p, classes)) == ThemeClassesAfter(storage, p, classes)
  {
    var season := SeasonOf(p, CachedSettings(storage));
    if ThemeRelevant(p) && season != "" {
      ThemeUtils.AppliedThemeIdempotent(classes, season, season);
    }
  }

  /** `updateThemeFile` of the storage module. Nothing happens unless the
      patch is theme-relevant; then the theme in force is applied to the
      body when truthy, and the theme request is sent when a token is
      stored. Its outcome is ignored and errors are swallowed: an apply
      that throws ends the update before the request. */
  method UpdateThemeFile(page: Page, p: Patch)
    modifies page`sent, page`bodyClasses
    ensures page.bodyClasses == ThemeClassesAfter(page.localStorage, p, old(page.bodyClasses))
    ensures page.sent == old(page.sent) + ThemeRequests(page.localStorage, p)
  {
    if !ThemeRelevant(p) {
      return;
    }
    var current := CachedSettings(page.localStorage);
    var theme := ThemeFor(p, current);
    if TruthyText(p.seasonalTheme) {
      var thrown := ThemeUtils.ApplySeasonalTheme(page, p.seasonalTheme.value);
      if thrown {
        return;
      }
    } else if current.seasonalTheme.value != "" {
      var thrown := ThemeUtils.ApplySeasonalTheme(page, current.seasonalTheme.value);
      if thrown {
        return;
      }
    }
    var token := AuthToken(page.localStorage);
    if TruthyText(token) {
      page.Send(ThemePost(token.value, theme));
    }
  }

  /** The storage after `saveSettings(p)`: the cache slot holds the cached
      settings overlaid by the patch. */
  function SavedStorage(storage: map<string, Stored>, p: Patch): map<string, Stored> {
    storage[SettingsCacheKey := SettingsJson(Persisted(Apply(CachedSettings(storage), p)))]
  }

  /** Reading the cache back after a save gives the old cache overlaid by
      the patch; the token and the other slots are untouched. */
  lemma SavedStorageReads(storage: map<string, Stored>, p: Patch)
    ensures CachedSettings(SavedStorage(storage, p)) == Apply(CachedSettings(storage), p)
    ensures AuthToken(SavedStorage(storage, p)) == AuthToken(storage)
    ensures forall key :: key in storage && key != SettingsCacheKey ==> key in SavedStorage(storage, p) && SavedStorage(storage, p)[key] == storage[key]
  {
    ApplyKeepsDefined(CachedSettings(storage), p);
    ApplyPersisted(DefaultAppSettings, Apply(CachedSettings(storage), p));
    CacheKeysDistinct();
  }

  /** `saveSettings(p)`: the cache becomes the cached settings overlaid by
      the patch; then the theme is updated from the patch, reading the new
      cache. */
  method SaveSettings(page: Page, p: Patch)
    modifies page`localStorage, page`sent, page`bodyClasses
    ensures page.localStorage == SavedStorage(old(page.localStorage), p)
    ensures CachedSettings(page.localStorage) == Apply(CachedSettings(old(page.localStorage)), p)
    ensures page.bodyClasses == ThemeClassesAfter(page.localStorage, p, old(page.bodyClasses))
    ensures page.sent == old(page.sent) + ThemeRequests(page.localStorage, p)
  {
    var updated := Apply(CachedSettings(page.localStorage), p);
    SavedStorageReads(page.localStorage, p);
    page.SetItem(SettingsCacheKey, SettingsJson(Persisted(updated)));
    UpdateThemeFile(page, p);
  }

  /** What a sequence of saves leaves in the cache: each patch overlaid in turn. */
  function SavedAll(s: AppSettings, patches: seq<Patch>): AppSettings {
    if |patches| == 0 then s else Apply(SavedAll(s, patches[..|patches| - 1]), patches[|patches| - 1])
  }

  /** A property that no saved patch defines keeps its cached value. */
  lemma {:induction false} SavedAllUntouched(s: AppSettings, patches: seq<Patch>, f: Property)
    requires forall i :: 0 <= i < |patches| ==> PropertyName(f) !in DefinedKeys(patches[i])
    ensures FieldOf(SavedAll(s, patches), f) == FieldOf(s, f)
  {
    if |patches| > 0 {
      var last := |patches| - 1;
      SavedAllUntouched(s, patches[..last], f);
      ApplyUntouched(SavedAll(s, patches[..last]), patches[last], f);
    }
  }

  /** The spread of all the patches in order, `{ ...p1, ...p2, ... }`. */
  function MergeAll(patches: seq<Patch>): Patch {
    if |patches| == 0 then NoChange else Merge(MergeAll(patches[..|patches| - 1]), patches[|patches| - 1])
  }

  /** Saving patches one by one caches what saving their merge at once
      would: each property takes its value from the last patch that
      defines it. */
  lemma {:induction false} SavedAllMerge(s: AppSettings, patches: seq<Patch>)
    ensures SavedAll(s, patches) == Apply(s, MergeAll(patches))
  {
    if |patches| == 0 {
      assert Apply(s, NoChange) == s;
    } else {
      var last := |patches| - 1;
      SavedAllMerge(s, patches[..last]);
      ApplyMerge(s, MergeAll(patches[..last]), patches[last]);
    }
  }

  // ---------------------------------------------------------------------
  // The string codec of the settings API

  function Lookup(kv: map<string, string>, key: string): Option<string> {
    if key in kv then Some(kv[key]) else None
  }

  /** The typed settings `fetchSettings` builds from the API object: strings
      as they are (`undefined` for a missing key), booleans by `=== "true"`,
      the unions by an unchecked cast. Every property of this object is its
      own, so spreading it over the defaults keeps none of them. */
  function DecodeSettings(kv: map<string, string>): AppSettings {
    AppSettings(
      Lookup(kv, KeyName(BannerText)),
      Lookup(kv, KeyName(ShowBanner)) == Some("true"),
      Lookup(kv, KeyName(PrimaryColor)),
      Lookup(kv, KeyName(CurrentStream)),
      Lookup(kv, KeyName(AutoDetectStream)) == Some("true"),
      Lookup(kv, KeyName(OfflineBehavior)),
      Lookup(kv, KeyName(DarkMode)) == Some("true"),
      Lookup(kv, KeyName(AnimationsEnabled)) == Some("true"),
      Lookup(kv, KeyName(ShowAnnouncements)) == Some("true"),
      Lookup(kv, KeyName(ShowNextStream)) == Some("true"),
      Lookup(kv, KeyName(ShowSocials)) == Some("true"),
      Lookup(kv, KeyName(SeasonalTheme)))
  }

  function BoolText(v: Option<bool>): Option<string> {
    if v.Some? then Some(BoolToString(v.value)) else None
  }

  /** The string `saveSettingsToAPI` sends under a key, if the patch has
      the property: strings as they are, booleans through `String`. */
  function FieldText(p: Patch, k: SettingKey): Option<string> {
    match k
    case BannerText => p.bannerText
    case ShowBanner => BoolText(p.showBanner)
    case PrimaryColor => p.primaryColor
    case CurrentStream => p.currentStream
    case AutoDetectStream => BoolText(p.autoDetectStream)
    case OfflineBehavior => p.offlineBehavior
    case DarkMode => BoolText(p.darkMode)
    case AnimationsEnabled => BoolText(p.animationsEnabled)
    case ShowAnnouncements => BoolText(p.showAnnouncements)
    case ShowNextStream => BoolText(p.showNextStream)
    case ShowSocials => BoolText(p.showSocials)
    case SeasonalTheme => p.seasonalTheme
    case AdminPassword => None
  }

  /** The twelve keys the client sends, in the order it assigns them. */
  const ClientKeys: seq<SettingKey> := AllSettingKeys[..12]

  /** The named texts the client considers, in the order it assigns them. */
  function ApiFields(p: Patch): (r: seq<(string, Option<string>)>)
    ensures |r| == |ClientKeys|
    ensures forall i :: 0 <= i < |ClientKeys| ==> r[i] == (KeyName(ClientKeys[i]), FieldText(p, ClientKeys[i]))
  {
    seq(|ClientKeys|, i requires 0 <= i < |ClientKeys| => (KeyName(ClientKeys[i]), FieldText(p, ClientKeys[i])))
  }

  /** The pairs of the defined texts, in order: `if (... !== undefined)
      apiSettings[name] = text` for each field in turn. */
  function Compact(fields: seq<(string, Option<string>)>): seq<(string, string)> {
    if |fields| == 0 then []
    else
      var last := fields[|fields| - 1];
      Compact(fields[..|fields| - 1]) + (if last.1.Some? then [(last.0, last.1.value)] else [])
  }

  /** The body `saveSettingsToAPI` posts: one snake_case pair per property
      the patch has. */
  function EncodePatch(p: Patch): seq<(string, string)> {
    Compact(ApiFields(p))
  }

  /** The object the server builds from a list of pairs, the later pair winning. */
  function PairsToMap(pairs: seq<(string, string)>): map<string, string> {
    if |pairs| == 0 then map[] else PairsToMap(pairs[..|pairs| - 1])[pairs[|pairs| - 1].0 := pairs[|pairs| - 1].1]
  }

  lemma PairsToMapAppend(pairs: seq<(string, string)>, key: string, value: string)
    ensures PairsToMap(pairs + [(key, value)]) == PairsToMap(pairs)[key := value]
  {
    assert (pairs + [(key, value)])[..|pairs|] == pairs;
  }

  /** With distinct names, the object built from the compacted pairs holds
      each listed name with its text, and lacks the names without one. */
  lemma {:induction false} CompactLookup(fields: seq<(string, Option<string>)>, i: int)
    requires forall a, b :: 0 <= a < b < |fields| ==> fields[a].0 != fields[b].0
    requires 0 <= i < |fields|
    ensures Lookup(PairsToMap(Compact(fields)), fields[i].0) == fields[i].1
  {
    var n := |fields| - 1;
    var init, last := fields[..n], fields[n];
    if i < n {
      CompactLookup(init, i);
      assert init[i] == fields[i];
      assert fields[i].0 != last.0;
    } else {
      CompactAbsent(init, last.0);
    }
    if last.1.Some? {
      PairsToMapAppend(Compact(init), last.0, last.1.value);
    } else {
      assert Compact(fields) == Compact(init) + [];
      assert Compact(fields) == Compact(init);
    }
  }

  /** A name no field carries is not in the object. */
  lemma {:induction false} CompactAbsent(fields: seq<(string, Option<string>)>, name: string)
    requires forall a :: 0 <= a < |fields| ==> fields[a].0 != name
    ensures Lookup(PairsToMap(Compact(fields)), name) == None
  {
    if |fields| > 0 {
      var n := |fields| - 1;
      CompactAbsent(fields[..n], name);
      if fields[n].1.Some? {
        PairsToMapAppend(Compact(fields[..n]), fields[n].0, fields[n].1.value);
      } else {
        assert Compact(fields) == Compact(fields[..n]) + [];
        assert Compact(fields) == Compact(fields[..n]);
      }
    }
  }

  lemma ClientKeysDistinct()
    ensures forall i, j :: 0 <= i < j < |ClientKeys| ==> KeyName(ClientKeys[i]) != KeyName(ClientKeys[j])
    ensures forall k :: k in ClientKeys <==> k != AdminPassword
  {
    forall k
      ensures k in ClientKeys <==> k != AdminPassword
    {
      AllSettingKeysListed(k);
    }
    forall i, j | 0 <= i < j < |ClientKeys|
      ensures KeyName(ClientKeys[i]) != KeyName(ClientKeys[j])
    {
      KeyNamesDistinct(ClientKeys[i], ClientKeys[j]);
    }
  }

  /** The object the server rebuilds from the posted body holds, under each
      key but the admin password, the text of the patch's property. */
  lemma EncodePatchLookup(p: Patch, k: SettingKey)
    requires k != AdminPassword
    ensures Lookup(PairsToMap(EncodePatch(p)), KeyName(k)) == FieldText(p, k)
  {
    ClientKeysDistinct();
    assert k in ClientKeys;
    var i :| 0 <= i < |ClientKeys| && ClientKeys[i] == k;
    CompactLookup(ApiFields(p), i);
  }

  lemma EncodedStrings(s: AppSettings, kv: map<string, string>)
    requires kv == PairsToMap(EncodePatch(Persisted(s)))
    ensures Lookup(kv, KeyName(BannerText)) == s.bannerText
    ensures Lookup(kv, KeyName(PrimaryColor)) == s.primaryColor
    ensures Lookup(kv, KeyName(CurrentStream)) == s.currentStream
    ensures Lookup(kv, KeyName(OfflineBehavior)) == s.offlineBehavior
    ensures Lookup(kv, KeyName(SeasonalTheme)) == s.seasonalTheme
  {
    var p := Persisted(s);
    EncodePatchLookup(p, BannerText);
    EncodePatchLookup(p, PrimaryColor);
    EncodePatchLookup(p, CurrentStream);
    EncodePatchLookup(p, OfflineBehavior);
    EncodePatchLookup(p, SeasonalTheme);
  }

  lemma EncodedFlags(s: AppSettings, kv: map<string, string>)
    requires kv == PairsToMap(EncodePatch(Persisted(s)))
    ensures Lookup(kv, KeyName(ShowBanner)) == Some(BoolToString(s.showBanner))
    ensures Lookup(kv, KeyName(AutoDetectStream)) == Some(BoolToString(s.autoDetectStream))
    ensures Lookup(kv, KeyName(DarkMode)) == Some(BoolToString(s.darkMode))
    ensures Lookup(kv, KeyName(AnimationsEnabled)) == Some(BoolToString(s.animationsEnabled))
  {
    var p := Persisted(s);
    EncodePatchLookup(p, ShowBanner);
    EncodePatchLookup(p, AutoDetectStream);
    EncodePatchLookup(p, DarkMode);
    EncodePatchLookup(p, AnimationsEnabled);
  }

  /** The same for the flags that show or hide the page's sections. */
  lemma EncodedSectionFlags(s: AppSettings, kv: map<string, string>)
    requires kv == PairsToMap(EncodePatch(Persisted(s)))
    ensures Lookup(kv, KeyName(ShowAnnouncements)) == Some(BoolToString(s.showAnnouncements))
    ensures Lookup(kv, KeyName(ShowNextStream)) == Some(BoolToString(s.showNextStream))
    ensures Lookup(kv, KeyName(ShowSocials)) == Some(BoolToString(s.showSocials))
  {
    var p := Persisted(s);
    EncodePatchLookup(p, ShowAnnouncements);
    EncodePatchLookup(p, ShowNextStream);
    EncodePatchLookup(p, ShowSocials);
  }

  /** Encoding a whole settings object and decoding the result gives the
      object back: every string is sent as it is, every boolean as "true"
      or "false", and an undefined string is not sent and decodes as
      undefined again. */
  lemma DecodeEncode(s: AppSettings)
    ensures DecodeSettings(PairsToMap(EncodePatch(Persisted(s)))) == s
  {
    var p := Persisted(s);
    var kv := PairsToMap(EncodePatch(p));
    EncodedStrings(s, kv);
    EncodedFlags(s, kv);
    EncodedSectionFlags(s, kv);
  }

  /** The client never sends the admin password key. */
  lemma EncodeOmitsAdminPassword(p: Patch)
    ensures Lookup(PairsToMap(EncodePatch(p)), KeyName(AdminPassword)) == None
  {
    ClientKeysDistinct();
    forall a | 0 <= a < |ClientKeys|
      ensures ApiFields(p)[a].0 != KeyName(AdminPassword)
    {
      KeyNamesDistinct(ClientKeys[a], AdminPassword);
    }
    CompactAbsent(ApiFields(p), KeyName(AdminPassword));
  }

  /** The posted body names exactly the properties the patch has. */
  lemma EncodePatchKeys(p: Patch, k: SettingKey)
    requires k != AdminPassword
    ensures KeyName(k) in PairsToMap(EncodePatch(p)) <==> FieldText(p, k).Some?
  {
    EncodePatchLookup(p, k);
  }

  // ---------------------------------------------------------------------
  // Fetch and save helpers

  /** `fetchSettings()`. A response's object is decoded; its properties
      are all own, so spreading it over the defaults gives the decoded
      object itself, which is cached and returned. On failure the cached
      settings are returned and nothing is written. */
  method FetchSettings(page: Page, response: Outcome<map<string, string>>) returns (r: AppSettings)
    modifies page`localStorage
    ensures response.Ok? ==> r == DecodeSettings(response.value)
    ensures response.Ok? ==> page.localStorage == old(page.localStorage)[SettingsCacheKey := SettingsJson(Persisted(r))]
    ensures response.Failed? ==> r == CachedSettings(old(page.localStorage)) && page.localStorage == old(page.localStorage)
  {
    if response.Failed? {
      return CachedSettings(page.localStorage);
    }
    r := DecodeSettings(response.value);
    page.SetItem(SettingsCacheKey, SettingsJson(Persisted(r)));
  }

  /** After a successful fetch the cache reads back as what was returned
      exactly when every string setting was present; a missing one is
      returned as undefined but read back from the cache as its default. */
  lemma FetchedThenCached(storage: map<string, Stored>, kv: map<string, string>)
    ensures var r := DecodeSettings(kv);
      CachedSettings(storage[SettingsCacheKey := SettingsJson(Persisted(r))]) == r <==> Defined(r)
    ensures var r := DecodeSettings(kv);
      KeyName(BannerText) !in kv ==>
        CachedSettings(storage[SettingsCacheKey := SettingsJson(Persisted(r))]).bannerText == DefaultAppSettings.bannerText
  {
    var r := DecodeSettings(kv);
    if Defined(r) {
      ApplyPersisted(DefaultAppSettings, r);
    }
  }

  /** `saveSettingsToAPI(p)`. Without a truthy token it returns false and
      touches nothing. Otherwise the defined properties are posted as
      strings, and whether the post succeeds or fails the patch is saved to
      the cache and the theme updated, a second time when the patch
      defines a colour, theme or dark mode; true exactly on success. */
  method SaveSettingsToApi(page: Page, p: Patch, response: Outcome<()>) returns (ok: bool)
    modifies page`localStorage, page`sent, page`bodyClasses
    ensures !TruthyText(AuthToken(old(page.localStorage))) ==>
      !ok && page.localStorage == old(page.localStorage) && page.sent == old(page.sent) && page.bodyClasses == old(page.bodyClasses)
    ensures TruthyText(AuthToken(old(page.localStorage))) ==>
      && page.localStorage == SavedStorage(old(page.localStorage), p)
      && page.bodyClasses == ThemeClassesAfter(page.localStorage, p, old(page.bodyClasses))
      && page.sent == old(page.sent) + [SettingsPost(AuthToken(old(page.localStorage)).value, EncodePatch(p))]
                      + ThemeRequests(page.localStorage, p)
                      + (if p.primaryColor.Some? || p.seasonalTheme.Some? || p.darkMode.Some? then ThemeRequests(page.localStorage, p) else [])
    ensures TruthyText(AuthToken(old(page.localStorage))) ==> CachedSettings(page.localStorage) == Apply(CachedSettings(old(page.localStorage)), p)
    ensures ok <==> TruthyText(AuthToken(old(page.localStorage))) && response.Ok?
  {
    var token := AuthToken(page.localStorage);
    if !TruthyText(token) {
      return false;
    }
    page.Send(SettingsPost(token.value, EncodePatch(p)));
    ghost var classes := page.bodyClasses;
    SaveSettings(page, p);
    if p.primaryColor.Some? || p.seasonalTheme.Some? || p.darkMode.Some? {
      UpdateThemeFile(page, p);
      ThemeClassesTwice(page.localStorage, p, classes);
    }
    ok := response.Ok?;
  }

  /** `verifyAdminPassword(password)`: the password is posted; a failed
      response gives false; otherwise the server's verdict is returned and
      the password becomes the token only when it is valid. */
  method VerifyAdminPassword(page: Page, password: string, response: Outcome<bool>) returns (valid: bool)
    modifies page`localStorage, page`sent
    ensures page.sent == old(page.sent) + [VerifyPost(password)]
    ensures valid <==> response == Ok(true)
    ensures valid ==> page.localStorage == old(page.localStorage)[AuthTokenKey := Text(password)]
    ensures valid ==> AuthToken(page.localStorage) == Some(password)
    ensures !valid ==> page.localStorage == old(page.localStorage)
  {
    page.Send(VerifyPost(password));
    if response.Failed? {
      return false;
    }
    valid := response.value;
    if valid {
      SaveAuthToken(page, password);
    }
  }

  /** The announcements cached in localStorage, or none when the slot is
      missing or does not parse. */
  function CachedAnnouncements(storage: map<string, Stored>): seq<Announcement> {
    if AnnouncementsCacheKey in storage && storage[AnnouncementsCacheKey].AnnouncementsJson? then
      storage[AnnouncementsCacheKey].list
    else []
  }

  /** `fetchAnnouncements()`: the response's list, else the cached one. */
  method FetchAnnouncements(page: Page, response: Outcome<seq<Announcement>>) returns (r: seq<Announcement>)
    ensures response.Ok? ==> r == response.value
    ensures response.Failed? ==> r == CachedAnnouncements(page.localStorage)
    ensures response.Failed? && AnnouncementsCacheKey !in page.localStorage ==> r == []
  {
    if response.Ok? {
      return response.value;
    }
    r := CachedAnnouncements(page.localStorage);
  }

  /** `saveAnnouncement(a)`: null without a token; otherwise the post is
      sent and the stored record returned on success. Nothing is cached. */
  method SaveAnnouncement(page: Page, a: InsertAnnouncement, response: Outcome<Announcement>) returns (r: Option<Announcement>)
    modifies page`sent
    ensures !TruthyText(AuthToken(page.localStorage)) ==> r == None && page.sent == old(page.sent)
    ensures TruthyText(AuthToken(page.localStorage)) ==>
      page.sent == old(page.sent) + [AnnouncementPost(AuthToken(page.localStorage).value, a)]
      && (r.Some? <==> response.Ok?)
      && (r.Some? ==> r.value == response.value)
    ensures r.Some? ==> response.Ok?
  {
    var token := AuthToken(page.localStorage);
    if !TruthyText(token) {
      return None;
    }
    page.Send(AnnouncementPost(token.value, a));
    r := if response.Ok? then Some(response.value) else None;
  }

  /** `deleteAnnouncement(id)`: false without a token; otherwise the
      delete is sent and its success returned. */
  method DeleteAnnouncement(page: Page, id: int, response: Outcome<()>) returns (ok: bool)
    modifies page`sent
    ensures !TruthyText(AuthToken(page.localStorage)) ==> !ok && page.sent == old(page.sent)
    ensures TruthyText(AuthToken(page.localStorage)) ==> page.sent == old(page.sent) + [AnnouncementDelete(AuthToken(page.localStorage).value, id)]
    ensures ok <==> TruthyText(AuthToken(page.localStorage)) && response.Ok?
  {
    var token := AuthToken(page.localStorage);
    if !TruthyText(token) {
      return false;
    }
    page.Send(AnnouncementDelete(token.value, id));
    ok := response.Ok?;
  }

  /** The schedule cached in localStorage, if the slot holds one. */
  function CachedSchedule(storage: map<string, Stored>): Option<StreamSchedule> {
    if ScheduleCacheKey in storage && storage[ScheduleCacheKey].ScheduleJson? then
      Some(storage[ScheduleCacheKey].schedule)
    else None
  }

  /** `fetchSchedule()`: the active schedule from the response, else the cached one. */
  method FetchSchedule(page: Page, response: Outcome<StreamSchedule>) returns (r: Option<StreamSchedule>)
    ensures response.Ok? ==> r == Some(response.value)
    ensures response.Failed? ==> r == CachedSchedule(page.localStorage)
  {
    if response.Ok? {
      return Some(response.value);
    }
    r := CachedSchedule(page.localStorage);
  }

  /** `saveSchedule(s)`: null without a token; otherwise the post is sent,
      and on success the returned schedule is cached and returned. */
  method SaveSchedule(page: Page, s: InsertStreamSchedule, response: Outcome<StreamSchedule>) returns (r: Option<StreamSchedule>)
    modifies page`localStorage, page`sent
    ensures !TruthyText(AuthToken(old(page.localStorage))) ==> r == None && page.sent == old(page.sent) && page.localStorage == old(page.localStorage)
    ensures TruthyText(AuthToken(old(page.localStorage))) ==>
      page.sent == old(page.sent) + [SchedulePost(AuthToken(old(page.localStorage)).value, s)]
    ensures TruthyText(AuthToken(old(page.localStorage))) && response.Ok? ==>
      r == Some(response.value) && page.localStorage == old(page.localStorage)[ScheduleCacheKey := ScheduleJson(response.value)]
    ensures response.Failed? ==> r == None && page.localStorage == old(page.localStorage)
    ensures r.Some? ==> CachedSchedule(page.localStorage) == r
  {
    var token := AuthToken(page.localStorage);
    if !TruthyText(token) {
      return None;
    }
    page.Send(SchedulePost(token.value, s));
    if response.Failed? {
      return None;
    }
    page.SetItem(ScheduleCacheKey, ScheduleJson(response.value));
    r := Some(response.value);
  }

  /** The announcements slot is read but nothing above writes it, so its
      contents survive every write helper: settings, token and schedule
      writes each touch another slot. */
  lemma AnnouncementsSlotUntouched(storage: map<string, Stored>, p: Patch, token: string, sched: StreamSchedule)
    ensures CachedAnnouncements(SavedStorage(storage, p)) == CachedAnnouncements(storage)
    ensures CachedAnnouncements(storage[AuthTokenKey := Text(token)]) == CachedAnnouncements(storage)
    ensures CachedAnnouncements(storage - {AuthTokenKey}) == CachedAnnouncements(storage)
    ensures CachedAnnouncements(storage[ScheduleCacheKey := ScheduleJson(sched)]) == CachedAnnouncements(storage)
  {
    CacheKeysDistinct();
  }
}
