# Rennsz Stream Hub: a verified model

Rennsz Stream Hub is a fan site for one streamer's two Twitch channels.
It has an Express server and a React client.

The server keeps three tables in memory (`MemStorage`):
- announcements;
- key/value settings, including the admin password;
- stream schedules.

It exposes them over a small JSON API. Writes are gated by a bearer token that must equal the stored admin password.

The client caches settings, announcements and the schedule in `localStorage`. It also:
- encodes its typed `AppSettings` as snake_case string pairs for the API and decodes them back;
- derives a theme document from the settings and puts a seasonal theme class on `document.body`;
- picks which channel the player shows;
- runs an admin panel whose tabs emit one-field settings patches and validate their forms.

The Dafny modules follow the program's files:

| module | source file |
|---|---|
| `Js` | JavaScript semantics the code relies on: truthiness, `String(bool)`/`=== "true"`, `split`, `parseInt` |
| `JsMap` | a JavaScript `Map<number, V>` as its entries in insertion order |
| `Schema` | `shared/schema.ts`: records, insert shapes and their zod parse, `SettingKey` |
| `ServerStorage` | `server/storage.ts`: class `MemStorage` |
| `Routes` | `server/routes.ts`: each handler as a method on the store that returns the status code |
| `ClientTypes` | `client/src/lib/types.ts`: `AppSettings`, patches (`Partial<AppSettings>`), `STREAM_CHANNELS` |
| `Browser` | the page: `localStorage`, the body's class set, and the log of requests sent |
| `ThemeUtils` | `client/src/lib/themeUtils.ts` |
| `ClientStorage` | `client/src/lib/storage.ts` |
| `SettingsSync` | the settings round trip client → POST /api/settings → GET /api/settings → client |
| `StreamSection`, `AnnouncementsSection` | the two home-page components |
| `AnnouncementTab`, `SecurityTab`, `StreamTab`, `AdminTabs`, `AppearanceTab` | the admin tabs |
| `AdminPage` | `client/src/pages/admin.tsx` |

State is modelled where the source keeps it:
- `MemStorage`, the page, and each component's `useState` hooks are classes whose methods change exactly the fields they name.
- Pure helpers and decision rules are functions with lemmas.

The network is an `Outcome<T>` (`Ok(value)` or `Failed`) that the caller supplies. The clock is a parameter in milliseconds. The Twitch live probe is an oracle `string -> bool`.

## Model

| member | source | states |
|---|---|---|
| Js.BoolStringRoundTrip | client/src/lib/storage.ts:238-246 | `String(b) === "true"` gives back `b` for both booleans |
| Js.Split | server/routes.ts:15 | `split(' ')` yields at least one part, exactly one iff there is no separator, and no part contains the separator |
| Js.SplitAtFirst | server/routes.ts:15 | the first part of `split(' ')` is the text before the first space |
| Js.TrimStart | server/routes.ts:49 | `parseInt` skips leading white space (ASCII white space, every Unicode space separator, the line and paragraph separators, the byte-order mark): the rest starts with a non-space |
| Js.DigitRun | server/routes.ts:49 | `parseInt` reads the longest run of digits: all digits before it, a non-digit right after |
| Js.ParseIntOfIntToString | server/routes.ts:49 | `parseInt` of any integer's decimal text gives that integer back |
| Js.ParseIntIgnoresSuffix | server/routes.ts:49 | `parseInt` stops at the first non-digit: any integer's decimal text followed by a non-digit suffix (not `x`/`X` after a lone "0") reads back as that integer, not NaN |
| Js.ParseIntHexAfterZero | server/routes.ts:49 | the excluded case: after "0" an `x` starts a hexadecimal number, so "0x1f" is 31 |
| Js.ParseIntOfLabel | client/src/components/AnnouncementsSection.tsx:95-96 | an integer followed by a space-led suffix parses back to the integer |
| JsMap.Get | server/storage.ts:104-106 | `Map.get` finds a value exactly when the key is present, and it is the value stored under that key |
| JsMap.Set | server/storage.ts:108-117 | `Map.set` of an absent key appends the entry at the end of the insertion order |
| JsMap.IndexOf | server/storage.ts:119-134 | the position of a key's entry: no earlier entry has the key, and it is past the end when the key is absent |
| JsMap.IndexOfAt | server/storage.ts:119-134 | with ids increasing, the entry at a position is the one found for its id |
| JsMap.SetAt | server/storage.ts:119-130 | `Map.set` of a present key replaces that entry in place and keeps its position |
| JsMap.DeleteAt | server/storage.ts:132-134 | `Map.delete` of a present key removes exactly that entry and keeps the order of the rest |
| JsMap.DeleteFound | server/storage.ts:132-134 | `Map.delete` removes the entry at the key's position |
| JsMap.DeleteAbsent | server/storage.ts:132-134 | `Map.delete` of an absent key changes nothing |
| Schema.OverlayAnnouncement | server/storage.ts:119-130 | the update spread keeps the id and timestamp, takes every field the patch gives, and an empty patch changes nothing |
| Schema.OverlaySchedule | server/storage.ts:186-197 | the update spread keeps the id, takes the patch's `isActive` when given and keeps the old one otherwise |
| Schema.ParseAnnouncementBody | shared/schema.ts:14-17 | the insert schema accepts the body of every insert record and gives the record back |
| Schema.ParseScheduleBody | shared/schema.ts:40-42 | the insert schema accepts every schedule insert body and gives it back |
| Schema.ParseAnnouncementRejects | shared/schema.ts:14-17 | the insert schema rejects a body exactly when title or content is not a string or a given type is not a string |
| Schema.KeyNameRoundTrip | shared/schema.ts:55-69 | every `SettingKey` is found again from its string |
| Schema.KeyNamesDistinct | shared/schema.ts:55-69 | the thirteen key strings are distinct |
| Schema.AllSettingKeysListed | shared/schema.ts:55-69 | there are thirteen keys, every key is listed, and the last is `admin_password` |
| ServerStorage.SettingTableKeys | server/storage.ts:145-164 | in a valid settings table no two records share a key |
| ServerStorage.SettingsObjectKeys | server/storage.ts:137-139 | the key→value view of the settings (what `getSetting` finds) has a key exactly when some record has it |
| ServerStorage.SettingsObjectAt | server/storage.ts:137-139 | with unique keys, the view holds each record's value under its key |
| ServerStorage.SettingsObjectReplace | server/storage.ts:150-155 | replacing one record's value changes the object at that key only |
| ServerStorage.ReplaceSettingKeeps | server/storage.ts:150-155 | updating an existing record's value keeps the settings table valid |
| ServerStorage.ReplaceSettingObject | server/storage.ts:150-155 | ... and sets that key in the key→value object |
| ServerStorage.AppendSettingKeeps | server/storage.ts:157-163 | appending a new key under the next id keeps the table valid and moves the counter on |
| ServerStorage.AppendSettingObject | server/storage.ts:157-163 | ... and sets that key in the key→value object |
| ServerStorage.KeyIndex | server/storage.ts:146 | `find` by key: the first record with the key, and none before it has the key |
| ServerStorage.SaveIntoIsMapSet | server/storage.ts:145-164 | the upsert is `Map.set` under the saved record's id |
| ServerStorage.SaveIntoSpec | server/storage.ts:145-164 | an existing key keeps its id and only its value changes; a new key gets id `settingId`; the table stays valid and the object gets the key set to the value |
| ServerStorage.ActiveIndex | server/storage.ts:167-170 | `find(s => s.isActive)`: the first active schedule, none active before it |
| ServerStorage.InsertByTimePermutes | server/storage.ts:99-102 | inserting into the sorted list adds exactly that announcement |
| ServerStorage.InsertByTimeBelow | server/storage.ts:99-102 | inserting keeps every timestamp under a bound that the inserted one and all the others respect |
| ServerStorage.InsertByTimeOrdered | server/storage.ts:99-102 | inserting into a newest-first list keeps it newest first |
| ServerStorage.NewestFirstSorts | server/storage.ts:99-102 | the sort by timestamp descending is a permutation and is newest first |
| ServerStorage.InsertByTimeStable | server/storage.ts:99-102 | inserting puts the announcement ahead of those with its timestamp and keeps every timestamp's announcements in order |
| ServerStorage.NewestFirstStable | server/storage.ts:99-102 | the sort is stable: for every timestamp, the announcements stamped with it keep their input order |
| ServerStorage.DefaultSettingKeys | server/storage.ts:55-69 | the defaults are the thirteen `SettingKey` names in enum order |
| ServerStorage.DefaultKeysDistinct | server/storage.ts:55-69 | no two defaults share a key |
| ServerStorage.DefaultEntries | server/storage.ts:71-73 | after saving the first n defaults, the records are ids 1..n with those keys and values |
| ServerStorage.DefaultTable | server/storage.ts:71-73 | the first n defaults form a valid table whose next id is n + 1 |
| ServerStorage.DefaultKeyFresh | server/storage.ts:71-73 | the next default's key is not among those already saved, so it is appended |
| ServerStorage.SaveDefaultStep | server/storage.ts:71-73 | saving the next default appends it under the next id |
| ServerStorage.MemStorage.constructor | server/storage.ts:41-52 | a new store holds the 13 defaults (ids 1-13), announcements 1 and 2 stamped with the first and second clock readings, and one active schedule; counters at 14, 3 and 2 |
| ServerStorage.InitialListing | server/storage.ts:76-102 | the first listing after start-up puts announcement 2 first exactly when its clock reading is later than announcement 1's, and keeps [1, 2] otherwise |
| ServerStorage.MemStorage.InitializeDefaultSettings | server/storage.ts:54-96 | from empty tables and counters at 1 it produces the initial state above and keeps the store valid |
| ServerStorage.MemStorage.SaveDefaults | server/storage.ts:71-73 | the `forEach` saves the thirteen defaults as ids 1-13 |
| ServerStorage.MemStorage.GetAnnouncements | server/storage.ts:99-102 | the sorted values of the map: every stored announcement exactly once, newest first, and announcements with equal timestamps in insertion order |
| ServerStorage.MemStorage.GetAnnouncement | server/storage.ts:104-106 | found iff the id is stored, and then it is the record under that id |
| ServerStorage.MemStorage.CreateAnnouncement | server/storage.ts:108-117 | the id is the old counter and was never used; the record is stamped with the given time and appended; the counter increments; nothing else changes |
| ServerStorage.PatchAnnouncementKeeps | server/storage.ts:119-130 | overlaying the record under a stored id is a `set` that keeps the table valid, keeps its length and changes no other entry |
| ServerStorage.RemoveAnnouncementKeeps | server/storage.ts:132-134 | removing one entry keeps the announcement table valid |
| ServerStorage.MemStorage.UpdateAnnouncement | server/storage.ts:119-130 | an absent id gives None and changes nothing; otherwise the stored record overlaid by the patch is returned and replaces it in place, and the others are untouched |
| ServerStorage.MemStorage.DeleteAnnouncement | server/storage.ts:132-134 | true iff the id was present; only that entry is removed, the rest keep their order |
| ServerStorage.MemStorage.FindSetting | server/storage.ts:137-139 | the index of the first record with the key, and it is past the end iff the key is absent from the key→value object |
| ServerStorage.MemStorage.GetSetting | server/storage.ts:137-139 | found iff the key is stored, with the value the object holds for that key |
| ServerStorage.MemStorage.GetAllSettings | server/storage.ts:141-143 | every setting in insertion order |
| ServerStorage.MemStorage.SaveSetting | server/storage.ts:145-164 | the upsert on the store; the counter moves on only for a new key; the key→value object gets exactly that key set |
| ServerStorage.MemStorage.GetActiveStreamSchedule | server/storage.ts:167-170 | None iff no schedule is active; otherwise the first active one |
| ServerStorage.MemStorage.GetAllStreamSchedules | server/storage.ts:172-174 | every schedule in insertion order |
| ServerStorage.MemStorage.CreateStreamSchedule | server/storage.ts:176-184 | a fresh id, appended as given; the counter increments; other schedules, flags included, are untouched |
| ServerStorage.PatchScheduleKeeps | server/storage.ts:186-197 | the same for schedules |
| ServerStorage.RemoveScheduleKeeps | server/storage.ts:199-201 | removing one entry keeps the schedule table valid |
| ServerStorage.MemStorage.UpdateStreamSchedule | server/storage.ts:186-197 | an absent id gives None and changes nothing; otherwise the stored schedule overlaid by the patch is returned and replaces it in place, and the others are untouched |
| ServerStorage.MemStorage.DeleteStreamSchedule | server/storage.ts:199-201 | true iff present; only that entry is removed |
| Routes.BearerToken | server/routes.ts:11 | a token is taken exactly when the header starts with "Bearer " |
| Routes.AuthenticateBearer | server/routes.ts:8-23 | "Bearer p", with no space in p, passes iff the stored admin password is p |
| Routes.AuthenticateStopsAtSpace | server/routes.ts:15 | only the second space-separated part is compared, so text after a further space is ignored |
| Routes.AuthenticateNeedsBearer | server/routes.ts:11-13 | a missing header or one without the "Bearer " prefix never passes |
| Routes.Authorize | server/routes.ts:8-23 | the middleware passes iff the header authenticates against the stored `admin_password` |
| Routes.GetAnnouncementsRoute | server/routes.ts:28-31 | 200 with every announcement, newest first, ties in insertion order |
| Routes.PostAnnouncementRoute | server/routes.ts:34-45 | 401 without auth and 400 for a body the schema rejects, both storing nothing; otherwise 201 and the record is created |
| Routes.DeleteAnnouncementRoute | server/routes.ts:48-60 | 401 without auth, 400 for a non-numeric id and 404 for an absent one, all with the store unchanged; otherwise 204 and only that entry is removed |
| Routes.GetSettingsRoute | server/routes.ts:63-71 | 200 with one key→value entry per stored setting, each with that record's value, except a setting named `__proto__`: `acc["__proto__"] = value` on a plain object hits the inherited setter, which ignores a string, so that key never appears |
| Routes.ReduceSettings | server/routes.ts:65-68 | the reduce into `{}` gives the key→value view of the records without `__proto__` |
| Routes.AssignOwnStep | server/routes.ts:66-67 | one reduce step adds the next record's key and value, unless the key is `__proto__` |
| Routes.GetSettingRoute | server/routes.ts:74-81 | 404 iff the key is absent; otherwise 200 with its value |
| Routes.StringEntries | server/routes.ts:89-90 | the loop's entries are body entries whose value is a string |
| Routes.StringEntriesFrom | server/routes.ts:89-90 | every saved entry comes from a string-valued body entry |
| Routes.StringEntriesKeep | server/routes.ts:89-90 | every string-valued body entry is saved |
| Routes.StringEntriesStep | server/routes.ts:89-99 | one more body entry adds a save exactly when its value is a string |
| Routes.SaveAllLastWins | server/routes.ts:89-99 | after the loop, each key holds the value of its last string entry |
| Routes.SaveAllStep | server/routes.ts:97 | one more save sets that key |
| Routes.SaveAllUntouched | server/routes.ts:89-99 | keys that are not in the body keep their values |
| Routes.SaveString | server/routes.ts:92-97 | one loop step: the table and the counter change exactly as the upsert says (same id for a stored key, the counter for a new one), and the key→value view gets that key set to the value |
| Routes.SaveEntriesStep | server/routes.ts:89-99 | one more entry is one more upsert on the table, counter and returned list |
| Routes.SaveIntoKeeps | server/storage.ts:145-164 | one upsert keeps the table valid and every earlier record's place, id and key |
| Routes.SaveEntriesTable | server/routes.ts:89-99 | after the loop the table is valid, every record that was there keeps its place, id and key, and the counter only moves forward, by at most one per entry |
| Routes.SaveEntriesView | server/routes.ts:89-99 | after the loop the key→value view is the last-write-wins fold of the entries |
| Routes.SaveEntriesPairs | server/routes.ts:89-101 | the returned records carry the entries' keys and values, in order |
| Routes.StringEntriesPrefix | server/routes.ts:89-90 | the entries saved by the first n loop iterations are the string entries among the first n body entries |
| Routes.SaveStringEntries | server/routes.ts:89-99 | the loop over the body: the new table, counter and returned records are exactly those of upserting the string entries one by one, and the store stays valid |
| Routes.Pairs | server/routes.ts:101 | the response lists the saved records' keys and values, in order |
| Routes.PostSettingsRoute | server/routes.ts:84-101 | 401 without auth and nothing changes; otherwise the string entries are upserted in `Object.entries` order (integer-like keys first, ascending, one entry per key), the non-strings skipped; the new table, counter and returned records (ids included) are exactly those of upserting the string entries one by one |
| Routes.GetScheduleRoute | server/routes.ts:111-118 | 404 iff no schedule is active; otherwise 200 with the first active one |
| Routes.Deactivated | server/routes.ts:126-129 | only the first active schedule changes, and it becomes inactive |
| Routes.DeactivatedNoneActive | server/routes.ts:126-129 | with at most one active before, none is active after deactivation |
| Routes.UpdateIsDeactivated | server/routes.ts:128 | `updateStreamSchedule(active.id, {isActive: false})` is exactly the deactivation |
| Routes.AppendOnlyActive | server/routes.ts:132-135 | appending an active schedule to a table with none active leaves it the only active one |
| Routes.SwitchActive | server/routes.ts:125-135 | deactivate then create: the old active one is switched off, the new one appended with a fresh id |
| Routes.PostScheduleRoute | server/routes.ts:121-137 | 401 or 400 store nothing; 201 creates the schedule with `isActive` forced true, and if at most one was active before, exactly the new one is active after |
| Routes.VerifyRoute | server/routes.ts:147-160 | 400 for a missing or falsy password, 500 when `admin_password` is unset; otherwise `valid` is string equality with it |
| ClientTypes.ApplyKeepsDefined | client/src/lib/storage.ts:103 | the spread of a patch over defined settings keeps every field defined, and an empty patch changes nothing |
| ClientTypes.ApplyMerge | client/src/pages/admin.tsx:54 | spreading two patches in turn is spreading their merge |
| ClientTypes.ApplyIdempotent | client/src/pages/admin.tsx:54 | spreading the same patch twice is spreading it once |
| ClientTypes.ApplyPersisted | client/src/lib/storage.ts:29 | `JSON.stringify` then a spread over the defaults gives back the settings that were stored |
| ClientTypes.AnnouncementTypesDistinct | client/src/lib/types.ts:3 | the three announcement types have distinct names and there are no others |
| ClientTypes.FindChannel | client/src/components/StreamSection.tsx:99 | `STREAM_CHANNELS.find` gives a channel with that id, and None iff no channel has it |
| ClientTypes.StreamChannelsShape | client/src/lib/types.ts:55-58 | two channels, rennsz (IRL) then rennszino (Gaming), each with id = username |
| ThemeUtils.AppliedThemeClasses | client/src/lib/themeUtils.ts:6-15 | after the update no theme class other than `theme-t` is present; `theme-t` is present when `add` accepts it, and a theme with whitespace leaves the old set minus the five classes |
| ThemeUtils.ClassTokenValues | client/src/lib/themeUtils.ts:15 | the five seasonal theme names are accepted by `classList.add`, and a name with a space is refused |
| ThemeUtils.AppliedThemeKeepsOthers | client/src/lib/themeUtils.ts:6-15 | classes outside the five theme classes are unchanged |
| ThemeUtils.ThemeClassOfValue | client/src/lib/themeUtils.ts:15 | the class of each of the five seasonal themes is one of the five theme classes |
| ThemeUtils.AppliedThemeIdempotent | client/src/lib/themeUtils.ts:6-15 | applying a theme twice is applying it once, and a later theme replaces an earlier one |
| ThemeUtils.ApplySeasonalTheme | client/src/lib/themeUtils.ts:4-16 | the body's class set becomes the old set with the theme classes replaced by `theme-t`; for a theme with ASCII whitespace the removal stands, nothing is added and the call throws |
| ThemeUtils.FixedThemeData | client/src/lib/themeUtils.ts:25-30 | primary is the patch's colour when truthy, else "#FF6B00"; dark iff darkMode is true; radius 0.5 and variant vibrant always |
| ThemeUtils.UpdateThemeFile | client/src/lib/themeUtils.ts:19-56 | without a truthy `auth_token`: false and nothing sent; with one: one POST; the seasonal class is applied only after success and only for a truthy theme; true iff the POST succeeded and applying the theme did not throw |
| ClientStorage.DefaultsWellTyped | client/src/lib/storage.ts:4-17 | the defaults are defined and lie within the `offlineBehavior` and `seasonalTheme` unions |
| ClientStorage.CachedSettings | client/src/lib/storage.ts:26-34 | `getSettings()` always yields fully defined settings |
| ClientStorage.SaveAuthToken | client/src/lib/storage.ts:117-119 | the token slot holds the token; the cached settings are unchanged |
| ClientStorage.ClearAuthToken | client/src/lib/storage.ts:121-123 | the token slot is removed and reads back as none; the cached settings are unchanged |
| ClientStorage.CacheKeysDistinct | client/src/lib/storage.ts:20-23 | the four storage keys are distinct, and `auth_token` (read by themeUtils) is not the storage module's token key |
| ClientStorage.ThemeStyleTable | client/src/lib/storage.ts:52-68 | christmas (1.0, tint), halloween (0.25, vibrant), spring (0.85, professional), summer (0.5, vibrant), anything else (0.75, vibrant) |
| ClientStorage.ThemeForSaved | client/src/lib/storage.ts:44-68 | read over the cache after the save, the theme request is the theme of the settings in force, the patch adding nothing |
| ClientStorage.ThemeGate | client/src/lib/storage.ts:43-93 | a patch of only `darkMode: false` fails the truthiness gate: no request and no class change; no request is sent without a token; a truthy patch theme is the one applied; a theme with whitespace strips the five classes and sends nothing; a seasonal theme name with a token sends the request |
| ClientStorage.ThemeClassesTwice | client/src/lib/storage.ts:71-75 | updating the theme twice from the same storage gives the classes of one update |
| ClientStorage.UpdateThemeFile | client/src/lib/storage.ts:40-98 | the class set and the requests sent are those of the theme gate, the theme in force and the token; an apply that throws ends the update before the request |
| ClientStorage.SavedStorageReads | client/src/lib/storage.ts:100-111 | after a save the cache reads back as the old cache overlaid by the patch; the token and every other slot are untouched |
| ClientStorage.SaveSettings | client/src/lib/storage.ts:100-111 | the cache becomes the old cache overlaid by the patch; then the theme is updated from the patch, reading the new cache: the class set and the requests are those of `updateThemeFile`, a theme with whitespace sending no theme request |
| ClientTypes.ApplyUntouched | client/src/lib/storage.ts:100-111 | a property the patch does not define keeps its value under the spread |
| ClientStorage.SavedAllUntouched | client/src/lib/storage.ts:100-111 | any property no saved patch defines keeps its cached value |
| ClientStorage.SavedAllMerge | client/src/lib/storage.ts:100-111 | saving patches one by one caches the same settings as saving the spread of all of them at once |
| ClientStorage.ApiFields | client/src/lib/storage.ts:264-277 | one field per client key, in source order, with the patch's text for it |
| ClientStorage.PairsToMapAppend | client/src/lib/storage.ts:264-277 | adding a property to the API object sets that key |
| ClientStorage.CompactLookup | client/src/lib/storage.ts:264-277 | only defined fields are kept, each under its key |
| ClientStorage.CompactAbsent | client/src/lib/storage.ts:264-277 | a key not among the fields is absent from the API object |
| ClientStorage.ClientKeysDistinct | client/src/lib/storage.ts:264-277 | the client sends twelve distinct keys, every `SettingKey` except `admin_password` |
| ClientStorage.EncodePatchLookup | client/src/lib/storage.ts:264-277 | the API object holds a key's text exactly when the patch defines that field |
| ClientStorage.EncodePatchKeys | client/src/lib/storage.ts:264-277 | a key is present iff the patch defines the field |
| ClientStorage.EncodeOmitsAdminPassword | client/src/lib/storage.ts:264-277 | the encoded object never has `admin_password` |
| ClientStorage.EncodedStrings | client/src/lib/storage.ts:264-277 | the encoding of full settings holds each string field under its snake_case key |
| ClientStorage.EncodedFlags | client/src/lib/storage.ts:264-277 | ... and each of the banner, stream-detection, theme and animation booleans as `String(b)` |
| ClientStorage.EncodedSectionFlags | client/src/lib/storage.ts:264-277 | ... and each of the three section-visibility booleans as `String(b)` |
| ClientStorage.DecodeEncode | client/src/lib/storage.ts:234-247 | decoding the encoding of full settings gives the same settings |
| ClientStorage.FetchSettings | client/src/lib/storage.ts:226-256 | on success the decoded object is returned and cached; on failure the cached settings are returned and nothing changes |
| ClientStorage.FetchedThenCached | client/src/lib/storage.ts:249-251 | the cache reads back the fetched settings iff every field was present; a missing `banner_text` reads back as the default |
| ClientStorage.SaveSettingsToApi | client/src/lib/storage.ts:258-316 | no token: false and nothing changes; with a token the encoded patch is posted and the cache is overlaid whether or not the post succeeds, then the theme is updated as `saveSettings` does, the theme requests following the settings POST; true iff it succeeded |
| ClientStorage.VerifyAdminPassword | client/src/lib/storage.ts:318-340 | valid iff the server answers `valid: true`, and only then is the password stored as the token |
| ClientStorage.FetchAnnouncements | client/src/lib/storage.ts:126-141 | the fetched list, else the cached one, else [] |
| ClientStorage.SaveAnnouncement | client/src/lib/storage.ts:143-164 | no token: None and nothing sent; otherwise one authenticated POST, and the created record iff it succeeded |
| ClientStorage.DeleteAnnouncement | client/src/lib/storage.ts:166-183 | no token: false and nothing sent; otherwise one DELETE; true iff it succeeded |
| ClientStorage.FetchSchedule | client/src/lib/storage.ts:185-200 | the fetched schedule, else the cached one, else null |
| ClientStorage.SaveSchedule | client/src/lib/storage.ts:202-224 | no token: None and nothing changes; on success the returned schedule is cached and reads back |
| ClientStorage.AnnouncementsSlotUntouched | client/src/lib/storage.ts:134 | no client write touches the announcements cache: it is read but never written |
| SettingsSync.JsonBody | client/src/lib/storage.ts:284 | the posted body has every pair as a JSON string |
| SettingsSync.StringEntriesOfJsonBody | server/routes.ts:89-90 | the server's loop keeps every entry the client posts, in order |
| SettingsSync.SaveAllLookup | server/routes.ts:89-99 | after the loop each key holds the posted value when posted, the old one otherwise |
| SettingsSync.PostedLookup | server/routes.ts:89-99 | after the post the server holds the patch's text for each field the patch defines, the old value otherwise |
| SettingsSync.PostedStrings | client/src/lib/storage.ts:234-247 | the string fields read back after a post are the patch's where defined |
| SettingsSync.PostedFlag | client/src/lib/storage.ts:234-247 | one boolean read back after a post is the patch's when defined |
| SettingsSync.PostedFlags | client/src/lib/storage.ts:234-247 | the banner, stream-detection, theme and animation booleans read back likewise |
| SettingsSync.PostedSectionFlags | client/src/lib/storage.ts:234-247 | ... and so do the three section-visibility booleans |
| SettingsSync.LookupWithout | server/routes.ts:65-68 | removing one key from the object changes no lookup of another key |
| SettingsSync.DecodeServedObject | server/routes.ts:65-68 | the `__proto__` key that GET /api/settings leaves out is not a setting key, so decoding is unaffected |
| SettingsSync.FetchAfterPost | client/src/lib/storage.ts:226-316 | a fetch after a post decodes the earlier settings overlaid by the patch, also over the object GET /api/settings actually serves |
| SettingsSync.PostKeepsPassword | server/routes.ts:84-101 | a settings post from the client never changes `admin_password` |
| StreamSection.StreamView.constructor | client/src/components/StreamSection.tsx:32-35 | the dialog is closed, the page is taken to be live, and both channel states are the current stream |
| StreamSection.StreamView.CheckChannelStatus | client/src/components/StreamSection.tsx:37-62 | an admin with auto-detect off stays live on the forced channel with no probe; otherwise rennsz is preferred, then rennszino, else offline on the current stream |
| StreamSection.StreamView.SyncCurrentStream | client/src/components/StreamSection.tsx:73-78 | the selection follows the current stream, and the player does too when auto-detect is off |
| StreamSection.StreamView.OpenDialog | client/src/components/StreamSection.tsx:80-82 | the dialog opens |
| StreamSection.StreamView.SelectChannel | client/src/components/StreamSection.tsx:172 | only the selection changes |
| StreamSection.StreamView.ConfirmSwitch | client/src/components/StreamSection.tsx:88-97 | the player shows the selection and the dialog closes; a visitor's page is untouched; an admin with a token posts the `currentStream` patch and caches the old settings with only `currentStream` changed, sending no theme request; without a token nothing is sent or stored |
| StreamSection.ShowPlayer | client/src/components/StreamSection.tsx:120 | the iframe is hidden iff the page is offline and the offline behaviour is "message" |
| StreamSection.StreamTitles | client/src/components/StreamSection.tsx:99-102 | rennsz is "IRL Stream", rennszino "Gaming Stream", any other id "Stream" |
| AnnouncementsSection.BorderColors | client/src/components/AnnouncementsSection.tsx:74-83 | important → red, special → accent, anything else → primary; the three types get distinct borders |
| AnnouncementsSection.DiffInDays | client/src/components/AnnouncementsSection.tsx:88 | the floor of the elapsed time in days; negative for a future date |
| AnnouncementsSection.FormatDateReadBack | client/src/components/AnnouncementsSection.tsx:90-100 | "Today" iff 0 and "Yesterday" iff 1; below 7 the label carries the day count; 7-29 in weeks and 30 or more in months, both floored |
| AnnouncementsSection.DateLabelDays | client/src/components/AnnouncementsSection.tsx:85-101 | the first day is "Today", the second "Yesterday", and a future date falls into the "days ago" branch with a negative count |
| AnnouncementTab.AnnouncementFormBounds | client/src/components/admin/AnnouncementTab.tsx:24-28 | valid iff title is 3-100 characters, content 10-500 and the type one of three; each failure is reported on its own field; the empty form fails on title and content |
| AnnouncementTab.FormStricterThanServer | client/src/components/admin/AnnouncementTab.tsx:24-28 | the server accepts every valid form, and also a two-character title the form refuses |
| AnnouncementTab.WithoutId | client/src/components/admin/AnnouncementTab.tsx:120 | the filter keeps exactly the announcements with another id |
| AnnouncementTab.WithoutIdAppend | client/src/components/admin/AnnouncementTab.tsx:120 | the filter keeps the order |
| AnnouncementTab.WithoutAbsentId | client/src/components/admin/AnnouncementTab.tsx:120 | a list without the id comes back unchanged |
| AnnouncementTab.AnnouncementList.constructor | client/src/components/admin/AnnouncementTab.tsx:37-48 | an empty list that is loading, not submitting, with the default form |
| AnnouncementTab.AnnouncementList.Load | client/src/components/admin/AnnouncementTab.tsx:55-69 | the fetched list or the cached one, and loading ends |
| AnnouncementTab.AnnouncementList.Delete | client/src/components/admin/AnnouncementTab.tsx:109-135 | on success exactly the entries with that id leave the list; on failure it is kept and the destructive "Error deleting announcement" toast is shown |
| AnnouncementTab.AnnouncementList.Submit | client/src/components/admin/AnnouncementTab.tsx:71-107 | on success the form resets to the defaults and the list reloads; otherwise both are kept and the destructive "Error creating announcement" toast is shown; submitting ends either way |
| SecurityTab.PasswordFormRules | client/src/components/admin/SecurityTab.tsx:14-21 | valid iff the current password is non-empty, the new one has at least 6 characters and the confirmation equals it; a mismatch is reported on `confirmPassword` |
| SecurityTab.SecurityForm.constructor | client/src/components/admin/SecurityTab.tsx:30-37 | the three fields start empty |
| SecurityTab.SecurityForm.Submit | client/src/components/admin/SecurityTab.tsx:39-74 | on success the fields reset to empty and "Password changed successfully" / "Your admin password has been updated." is shown; a refusal keeps the form and shows "Failed to change password" with `result.message`, destructive; an exception keeps the form and shows "Error" / "An unexpected error occurred while changing your password.", destructive; submitting ends every way |
| StreamTab.StreamControlKeys | client/src/components/admin/StreamTab.tsx:115-176 | each control emits a patch of its own field only |
| StreamTab.StreamControlApply | client/src/components/admin/StreamTab.tsx:115-126 | the auto-detect and channel patches change that field alone |
| StreamTab.StreamDisplayApply | client/src/components/admin/StreamTab.tsx:148-176 | the offline-behaviour and next-stream patches change that field alone |
| StreamTab.ScheduleFormRules | client/src/components/admin/StreamTab.tsx:25-30 | valid iff the title is 3-100 characters and type, date and time are non-empty; the defaults fail on title, date and time |
| StreamTab.FormRoundTrip | client/src/components/admin/StreamTab.tsx:58-66 | the server accepts every form, and a loaded schedule fills the form with exactly its four fields |
| StreamTab.ScheduleEditor.constructor | client/src/components/admin/StreamTab.tsx:44-51 | the defaults are empty title, date and time with type "IRL" |
| StreamTab.ScheduleEditor.Load | client/src/components/admin/StreamTab.tsx:54-73 | a fetched or cached schedule fills the form; null leaves it as is |
| StreamTab.ScheduleEditor.Submit | client/src/components/admin/StreamTab.tsx:75-102 | with a token the schedule is posted; the success toast iff the post succeeds, and then the schedule is cached; otherwise the error toast and the cache is unchanged |
| AdminTabs.HandleLogout | client/src/components/admin/AdminTabs.tsx:35-38 | the token is cleared before the page logs out |
| AdminTabs.QuickActionsToggle | client/src/components/admin/AdminTabs.tsx:184-218 | each quick action negates its one field |
| AdminTabs.QuickActionsTwice | client/src/components/admin/AdminTabs.tsx:184-218 | applying a quick action twice restores the settings |
| AdminTabs.DisplayToggles | client/src/components/admin/AdminTabs.tsx:357-375 | the display toggles negate their field, and toggling socials twice restores it |
| AdminTabs.ActionPatchKeys | client/src/components/admin/AdminTabs.tsx:184-238 | every action's patch has exactly its own field; the banner edit has both banner fields |
| AdminTabs.SwitchStreamTargets | client/src/components/admin/AdminTabs.tsx:205-207 | rennsz goes to rennszino and anything else, "none" included, to rennsz |
| AdminTabs.SwitchStreamTwice | client/src/components/admin/AdminTabs.tsx:205-207 | from either known channel, switching twice comes back |
| AppearanceTab.SavePatchEffect | client/src/components/admin/AppearanceTab.tsx:54-66 | the save patch has the picked colour and the other six props as passed; saving the same colour changes nothing |
| AppearanceTab.ControlPatchKeys | client/src/components/admin/AppearanceTab.tsx:120-183 | each control emits a one-field patch |
| AppearanceTab.AppearanceEditor.constructor | client/src/components/admin/AppearanceTab.tsx:41-43 | the picker starts at the primary colour, is not saving and no toast is shown |
| AppearanceTab.AppearanceEditor.SyncPrimaryColor | client/src/components/admin/AppearanceTab.tsx:46-48 | the picker follows the primary colour |
| AppearanceTab.AppearanceEditor.PickColor | client/src/components/admin/AppearanceTab.tsx:50-52 | only the picked colour changes; no patch is sent |
| AppearanceTab.AppearanceEditor.HandleSaveChanges | client/src/components/admin/AppearanceTab.tsx:54-81 | the save patch is emitted, the toast "Settings saved" / "Appearance settings have been updated." follows, and the tab is not saving afterwards |
| AdminPage.AdminView.constructor | client/src/pages/admin.tsx:11-14 | not authenticated, no settings yet, loading |
| AdminPage.AdminView.Mount | client/src/pages/admin.tsx:17-40 | authenticated iff a truthy token is stored; the settings are the fetched or cached ones; a successful fetch rewrites the settings cache with what it returned and a failed one leaves storage alone; the failure screen is never reached |
| AdminPage.AdminView.HandleLoginSuccess | client/src/pages/admin.tsx:42-44 | authenticated, and the tabs show once settings are loaded |
| AdminPage.AdminView.HandleLogout | client/src/pages/admin.tsx:46-49 | not authenticated and at "/" |
| AdminPage.AdminView.HandleSettingsChange | client/src/pages/admin.tsx:51-67 | a no-op while settings are not loaded; otherwise the settings become the old ones overlaid by the patch and are not reverted when the save fails; with a token, storage, body classes and requests are exactly those of `saveSettingsToAPI(p)`; without one, nothing but the page's settings changes |

## Left out

- The network, Express plumbing, `createServer` and JSON parsing are not modelled. Each response is an `Outcome` parameter. A failed request, a non-2xx status and a body that fails to parse are all `Failed`, which is what the source's `catch` blocks see wherever the body is read with `await`.
- ClientStorage.FetchAnnouncements: `fetchAnnouncements` returns `response.json()` without `await` (client/src/lib/storage.ts:130), so a 2xx body that does not parse rejects the call instead of falling back to the cache. The model falls back to the cached list on every `Failed`, so it does not capture that rejection or the caller's error path it leads to.
- ClientStorage.SaveAnnouncement: `saveAnnouncement` returns `response.json()` without `await` (client/src/lib/storage.ts:158), so a 2xx body that does not parse rejects the call instead of giving `null`. The model gives `None` on every `Failed`.
- ClientStorage.FetchSchedule: `fetchSchedule` returns `response.json()` without `await` (client/src/lib/storage.ts:189), so a 2xx body that does not parse rejects the call instead of falling back to the cache. The model falls back to the cached schedule on every `Failed`.
- server/index.ts, where the JSON body parser is installed, is not part of this model. Request bodies are taken as what `JSON.parse` gives, so a `__proto__` key in a posted settings object is an ordinary entry and is saved.
- `checkTwitchChannelStatus` calls an external service, so it is an oracle `string -> bool`.
- The `setInterval` polling in `StreamSection` and the async interleavings are not modelled. Each handler or check is one atomic step.
- GET requests are not logged in the page's `sent` list. Only POST and DELETE requests are.
- There is no `/api/theme` route and no change-password route on the server. The theme POST is recorded as a request whose response is a parameter.
- `changeAdminPassword` is not defined in the client storage module. `SecurityTab.SecurityForm.Submit` takes its result as a parameter (`Changed`, `Refused(message)` or `Threw`).
- `quickActions` in `AppSettings` is never read or written by the core, so it is not a field of the model's settings.
- A non-JSON value in a localStorage slot is modelled as `Text`. Reading settings from `Text` yields the defaults, as the `catch` in `getSettings` does.
- Patches never hold an explicit `undefined`. An absent field is `None`, and the client never sends an explicit `undefined`.
- Zod parses are modelled as predicates over the field values. The `refine` on the password form is reported alongside the length errors. Lengths are counted in characters, not UTF-16 code units.
- Dates are integer milliseconds, and `new Date(string)` parsing is not modelled. Theme radii are integer hundredths.
- Toasts are modelled as the last toast shown.
- `LoginForm`, the layout components, `home.tsx`, `SocialSection`, `StreamSwitcher`, `AnnouncementBanner`, `App` and the Intl date formatting in `NextStreamSection` are rendering only, so they are not part of this model.
- Drizzle column defaults (`type` "default", `isActive` true) are not applied by `MemStorage`, so the model's `type` and `isActive` are optional.
