/** The server's in-memory store (server/storage.ts, class MemStorage):
    three insertion-ordered maps keyed by id and three id counters, all
    updated in place. Settings are upserted by key; announcements are
    listed newest first; at most one schedule is meant to be active, but the
    store itself does not enforce it. */
module ServerStorage {
  import opened Js
  import opened Schema
  import JsMap

  // ---------------------------------------------------------------------
  // Table invariants

  /** Ids increase in insertion order, lie in [1, next), and each entry is
      stored under its own id. */
  predicate AnnouncementTable(m: JsMap.Entries<Announcement>, next: int) {
    && JsMap.Increasing(m) && JsMap.KeysWithin(m, 1, next)
    && forall i :: 0 <= i < |m| ==> m[i].1.id == m[i].0
  }

  predicate ScheduleTable(m: JsMap.Entries<StreamSchedule>, next: int) {
    && JsMap.Increasing(m) && JsMap.KeysWithin(m, 1, next)
    && forall i :: 0 <= i < |m| ==> m[i].1.id == m[i].0
  }

  /** Removing one entry keeps a table valid. */
  lemma RemoveAnnouncementKeeps(m: JsMap.Entries<Announcement>, next: int, i: int)
    requires AnnouncementTable(m, next) && 0 <= i < |m|
    ensures AnnouncementTable(m[..i] + m[i + 1..], next)
  {
    JsMap.RemoveAtKeeps(m, i, 1, next);
    var r := m[..i] + m[i + 1..];
    assert forall j :: 0 <= j < |r| ==> r[j] == if j < i then m[j] else m[j + 1];
  }

  lemma RemoveScheduleKeeps(m: JsMap.Entries<StreamSchedule>, next: int, i: int)
    requires ScheduleTable(m, next) && 0 <= i < |m|
    ensures ScheduleTable(m[..i] + m[i + 1..], next)
  {
    JsMap.RemoveAtKeeps(m, i, 1, next);
    var r := m[..i] + m[i + 1..];
    assert forall j :: 0 <= j < |r| ==> r[j] == if j < i then m[j] else m[j + 1];
  }

  /** Laying a patch over the record stored under `id` is a `set` that
      keeps the table valid and changes no other entry. */
  lemma PatchAnnouncementKeeps(m: JsMap.Entries<Announcement>, next: int, id: int, patch: AnnouncementPatch)
    requires AnnouncementTable(m, next) && JsMap.Get(m, id).Some?
    ensures var r := JsMap.Set(m, id, OverlayAnnouncement(JsMap.Get(m, id).value, patch));
      && AnnouncementTable(r, next) && |r| == |m|
      && forall j :: 0 <= j < |m| ==>
           r[j] == if m[j].0 == id then (id, OverlayAnnouncement(m[j].1, patch)) else m[j]
  {
    var i :| 0 <= i < |m| && m[i] == (id, JsMap.Get(m, id).value);
    var u := OverlayAnnouncement(m[i].1, patch);
    JsMap.SetAt(m, i, u);
    JsMap.ReplaceAtKeeps(m, i, u, 1, next);
  }

  lemma PatchScheduleKeeps(m: JsMap.Entries<StreamSchedule>, next: int, id: int, patch: SchedulePatch)
    requires ScheduleTable(m, next) && JsMap.Get(m, id).Some?
    ensures var r := JsMap.Set(m, id, OverlaySchedule(JsMap.Get(m, id).value, patch));
      && ScheduleTable(r, next) && |r| == |m|
      && forall j :: 0 <= j < |m| ==>
           r[j] == if m[j].0 == id then (id, OverlaySchedule(m[j].1, patch)) else m[j]
  {
    var i :| 0 <= i < |m| && m[i] == (id, JsMap.Get(m, id).value);
    var u := OverlaySchedule(m[i].1, patch);
    JsMap.SetAt(m, i, u);
    JsMap.ReplaceAtKeeps(m, i, u, 1, next);
  }

  /** No two settings share a key. */
  predicate UniqueKeys(list: seq<Setting>) {
    forall i, j :: 0 <= i < j < |list| ==> list[i].key != list[j].key
  }

  predicate SettingTable(m: JsMap.Entries<Setting>, next: int) {
    && JsMap.Increasing(m) && JsMap.KeysWithin(m, 1, next)
    && (forall i :: 0 <= i < |m| ==> m[i].1.id == m[i].0)
    && (forall i, j :: 0 <= i < j < |m| ==> m[i].1.key != m[j].1.key)
  }

  lemma SettingTableKeys(m: JsMap.Entries<Setting>, next: int)
    requires SettingTable(m, next)
    ensures UniqueKeys(JsMap.Values(m))
  {
  }

  // ---------------------------------------------------------------------
  // Settings viewed as a key-value object

  /** The settings as a key -> value view, folding the list in order (a
      later record with the same key overrides an earlier one). With unique
      keys this is what `getSetting` finds for each key. GET /api/settings
      builds it with `reduce` into a plain object, which drops one key (see
      `Routes.GetSettingsRoute`). */
  function SettingsObject(list: seq<Setting>): map<string, string> {
    if |list| == 0 then map[]
    else SettingsObject(list[..|list| - 1])[list[|list| - 1].key := list[|list| - 1].value]
  }

  /** A key is in the object exactly when some record has it. */
  lemma {:induction false} SettingsObjectKeys(list: seq<Setting>, k: string)
    ensures k in SettingsObject(list) <==> exists i :: 0 <= i < |list| && list[i].key == k
  {
    if |list| > 0 {
      var init := list[..|list| - 1];
      SettingsObjectKeys(init, k);
      if k in SettingsObject(init) {
        var i :| 0 <= i < |init| && init[i].key == k;
        assert list[i].key == k;
      }
      if exists i :: 0 <= i < |list| && list[i].key == k {
        var i :| 0 <= i < |list| && list[i].key == k;
        if i < |list| - 1 {
          assert init[i].key == k;
        }
      }
    }
  }

  /** With unique keys, every record's value is what the object holds for its key. */
  lemma {:induction false} SettingsObjectAt(list: seq<Setting>, i: int)
    requires UniqueKeys(list) && 0 <= i < |list|
    ensures list[i].key in SettingsObject(list)
    ensures SettingsObject(list)[list[i].key] == list[i].value
  {
    if i < |list| - 1 {
      var init := list[..|list| - 1];
      assert init[i] == list[i];
      SettingsObjectAt(init, i);
    }
  }

  /** Changing one record's value (keys unique) updates that key and nothing else. */
  lemma {:induction false} SettingsObjectReplace(list: seq<Setting>, i: int, v: string)
    requires UniqueKeys(list) && 0 <= i < |list|
    ensures SettingsObject(list[i := list[i].(value := v)]) == SettingsObject(list)[list[i].key := v]
  {
    var n := |list|;
    var list' := list[i := list[i].(value := v)];
    var init := list[..n - 1];
    if i == n - 1 {
      assert list'[..n - 1] == init;
    } else {
      assert list'[..n - 1] == init[i := init[i].(value := v)];
      SettingsObjectReplace(init, i, v);
      assert list'[n - 1] == list[n - 1];
      assert list[n - 1].key != list[i].key;
    }
  }

  /** Giving the record at `at` a new value keeps the table valid. */
  lemma ReplaceSettingKeeps(m: JsMap.Entries<Setting>, next: int, at: int, v: string)
    requires SettingTable(m, next) && 0 <= at < |m|
    ensures SettingTable(m[at := (m[at].0, m[at].1.(value := v))], next)
  {
    var m' := m[at := (m[at].0, m[at].1.(value := v))];
    JsMap.ReplaceAtKeeps(m, at, m[at].1.(value := v), 1, next);
    assert forall i :: 0 <= i < |m| ==> m'[i].1.key == m[i].1.key;
  }

  /** ... and changes the key-value object at that record's key only. */
  lemma ReplaceSettingObject(m: JsMap.Entries<Setting>, next: int, at: int, v: string)
    requires SettingTable(m, next) && 0 <= at < |m|
    ensures SettingsObject(JsMap.Values(m[at := (m[at].0, m[at].1.(value := v))])) ==
            SettingsObject(JsMap.Values(m))[m[at].1.key := v]
  {
    JsMap.ValuesReplace(m, at, m[at].1.(value := v));
    SettingTableKeys(m, next);
    SettingsObjectReplace(JsMap.Values(m), at, v);
  }

  /** Appending a record under the next id, for a key not yet present,
      keeps the table valid ... */
  lemma AppendSettingKeeps(m: JsMap.Entries<Setting>, next: int, key: string, v: string)
    requires SettingTable(m, next) && next >= 1
    requires forall i :: 0 <= i < |m| ==> m[i].1.key != key
    ensures SettingTable(m + [(next, Setting(next, key, v))], next + 1)
  {
    JsMap.AppendKeeps(m, next, Setting(next, key, v), 1);
  }

  /** ... and sets that key in the key-value object. */
  lemma AppendSettingObject(m: JsMap.Entries<Setting>, key: string, v: string, id: int)
    ensures SettingsObject(JsMap.Values(m + [(id, Setting(id, key, v))])) ==
            SettingsObject(JsMap.Values(m))[key := v]
  {
    var r := Setting(id, key, v);
    var values := JsMap.Values(m);
    JsMap.ValuesAppend(m, id, r);
    assert (values + [r])[..|values|] == values;
  }

  /** The index of the first record with `key`, or `|m|` if there is none:
      where `getSetting(key)`'s `find` stops. */
  function KeyIndex(m: JsMap.Entries<Setting>, key: string): (i: nat)
    ensures i <= |m|
    ensures i < |m| ==> m[i].1.key == key
    ensures forall j :: 0 <= j < i ==> m[j].1.key != key
  {
    if |m| == 0 || m[0].1.key == key then 0 else 1 + KeyIndex(m[1..], key)
  }

  /** `saveSetting` on the settings map and the next id: the record with
      the key gets the new value where it stands (same id), or a new record
      is appended under the next id. Yields the new map and the record. */
  function SaveInto(m: JsMap.Entries<Setting>, next: int, s: InsertSetting): (JsMap.Entries<Setting>, Setting) {
    var i := KeyIndex(m, s.key);
    if i < |m| then
      var updated := m[i].1.(value := s.value);
      (m[i := (m[i].0, updated)], updated)
    else
      var created := Setting(next, s.key, s.value);
      (m + [(next, created)], created)
  }

  /** In a valid table that is `Map.set` under the saved record's id. */
  lemma SaveIntoIsMapSet(m: JsMap.Entries<Setting>, next: int, s: InsertSetting)
    requires SettingTable(m, next) && next >= 1
    ensures SaveInto(m, next, s).0 == JsMap.Set(m, SaveInto(m, next, s).1.id, SaveInto(m, next, s).1)
  {
    var i := KeyIndex(m, s.key);
    if i < |m| {
      JsMap.SetAt(m, i, m[i].1.(value := s.value));
    } else {
      JsMap.AppendKeeps(m, next, Setting(next, s.key, s.value), 1);
    }
  }

  /** Saving keeps the settings table valid, sets exactly that key in the
      key-value object, and either replaces the one record with the key in
      place or appends a new one. */
  lemma SaveIntoSpec(m: JsMap.Entries<Setting>, next: int, s: InsertSetting)
    requires SettingTable(m, next) && next >= 1
    ensures var (m', r) := SaveInto(m, next, s);
      && r.key == s.key && r.value == s.value
      && SettingsObject(JsMap.Values(m')) == SettingsObject(JsMap.Values(m))[s.key := s.value]
    ensures var (m', r) := SaveInto(m, next, s); var i := KeyIndex(m, s.key);
      && (i < |m| ==> SettingTable(m', next) && r.id == m[i].0 && m' == m[i := (m[i].0, r)])
      && (i == |m| ==> SettingTable(m', next + 1) && r.id == next && m' == m + [(next, r)])
  {
    var i := KeyIndex(m, s.key);
    if i < |m| {
      ReplaceSettingKeeps(m, next, i, s.value);
      ReplaceSettingObject(m, next, i, s.value);
    } else {
      AppendSettingKeeps(m, next, s.key, s.value);
      AppendSettingObject(m, s.key, s.value, next);
    }
  }

  /** The index of the first active schedule, or `|m|` if none is active. */
  function ActiveIndex(m: JsMap.Entries<StreamSchedule>): (i: nat)
    ensures i <= |m|
    ensures i < |m| ==> Active(m[i].1)
    ensures forall j :: 0 <= j < i ==> !Active(m[j].1)
  {
    if |m| == 0 || Active(m[0].1) then 0 else 1 + ActiveIndex(m[1..])
  }

  /** No two schedules are active. */
  predicate AtMostOneActive(m: JsMap.Entries<StreamSchedule>) {
    forall i, j :: 0 <= i < |m| && 0 <= j < |m| && Active(m[i].1) && Active(m[j].1) ==> i == j
  }

  /** Exactly the schedule with id `id` is active. */
  predicate OnlyActive(m: JsMap.Entries<StreamSchedule>, id: int) {
    (exists i :: 0 <= i < |m| && m[i].0 == id) &&
    forall i :: 0 <= i < |m| ==> (Active(m[i].1) <==> m[i].0 == id)
  }

  // ---------------------------------------------------------------------
  // Newest-first order of announcements

  predicate NewestFirstOrder(s: seq<Announcement>) {
    forall i, j :: 0 <= i < j < |s| ==> s[i].timestamp >= s[j].timestamp
  }

  /** Insert `a` before the first announcement that is not newer than it. */
  function InsertByTime(a: Announcement, s: seq<Announcement>): (r: seq<Announcement>)
    ensures |r| == |s| + 1
  {
    if |s| == 0 || a.timestamp >= s[0].timestamp then [a] + s
    else [s[0]] + InsertByTime(a, s[1..])
  }

  lemma {:induction false} InsertByTimePermutes(a: Announcement, s: seq<Announcement>)
    ensures multiset(InsertByTime(a, s)) == multiset{a} + multiset(s)
  {
    if |s| > 0 && a.timestamp < s[0].timestamp {
      InsertByTimePermutes(a, s[1..]);
      assert s == [s[0]] + s[1..];
    }
  }

  /** Inserting under a bound every element already keeps stays under it. */
  lemma {:induction false} InsertByTimeBelow(a: Announcement, s: seq<Announcement>, t: int)
    requires a.timestamp <= t && forall k :: 0 <= k < |s| ==> s[k].timestamp <= t
    ensures forall j :: 0 <= j < |s| + 1 ==> InsertByTime(a, s)[j].timestamp <= t
  {
    if |s| > 0 && a.timestamp < s[0].timestamp {
      InsertByTimeBelow(a, s[1..], t);
      var r := InsertByTime(a, s);
      assert forall j :: 1 <= j < |r| ==> r[j] == InsertByTime(a, s[1..])[j - 1];
    }
  }

  /** Inserting into a newest-first sequence keeps it newest first. */
  lemma {:induction false} InsertByTimeOrdered(a: Announcement, s: seq<Announcement>)
    requires NewestFirstOrder(s)
    ensures NewestFirstOrder(InsertByTime(a, s))
  {
    if |s| > 0 && a.timestamp < s[0].timestamp {
      var rest := InsertByTime(a, s[1..]);
      InsertByTimeOrdered(a, s[1..]);
      InsertByTimeBelow(a, s[1..], s[0].timestamp);
      var r := [s[0]] + rest;
      forall i, j | 0 <= i < j < |r| ensures r[i].timestamp >= r[j].timestamp {
        assert r[j] == rest[j - 1];
        if i > 0 {
          assert r[i] == rest[i - 1];
        }
      }
    }
  }

  /** `.sort((a, b) => b.timestamp - a.timestamp)`: an insertion sort, so
      that ties keep their order as in a stable sort (NewestFirstStable). */
  function NewestFirst(s: seq<Announcement>): (r: seq<Announcement>)
    ensures |r| == |s|
  {
    if |s| == 0 then [] else InsertByTime(s[0], NewestFirst(s[1..]))
  }

  /** The announcements of `s` stamped `t`, in their order in `s`. */
  function StampedAt(s: seq<Announcement>, t: int): (r: seq<Announcement>)
    ensures |r| <= |s|
    ensures forall i :: 0 <= i < |r| ==> r[i].timestamp == t
  {
    if |s| == 0 then []
    else (if s[0].timestamp == t then [s[0]] else []) + StampedAt(s[1..], t)
  }

  /** Inserting `a` puts it ahead of the announcements stamped at the same
      time and leaves every other timestamp's announcements in order. */
  lemma {:induction false} InsertByTimeStable(a: Announcement, s: seq<Announcement>, t: int)
    ensures StampedAt(InsertByTime(a, s), t) == (if a.timestamp == t then [a] else []) + StampedAt(s, t)
  {
    var r := InsertByTime(a, s);
    if |s| == 0 || a.timestamp >= s[0].timestamp {
      assert r[1..] == s;
    } else {
      InsertByTimeStable(a, s[1..], t);
      assert r[1..] == InsertByTime(a, s[1..]);
    }
  }

  /** The sort is stable: announcements with the same timestamp keep the
      order they had in the map. With NewestFirstSorts this determines the
      result completely. */
  lemma {:induction false} NewestFirstStable(s: seq<Announcement>, t: int)
    ensures StampedAt(NewestFirst(s), t) == StampedAt(s, t)
  {
    if |s| > 0 {
      NewestFirstStable(s[1..], t);
      InsertByTimeStable(s[0], NewestFirst(s[1..]), t);
    }
  }

  /** The sorted list holds the same announcements, newest first. */
  lemma {:induction false} NewestFirstSorts(s: seq<Announcement>)
    ensures multiset(NewestFirst(s)) == multiset(s)
    ensures NewestFirstOrder(NewestFirst(s))
  {
    if |s| > 0 {
      NewestFirstSorts(s[1..]);
      InsertByTimePermutes(s[0], NewestFirst(s[1..]));
      InsertByTimeOrdered(s[0], NewestFirst(s[1..]));
      assert s == [s[0]] + s[1..];
    }
  }

  // ---------------------------------------------------------------------
  // Initial data

  const DefaultSettings: seq<InsertSetting> := [
    InsertSetting("banner_text", "Welcome to Rennsz's Stream Hub!"),
    InsertSetting("show_banner", "false"),
    InsertSetting("primary_color", "#FF6B00"),
    InsertSetting("current_stream", "rennsz"),
    InsertSetting("auto_detect_stream", "true"),
    InsertSetting("offline_behavior", "clips"),
    InsertSetting("dark_mode", "true"),
    InsertSetting("animations_enabled", "true"),
    InsertSetting("show_announcements", "true"),
    InsertSetting("show_next_stream", "true"),
    InsertSetting("show_socials", "true"),
    InsertSetting("seasonal_theme", "default"),
    InsertSetting("admin_password", "admin123")]

  const FirstAnnouncement := InsertAnnouncement(
    "Next IRL Stream: Tokyo Exploration",
    "Join me this Friday at 7PM JST for an exciting Tokyo night exploration stream! We'll be visiting Shibuya, trying street food, and maybe some karaoke later!",
    Some("default"))

  const SecondAnnouncement := InsertAnnouncement(
    "New Gaming Schedule",
    "Starting next week, gaming streams will be every Tuesday and Thursday at 9PM JST. We'll continue our Elden Ring playthrough and maybe try some new titles!",
    Some("special"))

  const FirstSchedule := InsertStreamSchedule("Tokyo Night Adventure", "IRL", "2023-10-15", "19:00", Some(true))

  /** The announcements map after start-up: each example stamped with its
      own reading of the clock, `now1` for the first and `now2` for the second. */
  function InitialAnnouncements(now1: int, now2: int): JsMap.Entries<Announcement> {
    [(1, Announcement(1, FirstAnnouncement.title, FirstAnnouncement.content, FirstAnnouncement.kind, now1)),
     (2, Announcement(2, SecondAnnouncement.title, SecondAnnouncement.content, SecondAnnouncement.kind, now2))]
  }

  /** The first GET /api/announcements after start-up: the second example
      comes first exactly when the clock moved on between the two creations;
      with equal stamps the insertion order stands. */
  lemma InitialListing(now1: int, now2: int)
    ensures var a := JsMap.Values(InitialAnnouncements(now1, now2));
      NewestFirst(a) == if now2 > now1 then [a[1], a[0]] else [a[0], a[1]]
  {
    var a := JsMap.Values(InitialAnnouncements(now1, now2));
    assert a[0].timestamp == now1 && a[1].timestamp == now2;
    assert a[1..][1..] == [];
    assert NewestFirst(a[1..]) == InsertByTime(a[1], []) == [a[1]];
    assert NewestFirst(a) == InsertByTime(a[0], [a[1]]);
    if now2 > now1 {
      assert [a[1]][1..] == [];
      assert InsertByTime(a[0], [a[1]]) == [a[1]] + InsertByTime(a[0], []);
    }
  }

  /** The schedules map after start-up: one schedule, active. */
  const InitialSchedules: JsMap.Entries<StreamSchedule> :=
    [(1, StreamSchedule(1, FirstSchedule.title, FirstSchedule.streamType, FirstSchedule.date, FirstSchedule.time, FirstSchedule.isActive))]

  /** The default setting keys are the thirteen `SettingKey` names, in order. */
  lemma DefaultSettingKeys()
    ensures |DefaultSettings| == |AllSettingKeys|
    ensures forall i :: 0 <= i < |DefaultSettings| ==> DefaultSettings[i].key == KeyName(AllSettingKeys[i])
  {
  }

  lemma DefaultKeysDistinct()
    ensures forall i, j :: 0 <= i < j < |DefaultSettings| ==> DefaultSettings[i].key != DefaultSettings[j].key
  {
    DefaultSettingKeys();
    forall i, j | 0 <= i < j < |DefaultSettings| ensures DefaultSettings[i].key != DefaultSettings[j].key {
      KeyNamesDistinct(AllSettingKeys[i], AllSettingKeys[j]);
    }
  }

  /** The settings map after the first `n` defaults are saved: ids 1 to `n`. */
  function DefaultEntries(n: nat): (r: JsMap.Entries<Setting>)
    requires n <= |DefaultSettings|
    ensures |r| == n
    ensures forall i :: 0 <= i < n ==> r[i] == (i + 1, Setting(i + 1, DefaultSettings[i].key, DefaultSettings[i].value))
  {
    if n == 0 then [] else DefaultEntries(n - 1) + [(n, Setting(n, DefaultSettings[n - 1].key, DefaultSettings[n - 1].value))]
  }

  /** Saving the next default into the first `i` appends it under id `i + 1`. */
  lemma SaveDefaultStep(i: nat)
    requires i < |DefaultSettings|
    ensures SettingTable(DefaultEntries(i), i + 1)
    ensures SaveInto(DefaultEntries(i), i + 1, DefaultSettings[i]).0 == DefaultEntries(i + 1)
  {
    var m := DefaultEntries(i);
    DefaultTable(i);
    DefaultKeyFresh(i);
    SaveIntoSpec(m, i + 1, DefaultSettings[i]);
    assert DefaultEntries(i + 1) == m + [(i + 1, Setting(i + 1, DefaultSettings[i].key, DefaultSettings[i].value))];
  }

  /** The first `i` defaults form a valid table whose next id is `i + 1`. */
  lemma DefaultTable(i: nat)
    requires i <= |DefaultSettings|
    ensures SettingTable(DefaultEntries(i), i + 1)
  {
    DefaultKeysDistinct();
    var m := DefaultEntries(i);
    assert forall a, b :: 0 <= a < b < |m| ==> m[a].1.key == DefaultSettings[a].key && m[b].1.key == DefaultSettings[b].key;
  }

  /** The next default's key is not among the ones already saved. */
  lemma DefaultKeyFresh(i: nat)
    requires i < |DefaultSettings|
    ensures KeyIndex(DefaultEntries(i), DefaultSettings[i].key) == i
  {
    var m := DefaultEntries(i);
    var k := KeyIndex(m, DefaultSettings[i].key);
    DefaultKeysDistinct();
    assert k <= i;
    assert forall j :: 0 <= j < i ==> m[j].1.key == DefaultSettings[j].key != DefaultSettings[i].key;
  }

  // ---------------------------------------------------------------------

  class MemStorage {
    var announcements: JsMap.Entries<Announcement>
    var settings: JsMap.Entries<Setting>
    var streamSchedules: JsMap.Entries<StreamSchedule>
    var announcementId: int
    var settingId: int
    var scheduleId: int

    /** Each table is valid on its own; an operation on one table keeps the
        others valid because it does not touch their fields. */
    ghost predicate Valid()
      reads this
    {
      AnnouncementsValid() && SettingsValid() && SchedulesValid()
    }

    ghost predicate AnnouncementsValid()
      reads this`announcements, this`announcementId
    {
      AnnouncementTable(announcements, announcementId) && announcementId >= 1
    }

    ghost predicate SettingsValid()
      reads this`settings, this`settingId
    {
      SettingTable(settings, settingId) && settingId >= 1
    }

    ghost predicate SchedulesValid()
      reads this`streamSchedules, this`scheduleId
    {
      ScheduleTable(streamSchedules, scheduleId) && scheduleId >= 1
    }

    /** The settings as a key -> value view: what `getSetting` finds. */
    ghost function KeyValues(): map<string, string>
      reads this
    {
      SettingsObject(JsMap.Values(settings))
    }

    /** A fresh store: empty tables, ids from 1, then the defaults. The
        clock is read once per example announcement: `now1`, then `now2`. */
    constructor (now1: int, now2: int)
      ensures Valid()
      ensures settings == DefaultEntries(|DefaultSettings|) && settingId == 14
      ensures announcements == InitialAnnouncements(now1, now2) && announcementId == 3
      ensures streamSchedules == InitialSchedules && scheduleId == 2
    {
      announcements, settings, streamSchedules := [], [], [];
      announcementId, settingId, scheduleId := 1, 1, 1;
      new;
      InitializeDefaultSettings(now1, now2);
    }

    /** Saves the thirteen default settings in order (ids 1 to 13), then
        creates the two example announcements, each stamped by its own
        `new Date()` (`now1`, `now2`), and one active schedule. */
    method InitializeDefaultSettings(now1: int, now2: int)
      requires Valid()
      requires announcements == [] && settings == [] && streamSchedules == []
      requires announcementId == 1 && settingId == 1 && scheduleId == 1
      modifies this
      ensures Valid()
      ensures settings == DefaultEntries(|DefaultSettings|) && settingId == 14
      ensures announcements == InitialAnnouncements(now1, now2) && announcementId == 3
      ensures streamSchedules == InitialSchedules && scheduleId == 2
    {
      SaveDefaults();
      var a1 := CreateAnnouncement(FirstAnnouncement, now1);
      var a2 := CreateAnnouncement(SecondAnnouncement, now2);
      var s1 := CreateStreamSchedule(FirstSchedule);
    }

    /** The loop over the default settings, each saved in turn. */
    method SaveDefaults()
      requires Valid() && settings == [] && settingId == 1
      modifies this`settings, this`settingId
      ensures Valid()
      ensures settings == DefaultEntries(|DefaultSettings|) && settingId == 14
    {
      var i := 0;
      while i < |DefaultSettings|
        invariant 0 <= i <= |DefaultSettings|
        invariant Valid()
        invariant settings == DefaultEntries(i) && settingId == i + 1
      {
        SaveDefaultStep(i);
        var saved := SaveSetting(DefaultSettings[i]);
        i := i + 1;
      }
    }

    // -------------------------------------------------------------------
    // Announcements

    /** Every stored announcement, newest first. */
    method GetAnnouncements() returns (r: seq<Announcement>)
      ensures r == NewestFirst(JsMap.Values(announcements))
      ensures multiset(r) == multiset(JsMap.Values(announcements))
      ensures NewestFirstOrder(r)
      ensures forall t :: StampedAt(r, t) == StampedAt(JsMap.Values(announcements), t)
    {
      r := NewestFirst(JsMap.Values(announcements));
      NewestFirstSorts(JsMap.Values(announcements));
      forall t ensures StampedAt(r, t) == StampedAt(JsMap.Values(announcements), t) {
        NewestFirstStable(JsMap.Values(announcements), t);
      }
    }

    method GetAnnouncement(id: int) returns (r: Option<Announcement>)
      requires Valid()
      ensures r.Some? <==> id in JsMap.Keys(announcements)
      ensures r.Some? ==> r.value.id == id && exists i :: 0 <= i < |announcements| && announcements[i] == (id, r.value)
    {
      r := JsMap.Get(announcements, id);
    }

    /** Takes the next id, stamps `now` and appends; nothing else changes. */
    method CreateAnnouncement(a: InsertAnnouncement, now: int) returns (r: Announcement)
      requires Valid()
      modifies this`announcements, this`announcementId
      ensures Valid()
      ensures r == Announcement(old(announcementId), a.title, a.content, a.kind, now)
      ensures r.id !in JsMap.Keys(old(announcements))
      ensures announcements == old(announcements) + [(r.id, r)]
      ensures announcementId == old(announcementId) + 1
    {
      var id := announcementId;
      announcementId := announcementId + 1;
      r := Announcement(id, a.title, a.content, a.kind, now);
      JsMap.AppendKeeps(announcements, id, r, 1);
      announcements := JsMap.Set(announcements, id, r);
    }

    /** An absent id changes nothing; otherwise the patch is laid over the
        record where it stands, keeping its id. */
    method UpdateAnnouncement(id: int, patch: AnnouncementPatch) returns (r: Option<Announcement>)
      requires Valid()
      modifies this`announcements
      ensures Valid()
      ensures r.Some? <==> id in JsMap.Keys(old(announcements))
      ensures r.None? ==> announcements == old(announcements)
      ensures r.Some? ==> r.value == OverlayAnnouncement(JsMap.Get(old(announcements), id).value, patch)
      ensures r.Some? ==> r.value.id == id && |announcements| == |old(announcements)|
      ensures r.Some? ==> forall i :: 0 <= i < |announcements| ==>
        announcements[i] == if old(announcements)[i].0 == id then (id, OverlayAnnouncement(old(announcements)[i].1, patch)) else old(announcements)[i]
    {
      var existing := JsMap.Get(announcements, id);
      if existing.None? {
        return None;
      }
      var updated := OverlayAnnouncement(existing.value, patch);
      PatchAnnouncementKeeps(announcements, announcementId, id, patch);
      announcements := JsMap.Set(announcements, id, updated);
      r := Some(updated);
    }

    /** True iff the id was present; only that entry goes, the others keep their order. */
    method DeleteAnnouncement(id: int) returns (deleted: bool)
      requires Valid()
      modifies this`announcements
      ensures Valid()
      ensures deleted <==> id in JsMap.Keys(old(announcements))
      ensures !deleted ==> announcements == old(announcements)
      ensures deleted ==> exists i :: 0 <= i < |old(announcements)| && old(announcements)[i].0 == id &&
                                      announcements == old(announcements)[..i] + old(announcements)[i + 1..]
    {
      deleted := id in JsMap.Keys(announcements);
      if deleted {
        var i :| 0 <= i < |announcements| && announcements[i].0 == id;
        JsMap.DeleteAt(announcements, i);
        RemoveAnnouncementKeeps(announcements, announcementId, i);
      } else {
        JsMap.DeleteAbsent(announcements, id);
      }
      announcements := JsMap.Delete(announcements, id);
    }

    // -------------------------------------------------------------------
    // Settings

    /** `Array.from(this.settings.values()).find(s => s.key === key)`: the
        index of the first record with that key, `|settings|` if none. */
    method FindSetting(key: string) returns (i: nat)
      requires Valid()
      ensures i == KeyIndex(settings, key)
      ensures i == |settings| <==> key !in KeyValues()
      ensures i < |settings| ==> KeyValues()[key] == settings[i].1.value
    {
      i := 0;
      while i < |settings| && settings[i].1.key != key
        invariant 0 <= i <= |settings|
        invariant forall j :: 0 <= j < i ==> settings[j].1.key != key
      {
        i := i + 1;
      }
      var values := JsMap.Values(settings);
      SettingTableKeys(settings, settingId);
      if i < |settings| {
        SettingsObjectAt(values, i);
      } else {
        SettingsObjectKeys(values, key);
      }
    }

    /** The setting stored under `key`, if any: its value is exactly what the
        key-value object holds for the key. */
    method GetSetting(key: string) returns (r: Option<Setting>)
      requires Valid()
      ensures r.Some? <==> key in KeyValues()
      ensures r.Some? ==> r.value.key == key && r.value.value == KeyValues()[key]
      ensures r.Some? ==> exists i :: 0 <= i < |settings| && settings[i].1 == r.value
    {
      var i := FindSetting(key);
      r := if i < |settings| then Some(settings[i].1) else None;
    }

    /** Every setting, in insertion order. */
    method GetAllSettings() returns (r: seq<Setting>)
      ensures |r| == |settings|
      ensures forall i :: 0 <= i < |r| ==> r[i] == settings[i].1
    {
      r := JsMap.Values(settings);
    }

    /** Upsert by key, as `SaveInto` describes; the next id moves on only
        when a record is created. */
    method SaveSetting(setting: InsertSetting) returns (r: Setting)
      requires Valid()
      modifies this`settings, this`settingId
      ensures (settings, r) == SaveInto(old(settings), old(settingId), setting)
      ensures r.key == setting.key && r.value == setting.value
      ensures settingId == if KeyIndex(old(settings), setting.key) < |old(settings)| then old(settingId) else old(settingId) + 1
      ensures Valid()
      ensures KeyValues() == old(KeyValues())[setting.key := setting.value]
    {
      SaveIntoSpec(settings, settingId, setting);
      var i := FindSetting(setting.key);
      // `Map.set` on the record's own id replaces it in place; on a new id it appends
      if i < |settings| {
        r := settings[i].1.(value := setting.value);
        settings := settings[i := (settings[i].0, r)];
      } else {
        r := Setting(settingId, setting.key, setting.value);
        settings := settings + [(settingId, r)];
        settingId := settingId + 1;
      }
    }

    // -------------------------------------------------------------------
    // Stream schedules

    /** The first active schedule; None exactly when none is active. */
    method GetActiveStreamSchedule() returns (r: Option<StreamSchedule>)
      ensures r.None? <==> forall i :: 0 <= i < |streamSchedules| ==> !Active(streamSchedules[i].1)
      ensures r.Some? ==> Active(r.value) && r.value == streamSchedules[ActiveIndex(streamSchedules)].1
    {
      var i := 0;
      while i < |streamSchedules| && !Active(streamSchedules[i].1)
        invariant 0 <= i <= |streamSchedules|
        invariant forall j :: 0 <= j < i ==> !Active(streamSchedules[j].1)
      {
        i := i + 1;
      }
      assert i == ActiveIndex(streamSchedules);
      r := if i < |streamSchedules| then Some(streamSchedules[i].1) else None;
    }

    method GetAllStreamSchedules() returns (r: seq<StreamSchedule>)
      ensures |r| == |streamSchedules|
      ensures forall i :: 0 <= i < |r| ==> r[i] == streamSchedules[i].1
    {
      r := JsMap.Values(streamSchedules);
    }

    /** Takes the next id and appends; other schedules, active or not, are untouched. */
    method CreateStreamSchedule(s: InsertStreamSchedule) returns (r: StreamSchedule)
      requires Valid()
      modifies this`streamSchedules, this`scheduleId
      ensures Valid()
      ensures r == StreamSchedule(old(scheduleId), s.title, s.streamType, s.date, s.time, s.isActive)
      ensures r.id !in JsMap.Keys(old(streamSchedules))
      ensures streamSchedules == old(streamSchedules) + [(r.id, r)]
      ensures scheduleId == old(scheduleId) + 1
    {
      var id := scheduleId;
      scheduleId := scheduleId + 1;
      r := StreamSchedule(id, s.title, s.streamType, s.date, s.time, s.isActive);
      JsMap.AppendKeeps(streamSchedules, id, r, 1);
      streamSchedules := JsMap.Set(streamSchedules, id, r);
    }

    method UpdateStreamSchedule(id: int, patch: SchedulePatch) returns (r: Option<StreamSchedule>)
      requires Valid()
      modifies this`streamSchedules
      ensures Valid()
      ensures r.Some? <==> id in JsMap.Keys(old(streamSchedules))
      ensures r.None? ==> streamSchedules == old(streamSchedules)
      ensures r.Some? ==> r.value == OverlaySchedule(JsMap.Get(old(streamSchedules), id).value, patch)
      ensures r.Some? ==> r.value.id == id && |streamSchedules| == |old(streamSchedules)|
      ensures r.Some? ==> forall i :: 0 <= i < |streamSchedules| ==>
        streamSchedules[i] == if old(streamSchedules)[i].0 == id then (id, OverlaySchedule(old(streamSchedules)[i].1, patch)) else old(streamSchedules)[i]
    {
      var existing := JsMap.Get(streamSchedules, id);
      if existing.None? {
        return None;
      }
      var updated := OverlaySchedule(existing.value, patch);
      PatchScheduleKeeps(streamSchedules, scheduleId, id, patch);
      streamSchedules := JsMap.Set(streamSchedules, id, updated);
      r := Some(updated);
    }

    method DeleteStreamSchedule(id: int) returns (deleted: bool)
      requires Valid()
      modifies this`streamSchedules
      ensures Valid()
      ensures deleted <==> id in JsMap.Keys(old(streamSchedules))
      ensures !deleted ==> streamSchedules == old(streamSchedules)
      ensures deleted ==> exists i :: 0 <= i < |old(streamSchedules)| && old(streamSchedules)[i].0 == id &&
                                      streamSchedules == old(streamSchedules)[..i] + old(streamSchedules)[i + 1..]
    {
      deleted := id in JsMap.Keys(streamSchedules);
      if deleted {
        var i :| 0 <= i < |streamSchedules| && streamSchedules[i].0 == id;
        JsMap.DeleteAt(streamSchedules, i);
        RemoveScheduleKeeps(streamSchedules, scheduleId, i);
      } else {
        JsMap.DeleteAbsent(streamSchedules, id);
      }
      streamSchedules := JsMap.Delete(streamSchedules, id);
    }
  }
}
