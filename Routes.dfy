/** The HTTP handlers of the server (server/routes.ts), each a step on the
    store that answers with a status code. The request's Authorization
    header, route parameter and parsed JSON body are parameters, and so is
    the clock. */
module Routes {
  import opened Js
  import opened Schema
  import JsMap
  import opened ServerStorage

  const OK := 200
  const CREATED := 201
  const NO_CONTENT := 204
  const BAD_REQUEST := 400
  const UNAUTHORIZED := 401
  const NOT_FOUND := 404
  const SERVER_ERROR := 500

  // ---------------------------------------------------------------------
  // authenticateAdmin

  /** `header.split(' ')[1]` for a header that starts with "Bearer ". */
  function BearerToken(header: string): (r: Option<string>)
    ensures r.Some? <==> StartsWith(header, "Bearer ")
  {
    if StartsWith(header, "Bearer ") then
      assert header[6] == header[..7][6] == ' ';
      Some(Split(header, ' ')[1])
    else None
  }

  /** The stored admin password, if the setting exists. */
  function StoredPassword(kv: map<string, string>): Option<string> {
    if "admin_password" in kv then Some(kv["admin_password"]) else None
  }

  /** Whether `authenticateAdmin` lets the request through: the header is
      present and non-empty, starts with "Bearer ", the admin password is
      set, and the second space-separated piece equals it. */
  predicate Authenticate(header: Option<string>, adminPassword: Option<string>) {
    && header.Some? && StringTruthy(header.value)
    && BearerToken(header.value).Some?
    && adminPassword.Some?
    && adminPassword.value == BearerToken(header.value).value
  }

  /** For a password without spaces, "Bearer <p>" is accepted exactly when
      the stored password is `p`. */
  lemma AuthenticateBearer(p: string, adminPassword: Option<string>)
    requires ' ' !in p
    ensures Authenticate(Some("Bearer " + p), adminPassword) <==> adminPassword == Some(p)
  {
    var h := "Bearer " + p;
    assert h == "Bearer" + [' '] + p;
    SplitAtFirst("Bearer", ' ', p);
    SplitWithout(p, ' ');
    assert Split(h, ' ')[1] == p;
    assert StartsWith(h, "Bearer ");
  }

  /** Only the piece up to the next space is compared: "Bearer <p> <q>"
      authenticates as `p`, whatever `q` is. So a stored password that
      contains a space can never be presented. */
  lemma AuthenticateStopsAtSpace(p: string, q: string, adminPassword: Option<string>)
    requires ' ' !in p
    ensures Authenticate(Some("Bearer " + p + " " + q), adminPassword) <==> adminPassword == Some(p)
  {
    var h := "Bearer " + p + " " + q;
    assert h == "Bearer" + [' '] + (p + [' '] + q);
    SplitAtFirst("Bearer", ' ', p + [' '] + q);
    SplitAtFirst(p, ' ', q);
    assert Split(h, ' ')[1] == p;
    assert StartsWith(h, "Bearer ");
  }

  /** A missing header, or one without the "Bearer " prefix, is refused
      whatever the stored password. */
  lemma AuthenticateNeedsBearer(header: Option<string>, adminPassword: Option<string>)
    requires header.None? || !StartsWith(header.value, "Bearer ")
    ensures !Authenticate(header, adminPassword)
  {
  }

  /** The middleware: reads the admin password setting and decides. */
  method Authorize(store: MemStorage, header: Option<string>) returns (ok: bool)
    requires store.Valid()
    ensures ok == Authenticate(header, StoredPassword(store.KeyValues()))
  {
    if header.None? || !StringTruthy(header.value) || !StartsWith(header.value, "Bearer ") {
      return false;
    }
    var password := BearerToken(header.value).value;
    var setting := store.GetSetting("admin_password");
    ok := setting.Some? && setting.value.value == password;
  }

  // ---------------------------------------------------------------------
  // Announcements

  /** GET /api/announcements: every announcement, newest first. */
  method GetAnnouncementsRoute(store: MemStorage) returns (status: int, list: seq<Announcement>)
    ensures status == OK
    ensures list == NewestFirst(JsMap.Values(store.announcements))
    ensures multiset(list) == multiset(JsMap.Values(store.announcements))
    ensures NewestFirstOrder(list)
    ensures forall t :: StampedAt(list, t) == StampedAt(JsMap.Values(store.announcements), t)
  {
    list := store.GetAnnouncements();
    status := OK;
  }

  /** POST /api/announcements: 401 unless authenticated, 400 for a body the
      insert schema refuses (nothing stored), else the record is created
      under the next id with timestamp `now` and 201 is returned. */
  method PostAnnouncementRoute(store: MemStorage, header: Option<string>, body: Body, now: int)
    returns (status: int, created: Option<Announcement>)
    requires store.Valid()
    modifies store`announcements, store`announcementId
    ensures store.Valid()
    ensures !Authenticate(header, StoredPassword(store.KeyValues())) ==> status == UNAUTHORIZED
    ensures Authenticate(header, StoredPassword(store.KeyValues())) && ParseInsertAnnouncement(body).None? ==>
      status == BAD_REQUEST
    ensures status != CREATED ==>
      created.None? && store.announcements == old(store.announcements) && store.announcementId == old(store.announcementId)
    ensures Authenticate(header, StoredPassword(store.KeyValues())) && ParseInsertAnnouncement(body).Some? ==>
      var a := ParseInsertAnnouncement(body).value;
      && status == CREATED
      && created == Some(Announcement(old(store.announcementId), a.title, a.content, a.kind, now))
      && store.announcements == old(store.announcements) + [(created.value.id, created.value)]
  {
    var ok := Authorize(store, header);
    if !ok {
      return UNAUTHORIZED, None;
    }
    var parsed := ParseInsertAnnouncement(body);
    if parsed.None? {
      return BAD_REQUEST, None;
    }
    var a := store.CreateAnnouncement(parsed.value, now);
    return CREATED, Some(a);
  }

  /** DELETE /api/announcements/:id: 401 unless authenticated, 400 when
      parseInt gives NaN, 404 for an absent id (both leave the store as it
      was), else the entry is removed and 204 is returned. */
  method DeleteAnnouncementRoute(store: MemStorage, header: Option<string>, idParam: string) returns (status: int)
    requires store.Valid()
    modifies store`announcements
    ensures store.Valid()
    ensures !Authenticate(header, StoredPassword(store.KeyValues())) ==> status == UNAUTHORIZED
    ensures Authenticate(header, StoredPassword(store.KeyValues())) && ParseInt(idParam).None? ==> status == BAD_REQUEST
    ensures Authenticate(header, StoredPassword(store.KeyValues())) && ParseInt(idParam).Some? ==>
      (status == NOT_FOUND <==> ParseInt(idParam).value !in JsMap.Keys(old(store.announcements))) &&
      (status == NO_CONTENT <==> ParseInt(idParam).value in JsMap.Keys(old(store.announcements)))
    ensures status != NO_CONTENT ==> store.announcements == old(store.announcements)
    ensures status == NO_CONTENT ==>
      exists i :: 0 <= i < |old(store.announcements)| && old(store.announcements)[i].0 == ParseInt(idParam).value &&
                  store.announcements == old(store.announcements)[..i] + old(store.announcements)[i + 1..]
  {
    var ok := Authorize(store, header);
    if !ok {
      return UNAUTHORIZED;
    }
    var id := ParseInt(idParam);
    if id.None? {
      return BAD_REQUEST;
    }
    var deleted := store.DeleteAnnouncement(id.value);
    status := if deleted then NO_CONTENT else NOT_FOUND;
  }

  // ---------------------------------------------------------------------
  // Settings

  /** The one key `acc[key] = value` on a plain object `{}` does not store:
      assigning to `__proto__` calls the setter inherited from
      `Object.prototype`, which ignores a value that is not an object, so a
      string under that key never becomes an own property. */
  const ProtoKey := "__proto__"

  /** `obj[key] = value` on a plain object, for a string value. */
  function AssignOwn(obj: map<string, string>, key: string, value: string): map<string, string> {
    if key == ProtoKey then obj else obj[key := value]
  }

  /** `settings.reduce((acc, s) => { acc[s.key] = s.value; return acc }, {})`. */
  method ReduceSettings(list: seq<Setting>) returns (obj: map<string, string>)
    ensures obj == SettingsObject(list) - {ProtoKey}
  {
    obj := map[];
    var i := 0;
    while i < |list|
      invariant 0 <= i <= |list|
      invariant obj == SettingsObject(list[..i]) - {ProtoKey}
    {
      AssignOwnStep(list, i);
      obj := AssignOwn(obj, list[i].key, list[i].value);
      i := i + 1;
    }
    assert list[..i] == list;
  }

  /** One step of the reduce: assigning the next record to the object
      built so far gives the object of one more record. */
  lemma AssignOwnStep(list: seq<Setting>, i: int)
    requires 0 <= i < |list|
    ensures SettingsObject(list[..i + 1]) - {ProtoKey} ==
      AssignOwn(SettingsObject(list[..i]) - {ProtoKey}, list[i].key, list[i].value)
  {
    assert list[..i + 1][..i] == list[..i];
  }

  /** GET /api/settings: the settings reduced into one plain object. Every
      stored record has an entry with its value, except a record under
      `__proto__`, and nothing else does. That record is still served by
      GET /api/settings/:key. */
  method GetSettingsRoute(store: MemStorage) returns (status: int, obj: map<string, string>)
    requires store.Valid()
    ensures status == OK
    ensures obj == store.KeyValues() - {ProtoKey}
    ensures ProtoKey !in obj
    ensures forall k :: k in obj <==> k != ProtoKey && exists i :: 0 <= i < |store.settings| && store.settings[i].1.key == k
    ensures forall i :: 0 <= i < |store.settings| && store.settings[i].1.key != ProtoKey ==>
      store.settings[i].1.key in obj && obj[store.settings[i].1.key] == store.settings[i].1.value
  {
    var list := store.GetAllSettings();
    assert list == JsMap.Values(store.settings);
    obj := ReduceSettings(list);
    SettingTableKeys(store.settings, store.settingId);
    forall k
      ensures k in obj <==> k != ProtoKey && exists i :: 0 <= i < |store.settings| && store.settings[i].1.key == k
    {
      SettingsObjectKeys(list, k);
    }
    forall i | 0 <= i < |store.settings| && store.settings[i].1.key != ProtoKey
      ensures store.settings[i].1.key in obj && obj[store.settings[i].1.key] == store.settings[i].1.value
    {
      SettingsObjectAt(list, i);
    }
    status := OK;
  }

  /** GET /api/settings/:key: 404 exactly when no record has the key. */
  method GetSettingRoute(store: MemStorage, key: string) returns (status: int, value: Option<string>)
    requires store.Valid()
    ensures status == NOT_FOUND <==> key !in store.KeyValues()
    ensures status != NOT_FOUND ==> status == OK && value == Some(store.KeyValues()[key])
  {
    var setting := store.GetSetting(key);
    if setting.None? {
      return NOT_FOUND, None;
    }
    return OK, Some(setting.value.value);
  }

  /** `Object.entries(body)` with the non-string values dropped, in order. */
  function StringEntries(body: seq<(string, Json)>): (r: seq<(string, string)>)
    ensures |r| <= |body|
  {
    if |body| == 0 then []
    else
      var init := StringEntries(body[..|body| - 1]);
      var last := body[|body| - 1];
      if last.1.JString? then init + [(last.0, last.1.s)] else init
  }

  /** Every kept entry is a string-valued entry of the body. */
  lemma {:induction false} StringEntriesFrom(body: seq<(string, Json)>, j: int)
    requires 0 <= j < |StringEntries(body)|
    ensures exists i :: 0 <= i < |body| && body[i] == (StringEntries(body)[j].0, JString(StringEntries(body)[j].1))
  {
    var init := body[..|body| - 1];
    var e := StringEntries(body)[j];
    if j < |StringEntries(init)| {
      assert StringEntries(init)[j] == e;
      StringEntriesFrom(init, j);
      var i :| 0 <= i < |init| && init[i] == (e.0, JString(e.1));
      assert body[i] == init[i];
    } else {
      assert body[|body| - 1] == (e.0, JString(e.1));
    }
  }

  /** A string-valued entry is kept. */
  lemma {:induction false} StringEntriesKeep(body: seq<(string, Json)>, i: int)
    requires 0 <= i < |body| && body[i].1.JString?
    ensures (body[i].0, body[i].1.s) in StringEntries(body)
  {
    var init := body[..|body| - 1];
    if i < |body| - 1 {
      assert init[i] == body[i];
      StringEntriesKeep(init, i);
    }
  }

  /** The key-value object after saving the entries one after another. */
  function SaveAll(kv: map<string, string>, entries: seq<(string, string)>): map<string, string> {
    if |entries| == 0 then kv
    else SaveAll(kv, entries[..|entries| - 1])[entries[|entries| - 1].0 := entries[|entries| - 1].1]
  }

  /** The last save to a key wins. */
  lemma {:induction false} SaveAllLastWins(kv: map<string, string>, entries: seq<(string, string)>, i: int)
    requires 0 <= i < |entries|
    requires forall j :: i < j < |entries| ==> entries[j].0 != entries[i].0
    ensures entries[i].0 in SaveAll(kv, entries) && SaveAll(kv, entries)[entries[i].0] == entries[i].1
  {
    if i < |entries| - 1 {
      var init := entries[..|entries| - 1];
      assert init[i] == entries[i];
      SaveAllLastWins(kv, init, i);
    }
  }

  lemma SaveAllStep(kv: map<string, string>, entries: seq<(string, string)>, k: string, v: string)
    ensures SaveAll(kv, entries + [(k, v)]) == SaveAll(kv, entries)[k := v]
  {
    assert (entries + [(k, v)])[..|entries|] == entries;
  }

  /** A key no entry names keeps what it had. */
  lemma {:induction false} SaveAllUntouched(kv: map<string, string>, entries: seq<(string, string)>, k: string)
    requires forall j :: 0 <= j < |entries| ==> entries[j].0 != k
    ensures k in SaveAll(kv, entries) <==> k in kv
    ensures k in kv ==> SaveAll(kv, entries)[k] == kv[k]
  {
    if |entries| > 0 {
      SaveAllUntouched(kv, entries[..|entries| - 1], k);
    }
  }

  /** One more body entry adds its pair exactly when its value is a string. */
  lemma StringEntriesStep(body: seq<(string, Json)>, i: int)
    requires 0 <= i < |body|
    ensures StringEntries(body[..i + 1]) ==
      StringEntries(body[..i]) + (if body[i].1.JString? then [(body[i].0, body[i].1.s)] else [])
  {
    assert body[..i + 1][..i] == body[..i];
  }

  /** The next id after saving `key`: unchanged when a record has the key. */
  function NextAfter(m: JsMap.Entries<Setting>, next: int, key: string): int {
    if KeyIndex(m, key) < |m| then next else next + 1
  }

  /** The settings map, the next id and the records `saveSetting` returns,
      after upserting the entries one after another. */
  function SaveEntries(m: JsMap.Entries<Setting>, next: int, entries: seq<(string, string)>)
    : (JsMap.Entries<Setting>, int, seq<Setting>)
  {
    if |entries| == 0 then (m, next, [])
    else
      var (m1, n1, rs) := SaveEntries(m, next, entries[..|entries| - 1]);
      var e := entries[|entries| - 1];
      var (m2, r) := SaveInto(m1, n1, InsertSetting(e.0, e.1));
      (m2, NextAfter(m1, n1, e.0), rs + [r])
  }

  lemma SaveEntriesStep(m: JsMap.Entries<Setting>, next: int, entries: seq<(string, string)>, k: string, v: string)
    ensures var t := SaveEntries(m, next, entries); var u := SaveInto(t.0, t.1, InsertSetting(k, v));
      SaveEntries(m, next, entries + [(k, v)]) == (u.0, NextAfter(t.0, t.1, k), t.2 + [u.1])
  {
    assert (entries + [(k, v)])[..|entries|] == entries;
  }

  /** One upsert keeps the table valid under the next id it leaves, and
      keeps every earlier record's place, id and key. */
  lemma SaveIntoKeeps(m: JsMap.Entries<Setting>, next: int, s: InsertSetting)
    requires SettingTable(m, next) && next >= 1
    ensures var m' := SaveInto(m, next, s).0;
      && SettingTable(m', NextAfter(m, next, s.key))
      && |m| <= |m'|
      && forall i :: 0 <= i < |m| ==> m'[i].0 == m[i].0 && m'[i].1.key == m[i].1.key
  {
    var k := KeyIndex(m, s.key);
    if k < |m| {
      ReplaceSettingKeeps(m, next, k, s.value);
    } else {
      AppendSettingKeeps(m, next, s.key, s.value);
    }
  }

  /** Upserting a run of entries keeps the table valid; every record that
      was there keeps its place, id and key (only values change), and the
      counter never goes back. */
  lemma {:induction false} SaveEntriesTable(m: JsMap.Entries<Setting>, next: int, entries: seq<(string, string)>)
    requires SettingTable(m, next) && next >= 1
    ensures var t := SaveEntries(m, next, entries);
      && SettingTable(t.0, t.1) && next <= t.1 <= next + |entries|
      && |m| <= |t.0|
      && forall i :: 0 <= i < |m| ==> t.0[i].0 == m[i].0 && t.0[i].1.key == m[i].1.key
  {
    if |entries| > 0 {
      var init := entries[..|entries| - 1];
      var e := entries[|entries| - 1];
      SaveEntriesTable(m, next, init);
      var t1 := SaveEntries(m, next, init);
      SaveIntoKeeps(t1.0, t1.1, InsertSetting(e.0, e.1));
    }
  }

  /** ... the key-value view becomes `SaveAll` of the entries ... */
  lemma {:induction false} SaveEntriesView(m: JsMap.Entries<Setting>, next: int, entries: seq<(string, string)>)
    requires SettingTable(m, next) && next >= 1
    ensures SettingsObject(JsMap.Values(SaveEntries(m, next, entries).0)) == SaveAll(SettingsObject(JsMap.Values(m)), entries)
  {
    if |entries| > 0 {
      var init := entries[..|entries| - 1];
      var e := entries[|entries| - 1];
      SaveEntriesView(m, next, init);
      SaveEntriesTable(m, next, init);
      var t1 := SaveEntries(m, next, init);
      assert SaveEntries(m, next, entries).0 == SaveInto(t1.0, t1.1, InsertSetting(e.0, e.1)).0;
      SaveIntoSpec(t1.0, t1.1, InsertSetting(e.0, e.1));
    }
  }

  /** ... and the returned records carry the entries' keys and values, in order. */
  lemma {:induction false} SaveEntriesPairs(m: JsMap.Entries<Setting>, next: int, entries: seq<(string, string)>)
    ensures Pairs(SaveEntries(m, next, entries).2) == entries
  {
    if |entries| > 0 {
      var init := entries[..|entries| - 1];
      var e := entries[|entries| - 1];
      SaveEntriesPairs(m, next, init);
      var t1 := SaveEntries(m, next, init);
      var r := SaveInto(t1.0, t1.1, InsertSetting(e.0, e.1)).1;
      assert SaveEntries(m, next, entries).2 == t1.2 + [r];
      assert r.key == e.0 && r.value == e.1;
      assert Pairs(t1.2 + [r]) == Pairs(t1.2) + [(r.key, r.value)];
      assert entries == init + [e];
    }
  }

  /** One upsert: the store changes exactly as `SaveInto` says, and the
      key-value view gets that key set. */
  method SaveString(store: MemStorage, key: string, value: string) returns (r: Setting)
    requires store.Valid()
    modifies store`settings, store`settingId
    ensures store.Valid()
    ensures (store.settings, r) == SaveInto(old(store.settings), old(store.settingId), InsertSetting(key, value))
    ensures store.settingId == NextAfter(old(store.settings), old(store.settingId), key)
    ensures r.key == key && r.value == value
    ensures store.KeyValues() == old(store.KeyValues())[key := value]
  {
    r := store.SaveSetting(InsertSetting(key, value));
  }

  /** The key-value pairs of a list of records. */
  function Pairs(list: seq<Setting>): (r: seq<(string, string)>)
    ensures |r| == |list|
    ensures forall j :: 0 <= j < |list| ==> r[j] == (list[j].key, list[j].value)
  {
    if |list| == 0 then [] else Pairs(list[..|list| - 1]) + [(list[|list| - 1].key, list[|list| - 1].value)]
  }

  /** POST /api/settings: 401 unless authenticated; otherwise each
      string-valued entry of the body is upserted in order, other values are
      skipped, and the saved records are returned in that order. `body` is
      `Object.entries(req.body)`, taken as given: one entry per key, the
      integer-like keys first in ascending order, then the other keys in the
      order the parsed object first received them. */
  method PostSettingsRoute(store: MemStorage, header: Option<string>, body: seq<(string, Json)>)
    returns (status: int, saved: seq<Setting>)
    requires store.Valid()
    modifies store`settings, store`settingId
    ensures store.Valid()
    ensures !Authenticate(header, StoredPassword(old(store.KeyValues()))) ==>
      status == UNAUTHORIZED && saved == [] && store.settings == old(store.settings) && store.settingId == old(store.settingId)
    ensures Authenticate(header, StoredPassword(old(store.KeyValues()))) ==>
      && status == OK
      && (store.settings, store.settingId, saved) == SaveEntries(old(store.settings), old(store.settingId), StringEntries(body))
      && store.KeyValues() == SaveAll(old(store.KeyValues()), StringEntries(body))
      && Pairs(saved) == StringEntries(body)
  {
    var ok := Authorize(store, header);
    if !ok {
      return UNAUTHORIZED, [];
    }
    saved := SaveStringEntries(store, body);
    SaveEntriesView(old(store.settings), old(store.settingId), StringEntries(body));
    SaveEntriesPairs(old(store.settings), old(store.settingId), StringEntries(body));
    status := OK;
  }

  /** The string entries among the body's first `n` entries. */
  function StringEntriesTo(body: seq<(string, Json)>, n: nat): seq<(string, string)>
    requires n <= |body|
  {
    if n == 0 then []
    else StringEntriesTo(body, n - 1) + (if body[n - 1].1.JString? then [(body[n - 1].0, body[n - 1].1.s)] else [])
  }

  lemma {:induction false} StringEntriesPrefix(body: seq<(string, Json)>, n: nat)
    requires n <= |body|
    ensures StringEntriesTo(body, n) == StringEntries(body[..n])
  {
    if n > 0 {
      StringEntriesPrefix(body, n - 1);
      StringEntriesStep(body, n - 1);
    }
  }

  /** The handler's loop: each entry of `Object.entries(req.body)` whose
      value is a string is upserted in turn and the saved record pushed onto
      `updatedSettings`; other values are skipped. */
  method SaveStringEntries(store: MemStorage, body: seq<(string, Json)>) returns (saved: seq<Setting>)
    requires store.Valid()
    modifies store`settings, store`settingId
    ensures store.Valid()
    ensures (store.settings, store.settingId, saved) == SaveEntries(old(store.settings), old(store.settingId), StringEntries(body))
  {
    ghost var m0, n0 := store.settings, store.settingId;
    ghost var done: seq<(string, string)> := [];
    saved := [];
    var i := 0;
    while i < |body|
      invariant 0 <= i <= |body|
      invariant store.Valid()
      invariant done == StringEntriesTo(body, i)
      invariant (store.settings, store.settingId, saved) == SaveEntries(m0, n0, done)
    {
      var key, value := body[i].0, body[i].1;
      if value.JString? {
        SaveEntriesStep(m0, n0, done, key, value.s);
        var setting := SaveString(store, key, value.s);
        saved := saved + [setting];
        done := done + [(key, value.s)];
      }
      i := i + 1;
    }
    StringEntriesPrefix(body, |body|);
    assert body[..|body|] == body;
  }

  // ---------------------------------------------------------------------
  // Schedule

  /** GET /api/schedule: 404 exactly when no schedule is active, else the
      first active one. */
  method GetScheduleRoute(store: MemStorage) returns (status: int, schedule: Option<StreamSchedule>)
    ensures status == NOT_FOUND <==> forall i :: 0 <= i < |store.streamSchedules| ==> !Active(store.streamSchedules[i].1)
    ensures status != NOT_FOUND ==>
      && status == OK && schedule.Some? && Active(schedule.value)
      && schedule.value == store.streamSchedules[ActiveIndex(store.streamSchedules)].1
  {
    schedule := store.GetActiveStreamSchedule();
    status := if schedule.None? then NOT_FOUND else OK;
  }

  /** `{ isActive: false }`. */
  const Deactivate := SchedulePatch(None, None, None, None, Some(false))

  /** The schedules after the first active one, if any, is switched off in
      place; the other entries and their order are kept. */
  function Deactivated(m: JsMap.Entries<StreamSchedule>): (r: JsMap.Entries<StreamSchedule>)
    ensures |r| == |m|
    ensures forall i :: 0 <= i < |m| && i != ActiveIndex(m) ==> r[i] == m[i]
    ensures ActiveIndex(m) < |m| ==>
      r[ActiveIndex(m)] == (m[ActiveIndex(m)].0, m[ActiveIndex(m)].1.(isActive := Some(false)))
  {
    var k := ActiveIndex(m);
    if k < |m| then m[k := (m[k].0, OverlaySchedule(m[k].1, Deactivate))] else m
  }

  /** With at most one schedule active, none is active once it is switched off. */
  lemma DeactivatedNoneActive(m: JsMap.Entries<StreamSchedule>)
    requires AtMostOneActive(m)
    ensures forall i :: 0 <= i < |m| ==> !Active(Deactivated(m)[i].1)
  {
  }

  /** Updating the first active schedule by its id with `Deactivate` is
      `Deactivated`: ids are distinct, so only that entry matches. */
  lemma UpdateIsDeactivated(before: JsMap.Entries<StreamSchedule>, after: JsMap.Entries<StreamSchedule>, id: int)
    requires JsMap.Increasing(before)
    requires ActiveIndex(before) < |before| && before[ActiveIndex(before)].0 == id
    requires |after| == |before|
    requires forall i :: 0 <= i < |after| ==>
      after[i] == if before[i].0 == id then (id, OverlaySchedule(before[i].1, Deactivate)) else before[i]
    ensures after == Deactivated(before)
  {
    var k := ActiveIndex(before);
    forall i | 0 <= i < |before|
      ensures after[i] == Deactivated(before)[i]
    {
      if i != k {
        assert before[i].0 != id by {
          if i < k { assert before[i].0 < before[k].0; } else { assert before[k].0 < before[i].0; }
        }
      }
    }
  }

  /** Appending an active schedule under a fresh id to a list with none
      active leaves exactly that one active. */
  lemma AppendOnlyActive(m: JsMap.Entries<StreamSchedule>, s: StreamSchedule)
    requires forall i :: 0 <= i < |m| ==> !Active(m[i].1) && m[i].0 != s.id
    requires Active(s)
    ensures OnlyActive(m + [(s.id, s)], s.id)
  {
    var r := m + [(s.id, s)];
    assert r[|m|].0 == s.id;
    assert forall i :: 0 <= i < |m| ==> r[i] == m[i];
  }

  /** POST /api/schedule: 401 unless authenticated, 400 for a body the
      schema refuses (store unchanged). Otherwise the first active schedule,
      if any, is switched off, and the new schedule is appended with
      `isActive` forced true. If at most one schedule was active before,
      the new one is the only active schedule after. */
  method PostScheduleRoute(store: MemStorage, header: Option<string>, body: Body)
    returns (status: int, created: Option<StreamSchedule>)
    requires store.Valid()
    modifies store`streamSchedules, store`scheduleId
    ensures store.Valid()
    ensures !Authenticate(header, StoredPassword(store.KeyValues())) ==> status == UNAUTHORIZED
    ensures Authenticate(header, StoredPassword(store.KeyValues())) && ParseInsertStreamSchedule(body).None? ==>
      status == BAD_REQUEST
    ensures status != CREATED ==>
      created.None? && store.streamSchedules == old(store.streamSchedules) && store.scheduleId == old(store.scheduleId)
    ensures Authenticate(header, StoredPassword(store.KeyValues())) && ParseInsertStreamSchedule(body).Some? ==>
      var s := ParseInsertStreamSchedule(body).value;
      && status == CREATED
      && created == Some(StreamSchedule(old(store.scheduleId), s.title, s.streamType, s.date, s.time, Some(true)))
      && store.scheduleId == old(store.scheduleId) + 1
    ensures status == CREATED ==>
      created.Some? && store.streamSchedules == Deactivated(old(store.streamSchedules)) + [(created.value.id, created.value)]
    ensures status == CREATED && AtMostOneActive(old(store.streamSchedules)) ==>
      OnlyActive(store.streamSchedules, created.value.id)
  {
    var ok := Authorize(store, header);
    if !ok {
      return UNAUTHORIZED, None;
    }
    var parsed := ParseInsertStreamSchedule(body);
    if parsed.None? {
      return BAD_REQUEST, None;
    }
    var p := parsed.value;
    var s := SwitchActive(store, InsertStreamSchedule(p.title, p.streamType, p.date, p.time, Some(true)));
    created := Some(s);
    status := CREATED;
  }

  /** The accepted branch of POST /api/schedule: switch the first active
      schedule off, then append the new one. */
  method SwitchActive(store: MemStorage, insert: InsertStreamSchedule) returns (s: StreamSchedule)
    requires store.Valid()
    modifies store`streamSchedules, store`scheduleId
    ensures store.Valid()
    ensures s == StreamSchedule(old(store.scheduleId), insert.title, insert.streamType, insert.date, insert.time, insert.isActive)
    ensures store.scheduleId == old(store.scheduleId) + 1
    ensures store.streamSchedules == Deactivated(old(store.streamSchedules)) + [(s.id, s)]
    ensures Active(s) && AtMostOneActive(old(store.streamSchedules)) ==> OnlyActive(store.streamSchedules, s.id)
  {
    ghost var before := store.streamSchedules;
    var active := store.GetActiveStreamSchedule();
    if active.Some? {
      var _ := store.UpdateStreamSchedule(active.value.id, Deactivate);
      UpdateIsDeactivated(before, store.streamSchedules, active.value.id);
    }
    ghost var middle := store.streamSchedules;
    assert middle == Deactivated(before);
    s := store.CreateStreamSchedule(insert);
    if Active(s) && AtMostOneActive(before) {
      DeactivatedNoneActive(before);
      assert forall i :: 0 <= i < |middle| ==> middle[i].0 < s.id;
      AppendOnlyActive(middle, s);
    }
  }

  // ---------------------------------------------------------------------
  // Auth verify

  /** POST /api/auth/verify: 400 for a falsy password, 500 when no admin
      password is stored, else 200 with `valid` exactly when the stored
      password equals the one sent (strict equality, so only a string can
      match). The store is not changed. */
  method VerifyRoute(store: MemStorage, password: Option<Json>) returns (status: int, valid: bool)
    requires store.Valid()
    ensures !Truthy(password) ==> status == BAD_REQUEST && !valid
    ensures Truthy(password) && StoredPassword(store.KeyValues()).None? ==> status == SERVER_ERROR && !valid
    ensures Truthy(password) && StoredPassword(store.KeyValues()).Some? ==>
      status == OK && (valid <==> password == Some(JString(StoredPassword(store.KeyValues()).value)))
  {
    if !Truthy(password) {
      return BAD_REQUEST, false;
    }
    var setting := store.GetSetting("admin_password");
    if setting.None? {
      return SERVER_ERROR, false;
    }
    return OK, password == Some(JString(setting.value.value));
  }
}
