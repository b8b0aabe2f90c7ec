/** The settings round trip between the client and the server: the object
    `saveSettingsToAPI` posts, what POST /api/settings makes of it, and what
    the next `fetchSettings` decodes from GET /api/settings. */
module SettingsSync {
  import opened Js
  import opened Schema
  import opened ClientTypes
  import opened ClientStorage
  import Routes

  /** `JSON.stringify` of the client's string object, as the server's parsed
      body: every value a JSON string. */
  function JsonBody(pairs: seq<(string, string)>): (r: seq<(string, Json)>)
    ensures |r| == |pairs|
    ensures forall i :: 0 <= i < |pairs| ==> r[i] == (pairs[i].0, JString(pairs[i].1))
  {
    if |pairs| == 0 then [] else JsonBody(pairs[..|pairs| - 1]) + [(pairs[|pairs| - 1].0, JString(pairs[|pairs| - 1].1))]
  }

  /** The server keeps every entry the client posts, in order. */
  lemma {:induction false} StringEntriesOfJsonBody(pairs: seq<(string, string)>)
    ensures Routes.StringEntries(JsonBody(pairs)) == pairs
  {
    if |pairs| > 0 {
      var n := |pairs| - 1;
      StringEntriesOfJsonBody(pairs[..n]);
      assert JsonBody(pairs)[..n] == JsonBody(pairs[..n]);
      assert pairs == pairs[..n] + [pairs[n]];
    }
  }

  /** Saving pairs one after another over `kv` gives the object built from
      the pairs wherever it has the key, and `kv` elsewhere. */
  lemma {:induction false} SaveAllLookup(kv: map<string, string>, pairs: seq<(string, string)>, key: string)
    ensures Lookup(Routes.SaveAll(kv, pairs), key) ==
      if key in PairsToMap(pairs) then Some(PairsToMap(pairs)[key]) else Lookup(kv, key)
  {
    if |pairs| > 0 {
      SaveAllLookup(kv, pairs[..|pairs| - 1], key);
    }
  }

  /** The server's value under a client key after the post: the patch's
      text when the patch has the property, the old value otherwise. */
  lemma PostedLookup(kv: map<string, string>, p: Patch, k: SettingKey)
    requires k != AdminPassword
    ensures Lookup(Routes.SaveAll(kv, EncodePatch(p)), KeyName(k)) == PickOptional(FieldText(p, k), Lookup(kv, KeyName(k)))
  {
    SaveAllLookup(kv, EncodePatch(p), KeyName(k));
    EncodePatchLookup(p, k);
  }

  lemma PostedStrings(kv: map<string, string>, p: Patch)
    ensures var d := DecodeSettings(Routes.SaveAll(kv, EncodePatch(p)));
      && d.bannerText == PickOptional(p.bannerText, DecodeSettings(kv).bannerText)
      && d.primaryColor == PickOptional(p.primaryColor, DecodeSettings(kv).primaryColor)
      && d.currentStream == PickOptional(p.currentStream, DecodeSettings(kv).currentStream)
      && d.offlineBehavior == PickOptional(p.offlineBehavior, DecodeSettings(kv).offlineBehavior)
      && d.seasonalTheme == PickOptional(p.seasonalTheme, DecodeSettings(kv).seasonalTheme)
  {
    PostedLookup(kv, p, BannerText);
    PostedLookup(kv, p, PrimaryColor);
    PostedLookup(kv, p, CurrentStream);
    PostedLookup(kv, p, OfflineBehavior);
    PostedLookup(kv, p, SeasonalTheme);
  }

  /** A boolean read back from the server is the patch's when it has one. */
  lemma PostedFlag(kv: map<string, string>, p: Patch, k: SettingKey, v: Option<bool>)
    requires k != AdminPassword && FieldText(p, k) == BoolText(v)
    ensures (Lookup(Routes.SaveAll(kv, EncodePatch(p)), KeyName(k)) == Some("true")) ==
      Pick(v, Lookup(kv, KeyName(k)) == Some("true"))
  {
    PostedLookup(kv, p, k);
    if v.Some? {
      BoolStringRoundTrip(v.value);
    }
  }

  lemma PostedFlags(kv: map<string, string>, p: Patch)
    ensures var d := DecodeSettings(Routes.SaveAll(kv, EncodePatch(p)));
      && d.showBanner == Pick(p.showBanner, DecodeSettings(kv).showBanner)
      && d.autoDetectStream == Pick(p.autoDetectStream, DecodeSettings(kv).autoDetectStream)
      && d.darkMode == Pick(p.darkMode, DecodeSettings(kv).darkMode)
      && d.animationsEnabled == Pick(p.animationsEnabled, DecodeSettings(kv).animationsEnabled)
  {
    PostedFlag(kv, p, ShowBanner, p.showBanner);
    PostedFlag(kv, p, AutoDetectStream, p.autoDetectStream);
    PostedFlag(kv, p, DarkMode, p.darkMode);
    PostedFlag(kv, p, AnimationsEnabled, p.animationsEnabled);
  }

  /** The same for the flags that show or hide the page's sections. */
  lemma PostedSectionFlags(kv: map<string, string>, p: Patch)
    ensures var d := DecodeSettings(Routes.SaveAll(kv, EncodePatch(p)));
      && d.showAnnouncements == Pick(p.showAnnouncements, DecodeSettings(kv).showAnnouncements)
      && d.showNextStream == Pick(p.showNextStream, DecodeSettings(kv).showNextStream)
      && d.showSocials == Pick(p.showSocials, DecodeSettings(kv).showSocials)
  {
    PostedFlag(kv, p, ShowAnnouncements, p.showAnnouncements);
    PostedFlag(kv, p, ShowNextStream, p.showNextStream);
    PostedFlag(kv, p, ShowSocials, p.showSocials);
  }

  /** Removing a key other than `key` does not change what is found under it. */
  lemma LookupWithout(kv: map<string, string>, drop: string, key: string)
    requires key != drop
    ensures Lookup(kv - {drop}, key) == Lookup(kv, key)
  {
  }

  /** GET /api/settings leaves out a `__proto__` record; no setting key is
      that name, so the client decodes the same settings. */
  lemma DecodeServedObject(kv: map<string, string>)
    ensures DecodeSettings(kv - {Routes.ProtoKey}) == DecodeSettings(kv)
  {
    var p := Routes.ProtoKey;
    LookupWithout(kv, p, KeyName(BannerText));
    LookupWithout(kv, p, KeyName(ShowBanner));
    LookupWithout(kv, p, KeyName(PrimaryColor));
    LookupWithout(kv, p, KeyName(CurrentStream));
    LookupWithout(kv, p, KeyName(AutoDetectStream));
    LookupWithout(kv, p, KeyName(OfflineBehavior));
    LookupWithout(kv, p, KeyName(DarkMode));
    LookupWithout(kv, p, KeyName(AnimationsEnabled));
    LookupWithout(kv, p, KeyName(ShowAnnouncements));
    LookupWithout(kv, p, KeyName(ShowNextStream));
    LookupWithout(kv, p, KeyName(ShowSocials));
    LookupWithout(kv, p, KeyName(SeasonalTheme));
  }

  /** After the server stores a posted patch, the client's next fetch
      decodes the settings it decoded before, overlaid by the patch: the
      post and the fetch agree with the client's own spread. The last
      clause is about the object GET /api/settings actually serves. */
  lemma FetchAfterPost(kv: map<string, string>, p: Patch)
    ensures Routes.StringEntries(JsonBody(EncodePatch(p))) == EncodePatch(p)
    ensures DecodeSettings(Routes.SaveAll(kv, EncodePatch(p))) == Apply(DecodeSettings(kv), p)
    ensures DecodeSettings(Routes.SaveAll(kv, EncodePatch(p)) - {Routes.ProtoKey}) ==
      Apply(DecodeSettings(kv - {Routes.ProtoKey}), p)
  {
    StringEntriesOfJsonBody(EncodePatch(p));
    PostedStrings(kv, p);
    PostedFlags(kv, p);
    PostedSectionFlags(kv, p);
    DecodeServedObject(kv);
    DecodeServedObject(Routes.SaveAll(kv, EncodePatch(p)));
  }

  /** A post never changes the stored admin password. */
  lemma PostKeepsPassword(kv: map<string, string>, p: Patch)
    ensures Lookup(Routes.SaveAll(kv, EncodePatch(p)), KeyName(AdminPassword)) == Lookup(kv, KeyName(AdminPassword))
  {
    SaveAllLookup(kv, EncodePatch(p), KeyName(AdminPassword));
    EncodeOmitsAdminPassword(p);
  }
}
