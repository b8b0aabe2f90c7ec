/** client/src/pages/admin.tsx: the admin page's state. It decides whether
    the login form or the tabs are shown, holds the settings the tabs edit,
    and saves each edit optimistically. */
module AdminPage {
  import opened Js
  import opened ClientTypes
  import opened Browser
  import ClientStorage

  /** What the page renders. */
  datatype Screen = Spinner | Login | Tabs | LoadFailed

  class AdminView {
    var isAuthenticated: bool
    var settings: Option<AppSettings>
    var loading: bool
    var location: string

    constructor (location: string)
      ensures !isAuthenticated && settings == None && loading && this.location == location
    {
      isAuthenticated := false;
      settings := None;
      loading := true;
      this.location := location;
    }

    /** The branch the page renders: the spinner while loading, then the
        login form until authenticated, then the tabs once settings exist. */
    function CurrentScreen(): Screen
      reads this
    {
      if loading then Spinner
      else if !isAuthenticated then Login
      else if settings.Some? then Tabs
      else LoadFailed
    }

    /** The mount effect: authenticated exactly when a truthy token is
        stored; the settings are fetched (falling back to the cache, since
        `fetchSettings` never throws), so they are always present after it. */
    method Mount(page: Page, response: Outcome<map<string, string>>)
      modifies this`isAuthenticated, this`settings, this`loading, page`localStorage
      ensures isAuthenticated <==> TruthyText(ClientStorage.AuthToken(old(page.localStorage)))
      ensures response.Ok? ==> settings == Some(ClientStorage.DecodeSettings(response.value))
      ensures response.Failed? ==> settings == Some(ClientStorage.CachedSettings(old(page.localStorage)))
      ensures response.Ok? ==>
        page.localStorage == old(page.localStorage)[ClientStorage.SettingsCacheKey := SettingsJson(Persisted(ClientStorage.DecodeSettings(response.value)))]
      ensures response.Failed? ==> page.localStorage == old(page.localStorage)
      ensures !loading && CurrentScreen() != LoadFailed
      ensures CurrentScreen() == Tabs <==> isAuthenticated
    {
      isAuthenticated := TruthyText(ClientStorage.AuthToken(page.localStorage));
      var fetched := ClientStorage.FetchSettings(page, response);
      settings := Some(fetched);
      loading := false;
    }

    /** `handleLoginSuccess`. */
    method HandleLoginSuccess()
      modifies this`isAuthenticated
      ensures isAuthenticated
      ensures !loading && settings.Some? ==> CurrentScreen() == Tabs
    {
      isAuthenticated := true;
    }

    /** `handleLogout`: back to the login state, and to the home page. */
    method HandleLogout()
      modifies this`isAuthenticated, this`location
      ensures !isAuthenticated && location == "/"
      ensures !loading ==> CurrentScreen() == Login
    {
      isAuthenticated := false;
      location := "/";
    }

    /** `handleSettingsChange(p)`. Nothing happens before the settings are
        loaded. Otherwise the page's settings become the old ones overlaid
        by the patch before the save is tried, and stay so whatever the
        save answers; the save itself is `saveSettingsToAPI(p)`. */
    method HandleSettingsChange(page: Page, p: Patch, response: Outcome<()>)
      modifies this`settings, page`localStorage, page`sent, page`bodyClasses
      ensures old(settings).None? ==>
        settings == None && page.localStorage == old(page.localStorage) && page.sent == old(page.sent) && page.bodyClasses == old(page.bodyClasses)
      ensures old(settings).Some? ==> settings == Some(Apply(old(settings).value, p))
      ensures old(settings).Some? && TruthyText(ClientStorage.AuthToken(old(page.localStorage))) ==>
        && page.localStorage == ClientStorage.SavedStorage(old(page.localStorage), p)
        && page.bodyClasses == ClientStorage.ThemeClassesAfter(page.localStorage, p, old(page.bodyClasses))
        && page.sent == old(page.sent) + [SettingsPost(ClientStorage.AuthToken(old(page.localStorage)).value, ClientStorage.EncodePatch(p))]
                        + ClientStorage.ThemeRequests(page.localStorage, p)
                        + (if p.primaryColor.Some? || p.seasonalTheme.Some? || p.darkMode.Some? then ClientStorage.ThemeRequests(page.localStorage, p) else [])
      ensures old(settings).Some? && TruthyText(ClientStorage.AuthToken(old(page.localStorage))) ==>
        ClientStorage.CachedSettings(page.localStorage) == Apply(ClientStorage.CachedSettings(old(page.localStorage)), p)
      ensures old(settings).Some? && !TruthyText(ClientStorage.AuthToken(old(page.localStorage))) ==>
        page.localStorage == old(page.localStorage) && page.sent == old(page.sent) && page.bodyClasses == old(page.bodyClasses)
      ensures old(settings) == Some(ClientStorage.CachedSettings(old(page.localStorage))) && TruthyText(ClientStorage.AuthToken(old(page.localStorage))) ==>
        settings == Some(ClientStorage.CachedSettings(page.localStorage))
    {
      if settings.None? {
        return;
      }
      settings := Some(Apply(settings.value, p));
      var _ := ClientStorage.SaveSettingsToApi(page, p, response);
    }
  }
}
