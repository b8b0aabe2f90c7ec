/** client/src/components/admin/AdminTabs.tsx: the logout button and the
    patches the dashboard's quick actions, the banner editor and the
    display toggles send. Each patch is built from the settings shown. */
module AdminTabs {
  import opened Js
  import opened ClientTypes
  import opened Browser
  import ClientStorage
  import AdminPage

  /** `handleLogout`: the stored token is cleared first, then the page is told. */
  method HandleLogout(page: Page, admin: AdminPage.AdminView)
    modifies page`localStorage, admin`isAuthenticated, admin`location
    ensures page.localStorage == old(page.localStorage) - {ClientStorage.AuthTokenKey}
    ensures ClientStorage.AuthToken(page.localStorage) == None
    ensures !admin.isAuthenticated && admin.location == "/"
  {
    ClientStorage.ClearAuthToken(page);
    admin.HandleLogout();
  }

  /** The quick actions: show or hide the banner, toggle auto-detect,
      switch the stream, toggle dark mode. */
  function ToggleBanner(s: AppSettings): Patch { NoChange.(showBanner := Some(!s.showBanner)) }
  function ToggleAutoDetect(s: AppSettings): Patch { NoChange.(autoDetectStream := Some(!s.autoDetectStream)) }
  function ToggleDarkMode(s: AppSettings): Patch { NoChange.(darkMode := Some(!s.darkMode)) }

  /** Switch Stream: rennsz goes to rennszino, anything else to rennsz. */
  function SwitchStream(s: AppSettings): Patch {
    NoChange.(currentStream := Some(if s.currentStream == Some("rennsz") then "rennszino" else "rennsz"))
  }

  /** The display toggles of the community tab. */
  function ToggleSocials(s: AppSettings): Patch { NoChange.(showSocials := Some(!s.showSocials)) }
  function ToggleAnnouncements(s: AppSettings): Patch { NoChange.(showAnnouncements := Some(!s.showAnnouncements)) }
  function ToggleNextStream(s: AppSettings): Patch { NoChange.(showNextStream := Some(!s.showNextStream)) }

  /** The banner editor's `onBannerChange(text, show)`: one patch with both fields. */
  function BannerChanged(text: string, show: bool): Patch {
    NoChange.(bannerText := Some(text), showBanner := Some(show))
  }

  /** Each quick action negates its own flag and keeps every other field,
      so pressing it again restores the settings. */
  lemma QuickActionsToggle(s: AppSettings)
    ensures Apply(s, ToggleBanner(s)) == s.(showBanner := !s.showBanner)
    ensures Apply(s, ToggleAutoDetect(s)) == s.(autoDetectStream := !s.autoDetectStream)
    ensures Apply(s, ToggleDarkMode(s)) == s.(darkMode := !s.darkMode)
  {
  }

  lemma QuickActionsTwice(s: AppSettings)
    ensures var t := Apply(s, ToggleBanner(s)); Apply(t, ToggleBanner(t)) == s
    ensures var t := Apply(s, ToggleAutoDetect(s)); Apply(t, ToggleAutoDetect(t)) == s
    ensures var t := Apply(s, ToggleDarkMode(s)); Apply(t, ToggleDarkMode(t)) == s
  {
    QuickActionsToggle(s);
    QuickActionsToggle(Apply(s, ToggleBanner(s)));
    QuickActionsToggle(Apply(s, ToggleAutoDetect(s)));
    QuickActionsToggle(Apply(s, ToggleDarkMode(s)));
  }

  /** The display toggles behave the same way. */
  lemma DisplayToggles(s: AppSettings)
    ensures Apply(s, ToggleSocials(s)) == s.(showSocials := !s.showSocials)
    ensures Apply(s, ToggleAnnouncements(s)) == s.(showAnnouncements := !s.showAnnouncements)
    ensures Apply(s, ToggleNextStream(s)) == s.(showNextStream := !s.showNextStream)
    ensures var t := Apply(s, ToggleSocials(s)); Apply(t, ToggleSocials(t)) == s
  {
  }

  /** Every quick action and toggle is a one-field patch; the banner patch
      has exactly its two fields. */
  lemma ActionPatchKeys(s: AppSettings, text: string, show: bool)
    ensures DefinedKeys(ToggleBanner(s)) == {"showBanner"}
    ensures DefinedKeys(ToggleAutoDetect(s)) == {"autoDetectStream"}
    ensures DefinedKeys(ToggleDarkMode(s)) == {"darkMode"}
    ensures DefinedKeys(SwitchStream(s)) == {"currentStream"}
    ensures DefinedKeys(ToggleSocials(s)) == {"showSocials"}
    ensures DefinedKeys(ToggleAnnouncements(s)) == {"showAnnouncements"}
    ensures DefinedKeys(ToggleNextStream(s)) == {"showNextStream"}
    ensures DefinedKeys(BannerChanged(text, show)) == {"bannerText", "showBanner"}
  {
  }

  /** Switch Stream always lands on one of the two channels, the other one
      from rennsz; from any value but rennsz ("none" included) it lands on
      rennsz, so two presses from a channel return to it. */
  lemma SwitchStreamTargets(s: AppSettings)
    ensures var v := SwitchStream(s).currentStream.value;
      FindChannel(StreamChannels, v).Some?
    ensures s.currentStream == Some("rennsz") ==> SwitchStream(s).currentStream == Some("rennszino")
    ensures s.currentStream != Some("rennsz") ==> SwitchStream(s).currentStream == Some("rennsz")
    ensures s.currentStream == Some("none") ==> SwitchStream(s).currentStream == Some("rennsz")
  {
    StreamChannelsShape();
  }

  lemma SwitchStreamTwice(s: AppSettings)
    ensures s.currentStream == Some("rennsz") || s.currentStream == Some("rennszino") ==>
      var t := Apply(s, SwitchStream(s)); Apply(t, SwitchStream(t)) == s
  {
  }
}
