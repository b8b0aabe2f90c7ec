/** client/src/components/admin/AppearanceTab.tsx: the colour picker's
    local colour, the save button's patch, and the one-field patches of the
    theme and layout controls. */
module AppearanceTab {
  import opened Js
  import opened ClientTypes
  import opened Browser

  /** The props the tab reads from the settings. */
  datatype AppearanceProps = AppearanceProps(
    primaryColor: Option<string>,
    seasonalTheme: Option<string>,
    darkMode: bool,
    animationsEnabled: bool,
    showAnnouncements: bool,
    showNextStream: bool,
    showSocials: bool)

  /** The props as the admin tabs pass them. */
  function PropsOf(s: AppSettings): AppearanceProps {
    AppearanceProps(s.primaryColor, s.seasonalTheme, s.darkMode, s.animationsEnabled,
                    s.showAnnouncements, s.showNextStream, s.showSocials)
  }

  /** The six preset colours. */
  const ColorOptions: seq<string> := ["#FF6B00", "#FF3E3E", "#4CAF50", "#2196F3", "#9C27B0", "#607D8B"]

  /** The save button's patch: the picked colour and the other six props as
      they are. */
  function SavePatch(customColor: Option<string>, props: AppearanceProps): Patch {
    Patch(None, None, customColor, None, None, None, Some(props.darkMode), Some(props.animationsEnabled),
          Some(props.showAnnouncements), Some(props.showNextStream), Some(props.showSocials), props.seasonalTheme)
  }

  /** Saving with the colour the settings already hold changes nothing;
      saving a new colour changes the colour alone, and the banner, stream
      and offline fields are never part of the patch. */
  lemma SavePatchEffect(s: AppSettings, color: string)
    ensures Apply(s, SavePatch(s.primaryColor, PropsOf(s))) == s
    ensures Apply(s, SavePatch(Some(color), PropsOf(s))) == s.(primaryColor := Some(color))
    ensures var p := SavePatch(Some(color), PropsOf(s));
      p.bannerText.None? && p.showBanner.None? && p.currentStream.None? && p.autoDetectStream.None? && p.offlineBehavior.None?
  {
  }

  /** The seasonal theme select and the dark mode, animation and three
      layout switches each send a patch of their own field. */
  function SeasonalThemeChanged(value: string): Patch { NoChange.(seasonalTheme := Some(value)) }
  function DarkModeChanged(checked: bool): Patch { NoChange.(darkMode := Some(checked)) }
  function AnimationsChanged(checked: bool): Patch { NoChange.(animationsEnabled := Some(checked)) }
  function ShowAnnouncementsChanged(checked: bool): Patch { NoChange.(showAnnouncements := Some(checked)) }
  function ShowNextStreamChanged(checked: bool): Patch { NoChange.(showNextStream := Some(checked)) }
  function ShowSocialsChanged(checked: bool): Patch { NoChange.(showSocials := Some(checked)) }

  lemma ControlPatchKeys(b: bool, v: string)
    ensures DefinedKeys(SeasonalThemeChanged(v)) == {"seasonalTheme"}
    ensures DefinedKeys(DarkModeChanged(b)) == {"darkMode"}
    ensures DefinedKeys(AnimationsChanged(b)) == {"animationsEnabled"}
    ensures DefinedKeys(ShowAnnouncementsChanged(b)) == {"showAnnouncements"}
    ensures DefinedKeys(ShowNextStreamChanged(b)) == {"showNextStream"}
    ensures DefinedKeys(ShowSocialsChanged(b)) == {"showSocials"}
  {
  }

  /** The tab's state: the colour being picked, the saving flag and the
      last toast shown. */
  class AppearanceEditor {
    var customColor: Option<string>
    var isSaving: bool
    var toast: Option<Toast>

    constructor (props: AppearanceProps)
      ensures customColor == props.primaryColor && !isSaving && toast == None
    {
      customColor := props.primaryColor;
      isSaving := false;
      toast := None;
    }

    /** The effect on a change of `primaryColor`: the picker follows it. */
    method SyncPrimaryColor(props: AppearanceProps)
      modifies this`customColor
      ensures customColor == props.primaryColor
    {
      customColor := props.primaryColor;
    }

    /** `handleColorOptionClick` and the text field: only the local colour
        changes; no patch is sent. */
    method PickColor(color: string)
      modifies this`customColor
      ensures customColor == Some(color)
    {
      customColor := Some(color);
    }

    /** `handleSaveChanges`: the save patch is sent with the picked colour,
        the success toast follows (the change handler returns without
        throwing, so the error toast is never shown), and the tab is not
        saving afterwards. */
    method HandleSaveChanges(props: AppearanceProps) returns (patch: Patch)
      modifies this`isSaving, this`toast
      ensures patch == SavePatch(customColor, props)
      ensures patch.primaryColor == customColor && patch.seasonalTheme == props.seasonalTheme
      ensures toast == Some(Toast("Settings saved", "Appearance settings have been updated.", false))
      ensures !isSaving
    {
      isSaving := true;
      patch := SavePatch(customColor, props);
      toast := Some(Toast("Settings saved", "Appearance settings have been updated.", false));
      isSaving := false;
    }
  }
}
