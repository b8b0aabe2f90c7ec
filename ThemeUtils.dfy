/** client/src/lib/themeUtils.ts: the seasonal theme class on the page
    body, and the stand-alone theme request. */
module ThemeUtils {
  import opened Js
  import opened ClientTypes
  import opened Browser

  /** The five theme classes `applySeasonalTheme` removes. */
  const ThemeClasses: set<string> :=
    {"theme-default", "theme-halloween", "theme-christmas", "theme-spring", "theme-summer"}

  function ThemeClass(theme: string): string {
    "theme-" + theme
  }

  /** ASCII whitespace as the DOM defines it: tab, line feed, form feed,
      carriage return and space. */
  predicate AsciiWhitespace(c: char) {
    c == '\t' || c == '\n' || c == '\U{000C}' || c == '\r' || c == ' '
  }

  /** Whether `classList.add("theme-" + theme)` accepts the token: a class
      token holding ASCII whitespace makes `add` throw (the token is never
      empty, thanks to its prefix). */
  predicate ClassToken(theme: string) {
    forall i :: 0 <= i < |theme| ==> !AsciiWhitespace(theme[i])
  }

  /** The class set after `applySeasonalTheme(theme)`: the five theme
      classes removed, then `theme-<theme>` added, unless the add throws,
      which leaves the removal in place. */
  function AppliedTheme(classes: set<string>, theme: string): set<string> {
    (classes - ThemeClasses) + (if ClassToken(theme) then {ThemeClass(theme)} else {})
  }

  /** The body then carries `theme-<theme>` when the token is accepted,
      and in every case no other of the five; a refused token leaves the
      body stripped of the five and nothing added. */
  lemma AppliedThemeClasses(classes: set<string>, theme: string)
    ensures ClassToken(theme) ==> ThemeClass(theme) in AppliedTheme(classes, theme)
    ensures forall c :: c in ThemeClasses && c != ThemeClass(theme) ==> c !in AppliedTheme(classes, theme)
    ensures !ClassToken(theme) ==> AppliedTheme(classes, theme) == classes - ThemeClasses
  {
  }

  /** The five seasonal theme names are accepted tokens, while a name with
      a space in it is refused. */
  lemma ClassTokenValues(theme: string)
    ensures SeasonalThemeValue(theme) ==> ClassToken(theme)
    ensures !ClassToken("dark blue")
  {
    assert "dark blue"[4] == ' ';
  }

  /** Classes outside the five are kept as they were (apart from the one added). */
  lemma AppliedThemeKeepsOthers(classes: set<string>, theme: string, c: string)
    requires c !in ThemeClasses && c != ThemeClass(theme)
    ensures c in AppliedTheme(classes, theme) <==> c in classes
  {
  }

  /** Each of the five theme names gives one of the five classes. */
  lemma ThemeClassOfValue(theme: string)
    requires SeasonalThemeValue(theme)
    ensures ThemeClass(theme) in ThemeClasses
  {
    if theme == "default" {
      assert ThemeClass(theme) == "theme-default";
    } else if theme == "halloween" {
      assert ThemeClass(theme) == "theme-halloween";
    } else if theme == "christmas" {
      assert ThemeClass(theme) == "theme-christmas";
    } else if theme == "spring" {
      assert ThemeClass(theme) == "theme-spring";
    } else {
      assert ThemeClass(theme) == "theme-summer";
    }
  }

  /** Applying the same theme again changes nothing, and only the last of
      two themes is left showing. */
  lemma AppliedThemeIdempotent(classes: set<string>, a: string, b: string)
    ensures AppliedTheme(AppliedTheme(classes, a), a) == AppliedTheme(classes, a)
    ensures SeasonalThemeValue(a) ==> AppliedTheme(AppliedTheme(classes, a), b) == AppliedTheme(classes, b)
  {
    if SeasonalThemeValue(a) {
      ThemeClassOfValue(a);
    }
  }

  /** `applySeasonalTheme`: remove the five classes, then add one;
      `thrown` reports the exception `add` raises for a token with
      whitespace, after the removal took effect. */
  method ApplySeasonalTheme(page: Page, theme: string) returns (thrown: bool)
    modifies page`bodyClasses
    ensures page.bodyClasses == AppliedTheme(old(page.bodyClasses), theme)
    ensures thrown <==> !ClassToken(theme)
  {
    page.bodyClasses := page.bodyClasses - ThemeClasses;
    if !ClassToken(theme) {
      return true;
    }
    page.bodyClasses := page.bodyClasses + {ThemeClass(theme)};
    return false;
  }

  /** The token this module reads, which is not the key the rest of the
      client stores the token under. */
  const ThemeTokenKey := "auth_token"

  /** `themeData`: the patch's colour when it is truthy, else "#FF6B00";
      dark exactly when `darkMode` is true; radius and variant fixed. */
  function FixedThemeData(p: Patch): (t: ThemeData)
    ensures t.radius == 50 && t.variant == Vibrant
    ensures t.appearance == Dark <==> p.darkMode == Some(true)
    ensures TruthyText(p.primaryColor) ==> t.primary == p.primaryColor.value
    ensures !TruthyText(p.primaryColor) ==> t.primary == "#FF6B00"
  {
    ThemeData(if TruthyText(p.primaryColor) then p.primaryColor.value else "#FF6B00",
              if p.darkMode == Some(true) then Dark else Light, 50, Vibrant)
  }

  /** `updateThemeFile` of this module: false with no token under
      "auth_token"; otherwise the theme request is sent, and only when it
      succeeds is a truthy seasonal theme applied. True is returned after
      a successful request unless applying the theme threw, which the
      catch turns into false. */
  method UpdateThemeFile(page: Page, p: Patch, response: Outcome<()>) returns (ok: bool)
    modifies page`sent, page`bodyClasses
    ensures !TruthyText(StoredText(page.localStorage, ThemeTokenKey)) ==>
      !ok && page.sent == old(page.sent) && page.bodyClasses == old(page.bodyClasses)
    ensures TruthyText(StoredText(page.localStorage, ThemeTokenKey)) ==>
      page.sent == old(page.sent) + [ThemePost(StoredText(page.localStorage, ThemeTokenKey).value, FixedThemeData(p))]
    ensures ok <==> TruthyText(StoredText(page.localStorage, ThemeTokenKey)) && response.Ok?
                    && !(TruthyText(p.seasonalTheme) && !ClassToken(p.seasonalTheme.value))
    ensures TruthyText(StoredText(page.localStorage, ThemeTokenKey)) && response.Ok? && TruthyText(p.seasonalTheme) ==>
      page.bodyClasses == AppliedTheme(old(page.bodyClasses), p.seasonalTheme.value)
    ensures !(TruthyText(StoredText(page.localStorage, ThemeTokenKey)) && response.Ok? && TruthyText(p.seasonalTheme)) ==>
      page.bodyClasses == old(page.bodyClasses)
  {
    var token := StoredText(page.localStorage, ThemeTokenKey);
    if !TruthyText(token) {
      return false;
    }
    page.Send(ThemePost(token.value, FixedThemeData(p)));
    if response.Failed? {
      return false;
    }
    if TruthyText(p.seasonalTheme) {
      var thrown := ApplySeasonalTheme(page, p.seasonalTheme.value);
      if thrown {
        return false;
      }
    }
    return true;
  }
}
