/**
 * The decisions `ClientSettingsManager` and `ClientSettingsUI` make, as functions
 * of the state they read (Client/Script/ClientSettings.js): the theme toggle's
 * transition table and the dialog's reset-view verdict.
 */
module SettingsLogic {
  import opened Wrappers

  /** The two theme stylesheets `toggleTheme` swaps between. */
  datatype Stylesheet = LightTheme | DarkTheme {
    function Href(): string {
      match this
      case LightTheme => "Client/Style/themeLight.css"
      case DarkTheme => "Client/Style/themeDark.css"
    }
  }

  function SheetFor(dark: bool): (sheet: Stylesheet)
    ensures sheet.DarkTheme? <==> dark
    ensures sheet.Href() == if dark then "Client/Style/themeDark.css" else "Client/Style/themeLight.css"
  {
    if dark then DarkTheme else LightTheme
  }

  /** The theme setting's two fields. */
  datatype Theme = Theme(dark: bool, userSet: bool)

  /**
   * What one `toggleTheme(isDark, manual)` call does: whether it reports a
   * change, the theme afterwards, whether it saved the settings, and the
   * stylesheet it switched to, if any.
   */
  datatype Toggle = Toggle(changed: bool, theme: Theme, saved: bool, sheet: Option<Stylesheet>)

  function ToggleTheme(theme: Theme, isDark: bool, manual: bool): (t: Toggle)
    // Nothing to do when the requested theme is already current.
    ensures isDark == theme.dark ==> t == Toggle(false, theme, false, None)
    // A user toggle adopts the theme, marks it user-set and saves.
    ensures isDark != theme.dark && manual ==>
      t == Toggle(true, Theme(isDark, true), true, Some(SheetFor(isDark)))
    // A system change is ignored once the user has chosen a theme.
    ensures isDark != theme.dark && !manual && theme.userSet ==> t == Toggle(false, theme, false, None)
    // A system change otherwise switches the stylesheet but does not store the new theme.
    ensures isDark != theme.dark && !manual && !theme.userSet ==>
      t == Toggle(true, theme, false, Some(SheetFor(isDark)))
  {
    if isDark == theme.dark then Toggle(false, theme, false, None)
    else if manual then Toggle(true, Theme(isDark, true), true, Some(SheetFor(isDark)))
    else if theme.userSet then Toggle(false, theme, false, None)
    else Toggle(true, theme, false, Some(SheetFor(isDark)))
  }

  /**
   * Invariants of the transition: the stored theme changes only by a user toggle,
   * `userSet` is never cleared, a reported change is exactly a stylesheet switch,
   * and after an applied system change the stylesheet disagrees with the stored theme.
   */
  lemma ToggleThemeInvariants(theme: Theme, isDark: bool, manual: bool)
    ensures var t := ToggleTheme(theme, isDark, manual);
      && (t.theme != theme ==> manual && t.theme == Theme(isDark, true))
      && (theme.userSet ==> t.theme.userSet)
      && (t.changed <==> t.sheet.Some?)
      && (t.saved ==> t.changed)
      && (t.changed && !manual ==> t.sheet == Some(SheetFor(!t.theme.dark)))
  {
  }

  /** A second identical toggle is a no-op. */
  lemma ToggleThemeTwice(theme: Theme, isDark: bool, manual: bool)
    ensures var t := ToggleTheme(theme, isDark, manual);
      manual ==> ToggleTheme(t.theme, isDark, manual) == Toggle(false, t.theme, false, None)
  {
  }

  /** The server configuration fields `parseServerConfig` reads, by truthiness (absent reads as false). */
  datatype ServerConfig = ServerConfig(useThumbnails: bool, extendedMarkerStats: bool)

  /**
   * The settings dialog at the moment Apply is pressed: the dark-mode checkbox,
   * and the two feature checkboxes, `None` when the dialog omitted one because
   * its setting was blocked.
   */
  datatype Dialog = Dialog(darkMode: bool, thumbnails: Option<bool>, extendedStats: Option<bool>)

  /** Whether a checkbox, if shown, disagrees with the current effective value. */
  predicate Differs(checkbox: Option<bool>, current: bool) {
    checkbox.Some? && checkbox.value != current
  }

  /** `shouldResetView` of `#applySettings`, from the effective values before any change. */
  function ShouldResetView(dialog: Dialog, useThumbnails: bool, showExtendedStats: bool): (reset: bool)
    ensures reset ==> dialog.thumbnails.Some? || dialog.extendedStats.Some?
  {
    Differs(dialog.thumbnails, useThumbnails) || Differs(dialog.extendedStats, showExtendedStats)
  }

  /**
   * The view is reset iff a present feature checkbox differs from its effective
   * value; the dark-mode checkbox never matters.
   */
  lemma ShouldResetViewIff(dialog: Dialog, useThumbnails: bool, showExtendedStats: bool, dark: bool)
    ensures ShouldResetView(dialog, useThumbnails, showExtendedStats) <==>
      (dialog.thumbnails.Some? && dialog.thumbnails.value != useThumbnails)
      || (dialog.extendedStats.Some? && dialog.extendedStats.value != showExtendedStats)
    ensures ShouldResetView(dialog.(darkMode := dark), useThumbnails, showExtendedStats)
            == ShouldResetView(dialog, useThumbnails, showExtendedStats)
  {
  }

  /** Unticking thumbnails resets the view; changing only dark mode does not. */
  lemma ShouldResetViewScenarios()
    ensures ShouldResetView(Dialog(false, Some(false), Some(true)), true, true)
    ensures !ShouldResetView(Dialog(true, Some(true), Some(true)), true, true)
  {
    var unticked, darkOnly := Dialog(false, Some(false), Some(true)), Dialog(true, Some(true), Some(true));
    assert Differs(unticked.thumbnails, true);
    assert !Differs(darkOnly.thumbnails, true) && !Differs(darkOnly.extendedStats, true);
  }
}
