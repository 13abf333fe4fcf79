/**
 * The stateful part of Client/Script/ClientSettings.js: the setting objects,
 * `ClientSettings` with its storage slot, the manager that owns the theme and
 * the server blocks, and the dialog's Apply action.
 */
module Settings {
  import opened Wrappers
  import opened SettingsStore
  import opened SettingsLogic

  /** `ThemeSetting`: whether the theme is dark and whether the user chose it. */
  class ThemeSetting {
    var dark: bool
    var userSet: bool

    constructor (dark: bool, userSet: bool)
      ensures this.dark == dark && this.userSet == userSet
    {
      this.dark := dark;
      this.userSet := userSet;
    }

    function Value(): Theme
      reads this
    {
      Theme(dark, userSet)
    }
  }

  /**
   * `BlockableSetting` (and its two subclasses, which only add their storage key):
   * a user preference that the server can block for the rest of the session.
   */
  class BlockableSetting {
    /** `#enabled`: the user's preference. */
    var enabled: bool
    /** `#blocked`: set once the server reports the feature off; never cleared. */
    var blocked: bool

    constructor (enabled: bool)
      ensures this.enabled == enabled && !blocked
    {
      this.enabled := enabled;
      this.blocked := false;
    }

    /** `enable(enabled)`: ignored once blocked. */
    method Enable(enabled: bool)
      modifies this
      ensures blocked == old(blocked)
      ensures old(blocked) ==> this.enabled == old(this.enabled)
      ensures !old(blocked) ==> this.enabled == enabled
      ensures old(blocked) ==> Enabled() == old(Enabled()) && !Enabled()
    {
      if !blocked {
        this.enabled := enabled;
      }
    }

    /** `enabled()`: the effective value. */
    function Enabled(): (r: bool)
      reads this
      ensures blocked ==> !r
      ensures !blocked ==> r == enabled
    {
      enabled && !blocked
    }

    /**
     * `enabledIgnoringBlock()`: the stored preference, what gets saved. It is the
     * effective value as long as the setting is not blocked.
     */
    function EnabledIgnoringBlock(): (r: bool)
      reads this
      ensures !blocked ==> (r <==> Enabled())
      ensures blocked ==> r == enabled
    {
      enabled
    }

    /** `blocked()`: a blocked setting is never effectively on, whatever its preference. */
    function Blocked(): (r: bool)
      reads this
      ensures r == blocked
      ensures r ==> !Enabled()
    {
      blocked
    }

    /** `block()`: one-way and idempotent; the preference is kept. */
    method Block()
      modifies this
      ensures blocked && enabled == old(enabled)
      ensures !Enabled()
    {
      blocked := true;
    }
  }

  /** `ClientSettings`: the three settings and the storage slot they are saved to. */
  class ClientSettings {
    const theme: ThemeSetting
    const previewThumbnails: BlockableSetting
    const extendedMarkerStats: BlockableSetting
    /** What local storage holds under the key "plexIntro_settings". */
    var storage: StoredItem

    ghost predicate Valid()
      reads this
    {
      previewThumbnails != extendedMarkerStats
    }

    /** The theme and the two raw preferences, as `#serialize` reads them. */
    function Record(): SettingsRecord
      reads this, theme, previewThumbnails, extendedMarkerStats
    {
      SettingsRecord(theme.dark, theme.userSet,
                     previewThumbnails.EnabledIgnoringBlock(), extendedMarkerStats.EnabledIgnoringBlock())
    }

    /** Reads the storage slot, defaulting field by field; nothing starts blocked. */
    constructor (stored: StoredItem)
      ensures Valid() && fresh(theme) && fresh(previewThumbnails) && fresh(extendedMarkerStats)
      ensures Record() == Load(stored)
      ensures !previewThumbnails.blocked && !extendedMarkerStats.blocked
      ensures storage == stored
    {
      var s := Load(stored);
      theme := new ThemeSetting(s.dark, s.userSet);
      previewThumbnails := new BlockableSetting(s.useThumbnails);
      extendedMarkerStats := new BlockableSetting(s.extendedMarkerStats);
      storage := stored;
    }

    /** `save()`: writes the serialised record to the storage slot. */
    method Save()
      modifies this`storage
      ensures storage == Parsed(Serialize(Record()))
    {
      storage := Parsed(Serialize(Record()));
    }
  }

  /** `ClientSettingsManager`: owns the settings, the theme stylesheet and the page's theme toggle. */
  class ClientSettingsManager {
    const settings: ClientSettings
    /** The stylesheet the `#themeStyle` link points at. */
    var stylesheet: Stylesheet
    /** Whether the page's dark-mode toggle (`#checkbox`) is checked. */
    var toggleChecked: bool

    /** The page toggle shows the stored theme. */
    ghost predicate Valid()
      reads this, settings, settings.theme
    {
      settings.Valid() && toggleChecked == settings.theme.dark
    }

    /**
     * Loads the settings; a theme the user never chose follows the system
     * preference. The closing `toggleTheme(isDarkTheme(), …)` asks for the
     * current theme and so changes nothing.
     */
    constructor (stored: StoredItem, systemPrefersDark: bool)
      ensures Valid() && fresh(settings) && fresh(settings.theme)
      ensures fresh(settings.previewThumbnails) && fresh(settings.extendedMarkerStats)
      ensures var s := Load(stored);
        && settings.theme.dark == (if s.userSet then s.dark else systemPrefersDark)
        && settings.theme.userSet == s.userSet
        && settings.previewThumbnails.enabled == s.useThumbnails
        && settings.extendedMarkerStats.enabled == s.extendedMarkerStats
      ensures !settings.previewThumbnails.blocked && !settings.extendedMarkerStats.blocked
      ensures settings.storage == stored
      ensures stylesheet == SheetFor(settings.theme.dark)
    {
      var s := new ClientSettings(stored);
      if !s.theme.userSet {
        s.theme.dark := systemPrefersDark;
      }
      settings := s;
      stylesheet := SheetFor(s.theme.dark);
      toggleChecked := s.theme.dark;
    }

    /**
     * `isDarkTheme()`: the page toggle shows it, and asking `toggleTheme` for it
     * (as the constructor's closing call does) changes nothing.
     */
    function IsDarkTheme(): (r: bool)
      reads this, settings, settings.theme
      ensures Valid() ==> (r <==> toggleChecked)
      ensures !SettingsLogic.ToggleTheme(settings.theme.Value(), r, true).changed
    {
      settings.theme.dark
    }

    /** `isThemeUserSet()`: exactly when a system theme change would be ignored. */
    function IsThemeUserSet(): (r: bool)
      reads settings.theme
      ensures r <==> !SettingsLogic.ToggleTheme(settings.theme.Value(), !settings.theme.dark, false).changed
    {
      settings.theme.userSet
    }

    /** `useThumbnails()`: the effective value, never true while blocked, the preference otherwise. */
    function UseThumbnails(): (r: bool)
      reads settings.previewThumbnails
      ensures r ==> !ThumbnailsBlockedByServer()
      ensures !ThumbnailsBlockedByServer() ==> (r <==> settings.previewThumbnails.enabled)
    {
      settings.previewThumbnails.Enabled()
    }

    /** `thumbnailsBlockedByServer()`: when false, the effective value is the saved preference. */
    function ThumbnailsBlockedByServer(): (r: bool)
      reads settings.previewThumbnails
      ensures r == settings.previewThumbnails.blocked
      ensures r ==> !settings.previewThumbnails.Enabled()
      ensures !r ==> (settings.previewThumbnails.Enabled() <==> settings.previewThumbnails.enabled)
    {
      settings.previewThumbnails.Blocked()
    }

    /** `showExtendedMarkerInfo()`: the effective value, never true while blocked, the preference otherwise. */
    function ShowExtendedMarkerInfo(): (r: bool)
      reads settings.extendedMarkerStats
      ensures r ==> !ExtendedMarkerStatsBlocked()
      ensures !ExtendedMarkerStatsBlocked() ==> (r <==> settings.extendedMarkerStats.enabled)
    {
      settings.extendedMarkerStats.Enabled()
    }

    /** `extendedMarkerStatsBlocked()`: when false, the effective value is the saved preference. */
    function ExtendedMarkerStatsBlocked(): (r: bool)
      reads settings.extendedMarkerStats
      ensures r == settings.extendedMarkerStats.blocked
      ensures r ==> !settings.extendedMarkerStats.Enabled()
      ensures !r ==> (settings.extendedMarkerStats.Enabled() <==> settings.extendedMarkerStats.enabled)
    {
      settings.extendedMarkerStats.Blocked()
    }

    method SetThumbnails(useThumbnails: bool)
      modifies settings.previewThumbnails
      ensures settings.previewThumbnails.blocked == old(settings.previewThumbnails.blocked)
      ensures settings.previewThumbnails.enabled ==
        if old(settings.previewThumbnails.blocked) then old(settings.previewThumbnails.enabled)
        else useThumbnails
    {
      settings.previewThumbnails.Enable(useThumbnails);
    }

    method SetExtendedStats(showStats: bool)
      modifies settings.extendedMarkerStats
      ensures settings.extendedMarkerStats.blocked == old(settings.extendedMarkerStats.blocked)
      ensures settings.extendedMarkerStats.enabled ==
        if old(settings.extendedMarkerStats.blocked) then old(settings.extendedMarkerStats.enabled)
        else showStats
    {
      settings.extendedMarkerStats.Enable(showStats);
    }

    method Save()
      modifies settings`storage
      ensures settings.storage == Parsed(Serialize(settings.Record()))
    {
      settings.Save();
    }

    /** `toggleTheme(isDark, manual)`, following the `ToggleTheme` transition. */
    method ToggleTheme(isDark: bool, manual: bool) returns (changed: bool)
      modifies settings.theme, settings`storage, this`stylesheet
      ensures var t := SettingsLogic.ToggleTheme(old(settings.theme.Value()), isDark, manual);
        && changed == t.changed
        && settings.theme.Value() == t.theme
        && settings.storage == (if t.saved then Parsed(Serialize(settings.Record())) else old(settings.storage))
        && stylesheet == t.sheet.GetOr(old(stylesheet))
    {
      if isDark == IsDarkTheme() {
        return false;
      }
      if manual {
        settings.theme.dark := isDark;
        settings.theme.userSet := true;
        settings.Save();
      } else if settings.theme.userSet {
        return false;
      }
      stylesheet := SheetFor(isDark);
      changed := true;
    }

    /** A click on the page's theme toggle: it flips, and its change handler toggles the theme manually. */
    method ClickThemeToggle()
      requires Valid()
      modifies this`toggleChecked, settings.theme, settings`storage, this`stylesheet
      ensures Valid()
      ensures settings.theme.Value() == Theme(!old(settings.theme.dark), true)
      ensures settings.storage == Parsed(Serialize(settings.Record()))
      ensures stylesheet == SheetFor(settings.theme.dark)
    {
      toggleChecked := !toggleChecked;
      var _ := ToggleTheme(toggleChecked, true);
    }

    /**
     * `parseServerConfig(serverConfig)`: blocks each setting whose server flag is
     * off and leaves the other's block state and both preferences as they were.
     */
    method ParseServerConfig(config: ServerConfig)
      requires settings.Valid()
      modifies settings.previewThumbnails, settings.extendedMarkerStats
      ensures settings.previewThumbnails.blocked ==
        (old(settings.previewThumbnails.blocked) || !config.useThumbnails)
      ensures settings.extendedMarkerStats.blocked ==
        (old(settings.extendedMarkerStats.blocked) || !config.extendedMarkerStats)
      ensures settings.previewThumbnails.enabled == old(settings.previewThumbnails.enabled)
      ensures settings.extendedMarkerStats.enabled == old(settings.extendedMarkerStats.enabled)
    {
      if !config.useThumbnails {
        settings.previewThumbnails.Block();
      }
      if !config.extendedMarkerStats {
        settings.extendedMarkerStats.Block();
      }
    }
  }

  /** `ClientSettingsUI`: the settings dialog of one manager. */
  class ClientSettingsUI {
    const manager: ClientSettingsManager

    constructor (manager: ClientSettingsManager)
      ensures this.manager == manager
    {
      this.manager := manager;
    }

    /**
     * `#applySettings`: a changed dark-mode box clicks the page toggle, each shown
     * feature box is written through the manager, everything is saved, and the
     * result is what the callback receives.
     */
    method ApplySettings(dialog: Dialog) returns (shouldResetView: bool)
      requires manager.Valid()
      modifies manager`toggleChecked, manager`stylesheet, manager.settings`storage, manager.settings.theme
      modifies manager.settings.previewThumbnails, manager.settings.extendedMarkerStats
      ensures manager.Valid()
      ensures shouldResetView == ShouldResetView(
        dialog, old(manager.settings.previewThumbnails.Enabled()), old(manager.settings.extendedMarkerStats.Enabled()))
      ensures manager.settings.theme.dark == dialog.darkMode
      ensures manager.settings.theme.userSet ==
        (old(manager.settings.theme.userSet) || dialog.darkMode != old(manager.settings.theme.dark))
      ensures manager.stylesheet ==
        if dialog.darkMode == old(manager.settings.theme.dark) then old(manager.stylesheet)
        else SheetFor(dialog.darkMode)
      ensures var pt := manager.settings.previewThumbnails;
        pt.blocked == old(pt.blocked)
        && pt.enabled == if dialog.thumbnails.Some? && !old(pt.blocked) then dialog.thumbnails.value
                         else old(pt.enabled)
      ensures var ems := manager.settings.extendedMarkerStats;
        ems.blocked == old(ems.blocked)
        && ems.enabled == if dialog.extendedStats.Some? && !old(ems.blocked) then dialog.extendedStats.value
                          else old(ems.enabled)
      ensures manager.settings.storage == Parsed(Serialize(manager.settings.Record()))
    {
      var settings := manager.settings;
      var pt, ems := settings.previewThumbnails, settings.extendedMarkerStats;
      var reset := false;
      if dialog.darkMode != settings.theme.dark {
        manager.ClickThemeToggle();
      }
      if dialog.thumbnails.Some? {
        var current := pt.Enabled();
        reset := reset || dialog.thumbnails.value != current;
        manager.SetThumbnails(dialog.thumbnails.value);
      }
      if dialog.extendedStats.Some? {
        var current := ems.Enabled();
        reset := reset || dialog.extendedStats.value != current;
        manager.SetExtendedStats(dialog.extendedStats.value);
      }
      manager.Save();
      shouldResetView := reset;
    }
  }
}
