# Client settings and formatting helpers of Plex Intro Editor, in Dafny

This project models two pieces of the Plex Intro Editor web client and proves properties of them.

**The settings layer (`Client/Script/ClientSettings.js`).** A user has three settings: the theme
(dark or light, and whether the user chose it or it follows the system), preview thumbnails and
extended marker statistics. The last two are *blockable*. The server can switch them off for the
session. After that, the effective value is false whatever the user's stored preference is, and
nothing unblocks them. The settings live in one record in local storage. It is read with
per-field defaults and written back by `save()`. The manager holds a small theme state machine
that reconciles user toggles with system theme changes. The settings dialog's Apply action
decides whether the caller must reset its view.

- `SettingsStore` (`settings_store.dfy`): the stored record as a map from keys to values, the
  constructor's defaulting (`Load`), and `#serialize` (`Serialize`).
- `SettingsLogic` (`settings_logic.dfy`): the `toggleTheme` transition table as a function, the
  server configuration, and the `shouldResetView` decision.
- `Settings` (`settings.dfy`): the classes whose fields the source updates in place.
  `BlockableSetting`, `ThemeSetting`, `ClientSettings` (with its storage slot),
  `ClientSettingsManager` and `ClientSettingsUI`. `ClientSettings.constructor`, both `Save`
  methods, `ClientSettingsManager.ToggleTheme` and `ClientSettingsUI.ApplySettings` are proved
  against the functions above (`Load`, `Serialize`, `ToggleTheme`, `ShouldResetView`).
  `BlockableSetting.Enable`, `BlockableSetting.Block`, the setters and
  `ClientSettingsManager.ParseServerConfig` state their new fields directly.

Two behaviours are modelled as the code is written:

- `#serialize` reads `settingsKey` through an instance, but it is a static field. The lookup
  gives `undefined`, so both preferences are written under the key `"undefined"` and the second
  write replaces the first. On the next load neither `useThumbnails` nor `extendedMarkerStats`
  is present, so both come back as their default, true. `LoadAfterSave` and
  `SaveLoadRoundTripIff` state exactly what survives a save and load.
- A system theme change on a theme the user never chose switches the stylesheet and reports a
  change. It does not store the new theme in `theme.dark`. `ToggleTheme` and
  `ToggleThemeInvariants` state it.

**The helpers of `Client/Script/Common.js`.** `pad0`, `plural`, `msToHms` and `errorMessage`
are in `Format` (`format.dfy`) and `Request` (`request.dfy`). So is the branch of `jsonRequest`
that decides between the success callback, the failure callback or log, and the "server paused"
overlay. Number-to-text conversion is modelled by `NatToString`/`IntToString`. It comes with a
parser, and round-trip lemmas prove that the rendered text reads back to the same value.
`MsToHmsRoundTrip` proves that the exact-division `MsToHms` loses nothing. The source's
`msToHms`, modelled as `MsToHmsAsWritten`, differs from it at 1 to 3 ms (see Findings).

`Wrappers` (`wrappers.dfy`) holds the `Option` type.

Storage, the server configuration, the system theme preference and the dialog's checkboxes
are inputs: a `StoredItem`, a `ServerConfig`, a boolean and a `Dialog`. A checkbox the dialog
omitted because its setting was blocked is `None`.

## Model

| member | source | states |
|---|---|---|
| `Format.Zeros` | Client/Script/Common.js:204 | `'0'.repeat(n)` has length n and every character is '0' |
| `Format.NatToString` | Client/Script/Common.js:203 | the decimal text of a number is non-empty, all digits, has no leading zero, and has 1, at most 2 or at most 3 digits below 10, 100 and 1000 |
| `Format.NatToStringRoundTrip` | Client/Script/Common.js:203 | reading the decimal text back gives the number |
| `Format.IntToString` | Client/Script/Common.js:195 | `${n}` is non-empty and starts with '-' exactly when n is negative |
| `Format.IntToStringRoundTrip` | Client/Script/Common.js:195 | reading `${n}` back gives n |
| `Format.LeadingZerosIgnored` | Client/Script/Common.js:204 | prefixing zeros keeps a decimal text's value |
| `Format.Pad0` | Client/Script/Common.js:202-205 | the result's length is the larger of pad and the length of val; it ends with val, everything before val is '0', and it is val itself when val is at least pad long |
| `Format.Pad0KeepsValue` | Client/Script/Common.js:202-205 | zero-padding a number's text keeps its value |
| `Format.Plural` | Client/Script/Common.js:194-196 | the result is "n text" followed by one more character, 's', exactly when n != 1 |
| `Format.PluralCountReadsBack` | Client/Script/Common.js:195 | the text before the space reads back as n |
| `Format.MinutesFromSeconds` | Client/Script/Common.js:211-213 | whole minutes of ms are whole seconds divided by 60 |
| `Format.HoursFromMinutes` | Client/Script/Common.js:211-213 | whole hours of ms are whole minutes divided by 60 |
| `Format.TimeText` | Client/Script/Common.js:216 | the `mm:ss.mmm` part is 9 characters long while minutes and seconds are below 60 and thousandths below 1000 |
| `Format.FormatHms` | Client/Script/Common.js:216-220 | with no hours the text is the `mm:ss.mmm` part alone; with hours it is longer by at least the hour digit and its ':' |
| `Format.HmsOf` | Client/Script/Common.js:210-215 | minutes and seconds are below 60, thousandths below 1000, and hours*3600000 + minutes*60000 + seconds*1000 + thousandths == ms |
| `Format.TimeTextShape` | Client/Script/Common.js:216 | `mm:ss.mmm` is 9 characters with ':' and '.' in place, and its 2-, 2- and 3-digit fields read back to minutes, seconds and thousandths |
| `Format.FormatHmsShape` | Client/Script/Common.js:216-220 | the hour segment and its ':' are present exactly when hours > 0, and it reads back to the hours |
| `Format.MsToHms` | Client/Script/Common.js:210-223 | the text ends in the `mm:ss.mmm` shape and is longer than 9 characters exactly when ms reaches one hour |
| `Format.MsToHmsRoundTrip` | Client/Script/Common.js:210-223 | parsing the text gives back ms |
| `Format.LeadingDigit` | Client/Script/Common.js:212 | `parseInt` of a number printed in exponent notation reads one leading digit, 1 to 9 |
| `Format.ParseIntOfQuotient` | Client/Script/Common.js:212-214 | `parseInt(num / den)` is the integer quotient from 1e-6 on, and a single digit 1..9 for positive quotients below 1e-6 |
| `Format.HmsAsWritten` | Client/Script/Common.js:210-215 | the source's fields: minutes and seconds below 60, and at least one hour for 1..3 ms |
| `Format.MsToHmsAsWritten` | Client/Script/Common.js:210-223 | the source's text carries an hour segment for 1..3 ms |
| `Format.HmsAsWrittenAgrees` | Client/Script/Common.js:210-223 | for ms = 0 and ms >= 4 the source's fields and text equal the exact ones |
| `Format.MsToHmsAsWrittenAtOneMs` | Client/Script/Common.js:212 | at 1 ms the source prints "2:00:00.001" where the exact division gives "00:00.001" |
| `Request.ExceptionText` | Client/Script/Common.js:183 | an exception's text is "name: message", dropping an empty part |
| `Request.ErrorMessage` | Client/Script/Common.js:169-187 | a set `Error` field is returned as is; a value without one gets the generic apology; an exception gives its text, plus the "server may have exited" hint exactly for `TypeError: Failed to fetch` |
| `Request.FailedToFetchGetsHint` | Client/Script/Common.js:178-181 | the failed-fetch message is the exception text followed by the hint, so it differs from the bare text |
| `Request.Classify` | Client/Script/Common.js:27-48 | success iff the body is truthy with no `Error`; suspended iff `Error` is "Server is suspended"; otherwise failure, which reaches the `catch` exactly for a rejection or a `null` body |
| `Request.HandleAsWritten` | Client/Script/Common.js:27-55 | as written, the request ends in an uncaught error exactly when a failure reaches the `catch` and there is no failure callback |
| `Request.NullBodyWithoutFailureFuncThrows` | Client/Script/Common.js:49-54 | a `null` body or a rejection with no failure callback ends in the uncaught error |
| `Request.Handle` | Client/Script/Common.js:27-55 | exactly one of success callback, failure callback or log, and paused overlay, chosen by the outcome and by whether a failure callback was given |
| `Request.HandleAgreesOutsideCatch` | Client/Script/Common.js:39-54 | the source and the corrected handler agree whenever a failure callback exists or the failure did not reach the `catch` |
| `SettingsStore.RecordOf` | Client/Script/ClientSettings.js:81-89 | a missing or unparsable item is read as the empty record |
| `SettingsStore.ValueOrDefault` | Client/Script/ClientSettings.js:121-127 | a present key is read verbatim, a missing key gives the default |
| `SettingsStore.ThemeField` | Client/Script/ClientSettings.js:91-94 | a theme field present in the theme object is read verbatim; otherwise, or when the theme is not an object, it is false |
| `SettingsStore.Load` | Client/Script/ClientSettings.js:80-96 | a missing or unparsable item gives dark=false, userSet=false, thumbnails=true, extended stats=true; each flag present is read, each flag missing is true; no theme means light and not user-set; a theme that is present gives each theme field as `ThemeField` reads it (its own value, or false when missing or when the theme is a boolean) |
| `SettingsStore.LoadBooleanTheme` | Client/Script/ClientSettings.js:91-94 | a boolean `theme` loads as light and not user-set, whatever the boolean |
| `SettingsStore.LoadFieldByField` | Client/Script/ClientSettings.js:91-94 | each theme field is defaulted on its own |
| `SettingsStore.LoadPartialRecord` | Client/Script/ClientSettings.js:80-96 | `{theme: {dark: true, userSet: true}, useThumbnails: false}` loads as dark, user-set, no thumbnails, stats on |
| `SettingsStore.PropertyKey` | Client/Script/ClientSettings.js:110-111 | a key that is present is used as the property name; an `undefined` key becomes the name "undefined" |
| `SettingsStore.Serialize` | Client/Script/ClientSettings.js:105-113 | the written record has exactly the keys "theme" and "undefined"; "theme" holds the theme, "undefined" holds the stats preference, and neither setting's own key is written |
| `SettingsStore.LoadAfterSave` | Client/Script/ClientSettings.js:105-111 | loading what was saved keeps the theme and turns both preferences into true |
| `SettingsStore.SaveLoadRoundTripIff` | Client/Script/ClientSettings.js:105-111 | save then load gives back the settings exactly when both preferences are on |
| `SettingsLogic.SheetFor` | Client/Script/ClientSettings.js:384-388 | the dark stylesheet is chosen exactly for a dark theme, and its `href` is "Client/Style/themeDark.css" (otherwise "Client/Style/themeLight.css") |
| `SettingsLogic.ToggleTheme` | Client/Script/ClientSettings.js:370-392 | same theme: no change, nothing saved; manual: adopt it, mark user-set, save, swap the stylesheet; system change on a user-set theme: ignored; system change otherwise: swap the stylesheet and report a change without storing the theme |
| `SettingsLogic.ToggleThemeInvariants` | Client/Script/ClientSettings.js:370-392 | the stored theme changes only by a manual toggle, `userSet` is never cleared, a reported change is exactly a stylesheet swap, saving implies a change, and after an applied system change the stylesheet disagrees with the stored theme |
| `SettingsLogic.ToggleThemeTwice` | Client/Script/ClientSettings.js:370-378 | repeating a manual toggle is a no-op |
| `SettingsLogic.ShouldResetView` | Client/Script/ClientSettings.js:236-254 | a reset needs a feature checkbox to be present |
| `SettingsLogic.ShouldResetViewIff` | Client/Script/ClientSettings.js:237-254 | reset iff a present thumbnails or extended-stats checkbox differs from the effective value; the dark-mode checkbox never changes the verdict |
| `SettingsLogic.ShouldResetViewScenarios` | Client/Script/ClientSettings.js:236-254 | unticking thumbnails resets the view; changing only dark mode does not |
| `Settings.ThemeSetting.constructor` | Client/Script/ClientSettings.js:15-18 | holds the given dark and userSet |
| `Settings.BlockableSetting.constructor` | Client/Script/ClientSettings.js:45-47 | holds the given preference, unblocked |
| `Settings.BlockableSetting.Enable` | Client/Script/ClientSettings.js:31 | on a blocked setting nothing changes and the effective value stays false; otherwise the preference becomes the argument; the block is untouched |
| `Settings.BlockableSetting.Enabled` | Client/Script/ClientSettings.js:34 | the effective value is the preference and not blocked |
| `Settings.BlockableSetting.EnabledIgnoringBlock` | Client/Script/ClientSettings.js:37 | the stored preference, kept even while the setting is blocked, and equal to the effective value while it is not |
| `Settings.BlockableSetting.Blocked` | Client/Script/ClientSettings.js:40 | the block flag, and a blocked setting is never effectively on |
| `Settings.BlockableSetting.Block` | Client/Script/ClientSettings.js:43 | afterwards blocked, effective value false, preference kept (so a second call changes nothing) |
| `Settings.ClientSettings.constructor` | Client/Script/ClientSettings.js:80-97 | the settings are `Load` of the stored item, nothing blocked, storage untouched |
| `Settings.ClientSettings.Save` | Client/Script/ClientSettings.js:100-102 | storage holds the serialised raw settings |
| `Settings.ClientSettingsManager.constructor` | Client/Script/ClientSettings.js:287-314 | loaded settings, with a theme the user did not choose following the system preference; stylesheet and page toggle match the theme |
| `Settings.ClientSettingsManager.IsDarkTheme` | Client/Script/ClientSettings.js:317 | the page toggle shows the result, and asking `toggleTheme` for it changes nothing |
| `Settings.ClientSettingsManager.IsThemeUserSet` | Client/Script/ClientSettings.js:322 | true exactly when a system theme change would be ignored |
| `Settings.ClientSettingsManager.ThumbnailsBlockedByServer` | Client/Script/ClientSettings.js:328 | the thumbnails setting's block flag; when blocked, thumbnails are effectively off; otherwise the effective value is the saved preference |
| `Settings.ClientSettingsManager.UseThumbnails` | Client/Script/ClientSettings.js:325 | never true while thumbnails are blocked; otherwise the saved preference |
| `Settings.ClientSettingsManager.ShowExtendedMarkerInfo` | Client/Script/ClientSettings.js:340 | never true while extended stats are blocked; otherwise the saved preference |
| `Settings.ClientSettingsManager.ExtendedMarkerStatsBlocked` | Client/Script/ClientSettings.js:343 | the extended-stats setting's block flag; when blocked, extended stats are effectively off; otherwise the effective value is the saved preference |
| `Settings.ClientSettingsManager.SetThumbnails` | Client/Script/ClientSettings.js:335-337 | the preference changes only when not blocked |
| `Settings.ClientSettingsManager.SetExtendedStats` | Client/Script/ClientSettings.js:350-352 | the preference changes only when not blocked |
| `Settings.ClientSettingsManager.Save` | Client/Script/ClientSettings.js:355-357 | storage holds the serialised raw settings |
| `Settings.ClientSettingsManager.ToggleTheme` | Client/Script/ClientSettings.js:370-392 | result, theme, storage and stylesheet are those of the `ToggleTheme` transition |
| `Settings.ClientSettingsManager.ClickThemeToggle` | Client/Script/ClientSettings.js:302 | a click on the page toggle flips the theme, marks it user-set, saves, and keeps the toggle in step with the theme |
| `Settings.ClientSettingsManager.ParseServerConfig` | Client/Script/ClientSettings.js:399-411 | each setting whose server flag is off becomes blocked, the other keeps its block state, and both preferences are kept |
| `Settings.ClientSettingsUI.constructor` | Client/Script/ClientSettings.js:145-147 | the dialog belongs to the given manager |
| `Settings.ClientSettingsUI.ApplySettings` | Client/Script/ClientSettings.js:236-260 | the result is `ShouldResetView` of the effective values before Apply; the theme becomes the dark-mode checkbox (user-set if it changed); each shown checkbox is written unless blocked; blocks are untouched; everything is saved |

## Left out

- DOM construction and queries (`buildNode`, `buildNodeNS`, `_buildNode`, `appendChildren`, `clearEle`, `$`, `$$`), the dialog's layout in `showSettings`, `#buildSettingCheckbox`, `Overlay`, `Tooltip` and the settings icon revealed by `parseServerConfig`: these are browser APIs and external libraries. The dialog's checkboxes are an input, `Dialog`.
- `fetch`, URL building, `Log` and `ServerPausedOverlay` in `jsonRequest`: network I/O and external code. What the request produced is an input, `Reply`, and the handler that runs is the result.
- `localStorage` and `JSON.parse`/`JSON.stringify`: the storage slot is a `StoredItem` field, and the record is a map from keys to `Value`s.
- `window.matchMedia`, the `'not all'` test (an object compared with a string, so always unequal), the stylesheet `link` element, `#adjustIcons` and `ThemeColors`: browser side effects and an external palette. The system preference is a constructor argument, and the stylesheet is a field.
- The system theme listener: `#onSystemThemeChanged` is registered without binding `this`, so it runs with the media query list as `this`. Its wiring is not modelled. `toggleTheme` with `manual` false, which it is meant to call, is.
- `Format.MsToHms`: negative or non-integer milliseconds are not modelled. Neither is floating-point rounding of `ms / 1000` for very large counts, on the order of 10^15 ms, nor `parseInt` of exponent notation for quotients of 1e21 and above. Below 1e-6 it is modelled; see Findings.
- `Format.Plural`: non-integer counts are not modelled, and neither is how JavaScript prints large counts. At 1e21 and above `${n}` gives exponent notation ("1e+21"), and above 2^53 not every integer is exact. The model prints every integer in full.
- `Format.IntToString`: renders an unbounded integer in full decimal. JavaScript numbers print in exponent notation from 1e21 on and are not exact above 2^53, so that range is not modelled.
- `Format.Pad0`: takes the text `val.toString()` produces, not a number.
- `Request.ErrorMessage`: the logging of an exception and its stack is not modelled. `instanceof TypeError` is read from the exception's name. A value that is both an exception and has an `Error` field is not modelled.
- `Request.Classify`: `Error` values other than strings are not modelled. Callbacks are assumed not to throw; a throwing success callback would also reach the `catch`.
- `SettingsStore.Load`: stored values other than booleans and objects of booleans are not modelled. A non-boolean flag is read by its truthiness, where JavaScript keeps the value itself. A `theme` entry holding `null` would make the constructor throw; it is not modelled.
- `SettingsStore.ValueOrDefault`: a record or theme object with its own `"hasOwnProperty"` key (such as `{"hasOwnProperty": true}`) hides that method, so `object.hasOwnProperty(key)` throws a TypeError outside the constructor's `try`, and the constructor throws. The model treats `"hasOwnProperty"` as an ordinary key and returns a value.
- `Settings.ClientSettingsUI.ApplySettings`: `Overlay.dismiss()` and clearing `#currentCallback` are not modelled. The value given to the callback is the method's result.

## Findings

| source | as written | input that shows it | evidently intended | confidence | as-written member | corrected member |
|---|---|---|---|---|---|---|
| Client/Script/Common.js:212 | `parseInt(seconds / 3600)` gets a quotient below 1e-6, which `String` prints in exponent notation ("2.77…e-7"), so `parseInt` reads its leading digit | ms = 1 (also 2 and 3): hours 2, text "2:00:00.001" | hours 0, text "00:00.001" | high, not executed | `Format.MsToHmsAsWritten` | `Format.MsToHms` |
| Client/Script/Common.js:53 | with no failure callback, the `catch` handler logs `response`, a name not in its scope, so it throws a ReferenceError instead of logging | a `null` JSON body, or a rejected fetch, with no failure callback | log the caught error | high, not executed | `Request.HandleAsWritten` | `Request.Handle` |
