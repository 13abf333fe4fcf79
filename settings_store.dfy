/**
 * The record `ClientSettings` keeps in local storage (Client/Script/ClientSettings.js):
 * reading it with per-field defaults, and writing it back as `#serialize` does.
 */
module SettingsStore {
  import opened Wrappers

  const THEME_KEY := "theme"
  const DARK_KEY := "dark"
  const USER_SET_KEY := "userSet"
  /** `PreviewThumbnailsSetting.settingsKey` (a static field). */
  const THUMBNAILS_KEY := "useThumbnails"
  /** `ExtendedMarkerStatsSetting.settingsKey` (a static field). */
  const EXTENDED_STATS_KEY := "extendedMarkerStats"

  /**
   * `setting.settingsKey` read through an instance: static fields are not
   * visible there, so the lookup yields `undefined`.
   */
  const INSTANCE_SETTINGS_KEY: Option<string> := None

  /** The property name JavaScript uses for a key, `undefined` included. */
  function PropertyKey(key: Option<string>): (name: string)
    ensures key.Some? ==> name == key.value
    ensures key.None? ==> name == "undefined"
  {
    key.GetOr("undefined")
  }

  /** A stored field: a boolean, or an object of booleans (the theme). */
  datatype Value = Flag(b: bool) | Object(fields: map<string, bool>)

  /** JavaScript truthiness of a stored field (an object is truthy). */
  function Truthy(v: Value): bool {
    match v
    case Flag(b) => b
    case Object(_) => true
  }

  /**
   * What the storage slot holds. A JSON value that is not an object has no own
   * properties, so it behaves as `Parsed(map[])`.
   */
  datatype StoredItem = Absent | Malformed | Parsed(record: map<string, Value>)

  /** The settings a record describes; the two flags are the raw (block-ignoring) preferences. */
  datatype SettingsRecord = SettingsRecord(
    dark: bool, userSet: bool, useThumbnails: bool, extendedMarkerStats: bool)

  const DEFAULTS := SettingsRecord(false, false, true, true)

  /** The record the constructor works on: `JSON.parse`, with `{}` for a missing, falsy or unparsable item. */
  function RecordOf(stored: StoredItem): (record: map<string, Value>)
    ensures stored.Parsed? ==> record == stored.record
    ensures !stored.Parsed? ==> record == map[]
  {
    if stored.Parsed? then stored.record else map[]
  }

  /** `#valueOrDefault(object, key, defaultValue)` */
  function ValueOrDefault<V>(obj: map<string, V>, key: string, default: V): (v: V)
    ensures key in obj ==> v == obj[key]
    ensures key !in obj ==> v == default
  {
    if key !in obj then default else obj[key]
  }

  /**
   * A theme field: a boolean has no own properties, so both theme fields then
   * take their defaults.
   */
  function ThemeField(theme: Value, key: string): (b: bool)
    ensures theme.Object? && key in theme.fields ==> b == theme.fields[key]
    ensures theme.Flag? || key !in theme.fields ==> !b
  {
    match theme
    case Flag(_) => false
    case Object(fields) => ValueOrDefault(fields, key, false)
  }

  /** The settings the `ClientSettings` constructor reads from storage. */
  function Load(stored: StoredItem): (s: SettingsRecord)
    ensures !stored.Parsed? ==> s == DEFAULTS
    ensures var record := RecordOf(stored);
      && (THUMBNAILS_KEY in record ==> s.useThumbnails == Truthy(record[THUMBNAILS_KEY]))
      && (THUMBNAILS_KEY !in record ==> s.useThumbnails)
      && (EXTENDED_STATS_KEY in record ==> s.extendedMarkerStats == Truthy(record[EXTENDED_STATS_KEY]))
      && (EXTENDED_STATS_KEY !in record ==> s.extendedMarkerStats)
      && (THEME_KEY !in record ==> !s.dark && !s.userSet)
      && (THEME_KEY in record ==> s.dark == ThemeField(record[THEME_KEY], DARK_KEY)
                                  && s.userSet == ThemeField(record[THEME_KEY], USER_SET_KEY))
  {
    var record := RecordOf(stored);
    var theme := ValueOrDefault(record, THEME_KEY, Object(map[DARK_KEY := false, USER_SET_KEY := false]));
    SettingsRecord(
      ThemeField(theme, DARK_KEY),
      ThemeField(theme, USER_SET_KEY),
      Truthy(ValueOrDefault(record, THUMBNAILS_KEY, Flag(true))),
      Truthy(ValueOrDefault(record, EXTENDED_STATS_KEY, Flag(true))))
  }

  /** Each field is defaulted on its own: the fields present are read, the others take their default. */
  lemma LoadFieldByField(record: map<string, Value>, dark: Option<bool>, userSet: Option<bool>)
    requires THEME_KEY in record
    requires record[THEME_KEY] == Object(
      (if dark.Some? then map[DARK_KEY := dark.value] else map[])
      + (if userSet.Some? then map[USER_SET_KEY := userSet.value] else map[]))
    ensures Load(Parsed(record)).dark == dark.GetOr(false)
    ensures Load(Parsed(record)).userSet == userSet.GetOr(false)
  {
  }

  /** A boolean `theme` has no own properties: the theme loads as light and not user-set, whatever the boolean. */
  lemma LoadBooleanTheme(record: map<string, Value>, b: bool)
    requires THEME_KEY in record && record[THEME_KEY] == Flag(b)
    ensures !Load(Parsed(record)).dark && !Load(Parsed(record)).userSet
  {
  }

  /** A saved record `{theme: {dark: true, userSet: true}, useThumbnails: false}` loads as written, stats defaulted. */
  lemma LoadPartialRecord()
    ensures Load(Parsed(map[THEME_KEY := Object(map[DARK_KEY := true, USER_SET_KEY := true]),
                            THUMBNAILS_KEY := Flag(false)]))
            == SettingsRecord(true, true, false, true)
  {
  }

  /**
   * `#serialize`: the theme verbatim, then each blockable preference under
   * `setting.settingsKey`, which both read as `undefined`, so the second write
   * replaces the first.
   */
  function Serialize(s: SettingsRecord): (record: map<string, Value>)
    ensures record.Keys == {THEME_KEY, "undefined"}
    ensures record[THEME_KEY] == Object(map[DARK_KEY := s.dark, USER_SET_KEY := s.userSet])
    ensures record["undefined"] == Flag(s.extendedMarkerStats)
    ensures THUMBNAILS_KEY !in record && EXTENDED_STATS_KEY !in record
  {
    var json := map[THEME_KEY := Object(map[DARK_KEY := s.dark, USER_SET_KEY := s.userSet])];
    var json' := json[PropertyKey(INSTANCE_SETTINGS_KEY) := Flag(s.useThumbnails)];
    json'[PropertyKey(INSTANCE_SETTINGS_KEY) := Flag(s.extendedMarkerStats)]
  }

  /**
   * Saving and loading keeps the theme, but both blockable preferences come
   * back as their default, whatever was saved.
   */
  lemma LoadAfterSave(s: SettingsRecord)
    ensures Load(Parsed(Serialize(s))) == SettingsRecord(s.dark, s.userSet, true, true)
  {
    var record := Serialize(s);
    assert record[THEME_KEY].fields.Keys == {DARK_KEY, USER_SET_KEY};
  }

  /** Hence the save-load round trip holds exactly for records whose preferences are both on. */
  lemma SaveLoadRoundTripIff(s: SettingsRecord)
    ensures Load(Parsed(Serialize(s))) == s <==> s.useThumbnails && s.extendedMarkerStats
  {
    LoadAfterSave(s);
  }
}
