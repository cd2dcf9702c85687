/**
 * The settings handler of the main process: `update-settings` spreads the
 * caller's keys over the stored settings (`{ ...settings, ...updates }`),
 * saves the result and returns exactly the record it saved.
 */
module SettingsHandlers {
  import opened Wrappers
  import opened Entities
  import opened Storage

  /** `{ ...s, ...u }` */
  function MergeSettings(s: Settings, u: SettingsFields): (r: Settings)
    ensures u.defaultBrowser.Some? ==> r.defaultBrowser == u.defaultBrowser.value
    ensures u.availableBrowsers.Some? ==> r.availableBrowsers == u.availableBrowsers.value
    ensures u.viewMode.Some? ==> r.viewMode == u.viewMode.value
    ensures u.sidebarCollapsed.Some? ==> r.sidebarCollapsed == u.sidebarCollapsed.value
    ensures u.theme.Some? ==> r.theme == u.theme.value
    ensures u.autoFetchIcon.Some? ==> r.autoFetchIcon == u.autoFetchIcon.value
    ensures u.language.Some? ==> r.language == u.language.value
    ensures u.defaultBrowser.None? ==> r.defaultBrowser == s.defaultBrowser
    ensures u.availableBrowsers.None? ==> r.availableBrowsers == s.availableBrowsers
    ensures u.viewMode.None? ==> r.viewMode == s.viewMode
    ensures u.sidebarCollapsed.None? ==> r.sidebarCollapsed == s.sidebarCollapsed
    ensures u.theme.None? ==> r.theme == s.theme
    ensures u.autoFetchIcon.None? ==> r.autoFetchIcon == s.autoFetchIcon
    ensures u.language.None? ==> r.language == s.language
  {
    Settings(
      Override(u.defaultBrowser, s.defaultBrowser),
      Override(u.availableBrowsers, s.availableBrowsers),
      Override(u.viewMode, s.viewMode),
      Override(u.sidebarCollapsed, s.sidebarCollapsed),
      Override(u.theme, s.theme),
      Override(u.autoFetchIcon, s.autoFetchIcon),
      Override(u.language, s.language))
  }

  /** The settings record sent back as an update: every key present. */
  function FieldsOf(s: Settings): SettingsFields {
    SettingsFields(
      Some(s.defaultBrowser), Some(s.availableBrowsers), Some(s.viewMode),
      Some(s.sidebarCollapsed), Some(s.theme), Some(s.autoFetchIcon), Some(s.language))
  }

  /** `{ ...u1, ...u2 }` */
  function CombineFields(u1: SettingsFields, u2: SettingsFields): SettingsFields {
    SettingsFields(
      if u2.defaultBrowser.Some? then u2.defaultBrowser else u1.defaultBrowser,
      if u2.availableBrowsers.Some? then u2.availableBrowsers else u1.availableBrowsers,
      if u2.viewMode.Some? then u2.viewMode else u1.viewMode,
      if u2.sidebarCollapsed.Some? then u2.sidebarCollapsed else u1.sidebarCollapsed,
      if u2.theme.Some? then u2.theme else u1.theme,
      if u2.autoFetchIcon.Some? then u2.autoFetchIcon else u1.autoFetchIcon,
      if u2.language.Some? then u2.language else u1.language)
  }

  /** The stored defaults: no default browser, no browsers, card view, sidebar open, light theme, icons fetched. */
  lemma DefaultSettingsValues()
    ensures DefaultSettings.defaultBrowser == "" && DefaultSettings.availableBrowsers == []
    ensures DefaultSettings.viewMode == Card && !DefaultSettings.sidebarCollapsed
    ensures DefaultSettings.theme == Light && DefaultSettings.autoFetchIcon
    ensures DefaultSettings.language == None
  {
  }

  /** Updating with the current settings returns the same record. */
  lemma UpdateWithCurrentIsIdentity(s: Settings)
    ensures MergeSettings(s, FieldsOf(s)) == s
  {
  }

  /** A second identical update changes nothing further. */
  lemma MergeIdempotent(s: Settings, u: SettingsFields)
    ensures MergeSettings(MergeSettings(s, u), u) == MergeSettings(s, u)
  {
  }

  /** Two updates in a row act as one update with the keys of the second winning. */
  lemma MergeComposes(s: Settings, u1: SettingsFields, u2: SettingsFields)
    ensures MergeSettings(MergeSettings(s, u1), u2) == MergeSettings(s, CombineFields(u1, u2))
  {
  }

  method UpdateSettings(store: DataStore, updates: SettingsFields) returns (r: Result<Settings>)
    modifies store`settingsFile
    ensures var merged := MergeSettings(old(store.CurrentSettings()), updates);
      if store.writable then
        r == Ok(merged) && store.settingsFile == Some(merged)
      else
        r == Err("Failed to save settings") && store.settingsFile == old(store.settingsFile)
  {
    var settings := store.CurrentSettings();
    var updated := MergeSettings(settings, updates);
    var ok := store.SaveSettings(updated);
    if ok {
      r := Ok(updated);
    } else {
      r := Err("Failed to save settings");
    }
  }
}
