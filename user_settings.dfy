/**
 * The user-settings hook: the settings being edited, the browser's localStorage they are saved to
 * under `user_settings_<id>`, and the signed-in user. JSON.stringify followed by JSON.parse gives
 * the settings back, so a saved record is stored as its parsed value.
 */
module UserSettings {
  import opened Base
  import opened ParaTypes
  import NotionWriter

  const NotSignedInMessage: string := "User not signed in or user ID not available"

  class UserSettingsStore {
    var settings: Settings
    var storage: Storage
    var isLoading: bool
    var isSaving: bool
    var isSignedIn: bool
    /** The signed-in user's id, if the session has one. */
    var user: Option<string>

    /** The session has a user with a non-empty id (`user?.id`). */
    predicate HasUser()
      reads this
    {
      user.Some? && user.value != ""
    }

    /** The hook as first rendered: empty settings, still loading, not saving. */
    constructor(isSignedIn: bool, user: Option<string>, storage: Storage)
      ensures this.isSignedIn == isSignedIn && this.user == user && this.storage == storage
      ensures settings == map[] && isLoading && !isSaving
    {
      this.isSignedIn := isSignedIn;
      this.user := user;
      this.storage := storage;
      settings := map[];
      isLoading := true;
      isSaving := false;
    }

    /**
     * The load effect: once the session is loaded and signed in with a user, the stored settings (if
     * any parse) replace the current ones and loading ends; otherwise nothing changes.
     */
    method LoadSettings(isLoaded: bool)
      modifies this
      ensures storage == old(storage) && isSaving == old(isSaving)
      ensures isSignedIn == old(isSignedIn) && user == old(user)
      ensures !(isLoaded && isSignedIn && HasUser()) ==> settings == old(settings) && isLoading == old(isLoading)
      ensures isLoaded && isSignedIn && HasUser() ==>
        && !isLoading
        && var key := SettingsKey(user.value);
           settings == if key in storage && storage[key].Parsed? then storage[key].value else old(settings)
    {
      if isLoaded && isSignedIn && HasUser() {
        var key := SettingsKey(user.value);
        if key in storage && storage[key].Parsed? {
          settings := storage[key].value;
        }
        isLoading := false;
      }
    }

    /** updateSetting: only the named field of the settings changes. */
    method UpdateSetting(name: string, value: string)
      modifies this
      ensures settings == old(settings)[name := value]
      ensures storage == old(storage) && isSaving == old(isSaving) && isLoading == old(isLoading)
      ensures isSignedIn == old(isSignedIn) && user == old(user)
    {
      settings := settings[name := value];
    }

    /**
     * saveSettings: throws when there is no signed-in user, changing nothing. Otherwise the settings
     * without `notionDatabaseId` are stored under the user's key, become the current settings and
     * are returned; `isSaving` is false afterwards.
     */
    method SaveSettings() returns (r: Result<Settings>)
      modifies this
      ensures isSignedIn == old(isSignedIn) && user == old(user) && isLoading == old(isLoading)
      ensures r.Failure? <==> !(isSignedIn && HasUser())
      ensures r.Failure? ==>
        && r.error == NotSignedInMessage
        && settings == old(settings) && storage == old(storage) && isSaving == old(isSaving)
      ensures r.Success? ==>
        && r.value == old(settings) - {"notionDatabaseId"}
        && settings == r.value
        && storage == old(storage)[SettingsKey(user.value) := Parsed(r.value)]
        && !isSaving
    {
      if !isSignedIn || !HasUser() {
        return Failure(NotSignedInMessage);
      }
      isSaving := true;
      var updatedSettings := settings - {"notionDatabaseId"};
      storage := storage[SettingsKey(user.value) := Parsed(updatedSettings)];
      settings := updatedSettings;
      isSaving := false;
      return Success(updatedSettings);
    }

    /**
     * updateParaDatabaseIds: with a user, the four category database ids are set in the settings,
     * the other fields are kept, and the result is stored under the user's key; without a user
     * nothing changes.
     */
    method UpdateParaDatabaseIds(ids: DatabaseIds)
      modifies this
      ensures isSignedIn == old(isSignedIn) && user == old(user)
      ensures isSaving == old(isSaving) && isLoading == old(isLoading)
      ensures !HasUser() ==> settings == old(settings) && storage == old(storage)
      ensures HasUser() ==>
        && settings == WithDatabaseIds(old(settings), ids)
        && storage == old(storage)[SettingsKey(user.value) := Parsed(settings)]
    {
      if !HasUser() {
        return;
      }
      var updatedSettings := WithDatabaseIds(settings, ids);
      settings := updatedSettings;
      storage := storage[SettingsKey(user.value) := Parsed(updatedSettings)];
    }

    /** resetSettings: with a user, the stored settings (if any parse) replace the current ones. */
    method ResetSettings()
      modifies this
      ensures storage == old(storage) && isSaving == old(isSaving) && isLoading == old(isLoading)
      ensures isSignedIn == old(isSignedIn) && user == old(user)
      ensures settings ==
        if HasUser() && SettingsKey(user.value) in storage && storage[SettingsKey(user.value)].Parsed?
        then storage[SettingsKey(user.value)].value
        else old(settings)
    {
      if !HasUser() {
        return;
      }
      var key := SettingsKey(user.value);
      if key in storage && storage[key].Parsed? {
        settings := storage[key].value;
      }
    }
  }

  const DatabaseIdFields: set<string> :=
    {"projectsDatabaseId", "areasDatabaseId", "resourcesDatabaseId", "archiveDatabaseId"}

  /** The settings with the four category database ids written in. */
  function WithDatabaseIds(settings: Settings, ids: DatabaseIds): (r: Settings)
    ensures r.Keys == settings.Keys + DatabaseIdFields
    ensures r["projectsDatabaseId"] == ids.projects && r["areasDatabaseId"] == ids.areas
    ensures r["resourcesDatabaseId"] == ids.resources && r["archiveDatabaseId"] == ids.archive
    ensures forall k :: k in settings && k !in DatabaseIdFields ==> r[k] == settings[k]
  {
    settings["projectsDatabaseId" := ids.projects]["areasDatabaseId" := ids.areas]
      ["resourcesDatabaseId" := ids.resources]["archiveDatabaseId" := ids.archive]
  }

  /**
   * As written, saving removes `notionDatabaseId`, so after any save the writer's configuration
   * lookup finds no configuration for that user.
   */
  lemma SavedSettingsHaveNoConfig(storage: Storage, userId: string, settings: Settings, inBrowser: bool)
    ensures NotionWriter.GetUserNotionConfig(
      storage[SettingsKey(userId) := Parsed(settings - {"notionDatabaseId"})], inBrowser, userId).None?
  {
  }

  /** Settings saved for one user leave every other user's stored record as it was. */
  lemma SaveKeepsOtherUsers(storage: Storage, userId: string, other: string, settings: Settings)
    requires other != userId
    ensures var after := storage[SettingsKey(userId) := Parsed(settings)];
      (SettingsKey(other) in after <==> SettingsKey(other) in storage)
      && (SettingsKey(other) in storage ==> after[SettingsKey(other)] == storage[SettingsKey(other)])
  {
    if SettingsKey(other) == SettingsKey(userId) {
      SettingsKeyInjective(other, userId);
    }
  }

  /** A client run: edits after a save are undone by a reset, which restores the saved settings. */
  method SaveEditReset(store: UserSettingsStore, name: string, value: string) returns (saved: Result<Settings>)
    requires store.isSignedIn && store.HasUser()
    modifies store
    ensures saved.Success? && store.settings == saved.value
    ensures "notionDatabaseId" !in store.settings
  {
    saved := store.SaveSettings();
    store.UpdateSetting(name, value);
    store.ResetSettings();
  }
}
