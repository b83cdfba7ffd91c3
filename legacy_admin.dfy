/** The admin class of the older generation, the one the plugin file loads:
    it seeds a missing settings option with its in-memory array, which is
    still empty, and builds the Ball Hosts settings page unconditionally. */
module LegacyAdmin {
  import opened PhpValues
  import opened Options
  import opened Settings
  import opened LegacySettingsPage

  /** On a fresh install the older generation stores an empty settings array
      and loads it: no module flag is on and no custom field is chosen. */
  lemma FreshInstallStoresEmpty(rows: map<string, Value>, name: string)
    requires !OptionExists(rows, SettingsKey)
    ensures InitRows(rows, map[])[SettingsKey] == Dict(map[])
    ensures InitSettings(rows, map[]) == map[]
    ensures Lookup(InitSettings(rows, map[]), name) == Bool(false)
  {
  }

  /** `SOF_Organisations_Admin` of the older generation. */
  class Admin {
    const store: SettingsStore
    /** `$page_settings`. */
    var pageSettings: LegacySettingsPage?
    /** `static $done` of `initialise`. */
    var done: bool
    /** How often `sof_orgs/admin/loaded` has fired. */
    var broadcasts: nat

    ghost predicate Valid()
      reads this
    {
      (!done ==> pageSettings == null && broadcasts == 0) && (done ==> pageSettings != null && broadcasts == 1)
    }

    /** The in-memory settings start as `[]`. */
    constructor (store: SettingsStore)
      requires store.settings == map[]
      ensures this.store == store && Valid() && !done
    {
      this.store := store;
      pageSettings := null;
      done := false;
      broadcasts := 0;
    }

    /** `setup_objects()`. */
    method SetupObjects()
      modifies this`pageSettings
      ensures pageSettings != null && fresh(pageSettings)
      ensures pageSettings.store == store && pageSettings.urls.None? && pageSettings.Valid()
    {
      pageSettings := new LegacySettingsPage(store);
    }

    /** `initialise()`: its body runs at most once; it loads the settings
        (seeding a missing option with the in-memory array), builds the page
        and fires `sof_orgs/admin/loaded`. */
    method Initialise()
      requires Valid()
      modifies this, store`settings, store`pluginVersion, store.table
      ensures Valid() && done
      ensures old(done) ==>
                store.settings == old(store.settings) && store.table.rows == old(store.table.rows)
                && store.table.log == old(store.table.log) && pageSettings == old(pageSettings)
                && broadcasts == old(broadcasts)
      ensures !old(done) ==>
                store.table.rows == InitRows(old(store.table.rows), old(store.settings))
                && store.settings == InitSettings(old(store.table.rows), old(store.settings))
                && store.table.log == old(store.table.log) + InitWrites(old(store.table.rows), old(store.settings))
                && fresh(pageSettings) && broadcasts == 1
    {
      if done {
        return;
      }
      store.InitialiseFromCurrent();
      SetupObjects();
      broadcasts := broadcasts + 1;
      done := true;
    }
  }
}
