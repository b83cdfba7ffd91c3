/** The admin class of the settings-gated generation: it loads the settings
    (seeding the defaults on a fresh install), builds the general settings
    page and, only when the Ball Hosts module is on, the Ball Host settings
    page. */
module Admin {
  import opened PhpValues
  import opened Options
  import opened Settings
  import opened SettingsPage

  /** The prefix, context and slug the general settings page's constructor
      gives the base page; its location and layout are the base defaults. */
  const SettingsHookPrefix: string := "sof_organisations_settings"
  const SettingsPageContext: string := "settings_page_"
  const SettingsPageSlug: string := "sof_organisations_settings"

  /** On a fresh install (no settings option) the defaults are stored, so the
      Ball Host settings page is loaded. */
  lemma FreshInstallLoadsBallHost(rows: map<string, Value>)
    requires !OptionExists(rows, SettingsKey)
    ensures Enabled(InitSettings(rows, Defaults()), HostEnabled)
  {
  }

  /** A settings option the older generation seeded with its empty array
      hides the Ball Host settings page: the default 'y' that `include_files`
      passes to `setting_get` is dropped, and the missing key reads `false`. */
  lemma LegacySeedHidesBallHost(rows: map<string, Value>)
    ensures !Enabled(InitSettings(rows[SettingsKey := Dict(map[])], Defaults()), HostEnabled)
  {
    assert OptionExists(rows[SettingsKey := Dict(map[])], SettingsKey);
  }

  /** `SOF_Organisations_Admin`. */
  class Admin {
    const store: SettingsStore
    /** `$settings_page`. */
    var settingsPage: SettingsPage?
    /** Whether `class-admin-settings-ball-host.php` has been required. */
    var ballHostFileRequired: bool
    /** Whether `$settings_page_ball_host` has been constructed. */
    var ballHostPage: bool
    /** `static $done` of `initialise`. */
    var done: bool
    /** How often `sof_orgs/admin/loaded` has fired. */
    var broadcasts: nat

    /** Nothing is loaded before the first `initialise`, and a Ball Host page
        object only exists when its class file was required. */
    ghost predicate Valid()
      reads this
    {
      (!done ==> !ballHostFileRequired && !ballHostPage && settingsPage == null && broadcasts == 0)
      && (done ==> broadcasts == 1)
      && (ballHostPage ==> ballHostFileRequired)
    }

    constructor (store: SettingsStore)
      ensures this.store == store && Valid() && !done
    {
      this.store := store;
      settingsPage := null;
      ballHostFileRequired := false;
      ballHostPage := false;
      done := false;
      broadcasts := 0;
    }

    /** `include_files()`: the Ball Host page's file only when `host_enabled`
        is strictly 'y'. */
    method IncludeFiles()
      modifies this`ballHostFileRequired
      ensures ballHostFileRequired <==> old(ballHostFileRequired) || Enabled(store.settings, HostEnabled)
    {
      // The default passed as `setting_get`'s second argument, which it ignores.
      var defaults := store.SettingsGetDefaults();
      var hostEnabled := store.SettingGet(HostEnabled);
      if hostEnabled == Str("y") {
        ballHostFileRequired := true;
      }
    }

    /** `setup_objects()`: a fresh general settings page, and the Ball Host
        page only when `host_enabled` is strictly 'y'. */
    method SetupObjects()
      modifies this`settingsPage, this`ballHostPage
      ensures settingsPage != null && fresh(settingsPage)
      ensures settingsPage.store == store && settingsPage.hookPrefix == SettingsHookPrefix
      ensures settingsPage.ScreenId() == SettingsPageContext + SettingsPageSlug
      ensures settingsPage.pageLayout == "settings"
      ensures ballHostPage <==> old(ballHostPage) || Enabled(store.settings, HostEnabled)
    {
      // The default passed as `setting_get`'s second argument, which it ignores.
      var defaults := store.SettingsGetDefaults();
      var hostEnabled := store.SettingGet(HostEnabled);
      settingsPage := new SettingsPage(store, SettingsHookPrefix, SettingsPageContext, SettingsPageSlug, "site", "settings");
      if hostEnabled == Str("y") {
        ballHostPage := true;
      }
    }

    /** `initialise()`: runs its body once; the settings are loaded (seeding
        the defaults) before the files and objects that read them. */
    method Initialise()
      requires Valid()
      modifies this, store`settings, store`pluginVersion, store.table
      ensures Valid() && done
      ensures old(done) ==>
                store.settings == old(store.settings) && store.table.rows == old(store.table.rows)
                && store.table.log == old(store.table.log) && settingsPage == old(settingsPage)
                && ballHostPage == old(ballHostPage) && ballHostFileRequired == old(ballHostFileRequired)
                && store.pluginVersion == old(store.pluginVersion) && broadcasts == old(broadcasts)
      ensures !old(done) ==>
                store.table.rows == InitRows(old(store.table.rows), Defaults())
                && store.settings == InitSettings(old(store.table.rows), Defaults())
                && store.table.log == old(store.table.log) + InitWrites(old(store.table.rows), Defaults())
                && store.pluginVersion == StoredVersion(old(store.table.rows)) && broadcasts == 1
                && settingsPage != null && fresh(settingsPage)
                && (ballHostFileRequired <==> Enabled(store.settings, HostEnabled))
                && (ballHostPage <==> Enabled(store.settings, HostEnabled))
    {
      if done {
        return;
      }
      store.InitialiseWithDefaults();
      IncludeFiles();
      SetupObjects();
      broadcasts := broadcasts + 1;
      done := true;
    }
  }
}
