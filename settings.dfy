/** The plugin's settings store: an in-memory settings array, persisted as a
    whole under one option, with a separately stored plugin version. Both
    generations of the admin class share this API; they differ only in what
    they seed a missing settings option with. */
module Settings {
  import opened PhpValues
  import opened Options

  /** The option that holds the whole settings array. */
  const SettingsKey: string := "sof_orgs_settings"
  /** The option that holds the stored plugin version. */
  const VersionKey: string := "sof_orgs_version"
  /** `SOF_ORGANISATIONS_VERSION`. */
  const PluginVersion: string := "1.0a"

  const OrganisationEnabled: string := "organisation_enabled"
  const PartnerEnabled: string := "partner_enabled"
  const HostEnabled: string := "host_enabled"
  const PledgeballEnabled: string := "pledgeball_enabled"
  const CustomFieldId: string := "event_ball_host_custom_field_id"

  /** The four module flags. */
  const Flags: set<string> := {OrganisationEnabled, PartnerEnabled, HostEnabled, PledgeballEnabled}

  /** `settings_get_defaults()`, with the `sof_orgs/admin/settings_default`
      filter taken as the identity. */
  function Defaults(): (d: map<string, Value>)
    ensures d.Keys == Flags + {CustomFieldId}
    ensures forall k :: k in Flags ==> d[k] == Str("y")
    ensures d[CustomFieldId] == Str("")
  {
    map[OrganisationEnabled := Str("y"), PartnerEnabled := Str("y"), HostEnabled := Str("y"),
        CustomFieldId := Str(""), PledgeballEnabled := Str("y")]
  }

  /** `setting_get($name)`: the stored value when it is set and not null,
      otherwise `false`. It has no default parameter: the defaults every caller
      passes are dropped. */
  function Lookup(settings: map<string, Value>, name: string): (r: Value)
    ensures r != Null
    ensures IsSetIn(settings, name) ==> r == settings[name]
    ensures !IsSetIn(settings, name) ==> r == Bool(false)
  {
    if IsSetIn(settings, name) then settings[name] else Bool(false)
  }

  /** A module flag is on only when the setting is strictly the string 'y'. */
  predicate Enabled(settings: map<string, Value>, name: string) {
    Lookup(settings, name) == Str("y")
  }

  /** The settings array read from an option value; a stored value that is not
      a keyed array reads as an array without settings. */
  function AsSettings(v: Value): map<string, Value> {
    if v.Dict? then v.entries else map[]
  }

  /** `version_get()`: `false` when the version option does not exist (as the
      sentinel test sees it), the stored value otherwise. */
  function StoredVersion(rows: map<string, Value>): (r: Value)
    ensures !OptionExists(rows, VersionKey) ==> r == Bool(false)
    ensures OptionExists(rows, VersionKey) ==> r == rows[VersionKey] && r != Str(Sentinel)
  {
    if !OptionExists(rows, VersionKey) then Bool(false) else GetOption(rows, VersionKey, Bool(false))
  }

  /** The option table after `settings_initialise` seeded a missing settings
      option with `seed` and brought the stored version up to date. */
  function InitRows(rows: map<string, Value>, seed: map<string, Value>): (r: map<string, Value>)
    ensures r.Keys == rows.Keys + {SettingsKey, VersionKey}
    ensures r[VersionKey] == Str(PluginVersion)
    ensures OptionExists(rows, SettingsKey) ==> r[SettingsKey] == rows[SettingsKey]
    ensures !OptionExists(rows, SettingsKey) ==> r[SettingsKey] == Dict(seed)
    ensures forall k :: k in rows && k != SettingsKey && k != VersionKey ==> r[k] == rows[k]
  {
    var seeded := if !OptionExists(rows, SettingsKey) then rows[SettingsKey := Dict(seed)] else rows;
    if StoredVersion(rows) != Str(PluginVersion) then seeded[VersionKey := Str(PluginVersion)] else seeded
  }

  /** The writes `settings_initialise` makes: the seed when the settings
      option is missing, then the version when it is not the current one. */
  function InitWrites(rows: map<string, Value>, seed: map<string, Value>): (w: seq<OptionOp>)
    ensures |w| <= 2
    ensures forall i :: 0 <= i < |w| ==> w[i].Update? && w[i].key in {SettingsKey, VersionKey}
    ensures Update(SettingsKey, Dict(seed)) in w <==> !OptionExists(rows, SettingsKey)
    ensures Update(VersionKey, Str(PluginVersion)) in w <==> StoredVersion(rows) != Str(PluginVersion)
  {
    (if !OptionExists(rows, SettingsKey) then [Update(SettingsKey, Dict(seed))] else [])
    + (if StoredVersion(rows) != Str(PluginVersion) then [Update(VersionKey, Str(PluginVersion))] else [])
  }

  /** The in-memory settings after `settings_initialise`. */
  function InitSettings(rows: map<string, Value>, seed: map<string, Value>): (s: map<string, Value>)
    ensures !OptionExists(rows, SettingsKey) ==> s == seed
    ensures OptionExists(rows, SettingsKey) ==> s == AsSettings(rows[SettingsKey])
  {
    AsSettings(GetOption(InitRows(rows, seed), SettingsKey, Dict(seed)))
  }

  /** After initialisation the in-memory settings are what the settings option
      holds, whenever that option holds a settings array. */
  lemma InitSettingsMatchStored(rows: map<string, Value>, seed: map<string, Value>)
    requires SettingsKey in rows && rows[SettingsKey] != Str(Sentinel) ==> rows[SettingsKey].Dict?
    ensures InitRows(rows, seed)[SettingsKey] == Dict(InitSettings(rows, seed))
  {
  }

  /** Initialising a second time changes neither the table nor the settings. */
  lemma InitIdempotent(rows: map<string, Value>, seed: map<string, Value>, seed2: map<string, Value>)
    ensures InitRows(InitRows(rows, seed), seed2) == InitRows(rows, seed)
    ensures InitSettings(InitRows(rows, seed), seed2) == InitSettings(rows, seed)
    ensures InitWrites(InitRows(rows, seed), seed2) == []
  {
    var r := InitRows(rows, seed);
    assert OptionExists(r, SettingsKey);
    assert StoredVersion(r) == Str(PluginVersion);
    assert InitRows(r, seed2) == r;
  }

  /** A value written with `setting_set` and persisted with `settings_save`
      is what `setting_get` returns after the next request reloads the
      settings, in either generation. */
  lemma SaveReloadRoundTrip(rows: map<string, Value>, settings: map<string, Value>, name: string, v: Value, seed: map<string, Value>)
    requires v != Null
    ensures Lookup(InitSettings(rows[SettingsKey := Dict(settings[name := v])], seed), name) == v
  {
    var saved := rows[SettingsKey := Dict(settings[name := v])];
    assert OptionExists(saved, SettingsKey);
  }

  /** After `setting_delete($name)` the setting reads as `false`, whether or
      not it was set, and every other setting reads as before. */
  lemma DeleteThenLookup(settings: map<string, Value>, name: string, other: string)
    requires other != name
    ensures var after := if IsSetIn(settings, name) then settings - {name} else settings;
            Lookup(after, name) == Bool(false) && Lookup(after, other) == Lookup(settings, other)
  {
  }

  /** The settings store of the admin class: the in-memory `$settings` array
      over the site's option table. */
  class SettingsStore {
    const table: OptionTable
    var settings: map<string, Value>
    /** `$plugin_version`: the version found in the table when the settings
        were initialised. */
    var pluginVersion: Value

    constructor (table: OptionTable)
      ensures this.table == table && settings == map[] && pluginVersion == Null
    {
      this.table := table;
      settings := map[];
      pluginVersion := Null;
    }

    /** `settings_get_defaults()`. */
    method SettingsGetDefaults() returns (d: map<string, Value>)
      ensures d == Defaults()
    {
      d := Defaults();
    }

    /** `settings_get()`. */
    method SettingsGet() returns (s: map<string, Value>)
      ensures s == settings
    {
      s := settings;
    }

    /** `setting_get($name)`. */
    method SettingGet(name: string) returns (v: Value)
      ensures v == Lookup(settings, name)
      ensures v != Null && (v == Bool(false) || (name in settings && settings[name] == v))
    {
      v := Bool(false);
      if name in settings && settings[name] != Null {
        v := settings[name];
      }
    }

    /** `setting_set($name, $data)`: overwrites one key in memory only. */
    method SettingSet(name: string, data: Value)
      modifies this`settings
      ensures settings == old(settings)[name := data]
      ensures forall k :: k != name ==> (k in settings <==> k in old(settings))
    {
      settings := settings[name := data];
    }

    /** `setting_delete($name)`: removes the key only when it is set; a key
        holding null stays. */
    method SettingDelete(name: string)
      modifies this`settings
      ensures IsSetIn(old(settings), name) ==> settings == old(settings) - {name}
      ensures !IsSetIn(old(settings), name) ==> settings == old(settings)
    {
      if name in settings && settings[name] != Null {
        settings := settings - {name};
      }
    }

    /** `settings_save()`: one write of the whole array over the option. */
    method SettingsSave()
      modifies table
      ensures table.rows == old(table.rows)[SettingsKey := Dict(settings)]
      ensures table.log == old(table.log) + [Update(SettingsKey, Dict(settings))]
    {
      table.Update(SettingsKey, Dict(settings));
    }

    /** `settings_delete()`: removes the option; the in-memory array stays. */
    method SettingsDelete()
      modifies table
      ensures table.rows == old(table.rows) - {SettingsKey}
      ensures table.log == old(table.log) + [Delete(SettingsKey)]
    {
      table.Delete(SettingsKey);
    }

    /** `option_exists($key)`. */
    method OptionExistsIn(key: string) returns (exists_: bool)
      ensures exists_ <==> key in table.rows && table.rows[key] != Str(Sentinel)
    {
      var v := table.Get(key, Str(Sentinel));
      exists_ := v != Str(Sentinel);
    }

    /** `option_get($key, $default)`. */
    method OptionGet(key: string, default: Value) returns (v: Value)
      ensures v == GetOption(table.rows, key, default)
    {
      v := table.Get(key, default);
    }

    /** `option_set($key, $value)`. */
    method OptionSet(key: string, value: Value)
      modifies table
      ensures table.rows == old(table.rows)[key := value]
      ensures table.log == old(table.log) + [Update(key, value)]
    {
      table.Update(key, value);
    }

    /** `option_delete($key)`. */
    method OptionDelete(key: string)
      modifies table
      ensures table.rows == old(table.rows) - {key}
      ensures table.log == old(table.log) + [Delete(key)]
    {
      table.Delete(key);
    }

    /** `version_get()`. */
    method VersionGet() returns (v: Value)
      ensures v == StoredVersion(table.rows)
      ensures v == Bool(false) || (VersionKey in table.rows && v == table.rows[VersionKey])
    {
      var present := OptionExistsIn(VersionKey);
      if !present {
        return Bool(false);
      }
      v := OptionGet(VersionKey, Bool(false));
    }

    /** `version_set()`. */
    method VersionSet()
      modifies table
      ensures table.rows == old(table.rows)[VersionKey := Str(PluginVersion)]
      ensures table.log == old(table.log) + [Update(VersionKey, Str(PluginVersion))]
    {
      OptionSet(VersionKey, Str(PluginVersion));
    }

    /** `settings_initialise()`, with the value a missing settings option is
        seeded with: the defaults in the settings-gated generation, the
        current in-memory array in the older one. `upgrade_tasks` does nothing
        and is left out. */
    method SettingsInitialise(seed: map<string, Value>)
      modifies this`settings, this`pluginVersion, table
      ensures pluginVersion == StoredVersion(old(table.rows))
      ensures table.rows == InitRows(old(table.rows), seed)
      ensures settings == InitSettings(old(table.rows), seed)
      ensures table.log == old(table.log) + InitWrites(old(table.rows), seed)
    {
      pluginVersion := VersionGet();
      var present := OptionExistsIn(SettingsKey);
      if !present {
        OptionSet(SettingsKey, Dict(seed));
      }
      var stored := OptionGet(SettingsKey, Dict(seed));
      settings := AsSettings(stored);
      if pluginVersion != Str(PluginVersion) {
        VersionSet();
      }
    }

    /** The settings-gated generation seeds a missing option with the defaults. */
    method InitialiseWithDefaults()
      modifies this`settings, this`pluginVersion, table
      ensures table.rows == InitRows(old(table.rows), Defaults())
      ensures settings == InitSettings(old(table.rows), Defaults())
      ensures table.log == old(table.log) + InitWrites(old(table.rows), Defaults())
      ensures pluginVersion == StoredVersion(old(table.rows))
      ensures !OptionExists(old(table.rows), SettingsKey) ==>
                table.rows[SettingsKey] == Dict(Defaults()) && settings == Defaults()
      ensures table.rows[VersionKey] == Str(PluginVersion)
    {
      var d := SettingsGetDefaults();
      SettingsInitialise(d);
    }

    /** The older generation seeds a missing option with the in-memory array,
        which is still empty when `initialise` runs. */
    method InitialiseFromCurrent()
      modifies this`settings, this`pluginVersion, table
      ensures table.rows == InitRows(old(table.rows), old(settings))
      ensures settings == InitSettings(old(table.rows), old(settings))
      ensures table.log == old(table.log) + InitWrites(old(table.rows), old(settings))
      ensures pluginVersion == StoredVersion(old(table.rows))
      ensures table.rows[VersionKey] == Str(PluginVersion)
    {
      SettingsInitialise(settings);
    }
  }
}
