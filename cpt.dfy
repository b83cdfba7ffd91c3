/** The custom post type loader of the settings-gated generation: which
    post type class files it requires and which objects it constructs, each
    gated by a module flag that must be strictly 'y'. */
module Cpt {
  import opened PhpValues
  import opened Settings

  /** The three post type modules. */
  datatype CptModule = Organisations | Partners | Hosts

  /** How `initialise` ends: normally, or with PHP's fatal "class not found"
      when the Hosts object is constructed but its class file was never
      required. */
  datatype Outcome = Completed | HostsClassMissing

  /** The class files `include_files` requires. The Hosts file is gated by
      the Partners flag, as written. */
  function FilesFor(settings: map<string, Value>): (files: set<CptModule>)
    ensures Organisations in files <==> Enabled(settings, OrganisationEnabled)
    ensures Partners in files <==> Enabled(settings, PartnerEnabled)
    ensures Hosts in files <==> Enabled(settings, PartnerEnabled)
  {
    (if Enabled(settings, OrganisationEnabled) then {Organisations} else {})
    + (if Enabled(settings, PartnerEnabled) then {Partners} else {})
    + (if Enabled(settings, PartnerEnabled) then {Hosts} else {})
  }

  /** The objects `setup_objects` constructs: each gated by its own flag. */
  function ObjectsFor(settings: map<string, Value>): (objects: set<CptModule>)
    ensures Organisations in objects <==> Enabled(settings, OrganisationEnabled)
    ensures Partners in objects <==> Enabled(settings, PartnerEnabled)
    ensures Hosts in objects <==> Enabled(settings, HostEnabled)
  {
    (if Enabled(settings, OrganisationEnabled) then {Organisations} else {})
    + (if Enabled(settings, PartnerEnabled) then {Partners} else {})
    + (if Enabled(settings, HostEnabled) then {Hosts} else {})
  }

  /** Every constructed object has its class file exactly when the Hosts
      flag implies the Partners flag. */
  lemma ObjectsHaveFilesIff(settings: map<string, Value>)
    ensures ObjectsFor(settings) <= FilesFor(settings) <==>
            (Enabled(settings, HostEnabled) ==> Enabled(settings, PartnerEnabled))
  {
    if Enabled(settings, HostEnabled) && !Enabled(settings, PartnerEnabled) {
      assert Hosts in ObjectsFor(settings) && Hosts !in FilesFor(settings);
    }
  }

  /** The defaults turn every module on; an empty settings array (or any
      array missing the flags) turns every module off, since the default each
      call passes to `setting_get` is dropped. */
  lemma DefaultsAndMissingFlags()
    ensures FilesFor(Defaults()) == ObjectsFor(Defaults()) == {Organisations, Partners, Hosts}
    ensures FilesFor(map[]) == ObjectsFor(map[]) == {}
  {
    var all := {Organisations, Partners, Hosts};
    forall m: CptModule ensures m in all {
      match m
      case Organisations =>
      case Partners =>
      case Hosts =>
    }
  }

  /** A flag holding anything other than the string 'y' (`'n'`, `true`, `1`,
      `'Y'`) leaves its module unloaded. */
  lemma OnlyStrictYEnables(settings: map<string, Value>, v: Value)
    requires v != Str("y")
    ensures Hosts !in ObjectsFor(settings[HostEnabled := v])
    ensures Organisations !in ObjectsFor(settings[OrganisationEnabled := v])
    ensures Partners !in FilesFor(settings[PartnerEnabled := v]) && Hosts !in FilesFor(settings[PartnerEnabled := v])
  {
  }

  /** `SOF_Organisations_CPT`. */
  class CptLoader {
    /** The admin's settings, read through `setting_get`. */
    const store: SettingsStore
    /** The class files required so far. */
    var filesRequired: set<CptModule>
    /** The objects constructed so far (`$organisations`, `$partners`,
        `$hosts`). */
    var constructed: set<CptModule>
    /** `static $done` of `initialise`. */
    var done: bool
    /** How often `sof_orgs/cpt/loaded` has fired. */
    var broadcasts: nat

    /** No object is ever constructed without its class file: the request
        ends in a fatal error first. */
    ghost predicate Valid()
      reads this
    {
      constructed <= filesRequired && (done ==> broadcasts == 1) && (!done ==> broadcasts == 0)
    }

    constructor (store: SettingsStore)
      ensures this.store == store && filesRequired == {} && constructed == {} && !done && Valid()
    {
      this.store := store;
      filesRequired := {};
      constructed := {};
      done := false;
      broadcasts := 0;
    }

    /** `include_files()`. */
    method IncludeFiles()
      modifies this`filesRequired
      ensures filesRequired == old(filesRequired) + FilesFor(store.settings)
    {
      // The default passed as `setting_get`'s second argument, which it ignores.
      var defaults := Defaults();
      var organisationEnabled := store.SettingGet(OrganisationEnabled);
      var partnerEnabled := store.SettingGet(PartnerEnabled);
      var hostEnabled := store.SettingGet(HostEnabled);
      if organisationEnabled == Str("y") {
        filesRequired := filesRequired + {Organisations};
      }
      if partnerEnabled == Str("y") {
        filesRequired := filesRequired + {Partners};
      }
      if partnerEnabled == Str("y") {
        filesRequired := filesRequired + {Hosts};
      }
    }

    /** `setup_objects()`, after `include_files` has required the files for
        the same settings. The Organisations and Partners objects are gated
        by the same flags as their files; the Hosts object is not, and
        constructing it without its file stops the request there. */
    method SetupObjects() returns (outcome: Outcome)
      requires Valid() && FilesFor(store.settings) <= filesRequired
      modifies this`constructed
      ensures Valid()
      ensures outcome == HostsClassMissing <==> Hosts in ObjectsFor(store.settings) && Hosts !in filesRequired
      ensures outcome == Completed ==> constructed == old(constructed) + ObjectsFor(store.settings)
      ensures outcome == HostsClassMissing ==> constructed == old(constructed) + ObjectsFor(store.settings) - {Hosts}
    {
      // The default passed as `setting_get`'s second argument, which it ignores.
      var defaults := Defaults();
      var organisationEnabled := store.SettingGet(OrganisationEnabled);
      var partnerEnabled := store.SettingGet(PartnerEnabled);
      var hostEnabled := store.SettingGet(HostEnabled);
      if organisationEnabled == Str("y") {
        constructed := constructed + {Organisations};
      }
      if partnerEnabled == Str("y") {
        constructed := constructed + {Partners};
      }
      if hostEnabled == Str("y") {
        if Hosts !in filesRequired {
          return HostsClassMissing;
        }
        constructed := constructed + {Hosts};
      }
      outcome := Completed;
    }

    /** `initialise()`: files, then objects, then the broadcast, once. */
    method Initialise() returns (outcome: Outcome)
      requires Valid()
      modifies this
      ensures Valid()
      ensures old(done) ==> outcome == Completed && filesRequired == old(filesRequired)
                            && constructed == old(constructed) && broadcasts == old(broadcasts)
      ensures !old(done) ==> filesRequired == old(filesRequired) + FilesFor(store.settings)
      ensures !old(done) ==>
                (outcome == HostsClassMissing <==> Hosts in ObjectsFor(store.settings) && Hosts !in filesRequired)
      ensures !old(done) && outcome == Completed ==>
                done && broadcasts == 1 && constructed == old(constructed) + ObjectsFor(store.settings)
      ensures outcome == HostsClassMissing ==> !done && broadcasts == 0
    {
      if done {
        return Completed;
      }
      IncludeFiles();
      outcome := SetupObjects();
      if outcome == HostsClassMissing {
        return;
      }
      broadcasts := broadcasts + 1;
      done := true;
    }
  }

  /** On a first run, initialisation fails exactly when the Hosts flag is on
      and the Partners flag is off. */
  lemma FirstRunFatalIff(settings: map<string, Value>)
    ensures (Hosts in ObjectsFor(settings) && Hosts !in FilesFor(settings)) <==>
            Enabled(settings, HostEnabled) && !Enabled(settings, PartnerEnabled)
  {
  }
}
