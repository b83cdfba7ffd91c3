/** The plugin's main class and its accessor: one instance per request,
    whose `initialise` loads the older generation's classes, constructs the
    admin, CiviCRM, post type and ACF objects in that order and then fires
    `sof_orgs/loaded`, whose listeners run in the order they were added. */
module Plugin {
  import opened PhpValues
  import opened Options
  import opened Settings
  import CiviCrm
  import LegacyAdmin

  /** The hook fired once every object exists. */
  const LoadedHook: string := "sof_orgs/loaded"
  const ActivateHook: string := "sof_orgs/activate"
  const DeactivateHook: string := "sof_orgs/deactivate"

  /** The four objects the plugin holds. */
  datatype Component = AdminPart | CiviCrmPart | CptPart | AcfPart

  /** What happens during loading: the translation load, a class file
      included, an object constructed, a hook fired, and a listener's
      `initialise` run. */
  datatype Event =
    | Translation
    | Include(c: Component)
    | Construct(c: Component)
    | Fire(hook: string)
    | Initialised(c: Component)

  /** The first run of `initialise`: the ACF object hooks its `initialise`
      only when ACF is present. */
  function LoadTrace(acfPresent: bool): (t: seq<Event>)
    ensures |t| == (if acfPresent then 14 else 13)
  {
    [Translation,
     Include(AdminPart), Include(CiviCrmPart), Include(CptPart), Include(AcfPart),
     Construct(AdminPart), Construct(CiviCrmPart), Construct(CptPart), Construct(AcfPart),
     Fire(LoadedHook),
     Initialised(AdminPart), Initialised(CiviCrmPart), Initialised(CptPart)]
    + (if acfPresent then [Initialised(AcfPart)] else [])
  }

  /** The settings are loaded before any other component initialises, so the
      loaders that read them see the loaded settings. */
  lemma AdminInitialisesFirst(acfPresent: bool, i: nat, j: nat)
    requires i < |LoadTrace(acfPresent)| && j < |LoadTrace(acfPresent)|
    requires LoadTrace(acfPresent)[i] == Initialised(AdminPart)
    requires LoadTrace(acfPresent)[j].Initialised? && LoadTrace(acfPresent)[j].c != AdminPart
    ensures i < j
  {
  }

  /** `sof_orgs/loaded` fires exactly once, after every object is
      constructed and before any listener runs. */
  lemma LoadedFiresAfterConstruction(acfPresent: bool)
    ensures var t := LoadTrace(acfPresent);
            (forall c :: Construct(c) in t)
            && (forall i, j :: 0 <= i < |t| && 0 <= j < |t| && t[i].Construct? && t[j].Fire? ==> i < j)
            && (forall i, j :: 0 <= i < |t| && 0 <= j < |t| && t[i].Fire? && t[j].Initialised? ==> i < j)
            && (forall i :: 0 <= i < |t| && t[i].Fire? ==> i == 9 && t[i].hook == LoadedHook)
  {
    var t := LoadTrace(acfPresent);
    forall c ensures Construct(c) in t {
      match c
      case AdminPart => assert t[5] == Construct(c);
      case CiviCrmPart => assert t[6] == Construct(c);
      case CptPart => assert t[7] == Construct(c);
      case AcfPart => assert t[8] == Construct(c);
    }
  }

  /** Each class file is included before its object is constructed. */
  lemma IncludeBeforeConstruct(acfPresent: bool, c: Component, i: nat, j: nat)
    requires i < |LoadTrace(acfPresent)| && j < |LoadTrace(acfPresent)|
    requires LoadTrace(acfPresent)[i] == Include(c) && LoadTrace(acfPresent)[j] == Construct(c)
    ensures i < j
  {
  }

  /** The ACF loader initialises exactly when ACF is present. */
  lemma AcfInitialisesIff(acfPresent: bool)
    ensures Initialised(AcfPart) in LoadTrace(acfPresent) <==> acfPresent
  {
    if acfPresent {
      assert LoadTrace(acfPresent)[13] == Initialised(AcfPart);
    }
  }

  /** `SOF_Organisations`. */
  class Plugin {
    /** `static $done` of `initialise`. */
    var done: bool
    /** Everything loading has done so far. */
    var trace: seq<Event>
    /** Every hook this class has fired. */
    var fired: seq<string>
    /** `$admin`. */
    var admin: LegacyAdmin.Admin?
    /** `$civicrm`. */
    var civicrm: CiviCrm.CiviCrm?

    ghost predicate Valid()
      reads this
    {
      (!done ==> admin == null && civicrm == null && trace == [] && fired == [])
      && (done ==> admin != null && civicrm != null && LoadedHook in fired)
    }

    /** The constructor only hooks `initialise` on `plugins_loaded`. */
    constructor ()
      ensures Valid() && !done
    {
      done := false;
      trace := [];
      fired := [];
      admin := null;
      civicrm := null;
    }

    /** `include_files()`. */
    method IncludeFiles()
      modifies this`trace
      ensures trace == old(trace) + [Include(AdminPart), Include(CiviCrmPart), Include(CptPart), Include(AcfPart)]
    {
      trace := trace + [Include(AdminPart)];
      trace := trace + [Include(CiviCrmPart)];
      trace := trace + [Include(CptPart)];
      trace := trace + [Include(AcfPart)];
    }

    /** `setup_objects()`: admin, CiviCRM, post types, ACF, in that order;
        the admin's settings start empty, over the site's option table. */
    method SetupObjects(table: OptionTable)
      modifies this`trace, this`admin, this`civicrm
      ensures trace == old(trace) + [Construct(AdminPart), Construct(CiviCrmPart), Construct(CptPart), Construct(AcfPart)]
      ensures admin != null && fresh(admin) && fresh(admin.store) && admin.store.table == table
      ensures admin.store.settings == map[] && admin.Valid() && !admin.done
      ensures civicrm != null && fresh(civicrm) && civicrm.pseudocache.None?
    {
      var store := new SettingsStore(table);
      admin := new LegacyAdmin.Admin(store);
      trace := trace + [Construct(AdminPart)];
      civicrm := new CiviCrm.CiviCrm();
      trace := trace + [Construct(CiviCrmPart)];
      trace := trace + [Construct(CptPart)];
      trace := trace + [Construct(AcfPart)];
    }

    /** The listeners of `sof_orgs/loaded`, in the order they were hooked:
        the admin's loads the settings from the option table. */
    method LoadedListeners(acfPresent: bool)
      requires admin != null && admin.Valid() && !admin.done
      modifies this`trace, admin, admin.store`settings, admin.store`pluginVersion, admin.store.table
      ensures trace == old(trace) + [Initialised(AdminPart), Initialised(CiviCrmPart), Initialised(CptPart)]
                       + (if acfPresent then [Initialised(AcfPart)] else [])
      ensures admin.done && admin.Valid()
      ensures admin.store.table.rows == InitRows(old(admin.store.table.rows), old(admin.store.settings))
      ensures admin.store.settings == InitSettings(old(admin.store.table.rows), old(admin.store.settings))
      ensures admin.store.table.log == old(admin.store.table.log) + InitWrites(old(admin.store.table.rows), old(admin.store.settings))
    {
      admin.Initialise();
      trace := trace + [Initialised(AdminPart), Initialised(CiviCrmPart), Initialised(CptPart)];
      if acfPresent {
        trace := trace + [Initialised(AcfPart)];
      }
    }

    /** `do_action('sof_orgs/loaded')`: the hook fires, then its listeners run. */
    method FireLoaded(acfPresent: bool)
      requires admin != null && admin.Valid() && !admin.done
      modifies this`trace, this`fired, admin, admin.store`settings, admin.store`pluginVersion, admin.store.table
      ensures trace == old(trace) + [Fire(LoadedHook), Initialised(AdminPart), Initialised(CiviCrmPart), Initialised(CptPart)]
                       + (if acfPresent then [Initialised(AcfPart)] else [])
      ensures fired == old(fired) + [LoadedHook]
      ensures admin.done && admin.Valid()
      ensures admin.store.table.rows == InitRows(old(admin.store.table.rows), old(admin.store.settings))
      ensures admin.store.settings == InitSettings(old(admin.store.table.rows), old(admin.store.settings))
      ensures admin.store.table.log == old(admin.store.table.log) + InitWrites(old(admin.store.table.rows), old(admin.store.settings))
    {
      trace := trace + [Fire(LoadedHook)];
      fired := fired + [LoadedHook];
      LoadedListeners(acfPresent);
    }

    /** The body of `initialise()`: it includes the class files, constructs
        the objects, then fires `sof_orgs/loaded`. */
    method Load(table: OptionTable, acfPresent: bool)
      requires Valid() && !done
      modifies this, table
      ensures trace == LoadTrace(acfPresent) && fired == [LoadedHook]
      ensures admin != null && civicrm != null && fresh(admin) && admin.done && admin.store.table == table
      ensures table.rows == InitRows(old(table.rows), map[])
      ensures admin.store.settings == InitSettings(old(table.rows), map[])
      ensures table.log == old(table.log) + InitWrites(old(table.rows), map[])
    {
      trace := trace + [Translation];
      IncludeFiles();
      SetupObjects(table);
      FireLoaded(acfPresent);
    }

    /** `initialise()`: its body runs once. */
    method Initialise(table: OptionTable, acfPresent: bool)
      requires Valid()
      modifies this, table
      ensures Valid() && done
      ensures old(done) ==> trace == old(trace) && fired == old(fired) && admin == old(admin) && civicrm == old(civicrm)
                            && table.rows == old(table.rows) && table.log == old(table.log)
      ensures !old(done) ==> trace == LoadTrace(acfPresent) && fired == [LoadedHook]
      ensures !old(done) ==> fresh(admin) && admin.done && admin.store.table == table
                             && table.rows == InitRows(old(table.rows), map[])
                             && admin.store.settings == InitSettings(old(table.rows), map[])
                             && table.log == old(table.log) + InitWrites(old(table.rows), map[])
    {
      if done {
        return;
      }
      Load(table, acfPresent);
      done := true;
    }

    /** `activate()`: initialise if need be, then announce activation. */
    method Activate(table: OptionTable, acfPresent: bool)
      requires Valid()
      modifies this, table
      ensures Valid() && done
      ensures trace == (if old(done) then old(trace) else LoadTrace(acfPresent))
      ensures fired == (if old(done) then old(fired) else [LoadedHook]) + [ActivateHook]
      ensures old(done) ==> admin == old(admin) && civicrm == old(civicrm)
                            && table.rows == old(table.rows) && table.log == old(table.log)
      ensures !old(done) ==> fresh(admin) && admin.done && admin.store.table == table
                             && table.rows == InitRows(old(table.rows), map[])
                             && admin.store.settings == InitSettings(old(table.rows), map[])
                             && table.log == old(table.log) + InitWrites(old(table.rows), map[])
    {
      Initialise(table, acfPresent);
      fired := fired + [ActivateHook];
    }

    /** `deactivate()`: initialise if need be, then announce deactivation. */
    method Deactivate(table: OptionTable, acfPresent: bool)
      requires Valid()
      modifies this, table
      ensures Valid() && done
      ensures trace == (if old(done) then old(trace) else LoadTrace(acfPresent))
      ensures fired == (if old(done) then old(fired) else [LoadedHook]) + [DeactivateHook]
      ensures old(done) ==> admin == old(admin) && civicrm == old(civicrm)
                            && table.rows == old(table.rows) && table.log == old(table.log)
      ensures !old(done) ==> fresh(admin) && admin.done && admin.store.table == table
                             && table.rows == InitRows(old(table.rows), map[])
                             && admin.store.settings == InitSettings(old(table.rows), map[])
                             && table.log == old(table.log) + InitWrites(old(table.rows), map[])
    {
      Initialise(table, acfPresent);
      fired := fired + [DeactivateHook];
    }
  }

  /** The `static $sof_organisations` of `sof_organisations()`. */
  class Accessor {
    var instance: Plugin?

    constructor ()
      ensures instance == null
    {
      instance := null;
    }

    /** `sof_organisations()`: creates the instance on the first call and
        returns that same instance on every later one. */
    method Get() returns (p: Plugin)
      modifies this
      ensures old(instance) != null ==> p == old(instance) && instance == old(instance)
      ensures old(instance) == null ==> fresh(p) && instance == p && p.Valid() && !p.done
    {
      if instance == null {
        instance := new Plugin();
      }
      p := instance;
    }
  }
}
