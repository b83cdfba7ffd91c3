/** The ACF loader of the settings-gated generation: present only when ACF
    is, it loads the Pledgeball Events fields when the Pledgeball flag is
    strictly 'y', and never the ACF Organisations module. */
module Acf {
  import opened PhpValues
  import opened Settings
  import AcfEvents

  /** `SOF_Organisations_ACF`. */
  class AcfLoader {
    /** The admin's settings, read through `setting_get`. */
    const store: SettingsStore
    /** Whether the constructor stored the plugin and hooked `initialise`:
        only when the `acf` function exists. */
    const hooked: bool
    /** Whether `class-acf-events.php` has been required. */
    var eventsFileRequired: bool
    /** `$events`. */
    var events: AcfEvents.Events?
    /** Whether `$organisation` has been set; nothing sets it. */
    var organisation: bool
    /** `static $done` of `initialise`. */
    var done: bool
    /** How often `sof_orgs/acf/loaded` has fired. */
    var broadcasts: nat

    ghost predicate Valid()
      reads this
    {
      (events != null ==> eventsFileRequired) && !organisation
      && (!done ==> broadcasts == 0 && events == null && !eventsFileRequired)
      && (done ==> broadcasts == 1)
    }

    /** The constructor bails before storing anything when ACF is absent. */
    constructor (store: SettingsStore, acfPresent: bool)
      ensures this.store == store && hooked == acfPresent && Valid() && !done
    {
      this.store := store;
      hooked := acfPresent;
      eventsFileRequired := false;
      events := null;
      organisation := false;
      done := false;
      broadcasts := 0;
    }

    /** `include_files()`: the Events file only when the Pledgeball flag is
        strictly 'y'; the Organisations file is commented out. */
    method IncludeFiles()
      modifies this`eventsFileRequired
      ensures eventsFileRequired <==> old(eventsFileRequired) || Enabled(store.settings, PledgeballEnabled)
    {
      // The default passed as `setting_get`'s second argument, which it ignores.
      var defaults := Defaults();
      var pledgeballEnabled := store.SettingGet(PledgeballEnabled);
      if pledgeballEnabled == Str("y") {
        eventsFileRequired := true;
      }
    }

    /** `setup_objects()`: a fresh Events object only when the Pledgeball flag
        is strictly 'y'; the Organisations object is commented out. */
    method SetupObjects()
      modifies this`events
      ensures Enabled(store.settings, PledgeballEnabled) ==>
                events != null && fresh(events) && events.store == store && !events.done && events.Valid()
      ensures !Enabled(store.settings, PledgeballEnabled) ==> events == old(events)
    {
      // The default passed as `setting_get`'s second argument, which it ignores.
      var defaults := Defaults();
      var pledgeballEnabled := store.SettingGet(PledgeballEnabled);
      if pledgeballEnabled == Str("y") {
        events := new AcfEvents.Events(store);
      }
    }

    /** `initialise()`, reached only through the hook the constructor adds:
        files, objects and the broadcast, once. The Events object listens to
        `sof_orgs/acf/loaded`, so the broadcast runs its `initialise`. */
    method Initialise()
      requires hooked && Valid()
      modifies this
      ensures Valid() && done && !organisation
      ensures old(done) ==> events == old(events) && eventsFileRequired == old(eventsFileRequired)
                            && broadcasts == old(broadcasts)
      ensures !old(done) ==> (eventsFileRequired <==> Enabled(store.settings, PledgeballEnabled))
      ensures !old(done) ==> (events != null <==> Enabled(store.settings, PledgeballEnabled))
      ensures !old(done) && events != null ==>
                fresh(events) && events.store == store && events.Valid()
                && events.done && events.hooks == ["field_groups_add", "fields_add"] && events.broadcasts == 1
    {
      if done {
        return;
      }
      IncludeFiles();
      SetupObjects();
      broadcasts := broadcasts + 1;
      if events != null {
        events.Initialise();
      }
      done := true;
    }
  }
}
