# SOF Organisations — a verified model of the settings and gating core

SOF Organisations is a WordPress plugin. It registers Organisation, Partner
and Ball Host post types, plus ACF fields on CiviCRM Events. Whether each
part loads depends on a small settings layer:

- one settings array, held in memory;
- that array persisted as a whole under the option `sof_orgs_settings`, next
  to a stored plugin version (`sof_orgs_version`);
- module flags that count as on only when they are strictly the string `'y'`.

Two settings pages write that array from POST data. Loaders read it to decide
which class files to require and which objects to construct. A CiviCRM
bridge caches the custom groups of Events. The repository holds two code
generations:

- The older one is the top-level `includes/class-*.php` files, which the main
  plugin file loads.
- The newer, settings-gated one is under `includes/admin`, `includes/cpt` and
  `includes/acf`.

Both generations share one settings store (`Settings.SettingsStore`), and
each generation's classes are modelled against it.

How the model is built:

- **PHP values.** PHP values are the `PhpValues.Value` datatype. `isset`,
  `empty` and the `(int)` cast are written out (`PhpValues.IsSetIn`,
  `PhpValues.Empty`, `PhpStrings.IntCast`). Strict `===` is Dafny's `==`.
- **Option table.** The host's option table is a class holding a map of
  rows. It also keeps a log of every write, so "persists exactly once" can be
  stated.
- **Objects that change state.** Objects whose fields PHP updates in place
  are Dafny classes:
  - the settings store;
  - the settings pages with their memoised URLs;
  - the loaders with their `static $done` guards;
  - the CiviCRM bridge with its `static $pseudocache`;
  - the plugin and its accessor.
- **Pure builders.** The array builders are functions: default settings,
  screen ids, redirect arguments, ACF fields and groups.
- **Specification functions.** Each method's contract ties its new state to
  a specification function. Lemmas then prove what the plugin promises about
  that function. The main ones:
  - `Settings.InitRows` and `Settings.InitSettings` for `settings_initialise`;
  - `LegacySettingsPage.FieldOptionsOf` for the grouping loop;
  - `CiviCrm.GroupsFetch` for the cache;
  - `Cpt.FilesFor` and `Cpt.ObjectsFor` for the loader.
- **Inputs from outside.** Everything outside the plugin becomes a parameter:
  - POST data (`map<string, string>`);
  - the nonce check's verdict (`nonceOk`);
  - the capability check (`canManage`);
  - the menu URL of a page (`menuUrl`, `pageUrl`);
  - whether ACF is present (`acfPresent`);
  - what `civicrm_api` and `civi_wp()` answer (`ApiResult`, `Environment`).
- **Ending a request.** A redirect followed by `exit` and a failed nonce
  check are outcomes (`SettingsPage.Response`). The request stops there.

Behaviour of the code that the model keeps as written:

- **Defaults are dropped.** `setting_get` takes only a name. The default
  every loader passes is dropped, so a missing flag reads as `false` and
  turns its module off. See `Cpt.DefaultsAndMissingFlags` and
  `Admin.LegacySeedHidesBallHost`.
- **Older generation seeds nothing.** On a fresh install the older
  generation seeds the option with its empty in-memory array, not with the
  defaults (`LegacyAdmin.FreshInstallStoresEmpty`).
- **Hosts file and object use different flags.** The CPT loader requires
  the Hosts class file under `partner_enabled` but constructs the Hosts
  object under `host_enabled`. In the model, the object is constructed
  without its file exactly when Hosts is on and Partners is off, and
  `initialise` then ends in PHP's fatal "class not found" error
  (`Cpt.Outcome.HostsClassMissing`). `Cpt.ObjectsHaveFilesIff` and
  `Cpt.FirstRunFatalIff` state this.
- **Saving the general form turns Pledgeball off.** The general settings
  template has no Pledgeball control. A save through it therefore stores `'n'`
  for `pledgeball_enabled` (`SettingsPage.MissingFieldDisables`).
- **Only `is_error == 1` is an error.** The CiviCRM bridge treats an API
  result as an error only when `is_error` casts to exactly 1
  (`CiviCrm.OnlyErrorOneIsError`).
- **`str_replace` makes one pass.** A doubly escaped `&` survives one
  un-escaping (`PhpStrings.UnescapeIsSinglePass`).

## Model

| member | source | states |
|---|---|---|
| PhpStrings.IntCastDecimalString | includes/class-admin-page-settings.php:461 | `(int)` of the decimal rendering of any integer is that integer, so a field id submitted as digits is read back exactly |
| PhpStrings.IntCastNonNumeric | includes/class-admin-page-settings.php:461 | a submitted value that does not start with white space, a sign or a digit casts to 0 |
| PhpStrings.UnescapeEscapeAmp | includes/class-admin-page-settings.php:507 | replacing `&#038;` by `&` undoes the entity escaping of every URL |
| PhpStrings.UnescapeNoAmp | includes/class-admin-page-settings.php:507 | a URL without `&` is left unchanged by the replacement |
| PhpStrings.UnescapeIsSinglePass | includes/class-admin-page-settings.php:507 | the replacement is a single pass whose output is not rescanned: un-escaping a doubly escaped string leaves it escaped once, for every string (for instance `&#038;#038;` becomes `&#038;`) |
| PhpStrings.NatStringValue | includes/admin/class-admin-page-base.php:504-507 | the digits PHP writes for a natural number read back as that number |
| PhpValues.ToPhpString | includes/acf/class-acf-events.php:223 | concatenating a string value inserts it unchanged; concatenating an int inserts digits that cast back to it |
| PhpValues.IntCastValue | includes/class-civicrm.php:174 | `(int)` of an int is itself, of a string is the string cast, and of every other empty value is 0 |
| PhpValues.NonEmptyRendersNonEmpty | includes/acf/class-acf-events.php:202-207 | a value that passes the `empty` check never renders as the empty string |
| Options.GetOption | includes/admin/class-admin.php:439-447 | `get_option(k, d)` is the stored value when `k` is present and `d` otherwise |
| Options.OptionExists | includes/admin/class-admin.php:419-428 | `option_exists(k)` holds exactly when `k` is stored with a value other than the sentinel string, so a stored sentinel reads as absent |
| Options.OptionTable.Update | includes/admin/class-admin.php:457-462 | `update_option` overwrites one row and records one write |
| Options.OptionTable.Delete | includes/admin/class-admin.php:471-476 | `delete_option` removes one row and records one delete |
| Settings.Defaults | includes/admin/class-admin.php:283-315 | the defaults are exactly the four module flags, each `'y'`, and `event_ball_host_custom_field_id` = `''` |
| Settings.Lookup | includes/admin/class-admin.php:363-376 | `setting_get(n)` is `settings[n]` when `n` is set to a non-null value and `false` otherwise; it has no default parameter |
| Settings.StoredVersion | includes/admin/class-admin.php:226-239 | `version_get` is `false` when the version option does not exist and the stored value otherwise |
| Settings.InitRows | includes/admin/class-admin.php:140-161 | after `settings_initialise` the table has the settings option (seeded when it was absent, untouched otherwise) and the current version; other rows are unchanged |
| Settings.InitWrites | includes/admin/class-admin.php:140-161 | `settings_initialise` makes at most two `update_option` calls: the seed exactly when the settings option is missing, the current version exactly when the stored one differs |
| Settings.InitSettings | includes/admin/class-admin.php:149-154 | after `settings_initialise` the in-memory settings are the seed when the option was absent, and the stored array otherwise |
| Settings.InitSettingsMatchStored | includes/class-admin.php:140-145 | after initialisation the in-memory settings equal the stored option whenever it holds an array |
| Settings.InitIdempotent | includes/admin/class-admin.php:140-161 | initialising a second time changes neither the table nor the settings, and it writes nothing |
| Settings.SaveReloadRoundTrip | includes/admin/class-admin.php:336-341 | a value written with `setting_set` and saved is what `setting_get` returns after the next request reloads the option |
| Settings.DeleteThenLookup | includes/admin/class-admin.php:400-407 | after `setting_delete(n)` the setting reads `false` and every other setting reads as before |
| Settings.SettingsStore.constructor | includes/class-admin.php:74 | the in-memory settings start as the empty array |
| Settings.SettingsStore.SettingsGetDefaults | includes/admin/class-admin.php:283-315 | returns the defaults |
| Settings.SettingsStore.SettingsGet | includes/admin/class-admin.php:324-329 | returns the in-memory settings |
| Settings.SettingsStore.SettingGet | includes/class-admin.php:339-352 | returns the stored non-null value or `false` |
| Settings.SettingsStore.SettingSet | includes/admin/class-admin.php:386-391 | overwrites one key of the in-memory array; no other key appears or disappears |
| Settings.SettingsStore.SettingDelete | includes/class-admin.php:376-383 | removes the key only when it is set (present and non-null); otherwise nothing changes |
| Settings.SettingsStore.SettingsSave | includes/class-admin.php:312-317 | writes the whole in-memory array over `sof_orgs_settings`, as exactly one write |
| Settings.SettingsStore.SettingsDelete | includes/admin/class-admin.php:348-353 | deletes the settings option; the in-memory array stays |
| Settings.SettingsStore.OptionExistsIn | includes/class-admin.php:395-404 | the sentinel test on the live table |
| Settings.SettingsStore.OptionGet | includes/admin/class-admin.php:439-447 | reads one option with a default |
| Settings.SettingsStore.OptionSet | includes/class-admin.php:433-438 | writes one option, as one write |
| Settings.SettingsStore.OptionDelete | includes/class-admin.php:447-452 | deletes one option, as one delete |
| Settings.SettingsStore.VersionGet | includes/class-admin.php:194-207 | `false` when no version option exists, otherwise the stored version |
| Settings.SettingsStore.VersionSet | includes/admin/class-admin.php:246-251 | stores `1.0a` under `sof_orgs_version` |
| Settings.SettingsStore.SettingsInitialise | includes/class-admin.php:131-152 | records the stored version, seeds a missing option, loads the settings and brings the stored version up to date, as `InitRows`/`InitSettings` say; the only writes are those `InitWrites` names |
| Settings.SettingsStore.InitialiseWithDefaults | includes/admin/class-admin.php:149-159 | on a fresh install both the stored option and the settings are the defaults; the stored version is current; the only writes are those `InitWrites` names |
| Settings.SettingsStore.InitialiseFromCurrent | includes/class-admin.php:140-149 | a missing option is seeded with the current in-memory array; the stored version is current; the only writes are those `InitWrites` names |
| SettingsPage.PrefixedInjective | includes/admin/class-admin-page-base.php:249-252 | prefixing keeps the four form names distinct |
| SettingsPage.SubmittedFlag | includes/admin/class-admin-page-base.php:883-886 | a flag takes the submitted string, or `'n'` when its field is absent |
| SettingsPage.FlagWrites | includes/admin/class-admin-page-base.php:883-892 | the four flag keys, and only they, are written, each with its submitted value or `'n'` |
| SettingsPage.FlagWritesRead | includes/admin/class-admin-page-base.php:883-895 | after a save each flag reads as submitted or `'n'`, and every other setting reads as before |
| SettingsPage.MissingFieldDisables | includes/admin/class-admin-page-base.php:886 | a form without a Pledgeball field turns the Pledgeball module off |
| SettingsPage.RedirectArgs | includes/admin/class-admin-page-base.php:913-928 | the arguments are `updated=true` when the mode is `'updated'` and empty otherwise |
| SettingsPage.PageScreenId | includes/admin/class-admin-page-base.php:590-593 | the screen id is context then slug, with `-network` added only on the network admin |
| SettingsPage.SiteAndNetworkScreensDiffer | includes/admin/class-admin-page-base.php:647-650 | a site page's screen id never equals the network screen id of the same slug |
| SettingsPage.MetaBoxClosed | includes/admin/class-admin-page-base.php:724-735 | appends `'closed'` to a list lacking it, leaves a list that has it alone, returns anything else unchanged |
| SettingsPage.MetaBoxClosedIdempotent | includes/admin/class-admin-page-base.php:724-735 | closing twice is closing once |
| SettingsPage.SettingsColumns | includes/admin/class-admin-page-base.php:511-516 | the settings layout has `'1'` column exactly when the screen reports 1, and `'2'` otherwise |
| SettingsPage.DashboardColumnsCss | includes/admin/class-admin-page-base.php:500-509 | the dashboard class is empty exactly when the column count is 0, and otherwise is ` columns-` followed by digits that read back as the count |
| SettingsPage.SettingsPage.constructor | includes/admin/class-admin-page-base.php:246-259 | the nonce field, nonce action, form id and submit id are the defaults with `hook_prefix + '_'` in front |
| SettingsPage.SettingsPage.MetaBoxesAdded | includes/admin/class-admin-page-base.php:587-634 | metaboxes are added only for the page's own screen id and a capable user; the submit box only in the settings layout, then the general box |
| SettingsPage.SettingsPage.MetaBoxesRegistered | includes/admin/class-admin-page-base.php:644-691 | the general metabox is registered only for the page's own screen id and a capable user |
| SettingsPage.SettingsPage.FormSave | includes/admin/class-admin-page-base.php:874-900 | after the nonce check, the four flags are written and the whole array is persisted exactly once, after the writes; nothing else changes |
| SettingsPage.SettingsPage.FormSubmitted | includes/admin/class-admin-page-base.php:814-865 | without the submit field nothing changes and there is no redirect; a bad nonce aborts with nothing changed; otherwise the save then a redirect with `updated=true` |
| CiviCrm.IsInitialised | includes/class-civicrm.php:106-124 | CiviCRM is usable exactly when `CIVICRM_INSTALLED` is defined and truthy, `civi_wp` exists and it initialises |
| CiviCrm.ApiGroups | includes/class-civicrm.php:173-186 | a result yields its values exactly when it is not an error (`is_error` non-empty and casting to 1) and its values are non-empty |
| CiviCrm.GroupsFetch | includes/class-civicrm.php:137-192 | a filled cache is returned without consulting the API; without CiviCRM the answer is `[]` and nothing is cached; only a successful result is cached, and it is what is returned; with CiviCRM usable and the cache empty, the cache becomes exactly what the API yields and a successful result's values are returned |
| CiviCrm.SuccessIsCached | includes/class-civicrm.php:184-190 | a successful call on an empty cache returns the API's values and caches them |
| CiviCrm.CacheIsSticky | includes/class-civicrm.php:140-143 | once filled, the cache answers every later call, whatever the environment and the API say |
| CiviCrm.ErrorIsRetried | includes/class-civicrm.php:174-176 | an error result yields `[]`, is not cached, and the next call consults the API again |
| CiviCrm.OnlyErrorOneIsError | includes/class-civicrm.php:174 | an `is_error` of 2 with values counts as success; the string `'1'` counts as an error |
| CiviCrm.CiviCrm.CustomGroupsGetForEvents | includes/class-civicrm.php:137-192 | returns the groups and updates the static cache as `GroupsFetch` says, calling the API only when it consults it |
| LegacySettingsPage.SettingsScreens | includes/class-admin-page-settings.php:289-305 | the settings screens are exactly `['host_page_' + parent slug]` |
| LegacySettingsPage.MetaBoxesAdded | includes/class-admin-page-settings.php:344-386 | the submit and general metaboxes are added only on the `host_page_sof-hosts-parent` screen for a capable user |
| LegacySettingsPage.AssignHas | includes/class-admin-page-settings.php:415-419 | a title, and a title–id pair, is in the built array exactly when some assignment made it |
| LegacySettingsPage.AssignLastWins | includes/class-admin-page-settings.php:416 | the label stored for a pair is that of the last assignment to it |
| LegacySettingsPage.EntriesTitles | includes/class-admin-page-settings.php:413-415 | assignments carry exactly the titles of the groups that have fields |
| LegacySettingsPage.EntriesPairs | includes/class-admin-page-settings.php:413-419 | assignments are made for exactly the fields of the groups, under their group's title |
| LegacySettingsPage.FieldOptionsMembership | includes/class-admin-page-settings.php:411-420 | the options hold a title exactly when a group with that title has fields, and an id under it exactly when such a group has a field with that id; groups without fields contribute nothing |
| LegacySettingsPage.LastGroupOverwrites | includes/class-admin-page-settings.php:411-420 | a later group's field overwrites the label an earlier group gave the same title and id |
| LegacySettingsPage.EventOrgId | includes/class-admin-page-settings.php:461 | the id is the int cast of `sof_orgs_event_org`, or 0 when it is absent |
| LegacySettingsPage.EventOrgIdRoundTrip | includes/class-admin-page-settings.php:461 | an id submitted as its decimal digits is stored as that id |
| LegacySettingsPage.ShownFieldId | includes/class-admin-page-settings.php:423-426 | an empty stored field id is shown as 0; any other is shown as stored |
| LegacySettingsPage.LegacySettingsPage.PageTabUrlsGet | includes/class-admin-page-settings.php:197-222 | the first call computes and stores the URLs (the settings URL is the page's menu URL); later calls return the stored array unchanged |
| LegacySettingsPage.LegacySettingsPage.BuildFieldOptions | includes/class-admin-page-settings.php:411-420 | the nested loop builds exactly `FieldOptionsOf(groups)` |
| LegacySettingsPage.LegacySettingsPage.MetaBoxGeneralRender | includes/class-admin-page-settings.php:405-431 | the options are grouped from the (cached) custom groups, and the stored field id is normalised for display |
| LegacySettingsPage.LegacySettingsPage.FormSettingsUpdate | includes/class-admin-page-settings.php:457-474 | writes only `event_ball_host_custom_field_id`, as the cast id or 0, then persists once |
| LegacySettingsPage.LegacySettingsPage.FormRedirect | includes/class-admin-page-settings.php:493-513 | redirects to the settings URL with every `&#038;` replaced by `&`, adding `settings-updated=true` |
| LegacySettingsPage.LegacySettingsPage.FormSubmitted | includes/class-admin-page-settings.php:440-450 | acts only when `sof_orgs_save` is posted; then the nonce check, the update and the redirect, in that order |
| Admin.FreshInstallLoadsBallHost | includes/admin/class-admin.php:149-151 | on a fresh install the defaults turn the Ball Host page on |
| Admin.LegacySeedHidesBallHost | includes/admin/class-admin.php:172-183 | a settings option seeded empty by the older generation turns the Ball Host page off, because the passed default is dropped |
| Admin.Admin.IncludeFiles | includes/admin/class-admin.php:168-185 | the Ball Host page's file is required only when `host_enabled` is `'y'` |
| Admin.Admin.SetupObjects | includes/admin/class-admin.php:192-206 | the general settings page is built with its prefix, context and slug; the Ball Host page only when `host_enabled` is `'y'` |
| Admin.Admin.Initialise | includes/admin/class-admin.php:107-133 | the body runs once; it loads the settings with the defaults as seed, and the Ball Host file and object exist exactly when `host_enabled` is `'y'`; the only writes are those `InitWrites` names; the recorded version is the stored one read first, and a repeated call changes nothing |
| LegacyAdmin.FreshInstallStoresEmpty | includes/class-admin.php:74 | on a fresh install the older generation stores and loads an empty array, in which every setting reads `false` |
| LegacyAdmin.Admin.SetupObjects | includes/class-admin.php:170-174 | builds a fresh settings page whose URLs are not yet computed |
| LegacyAdmin.Admin.Initialise | includes/class-admin.php:98-124 | the body (settings load seeded from the in-memory array, page construction, broadcast) runs at most once; the only writes are those `InitWrites` names |
| Cpt.FilesFor | includes/cpt/class-cpt.php:111-132 | the Organisations file is required iff its flag is `'y'`; the Partners and Hosts files iff `partner_enabled` is `'y'` |
| Cpt.ObjectsFor | includes/cpt/class-cpt.php:139-160 | each object is constructed iff its own flag is `'y'` |
| Cpt.ObjectsHaveFilesIff | includes/cpt/class-cpt.php:128-130 | every constructed object has its file exactly when `host_enabled = 'y'` implies `partner_enabled = 'y'` |
| Cpt.DefaultsAndMissingFlags | includes/cpt/class-cpt.php:117-122 | the defaults load every module; a settings array without the flags loads none |
| Cpt.OnlyStrictYEnables | includes/cpt/class-cpt.php:145-158 | any flag value other than the string `'y'` leaves its module unloaded |
| Cpt.FirstRunFatalIff | includes/cpt/class-cpt.php:156-158 | the Hosts object lacks its class file exactly when Hosts is on and Partners is off |
| Cpt.CptLoader.IncludeFiles | includes/cpt/class-cpt.php:111-132 | adds the files `FilesFor` names |
| Cpt.CptLoader.SetupObjects | includes/cpt/class-cpt.php:139-160 | constructs the objects `ObjectsFor` names, stopping with the class-not-found outcome when the Hosts file is missing |
| Cpt.CptLoader.Initialise | includes/cpt/class-cpt.php:81-104 | files before objects; the body and `sof_orgs/cpt/loaded` happen at most once; it fails exactly when the Hosts object lacks its file |
| Acf.AcfLoader.constructor | includes/acf/class-acf.php:57-70 | `initialise` is hooked only when ACF is present |
| Acf.AcfLoader.IncludeFiles | includes/acf/class-acf.php:107-123 | the Events file is required only when `pledgeball_enabled` is `'y'` |
| Acf.AcfLoader.SetupObjects | includes/acf/class-acf.php:130-146 | a fresh Events object only when `pledgeball_enabled` is `'y'` |
| Acf.AcfLoader.Initialise | includes/acf/class-acf.php:77-100 | the body and `sof_orgs/acf/loaded` happen at most once; the Events file and object exist iff Pledgeball is on; the broadcast runs the Events object's `initialise`, which registers its two `acf/init` callbacks; the Organisations module never loads |
| AcfFields.EventGroup | includes/acf/class-acf-events.php:136-178 | the group key is `group_sof_event_data`, attached to events, hiding the author box |
| AcfFields.CrmReference | includes/acf/class-acf-events.php:223 | the reference is `caicustom_` followed by the id as PHP renders it |
| AcfFields.CrmReferenceNamesId | includes/class-acf-events.php:183 | the reference of an integer id names that id |
| AcfFields.CrmReferenceInjective | includes/class-acf-events.php:183 | distinct ids give distinct references |
| AcfEvents.OrganiserField | includes/acf/class-acf-events.php:199-229 | the organiser field exists iff the stored id is non-empty; its key, parent and CRM reference |
| AcfEvents.SwitchField | includes/acf/class-acf-events.php:236-301 | the form-enabled and use-country fields are `true_false` switches under the group key, each keyed by its name with `field_sof_event_` in front and bound to no CiviCRM field |
| AcfEvents.FieldsAddedShape | includes/acf/class-acf-events.php:185-192 | organiser (when present), then form-enabled, then use-country; every parent is the group key and the keys are distinct |
| AcfEvents.SavedIdBindsOrganiser | includes/acf/class-acf-events.php:202-223 | a non-zero id saved by the settings form binds the organiser field to `caicustom_<id>`; 0 yields no field |
| AcfEvents.DefaultsHaveNoOrganiser | includes/acf/class-acf-events.php:202-207 | with the default `''` id there is no organiser field |
| AcfEvents.Events.Initialise | includes/acf/class-acf-events.php:81-102 | registers the two `acf/init` callbacks and fires its hook at most once |
| AcfEvents.Events.FieldGroupsAdd | includes/acf/class-acf-events.php:124-178 | registers the "Pledgeball Information" group |
| AcfEvents.Events.FieldOrganiserAdd | includes/acf/class-acf-events.php:199-229 | registers the organiser field only for a non-empty stored id |
| AcfEvents.Events.FieldsAdd | includes/acf/class-acf-events.php:185-192 | registers exactly `FieldsAdded` of the stored id, in order |
| LegacyAcfEvents.OrganiserField | includes/class-acf-events.php:159-189 | the organiser field exists iff the stored id is non-empty; key `field_sof_event_organiser`, parent `group_sof_event_data`, reference `caicustom_<id>` |
| LegacyAcfEvents.OrganisationsRepeater | includes/class-acf-events.php:198-239 | one repeater with exactly one sub-field, bound to the fixed `caicustom_1` |
| LegacyAcfEvents.GenerationsAgreeOnOrganiser | includes/class-acf-events.php:162-183 | both generations add the organiser field for the same ids, identical except for its label |
| LegacyAcfEvents.Events.RegisterHooks | includes/class-acf-events.php:82-88 | registers the two `acf/init` callbacks (no guard of its own) |
| LegacyAcfEvents.Events.FieldGroupsAdd | includes/class-acf-events.php:97-139 | registers the "Ball Host" group under key `group_sof_event_data` |
| LegacyAcfEvents.Events.FieldsAdd | includes/class-acf-events.php:146-152 | registers only the organiser field, and only for a non-empty id |
| LegacyAcfEvents.Events.FieldOrganiserAdd | includes/class-acf-events.php:159-189 | registers the organiser field only for a non-empty stored id |
| LegacyAcfEvents.Events.FieldOrganisationsAdd | includes/class-acf-events.php:198-239 | registers the repeater |
| Plugin.AdminInitialisesFirst | sof-organisations.php:172-175 | the admin (settings) initialises before every other listener of `sof_orgs/loaded` |
| Plugin.LoadedFiresAfterConstruction | sof-organisations.php:118-125 | `sof_orgs/loaded` fires once, after every object is constructed and before any listener runs |
| Plugin.IncludeBeforeConstruct | sof-organisations.php:154-177 | each class file is included before its object is constructed |
| Plugin.AcfInitialisesIff | includes/class-acf.php:58-69 | the ACF loader initialises exactly when ACF is present |
| Plugin.Plugin.IncludeFiles | sof-organisations.php:154-162 | includes the admin, CiviCRM, post type and ACF class files, in that order |
| Plugin.Plugin.SetupObjects | sof-organisations.php:169-177 | constructs admin, CiviCRM, post types, ACF, in that order |
| Plugin.Plugin.LoadedListeners | sof-organisations.php:118-125 | the listeners run in the order they were hooked; the admin's loads the settings |
| Plugin.Plugin.FireLoaded | sof-organisations.php:120-125 | `sof_orgs/loaded` is recorded as fired, then its listeners run in hook order; the admin's loads the settings, with only the writes `InitWrites` names |
| Plugin.Plugin.Load | sof-organisations.php:111-125 | translation, includes, constructions, then the hook: the trace is exactly `LoadTrace`, and the settings are loaded from the table with an empty seed |
| Plugin.Plugin.Initialise | sof-organisations.php:103-130 | the body runs at most once and produces exactly the load trace; the settings are loaded from the table; the only writes are those `InitWrites` names |
| Plugin.Plugin.Activate | sof-organisations.php:184-196 | initialises first when not yet done, with the settings loaded, rows and writes as `Plugin.Plugin.Initialise` states them (and nothing changed in the table otherwise), then fires `sof_orgs/activate` |
| Plugin.Plugin.Deactivate | sof-organisations.php:203-215 | initialises first when not yet done, with the settings loaded, rows and writes as `Plugin.Plugin.Initialise` states them (and nothing changed in the table otherwise), then fires `sof_orgs/deactivate` |
| Plugin.Accessor.Get | sof-organisations.php:228-241 | the first call creates the instance; every later call returns that same instance |

## Left out

- Host hooks are not dispatched. `add_action`/`do_action` are replaced by explicit calls in registration order, and `apply_filters` is the identity.
- The module broadcasts `sof_orgs/admin/loaded` (`Admin.Admin.Initialise`, `LegacyAdmin.Admin.Initialise`) and `sof_orgs/cpt/loaded` (`Cpt.CptLoader.Initialise`) are only counted. Their listeners, the settings pages' and post types' own `initialise` methods, are not run by the model. `sof_orgs/acf/loaded` does run the Events object's `initialise`.
- `static $done` and `static $pseudocache` are statics of a PHP method, shared by every instance of the class. The model stores them as fields of the one object. This is equivalent only because the plugin constructs exactly one instance of each class.
- `sanitize_text_field` and `wp_unslash` are the identity.
- The calls that end or check a request are outcomes or inputs:
  - `check_admin_referer` is an abort-or-continue input;
  - `wp_safe_redirect` followed by `exit` is a terminal outcome;
  - `current_user_can` is the `canManage` input.
- `menu_page_url` and `add_query_arg` become the `menuUrl` input and the redirect's `args`. The query string itself is not built.
- `network_menu_page_url` is not modelled. It depends on global menu state and on URL escaping that is not part of this model.
- `civicrm_api` and `civi_wp()->initialize()` are foreign calls. Their answers are inputs.
- `load_plugin_textdomain`, `flush_rewrite_rules`, `__()` translation and all template rendering are not modelled. Labels are the untranslated English strings.
- The class file `includes/admin/class-admin-settings-ball-host.php` is not part of this model. Only whether it is required and constructed is tracked.
- The post type classes are not modelled. They are constant registration arrays.
- The older CPT and ACF loaders (`includes/class-cpt.php`, `includes/class-acf.php`) make no decisions. They appear only as events in `Plugin.LoadTrace`.
- The ACF Organisations modules are never loaded and are not modelled.
- PhpStrings.IntCast: exponent forms such as `'1e3'` and the 64-bit overflow of PHP integers are not modelled. The cast reads white space, a sign and digits only.
- Settings.AsSettings: a stored settings option that is not an array reads as an empty settings array. PHP would keep the scalar.
- POST fields are strings. Array-valued POST fields are not modelled.
- SettingsPage.MetaBoxClosed: only list arrays are modelled. An associative array passed in is returned unchanged, although PHP would append to it.
- LegacySettingsPage.FieldOptionsOf: keys are strings. PHP's conversion of numeric-string array keys to integers is not modelled.
- `update_option` skips the database write when the value is unchanged. The model records every call as a write.
- `upgrade_tasks` and `upgrade_alert` are not modelled. `upgrade_tasks` has an empty body.
- The settings-page menu and help-tab plumbing is not modelled.
- Cpt.CptLoader.SetupObjects requires that `include_files` already ran on the same settings, as `initialise` guarantees. Constructing Organisations or Partners without its file therefore cannot happen and is not modelled.
