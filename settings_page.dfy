/** The settings page of the settings-gated generation: the base page class
    with its form handling and its screen, metabox and layout helpers. */
module SettingsPage {
  import opened PhpValues
  import opened PhpStrings
  import opened Options
  import opened Settings

  /** What a request to the page ends in. `Aborted` is the host's rejection
      of a request whose nonce does not check out; `Redirect` ends the
      request with a redirect to `url` with the query `args` added. */
  datatype Response = NoAction | Aborted | Redirect(url: string, args: map<string, string>)

  /** The POST fields that carry the four flags. */
  const KeyOrganisationEnabled: string := "sof_organisation_enabled"
  const KeyPartnerEnabled: string := "sof_partner_enabled"
  const KeyHostEnabled: string := "sof_host_enabled"
  const KeyPledgeballEnabled: string := "sof_pledgeball_enabled"

  /** `$hook_prefix . '_' . $name`, as the constructor builds the form names. */
  function Prefixed(prefix: string, name: string): string {
    prefix + "_" + name
  }

  /** Prefixing keeps distinct names distinct, so the four form names the
      constructor builds from distinct defaults stay distinct. */
  lemma PrefixedInjective(prefix: string, a: string, b: string)
    requires a != b
    ensures Prefixed(prefix, a) != Prefixed(prefix, b)
  {
    var n := |prefix| + 1;
    assert Prefixed(prefix, a)[n..] == a;
    assert Prefixed(prefix, b)[n..] == b;
  }

  /** The value `form_save` takes for one flag: the submitted string, or 'n'
      when the field is absent (an unticked or missing control). */
  function SubmittedFlag(post: map<string, string>, key: string): (v: Value)
    ensures v.Str?
    ensures key in post ==> v == Str(post[key])
    ensures key !in post ==> v == Str("n")
  {
    if key in post then Str(post[key]) else Str("n")
  }

  /** The four writes of `form_save`. */
  function FlagWrites(post: map<string, string>): (w: map<string, Value>)
    ensures w.Keys == Flags
    ensures w[OrganisationEnabled] == SubmittedFlag(post, KeyOrganisationEnabled)
    ensures w[PartnerEnabled] == SubmittedFlag(post, KeyPartnerEnabled)
    ensures w[HostEnabled] == SubmittedFlag(post, KeyHostEnabled)
    ensures w[PledgeballEnabled] == SubmittedFlag(post, KeyPledgeballEnabled)
  {
    map[OrganisationEnabled := SubmittedFlag(post, KeyOrganisationEnabled),
        PartnerEnabled := SubmittedFlag(post, KeyPartnerEnabled),
        HostEnabled := SubmittedFlag(post, KeyHostEnabled),
        PledgeballEnabled := SubmittedFlag(post, KeyPledgeballEnabled)]
  }

  /** After a save, each flag reads as what was submitted, or 'n'; every other
      setting reads as before. */
  lemma FlagWritesRead(settings: map<string, Value>, post: map<string, string>, other: string)
    requires other !in Flags
    ensures Lookup(settings + FlagWrites(post), PledgeballEnabled) == SubmittedFlag(post, KeyPledgeballEnabled)
    ensures Lookup(settings + FlagWrites(post), HostEnabled) == SubmittedFlag(post, KeyHostEnabled)
    ensures Lookup(settings + FlagWrites(post), other) == Lookup(settings, other)
  {
  }

  /** A form that has no field for a flag switches that module off: the
      general settings template has no Pledgeball control, so saving through it
      turns the Pledgeball Event fields off. */
  lemma MissingFieldDisables(settings: map<string, Value>, post: map<string, string>)
    requires KeyPledgeballEnabled !in post
    ensures !Enabled(settings + FlagWrites(post), PledgeballEnabled)
  {
  }

  /** The query arguments `form_redirect($mode)` adds to the page URL. */
  function RedirectArgs(mode: string): (args: map<string, string>)
    ensures "updated" in args <==> mode == "updated"
    ensures args.Keys <= {"updated"}
    ensures forall k :: k in args ==> args[k] == "true"
  {
    if mode == "updated" then map["updated" := "true"] else map[]
  }

  /** The screen id of a page: context and slug, with '-network' on the
      network admin. */
  function PageScreenId(context: string, slug: string, location: string): (id: string)
    ensures |id| == |context| + |slug| + (if location == "network" then 8 else 0)
    ensures id[..|context| + |slug|] == context + slug
  {
    if location == "network" then context + slug + "-network" else context + slug
  }

  /** A page registered for a single site never answers to the network
      screen of the same slug, nor the other way round. */
  lemma SiteAndNetworkScreensDiffer(context: string, slug: string, otherLocation: string)
    requires otherLocation != "network"
    ensures PageScreenId(context, slug, "network") != PageScreenId(context, slug, otherLocation)
  {
  }

  /** `meta_box_closed($classes)`: adds 'closed' to a list that lacks it;
      anything that is not an array comes back as it was. */
  function MetaBoxClosed(classes: Value): (r: Value)
    ensures !classes.List? ==> r == classes
    ensures classes.List? ==> r.List? && Str("closed") in r.items
    ensures classes.List? && Str("closed") in classes.items ==> r == classes
    ensures classes.List? && Str("closed") !in classes.items ==> r.items == classes.items + [Str("closed")]
  {
    if classes.List? && Str("closed") !in classes.items then List(classes.items + [Str("closed")]) else classes
  }

  /** Closing a metabox twice is closing it once. */
  lemma MetaBoxClosedIdempotent(classes: Value)
    ensures MetaBoxClosed(MetaBoxClosed(classes)) == MetaBoxClosed(classes)
  {
  }

  /** The settings layout's column count: '1' only for a one-column screen. */
  function SettingsColumns(screenColumns: int): (r: string)
    ensures r == "1" <==> screenColumns == 1
    ensures r == "1" || r == "2"
  {
    if screenColumns == 1 then "1" else "2"
  }

  /** The dashboard layout's column class: `" columns-N"`, or nothing for 0. */
  function DashboardColumnsCss(columns: int): (r: string)
    ensures r == "" <==> columns == 0
    ensures columns != 0 ==> |r| > 9 && r[..9] == " columns-" && IntCast(r[9..]) == columns
  {
    if columns != 0 then
      var n := DecimalString(columns);
      assert (" columns-" + n)[9..] == n;
      IntCastDecimalString(columns);
      " columns-" + n
    else ""
  }

  /** One settings page (`SOF_Organisations_Admin_Settings_Base`). */
  class SettingsPage {
    const store: SettingsStore
    const hookPrefix: string
    const pageContext: string
    const pageSlug: string
    const pageLocation: string
    const pageLayout: string
    var formNonceField: string
    var formNonceAction: string
    var formId: string
    var formSubmitId: string

    /** The base constructor: the subclass has set the prefix, context, slug,
        location and layout; the four form names get the prefix. */
    constructor (store: SettingsStore, hookPrefix: string, pageContext: string, pageSlug: string,
                 pageLocation: string, pageLayout: string)
      ensures this.store == store && this.hookPrefix == hookPrefix
      ensures this.pageContext == pageContext && this.pageSlug == pageSlug
      ensures this.pageLocation == pageLocation && this.pageLayout == pageLayout
      ensures formNonceField == Prefixed(hookPrefix, "settings_nonce")
      ensures formNonceAction == Prefixed(hookPrefix, "settings_action")
      ensures formId == Prefixed(hookPrefix, "settings_form")
      ensures formSubmitId == Prefixed(hookPrefix, "settings_submit")
    {
      this.store := store;
      this.hookPrefix := hookPrefix;
      this.pageContext := pageContext;
      this.pageSlug := pageSlug;
      this.pageLocation := pageLocation;
      this.pageLayout := pageLayout;
      var nonceField, nonceAction, id, submitId := "settings_nonce", "settings_action", "settings_form", "settings_submit";
      formNonceField := hookPrefix + "_" + nonceField;
      formNonceAction := hookPrefix + "_" + nonceAction;
      formId := hookPrefix + "_" + id;
      formSubmitId := hookPrefix + "_" + submitId;
    }

    /** The screen id `meta_boxes_add` and `meta_boxes_register` answer to. */
    function ScreenId(): string
      reads this
    {
      PageScreenId(pageContext, pageSlug, pageLocation)
    }

    /** The metaboxes `meta_boxes_add($screen_id)` adds, followed by the one
        `meta_boxes_register` adds when the first fires `meta_boxes_added`;
        `canManage` is the result of the capability check. */
    function MetaBoxesAdded(screenId: string, canManage: bool): (ids: seq<string>)
      reads this
      ensures ids != [] <==> screenId == ScreenId() && canManage
      ensures ids != [] ==> ids[|ids| - 1] == hookPrefix + "_settings_general"
      ensures "submitdiv" in ids <==> ids != [] && pageLayout == "settings"
    {
      if screenId != ScreenId() || !canManage then []
      else
        (if pageLayout == "settings" then ["submitdiv"] else []) + MetaBoxesRegistered(screenId, canManage)
    }

    /** The metabox `meta_boxes_register($screen_id, $data)` adds. */
    function MetaBoxesRegistered(screenId: string, canManage: bool): (ids: seq<string>)
      reads this
      ensures ids != [] <==> screenId == ScreenId() && canManage
      ensures ids != [] ==> ids == [hookPrefix + "_settings_general"] && ids[0] != "submitdiv"
    {
      if screenId != ScreenId() || !canManage then []
      else
        var general := hookPrefix + "_settings_general";
        assert general[|general| - 1] == 'l';
        [general]
    }

    /** `form_save($submit_id)`: after the nonce check, four writes into the
        settings array and then one save of the whole array. */
    method FormSave(post: map<string, string>, nonceOk: bool) returns (ok: bool)
      modifies store`settings, store.table
      ensures ok == nonceOk
      ensures !ok ==> store.settings == old(store.settings) && store.table.rows == old(store.table.rows)
                      && store.table.log == old(store.table.log)
      ensures ok ==> store.settings == old(store.settings) + FlagWrites(post)
      ensures ok ==> store.table.rows == old(store.table.rows)[SettingsKey := Dict(store.settings)]
      ensures ok ==> store.table.log == old(store.table.log) + [Update(SettingsKey, Dict(store.settings))]
    {
      if !nonceOk {
        return false;
      }
      var organisation := SubmittedFlag(post, KeyOrganisationEnabled);
      var partner := SubmittedFlag(post, KeyPartnerEnabled);
      var host := SubmittedFlag(post, KeyHostEnabled);
      var pledgeball := SubmittedFlag(post, KeyPledgeballEnabled);
      ghost var before := store.settings;
      store.SettingSet(OrganisationEnabled, organisation);
      store.SettingSet(PartnerEnabled, partner);
      store.SettingSet(HostEnabled, host);
      store.SettingSet(PledgeballEnabled, pledgeball);
      assert store.settings == before + FlagWrites(post);
      store.SettingsSave();
      ok := true;
    }

    /** `form_submitted()`: nothing unless the submit button's field is in the
        POST data; then the nonce check, the save and the redirect to
        `pageUrl` (the page's menu URL) with `updated=true`. */
    method FormSubmitted(post: map<string, string>, nonceOk: bool, pageUrl: string) returns (resp: Response)
      modifies store`settings, store.table
      ensures formSubmitId !in post || !nonceOk ==>
                store.settings == old(store.settings) && store.table.rows == old(store.table.rows)
                && store.table.log == old(store.table.log)
      ensures formSubmitId !in post ==> resp == NoAction
      ensures formSubmitId in post && !nonceOk ==> resp == Aborted
      ensures formSubmitId in post && nonceOk ==>
                resp == Redirect(pageUrl, RedirectArgs("updated"))
                && store.settings == old(store.settings) + FlagWrites(post)
                && store.table.log == old(store.table.log) + [Update(SettingsKey, Dict(store.settings))]
                && store.table.rows == old(store.table.rows)[SettingsKey := Dict(store.settings)]
    {
      if formSubmitId !in post {
        return NoAction;
      }
      if !nonceOk {
        return Aborted;
      }
      var ok := FormSave(post, nonceOk);
      resp := Redirect(pageUrl, RedirectArgs("updated"));
    }
  }
}
