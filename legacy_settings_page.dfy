/** The settings page of the older generation (the Ball Hosts "Settings"
    sub-page): the CiviCRM custom-field options it renders, the memoised tab
    URLs, and its form handling, which stores the chosen custom field id. */
module LegacySettingsPage {
  import opened PhpValues
  import opened PhpStrings
  import opened Options
  import opened Settings
  import opened Optional
  import opened CiviCrm
  import opened SettingsPage

  /** The slug of the page under the Ball Hosts menu. */
  const ParentPageSlug: string := "sof-hosts-parent"
  /** The POST field of the submit button. */
  const SaveKey: string := "sof_orgs_save"
  /** The POST field of the custom field select. */
  const EventOrgKey: string := "sof_orgs_event_org"

  /** `page_settings_screens_get()`, with its filter taken as the identity. */
  function SettingsScreens(parentSlug: string): (screens: seq<string>)
    ensures |screens| == 1 && screens[0] == "host_page_" + parentSlug
  {
    ["host_page_" + parentSlug]
  }

  /** The metaboxes `meta_boxes_add($screen_id)` adds; `canManage` is the
      result of the capability check. */
  function MetaBoxesAdded(screenId: string, canManage: bool): (ids: seq<string>)
    ensures ids != [] <==> screenId == "host_page_" + ParentPageSlug && canManage
    ensures ids != [] ==> ids == ["submitdiv", "general"]
  {
    if screenId !in SettingsScreens(ParentPageSlug) || !canManage then [] else ["submitdiv", "general"]
  }

  // ---------------------------------------------------------------------------
  // The options of the custom field select: `$custom_fields[title][id] = label`.

  /** Group title to field id to label. */
  type FieldOptions = map<string, map<string, string>>

  /** One assignment made by the inner loop. */
  datatype Entry = Entry(title: string, id: string, text: string)

  /** The assignments for one group, in field order. */
  function GroupEntries(g: CustomGroup): (es: seq<Entry>)
    ensures |es| == |g.fields|
    ensures forall k :: 0 <= k < |es| ==> es[k] == Entry(g.title, g.fields[k].id, g.fields[k].text)
  {
    seq(|g.fields|, k requires 0 <= k < |g.fields| => Entry(g.title, g.fields[k].id, g.fields[k].text))
  }

  /** The assignments for all groups, in the order the loops make them. */
  function Entries(groups: seq<CustomGroup>): seq<Entry>
  {
    if groups == [] then [] else Entries(groups[..|groups| - 1]) + GroupEntries(groups[|groups| - 1])
  }

  /** One assignment `$custom_fields[title][id] = label`. */
  function Put(options: FieldOptions, e: Entry): FieldOptions
  {
    options[e.title := (if e.title in options then options[e.title] else map[])[e.id := e.text]]
  }

  /** The array the assignments build, starting from `[]`. */
  function Assign(es: seq<Entry>): FieldOptions
  {
    if es == [] then map[] else Put(Assign(es[..|es| - 1]), es[|es| - 1])
  }

  /** The options the loop builds from the groups. */
  function FieldOptionsOf(groups: seq<CustomGroup>): FieldOptions
  {
    Assign(Entries(groups))
  }

  /** A title and id pair is present exactly when some assignment made it. */
  lemma {:induction false} AssignHas(es: seq<Entry>, t: string, id: string)
    ensures t in Assign(es) <==> exists k :: 0 <= k < |es| && es[k].title == t
    ensures (t in Assign(es) && id in Assign(es)[t]) <==>
            exists k :: 0 <= k < |es| && es[k].title == t && es[k].id == id
  {
    if es != [] {
      var init := es[..|es| - 1];
      AssignHas(init, t, id);
      forall k | 0 <= k < |init| ensures init[k] == es[k] { }
      if exists k :: 0 <= k < |es| && es[k].title == t {
        var k :| 0 <= k < |es| && es[k].title == t;
        if k < |init| { assert init[k].title == t; }
      }
      if exists k :: 0 <= k < |es| && es[k].title == t && es[k].id == id {
        var k :| 0 <= k < |es| && es[k].title == t && es[k].id == id;
        if k < |init| { assert init[k].title == t && init[k].id == id; }
      }
    }
  }

  /** The label stored for a title and id is the one of the last assignment
      to that pair: later duplicates overwrite earlier ones. */
  lemma {:induction false} AssignLastWins(es: seq<Entry>, k: nat)
    requires k < |es|
    requires forall m :: k < m < |es| ==> es[m].title != es[k].title || es[m].id != es[k].id
    ensures es[k].title in Assign(es) && es[k].id in Assign(es)[es[k].title]
    ensures Assign(es)[es[k].title][es[k].id] == es[k].text
  {
    var init := es[..|es| - 1];
    if k < |es| - 1 {
      forall m | k < m < |init| ensures init[m].title != init[k].title || init[m].id != init[k].id {
        assert init[m] == es[m] && init[k] == es[k];
      }
      AssignLastWins(init, k);
      assert init[k] == es[k];
    }
  }

  /** Every assignment carries the title of a group with fields, and every
      group with fields makes one. */
  lemma {:induction false} EntriesTitles(groups: seq<CustomGroup>, t: string)
    ensures (exists k :: 0 <= k < |Entries(groups)| && Entries(groups)[k].title == t) <==>
            exists i :: 0 <= i < |groups| && groups[i].title == t && groups[i].fields != []
  {
    if groups != [] {
      var init := groups[..|groups| - 1];
      var last := groups[|groups| - 1];
      EntriesTitles(init, t);
      var ies := Entries(init);
      var ges := GroupEntries(last);
      var es := Entries(groups);
      assert es == ies + ges;
      if exists k :: 0 <= k < |es| && es[k].title == t {
        var k :| 0 <= k < |es| && es[k].title == t;
        if k < |ies| {
          assert ies[k] == es[k];
        } else {
          assert ges[k - |ies|] == es[k];
          assert groups[|groups| - 1].title == t;
        }
      }
      if exists i :: 0 <= i < |groups| && groups[i].title == t && groups[i].fields != [] {
        var i :| 0 <= i < |groups| && groups[i].title == t && groups[i].fields != [];
        if i < |init| {
          assert init[i] == groups[i];
          var k :| 0 <= k < |ies| && ies[k].title == t;
          assert es[k] == ies[k];
        } else {
          assert es[|ies|] == ges[0];
        }
      }
    }
  }

  /** Every assignment comes from one field of one group, and every field of
      every group makes one. */
  lemma {:induction false} EntriesPairs(groups: seq<CustomGroup>, t: string, id: string)
    ensures (exists k :: 0 <= k < |Entries(groups)| && Entries(groups)[k].title == t && Entries(groups)[k].id == id) <==>
            exists i, j :: 0 <= i < |groups| && 0 <= j < |groups[i].fields| && groups[i].title == t && groups[i].fields[j].id == id
  {
    if groups != [] {
      var init := groups[..|groups| - 1];
      var last := groups[|groups| - 1];
      EntriesPairs(init, t, id);
      var ies := Entries(init);
      var ges := GroupEntries(last);
      var es := Entries(groups);
      assert es == ies + ges;
      if exists k :: 0 <= k < |es| && es[k].title == t && es[k].id == id {
        var k :| 0 <= k < |es| && es[k].title == t && es[k].id == id;
        if k < |ies| {
          assert ies[k] == es[k];
          var i, j :| 0 <= i < |init| && 0 <= j < |init[i].fields| && init[i].title == t && init[i].fields[j].id == id;
          assert init[i] == groups[i];
        } else {
          var j := k - |ies|;
          assert ges[j] == es[k];
          assert groups[|groups| - 1].title == t && groups[|groups| - 1].fields[j].id == id;
        }
      }
      if exists i, j :: 0 <= i < |groups| && 0 <= j < |groups[i].fields| && groups[i].title == t && groups[i].fields[j].id == id {
        var i, j :| 0 <= i < |groups| && 0 <= j < |groups[i].fields| && groups[i].title == t && groups[i].fields[j].id == id;
        if i < |init| {
          assert init[i] == groups[i];
          assert init[i].title == t && init[i].fields[j].id == id;
          var k :| 0 <= k < |ies| && ies[k].title == t && ies[k].id == id;
          assert es[k] == ies[k];
        } else {
          assert es[|ies| + j] == ges[j];
        }
      }
    }
  }

  /** The options hold a title exactly when some group with that title has
      fields (a group without fields contributes nothing), and a field id
      under it exactly when some such group has a field with that id. */
  lemma FieldOptionsMembership(groups: seq<CustomGroup>, t: string, id: string)
    ensures t in FieldOptionsOf(groups) <==>
            exists i :: 0 <= i < |groups| && groups[i].title == t && groups[i].fields != []
    ensures (t in FieldOptionsOf(groups) && id in FieldOptionsOf(groups)[t]) <==>
            exists i, j :: 0 <= i < |groups| && 0 <= j < |groups[i].fields| && groups[i].title == t && groups[i].fields[j].id == id
  {
    AssignHas(Entries(groups), t, id);
    EntriesTitles(groups, t);
    EntriesPairs(groups, t, id);
  }

  /** A later group overwrites an earlier one: a field of the last group
      shows its own label whatever the groups before it hold under the same
      title and id, unless a later field of that group repeats the id. */
  lemma LastGroupOverwrites(groups: seq<CustomGroup>, g: CustomGroup, j: nat)
    requires j < |g.fields|
    requires forall m :: j < m < |g.fields| ==> g.fields[m].id != g.fields[j].id
    ensures g.title in FieldOptionsOf(groups + [g]) && g.fields[j].id in FieldOptionsOf(groups + [g])[g.title]
    ensures FieldOptionsOf(groups + [g])[g.title][g.fields[j].id] == g.fields[j].text
  {
    var all := groups + [g];
    assert all[..|all| - 1] == groups;
    var es := Entries(all);
    var before := Entries(groups);
    var ges := GroupEntries(g);
    assert es == before + ges;
    var k := |before| + j;
    assert es[k] == ges[j];
    forall m | k < m < |es| ensures es[m].title != es[k].title || es[m].id != es[k].id {
      assert es[m] == ges[m - |before|];
    }
    AssignLastWins(es, k);
  }

  /** The inner and outer loop steps extend the assignments by one entry and
      by one group. */
  lemma EntriesStep(groups: seq<CustomGroup>, i: nat)
    requires i < |groups|
    ensures Entries(groups[..i + 1]) == Entries(groups[..i]) + GroupEntries(groups[i])
  {
    assert groups[..i + 1][..i] == groups[..i];
  }

  /** One assignment of the inner loop extends the assignments made so far
      by one entry. */
  lemma AssignStep(done: seq<Entry>, es: seq<Entry>, j: nat)
    requires j < |es|
    ensures Assign(done + es[..j + 1]) == Put(Assign(done + es[..j]), es[j])
  {
    var next := done + es[..j + 1];
    assert next[..|next| - 1] == done + es[..j];
  }

  // ---------------------------------------------------------------------------

  /** `(int) $_POST['sof_orgs_event_org']`, or 0 when the field is absent. */
  function EventOrgId(post: map<string, string>): (id: int)
    ensures EventOrgKey !in post ==> id == 0
    ensures EventOrgKey in post ==> id == IntCast(post[EventOrgKey])
  {
    if EventOrgKey in post then IntCast(post[EventOrgKey]) else 0
  }

  /** The select submits a field id as decimal digits; the cast recovers it. */
  lemma EventOrgIdRoundTrip(post: map<string, string>, n: int)
    requires EventOrgKey in post && post[EventOrgKey] == DecimalString(n)
    ensures EventOrgId(post) == n
  {
    IntCastDecimalString(n);
  }

  /** The custom field id the general metabox shows: an empty stored id
      (`false`, `''`, `'0'`, 0) becomes 0. */
  function ShownFieldId(stored: Value): (r: Value)
    ensures Empty(stored) ==> r == Int(0)
    ensures !Empty(stored) ==> r == stored
  {
    if Empty(stored) then Int(0) else stored
  }

  /** The settings URL in the tab URLs, once computed, or the menu URL that
      computing them would store. */
  function SettingsUrl(urls: Option<map<string, string>>, menuUrl: string): string
    requires urls.Some? ==> "settings" in urls.value
  {
    if urls.Some? then urls.value["settings"] else menuUrl
  }

  /** The older generation's settings page object. */
  class LegacySettingsPage {
    const store: SettingsStore
    /** `$this->urls`, unset until `page_tab_urls_get` first runs. */
    var urls: Option<map<string, string>>

    ghost predicate Valid()
      reads this
    {
      urls.Some? ==> "settings" in urls.value
    }

    constructor (store: SettingsStore)
      ensures this.store == store && urls == None && Valid()
    {
      this.store := store;
      urls := None;
    }

    /** `page_tab_urls_get()`: computed on the first call from the menu URL
        of the page, then returned unchanged. */
    method PageTabUrlsGet(menuUrl: string) returns (u: map<string, string>)
      requires Valid()
      modifies this`urls
      ensures Valid()
      ensures old(urls).Some? ==> u == old(urls).value && urls == old(urls)
      ensures old(urls).None? ==> u == map["settings" := menuUrl] && urls == Some(u)
      ensures "settings" in u && u["settings"] == SettingsUrl(old(urls), menuUrl)
    {
      if urls.Some? {
        return urls.value;
      }
      u := map[];
      u := u["settings" := menuUrl];
      urls := Some(u);
    }

    /** The loop of `meta_box_general_render` that groups the custom fields
        by group title. */
    method BuildFieldOptions(groups: seq<CustomGroup>) returns (options: FieldOptions)
      ensures options == FieldOptionsOf(groups)
    {
      options := map[];
      var i := 0;
      while i < |groups|
        invariant 0 <= i <= |groups|
        invariant options == Assign(Entries(groups[..i]))
      {
        var group := groups[i];
        ghost var done := Entries(groups[..i]);
        if group.fields != [] {
          var j := 0;
          assert done + GroupEntries(group)[..0] == done;
          while j < |group.fields|
            invariant 0 <= j <= |group.fields|
            invariant options == Assign(done + GroupEntries(group)[..j])
          {
            var field := group.fields[j];
            var inner := if group.title in options then options[group.title] else map[];
            options := options[group.title := inner[field.id := field.text]];
            AssignStep(done, GroupEntries(group), j);
            j := j + 1;
          }
          assert GroupEntries(group)[..|group.fields|] == GroupEntries(group);
        } else {
          assert done + GroupEntries(group) == done;
        }
        EntriesStep(groups, i);
        i := i + 1;
      }
      assert groups[..|groups|] == groups;
    }

    /** `meta_box_general_render()`: the select's options from the (cached)
        CiviCRM custom groups, and the stored custom field id to preselect. */
    method MetaBoxGeneralRender(civicrm: CiviCrm, env: Environment, api: ApiResult)
      returns (options: FieldOptions, fieldId: Value)
      modifies civicrm
      ensures var f := GroupsFetch(old(civicrm.pseudocache), env, api);
              options == FieldOptionsOf(f.groups) && civicrm.pseudocache == f.cache
      ensures fieldId == ShownFieldId(Lookup(store.settings, CustomFieldId))
    {
      var groups := civicrm.CustomGroupsGetForEvents(env, api);
      options := BuildFieldOptions(groups);
      fieldId := store.SettingGet(CustomFieldId);
      if Empty(fieldId) {
        fieldId := Int(0);
      }
    }

    /** `form_settings_update()`: one write of the cast field id, then one
        save of the whole array. */
    method FormSettingsUpdate(post: map<string, string>)
      modifies store`settings, store.table
      ensures store.settings == old(store.settings)[CustomFieldId := Int(EventOrgId(post))]
      ensures store.table.rows == old(store.table.rows)[SettingsKey := Dict(store.settings)]
      ensures store.table.log == old(store.table.log) + [Update(SettingsKey, Dict(store.settings))]
    {
      var id := if EventOrgKey in post then IntCast(post[EventOrgKey]) else 0;
      store.SettingSet(CustomFieldId, Int(id));
      store.SettingsSave();
    }

    /** `form_redirect()`: back to the settings URL with its `&#038;`
        entities turned into `&`, plus `settings-updated=true`. */
    method FormRedirect(menuUrl: string) returns (resp: Response)
      requires Valid()
      modifies this`urls
      ensures Valid() && urls.Some? && urls == (if old(urls).Some? then old(urls) else Some(map["settings" := menuUrl]))
      ensures resp == Redirect(UnescapeAmp(SettingsUrl(old(urls), menuUrl)), map["settings-updated" := "true"])
    {
      var args := map["settings-updated" := "true"];
      var u := PageTabUrlsGet(menuUrl);
      var url := u["settings"];
      url := UnescapeAmp(url);
      resp := Redirect(url, args);
    }

    /** `form_submitted()`: nothing unless `sof_orgs_save` is posted; then the
        nonce check, the update and the redirect, in that order. */
    method FormSubmitted(post: map<string, string>, nonceOk: bool, menuUrl: string) returns (resp: Response)
      requires Valid()
      modifies this`urls, store`settings, store.table
      ensures Valid()
      ensures SaveKey !in post || !nonceOk ==>
                store.settings == old(store.settings) && store.table.rows == old(store.table.rows)
                && store.table.log == old(store.table.log) && urls == old(urls)
      ensures SaveKey !in post ==> resp == NoAction
      ensures SaveKey in post && !nonceOk ==> resp == Aborted
      ensures SaveKey in post && nonceOk ==>
                store.settings == old(store.settings)[CustomFieldId := Int(EventOrgId(post))]
                && store.table.rows == old(store.table.rows)[SettingsKey := Dict(store.settings)]
                && store.table.log == old(store.table.log) + [Update(SettingsKey, Dict(store.settings))]
                && urls == (if old(urls).Some? then old(urls) else Some(map["settings" := menuUrl]))
                && resp == Redirect(UnescapeAmp(SettingsUrl(old(urls), menuUrl)), map["settings-updated" := "true"])
    {
      if SaveKey !in post {
        return NoAction;
      }
      if !nonceOk {
        return Aborted;
      }
      FormSettingsUpdate(post);
      resp := FormRedirect(menuUrl);
    }
  }
}
