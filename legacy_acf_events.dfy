/** The Events fields of the older generation: the "Ball Host" group with the
    organiser field only, plus a repeater builder nothing calls. */
module LegacyAcfEvents {
  import opened PhpValues
  import opened Optional
  import opened Settings
  import opened AcfFields
  import AcfEvents

  /** The organiser field for a stored custom field id: none while the id is
      empty, otherwise a CiviCRM contact field labelled "Organisation" bound
      to that custom field. */
  function OrganiserField(fieldId: Value): (f: Option<Field>)
    ensures f.Some? <==> !Empty(fieldId)
    ensures f.Some? ==> f.value.key == FieldPrefix + "organiser" && f.value.parent == GroupKey
    ensures f.Some? ==> f.value.crmField == CrmReference(fieldId) && f.value.text == "Organisation"
  {
    if Empty(fieldId) then None
    else Some(Field(FieldPrefix + "organiser", "Organisation", "ball_host", "civicrm_contact",
                    GroupKey, CrmReference(fieldId), []))
  }

  /** The "Organisers" repeater of `field_organisations_add()`: its one
      sub-field is bound to custom field 1 whatever is stored. */
  function OrganisationsRepeater(): (f: Field)
    ensures f.key == FieldPrefix + "organisations" && f.kind == "repeater" && f.parent == GroupKey
    ensures |f.subFields| == 1
    ensures f.subFields[0].key == FieldPrefix + "organisation" && f.subFields[0].kind == "civicrm_contact"
    ensures f.subFields[0].crmField == CrmReference(Int(1))
  {
    var sub := Field(FieldPrefix + "organisation", "Organiser", "organisation", "civicrm_contact", "", "caicustom_1", []);
    Field(FieldPrefix + "organisations", "Organisers", "organisations", "repeater", GroupKey, "", [sub])
  }

  /** Both generations add their organiser field for the same stored ids,
      under the same key and group and bound to the same custom field; only
      the label differs. */
  lemma GenerationsAgreeOnOrganiser(fieldId: Value)
    ensures OrganiserField(fieldId).Some? <==> AcfEvents.OrganiserField(fieldId).Some?
    ensures OrganiserField(fieldId).Some? ==>
              OrganiserField(fieldId).value == AcfEvents.OrganiserField(fieldId).value.(text := "Organisation")
  {
  }

  /** `SOF_Organisations_ACF_Events` of the older generation. */
  class Events {
    /** The admin's settings, read through `setting_get`. */
    const store: SettingsStore
    /** The callbacks registered on `acf/init`. */
    var hooks: seq<string>

    constructor (store: SettingsStore)
      ensures this.store == store && hooks == []
    {
      this.store := store;
      hooks := [];
    }

    /** `register_hooks()`: it has no run-once guard of its own; it is called
        once because `sof_orgs/acf/loaded` fires once. */
    method RegisterHooks()
      modifies this`hooks
      ensures hooks == old(hooks) + ["field_groups_add", "fields_add"]
    {
      hooks := hooks + ["field_groups_add", "fields_add"];
    }

    /** `field_groups_add()`: the "Ball Host" group, under the same key as
        the newer generation's group. */
    method FieldGroupsAdd(registry: Registry)
      modifies registry`groups
      ensures registry.groups == old(registry.groups) + [EventGroup("Ball Host")]
    {
      registry.AddGroup(EventGroup("Ball Host"));
    }

    /** `fields_add()`: the organiser field only. */
    method FieldsAdd(registry: Registry)
      modifies registry`fields
      ensures var f := OrganiserField(Lookup(store.settings, CustomFieldId));
              registry.fields == old(registry.fields) + (if f.Some? then [f.value] else [])
    {
      FieldOrganiserAdd(registry);
    }

    /** `field_organiser_add()`: bails on an empty stored id. */
    method FieldOrganiserAdd(registry: Registry)
      modifies registry`fields
      ensures var f := OrganiserField(Lookup(store.settings, CustomFieldId));
              registry.fields == old(registry.fields) + (if f.Some? then [f.value] else [])
    {
      var fieldId := store.SettingGet(CustomFieldId);
      if Empty(fieldId) {
        return;
      }
      var field := Field(FieldPrefix + "organiser", "Organisation", "ball_host", "civicrm_contact",
                         GroupPrefix + "data", "caicustom_" + ToPhpString(fieldId), []);
      registry.AddField(field);
    }

    /** `field_organisations_add()`. */
    method FieldOrganisationsAdd(registry: Registry)
      modifies registry`fields
      ensures registry.fields == old(registry.fields) + [OrganisationsRepeater()]
    {
      registry.AddField(OrganisationsRepeater());
    }
  }
}
