/** The Pledgeball Events fields of the settings-gated generation: the
    "Pledgeball Information" group with the organiser, pledge form and
    country-list fields, the organiser field only once a custom field id has
    been chosen. */
module AcfEvents {
  import opened PhpValues
  import opened PhpStrings
  import opened Optional
  import opened Settings
  import opened AcfFields

  /** The organiser field for a stored custom field id: none while the id is
      empty (`''`, `'0'`, 0, `false`), otherwise a CiviCRM contact field bound
      to that custom field. */
  function OrganiserField(fieldId: Value): (f: Option<Field>)
    ensures f.Some? <==> !Empty(fieldId)
    ensures f.Some? ==> f.value.key == FieldPrefix + "organiser" && f.value.parent == GroupKey
    ensures f.Some? ==> f.value.crmField == CrmReference(fieldId) && f.value.kind == "civicrm_contact"
  {
    if Empty(fieldId) then None
    else Some(Field(FieldPrefix + "organiser", "Pledgeball Event Host", "ball_host", "civicrm_contact",
                    GroupKey, CrmReference(fieldId), []))
  }

  /** A yes/no switch on the Events group; its key is its name with the field
      prefix in front, and it is bound to no CiviCRM field. */
  function SwitchField(name: string, caption: string): (f: Field)
    ensures f.key == FieldPrefix + f.name && f.name == name && f.text == caption
    ensures f.parent == GroupKey && f.kind == "true_false" && f.crmField == "" && f.subFields == []
  {
    Field(FieldPrefix + name, caption, name, "true_false", GroupKey, "", [])
  }

  /** The "Enable Pledge Form" switch. */
  function FormEnabledField(): Field
  {
    SwitchField("pledge_form_enabled", "Enable Pledge Form")
  }

  /** The "Use Country-specific Pledge List" switch. */
  function UseCountryField(): Field
  {
    SwitchField("pledge_form_use_country", "Use Country-specific Pledge List")
  }

  /** The fields `fields_add` registers, in order. */
  function FieldsAdded(fieldId: Value): seq<Field>
  {
    (if Empty(fieldId) then [] else [OrganiserField(fieldId).value]) + [FormEnabledField(), UseCountryField()]
  }

  /** `fields_add` registers the organiser field (when there is one), then the
      form switch, then the country switch; every field hangs off the group,
      and their keys are distinct. */
  lemma FieldsAddedShape(fieldId: Value)
    ensures var fs := FieldsAdded(fieldId);
            |fs| == (if Empty(fieldId) then 2 else 3)
            && (!Empty(fieldId) ==> fs[0] == OrganiserField(fieldId).value)
            && fs[|fs| - 2] == FormEnabledField() && fs[|fs| - 1] == UseCountryField()
            && (forall k :: 0 <= k < |fs| ==> fs[k].parent == GroupKey)
            && (forall k, m :: 0 <= k < m < |fs| ==> fs[k].key != fs[m].key)
  {
    var fs := FieldsAdded(fieldId);
    forall k, m | 0 <= k < m < |fs| ensures fs[k].key != fs[m].key {
      assert |fs[k].key| != |fs[m].key|;
    }
  }

  /** A custom field id saved through the settings form as a non-zero number
      yields the organiser field bound to `caicustom_<id>`; a zero id (an
      absent or non-numeric field) yields no organiser field. */
  lemma SavedIdBindsOrganiser(settings: map<string, Value>, n: int)
    ensures n != 0 ==>
              OrganiserField(Lookup(settings[CustomFieldId := Int(n)], CustomFieldId))
              == Some(Field(FieldPrefix + "organiser", "Pledgeball Event Host", "ball_host", "civicrm_contact",
                            GroupKey, "caicustom_" + DecimalString(n), []))
    ensures n == 0 ==> OrganiserField(Lookup(settings[CustomFieldId := Int(n)], CustomFieldId)) == None
  {
  }

  /** The fresh-install default for the custom field id is `''`, so no
      organiser field appears until one is chosen. */
  lemma DefaultsHaveNoOrganiser()
    ensures OrganiserField(Lookup(Defaults(), CustomFieldId)) == None
  {
  }

  /** `SOF_Organisations_ACF_Events` of the settings-gated generation. */
  class Events {
    /** The admin's settings, read through `setting_get`. */
    const store: SettingsStore
    /** The callbacks registered on `acf/init`. */
    var hooks: seq<string>
    /** `static $done` of `initialise`. */
    var done: bool
    /** How often `sof_orgs/acf/events/loaded` has fired. */
    var broadcasts: nat

    ghost predicate Valid()
      reads this
    {
      (!done ==> hooks == [] && broadcasts == 0)
      && (done ==> hooks == ["field_groups_add", "fields_add"] && broadcasts == 1)
    }

    constructor (store: SettingsStore)
      ensures this.store == store && Valid() && !done
    {
      this.store := store;
      hooks := [];
      done := false;
      broadcasts := 0;
    }

    /** `initialise()`: registers the two `acf/init` callbacks and fires its
        hook, once. */
    method Initialise()
      requires Valid()
      modifies this
      ensures Valid() && done
      ensures old(done) ==> hooks == old(hooks) && broadcasts == old(broadcasts)
    {
      if done {
        return;
      }
      hooks := hooks + ["field_groups_add"];
      hooks := hooks + ["fields_add"];
      broadcasts := broadcasts + 1;
      done := true;
    }

    /** `field_groups_add()`: the "Pledgeball Information" group. */
    method FieldGroupsAdd(registry: Registry)
      modifies registry`groups
      ensures registry.groups == old(registry.groups) + [EventGroup("Pledgeball Information")]
    {
      registry.AddGroup(EventGroup("Pledgeball Information"));
    }

    /** `field_organiser_add()`: bails on an empty stored id. */
    method FieldOrganiserAdd(registry: Registry)
      modifies registry`fields
      ensures var f := OrganiserField(Lookup(store.settings, CustomFieldId));
              registry.fields == old(registry.fields) + (if f.Some? then [f.value] else [])
    {
      var fieldId := store.SettingGet(CustomFieldId);
      if Empty(fieldId) {
        return;
      }
      var field := Field(FieldPrefix + "organiser", "Pledgeball Event Host", "ball_host", "civicrm_contact",
                         GroupPrefix + "data", "caicustom_" + ToPhpString(fieldId), []);
      registry.AddField(field);
    }

    /** `fields_add()`. */
    method FieldsAdd(registry: Registry)
      modifies registry`fields
      ensures registry.fields == old(registry.fields) + FieldsAdded(Lookup(store.settings, CustomFieldId))
    {
      FieldOrganiserAdd(registry);
      registry.AddField(FormEnabledField());
      registry.AddField(UseCountryField());
    }
  }
}
