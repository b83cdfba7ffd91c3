/** The ACF field and field group arrays the Events modules register, reduced
    to the entries the plugin computes, and the host's registry of local
    fields and field groups. */
module AcfFields {
  import opened PhpValues
  import opened PhpStrings

  /** `$group_prefix` and `$field_prefix` of both Events classes. */
  const GroupPrefix: string := "group_sof_event_"
  const FieldPrefix: string := "field_sof_event_"

  /** The key of the Events field group, and the parent of every field. */
  const GroupKey: string := GroupPrefix + "data"

  /** An ACF field: its key, label, name, type, parent group key, the CiviCRM
      custom field it is bound to (empty when it has none) and its
      sub-fields. */
  datatype Field = Field(key: string, text: string, name: string, kind: string, parent: string,
                         crmField: string, subFields: seq<Field>)

  /** An ACF field group attached to the `event` post type: key, title,
      hidden screen elements, position and menu order. */
  datatype FieldGroup = FieldGroup(key: string, title: string, postType: string, hidden: seq<string>,
                                   position: string, menuOrder: int)

  /** The field group both generations register, differing only in title. */
  function EventGroup(title: string): (g: FieldGroup)
    ensures g.key == GroupKey && g.title == title && g.postType == "event"
    ensures g.hidden == ["author"] && g.position == "normal" && g.menuOrder == 100
  {
    FieldGroup(GroupKey, title, "event", ["author"], "normal", 100)
  }

  /** `'caicustom_' . $field_id`: the field's id, as PHP renders it, after
      the prefix. */
  function CrmReference(fieldId: Value): (r: string)
    ensures |r| >= 10 && r[..10] == "caicustom_" && r[10..] == ToPhpString(fieldId)
  {
    var prefix := "caicustom_";
    assert (prefix + ToPhpString(fieldId))[10..] == ToPhpString(fieldId);
    prefix + ToPhpString(fieldId)
  }

  /** A reference built from an integer field id names that id: reading the
      digits after the prefix gives it back. */
  lemma CrmReferenceNamesId(n: int)
    ensures IntCast(CrmReference(Int(n))[10..]) == n
  {
  }

  /** Distinct field ids give distinct references. */
  lemma CrmReferenceInjective(a: Value, b: Value)
    requires ToPhpString(a) != ToPhpString(b)
    ensures CrmReference(a) != CrmReference(b)
  {
    assert CrmReference(a)[10..] == ToPhpString(a);
  }

  /** The host's local field and field group registry
      (`acf_add_local_field_group`, `acf_add_local_field`). */
  class Registry {
    var groups: seq<FieldGroup>
    var fields: seq<Field>

    constructor ()
      ensures groups == [] && fields == []
    {
      groups := [];
      fields := [];
    }

    method AddGroup(g: FieldGroup)
      modifies this`groups
      ensures groups == old(groups) + [g]
    {
      groups := groups + [g];
    }

    method AddField(f: Field)
      modifies this`fields
      ensures fields == old(fields) + [f]
    {
      fields := fields + [f];
    }
  }
}
