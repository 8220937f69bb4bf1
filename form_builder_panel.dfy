/**
 * The form-builder panel of the front end (frontend/src/components/FormBuilder.js):
 * the add-field editor over a field list owned by the parent, the live
 * form state, saving a record into the parent's records, drag-and-drop
 * reordering without a not-found guard, and removal of a field by id.
 */
module FormBuilderPanel {
  import opened Effects
  import opened Text
  import opened Fields
  import opened Reorder
  import opened Records

  class FormBuilder {
    /** The field list, received from the parent with `setFields`. */
    var fields: seq<Field>
    /** The parent's saved records, updated through `setRecords`. */
    var records: seq<FormData>
    /** The add-field editor. */
    var newField: Draft
    /** The live form state. */
    var formData: FormData

    /** The editor's type is always one its `<select>` offers. */
    ghost predicate Valid()
      reads this
    {
      newField.fieldType in FieldTypes
    }

    /** Mounting with the parent's field list and records: an empty editor and no form data. */
    constructor (fields: seq<Field>, records: seq<FormData>)
      ensures Valid()
      ensures this.fields == fields && this.records == records
      ensures newField == EmptyDraft && formData == map[]
    {
      this.fields := fields;
      this.records := records;
      newField := EmptyDraft;
      formData := map[];
    }

    /** Typing in the label input. */
    method SetLabel(text: string)
      requires Valid()
      modifies this
      ensures Valid()
      ensures newField == old(newField).(fieldLabel := text)
      ensures fields == old(fields) && records == old(records) && formData == old(formData)
    {
      newField := newField.(fieldLabel := text);
    }

    /** Choosing a type in the `<select>`. */
    method SetType(fieldType: string)
      requires Valid() && fieldType in FieldTypes
      modifies this
      ensures Valid()
      ensures newField == old(newField).(fieldType := fieldType)
      ensures fields == old(fields) && records == old(records) && formData == old(formData)
    {
      newField := newField.(fieldType := fieldType);
    }

    /** Typing in the dropdown-options input. */
    method SetOptions(text: string)
      requires Valid()
      modifies this
      ensures Valid()
      ensures newField == old(newField).(options := text)
      ensures fields == old(fields) && records == old(records) && formData == old(formData)
    {
      newField := newField.(options := text);
    }

    /**
     * `addField` at clock reading `now`. A blank label alerts and changes
     * nothing. Otherwise exactly one field is appended after the existing
     * ones, built from the editor, it passes the import check, and the
     * editor is reset.
     */
    method AddField(now: nat) returns (notice: Notice)
      requires Valid()
      modifies this
      ensures Valid()
      ensures IsBlank(old(newField).fieldLabel) ==>
        notice == Alert(LabelRequired) && fields == old(fields) && newField == old(newField)
      ensures !IsBlank(old(newField).fieldLabel) ==>
        && notice == Quiet
        && fields == old(fields) + [NewField(old(newField), now)]
        && PassesImportCheck(fields[|fields| - 1])
        && newField == EmptyDraft
      ensures AllPassImportCheck(old(fields)) ==> AllPassImportCheck(fields)
      ensures records == old(records) && formData == old(formData)
    {
      TrimEmptyIffBlank(newField.fieldLabel);
      if Trim(newField.fieldLabel) == "" {
        notice := Alert(LabelRequired);
        return;
      }
      var field := NewField(newField, now);
      FieldTypesFacts();
      NewFieldPassesImportCheck(newField, now);
      AppendKeepsImportCheck(fields, field);
      fields := fields + [field];
      newField := EmptyDraft;
      notice := Quiet;
    }

    /** `handleInputChange(label, value)`: only the entry under the field's label changes. */
    method HandleInputChange(fieldLabel: string, value: string)
      modifies this
      ensures old(Valid()) ==> Valid()
      ensures formData == old(formData)[fieldLabel := value]
      ensures fieldLabel in formData && formData[fieldLabel] == value
      ensures forall k | k in old(formData) && k != fieldLabel :: k in formData && formData[k] == old(formData)[k]
      ensures formData.Keys == old(formData).Keys + {fieldLabel}
      ensures fields == old(fields) && records == old(records) && newField == old(newField)
    {
      formData := formData[fieldLabel := value];
    }

    /**
     * `saveRecord`: with no form data it alerts and changes nothing;
     * otherwise the form data is appended after the parent's records and
     * cleared.
     */
    method SaveRecord() returns (notice: Notice)
      modifies this
      ensures old(Valid()) ==> Valid()
      ensures old(formData) == map[] ==>
        notice == Alert(FillOutForm) && records == old(records) && formData == old(formData)
      ensures old(formData) != map[] ==>
        notice == Quiet && records == old(records) + [old(formData)] && formData == map[]
      ensures fields == old(fields) && newField == old(newField)
    {
      if |formData| == 0 {
        notice := Alert(FillOutForm);
        return;
      }
      records := records + [formData];
      formData := map[];
      notice := Quiet;
    }

    /**
     * `handleDragEnd` for a drag of the field with id `active` dropped on
     * `over`. This handler has no not-found guard: both ids must belong to
     * the list whenever the early return does not fire, which holds for
     * drags that start and end on rendered fields. The list becomes the
     * guarded `DragEnd` of the old one, since the guard then never fires.
     */
    method HandleDragEnd(active: string, over: Option<string>)
      requires over.Some? && over.value != active ==> HasId(fields, active) && HasId(fields, over.value)
      modifies this
      ensures old(Valid()) ==> Valid()
      ensures fields == DragEnd(old(fields), active, over)
      ensures multiset(fields) == multiset(old(fields))
      ensures over.Some? && over.value != active ==>
        fields[FindIndex(old(fields), over.value)] == old(fields)[FindIndex(old(fields), active)]
      ensures AllPassImportCheck(old(fields)) ==> AllPassImportCheck(fields)
      ensures records == old(records) && newField == old(newField) && formData == old(formData)
    {
      if over.None? || active == over.value {
        return;
      }
      var oldIndex := FindIndex(fields, active);
      var newIndex := FindIndex(fields, over.value);
      ghost var before := fields;
      fields := Move(fields, oldIndex, newIndex);
      if AllPassImportCheck(before) {
        PermutationKeepsImportCheck(before, fields);
      }
    }

    /**
     * `removeField(id)`: the list keeps exactly the fields with another id,
     * in their order, and shrinks by the number of fields with the id.
     */
    method RemoveField(id: string)
      modifies this
      ensures old(Valid()) ==> Valid()
      ensures fields == RemoveId(old(fields), id)
      ensures |fields| == |old(fields)| - CountId(old(fields), id)
      ensures !HasId(fields, id)
      ensures AllPassImportCheck(old(fields)) ==> AllPassImportCheck(fields)
      ensures records == old(records) && newField == old(newField) && formData == old(formData)
    {
      RemoveIdMembers(fields, id);
      if AllPassImportCheck(fields) {
        RemovalKeepsImportCheck(fields, id);
      }
      fields := RemoveId(fields, id);
    }
  }
}
