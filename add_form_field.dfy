/**
 * The add-field form on its own (frontend/src/components/AddFormField.js):
 * it keeps only the editor and hands each new field to its parent's
 * `onAddField` callback, here the field it returns.
 */
module AddFormField {
  import opened Effects
  import opened Text
  import opened Fields

  class AddFieldForm {
    /** The add-field editor. */
    var newField: Draft

    /** The editor's type is always one its `<select>` offers. */
    ghost predicate Valid()
      reads this
    {
      newField.fieldType in FieldTypes
    }

    /** Mounting: an empty editor. */
    constructor ()
      ensures Valid() && newField == EmptyDraft
    {
      newField := EmptyDraft;
    }

    /** Typing in the label input. */
    method SetLabel(text: string)
      requires Valid()
      modifies this
      ensures Valid() && newField == old(newField).(fieldLabel := text)
    {
      newField := newField.(fieldLabel := text);
    }

    /** Choosing a type in the `<select>`. */
    method SetType(fieldType: string)
      requires Valid() && fieldType in FieldTypes
      modifies this
      ensures Valid() && newField == old(newField).(fieldType := fieldType)
    {
      newField := newField.(fieldType := fieldType);
    }

    /** Typing in the dropdown-options input. */
    method SetOptions(text: string)
      requires Valid()
      modifies this
      ensures Valid() && newField == old(newField).(options := text)
    {
      newField := newField.(options := text);
    }

    /**
     * `handleAddField` at clock reading `now`. A blank label alerts, hands
     * nothing to the parent and keeps the editor. Otherwise the field built
     * from the editor is handed over, it passes the import check, and the
     * editor is reset.
     */
    method HandleAddField(now: nat) returns (added: Option<Field>, notice: Notice)
      requires Valid()
      modifies this
      ensures Valid()
      ensures IsBlank(old(newField).fieldLabel) <==> added.None?
      ensures added.None? ==> notice == Alert(LabelRequired) && newField == old(newField)
      ensures added.Some? ==>
        && notice == Quiet
        && added.value == NewField(old(newField), now)
        && PassesImportCheck(added.value)
        && newField == EmptyDraft
    {
      TrimEmptyIffBlank(newField.fieldLabel);
      if Trim(newField.fieldLabel) == "" {
        return None, Alert(LabelRequired);
      }
      var field := NewField(newField, now);
      FieldTypesFacts();
      NewFieldPassesImportCheck(newField, now);
      newField := EmptyDraft;
      return Some(field), Quiet;
    }
  }
}
