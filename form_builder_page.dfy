/**
 * The form builder of the top-level page (components/FormBuilder.jsx):
 * the add-field editor, the live form state, saving a record, drag-and-
 * drop reordering with a not-found guard, export and import of the field
 * list, and clearing it behind a confirmation.
 */
module FormBuilderPage {
  import opened Effects
  import opened Text
  import opened Fields
  import opened Reorder
  import opened Records

  const NoFieldsToExport: string := "No fields to export!"
  const FormExported: string := "\U{2705} Form exported successfully!"
  const FormImported: string := "\U{2705} Form imported successfully!"
  const ImportFailed: string := "\U{274C} Error importing form. Make sure it's a valid JSON file."

  /** The file `exportForm` downloads: the field list as JSON under its file name. */
  datatype FormFile = FormFile(fileName: string, fields: seq<Field>)

  class FormBuilder {
    /** The field list; the page owns it and passes down `setFields`. */
    var fields: seq<Field>
    /** The saved records; the page owns them and passes down `setRecords`. */
    var records: seq<FormData>
    /** The add-field editor. */
    var newField: Draft
    /** The live form state. */
    var formData: FormData

    /** The editor's type is always one its `<select>` offers. */
    ghost predicate Valid()
      reads this
    {
      newField.fieldType in FieldTypes
    }

    /** Mounting with the page's field list and records: an empty editor and no form data. */
    constructor (fields: seq<Field>, records: seq<FormData>)
      ensures Valid()
      ensures this.fields == fields && this.records == records
      ensures newField == EmptyDraft && formData == map[]
    {
      this.fields := fields;
      this.records := records;
      newField := EmptyDraft;
      formData := map[];
    }

    /** Typing in the label input. */
    method SetLabel(text: string)
      requires Valid()
      modifies this
      ensures Valid()
      ensures newField == old(newField).(fieldLabel := text)
      ensures fields == old(fields) && records == old(records) && formData == old(formData)
    {
      newField := newField.(fieldLabel := text);
    }

    /** Choosing a type in the `<select>`. */
    method SetType(fieldType: string)
      requires Valid() && fieldType in FieldTypes
      modifies this
      ensures Valid()
      ensures newField == old(newField).(fieldType := fieldType)
      ensures fields == old(fields) && records == old(records) && formData == old(formData)
    {
      newField := newField.(fieldType := fieldType);
    }

    /** Typing in either of the two dropdown-options inputs. */
    method SetOptions(text: string)
      requires Valid()
      modifies this
      ensures Valid()
      ensures newField == old(newField).(options := text)
      ensures fields == old(fields) && records == old(records) && formData == old(formData)
    {
      newField := newField.(options := text);
    }

    /**
     * `addField` at clock reading `now`. A blank label alerts and changes
     * nothing. Otherwise exactly one field is appended after the existing
     * ones, built from the editor (label and type verbatim, options parsed
     * for `select`), it passes the import check, and the editor is reset.
     */
    method AddField(now: nat) returns (notice: Notice)
      requires Valid()
      modifies this
      ensures Valid()
      ensures IsBlank(old(newField).fieldLabel) ==>
        notice == Alert(LabelRequired) && fields == old(fields) && newField == old(newField)
      ensures !IsBlank(old(newField).fieldLabel) ==>
        && notice == Quiet
        && fields == old(fields) + [NewField(old(newField), now)]
        && PassesImportCheck(fields[|fields| - 1])
        && newField == EmptyDraft
      ensures AllPassImportCheck(old(fields)) ==> AllPassImportCheck(fields)
      ensures records == old(records) && formData == old(formData)
    {
      TrimEmptyIffBlank(newField.fieldLabel);
      if Trim(newField.fieldLabel) == "" {
        notice := Alert(LabelRequired);
        return;
      }
      var field := NewField(newField, now);
      FieldTypesFacts();
      NewFieldPassesImportCheck(newField, now);
      AppendKeepsImportCheck(fields, field);
      fields := fields + [field];
      newField := EmptyDraft;
      notice := Quiet;
    }

    /** `handleInputChange(label, value)`: only the entry under the field's label changes. */
    method HandleInputChange(fieldLabel: string, value: string)
      modifies this
      ensures old(Valid()) ==> Valid()
      ensures formData == old(formData)[fieldLabel := value]
      ensures fieldLabel in formData && formData[fieldLabel] == value
      ensures forall k | k in old(formData) && k != fieldLabel :: k in formData && formData[k] == old(formData)[k]
      ensures formData.Keys == old(formData).Keys + {fieldLabel}
      ensures fields == old(fields) && records == old(records) && newField == old(newField)
    {
      formData := formData[fieldLabel := value];
    }

    /**
     * `saveRecord`: with no form data it alerts and changes nothing;
     * otherwise the form data is appended as the last record and cleared.
     */
    method SaveRecord() returns (notice: Notice)
      modifies this
      ensures old(Valid()) ==> Valid()
      ensures old(formData) == map[] ==>
        notice == Alert(FillOutForm) && records == old(records) && formData == old(formData)
      ensures old(formData) != map[] ==>
        notice == Quiet && records == old(records) + [old(formData)] && formData == map[]
      ensures fields == old(fields) && newField == old(newField)
    {
      if |formData| == 0 {
        notice := Alert(FillOutForm);
        return;
      }
      records := records + [formData];
      formData := map[];
      notice := Quiet;
    }

    /**
     * `handleDragEnd` for a drag of the field with id `active` dropped on
     * `over`: the list becomes `DragEnd` of the old one, a permutation that
     * is unchanged when the target is missing, is the dragged field itself,
     * or either id is not in the list.
     */
    method HandleDragEnd(active: string, over: Option<string>)
      modifies this
      ensures old(Valid()) ==> Valid()
      ensures fields == DragEnd(old(fields), active, over)
      ensures multiset(fields) == multiset(old(fields))
      ensures AllPassImportCheck(old(fields)) ==> AllPassImportCheck(fields)
      ensures records == old(records) && newField == old(newField) && formData == old(formData)
    {
      if over.None? || active == over.value {
        return;
      }
      var oldIndex := FindIndex(fields, active);
      var newIndex := FindIndex(fields, over.value);
      if oldIndex == -1 || newIndex == -1 {
        return;
      }
      ghost var before := fields;
      fields := Move(fields, oldIndex, newIndex);
      if AllPassImportCheck(before) {
        PermutationKeepsImportCheck(before, fields);
      }
    }

    /**
     * `exportForm`: with no fields it alerts and downloads nothing;
     * otherwise the whole field list is downloaded as `form.json`.
     */
    method ExportForm() returns (download: Option<FormFile>, notice: Notice)
      ensures fields == [] ==> download == None && notice == Alert(NoFieldsToExport)
      ensures fields != [] ==> download == Some(FormFile("form.json", fields)) && notice == Alert(FormExported)
    {
      if |fields| == 0 {
        return None, Alert(NoFieldsToExport);
      }
      return Some(FormFile("form.json", fields)), Alert(FormExported);
    }

    /**
     * `importForm` for the chosen file, already read and parsed: no file
     * changes nothing; a value that fails the check alerts and leaves the
     * list untouched; one that passes replaces the list wholesale.
     */
    method ImportForm(file: Option<ImportedData>) returns (notice: Notice)
      modifies this
      ensures old(Valid()) ==> Valid()
      ensures file.None? ==> notice == Quiet && fields == old(fields)
      ensures file.Some? && ValidateImport(file.value).None? ==>
        notice == Alert(ImportFailed) && fields == old(fields)
      ensures file.Some? && ValidateImport(file.value).Some? ==>
        notice == Alert(FormImported) && fields == ValidateImport(file.value).value && AllPassImportCheck(fields)
      ensures records == old(records) && newField == old(newField) && formData == old(formData)
    {
      if file.None? {
        return Quiet;
      }
      var imported := ValidateImport(file.value);
      if imported.None? {
        return Alert(ImportFailed);
      }
      fields := imported.value;
      notice := Alert(FormImported);
    }

    /** `clearForm`: confirmed, the field list is emptied; declined, nothing changes. */
    method ClearForm(confirmed: bool)
      modifies this
      ensures old(Valid()) ==> Valid()
      ensures fields == if confirmed then [] else old(fields)
      ensures records == old(records) && newField == old(newField) && formData == old(formData)
    {
      if confirmed {
        fields := [];
      }
    }
  }
}
