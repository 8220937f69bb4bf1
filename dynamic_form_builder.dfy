/**
 * The stand-alone dynamic form builder (frontend/src/components/dynamicformbuilder.js):
 * it owns its field list, the add-field editor, the saved records and the
 * live form state; it saves records, exports them as JSON or as a
 * spreadsheet, and shows them in a table under the form.
 */
module DynamicFormBuilder {
  import opened Effects
  import opened Text
  import opened Fields
  import opened Records
  import opened RecordsTable

  const NoRecordsToExport: string := "No records to export"

  /**
   * A file handed to the browser: the records written as JSON, or as a
   * sheet named "Data" in the spreadsheet format the name ends in.
   */
  datatype Download =
    | JsonFile(fileName: string, records: seq<FormData>)
    | SheetFile(fileName: string, sheetName: string, records: seq<FormData>)

  class DynamicFormBuilder {
    var fields: seq<Field>
    var newField: Draft
    var records: seq<FormData>
    var formData: FormData

    /** The editor's type is always one its `<select>` offers. */
    ghost predicate Valid()
      reads this
    {
      newField.fieldType in FieldTypes
    }

    /** The initial state: no fields, an empty editor, no records, no form data. */
    constructor ()
      ensures Valid()
      ensures fields == [] && newField == EmptyDraft && records == [] && formData == map[]
    {
      fields := [];
      newField := EmptyDraft;
      records := [];
      formData := map[];
    }

    /** Typing in the label input. */
    method SetLabel(text: string)
      requires Valid()
      modifies this
      ensures Valid()
      ensures newField == old(newField).(fieldLabel := text)
      ensures fields == old(fields) && records == old(records) && formData == old(formData)
    {
      newField := newField.(fieldLabel := text);
    }

    /** Choosing a type in the `<select>`. */
    method SetType(fieldType: string)
      requires Valid() && fieldType in FieldTypes
      modifies this
      ensures Valid()
      ensures newField == old(newField).(fieldType := fieldType)
      ensures fields == old(fields) && records == old(records) && formData == old(formData)
    {
      newField := newField.(fieldType := fieldType);
    }

    /** Typing in the dropdown-options input. */
    method SetOptions(text: string)
      requires Valid()
      modifies this
      ensures Valid()
      ensures newField == old(newField).(options := text)
      ensures fields == old(fields) && records == old(records) && formData == old(formData)
    {
      newField := newField.(options := text);
    }

    /**
     * `addField` at clock reading `now`. A blank label alerts and changes
     * nothing. Otherwise exactly one field is appended after the existing
     * ones, built from the editor, it passes the import check, and the
     * editor is reset.
     */
    method AddField(now: nat) returns (notice: Notice)
      requires Valid()
      modifies this
      ensures Valid()
      ensures IsBlank(old(newField).fieldLabel) ==>
        notice == Alert(LabelRequired) && fields == old(fields) && newField == old(newField)
      ensures !IsBlank(old(newField).fieldLabel) ==>
        && notice == Quiet
        && fields == old(fields) + [NewField(old(newField), now)]
        && PassesImportCheck(fields[|fields| - 1])
        && newField == EmptyDraft
      ensures AllPassImportCheck(old(fields)) ==> AllPassImportCheck(fields)
      ensures records == old(records) && formData == old(formData)
    {
      TrimEmptyIffBlank(newField.fieldLabel);
      if Trim(newField.fieldLabel) == "" {
        notice := Alert(LabelRequired);
        return;
      }
      var field := NewField(newField, now);
      FieldTypesFacts();
      NewFieldPassesImportCheck(newField, now);
      AppendKeepsImportCheck(fields, field);
      fields := fields + [field];
      newField := EmptyDraft;
      notice := Quiet;
    }

    /** `handleInputChange(label, value)`: only the entry under the field's label changes. */
    method HandleInputChange(fieldLabel: string, value: string)
      modifies this
      ensures old(Valid()) ==> Valid()
      ensures formData == old(formData)[fieldLabel := value]
      ensures fieldLabel in formData && formData[fieldLabel] == value
      ensures forall k | k in old(formData) && k != fieldLabel :: k in formData && formData[k] == old(formData)[k]
      ensures formData.Keys == old(formData).Keys + {fieldLabel}
      ensures fields == old(fields) && records == old(records) && newField == old(newField)
    {
      formData := formData[fieldLabel := value];
    }

    /**
     * `saveRecord`: with no form data it alerts and changes nothing;
     * otherwise the form data is appended as the last record and cleared.
     */
    method SaveRecord() returns (notice: Notice)
      modifies this
      ensures old(Valid()) ==> Valid()
      ensures old(formData) == map[] ==>
        notice == Alert(FillOutForm) && records == old(records) && formData == old(formData)
      ensures old(formData) != map[] ==>
        notice == Quiet && records == old(records) + [old(formData)] && formData == map[]
      ensures fields == old(fields) && newField == old(newField)
    {
      if |formData| == 0 {
        notice := Alert(FillOutForm);
        return;
      }
      records := records + [formData];
      formData := map[];
      notice := Quiet;
    }

    /**
     * `exportData(format)`: with no records it alerts and downloads
     * nothing; "json" downloads every record as `data.json`; any other
     * format downloads every record on a sheet "Data" of `data.<format>`.
     */
    method ExportData(format: string) returns (download: Option<Download>, notice: Notice)
      ensures records == [] <==> download.None?
      ensures records == [] ==> notice == Alert(NoRecordsToExport)
      ensures records != [] ==> notice == Quiet && download.value.records == records
      ensures download.Some? ==> (download.value.JsonFile? <==> format == "json")
      ensures download.Some? && download.value.JsonFile? ==> download.value.fileName == "data.json"
      ensures download.Some? && download.value.SheetFile? ==>
        download.value.fileName == "data." + format && download.value.sheetName == "Data"
    {
      if |records| == 0 {
        return None, Alert(NoRecordsToExport);
      }
      if format == "json" {
        download := Some(JsonFile("data.json", records));
      } else {
        download := Some(SheetFile("data." + format, "Data", records));
      }
      notice := Quiet;
    }

    /** The value the input of a field shows: what was entered under its label, or nothing. */
    function InputShown(field: Field): (v: string)
      reads this
      ensures field.fieldLabel in formData ==> v == formData[field.fieldLabel]
      ensures field.fieldLabel !in formData ==> v == ""
    {
      InputValue(formData, field.fieldLabel)
    }

    /**
     * The "Saved Records" section: absent while there are no records,
     * otherwise the same table as `RecordsTable` renders for them.
     */
    function RecordsSection(): (section: Option<Grid>)
      reads this
      ensures section.None? <==> records == []
      ensures section.Some? ==> Render(records, fields) == Table(section.value)
    {
      if |records| > 0 then Some(GridOf(records, fields)) else None
    }
  }
}
