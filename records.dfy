/**
 * The live form state and the saved records, both maps from a field's
 * label to the text entered for it, and the two places a value is read
 * back for display: an input's value and a table cell.
 */
module Records {

  /** `formData`, and each saved record: entered text keyed by field label. */
  type FormData = map<string, string>

  /** The alert raised when saving with no form data. */
  const FillOutForm: string := "Fill out the form before saving!"

  /**
   * `formData[field.label] || ""`, the value an input shows. The `|| ""`
   * fallback only replaces an empty or missing value by the empty string,
   * so the input shows the stored text, or nothing when there is none.
   */
  function InputValue(formData: FormData, key: string): (v: string)
    ensures v == if key in formData then formData[key] else ""
  {
    if key in formData && formData[key] != "" then formData[key] else ""
  }

  /**
   * `record[field.label] || "-"`, the text of a table cell: the stored
   * text when there is some, otherwise a dash, so a cell is never empty.
   */
  function Cell(record: FormData, key: string): (c: string)
    ensures c != ""
    ensures c == "-" || (key in record && c == record[key])
    ensures key in record && record[key] != "" ==> c == record[key]
  {
    if key in record && record[key] != "" then record[key] else "-"
  }

  /** A cell shows what the input showed when the record was filled in, or a dash for nothing. */
  lemma CellShowsInputValue(record: FormData, key: string)
    ensures Cell(record, key) == if InputValue(record, key) == "" then "-" else InputValue(record, key)
  {
  }
}
