# formify form builder, modelled in Dafny

formify is a React form builder. The user defines form fields, each with
an id, a label, a type and, for dropdowns, a list of options. They fill
the form in and save the answers as records, reorder fields by drag and
drop, and export or import the field list as JSON. The front-end panel
also defines a removal of fields by id, although no control in the shown
components calls it. Saved
records are shown in a table and can be downloaded.

This project models the state logic of the five components that do that:

- `components/FormBuilder.jsx` is the page-level builder: adding fields, form state and saving, drag-and-drop with a not-found guard, export, import and clear. It is modelled in `form_builder_page.dfy`.
- `frontend/src/components/FormBuilder.js` is the panel variant: drag-and-drop without a not-found guard, plus removal by id. It is modelled in `form_builder_panel.dfy`.
- `frontend/src/components/dynamicformbuilder.js` is the stand-alone builder with records, export and the records table. It is modelled in `dynamic_form_builder.dfy`.
- `frontend/src/components/AddFormField.js` is the add-field form that hands the new field to its parent. It is modelled in `add_form_field.dfy`.
- `frontend/src/components/RecordsTable.js` is the records table. It is modelled in `records_table.dfy`.

The logic the components share is defined once:

- `text.dfy` holds JavaScript `trim` over the ECMAScript whitespace and line-terminator set, `split`, `join` and the decimal `toString` of a clock reading.
- `fields.dfy` holds the field and editor-draft values, option parsing, field construction and the import check.
- `reorder.dfy` holds `findIndex`, the array move, the drop handler and removal by id.
- `records.dfy` holds the form data and record maps and the value an input or a table cell shows.
- `effects.dfy` holds `Option` and `Notice`. A `Notice` is the `alert` a handler raises, or `Quiet` when it raises none.

Each component with state is a class. Its fields are the component's
state: `fields`, `records`, the editor `newField` and `formData`. Each
handler is a method whose postcondition gives the whole new state in
terms of the old one. The pure parts are functions, with lemmas for the
properties the handlers rely on:

- parsed options are non-empty and comma-free;
- every built field passes the import check;
- a move is a permutation that keeps the relative order of the other fields;
- removal keeps order and is idempotent;
- export then import is the identity.

JavaScript truthiness is modelled as follows. An empty string and an
absent key are falsy; every other string is truthy. Maps are keyed by
label and hold only what was entered, so a label that names a property
every JavaScript object inherits is not read through to that property
(see "## Left out"). So
`!label.trim()` is `IsBlank(label)`, and `record[label] || "-"` is `Cell`.
The clock reading `Date.now()` is a parameter `now`, and a field's id is
its decimal string.

## Model

| member | source | states |
|---|---|---|
| Text.TrimStart | components/FormBuilder.jsx:25 | only trimmable code points are dropped at the front and the rest starts with a non-trimmable one |
| Text.TrimEnd | components/FormBuilder.jsx:25 | only trimmable code points are dropped at the end and the rest ends with a non-trimmable one |
| Text.TrimStartIsSuffix | components/FormBuilder.jsx:25 | the front-trimmed string is a suffix of the input |
| Text.TrimEndIsPrefix | components/FormBuilder.jsx:25 | the end-trimmed string is a prefix of the input |
| Text.Trim | components/FormBuilder.jsx:25 | `label.trim()` is never longer than the label; its full characterisation is `Text.TrimSpec` |
| Text.IsBlank | components/FormBuilder.jsx:25 | `!label.trim()`: every code point of the label is whitespace or a line terminator (tied to `Trim` by `Text.TrimEmptyIffBlank`) |
| Text.TrimIsSlice | components/FormBuilder.jsx:25 | `trim()` returns a contiguous slice of the input |
| Text.TrimCutsOnlyTrimmable | components/FormBuilder.jsx:25 | everything cut away on either side is whitespace or a line terminator |
| Text.TrimEndsUntrimmable | components/FormBuilder.jsx:25 | a non-empty trim starts and ends with a non-whitespace code point |
| Text.TrimEmptyIffBlank | components/FormBuilder.jsx:25 | `!label.trim()` holds exactly when the label is whitespace only, in both directions |
| Text.TrimSpec | components/FormBuilder.jsx:25 | the four trim facts together: slice, only whitespace cut, non-whitespace ends, empty iff blank |
| Text.TrimKeepsOnly | components/FormBuilder.jsx:27 | trimming introduces no code point, so a comma-free piece stays comma-free |
| Text.TrimIdempotent | components/FormBuilder.jsx:27 | trimming a trimmed option changes nothing |
| Text.Split | components/FormBuilder.jsx:27 | `split(",")` always yields at least one piece |
| Text.SplitCount | components/FormBuilder.jsx:27 | `split` yields exactly one piece more than there are separators |
| Text.SplitPiecesLackSeparator | components/FormBuilder.jsx:27 | no piece of a split contains the separator |
| Text.JoinAppend | components/FormBuilder.jsx:27 | joining two lists of pieces puts one separator between their joins |
| Text.SplitAppend | components/FormBuilder.jsx:27 | splitting `a + "," + b` gives the pieces of `a` followed by the pieces of `b` |
| Text.SplitNoSeparator | components/FormBuilder.jsx:27 | a text without the separator splits into itself alone |
| Text.JoinSplit | components/FormBuilder.jsx:27 | joining the pieces with the separator gives back the text |
| Text.SplitPrefix | components/FormBuilder.jsx:27 | a separator-free prefix only extends the first piece |
| Text.SplitJoin | components/FormBuilder.jsx:27 | splitting a join of separator-free pieces gives back the pieces |
| Text.Digit | components/FormBuilder.jsx:29 | each decimal digit is a character between '0' and '9' |
| Text.Decimal | components/FormBuilder.jsx:29 | `Date.now().toString()` is a non-empty string of decimal digits, with two or more digits from 10 up |
| Text.DecimalInjective | components/FormBuilder.jsx:29 | different clock readings give different id strings |
| Fields.FieldTypesFacts | components/FormBuilder.jsx:7 | the editor's initial type "text" is one of the six offered types, and none of them is empty |
| Fields.TrimAll | components/FormBuilder.jsx:27 | `.map(opt => opt.trim())` keeps the number of pieces |
| Fields.TrimAllAt | components/FormBuilder.jsx:27 | each piece is trimmed in place |
| Fields.TrimAllAppend | components/FormBuilder.jsx:27 | `.map(opt => opt.trim())` works piece by piece over concatenation, so order is kept |
| Fields.TrimmedPiecesTrimmed | components/FormBuilder.jsx:27 | every trimmed piece is its own trim |
| Fields.TrimmedPiecesLackComma | components/FormBuilder.jsx:27 | trimming comma-free pieces keeps them comma-free |
| Fields.KeepNonEmpty | components/FormBuilder.jsx:27 | `.filter(opt => opt)` keeps exactly the non-empty pieces, and is the identity when none is empty |
| Fields.KeepNonEmptyAppend | components/FormBuilder.jsx:27 | `.filter(opt => opt)` works piece by piece over concatenation, so kept pieces keep their order and repeats |
| Fields.KeepNonEmptyCount | components/FormBuilder.jsx:27 | the filter drops exactly as many pieces as are empty |
| Fields.ParseOptions | components/FormBuilder.jsx:27 | no option is empty or contains a comma; there are at most commas + 1 options; a blank or empty text gives none |
| Fields.ParsedOptionsTrimmed | components/FormBuilder.jsx:27 | every option is already trimmed |
| Fields.ParseOptionsAppend | components/FormBuilder.jsx:27 | the options of `a + "," + b` are the options of `a` followed by those of `b`, in order and with repeats |
| Fields.ParseOneOption | components/FormBuilder.jsx:27 | a comma-free text gives its trim as the one option, or none when it trims to nothing; with `ParseOptionsAppend` this fixes every option list |
| Fields.BlankTextHasOnePiece | components/FormBuilder.jsx:27 | a blank options text splits into one piece that trims to the empty string |
| Fields.ParseJoinedOptions | components/FormBuilder.jsx:27 | non-empty, comma-free, trimmed options written back comma-separated parse to the same list |
| Fields.OptionsFor | components/FormBuilder.jsx:26-28 | any type but `select` gets `[]`; `select` options are non-empty and comma-free |
| Fields.NewField | components/FormBuilder.jsx:29 | the id is the clock reading's decimal digits; label and type are copied verbatim; only `select` fields can have options |
| Fields.NewFieldIdsDiffer | components/FormBuilder.jsx:29 | fields built at different clock readings have different ids |
| Fields.NewFieldPassesImportCheck | components/FormBuilder.jsx:29 | a field built from a non-blank label and an offered type passes the import check |
| Fields.AppendKeepsImportCheck | components/FormBuilder.jsx:31 | appending a passing field to a passing list gives a passing list |
| Fields.PassesImportCheck | components/FormBuilder.jsx:98 | `field.id && field.label && field.type`: all three are non-empty |
| Fields.CheckElements | components/FormBuilder.jsx:98-100 | `every` accepts exactly when each element is a field with non-empty id, label and type, and then yields the elements in order |
| Fields.ValidateImport | components/FormBuilder.jsx:97-102 | only an array whose every element passes is accepted, as is; anything else is rejected whole |
| Fields.ExportImportRoundTrip | components/FormBuilder.jsx:74 | a list whose fields pass the check survives export and import unchanged |
| Fields.ImportRejectsMissingLabel | components/FormBuilder.jsx:98 | one element without a label rejects the whole import |
| Reorder.FindIndex | components/FormBuilder.jsx:54-55 | `findIndex` is -1 exactly when no field has the id, otherwise the first position with it |
| Reorder.RemoveAt | components/FormBuilder.jsx:58 | removing one element shortens the list by one |
| Reorder.Move | components/FormBuilder.jsx:58 | `arrayMove` keeps the length and the multiset, puts the dragged element at the target, and leaves the others in order |
| Reorder.MoveAt | components/FormBuilder.jsx:58 | the target gets the dragged element; positions between source and target shift by one; the others stay |
| Reorder.MoveBack | components/FormBuilder.jsx:58 | moving back from target to source undoes a move |
| Reorder.DragEnd | components/FormBuilder.jsx:49-60 | no target, the same id, or an id not in the list: unchanged; otherwise a permutation with the dragged field at the target's index and the others in order |
| Reorder.DragFirstOntoLast | components/FormBuilder.jsx:49-60 | dropping the first of three fields on the last gives the order B, C, A |
| Reorder.PermutationKeepsImportCheck | components/FormBuilder.jsx:58 | a reordered passing list still passes the import check |
| Reorder.CountId | frontend/src/components/FormBuilder.js:49 | at most every field has the id |
| Reorder.CountIdZero | frontend/src/components/FormBuilder.js:49 | the count is zero exactly when no field has the id |
| Reorder.RemoveId | frontend/src/components/FormBuilder.js:49 | `filter` shrinks the list by exactly the number of fields with the id |
| Reorder.RemoveIdMembers | frontend/src/components/FormBuilder.js:49 | exactly the fields with another id remain |
| Reorder.RemoveAbsentId | frontend/src/components/FormBuilder.js:49 | removing an id no field has leaves the list unchanged |
| Reorder.RemoveIdAppend | frontend/src/components/FormBuilder.js:49 | removal works piecewise, so the remaining fields keep their order |
| Reorder.RemoveIdIdempotent | frontend/src/components/FormBuilder.js:49 | removing twice is removing once |
| Reorder.RemovalKeepsImportCheck | frontend/src/components/FormBuilder.js:49 | removal keeps a passing list passing |
| Records.InputValue | frontend/src/components/dynamicformbuilder.js:121 | an input shows the stored text under the label, or "" when there is none |
| Records.Cell | frontend/src/components/RecordsTable.js:23 | a cell is never empty: it shows the stored non-empty text, otherwise "-" |
| Records.CellShowsInputValue | frontend/src/components/dynamicformbuilder.js:121 | a cell shows what the input showed, or "-" where that was empty |
| RecordsTable.Header | frontend/src/components/RecordsTable.js:14-16 | one header cell per field, in field order, holding its label |
| RecordsTable.Row | frontend/src/components/RecordsTable.js:22-24 | one cell per field, in field order, each the record's cell under that label |
| RecordsTable.Rows | frontend/src/components/RecordsTable.js:20-26 | one row per record, in record order |
| RecordsTable.GridOf | frontend/src/components/RecordsTable.js:11-28 | the table: a header with one cell per field and one row per record, each row with one cell per field |
| RecordsTable.Render | frontend/src/components/RecordsTable.js:3-5 | the placeholder "No records saved yet." exactly when there are no records, otherwise the table |
| RecordsTable.TableShape | frontend/src/components/RecordsTable.js:14-26 | the table has a column per field, a row per record with one cell per field, and each cell is the record's value or "-" |
| RecordsTable.SameLabelSameCell | frontend/src/components/RecordsTable.js:23 | two fields with the same label show the same cell in every row |
| RecordsTable.SavedRecordRow | frontend/src/components/dynamicformbuilder.js:171-175 | after a save, the last row shows for each field what its input showed, or "-" |
| FormBuilderPage.FormBuilder.constructor | components/FormBuilder.jsx:6-8 | the editor starts empty with type "text" and there is no form data |
| FormBuilderPage.FormBuilder.SetLabel | components/FormBuilder.jsx:129 | only the editor's label changes |
| FormBuilderPage.FormBuilder.SetType | components/FormBuilder.jsx:133-143 | only the editor's type changes, to one of the six offered |
| FormBuilderPage.FormBuilder.SetOptions | components/FormBuilder.jsx:149 | only the editor's options text changes |
| FormBuilderPage.FormBuilder.AddField | components/FormBuilder.jsx:24-33 | a blank label alerts and changes nothing; otherwise exactly one field is appended with a verbatim label and type, it passes the import check, and the editor resets |
| FormBuilderPage.FormBuilder.HandleInputChange | components/FormBuilder.jsx:35-37 | `formData[label := value]`: every other key keeps its value |
| FormBuilderPage.FormBuilder.SaveRecord | components/FormBuilder.jsx:39-46 | empty form data alerts and changes nothing; otherwise it is appended as the last record and cleared |
| FormBuilderPage.FormBuilder.HandleDragEnd | components/FormBuilder.jsx:49-60 | the list becomes `DragEnd` of the old list, a permutation, and stays passing |
| FormBuilderPage.FormBuilder.ExportForm | components/FormBuilder.jsx:67-81 | no fields alerts "No fields to export!" and downloads nothing; otherwise the whole list is downloaded as `form.json` and a success alert is raised |
| FormBuilderPage.FormBuilder.ImportForm | components/FormBuilder.jsx:87-110 | no file changes nothing; a failing value alerts and keeps the list; a passing one replaces it wholesale |
| FormBuilderPage.FormBuilder.ClearForm | components/FormBuilder.jsx:112-117 | confirmed, the list is emptied; declined, nothing changes |
| FormBuilderPanel.FormBuilder.constructor | frontend/src/components/FormBuilder.js:8-10 | the editor starts empty with type "text" and there is no form data |
| FormBuilderPanel.FormBuilder.SetLabel | frontend/src/components/FormBuilder.js:60 | only the editor's label changes |
| FormBuilderPanel.FormBuilder.SetType | frontend/src/components/FormBuilder.js:63-74 | only the editor's type changes, to one of the six offered |
| FormBuilderPanel.FormBuilder.SetOptions | frontend/src/components/FormBuilder.js:80 | only the editor's options text changes |
| FormBuilderPanel.FormBuilder.AddField | frontend/src/components/FormBuilder.js:12-21 | a blank label alerts and changes nothing; otherwise exactly one passing field is appended and the editor resets |
| FormBuilderPanel.FormBuilder.HandleInputChange | frontend/src/components/FormBuilder.js:23-25 | only the entry under the label changes |
| FormBuilderPanel.FormBuilder.SaveRecord | frontend/src/components/FormBuilder.js:27-34 | empty form data alerts and changes nothing; otherwise it is appended to the records and cleared |
| FormBuilderPanel.FormBuilder.HandleDragEnd | frontend/src/components/FormBuilder.js:37-45 | no target or the same id: unchanged; otherwise the dragged field moves to the target's index, a permutation with the others in order |
| FormBuilderPanel.FormBuilder.RemoveField | frontend/src/components/FormBuilder.js:48-50 | every field with the id is removed, the others keep their order, and the length drops by the number removed |
| DynamicFormBuilder.DynamicFormBuilder.constructor | frontend/src/components/dynamicformbuilder.js:5-8 | no fields, an empty editor, no records and no form data |
| DynamicFormBuilder.DynamicFormBuilder.SetLabel | frontend/src/components/dynamicformbuilder.js:82 | only the editor's label changes |
| DynamicFormBuilder.DynamicFormBuilder.SetType | frontend/src/components/dynamicformbuilder.js:85-96 | only the editor's type changes, to one of the six offered |
| DynamicFormBuilder.DynamicFormBuilder.SetOptions | frontend/src/components/dynamicformbuilder.js:102 | only the editor's options text changes |
| DynamicFormBuilder.DynamicFormBuilder.AddField | frontend/src/components/dynamicformbuilder.js:20-29 | a blank label alerts and changes nothing; otherwise one passing field with parsed options is appended and the editor resets |
| DynamicFormBuilder.DynamicFormBuilder.HandleInputChange | frontend/src/components/dynamicformbuilder.js:31-33 | a single-key map update |
| DynamicFormBuilder.DynamicFormBuilder.SaveRecord | frontend/src/components/dynamicformbuilder.js:35-42 | empty form data leaves records and form data unchanged; otherwise exactly that map is appended and then cleared |
| DynamicFormBuilder.DynamicFormBuilder.ExportData | frontend/src/components/dynamicformbuilder.js:44-60 | no records aborts with an alert before any download; "json" downloads `data.json`; other formats download sheet "Data" of `data.<format>`; all records are exported |
| DynamicFormBuilder.DynamicFormBuilder.InputShown | frontend/src/components/dynamicformbuilder.js:121 | a field's input shows the text under its label, or nothing |
| DynamicFormBuilder.DynamicFormBuilder.RecordsSection | frontend/src/components/dynamicformbuilder.js:158-177 | the records section is absent exactly when there are no records, otherwise it is the records table |
| AddFormField.AddFieldForm.constructor | frontend/src/components/AddFormField.js:4 | the editor starts empty with type "text" |
| AddFormField.AddFieldForm.SetLabel | frontend/src/components/AddFormField.js:26 | only the editor's label changes |
| AddFormField.AddFieldForm.SetType | frontend/src/components/AddFormField.js:29-40 | only the editor's type changes, to one of the six offered |
| AddFormField.AddFieldForm.SetOptions | frontend/src/components/AddFormField.js:46 | only the editor's options text changes |
| AddFormField.AddFieldForm.HandleAddField | frontend/src/components/AddFormField.js:6-18 | a blank label alerts, hands nothing over and keeps the editor; otherwise exactly the built field is handed over once, it passes the import check, and the editor resets |

## Left out

- localStorage loading and saving of the field list is browser persistence and is not modelled. This also covers the removal of the stored list on clear.
- File downloads are not modelled: Blob, object URL and anchor click, and the XLSX and CSV writers. `ExportForm` and `ExportData` return the file name and the data that would be written. The `try`/`catch` around the form export is not modelled, because serialising the field list cannot fail in the model.
- FileReader, `JSON.parse` and the asynchronous `onload` of the import are not modelled. `ImportForm` takes the already parsed value, so a second import racing the first cannot occur in the model.
- `ImportForm`: values other than strings are not representable, so a truthy numeric id or a missing key is read as a string, or as "" when absent. `ExportImportRoundTrip` assumes that `JSON.stringify` followed by `JSON.parse` gives back the same fields.
- `Date.now()` is the parameter `now`. Nothing in the source makes ids unique, so two adds at the same millisecond give equal ids. `NewFieldIdsDiffer` only covers different readings.
- `alert` is modelled as the returned `Notice`. `window.confirm` is modelled as the `confirmed` argument of `ClearForm`.
- The `beforeunload` warning, dark mode, the preview modal, the "No Fields added yet." line, markup and styling are not modelled. The drag UI and collision detection of the sortable field components are not part of this model.
- `Reorder.Move` is defined directly as remove-then-insert, because the dnd-kit `arrayMove` is not part of this model.
- `FormBuilderPanel.FormBuilder.HandleDragEnd` requires both ids to be in the list whenever its early return does not fire. This matches drags that start and end on rendered fields. What `arrayMove` does with an index of -1 is not modelled.
- `FormBuilderPanel.FormBuilder.HandleDragEnd`: the source looks indices up in `fields` and applies them to the functional update's `prevFields`. The model has one state, so both are the same list and interleaved updates are not captured.
- Records.InputValue, Records.Cell: a label equal to the name of a property every JavaScript object inherits, such as "toString" or "__proto__", is read as absent. In the source, `formData[label]` and `record[label]` read that inherited property when nothing was entered. The cell then renders empty for "toString", rendering throws for "__proto__", and the input is handed that property instead of an empty string. The model's `Cell` is never empty, so it does not capture these labels.
- FormBuilderPanel.FormBuilder.RemoveField models `removeField` as written. No control in the shown components calls it: the sortable field component receives the callback but never uses it, and the page builder's removal is commented out.
- Form data and records are keyed by field label, as in the source. Two fields with the same label share one entry (see `RecordsTable.SameLabelSameCell`).
- Every `Valid` predicate keeps the editor's type to one of the six types the `<select>` offers. A handler given any other type is not modelled.
