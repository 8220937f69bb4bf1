/**
 * `RecordsTable`: the saved records as a table with one column per field
 * and one row per record, or a placeholder line when nothing is saved.
 */
module RecordsTable {
  import opened Fields
  import opened Records

  /** The line shown instead of the table when there are no records. */
  const NoRecordsText: string := "No records saved yet."

  /** The table's header cells and body rows. */
  datatype Grid = Grid(header: seq<string>, rows: seq<seq<string>>)

  /** What the component renders. */
  datatype View = Placeholder(text: string) | Table(grid: Grid)

  /** `fields.map(field => <th>{field.label}</th>)`: one header cell per field, in field order. */
  function Header(fields: seq<Field>): (header: seq<string>)
    ensures |header| == |fields|
    ensures forall c | 0 <= c < |fields| :: header[c] == fields[c].fieldLabel
  {
    if fields == [] then [] else [fields[0].fieldLabel] + Header(fields[1..])
  }

  /** `fields.map(field => <td>{record[field.label] || "-"}</td>)`: one cell per field, in field order. */
  function Row(record: FormData, fields: seq<Field>): (row: seq<string>)
    ensures |row| == |fields|
    ensures forall c | 0 <= c < |fields| :: row[c] == Cell(record, fields[c].fieldLabel)
  {
    if fields == [] then [] else [Cell(record, fields[0].fieldLabel)] + Row(record, fields[1..])
  }

  /** `records.map(record => <tr>…</tr>)`: one row per record, in record order. */
  function Rows(records: seq<FormData>, fields: seq<Field>): (rows: seq<seq<string>>)
    ensures |rows| == |records|
    ensures forall r | 0 <= r < |records| :: rows[r] == Row(records[r], fields)
  {
    if records == [] then [] else [Row(records[0], fields)] + Rows(records[1..], fields)
  }

  /** The table of the records over the fields. */
  function GridOf(records: seq<FormData>, fields: seq<Field>): (g: Grid)
    ensures |g.header| == |fields| && |g.rows| == |records|
    ensures forall r | 0 <= r < |records| :: |g.rows[r]| == |fields|
  {
    Grid(Header(fields), Rows(records, fields))
  }

  /** The component: the placeholder when there are no records, the table otherwise. */
  function Render(records: seq<FormData>, fields: seq<Field>): (v: View)
    ensures v.Placeholder? <==> records == []
    ensures v.Placeholder? ==> v.text == NoRecordsText
    ensures v.Table? ==> v.grid == GridOf(records, fields)
  {
    if |records| == 0 then Placeholder(NoRecordsText) else Table(GridOf(records, fields))
  }

  /**
   * The table has a column per field headed by its label, a row per record
   * with as many cells as there are fields, and each cell is the record's
   * value under the field's label, or a dash.
   */
  lemma TableShape(records: seq<FormData>, fields: seq<Field>, r: nat, c: nat)
    requires r < |records| && c < |fields|
    ensures var g := GridOf(records, fields);
      && |g.header| == |fields| && g.header[c] == fields[c].fieldLabel
      && |g.rows| == |records| && |g.rows[r]| == |fields|
      && g.rows[r][c] == Cell(records[r], fields[c].fieldLabel)
  {
  }

  /** Two fields with the same label show the same cell in every row. */
  lemma SameLabelSameCell(records: seq<FormData>, fields: seq<Field>, r: nat, c1: nat, c2: nat)
    requires r < |records| && c1 < |fields| && c2 < |fields|
    requires fields[c1].fieldLabel == fields[c2].fieldLabel
    ensures GridOf(records, fields).rows[r][c1] == GridOf(records, fields).rows[r][c2]
  {
  }

  /**
   * After a save, the new last row shows, for each field, what its input
   * showed before the save, or a dash where it showed nothing.
   */
  lemma SavedRecordRow(records: seq<FormData>, formData: FormData, fields: seq<Field>, c: nat)
    requires c < |fields|
    ensures var v := InputValue(formData, fields[c].fieldLabel);
      GridOf(records + [formData], fields).rows[|records|][c] == if v == "" then "-" else v
  {
    var all := records + [formData];
    assert all[|records|] == formData;
    CellShowsInputValue(formData, fields[c].fieldLabel);
  }
}
