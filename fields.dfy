/**
 * Field definitions, the add-field editor's draft, the parsing of a
 * dropdown's comma-separated options, and the structural check a JSON
 * import must pass. Shared by every form-builder component.
 */
module Fields {
  import opened Effects
  import opened Text

  /** A field definition `{ id, label, type, options }`. */
  datatype Field = Field(id: string, fieldLabel: string, fieldType: string, options: seq<string>)

  /**
   * The add-field editor's state `newField = { label, type, options }`;
   * here `options` is still the raw comma-separated text.
   */
  datatype Draft = Draft(fieldLabel: string, fieldType: string, options: string)

  /** The values the editor's type `<select>` offers. */
  const FieldTypes: seq<string> := ["text", "number", "date", "textarea", "checkbox", "select"]

  /** The alert every add-field editor raises for a blank label. */
  const LabelRequired: string := "Label is required!"

  /** The editor's initial state, and the state it is reset to after an add. */
  const EmptyDraft: Draft := Draft("", "text", "")

  /** The initial type is one the `<select>` offers, and every offered type is non-empty. */
  lemma FieldTypesFacts()
    ensures EmptyDraft.fieldType in FieldTypes
    ensures "" !in FieldTypes
  {
    assert FieldTypes[0] == EmptyDraft.fieldType;
  }

  /** `.map(opt => opt.trim())`. */
  function TrimAll(pieces: seq<string>): (r: seq<string>)
    ensures |r| == |pieces|
  {
    if pieces == [] then [] else [Trim(pieces[0])] + TrimAll(pieces[1..])
  }

  /** Each piece is trimmed in place. */
  lemma {:induction false} TrimAllAt(pieces: seq<string>, i: nat)
    requires i < |pieces|
    ensures TrimAll(pieces)[i] == Trim(pieces[i])
  {
    if i > 0 {
      TrimAllAt(pieces[1..], i - 1);
    }
  }

  /** Trimmed pieces are their own trim. */
  lemma {:induction false} TrimmedPiecesTrimmed(pieces: seq<string>)
    ensures forall o | o in TrimAll(pieces) :: Trim(o) == o
  {
    if pieces != [] {
      var head, rest := Trim(pieces[0]), pieces[1..];
      TrimIdempotent(pieces[0]);
      TrimmedPiecesTrimmed(rest);
      assert TrimAll(pieces) == [head] + TrimAll(rest);
    }
  }

  /** Trimming comma-free pieces gives comma-free pieces. */
  lemma {:induction false} TrimmedPiecesLackComma(pieces: seq<string>)
    requires forall p | p in pieces :: ',' !in p
    ensures forall o | o in TrimAll(pieces) :: ',' !in o
  {
    if pieces != [] {
      TrimKeepsOnly(pieces[0], ',');
      TrimmedPiecesLackComma(pieces[1..]);
      assert TrimAll(pieces) == [Trim(pieces[0])] + TrimAll(pieces[1..]);
    }
  }

  /** `.filter(opt => opt)`: keeps the truthy, that is non-empty, strings in order. */
  function KeepNonEmpty(pieces: seq<string>): (r: seq<string>)
    ensures forall s :: s in r <==> s in pieces && s != ""
    ensures "" !in pieces ==> r == pieces
  {
    if pieces == [] then []
    else
      assert pieces == [pieces[0]] + pieces[1..];
      (if pieces[0] == "" then [] else [pieces[0]]) + KeepNonEmpty(pieces[1..])
  }

  /** The filter drops exactly the empty pieces. */
  lemma {:induction false} KeepNonEmptyCount(pieces: seq<string>)
    ensures |KeepNonEmpty(pieces)| == |pieces| - multiset(pieces)[""]
  {
    if pieces != [] {
      assert pieces == [pieces[0]] + pieces[1..];
      KeepNonEmptyCount(pieces[1..]);
    }
  }

  /**
   * `options.split(",").map(opt => opt.trim()).filter(opt => opt)`: every
   * option is non-empty, free of commas and already trimmed; there are at
   * most as many options as commas plus one; a blank text gives none.
   */
  function ParseOptions(text: string): (options: seq<string>)
    ensures forall o | o in options :: o != "" && ',' !in o
    ensures |options| <= multiset(text)[','] + 1
    ensures IsBlank(text) ==> options == []
  {
    var pieces := Split(text, ',');
    SplitCount(text, ',');
    SplitPiecesLackSeparator(text, ',');
    TrimmedPiecesLackComma(pieces);
    KeepNonEmptyCount(TrimAll(pieces));
    BlankTextHasOnePiece(text);
    KeepNonEmpty(TrimAll(pieces))
  }

  /** Every parsed option is already trimmed. */
  lemma ParsedOptionsTrimmed(text: string)
    ensures forall o | o in ParseOptions(text) :: Trim(o) == o
  {
    TrimmedPiecesTrimmed(Split(text, ','));
  }

  /** Trimming works piece by piece: the trims of two lists follow each other. */
  lemma {:induction false} TrimAllAppend(a: seq<string>, b: seq<string>)
    ensures TrimAll(a + b) == TrimAll(a) + TrimAll(b)
  {
    if a == [] {
      assert a + b == b;
    } else {
      assert (a + b)[0] == a[0];
      assert (a + b)[1..] == a[1..] + b;
      TrimAllAppend(a[1..], b);
    }
  }

  /**
   * The filter works piece by piece, so the kept pieces stay in their
   * order and keep their repeats.
   */
  lemma {:induction false} KeepNonEmptyAppend(a: seq<string>, b: seq<string>)
    ensures KeepNonEmpty(a + b) == KeepNonEmpty(a) + KeepNonEmpty(b)
  {
    if a == [] {
      assert a + b == b;
    } else {
      var head := if a[0] == "" then [] else [a[0]];
      assert (a + b)[0] == a[0];
      assert (a + b)[1..] == a[1..] + b;
      assert KeepNonEmpty(a + b) == head + KeepNonEmpty(a[1..] + b);
      KeepNonEmptyAppend(a[1..], b);
      assert KeepNonEmpty(a) == head + KeepNonEmpty(a[1..]);
    }
  }

  /**
   * The options of two texts joined by a comma are the options of the
   * first followed by those of the second, in order and with repeats.
   */
  lemma ParseOptionsAppend(a: string, b: string)
    ensures ParseOptions(a + "," + b) == ParseOptions(a) + ParseOptions(b)
  {
    SplitAppend(a, b, ',');
    TrimAllAppend(Split(a, ','), Split(b, ','));
    KeepNonEmptyAppend(TrimAll(Split(a, ',')), TrimAll(Split(b, ',')));
  }

  /**
   * A text without a comma gives its trim as the single option, or no
   * option when it trims to nothing. With `ParseOptionsAppend` this fixes
   * every option list, piece by piece.
   */
  lemma ParseOneOption(t: string)
    requires ',' !in t
    ensures ParseOptions(t) == if Trim(t) == "" then [] else [Trim(t)]
  {
    SplitNoSeparator(t, ',');
    assert TrimAll([t]) == [Trim(t)];
    assert KeepNonEmpty([Trim(t)]) == (if Trim(t) == "" then [] else [Trim(t)]) + KeepNonEmpty([]);
  }

  /** A blank text splits into itself alone, which trims to nothing. */
  lemma BlankTextHasOnePiece(text: string)
    ensures IsBlank(text) ==> TrimAll(Split(text, ',')) == [""]
  {
    if IsBlank(text) {
      assert !IsTrimmable(',');
      assert forall i | 0 <= i < |text| :: text[i] != ',';
      assert ',' !in multiset(text);
      var pieces := Split(text, ',');
      SplitCount(text, ',');
      JoinSplit(text, ',');
      assert |pieces| == 1;
      assert pieces == [text];
    }
  }

  /** The text a list of options reads as when written back comma-separated. */
  function JoinOptions(options: seq<string>): string {
    if options == [] then "" else Join(options, ',')
  }

  /** Options that are non-empty, comma-free and trimmed survive a write-back and re-parse. */
  lemma ParseJoinedOptions(options: seq<string>)
    requires forall o | o in options :: o != "" && ',' !in o && Trim(o) == o
    ensures ParseOptions(JoinOptions(options)) == options
  {
    if options != [] {
      SplitJoin(options, ',');
      var trimmed := TrimAll(options);
      forall i | 0 <= i < |options|
        ensures trimmed[i] == options[i]
      {
        TrimAllAt(options, i);
        assert options[i] in options;
      }
      assert trimmed == options;
      assert "" !in trimmed;
    }
  }

  /** The options a field gets from a draft: parsed for `select`, none for any other type. */
  function OptionsFor(draft: Draft): (options: seq<string>)
    ensures draft.fieldType != "select" ==> options == []
    ensures forall o | o in options :: o != "" && ',' !in o
  {
    if draft.fieldType == "select" then ParseOptions(draft.options) else []
  }

  /**
   * `{ id: Date.now().toString(), ...newField, options }` for the clock
   * reading `now`: the label and type are kept verbatim, the id is the
   * reading's decimal digits, and options exist only for `select`.
   */
  function NewField(draft: Draft, now: nat): (f: Field)
    ensures f.id != [] && f.id == Decimal(now)
    ensures f.fieldLabel == draft.fieldLabel && f.fieldType == draft.fieldType
    ensures f.options != [] ==> f.fieldType == "select"
  {
    Field(Decimal(now), draft.fieldLabel, draft.fieldType, OptionsFor(draft))
  }

  /** Two fields built at different clock readings get different ids. */
  lemma NewFieldIdsDiffer(d1: Draft, d2: Draft, now1: nat, now2: nat)
    requires now1 != now2
    ensures NewField(d1, now1).id != NewField(d2, now2).id
  {
    if Decimal(now1) == Decimal(now2) {
      DecimalInjective(now1, now2);
    }
  }

  /** `field.id && field.label && field.type`: all three are truthy, that is non-empty. */
  predicate PassesImportCheck(f: Field) {
    f.id != "" && f.fieldLabel != "" && f.fieldType != ""
  }

  /** Every field of the list passes the import check. */
  predicate AllPassImportCheck(fields: seq<Field>) {
    forall f | f in fields :: PassesImportCheck(f)
  }

  /** A field built from a draft with a non-blank label and a type passes the import check. */
  lemma NewFieldPassesImportCheck(draft: Draft, now: nat)
    requires !IsBlank(draft.fieldLabel) && draft.fieldType != ""
    ensures PassesImportCheck(NewField(draft, now))
  {
    assert draft.fieldLabel != "";
  }

  /** Appending a field that passes the import check to a list that does gives a list that does. */
  lemma AppendKeepsImportCheck(fields: seq<Field>, f: Field)
    ensures AllPassImportCheck(fields) && PassesImportCheck(f) ==> AllPassImportCheck(fields + [f])
  {
    if AllPassImportCheck(fields) && PassesImportCheck(f) {
      forall g | g in fields + [f]
        ensures PassesImportCheck(g)
      {
        if g != f {
          assert g in fields;
        }
      }
    }
  }

  /**
   * The value `JSON.parse` hands to the import: not JSON at all, JSON that
   * is not an array, or an array whose elements are field-shaped objects
   * (`Some`, with a missing key read as "") or something else (`None`:
   * `null` or a primitive, on which the key lookups fail).
   */
  datatype ImportedData = Unreadable | NotAnArray | Items(elements: seq<Option<Field>>)

  /** `elements.every(field => field.id && field.label && field.type)`, keeping the fields. */
  function CheckElements(elements: seq<Option<Field>>): (r: Option<seq<Field>>)
    ensures r.Some? <==> forall i | 0 <= i < |elements| :: elements[i].Some? && PassesImportCheck(elements[i].value)
    ensures r.Some? ==> |r.value| == |elements| && forall i | 0 <= i < |elements| :: r.value[i] == elements[i].value
  {
    if elements == [] then Some([])
    else match elements[0]
      case None => None
      case Some(f) =>
        if !PassesImportCheck(f) then None
        else match CheckElements(elements[1..])
          case None => None
          case Some(rest) => Some([f] + rest)
  }

  /**
   * All or nothing: the imported list is accepted only when it is an array
   * whose every element is a field with a non-empty id, label and type,
   * and it is then taken element for element.
   */
  function ValidateImport(data: ImportedData): (r: Option<seq<Field>>)
    ensures r.Some? <==> data.Items? && forall i | 0 <= i < |data.elements| :: data.elements[i].Some? && PassesImportCheck(data.elements[i].value)
    ensures r.Some? ==> |r.value| == |data.elements| && forall i | 0 <= i < |data.elements| :: r.value[i] == data.elements[i].value
    ensures r.Some? ==> AllPassImportCheck(r.value)
  {
    match data
    case Items(elements) => CheckElements(elements)
    case _ => None
  }

  /** The array a field list reads back as after `JSON.stringify` and `JSON.parse`. */
  function AsImported(fields: seq<Field>): seq<Option<Field>> {
    seq(|fields|, i requires 0 <= i < |fields| => Some(fields[i]))
  }

  /** Exporting a list whose fields pass the check and importing it again gives the same list. */
  lemma ExportImportRoundTrip(fields: seq<Field>)
    requires AllPassImportCheck(fields)
    ensures ValidateImport(Items(AsImported(fields))) == Some(fields)
  {
    var r := ValidateImport(Items(AsImported(fields)));
    assert r.Some?;
    assert r.value == fields;
  }

  /** A single element without a label rejects the whole import. */
  lemma ImportRejectsMissingLabel(elements: seq<Option<Field>>, k: nat)
    requires k < |elements| && elements[k].Some? && elements[k].value.fieldLabel == ""
    ensures ValidateImport(Items(elements)) == None
  {
  }
}
