/**
 * The CSV spreadsheet writer (csv/index.js): the same calls as the XML
 * writer, written as comma-separated text. Styles and columns are ignored;
 * each cell is written as `"…",`, each row ends with a line feed, and a
 * worksheet is announced by a row holding its title.
 */
module CsvWriter {
  import opened Wrappers
  import opened Types
  import opened CsvFormat


  const DefaultEncoding := "utf8"

  lemma DefaultSheetNamePlain()
    ensures PrepareString(DefaultSheetName) == DefaultSheetName
  {
    assert forall i | 0 <= i < |DefaultSheetName| :: DefaultSheetName[i] != '\n' && DefaultSheetName[i] != '\r' && DefaultSheetName[i] != '"';
    PrepareStringPlain(DefaultSheetName);
  }

  /** What ending the current row writes: a line end, if a row is open (lines 315-323). */
  function RowEnd(rowOpen: bool): seq<Item>
  {
    if rowOpen then [LineEnd] else []
  }

  /**
   * The row holding a worksheet's title: it first ends the row before it, if
   * one was open, and the title cell is ended at once (lines 178-183).
   */
  function TitleRow(name: string, afterRow: bool): seq<Item>
  {
    RowEnd(afterRow) + [Cell(PrepareString(name)), LineEnd]
  }

  /**
   * What `newWorksheet` writes: the end of the open row, then the title row
   * if there is a title; when a worksheet was already open the empty row
   * begun between the two sheets is ended before the title (lines 167-186).
   */
  function NewWorksheetItems(sheetOpen: bool, rowOpen: bool, name: Option<string>): seq<Item>
  {
    RowEnd(rowOpen) + (if name.Some? then TitleRow(name.value, sheetOpen) else [])
  }

  /** What `beginRow` writes when no worksheet is open: the title row of "New Sheet", and the end of the empty row begun after it. */
  const DefaultSheetRows := [Cell(DefaultSheetName), LineEnd, LineEnd]

  lemma DefaultSheetItems()
    ensures NewWorksheetItems(false, false, Some(DefaultSheetName)) == [Cell(DefaultSheetName), LineEnd]
  {
    DefaultSheetNamePlain();
    assert TitleRow(DefaultSheetName, false) == [Cell(DefaultSheetName), LineEnd];
  }

  lemma DefaultSheetText()
    ensures Render(DefaultSheetRows) == "\"New Sheet\",\n\n"
  {
    var ends := [LineEnd, LineEnd];
    assert ends[1..] == [LineEnd];
    assert [LineEnd][1..] == [];
    assert Render(ends) == "\n\n";
    assert DefaultSheetRows[1..] == ends;
    assert ItemText(Cell(DefaultSheetName)) == "\"New Sheet\",";
  }

  /**
   * Two named worksheets in a row: the first title row is ended, then the row
   * `beginRow` left open after it, then the empty row begun between the
   * sheets, so three line feeds (two blank lines) come before the second title.
   */
  lemma TwoNamedSheetsText(a: string, b: string)
    ensures Render(NewWorksheetItems(false, false, Some(a)) + NewWorksheetItems(true, true, Some(b)))
      == "\"" + PrepareString(a) + "\",\n\n\n\"" + PrepareString(b) + "\",\n"
  {
    var pa, pb := PrepareString(a), PrepareString(b);
    TwoNamedSheetsItems(a, b);
    RenderCons(LineEnd, []);
    RenderCons(Cell(pb), [LineEnd]);
    RenderCons(LineEnd, [Cell(pb), LineEnd]);
    RenderCons(LineEnd, [LineEnd, Cell(pb), LineEnd]);
    RenderCons(LineEnd, [LineEnd, LineEnd, Cell(pb), LineEnd]);
    RenderCons(Cell(pa), [LineEnd, LineEnd, LineEnd, Cell(pb), LineEnd]);
    TwoTitlesLayout(pa, pb);
  }

  lemma TwoNamedSheetsItems(a: string, b: string)
    ensures NewWorksheetItems(false, false, Some(a)) + NewWorksheetItems(true, true, Some(b))
      == [Cell(PrepareString(a))] + [LineEnd, LineEnd, LineEnd, Cell(PrepareString(b)), LineEnd]
  {
  }

  lemma TwoTitlesLayout(x: string, y: string)
    ensures "\"" + x + "\",\n\n\n\"" + y + "\",\n"
      == ("\"" + x + "\",") + ("\n" + ("\n" + ("\n" + (("\"" + y + "\",") + ("\n" + "")))))
  {
  }

  /** The same for the titles `A` and `B`. */
  lemma SheetsAThenBText()
    ensures Render(NewWorksheetItems(false, false, Some("A")) + NewWorksheetItems(true, true, Some("B")))
      == "\"A\",\n\n\n\"B\",\n"
  {
    PrepareStringPlain("A");
    PrepareStringPlain("B");
    TwoNamedSheetsText("A", "B");
  }

  class CsvSpreadsheetWriter {
    /** Everything written to the output stream, in order. */
    var out: string
    var encoding: string
    /** A worksheet is open. */
    var shouldEndWorksheet: bool
    /** A row is open. */
    var shouldEndRow: bool
    var endedFile: bool
    /** How many `finish` events have been scheduled. */
    var finishEvents: nat
    /** The HTML-to-text conversion rich-text cells go through. */
    const stripHtml: string -> string
    /** The cells and row ends written so far. */
    ghost var items: seq<Item>

    /**
     * A row is open only inside a worksheet; the output is the text of the
     * pieces written; `finish` is scheduled once the file has ended, and only once.
     */
    ghost predicate Valid()
      reads this`out, this`items, this`shouldEndWorksheet, this`shouldEndRow, this`endedFile, this`finishEvents
    {
      (shouldEndRow ==> shouldEndWorksheet) &&
      out == Render(items) &&
      finishEvents == (if endedFile then 1 else 0)
    }

    /** A new writer has written nothing and uses UTF-8 (lines 34-56). */
    constructor (stripHtml: string -> string)
      ensures Valid()
      ensures out == [] && items == [] && encoding == DefaultEncoding
      ensures !shouldEndWorksheet && !shouldEndRow && !endedFile && finishEvents == 0
      ensures this.stripHtml == stripHtml
    {
      out := [];
      encoding := DefaultEncoding;
      shouldEndWorksheet := false;
      shouldEndRow := false;
      endedFile := false;
      finishEvents := 0;
      this.stripHtml := stripHtml;
      items := [];
    }

    /** Whatever was written, a reader gets back its cells and row ends, as long as every cell's text is well quoted. */
    lemma OutputReadsBack()
      requires Valid() && AllWellQuoted(items)
      ensures ReadItems(out) == Some(Readings(items))
    {
      ReadBack(items);
    }

    method SetEncoding(encoding: string)
      modifies this`encoding
      ensures this.encoding == encoding
    {
      this.encoding := encoding;
    }

    method GetEncoding() returns (e: string)
      ensures e == encoding
    {
      e := encoding;
    }

    /** CSV has no styles: every style is refused with index -1 (lines 105-107). */
    method AddStyle(style: Style) returns (index: int)
      ensures index == -1
    {
      index := -1;
    }

    /** CSV has no column definitions: nothing changes (lines 119-121). */
    method AddColumn(width: Option<int>, autoFitWidth: Option<bool>)
      ensures unchanged(this)
    {
    }

    /** CSV has no header: nothing is written (lines 129-131). */
    method BeginFile()
      ensures unchanged(this)
    {
    }

    /** Writes one cell whose text between the quotes is `f`. */
    method EmitCell(f: string)
      requires Valid()
      modifies this`out, this`items
      ensures Valid()
      ensures items == old(items) + [Cell(f)]
      ensures out == old(out) + "\"" + f + "\","
      ensures AllWellQuoted(items) <==> AllWellQuoted(old(items)) && WellQuoted(f)
    {
      RenderSnoc(items, Cell(f));
      WellQuotedSnoc(items, Cell(f));
      out := out + ItemText(Cell(f));
      items := items + [Cell(f)];
    }

    /** Writes the line feed that ends a row. */
    method EmitLineEnd()
      requires Valid()
      modifies this`out, this`items
      ensures Valid()
      ensures items == old(items) + [LineEnd]
      ensures out == old(out) + "\n"
      ensures AllWellQuoted(items) <==> AllWellQuoted(old(items))
    {
      RenderSnoc(items, LineEnd);
      WellQuotedSnoc(items, LineEnd);
      out := out + "\n";
      items := items + [LineEnd];
    }

    /**
     * Ends the file: ends the open worksheet and schedules `finish`; a
     * second call does nothing (lines 139-158).
     */
    method EndFile()
      requires Valid()
      modifies this`out, this`items, this`shouldEndRow, this`shouldEndWorksheet, this`endedFile, this`finishEvents
      ensures Valid()
      ensures old(endedFile) ==> unchanged(this)
      ensures !old(endedFile) ==> items == old(items) + RowEnd(old(shouldEndRow))
      ensures !old(endedFile) ==> out == old(out) + Render(RowEnd(old(shouldEndRow)))
      ensures !old(endedFile) ==> !shouldEndWorksheet && !shouldEndRow
      ensures endedFile && finishEvents == 1
      ensures AllWellQuoted(items) <==> AllWellQuoted(old(items))
    {
      if endedFile {
        return;
      }
      EndWorksheet();
      endedFile := true;
      finishEvents := finishEvents + 1;
    }

    /**
     * Starts a new worksheet: ends the open one, leaves an empty row between
     * the two, and writes the title in a row of its own when there is one
     * (lines 167-186).
     */
    method NewWorksheet(name: Option<string>)
      requires Valid()
      modifies this`out, this`items, this`shouldEndRow, this`shouldEndWorksheet
      ensures Valid()
      ensures items == old(items) + NewWorksheetItems(old(shouldEndWorksheet), old(shouldEndRow), name)
      ensures out == old(out) + Render(NewWorksheetItems(old(shouldEndWorksheet), old(shouldEndRow), name))
      ensures shouldEndWorksheet
      ensures shouldEndRow <==> old(shouldEndWorksheet) || name.Some?
      ensures AllWellQuoted(items) <==> AllWellQuoted(old(items))
    {
      ghost var start := items;
      ghost var added := NewWorksheetItems(old(shouldEndWorksheet), old(shouldEndRow), name);
      var wasOpen := shouldEndWorksheet;
      EndWorksheet();
      shouldEndWorksheet := true;
      if wasOpen {
        StartRow();
      }
      ghost var ended := items;
      ghost var closing := RowEnd(old(shouldEndRow));
      assert ended == start + closing;
      if name.Some? {
        WriteTitle(name.value, wasOpen);
        ghost var title := TitleRow(name.value, wasOpen);
        assert items == ended + title;
        assert added == closing + title;
        AppendAssoc(start, closing, title);
      } else {
        assert added == closing;
      }
      RenderAppend(start, added);
    }

    /** Begins a row, adds the title as a string cell, and begins another row (lines 179-182). */
    method WriteTitle(name: string, ghost afterRow: bool)
      requires Valid() && shouldEndWorksheet && shouldEndRow == afterRow
      modifies this`out, this`items, this`shouldEndRow
      ensures Valid() && shouldEndRow
      ensures items == old(items) + TitleRow(name, afterRow)
      ensures AllWellQuoted(items) <==> AllWellQuoted(old(items))
    {
      StartRow();
      ghost var begun := items;
      AddCell(Str(name), Some(CellType.String), Option.None, 0, 0);
      StartRow();
      assert items == begun + [Cell(PrepareString(name)), LineEnd];
    }

    /** Ends the open worksheet by ending its open row (lines 194-202). */
    method EndWorksheet()
      requires Valid()
      modifies this`out, this`items, this`shouldEndRow, this`shouldEndWorksheet
      ensures Valid()
      ensures items == old(items) + RowEnd(old(shouldEndRow))
      ensures out == old(out) + Render(RowEnd(old(shouldEndRow)))
      ensures !shouldEndWorksheet && !shouldEndRow
      ensures AllWellQuoted(items) <==> AllWellQuoted(old(items))
    {
      if shouldEndWorksheet {
        EndRow();
        shouldEndWorksheet := false;
      }
    }

    /**
     * Begins a row, first opening a worksheet titled "New Sheet" when none is
     * open; styles, heights and auto-fit flags are ignored (lines 213-224).
     */
    method BeginRow(styleIndex: Option<int>, height: Option<int>, autoFitHeight: Option<bool>)
      requires Valid()
      modifies this`out, this`items, this`shouldEndRow, this`shouldEndWorksheet
      ensures Valid()
      ensures old(shouldEndWorksheet) ==> items == old(items) + RowEnd(old(shouldEndRow))
      ensures old(shouldEndWorksheet) ==> out == old(out) + Render(RowEnd(old(shouldEndRow)))
      ensures !old(shouldEndWorksheet) ==> items == old(items) + DefaultSheetRows
      ensures !old(shouldEndWorksheet) ==> out == old(out) + "\"New Sheet\",\n\n"
      ensures shouldEndWorksheet && shouldEndRow
      ensures AllWellQuoted(items) <==> AllWellQuoted(old(items))
    {
      if !shouldEndWorksheet {
        ghost var start := items;
        OpenDefaultSheet();
        StartRow();
        assert items == start + DefaultSheetRows;
        RenderAppend(start, DefaultSheetRows);
        DefaultSheetText();
      } else {
        StartRow();
      }
    }

    /** Opens the worksheet `beginRow` opens when none is open: its title row, and the row it leaves open. */
    method OpenDefaultSheet()
      requires Valid() && !shouldEndWorksheet
      modifies this`out, this`items, this`shouldEndRow, this`shouldEndWorksheet
      ensures Valid() && shouldEndWorksheet && shouldEndRow
      ensures items == old(items) + [Cell(DefaultSheetName), LineEnd]
      ensures AllWellQuoted(items) <==> AllWellQuoted(old(items))
    {
      NewWorksheet(Some(DefaultSheetName));
      DefaultSheetItems();
    }

    /** Ends the open row, if any, and opens a new one inside the open worksheet (lines 219-221). */
    method StartRow()
      requires Valid() && shouldEndWorksheet
      modifies this`out, this`items, this`shouldEndRow
      ensures Valid() && shouldEndRow
      ensures items == old(items) + RowEnd(old(shouldEndRow))
      ensures out == old(out) + Render(RowEnd(old(shouldEndRow)))
      ensures AllWellQuoted(items) <==> AllWellQuoted(old(items))
    {
      EndRow();
      shouldEndRow := true;
    }

    /**
     * Writes a cell: a date in the XML date-time layout, a boolean as `1` or
     * `0`, anything else escaped; the type, style and spans are ignored
     * (lines 237-255). A cell keeps the output readable.
     */
    method AddCell(data: CellValue, cellType: Option<CellType>, styleIndex: Option<int>,
                   mergeAcross: int, mergeDown: int)
      requires Valid()
      modifies this`out, this`items
      ensures Valid()
      ensures items == old(items) + [Cell(CellField(data))]
      ensures out == old(out) + "\"" + CellField(data) + "\","
      ensures AllWellQuoted(items) <==> AllWellQuoted(old(items))
    {
      CellFieldWellQuoted(data);
      EmitCell(CellField(data));
    }

    /** Writes the placeholder value as a plain cell; the formula itself is dropped (lines 269-287). */
    method AddFormulaCell(formula: string, placeholder: CellValue, cellType: Option<CellType>, styleIndex: Option<int>,
                          mergeAcross: int, mergeDown: int)
      requires Valid()
      modifies this`out, this`items
      ensures Valid()
      ensures items == old(items) + [Cell(CellField(placeholder))]
      ensures out == old(out) + "\"" + CellField(placeholder) + "\","
      ensures AllWellQuoted(items) <==> AllWellQuoted(old(items))
    {
      CellFieldWellQuoted(placeholder);
      EmitCell(CellField(placeholder));
    }

    /**
     * Writes the text of the markup, as `stripHtml` gives it, between quotes;
     * that text is not escaped, so every cell stays well quoted exactly when
     * the cells before were and that text is (lines 299-307).
     */
    method AddRichTextCell(xml: string, styleIndex: Option<int>, mergeAcross: int, mergeDown: int)
      requires Valid()
      modifies this`out, this`items
      ensures Valid()
      ensures items == old(items) + [Cell(stripHtml(xml))]
      ensures out == old(out) + "\"" + stripHtml(xml) + "\","
      ensures AllWellQuoted(items) <==> AllWellQuoted(old(items)) && WellQuoted(stripHtml(xml))
    {
      EmitCell(stripHtml(xml));
    }

    /** Ends the open row with a line feed (lines 315-323). */
    method EndRow()
      requires Valid()
      modifies this`out, this`items, this`shouldEndRow
      ensures Valid() && !shouldEndRow
      ensures items == old(items) + RowEnd(old(shouldEndRow))
      ensures out == old(out) + Render(RowEnd(old(shouldEndRow)))
      ensures AllWellQuoted(items) <==> AllWellQuoted(old(items))
    {
      if shouldEndRow {
        EmitLineEnd();
        shouldEndRow := false;
        assert [LineEnd][1..] == [];
      } else {
        assert items == items + [];
      }
    }
  }
}
