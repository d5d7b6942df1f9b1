/**
 * The XML spreadsheet writer (xml/writer.js): an object that takes styles,
 * worksheets, columns, rows and cells in the order a caller gives them and
 * writes Excel's XML spreadsheet markup to its output as it goes.
 */
module XmlWriter {
  import opened Wrappers
  import opened Text
  import opened Types
  import opened XmlAttributes
  import opened XmlMarkup
  import opened XmlStyle
  import opened XmlElements
  import opened XmlStructure

  const StyleTooLate := "Cannot add style at this phase. addStyle() must be called before writing data to the sheet"
  const ColumnOutOfPlace := "Cannot add a column at this phase. Columns must be added after a call to newWorksheet(), and before adding any rows."

  /** The definitions of `styles`, numbered from 0 in order. */
  function StyleList(styles: seq<Style>): string
  {
    if styles == [] then "" else StyleList(styles[..|styles| - 1]) + StyleMarkup(|styles| - 1, styles[|styles| - 1])
  }

  lemma StyleListSnoc(styles: seq<Style>, i: nat)
    requires i < |styles|
    ensures StyleList(styles[..i + 1]) == StyleList(styles[..i]) + StyleMarkup(i, styles[i])
  {
    assert styles[..i + 1][..i] == styles[..i];
  }

  /** The whole `<Styles>` table (lines 212-232). */
  function StylesText(styles: seq<Style>): string
  {
    StylesHeader + StyleList(styles) + StylesFooter
  }

  /** What closing the current row writes (lines 495-503). */
  function EndRowText(rowOpen: bool): string
  {
    if rowOpen then RowClose else ""
  }

  /** The table is closed only if it was begun (line 298). */
  function TableCloseText(tablePending: bool): string
  {
    if tablePending then "" else TableClose
  }

  /** What closing an open worksheet writes: its row if open, its table if begun, and the worksheet (lines 294-309). */
  function WorksheetEnd(tablePending: bool, rowOpen: bool): string
  {
    EndRowText(rowOpen) + TableCloseText(tablePending) + WorksheetClose
  }

  // ---------------------------------------------------------------------------
  // Regrouping text written piece by piece

  /** Regroups a concatenation; naming the step keeps the solver from searching for it in long chains of writes. */
  lemma Assoc(a: string, b: string, c: string)
    ensures a + b + c == a + (b + c)
  {
  }

  lemma AppendNothing(a: string)
    ensures a + "" == a
  {
  }

  /** Seven pieces written one after another make up a style's markup. */
  lemma StylePieces(start: string, open: string, p1: string, p2: string, p3: string, p4: string, p5: string, close: string)
    ensures start + open + p1 + p2 + p3 + p4 + p5 + close == start + (open + (p1 + p2 + p3 + p4 + p5) + close)
  {
    Assoc(start, open, p1);
    Assoc(open, p1, p2);
    Assoc(open, p1 + p2, p3);
    Assoc(open, p1 + p2 + p3, p4);
    Assoc(open, p1 + p2 + p3 + p4, p5);
    Assoc(start, open + p1, p2);
    Assoc(start, open + p1 + p2, p3);
    Assoc(start, open + p1 + p2 + p3, p4);
    Assoc(start, open + p1 + p2 + p3 + p4, p5);
    Assoc(start, open + (p1 + p2 + p3 + p4 + p5), close);
  }

  // ---------------------------------------------------------------------------
  // The pieces written

  /** The pieces written so far, the last one outermost. */
  datatype Log = Empty | Written(before: Log, text: string)

  /** The text written, in order. */
  function LogText(log: Log): string
  {
    match log
    case Empty => ""
    case Written(before, text) => LogText(before) + text
  }

  /** The kinds of the pieces written, each read off its leading tag. */
  function Shape(log: Log): Trace
  {
    match log
    case Empty => Start
    case Written(before, text) => Piece(Shape(before), TagKind(text))
  }

  // Each piece the writer emits begins with the tag of the element it opens or closes.

  lemma PrologueTag()
    ensures TagKind(Prologue) == FileStart
  {
    assert Prologue[0] == '<' && Prologue[1] == '?' && Prologue[2] == 'x' && Prologue[3] == 'm' && Prologue[4] == 'l';
    assert Prologue[..5] == "<?xml";
    FileStartLead(Prologue);
  }

  lemma WorkbookCloseTag()
    ensures TagKind(WorkbookClose) == FileEnd
  {
    var rest := "\n";
    assert WorkbookClose == "</Workbook>" + rest;
    PrefixRest("</Workbook>", rest);
    FileEndLead("</Workbook>" + rest);
  }

  lemma StylesHeaderTag()
    ensures TagKind(StylesHeader) == OpenStyles
  {
    assert StylesHeader[..9] == " <Styles>";
    OpenStylesLead(StylesHeader);
  }

  lemma StylesFooterTag()
    ensures TagKind(StylesFooter) == CloseStyles
  {
    var rest := "\n";
    assert StylesFooter == " </Styles>" + rest;
    PrefixRest(" </Styles>", rest);
    CloseStylesLead(" </Styles>" + rest);
  }

  lemma WorksheetCloseTag()
    ensures TagKind(WorksheetClose) == CloseSheet
  {
    var rest := "\n";
    assert WorksheetClose == " </Worksheet>" + rest;
    PrefixRest(" </Worksheet>", rest);
    CloseSheetLead(" </Worksheet>" + rest);
  }

  lemma TableCloseTag()
    ensures TagKind(TableClose) == CloseTable
  {
    var rest := "\n";
    assert TableClose == "  </Table>" + rest;
    PrefixRest("  </Table>", rest);
    CloseTableLead("  </Table>" + rest);
  }

  lemma RowCloseTag()
    ensures TagKind(RowClose) == CloseRow
  {
    var rest := "\n";
    assert RowClose == "   </Row>" + rest;
    PrefixRest("   </Row>", rest);
    CloseRowLead("   </Row>" + rest);
  }

  lemma StyleTag(index: int, style: Style)
    ensures TagKind(StyleMarkup(index, style)) == StyleEntry
  {
    var open := StyleOpen(index, style.parentStyleIndex);
    var rest := RenderSlots(StyleHeadSlots(index, style.parentStyleIndex)) + ">\n";
    assert open == "  <Style" + rest;
    PrefixRest("  <Style", rest);
    StartsWithAppend(open, "  <Style", StyleBody(style));
    StartsWithAppend(open + StyleBody(style), "  <Style", StyleClose);
    StyleEntryLead(StyleMarkup(index, style));
  }

  lemma WorksheetOpenTag(name: Option<string>)
    ensures TagKind(WorksheetOpen(name)) == OpenSheet
  {
    var rest := AttrText(Attr(Name, if name.Some? then PrepareString(name.value) else "")) + ">\n";
    assert WorksheetOpen(name) == " <Worksheet" + rest;
    PrefixRest(" <Worksheet", rest);
    OpenSheetLead(" <Worksheet" + rest);
  }

  lemma TableHeadTag(columns: seq<Column>)
    ensures TagKind(TableHead(columns)) == OpenTable
  {
    var open := TableOpen(|columns|);
    var rest := AttrText(Attr(ExpandedColumnCount, IntToString(|columns|))) + ">\n";
    assert open == "  <Table" + rest;
    PrefixRest("  <Table", rest);
    StartsWithAppend(open, "  <Table", ColumnList(columns));
    OpenTableLead(TableHead(columns));
  }

  lemma RowOpenTag(styleIndex: Option<int>, height: Option<int>, autoFitHeight: Option<bool>)
    ensures TagKind(RowOpen(styleIndex, height, autoFitHeight)) == OpenRow
  {
    var rest := RenderSlots(RowSlots(styleIndex, height, autoFitHeight)) + ">\n";
    assert RowOpen(styleIndex, height, autoFitHeight) == "   <Row" + rest;
    PrefixRest("   <Row", rest);
    OpenRowLead("   <Row" + rest);
  }

  lemma CellTag(cellDef: string)
    requires StartsWith(cellDef, CellLead)
    ensures TagKind(cellDef) == CellEntry
  {
    CellEntryLead(cellDef);
  }

  class XmlSpreadsheetWriter {
    /** Everything written to the output stream, in order. */
    var out: string
    var styles: seq<Style>
    var columns: seq<Column>
    /** A worksheet was begun and its table and columns are still to be written. */
    var shouldBeginWorksheet: bool
    /** A worksheet is open. */
    var shouldEndWorksheet: bool
    /** A row is open. */
    var shouldEndRow: bool
    var hasWrittenStyles: bool
    var endedFile: bool
    /** How many `finish` events have been scheduled. */
    var finishEvents: nat
    /** The pieces written so far: `out` is their text. */
    ghost var log: Log

    /**
     * The flags say which elements are open; the output is the markup of the
     * pieces written, which follow the grammar and leave exactly those
     * elements open; `finish` is scheduled once the file has ended, and only
     * once.
     */
    ghost predicate Valid()
      reads this`shouldBeginWorksheet, this`shouldEndWorksheet, this`shouldEndRow, this`hasWrittenStyles,
        this`columns, this`out, this`log, this`endedFile, this`finishEvents
    {
      (shouldBeginWorksheet ==> shouldEndWorksheet) &&
      (shouldEndRow ==> shouldEndWorksheet && !shouldBeginWorksheet) &&
      (shouldEndWorksheet ==> hasWrittenStyles) &&
      (!shouldEndWorksheet ==> columns == []) &&
      out == LogText(log) &&
      Replay(Shape(log)) == Some(Doc(WriterLevel(shouldEndWorksheet, shouldBeginWorksheet, shouldEndRow), hasWrittenStyles)) &&
      finishEvents == (if endedFile then 1 else 0)
    }

    /** A new writer has written nothing and holds no styles or columns (lines 57-99). */
    constructor ()
      ensures Valid()
      ensures out == [] && log == Empty && styles == [] && columns == []
      ensures !shouldBeginWorksheet && !shouldEndWorksheet && !shouldEndRow
      ensures !hasWrittenStyles && !endedFile && finishEvents == 0
    {
      out := [];
      styles := [];
      columns := [];
      shouldBeginWorksheet := false;
      shouldEndWorksheet := false;
      shouldEndRow := false;
      hasWrittenStyles := false;
      endedFile := false;
      finishEvents := 0;
      log := Empty;
    }

    /** Writes `text`, a piece of kind `kind`. */
    method Emit(text: string, ghost kind: Kind)
      requires out == LogText(log) && TagKind(text) == kind
      modifies this`out, this`log
      ensures out == old(out) + text
      ensures log == Written(old(log), text)
      ensures out == LogText(log) && Shape(log) == Piece(Shape(old(log)), kind)
    {
      out := out + text;
      log := Written(log, text);
    }

    /** Notes the piece `text` of kind `kind`, just written by smaller writes. */
    ghost method Record(text: string, kind: Kind)
      requires out == LogText(log) + text && TagKind(text) == kind
      modifies this`log
      ensures log == Written(old(log), text)
      ensures out == LogText(log) && Shape(log) == Piece(Shape(old(log)), kind)
    {
      log := Written(log, text);
    }

    /** Styles can be added until the `<Styles>` table is written; the result is the new style's index (lines 128-134). */
    method AddStyle(style: Style) returns (r: Result<int>)
      requires Valid()
      modifies this`styles
      ensures Valid()
      ensures old(hasWrittenStyles) ==> r == Failure(StyleTooLate) && styles == old(styles)
      ensures !old(hasWrittenStyles) ==> r == Success(|old(styles)|) && styles == old(styles) + [style]
    {
      if hasWrittenStyles {
        return Failure(StyleTooLate);
      }
      styles := styles + [style];
      r := Success(|styles| - 1);
    }

    /**
     * Columns can be added between beginning a worksheet and its first row;
     * a boolean width is taken as the auto-fit flag (lines 146-156).
     */
    method AddColumn(width: WidthArg, autoFitWidth: Option<bool>) returns (r: Outcome)
      requires Valid()
      modifies this`columns
      ensures Valid()
      ensures !shouldBeginWorksheet ==> r == Fail(ColumnOutOfPlace) && columns == old(columns)
      ensures shouldBeginWorksheet ==> r == Pass && columns == old(columns) + [NewColumn(width, autoFitWidth)]
    {
      if !shouldBeginWorksheet {
        return Fail(ColumnOutOfPlace);
      }
      columns := columns + [NewColumn(width, autoFitWidth)];
      r := Pass;
    }

    /** Writes the XML declaration and opens the workbook (lines 164-176). */
    method BeginFile()
      requires Valid()
      modifies this`out, this`log
      ensures Valid()
      ensures out == old(out) + Prologue
    {
      PrologueTag();
      Emit(Prologue, FileStart);
    }

    /**
     * Closes the open worksheet and the workbook and schedules `finish`; a
     * second call does nothing (lines 184-204). Afterwards every element
     * the writer opened has been closed.
     */
    method EndFile()
      requires Valid()
      modifies this`out, this`log, this`shouldEndRow, this`shouldBeginWorksheet, this`shouldEndWorksheet,
        this`columns, this`endedFile, this`finishEvents
      ensures Valid()
      ensures old(endedFile) ==> unchanged(this)
      ensures !old(endedFile) && old(shouldEndWorksheet) ==>
        out == old(out) + WorksheetEnd(old(shouldBeginWorksheet), old(shouldEndRow)) + WorkbookClose
      ensures !old(endedFile) && !old(shouldEndWorksheet) ==> out == old(out) + WorkbookClose
      ensures !old(endedFile) ==> !shouldEndWorksheet && !shouldBeginWorksheet && !shouldEndRow && columns == []
      ensures endedFile && finishEvents == 1
      ensures !old(endedFile) ==> Opens(Shape(log)) == Closes(Shape(log))
    {
      if endedFile {
        return;
      }
      EndWorksheet();
      WorkbookCloseTag();
      Emit(WorkbookClose, FileEnd);
      endedFile := true;
      finishEvents := finishEvents + 1;
      ReplayBalance(Shape(log));
    }

    /** Writes the `<Styles>` table with every style added, once (lines 212-232). */
    method WriteStyles()
      requires Valid()
      modifies this`out, this`log, this`hasWrittenStyles
      ensures Valid()
      ensures !old(hasWrittenStyles) ==> out == old(out) + StylesText(styles)
      ensures old(hasWrittenStyles) ==> out == old(out)
      ensures hasWrittenStyles
      ensures StylesOpened(Shape(log)) == 1
    {
      if !hasWrittenStyles {
        WriteStyleTable();
        hasWrittenStyles := true;
      }
      StylesAtMostOnce(Shape(log));
    }

    /** The body of `_writeStyles`: the table's header, every style, and its footer (lines 216-226). */
    method WriteStyleTable()
      requires out == LogText(log) && Replay(Shape(log)) == Some(Doc(Outside, false))
      modifies this`out, this`log
      ensures out == old(out) + StylesText(styles)
      ensures out == LogText(log) && Replay(Shape(log)) == Some(Doc(Outside, true))
    {
      ghost var start := out;
      StylesHeaderTag();
      Emit(StylesHeader, OpenStyles);
      WriteStyleList();
      StylesFooterTag();
      Emit(StylesFooter, CloseStyles);
      Assoc(start, StylesHeader, StyleList(styles));
      Assoc(start, StylesHeader + StyleList(styles), StylesFooter);
    }

    /** The loop of `_writeStyles`: every style, in order (lines 222-224). */
    method WriteStyleList()
      requires out == LogText(log) && Replay(Shape(log)) == Some(Doc(InStyles, false))
      modifies this`out, this`log
      ensures out == old(out) + StyleList(styles)
      ensures out == LogText(log) && Replay(Shape(log)) == Some(Doc(InStyles, false))
    {
      ghost var start := out;
      var i := 0;
      AppendNothing(out);
      while i < |styles|
        invariant 0 <= i <= |styles|
        invariant out == start + StyleList(styles[..i])
        invariant out == LogText(log) && Replay(Shape(log)) == Some(Doc(InStyles, false))
      {
        StyleListSnoc(styles, i);
        Assoc(start, StyleList(styles[..i]), StyleMarkup(i, styles[i]));
        WriteStyle(i);
        i := i + 1;
      }
      assert styles[..i] == styles;
    }

    /** Writes the definition of style `index`, inside the `<Styles>` table (lines 512-907). */
    method WriteStyle(index: int)
      requires 0 <= index < |styles|
      requires out == LogText(log) && Replay(Shape(log)) == Some(Doc(InStyles, false))
      modifies this`out, this`log
      ensures out == old(out) + StyleMarkup(index, styles[index])
      ensures log == Written(old(log), StyleMarkup(index, styles[index]))
      ensures out == LogText(log) && Replay(Shape(log)) == old(Replay(Shape(log)))
    {
      WriteStyleText(index, styles[index]);
      StyleTag(index, styles[index]);
      Record(StyleMarkup(index, styles[index]), StyleEntry);
    }

    /** The text of `writeStyle`: the style tag, each element the style has, and the closing tag. */
    method WriteStyleText(index: int, style: Style)
      modifies this`out
      ensures out == old(out) + StyleMarkup(index, style)
    {
      ghost var start := out;
      out := out + StyleOpen(index, style.parentStyleIndex);
      WriteAlignment(style.alignment);
      out := out + NumberFormatMarkup(style.numberFormat);
      WriteBorders(style.borders);
      WriteInterior(style.interior);
      WriteFont(style.font);
      out := out + StyleClose;
      StylePieces(start, StyleOpen(index, style.parentStyleIndex),
        if style.alignment.Some? then AlignmentMarkup(style.alignment.value) else "",
        NumberFormatMarkup(style.numberFormat), BordersMarkup(style.borders),
        if style.interior.Some? then InteriorMarkup(style.interior.value) else "",
        if style.font.Some? then FontMarkup(style.font.value) else "", StyleClose);
    }

    /** The `<ss:Alignment>` element, when the style has one (lines 521-626). */
    method WriteAlignment(a: Option<Alignment>)
      modifies this`out
      ensures out == old(out) + (if a.Some? then AlignmentMarkup(a.value) else "")
    {
      if a.Some? {
        out := out + AlignmentMarkup(a.value);
      } else {
        AppendNothing(out);
      }
    }

    /** The `<ss:Borders>` element and one `<ss:Border>` per border, when there are any (lines 637-715). */
    method WriteBorders(bs: seq<Border>)
      modifies this`out
      ensures out == old(out) + BordersMarkup(bs)
    {
      if |bs| > 0 {
        ghost var start := out;
        out := out + "    <ss:Borders>";
        ghost var head := out;
        var i := 0;
        while i < |bs|
          invariant 0 <= i <= |bs|
          invariant out == head + BorderList(bs[..i])
        {
          BorderListStep(bs, i);
          Assoc(head, BorderList(bs[..i]), BorderMarkup(bs[i]));
          out := out + BorderMarkup(bs[i]);
          i := i + 1;
        }
        assert bs[..i] == bs;
        out := out + "</ss:Borders>\n";
        Assoc(start, "    <ss:Borders>", BorderList(bs));
        Assoc(start, "    <ss:Borders>" + BorderList(bs), "</ss:Borders>\n");
      } else {
        AppendNothing(out);
      }
    }

    /** The `<ss:Interior>` element, when the style has one (lines 717-793). */
    method WriteInterior(i: Option<Interior>)
      modifies this`out
      ensures out == old(out) + (if i.Some? then InteriorMarkup(i.value) else "")
    {
      if i.Some? {
        out := out + InteriorMarkup(i.value);
      } else {
        AppendNothing(out);
      }
    }

    /** The `<ss:Font>` element, when the style has one (lines 795-903). */
    method WriteFont(f: Option<Font>)
      modifies this`out
      ensures out == old(out) + (if f.Some? then FontMarkup(f.value) else "")
    {
      if f.Some? {
        out := out + FontMarkup(f.value);
      } else {
        AppendNothing(out);
      }
    }

    /** Writes the table tag and the columns of a worksheet that has not had them yet (lines 240-263). */
    method BeginWorksheet()
      requires Valid()
      modifies this`out, this`log, this`shouldBeginWorksheet
      ensures Valid()
      ensures old(shouldBeginWorksheet) ==> out == old(out) + TableHead(columns)
      ensures !old(shouldBeginWorksheet) ==> out == old(out)
      ensures !shouldBeginWorksheet
    {
      if shouldBeginWorksheet {
        WriteTableHead();
        shouldBeginWorksheet := false;
      }
    }

    /** The body of `_beginWorksheet`: the table tag and the columns (lines 243-258). */
    method WriteTableHead()
      requires out == LogText(log) && Replay(Shape(log)) == Some(Doc(InSheet, hasWrittenStyles))
      modifies this`out, this`log
      ensures out == old(out) + TableHead(columns)
      ensures out == LogText(log) && Replay(Shape(log)) == Some(Doc(InTable, hasWrittenStyles))
    {
      WriteTableHeadText();
      TableHeadTag(columns);
      Record(TableHead(columns), OpenTable);
    }

    /** The text of `_beginWorksheet`: the table tag, then the columns. */
    method WriteTableHeadText()
      modifies this`out
      ensures out == old(out) + TableHead(columns)
    {
      ghost var start := out;
      out := out + TableOpen(|columns|);
      WriteColumns();
      Assoc(start, TableOpen(|columns|), ColumnList(columns));
    }

    /** The loop of `_beginWorksheet`: one `<Column>` per column added (lines 244-258). */
    method WriteColumns()
      modifies this`out
      ensures out == old(out) + ColumnList(columns)
    {
      ghost var start := out;
      var i := 0;
      AppendNothing(out);
      while i < |columns|
        invariant 0 <= i <= |columns|
        invariant out == start + ColumnList(columns[..i])
      {
        assert columns[..i + 1][..i] == columns[..i];
        Assoc(start, ColumnList(columns[..i]), ColumnMarkup(columns[i]));
        out := out + ColumnMarkup(columns[i]);
        i := i + 1;
      }
      assert columns[..i] == columns;
    }

    /**
     * Closes the worksheet in progress: the open row, the table if it was
     * begun, then the worksheet. The columns are always cleared (lines 294-309).
     */
    method EndWorksheet()
      requires Valid()
      modifies this`out, this`log, this`shouldEndRow, this`shouldBeginWorksheet, this`shouldEndWorksheet, this`columns
      ensures Valid()
      ensures old(shouldEndWorksheet) ==> out == old(out) + WorksheetEnd(old(shouldBeginWorksheet), old(shouldEndRow))
      ensures !old(shouldEndWorksheet) ==> out == old(out)
      ensures !shouldEndWorksheet && !shouldBeginWorksheet && !shouldEndRow && columns == []
    {
      if shouldEndWorksheet {
        ghost var start, rowOpen := out, shouldEndRow;
        EndRow();
        assert out == start + EndRowText(rowOpen) by { AppendNothing(start); }
        CloseTableAndSheet();
        Assoc(start, EndRowText(rowOpen), TableCloseText(old(shouldBeginWorksheet)));
        Assoc(start, EndRowText(rowOpen) + TableCloseText(old(shouldBeginWorksheet)), WorksheetClose);
      }
      columns := [];
    }

    /** The rest of `_endWorksheet`, with no row open: the table if it was begun, then the worksheet (lines 298-305). */
    method CloseTableAndSheet()
      requires Valid() && shouldEndWorksheet && !shouldEndRow
      modifies this`out, this`log, this`shouldBeginWorksheet, this`shouldEndWorksheet
      ensures out == old(out) + TableCloseText(old(shouldBeginWorksheet)) + WorksheetClose
      ensures !shouldEndWorksheet && !shouldBeginWorksheet
      ensures out == LogText(log) && Replay(Shape(log)) == Some(Doc(Outside, hasWrittenStyles))
      ensures finishEvents == (if endedFile then 1 else 0)
    {
      EndTable();
      WorksheetCloseTag();
      Emit(WorksheetClose, CloseSheet);
      shouldBeginWorksheet := false;
      shouldEndWorksheet := false;
    }

    /** Closes the table, unless it is still to begin (line 298). */
    method EndTable()
      requires out == LogText(log)
      requires Replay(Shape(log)) == Some(Doc(if shouldBeginWorksheet then InSheet else InTable, hasWrittenStyles))
      modifies this`out, this`log
      ensures out == old(out) + TableCloseText(shouldBeginWorksheet)
      ensures out == LogText(log) && Replay(Shape(log)) == Some(Doc(InSheet, hasWrittenStyles))
    {
      if !shouldBeginWorksheet {
        TableCloseTag();
        Emit(TableClose, CloseTable);
      } else {
        AppendNothing(out);
      }
    }

    /**
     * Begins a worksheet titled `name`: closes the one in progress or, before
     * the first one, writes the `<Styles>` table (lines 272-286).
     */
    method NewWorksheet(name: Option<string>)
      requires Valid()
      modifies this`out, this`log, this`shouldEndRow, this`shouldBeginWorksheet, this`shouldEndWorksheet,
        this`columns, this`hasWrittenStyles
      ensures Valid()
      ensures old(shouldEndWorksheet) ==>
        out == old(out) + WorksheetEnd(old(shouldBeginWorksheet), old(shouldEndRow)) + WorksheetOpen(name)
      ensures !old(shouldEndWorksheet) && !old(hasWrittenStyles) ==> out == old(out) + StylesText(styles) + WorksheetOpen(name)
      ensures !old(shouldEndWorksheet) && old(hasWrittenStyles) ==> out == old(out) + WorksheetOpen(name)
      ensures shouldEndWorksheet && shouldBeginWorksheet && !shouldEndRow && hasWrittenStyles && columns == []
      ensures StylesOpened(Shape(log)) == 1
    {
      if shouldEndWorksheet {
        EndWorksheet();
      } else if !hasWrittenStyles {
        WriteStyles();
      }
      OpenWorksheet(name);
      StylesAtMostOnce(Shape(log));
    }

    /** The end of `newWorksheet`: the worksheet tag, with the table still to begin (lines 281-283). */
    method OpenWorksheet(name: Option<string>)
      requires Valid() && !shouldEndWorksheet && hasWrittenStyles
      modifies this`out, this`log, this`shouldBeginWorksheet, this`shouldEndWorksheet
      ensures Valid()
      ensures out == old(out) + WorksheetOpen(name)
      ensures shouldEndWorksheet && shouldBeginWorksheet
    {
      shouldEndWorksheet := true;
      WorksheetOpenTag(name);
      Emit(WorksheetOpen(name), OpenSheet);
      shouldBeginWorksheet := true;
    }

    /**
     * Begins a row: opens a worksheet titled "New Sheet" when none is open,
     * writes its table head if still due and closes the previous row
     * (lines 320-344).
     */
    method BeginRow(styleIndex: Option<int>, height: Option<int>, autoFitHeight: Option<bool>)
      requires Valid()
      modifies this`out, this`log, this`shouldEndRow, this`shouldBeginWorksheet, this`shouldEndWorksheet,
        this`columns, this`hasWrittenStyles
      ensures Valid()
      ensures old(shouldEndWorksheet) && !old(shouldBeginWorksheet) ==>
        out == old(out) + EndRowText(old(shouldEndRow)) + RowOpen(styleIndex, height, autoFitHeight)
      ensures old(shouldBeginWorksheet) ==> out == old(out) + TableHead(columns) + RowOpen(styleIndex, height, autoFitHeight)
      ensures !old(shouldEndWorksheet) && !old(hasWrittenStyles) ==>
        out == old(out) + StylesText(styles) + WorksheetOpen(Some(DefaultSheetName)) + TableHead([]) +
          RowOpen(styleIndex, height, autoFitHeight)
      ensures !old(shouldEndWorksheet) && old(hasWrittenStyles) ==>
        out == old(out) + WorksheetOpen(Some(DefaultSheetName)) + TableHead([]) + RowOpen(styleIndex, height, autoFitHeight)
      ensures shouldEndWorksheet && !shouldBeginWorksheet && shouldEndRow && hasWrittenStyles
      ensures columns == old(columns)
    {
      EnsureWorksheet();
      ghost var ready, head := out, TableHead(columns);
      StartRow(styleIndex, height, autoFitHeight);
      assert !old(shouldEndWorksheet) ==> columns == [] && out == ready + head + RowOpen(styleIndex, height, autoFitHeight);
    }

    /** The rest of `beginRow`, with a worksheet open: its table head if due, the end of the previous row, the new row (lines 326-341). */
    method StartRow(styleIndex: Option<int>, height: Option<int>, autoFitHeight: Option<bool>)
      requires Valid() && shouldEndWorksheet
      modifies this`out, this`log, this`shouldEndRow, this`shouldBeginWorksheet
      ensures Valid()
      ensures !old(shouldBeginWorksheet) ==> out == old(out) + EndRowText(old(shouldEndRow)) + RowOpen(styleIndex, height, autoFitHeight)
      ensures old(shouldBeginWorksheet) ==> out == old(out) + TableHead(columns) + RowOpen(styleIndex, height, autoFitHeight)
      ensures !shouldBeginWorksheet && shouldEndRow
    {
      ghost var start, rowOpen := out, shouldEndRow;
      BeginWorksheet();
      ghost var headed := out;
      EndRow();
      assert out == headed + EndRowText(rowOpen) by { AppendNothing(headed); }
      BeginRowTag(styleIndex, height, autoFitHeight);
      if !old(shouldBeginWorksheet) {
        AppendNothing(start);
      }
    }

    /** The start of `beginRow`: a worksheet titled "New Sheet" when none is open (lines 322-324). */
    method EnsureWorksheet()
      requires Valid()
      modifies this`out, this`log, this`shouldEndRow, this`shouldBeginWorksheet, this`shouldEndWorksheet,
        this`columns, this`hasWrittenStyles
      ensures Valid()
      ensures old(shouldEndWorksheet) ==> unchanged(this)
      ensures !old(shouldEndWorksheet) && !old(hasWrittenStyles) ==>
        out == old(out) + StylesText(styles) + WorksheetOpen(Some(DefaultSheetName))
      ensures !old(shouldEndWorksheet) && old(hasWrittenStyles) ==> out == old(out) + WorksheetOpen(Some(DefaultSheetName))
      ensures !old(shouldEndWorksheet) ==> shouldBeginWorksheet && !shouldEndRow && columns == []
      ensures shouldEndWorksheet && hasWrittenStyles
    {
      if !shouldEndWorksheet {
        NewWorksheet(Some(DefaultSheetName));
      }
    }

    /** The end of `beginRow`: the row tag and its attributes (lines 329-341). */
    method BeginRowTag(styleIndex: Option<int>, height: Option<int>, autoFitHeight: Option<bool>)
      requires Valid() && shouldEndWorksheet && !shouldBeginWorksheet && !shouldEndRow
      modifies this`out, this`log, this`shouldEndRow
      ensures Valid()
      ensures out == old(out) + RowOpen(styleIndex, height, autoFitHeight)
      ensures shouldEndRow
    {
      RowOpenTag(styleIndex, height, autoFitHeight);
      Emit(RowOpen(styleIndex, height, autoFitHeight), OpenRow);
      shouldEndRow := true;
    }

    /** Writes a data cell (lines 357-405). */
    method AddCell(data: CellValue, cellType: Option<CellType>, styleIndex: Option<int>, mergeAcross: int, mergeDown: int)
      requires Valid()
      modifies this`out, this`log
      ensures Valid()
      ensures out == old(out) + DataCell(data, cellType, styleIndex, mergeAcross, mergeDown)
    {
      CellMarkupLead(CellAttrText(styleIndex, mergeAcross, mergeDown, Option.None),
                     CellTypeName(ResolveCellType(cellType, data)), RenderValue(data));
      WriteCell(DataCell(data, cellType, styleIndex, mergeAcross, mergeDown));
    }

    /** Writes a formula cell with a placeholder value (lines 419-453). */
    method AddFormulaCell(formula: string, placeholder: CellValue, cellType: Option<CellType>,
                          styleIndex: Option<int>, mergeAcross: int, mergeDown: int)
      requires Valid()
      modifies this`out, this`log
      ensures Valid()
      ensures out == old(out) + FormulaCell(formula, placeholder, cellType, styleIndex, mergeAcross, mergeDown)
    {
      CellMarkupLead(CellAttrText(styleIndex, mergeAcross, mergeDown, Some(formula)),
                     CellTypeName(if cellType.Some? then cellType.value else CellType.String), RenderValue(placeholder));
      WriteCell(FormulaCell(formula, placeholder, cellType, styleIndex, mergeAcross, mergeDown));
    }

    /** Writes a string cell whose content is the markup given (lines 465-487). */
    method AddRichTextCell(xml: string, styleIndex: Option<int>, mergeAcross: int, mergeDown: int)
      requires Valid()
      modifies this`out, this`log
      ensures Valid()
      ensures out == old(out) + RichTextCell(xml, styleIndex, mergeAcross, mergeDown)
    {
      CellMarkupLead(CellAttrText(styleIndex, mergeAcross, mergeDown, Option.None), CellTypeName(CellType.String), xml);
      WriteCell(RichTextCell(xml, styleIndex, mergeAcross, mergeDown));
    }

    /** Writes the markup of one cell, built in full beforehand (lines 402, 450 and 484). */
    method WriteCell(cellDef: string)
      requires Valid() && StartsWith(cellDef, CellLead)
      modifies this`out, this`log
      ensures Valid()
      ensures out == old(out) + cellDef
    {
      CellTag(cellDef);
      Emit(cellDef, CellEntry);
    }

    /** Closes the open row, if any (lines 495-503). */
    method EndRow()
      requires Valid()
      modifies this`out, this`log, this`shouldEndRow
      ensures Valid()
      ensures old(shouldEndRow) ==> out == old(out) + RowClose
      ensures !old(shouldEndRow) ==> out == old(out)
      ensures !shouldEndRow
    {
      if shouldEndRow {
        RowCloseTag();
        Emit(RowClose, CloseRow);
        shouldEndRow := false;
      }
    }
  }
}
