/**
 * The markup of the workbook, its worksheets, tables, columns, rows and
 * cells, as the XML writer writes it (xml/writer.js).
 */
module XmlElements {
  import opened Wrappers
  import opened Text
  import opened Types
  import opened XmlAttributes
  import opened XmlMarkup

  // ---------------------------------------------------------------------------
  // Fixed text

  /** The XML declaration, the Excel processing instruction and the `<Workbook>` tag (lines 164-176). */
  const Prologue :=
    "<?xml version=\"1.0\" encoding=\"utf-8\"?>\n" +
    "<?mso-application progid=\"Excel.Sheet\"?>\n" +
    "<Workbook xmlns=\"urn:schemas-microsoft-com:office:spreadsheet\"\n" +
    " xmlns:o=\"urn:schemas-microsoft-com:office:office\"\n" +
    " xmlns:x=\"urn:schemas-microsoft-com:office:excel\"\n" +
    " xmlns:ss=\"urn:schemas-microsoft-com:office:spreadsheet\">\n"

  /** The `<Styles>` table opens with Excel's default style (lines 216-220). */
  const StylesHeader :=
    " <Styles>\n" +
    "  <Style ss:ID=\"Default\" ss:Name=\"Normal\">\n" +
    "   <Alignment ss:Vertical=\"Bottom\"/>\n" +
    "  </Style>\n"

  const StylesFooter := " </Styles>\n"
  const TableClose := "  </Table>\n"
  const WorksheetClose := " </Worksheet>\n"
  const WorkbookClose := "</Workbook>\n"
  const RowClose := "   </Row>\n"


  /** A flag written as `1` or `0`. */
  function BoolDigit(b: bool): string
  {
    if b then "1" else "0"
  }

  // ---------------------------------------------------------------------------
  // Worksheets and tables

  /** The worksheet tag: the title escaped, or empty when there is none (line 282). */
  function WorksheetOpen(name: Option<string>): string
  {
    " <Worksheet" + AttrText(Attr(Name, if name.Some? then PrepareString(name.value) else "")) + ">\n"
  }

  /** The worksheet's title attribute reads back to the title. */
  lemma WorksheetNameReadBack(name: string)
    ensures ParseAttrs(AttrText(Attr(Name, PrepareString(name)))) == Some([(AttrNameText(Name), PrepareString(name))])
    ensures Unescape(PrepareString(name)) == name
  {
    PrepareStringNoMarkup(name);
    NoMarkupFree(PrepareString(name));
    ParseSingleAttr(Attr(Name, PrepareString(name)));
    UnescapePrepareString(name);
  }

  /** A column as `addColumn` stores it: `width` and `autoFitWidth`, either possibly absent. */
  datatype Column = Column(width: Option<int>, autoFitWidth: Option<bool>)

  /** What may be passed as the width: nothing, a number, or a boolean that stands for the auto-fit flag. */
  datatype WidthArg = NoWidth | Width(w: int) | AutoFitFlag(b: bool)

  /** The column `addColumn(width, autoFitWidth)` records (lines 150-154). */
  function NewColumn(width: WidthArg, autoFitWidth: Option<bool>): (c: Column)
    ensures c.width == if width.Width? then Some(width.w) else Option.None
    ensures c.autoFitWidth == if width.AutoFitFlag? then Some(width.b) else autoFitWidth
  {
    match width
    case NoWidth => Column(Option.None, autoFitWidth)
    case Width(w) => Column(Some(w), autoFitWidth)
    case AutoFitFlag(b) => Column(Option.None, Some(b))
  }

  /** The attribute lists of columns, rows and cells name each attribute once. */
  lemma ElementNamesDistinct()
    ensures Distinct(ColumnNames) && Distinct(RowNames) && Distinct(CellNames)
  {
  }

  /** The attributes of `<Column>` (lines 248-256). */
  const ColumnNames := [AttrName.Width, AutoFitWidth]

  function ColumnValues(c: Column): seq<Option<string>>
  {
    [if c.width.Some? then Some(IntToString(c.width.value)) else Option.None,
     if c.autoFitWidth.Some? then Some(BoolDigit(c.autoFitWidth.value)) else Option.None]
  }

  function ColumnSlots(c: Column): seq<Slot>
  {
    Zip(ColumnNames, ColumnValues(c))
  }

  /** A column writes each attribute once, and nothing in them needs escaping. */
  function ColumnAttrs(c: Column): (r: seq<Attr>)
    ensures forall n :: Lookup(r, n) == SlotValue(ColumnSlots(c), n)
    ensures forall n :: n in Names(r) <==> SlotValue(ColumnSlots(c), n).Some?
    ensures Unique(r)
    ensures forall a | a in r :: NoMarkup(a.value)
  {
    var values := ColumnValues(c);
    IntToStringNoMarkup(if c.width.Some? then c.width.value else 0);
    assert forall v | v in values && v.Some? :: NoMarkup(v.value);
    ElementNamesDistinct();
    DistinctZip(ColumnNames, values);
    PresentLookup(ColumnSlots(c));
    PresentValues(ColumnNames, values);
    Present(ColumnSlots(c))
  }

  function ColumnMarkup(c: Column): string
  {
    "   <Column" + RenderSlots(ColumnSlots(c)) + "/>\n"
  }

  /** The `<Column>` elements of `cols`, in order. */
  function ColumnList(cols: seq<Column>): string
  {
    if cols == [] then "" else ColumnList(cols[..|cols| - 1]) + ColumnMarkup(cols[|cols| - 1])
  }

  /** The table tag, declaring as many columns as were added (line 243). */
  function TableOpen(columnCount: int): string
  {
    "  <Table" + AttrText(Attr(ExpandedColumnCount, IntToString(columnCount))) + ">\n"
  }

  /** Everything `_beginWorksheet` writes when the table is still to begin (lines 240-263). */
  function TableHead(cols: seq<Column>): string
  {
    TableOpen(|cols|) + ColumnList(cols)
  }

  // ---------------------------------------------------------------------------
  // Rows

  /** The attributes of `<Row>` (lines 329-340). */
  const RowNames := [StyleID, Height, AutoFitHeight]

  function RowValues(styleIndex: Option<int>, height: Option<int>, autoFitHeight: Option<bool>): seq<Option<string>>
  {
    [if styleIndex.Some? && styleIndex.value >= 0 then Some(StyleId(styleIndex.value)) else Option.None,
     if height.Some? then Some(IntToString(height.value)) else Option.None,
     if autoFitHeight.Some? then Some(BoolDigit(autoFitHeight.value)) else Option.None]
  }

  function RowSlots(styleIndex: Option<int>, height: Option<int>, autoFitHeight: Option<bool>): seq<Slot>
  {
    Zip(RowNames, RowValues(styleIndex, height, autoFitHeight))
  }

  /** A row writes each attribute once, and nothing in them needs escaping. */
  function RowAttrs(styleIndex: Option<int>, height: Option<int>, autoFitHeight: Option<bool>): (r: seq<Attr>)
    ensures forall n :: Lookup(r, n) == SlotValue(RowSlots(styleIndex, height, autoFitHeight), n)
    ensures forall n :: n in Names(r) <==> SlotValue(RowSlots(styleIndex, height, autoFitHeight), n).Some?
    ensures Unique(r)
    ensures forall a | a in r :: NoMarkup(a.value)
  {
    var values := RowValues(styleIndex, height, autoFitHeight);
    StyleIdNoMarkup(if styleIndex.Some? then styleIndex.value else 0);
    IntToStringNoMarkup(if height.Some? then height.value else 0);
    assert forall v | v in values && v.Some? :: NoMarkup(v.value);
    ElementNamesDistinct();
    DistinctZip(RowNames, values);
    PresentLookup(RowSlots(styleIndex, height, autoFitHeight));
    PresentValues(RowNames, values);
    Present(RowSlots(styleIndex, height, autoFitHeight))
  }

  function RowOpen(styleIndex: Option<int>, height: Option<int>, autoFitHeight: Option<bool>): string
  {
    "   <Row" + RenderSlots(RowSlots(styleIndex, height, autoFitHeight)) + ">\n"
  }

  // ---------------------------------------------------------------------------
  // Cells

  /**
   * The attributes of `<Cell>`: the style, the spans and, for a formula
   * cell, the escaped formula (lines 359-371 and 421-435).
   */
  const CellNames := [StyleID, MergeAcross, MergeDown, Formula]

  function CellValues(styleIndex: Option<int>, mergeAcross: int, mergeDown: int, formula: Option<string>): seq<Option<string>>
  {
    [if styleIndex.Some? && styleIndex.value >= 0 then Some(StyleId(styleIndex.value)) else Option.None,
     if mergeAcross > 0 then Some(IntToString(mergeAcross)) else Option.None,
     if mergeDown > 0 then Some(IntToString(mergeDown)) else Option.None,
     if formula.Some? then Some(PrepareString(formula.value)) else Option.None]
  }

  function CellSlots(styleIndex: Option<int>, mergeAcross: int, mergeDown: int, formula: Option<string>): seq<Slot>
  {
    Zip(CellNames, CellValues(styleIndex, mergeAcross, mergeDown, formula))
  }

  /** A cell writes each attribute once, and nothing in them needs escaping. */
  function CellAttrs(styleIndex: Option<int>, mergeAcross: int, mergeDown: int, formula: Option<string>): (r: seq<Attr>)
    ensures forall n :: Lookup(r, n) == SlotValue(CellSlots(styleIndex, mergeAcross, mergeDown, formula), n)
    ensures forall n :: n in Names(r) <==> SlotValue(CellSlots(styleIndex, mergeAcross, mergeDown, formula), n).Some?
    ensures Unique(r)
    ensures forall a | a in r :: NoMarkup(a.value)
  {
    var values := CellValues(styleIndex, mergeAcross, mergeDown, formula);
    StyleIdNoMarkup(if styleIndex.Some? then styleIndex.value else 0);
    IntToStringNoMarkup(mergeAcross);
    IntToStringNoMarkup(mergeDown);
    PrepareStringNoMarkup(if formula.Some? then formula.value else "");
    assert forall v | v in values && v.Some? :: NoMarkup(v.value);
    ElementNamesDistinct();
    DistinctZip(CellNames, values);
    PresentLookup(CellSlots(styleIndex, mergeAcross, mergeDown, formula));
    PresentValues(CellNames, values);
    Present(CellSlots(styleIndex, mergeAcross, mergeDown, formula))
  }

  /** The attributes of a cell, as written. */
  function CellAttrText(styleIndex: Option<int>, mergeAcross: int, mergeDown: int, formula: Option<string>): string
  {
    RenderSlots(CellSlots(styleIndex, mergeAcross, mergeDown, formula))
  }

  /** A cell's attributes read back as the pairs of its attribute list. */
  lemma CellAttrsReadBack(styleIndex: Option<int>, mergeAcross: int, mergeDown: int, formula: Option<string>)
    ensures ParseAttrs(CellAttrText(styleIndex, mergeAcross, mergeDown, formula))
      == Some(Pairs(CellAttrs(styleIndex, mergeAcross, mergeDown, formula)))
  {
    var attrs := CellAttrs(styleIndex, mergeAcross, mergeDown, formula);
    forall a | a in attrs ensures '"' !in a.value {
      NoMarkupFree(a.value);
    }
    QuoteFreeAll(attrs);
    SlotsReadBack(CellSlots(styleIndex, mergeAcross, mergeDown, formula));
  }

  /** A formula cell carries its formula escaped, and unescaping it gives the formula back. */
  lemma FormulaReadBack(styleIndex: Option<int>, mergeAcross: int, mergeDown: int, formula: string)
    ensures Lookup(CellAttrs(styleIndex, mergeAcross, mergeDown, Some(formula)), Formula) == Some(PrepareString(formula))
    ensures Unescape(PrepareString(formula)) == formula
  {
    ElementNamesDistinct();
    ZipValue(CellNames, CellValues(styleIndex, mergeAcross, mergeDown, Some(formula)), 3, Formula);
    UnescapePrepareString(formula);
  }

  /** A data cell has no formula attribute. */
  lemma DataCellNoFormula(styleIndex: Option<int>, mergeAcross: int, mergeDown: int)
    ensures Formula !in Names(CellAttrs(styleIndex, mergeAcross, mergeDown, Option.None))
  {
    ElementNamesDistinct();
    ZipValue(CellNames, CellValues(styleIndex, mergeAcross, mergeDown, Option.None), 3, Formula);
  }

  const CellLead := "    <Cell"
  const DataLead := "><Data"
  const CellTail := "</Data></Cell>\n"

  /** `<Cell …><Data ss:Type="…">content</Data></Cell>`, given the cell's attributes as written. */
  function CellMarkup(attrText: string, typeName: string, content: string): string
  {
    CellLead + attrText + DataElement(typeName, content)
  }

  /** `><Data ss:Type="…">content</Data></Cell>`: the end of a cell element, after its attributes. */
  function DataElement(typeName: string, content: string): string
  {
    DataLead + AttrText(Attr(Type, typeName)) + ">" + content + CellTail
  }

  /**
   * Reads a cell element back: the (name, value) pairs of the `<Cell>`
   * attributes, the `ss:Type` of its `<Data>` and the text between `<Data …>`
   * and `</Data></Cell>`, or `None` when `t` is not laid out that way.
   */
  function ReadCell(t: string): Option<(seq<(string, string)>, string, string)>
  {
    if !StartsWith(t, CellLead) then Option.None
    else
      var (pairs, afterAttrs) := ReadRun(t[|CellLead|..]);
      match ReadData(afterAttrs)
      case None => Option.None
      case Some((typeName, content)) => Some((pairs, typeName, content))
  }

  /** Reads `><Data ss:Type="…">content</Data></Cell>` back as the type name and the content. */
  function ReadData(t: string): Option<(string, string)>
  {
    if !StartsWith(t, DataLead) then Option.None
    else
      match ParseOne(t[|DataLead|..])
      case None => Option.None
      case Some((name, typeName, rest)) =>
        if name != AttrNameText(Type) then Option.None
        else
          match ReadContent(rest)
          case None => Option.None
          case Some(content) => Some((typeName, content))
  }

  /** Reads `>content</Data></Cell>` back as the content. */
  function ReadContent(t: string): Option<string>
  {
    if |t| < 1 + |CellTail| || t[0] != '>' || t[|t| - |CellTail|..] != CellTail then Option.None
    else Some(t[1..|t| - |CellTail|])
  }

  /** No type name holds a quote. */
  lemma CellTypeNamePlain(t: CellType)
    ensures '"' !in CellTypeName(t)
  {
  }

  lemma ReadContentBack(content: string)
    ensures ReadContent(">" + content + CellTail) == Some(content)
  {
    var t := ">" + content + CellTail;
    assert t[|t| - |CellTail|..] == CellTail;
    assert t[1..|t| - |CellTail|] == content;
  }

  lemma ReadDataBack(typeName: string, content: string)
    requires '"' !in typeName
    ensures ReadData(DataElement(typeName, content)) == Some((typeName, content))
  {
    var rest := ">" + content + CellTail;
    var t := DataElement(typeName, content);
    assert t == DataLead + (AttrText(Attr(Type, typeName)) + rest);
    assert t[|DataLead|..] == AttrText(Attr(Type, typeName)) + rest;
    ParseAttrText(Attr(Type, typeName), rest);
    ReadContentBack(content);
  }

  /** Nothing that starts in `>` is read as an attribute: the run of attributes ends there. */
  lemma DataElementEndsRun(typeName: string, content: string)
    ensures ParseOne(DataElement(typeName, content)).None?
  {
    var t := DataElement(typeName, content);
    assert t[0] == '>';
    assert t[..|Lead|][0] != Lead[0];
  }

  /** What follows the start of a cell element is its attributes and the rest. */
  lemma CellSplit(attrText: string, rest: string)
    ensures StartsWith(CellLead + attrText + rest, CellLead)
    ensures (CellLead + attrText + rest)[|CellLead|..] == attrText + rest
  {
    assert CellLead + attrText + rest == CellLead + (attrText + rest);
    PrefixRest(CellLead, attrText + rest);
  }

  /** Every cell's markup begins with the `<Cell` tag. */
  lemma CellMarkupLead(attrText: string, typeName: string, content: string)
    ensures StartsWith(CellMarkup(attrText, typeName, content), CellLead)
  {
    CellSplit(attrText, DataElement(typeName, content));
  }

  lemma ReadCellSteps(t: string, pairs: seq<(string, string)>, afterAttrs: string, typeName: string, content: string)
    requires StartsWith(t, CellLead)
    requires ReadRun(t[|CellLead|..]) == (pairs, afterAttrs)
    requires ReadData(afterAttrs) == Some((typeName, content))
    ensures ReadCell(t) == Some((pairs, typeName, content))
  {
  }

  lemma StringTypeName()
    ensures CellTypeName(CellType.String) == "String"
  {
  }

  /** A cell element reads back as its attributes, its type name and its content, whatever the content. */
  lemma CellMarkupReadBack(attrs: seq<Attr>, typeName: string, content: string)
    requires QuoteFree(attrs) && '"' !in typeName
    ensures ReadCell(CellMarkup(RenderAttrs(attrs), typeName, content)) == Some((Pairs(attrs), typeName, content))
  {
    var afterAttrs := DataElement(typeName, content);
    var t := CellMarkup(RenderAttrs(attrs), typeName, content);
    CellSplit(RenderAttrs(attrs), afterAttrs);
    DataElementEndsRun(typeName, content);
    ReadRunRender(attrs, afterAttrs);
    ReadDataBack(typeName, content);
    ReadCellSteps(t, Pairs(attrs), afterAttrs, typeName, content);
  }

  /** A cell written with these attributes reads back as the pairs of `CellAttrs`, the type name and the content. */
  lemma CellReadBack(styleIndex: Option<int>, mergeAcross: int, mergeDown: int, formula: Option<string>,
                     t: CellType, content: string)
    ensures ReadCell(CellMarkup(CellAttrText(styleIndex, mergeAcross, mergeDown, formula), CellTypeName(t), content))
      == Some((Pairs(CellAttrs(styleIndex, mergeAcross, mergeDown, formula)), CellTypeName(t), content))
  {
    var attrs := CellAttrs(styleIndex, mergeAcross, mergeDown, formula);
    forall a | a in attrs ensures '"' !in a.value {
      NoMarkupFree(a.value);
    }
    QuoteFreeAll(attrs);
    RenderSlotsPresent(CellSlots(styleIndex, mergeAcross, mergeDown, formula));
    CellTypeNamePlain(t);
    CellMarkupReadBack(attrs, CellTypeName(t), content);
  }

  /** What `addCell` writes (lines 357-405). */
  function DataCell(data: CellValue, cellType: Option<CellType>, styleIndex: Option<int>, mergeAcross: int, mergeDown: int): string
  {
    CellMarkup(CellAttrText(styleIndex, mergeAcross, mergeDown, Option.None),
               CellTypeName(ResolveCellType(cellType, data)), RenderValue(data))
  }

  /** What `addFormulaCell` writes (lines 419-453). */
  function FormulaCell(formula: string, placeholder: CellValue, cellType: Option<CellType>,
                       styleIndex: Option<int>, mergeAcross: int, mergeDown: int): string
  {
    CellMarkup(CellAttrText(styleIndex, mergeAcross, mergeDown, Some(formula)),
               CellTypeName(if cellType.Some? then cellType.value else CellType.String), RenderValue(placeholder))
  }

  /** What `addRichTextCell` writes: the markup as given, as a string cell (lines 465-487). */
  function RichTextCell(xml: string, styleIndex: Option<int>, mergeAcross: int, mergeDown: int): string
  {
    CellMarkup(CellAttrText(styleIndex, mergeAcross, mergeDown, Option.None), CellTypeName(CellType.String), xml)
  }

  /** A data cell reads back with no formula, the type `resolveCellType` gives and the escaped value. */
  lemma DataCellReadBack(data: CellValue, cellType: Option<CellType>, styleIndex: Option<int>, mergeAcross: int, mergeDown: int)
    ensures ReadCell(DataCell(data, cellType, styleIndex, mergeAcross, mergeDown))
      == Some((Pairs(CellAttrs(styleIndex, mergeAcross, mergeDown, Option.None)),
               CellTypeName(ResolveCellType(cellType, data)), RenderValue(data)))
  {
    CellReadBack(styleIndex, mergeAcross, mergeDown, Option.None, ResolveCellType(cellType, data), RenderValue(data));
  }

  /**
   * A formula cell reads back with its formula among its attributes, the
   * placeholder as content, and the type `String` when no type is given and
   * the given type otherwise.
   */
  lemma FormulaCellReadBack(formula: string, placeholder: CellValue, cellType: Option<CellType>,
                            styleIndex: Option<int>, mergeAcross: int, mergeDown: int)
    ensures ReadCell(FormulaCell(formula, placeholder, cellType, styleIndex, mergeAcross, mergeDown)).Some?
    ensures ReadCell(FormulaCell(formula, placeholder, cellType, styleIndex, mergeAcross, mergeDown)).value.0
      == Pairs(CellAttrs(styleIndex, mergeAcross, mergeDown, Some(formula)))
    ensures cellType.None? ==>
      ReadCell(FormulaCell(formula, placeholder, cellType, styleIndex, mergeAcross, mergeDown)).value.1 == "String"
    ensures cellType.Some? ==>
      ReadCell(FormulaCell(formula, placeholder, cellType, styleIndex, mergeAcross, mergeDown)).value.1
        == CellTypeName(cellType.value)
    ensures ReadCell(FormulaCell(formula, placeholder, cellType, styleIndex, mergeAcross, mergeDown)).value.2
      == RenderValue(placeholder)
  {
    CellReadBack(styleIndex, mergeAcross, mergeDown, Some(formula),
                 if cellType.Some? then cellType.value else CellType.String, RenderValue(placeholder));
    StringTypeName();
  }

  /** A rich-text cell reads back as a `String` cell whose content is the markup exactly as given. */
  lemma RichTextCellReadBack(xml: string, styleIndex: Option<int>, mergeAcross: int, mergeDown: int)
    ensures ReadCell(RichTextCell(xml, styleIndex, mergeAcross, mergeDown))
      == Some((Pairs(CellAttrs(styleIndex, mergeAcross, mergeDown, Option.None)), "String", xml))
  {
    CellReadBack(styleIndex, mergeAcross, mergeDown, Option.None, CellType.String, xml);
    StringTypeName();
  }
}
