# node-spreadsheet-writer, modelled in Dafny

This project is a model of the two streaming spreadsheet writers of
node-spreadsheet-writer, with proofs about them.

- **The XML writer** (`xml/writer.js`) writes Excel's XML Spreadsheet 2003 markup. That is a `<Workbook>` holding a `<Styles>` table, once a worksheet is begun, then `<Worksheet>`s, each with a `<Table>` of `<Column>`s and `<Row>`s of `<Cell>`s.
- **The CSV writer** (`csv/index.js`) takes the same calls and writes comma-separated text. Every cell is `"…",`, every row ends with a line feed, and a worksheet is announced by a row holding its title.

Both writers are objects whose methods update their flags and append to an output stream. The model keeps that form:

- Each writer is a Dafny `class`.
- The output stream is a `string` field `out` that every method extends.
- The source's flags are fields: `shouldBeginWorksheet`, `shouldEndWorksheet`, `shouldEndRow`, `hasWrittenStyles` and `endedFile`.
- Every method states the exact text it appends and the flags it leaves.
- Dates become text through `toXMLDateTime` (`utils.js`), modelled on the fields a JavaScript `Date` reports.

Files:

| file | contents |
|---|---|
| `wrappers.dfy` | `Option`, `Result` and `Outcome` |
| `text.dfy` | character replacement, decimal rendering and parsing |
| `dates.dfy` | `toXMLDateTime` and a parser that reads its result back |
| `types.dfy` | the constant tables of `types.js`, the style descriptors, cell values |
| `xml_markup.dfy` | XML `prepareString` and its inverse, cell type inference, value rendering, style ids |
| `xml_attributes.dfy` | attribute lists, written as `(name, optional value)` slots, and an attribute parser |
| `xml_style.dfy` | what `writeStyle` writes: the enum switches and the attributes of each style element |
| `xml_elements.dfy` | the fixed tags, and the worksheet, column, row and cell markup |
| `xml_structure.dfy` | a grammar for the nesting of the XML document, and what it guarantees |
| `xml_writer.dfy` | the class `XmlSpreadsheetWriter` |
| `csv_format.dfy` | CSV `prepareString`, cell fields, and a reader that parses the output back |
| `csv_writer.dfy` | the class `CsvSpreadsheetWriter` |

Three devices are worth knowing before reading the proofs.

**The XML writer keeps a ghost `log`.** The log holds every piece of text the writer has written, in order, and `out` is their concatenation. `XmlStructure.TagKind` reads each piece's kind off the tag it begins with: open or close of styles, sheet, table or row, a style, a cell. Text that begins with no such tag is `Unknown`. `XmlStructure.Replay` runs these kinds through a grammar that refuses `Unknown`. `Valid()` says that `out` is the log's text and that the replay succeeds and lands exactly at the nesting the flags describe. Every method that stands for a public source method keeps `Valid()`; the helpers that only append text (`WriteStyleText`, `WriteTableHeadText` and the pieces they call) write parts of one logged piece. The `XmlWriter.…Tag` lemmas show that each piece the writer builds begins with its own element's tag. From that the model proves, about the text actually written:

- at the end of the file every `<Styles>`, `<Worksheet>`, `<Table>` and `<Row>` opened has been closed (the `<Workbook>` tag, inside the prologue, is not tracked);
- the `<Styles>` table is written at most once, and exactly once as soon as a worksheet is begun; a workbook with no worksheet has no `<Styles>` table;
- the `<Styles>` table comes before every worksheet.

**The CSV writer keeps a ghost list of `items`.** These are the cells and row ends written so far, and `out` is their rendering. A CSV reader (`CsvFormat.ReadItems`) is proved to give back exactly those cells and row ends. The condition is that every cell's text is well quoted: no lone `"`. Every writer method states how it changes that condition.

**escapes can be undone:**

- **XML:** values pass through `prepareString`, and `XmlMarkup.Unescape` is proved to be its left inverse.
- **CSV:** text passes through `prepareString`, which turns line breaks into spaces. `CsvFormat.Undouble` is proved to give back the text with line breaks flattened.

Several behaviours of the code are modelled as written:

- **XML `prepareString` ampersands:** `prepareString` turns `&` into `&amp;"`. The following replacement then turns that quote into `&quot;`, so `&` comes out as `&amp;&quot;`. `Unescape` reads that pair back as `&`.
- **Missing rotation:** an alignment with no rotation writes `ss:Rotate="undefined"`.
- **Font size 10:** a font size of 10 is not written, as it is the default.
- **Style ids:** a style's `ss:ID` is `s` followed by its index plus 21. `ss:Parent` is the parent's index as given, without that offset.
- **Blank rows between CSV sheets:** `newWorksheet` on the CSV writer ends the open row, then, when a worksheet was already open, ends the empty row begun between the sheets before writing the title row (csv/index.js:167-186). `newWorksheet("A")` ends its own title row with its last `beginRow` and leaves a new row open, so its output is `"A",\n`. `newWorksheet("B")` then writes two line feeds before its title: one ends the row left open (csv/index.js:197), the other ends the empty row begun at csv/index.js:175. The two titles are therefore separated by three line feeds, that is, two blank lines.
- **CSV cells outside a sheet:** CSV cells may be written before any worksheet or row is open, exactly as the code allows.
- **CSV rich text:** the CSV rich-text cell is not escaped.

## Model

| member | source | states |
|---|---|---|
| XmlMarkup.PrepareStringConcat | xml/writer.js:5-14 | escaping two texts one after the other is escaping their concatenation |
| XmlMarkup.PrepareStringIsEscapeEach | xml/writer.js:5-14 | the seven chained replacements equal escaping each character on its own |
| XmlMarkup.EscapeAmpersand | xml/writer.js:7-10 | an ampersand comes out as `&amp;&quot;`: the quote the first replacement adds is escaped by the fourth |
| XmlMarkup.PrepareStringNoMarkup | xml/writer.js:5-14 | the escaped text holds no `<`, `>`, `"`, `'`, CR or LF |
| XmlMarkup.UnescapePrepareString | xml/writer.js:5-14 | unescaping the escaped text gives back the original text |
| XmlMarkup.ResolveCellType | xml/writer.js:373-387 | a given type is kept; without one, numbers are `Number`, dates `DateTime`, booleans `Boolean`, anything else `String`, never `Error` |
| XmlMarkup.RenderValueReadBack | xml/writer.js:389-399 | a string or number cell unescapes to its text, a boolean is `1`/`0`, a date is its XML date-time text |
| XmlMarkup.RenderValueNoMarkup | xml/writer.js:389-399 | a rendered cell value holds no markup character |
| XmlMarkup.StyleIdRoundTrip | xml/writer.js:331 | the style id `s<index+21>` parses back to the index |
| XmlMarkup.StyleIdInjective | xml/writer.js:362 | two indices get the same style id exactly when they are equal |
| XmlAttributes.PresentLookup | xml/writer.js:359-371 | writing only the attributes that have a value keeps each name's value, writes each name at most once, and writes exactly the names with a value |
| XmlAttributes.SlotsReadBack | xml/writer.js:359-371 | attributes whose values hold no quote parse back to their names and values, in order |
| XmlAttributes.ParseRenderAttrs | xml/writer.js:359-371 | a rendered attribute list parses back to its pairs |
| XmlStyle.HorizontalText | xml/writer.js:523-557 | `ss:Horizontal` is omitted for `Automatic` or an unknown value, and is otherwise the alignment's name |
| XmlStyle.ReadingOrderText | xml/writer.js:563-578 | `ss:ReadingOrder` is omitted for `Context` or an unknown value, and is otherwise its name |
| XmlStyle.VerticalAlignmentText | xml/writer.js:588-615 | `ss:Vertical` is omitted for `Automatic` or an unknown value, and is otherwise its name |
| XmlStyle.PositionText | xml/writer.js:645-668 | `ss:Position` is always written, as `Left` when none or an unknown value is given |
| XmlStyle.LineStyleText | xml/writer.js:675-705 | `ss:LineStyle` is omitted for `None` or an unknown value, and is otherwise its name |
| XmlStyle.PatternText | xml/writer.js:725-785 | `ss:Pattern` is omitted for `None`, `DiagStripe` (which has no case of its own) or an unknown value |
| XmlStyle.UnderlineText | xml/writer.js:831-852 | `ss:Underline` is omitted for `None` or an unknown value, and is otherwise its name |
| XmlStyle.FontVerticalAlignText | xml/writer.js:854-869 | `ss:VerticalAlign` is omitted for `None` or an unknown value, and is otherwise its name |
| XmlStyle.FamilyText | xml/writer.js:875-899 | `ss:Family` is omitted for `Automatic` or an unknown value, and is otherwise its name |
| XmlStyle.AlignmentAttrs | xml/writer.js:521-626 | each `<ss:Alignment>` attribute has the value its rule gives or is absent, each at most once; a missing rotation is written as `undefined` |
| XmlStyle.BorderAttrs | xml/writer.js:642-712 | each `<ss:Border>` attribute follows its rule, each at most once, and `ss:Position` is always present |
| XmlStyle.InteriorAttrs | xml/writer.js:717-793 | each `<ss:Interior>` attribute follows its rule (colours only when visible), each at most once |
| XmlStyle.FontAttrs | xml/writer.js:795-902 | each `<ss:Font>` attribute follows its rule, each at most once; size 10 is never written |
| XmlStyle.StyleHeadAttrs | xml/writer.js:515-518 | the `<Style>` tag carries `ss:ID` = `s<index+21>` and the parent as given; no value holds a quote |
| XmlElements.WorksheetNameReadBack | xml/writer.js:282 | the escaped worksheet name parses back as the `ss:Name` attribute and unescapes to the name |
| XmlElements.NewColumn | xml/writer.js:150-154 | a boolean given as width becomes the auto-fit flag and leaves no width; otherwise both are kept |
| XmlElements.ColumnAttrs | xml/writer.js:248-256 | `<Column>` has `ss:Width` and `ss:AutoFitWidth` only when given, each at most once, with markup-free values |
| XmlElements.RowAttrs | xml/writer.js:329-340 | `<Row>` has `ss:StyleID`, `ss:Height` and `ss:AutoFitHeight` only when given, each at most once, with markup-free values |
| XmlElements.CellAttrs | xml/writer.js:359-371 | `<Cell>` has a style id for a non-negative index, spans only when positive, the escaped formula only for a formula cell; each at most once; values markup-free |
| XmlElements.CellAttrsReadBack | xml/writer.js:421-435 | a cell's attribute text parses back to exactly its attributes |
| XmlElements.FormulaReadBack | xml/writer.js:435 | a formula cell's `ss:Formula` is the escaped formula, and unescapes to the formula |
| XmlElements.DataCellNoFormula | xml/writer.js:359-371 | a data cell has no `ss:Formula` |
| XmlElements.CellMarkupReadBack | xml/writer.js:357-405 | a cell element reads back as its attribute pairs, its `ss:Type` and its content, whatever the content |
| XmlElements.DataCellReadBack | xml/writer.js:357-405 | a data cell reads back with the cell's attribute pairs, the type `resolveCellType` picks and the escaped value as content |
| XmlElements.FormulaCellReadBack | xml/writer.js:419-453 | a formula cell reads back with its formula among its attribute pairs, the placeholder as content, and `ss:Type` `String` when no type is given and the given type otherwise |
| XmlElements.RichTextCellReadBack | xml/writer.js:465-487 | a rich-text cell reads back as a `String` cell whose content is the markup exactly as given |
| XmlStructure.ReplayReachable | xml/writer.js:272-286 | every sequence of pieces the grammar accepts has the `<Styles>` table written before any worksheet is open, and not yet written while inside it |
| XmlStructure.ReplayBalance | xml/writer.js:184-204 | elements opened = elements closed + the current depth |
| XmlStructure.StylesAtMostOnce | xml/writer.js:212-232 | the `<Styles>` table is opened at most once |
| XmlStructure.StylesBeforeSheets | xml/writer.js:272-286 | every worksheet opens after the `<Styles>` table has closed |
| XmlWriter.PrologueTag | xml/writer.js:167 | the file's first piece begins with the XML declaration |
| XmlWriter.StylesHeaderTag | xml/writer.js:217 | the styles header begins with `<Styles>` |
| XmlWriter.StyleTag | xml/writer.js:515 | every style's markup begins with its `<Style` tag |
| XmlWriter.WorksheetOpenTag | xml/writer.js:282 | the worksheet piece begins with `<Worksheet`, whatever the name |
| XmlWriter.TableHeadTag | xml/writer.js:243 | the table head begins with `<Table`, whatever the columns |
| XmlWriter.RowOpenTag | xml/writer.js:329 | the row piece begins with `<Row`, whatever its attributes |
| XmlWriter.CellTag | xml/writer.js:359 | text that begins with `<Cell` is read as a cell |
| XmlElements.CellMarkupLead | xml/writer.js:359 | every cell's markup begins with `<Cell` |
| XmlWriter.XmlSpreadsheetWriter.constructor | xml/writer.js:57-99 | a new writer has written nothing, holds no styles or columns, and has every flag down |
| XmlWriter.XmlSpreadsheetWriter.AddStyle | xml/writer.js:128-134 | before the styles are written the style is appended and its index returned; afterwards it fails with the source's message and nothing changes |
| XmlWriter.XmlSpreadsheetWriter.AddColumn | xml/writer.js:146-156 | between `newWorksheet` and the first row the column is appended; otherwise it fails with the source's message and nothing changes |
| XmlWriter.XmlSpreadsheetWriter.BeginFile | xml/writer.js:164-176 | appends the XML declaration, the Excel processing instruction and the `<Workbook>` tag |
| XmlWriter.XmlSpreadsheetWriter.EndFile | xml/writer.js:184-204 | the first call closes the open worksheet and the workbook, after which every `<Styles>`, `<Worksheet>`, `<Table>` and `<Row>` opened is closed; `finish` is scheduled exactly once; a later call changes nothing |
| XmlWriter.XmlSpreadsheetWriter.WriteStyles | xml/writer.js:212-232 | writes the `<Styles>` table with every style, in order, the first time only |
| XmlWriter.XmlSpreadsheetWriter.WriteStyleList | xml/writer.js:222-224 | appends the definition of every style, numbered in order |
| XmlWriter.XmlSpreadsheetWriter.WriteStyle | xml/writer.js:512-907 | appends the definition of style `index` inside the `<Styles>` table |
| XmlWriter.XmlSpreadsheetWriter.WriteStyleText | xml/writer.js:512-907 | appends the style tag, the alignment, number format, borders, interior and font it has, and the closing tag |
| XmlWriter.XmlSpreadsheetWriter.WriteBorders | xml/writer.js:637-715 | appends `<ss:Borders>` with one `<ss:Border>` per border, or nothing when there are none |
| XmlWriter.XmlSpreadsheetWriter.BeginWorksheet | xml/writer.js:240-263 | appends the table tag and the columns once per worksheet, and nothing after |
| XmlWriter.XmlSpreadsheetWriter.WriteColumns | xml/writer.js:244-258 | appends one `<Column>` per recorded column, in order |
| XmlWriter.XmlSpreadsheetWriter.EndWorksheet | xml/writer.js:294-309 | closes the open row, the table if it was begun and the worksheet; clears the columns; does nothing when no worksheet is open |
| XmlWriter.XmlSpreadsheetWriter.NewWorksheet | xml/writer.js:272-286 | closes the open worksheet or, before the first, writes the `<Styles>` table; then opens the named worksheet, with the table still to begin |
| XmlWriter.XmlSpreadsheetWriter.BeginRow | xml/writer.js:320-344 | opens "New Sheet" when no worksheet is open, writes the table head if due, closes the previous row and opens the new one |
| XmlWriter.XmlSpreadsheetWriter.AddCell | xml/writer.js:357-405 | appends the data cell's markup |
| XmlWriter.XmlSpreadsheetWriter.AddFormulaCell | xml/writer.js:419-453 | appends the formula cell's markup |
| XmlWriter.XmlSpreadsheetWriter.AddRichTextCell | xml/writer.js:465-487 | appends a `String` cell holding the markup as given |
| XmlWriter.XmlSpreadsheetWriter.EndRow | xml/writer.js:495-503 | closes the row only when one is open |
| CsvFormat.PrepareStringReadBack | csv/index.js:3-7 | the escaped text is well quoted and reads back as the text with line breaks turned into spaces |
| CsvFormat.PrepareStringOneLine | csv/index.js:5 | the escaped text holds no line break |
| CsvFormat.PrepareStringPlain | csv/index.js:3-7 | text without line breaks or quotes is left as it is |
| CsvFormat.CellFieldReadBack | csv/index.js:237-255 | a cell's field is well quoted, on one line, and reads back as the date-time text, `1`/`0` or the flattened text |
| CsvFormat.ReadBack | csv/index.js:237-255 | output made of well-quoted cells and row ends parses back to exactly those cells and row ends |
| CsvFormat.LoneQuoteUnreadable | csv/index.js:299-307 | an example: the cell `a"b`, which an unescaped rich-text cell may hold, makes the output unreadable |
| CsvWriter.DefaultSheetText | csv/index.js:213-224 | opening the default sheet writes `"New Sheet",` and two line feeds |
| CsvWriter.TwoNamedSheetsText | csv/index.js:167-186 | two named worksheets in a row write the first title, three line feeds, then the second title |
| CsvWriter.SheetsAThenBText | csv/index.js:167-186 | `newWorksheet("A")` then `newWorksheet("B")` write `"A",`, three line feeds and `"B",` |
| CsvWriter.CsvSpreadsheetWriter.constructor | csv/index.js:34-56 | a new writer has written nothing, uses `utf8` and has every flag down |
| CsvWriter.CsvSpreadsheetWriter.OutputReadsBack | csv/index.js:237-255 | whatever the writer has written parses back to its cells and row ends when every cell is well quoted |
| CsvWriter.CsvSpreadsheetWriter.SetEncoding | csv/index.js:84-87 | stores the encoding |
| CsvWriter.CsvSpreadsheetWriter.GetEncoding | csv/index.js:94-96 | returns the stored encoding |
| CsvWriter.CsvSpreadsheetWriter.AddStyle | csv/index.js:105-107 | refuses every style with index -1 |
| CsvWriter.CsvSpreadsheetWriter.AddColumn | csv/index.js:119-121 | changes nothing |
| CsvWriter.CsvSpreadsheetWriter.BeginFile | csv/index.js:129-131 | changes nothing |
| CsvWriter.CsvSpreadsheetWriter.EndFile | csv/index.js:139-158 | the first call ends the open row and worksheet and schedules `finish` exactly once; a later call changes nothing |
| CsvWriter.CsvSpreadsheetWriter.NewWorksheet | csv/index.js:167-186 | ends the open row, leaves an empty row after a previous sheet, and writes the escaped title in a row of its own when there is one; readability is kept |
| CsvWriter.CsvSpreadsheetWriter.WriteTitle | csv/index.js:179-182 | writes the title row and leaves a new row open |
| CsvWriter.CsvSpreadsheetWriter.EndWorksheet | csv/index.js:194-202 | ends the open row and the worksheet |
| CsvWriter.CsvSpreadsheetWriter.BeginRow | csv/index.js:213-224 | opens "New Sheet" when no worksheet is open, ends the previous row and opens a new one |
| CsvWriter.CsvSpreadsheetWriter.AddCell | csv/index.js:237-255 | appends `"field",` for the value; readability is kept |
| CsvWriter.CsvSpreadsheetWriter.AddFormulaCell | csv/index.js:269-287 | appends the placeholder as a plain cell and drops the formula |
| CsvWriter.CsvSpreadsheetWriter.AddRichTextCell | csv/index.js:299-307 | appends the stripped text unescaped; every cell stays well quoted exactly when the cells before were and the stripped text is well quoted |
| CsvWriter.CsvSpreadsheetWriter.EndRow | csv/index.js:315-323 | writes a line feed only when a row is open |
| Dates.DateTimeRoundTrip | utils.js:18-40 | the date-time text of every valid date parses back to the same fields |
| Dates.DateTimeLength | utils.js:18-40 | the text is the year followed by 19 characters, 23 in all for a four-digit year |
| Dates.DateTimeChars | utils.js:18-40 | the text holds only digits, `-`, `T`, `:` and `.` |
| Dates.ExampleDate | utils.js:18-40 | 7 March 2024, 09:05:03.007 gives `2024-03-07T09:05:03.007`: months are counted from zero, and fields are padded to two digits and milliseconds to three |
| Text.IntToStringParses | xml/writer.js:331 | the decimal text of an integer parses back to it |

## Left out

- Colours: the `color` library and `colorForSpreadsheet` are not modelled. A colour is given as its `#RRGGBB` text and whether its alpha is above zero.
- `stripHtml`: rich text's conversion to plain text comes from another module. It is a function given to the CSV writer's constructor.
- `toOADate` of `utils.js`: no core operation calls it.
- Streams: the output stream, the `'utf8'` argument to `write`, and the stream plumbing are left out. Output is the `out` string.
- CSV encoding: CSV `setEncoding` only stores the encoding, which nothing else reads.
- `setImmediate` and the `finish` event: these are a counter of scheduled events.
- Number formatting: JavaScript's number-to-string conversion is not modelled. A number cell carries the text JavaScript would give it. Column widths, row heights, indents, rotations, border weights, font sizes, character sets and parent style indices are integers written in decimal. A fractional value such as `15.75` therefore cannot be expressed, and neither can a non-number such as `rotate: null`, which the writer prints as `ss:Rotate="null"`.
- `undefined`, `null` and other JavaScript types: missing arguments are `Option`, and `addColumn`'s boolean width is a `WidthArg`. Values of other types, which `typeof` and `instanceof` tests would see, cannot be expressed.
- Cell spans: `mergeAcross` and `mergeDown` are integers in both writers, with `undefined` standing as 0, because the XML code only tests them with `> 0` and the CSV code ignores them.
- Style indices: out-of-range style indices are not validated by the code and are not modelled.
- `writeStyle` only for existing styles: `XmlWriter.XmlSpreadsheetWriter.WriteStyle` requires an existing index, because only `_writeStyles` calls it, and only with existing indices.
- Exceptions: the exceptions of `addStyle` and `addColumn` are `Failure`/`Fail` results that leave the state unchanged.
- Text written unescaped: `ss:Format` (the number format), `ss:FontName` and rich-text markup are written as given. The model proves no read-back or quote-freedom for them.
- `mimeType` and `fileExtension`: these return constants and are not modelled.
- The base writer class and the package entry point: `base.js` and `index.js` are not part of this model.
- Dates: `Date` getters are a record of the local-calendar fields. Time zones and the conversion from an instant are not modelled.
- Well-formed XML in full: `XmlStructure.TagKind` classifies each written piece by its leading tag only. The `<Workbook>` element is not counted: its opening tag sits inside the prologue, and the grammar accepts the prologue anywhere, so calling `beginFile` twice or `endFile` without `beginFile` is not excluded (the code checks neither, xml/writer.js:164-204). The nesting the grammar checks is the nesting of those pieces. What follows a tag inside a piece is covered by the read-back lemmas of `XmlElements` and `XmlAttributes`, and not by the grammar.
