/**
 * The shape of the document the XML writer produces: the kinds of the
 * pieces it writes, in order, and the grammar they follow. The containing
 * elements are the `<Styles>` table, the worksheets, their tables and the
 * rows; `Replay` follows how deep inside them the output is and refuses a
 * piece written in the wrong place.
 */
module XmlStructure {
  import opened Wrappers
  import opened Text

  /** What a piece of output is, as far as the structure goes. */
  datatype Kind =
    | FileStart
    | FileEnd
    | OpenStyles
    | StyleEntry
    | CloseStyles
    | OpenSheet
    | CloseSheet
    | OpenTable
    | CloseTable
    | OpenRow
    | CloseRow
    | CellEntry
    | Unknown

  /**
   * How far inside the document the output is: outside every element, or
   * inside the `<Styles>` table, a worksheet, its table or one of its rows.
   */
  datatype Level = Outside | InStyles | InSheet | InTable | InRow

  /** How many elements are open at each level. */
  function Depth(l: Level): nat
  {
    match l
    case Outside => 0
    case InStyles => 1
    case InSheet => 1
    case InTable => 2
    case InRow => 3
  }

  /** Where the document stands, and whether the `<Styles>` table has been written. */
  datatype Doc = Doc(level: Level, stylesWritten: bool)

  /**
   * One piece against the grammar: an element opens only inside the one
   * that contains it and closes as the innermost open one; there is one
   * `<Styles>` table and it comes before every worksheet; a style sits in
   * it; the workbook closes with nothing left open. Where a cell goes and
   * the workbook's opening tag are not followed: the writer checks neither.
   */
  function Step(d: Doc, k: Kind): Option<Doc>
  {
    match k
    case FileStart => Some(d)
    case FileEnd => if d.level == Outside then Some(d) else Option.None
    case OpenStyles => if d.level == Outside && !d.stylesWritten then Some(Doc(InStyles, false)) else Option.None
    case StyleEntry => if d.level == InStyles then Some(d) else Option.None
    case CloseStyles => if d.level == InStyles then Some(Doc(Outside, true)) else Option.None
    case OpenSheet => if d.level == Outside && d.stylesWritten then Some(Doc(InSheet, true)) else Option.None
    case CloseSheet => if d.level == InSheet then Some(Doc(Outside, d.stylesWritten)) else Option.None
    case OpenTable => if d.level == InSheet then Some(Doc(InTable, d.stylesWritten)) else Option.None
    case CloseTable => if d.level == InTable then Some(Doc(InSheet, d.stylesWritten)) else Option.None
    case OpenRow => if d.level == InTable then Some(Doc(InRow, d.stylesWritten)) else Option.None
    case CloseRow => if d.level == InRow then Some(Doc(InTable, d.stylesWritten)) else Option.None
    case CellEntry => Some(d)
    case Unknown => Option.None
  }

  /**
   * The kind of a piece of text, read off the tag it begins with: its
   * indentation first, then the tag's name; text that begins with no tag the
   * writer emits is `Unknown`.
   */
  function TagKind(t: string): Kind
  {
    if StartsWith(t, "    <") then
      (if StartsWith(t, "    <Cell") then CellEntry else Unknown)
    else if StartsWith(t, "   <") then
      (if StartsWith(t, "   <Row") then OpenRow
       else if StartsWith(t, "   </Row>") then CloseRow
       else Unknown)
    else if StartsWith(t, "  <") then
      (if StartsWith(t, "  <Style") then StyleEntry
       else if StartsWith(t, "  <Table") then OpenTable
       else if StartsWith(t, "  </Table>") then CloseTable
       else Unknown)
    else if StartsWith(t, " <") then
      (if StartsWith(t, " <Styles>") then OpenStyles
       else if StartsWith(t, " </Styles>") then CloseStyles
       else if StartsWith(t, " <Worksheet") then OpenSheet
       else if StartsWith(t, " </Worksheet>") then CloseSheet
       else Unknown)
    else if StartsWith(t, "<?xml") then FileStart
    else if StartsWith(t, "</Workbook>") then FileEnd
    else Unknown
  }

  // Text that begins with one of the writer's tags is of that tag's kind.

  lemma FileStartLead(t: string)
    requires StartsWith(t, "<?xml")
    ensures TagKind(t) == FileStart
  {
    assert t[..5] == "<?xml";
    assert t[0] == '<';
  }

  lemma FileEndLead(t: string)
    requires StartsWith(t, "</Workbook>")
    ensures TagKind(t) == FileEnd
  {
    assert t[..11] == "</Workbook>";
    assert t[0] == '<' && t[1] == '/';
  }

  lemma OpenStylesLead(t: string)
    requires StartsWith(t, " <Styles>")
    ensures TagKind(t) == OpenStyles
  {
    assert t[..9] == " <Styles>";
    assert t[0] == ' ' && t[1] == '<' && t[2] == 'S' && t[3] == 't';
  }

  lemma CloseStylesLead(t: string)
    requires StartsWith(t, " </Styles>")
    ensures TagKind(t) == CloseStyles
  {
    assert t[..10] == " </Styles>";
    assert t[0] == ' ' && t[1] == '<' && t[2] == '/' && t[3] == 'S';
  }

  lemma OpenSheetLead(t: string)
    requires StartsWith(t, " <Worksheet")
    ensures TagKind(t) == OpenSheet
  {
    assert t[..11] == " <Worksheet";
    assert t[0] == ' ' && t[1] == '<' && t[2] == 'W' && t[3] == 'o';
  }

  lemma CloseSheetLead(t: string)
    requires StartsWith(t, " </Worksheet>")
    ensures TagKind(t) == CloseSheet
  {
    assert t[..13] == " </Worksheet>";
    assert t[0] == ' ' && t[1] == '<' && t[2] == '/' && t[3] == 'W';
  }

  lemma StyleEntryLead(t: string)
    requires StartsWith(t, "  <Style")
    ensures TagKind(t) == StyleEntry
  {
    assert t[..8] == "  <Style";
    assert t[0] == ' ' && t[1] == ' ' && t[2] == '<' && t[3] == 'S';
  }

  lemma OpenTableLead(t: string)
    requires StartsWith(t, "  <Table")
    ensures TagKind(t) == OpenTable
  {
    assert t[..8] == "  <Table";
    assert t[0] == ' ' && t[1] == ' ' && t[2] == '<' && t[3] == 'T';
  }

  lemma CloseTableLead(t: string)
    requires StartsWith(t, "  </Table>")
    ensures TagKind(t) == CloseTable
  {
    assert t[..10] == "  </Table>";
    assert t[0] == ' ' && t[1] == ' ' && t[2] == '<' && t[3] == '/';
  }

  lemma OpenRowLead(t: string)
    requires StartsWith(t, "   <Row")
    ensures TagKind(t) == OpenRow
  {
    assert t[..7] == "   <Row";
    assert t[0] == ' ' && t[1] == ' ' && t[2] == ' ' && t[3] == '<' && t[4] == 'R';
  }

  lemma CloseRowLead(t: string)
    requires StartsWith(t, "   </Row>")
    ensures TagKind(t) == CloseRow
  {
    assert t[..9] == "   </Row>";
    assert t[0] == ' ' && t[1] == ' ' && t[2] == ' ' && t[3] == '<' && t[4] == '/';
  }

  lemma CellEntryLead(t: string)
    requires StartsWith(t, "    <Cell")
    ensures TagKind(t) == CellEntry
  {
    assert t[..9] == "    <Cell";
    assert t[0] == ' ' && t[1] == ' ' && t[2] == ' ' && t[3] == ' ' && t[4] == '<';
  }

  /** A step after a refused one is refused too. */
  function Then(d: Option<Doc>, k: Kind): Option<Doc>
  {
    if d.Some? then Step(d.value, k) else Option.None
  }

  /** The pieces written so far, the last one outermost. */
  datatype Trace = Start | Piece(before: Trace, kind: Kind)

  /** The kinds of the pieces, in the order they were written. */
  function Kinds(t: Trace): seq<Kind>
  {
    match t
    case Start => []
    case Piece(before, k) => Kinds(before) + [k]
  }

  /** Where a sequence of pieces leaves the document, or `None` when one is out of place. */
  function Replay(t: Trace): Option<Doc>
  {
    match t
    case Start => Some(Doc(Outside, false))
    case Piece(before, k) => Then(Replay(before), k)
  }

  /** The level a writer is at, from its three flags. */
  function WriterLevel(sheetOpen: bool, tablePending: bool, rowOpen: bool): Level
  {
    if !sheetOpen then Outside
    else if tablePending then InSheet
    else if !rowOpen then InTable
    else InRow
  }

  // ---------------------------------------------------------------------------
  // What the grammar guarantees

  /** The `<Styles>` table is written before any worksheet is open, and only once. */
  predicate Reachable(d: Doc)
  {
    (d.level == InStyles ==> !d.stylesWritten) &&
    (d.level != Outside && d.level != InStyles ==> d.stylesWritten)
  }

  /** Every accepted sequence of pieces leaves the document in such a state. */
  lemma {:induction false} ReplayReachable(t: Trace)
    requires Replay(t).Some?
    ensures Reachable(Replay(t).value)
  {
    if t.Piece? {
      ReplayReachable(t.before);
    }
  }

  predicate IsOpen(k: Kind)
  {
    k.OpenStyles? || k.OpenSheet? || k.OpenTable? || k.OpenRow?
  }

  predicate IsClose(k: Kind)
  {
    k.CloseStyles? || k.CloseSheet? || k.CloseTable? || k.CloseRow?
  }

  /** How many pieces open an element, and how many close one. */
  function Opens(t: Trace): nat
  {
    match t
    case Start => 0
    case Piece(before, k) => Opens(before) + (if IsOpen(k) then 1 else 0)
  }

  function Closes(t: Trace): nat
  {
    match t
    case Start => 0
    case Piece(before, k) => Closes(before) + (if IsClose(k) then 1 else 0)
  }

  /** Every element still open was opened and not closed; so nothing open means balanced. */
  lemma {:induction false} ReplayBalance(t: Trace)
    requires Replay(t).Some?
    ensures Opens(t) == Closes(t) + Depth(Replay(t).value.level)
  {
    if t.Piece? {
      ReplayBalance(t.before);
      ReplayReachable(t.before);
    }
  }

  /** How many times the `<Styles>` table was opened. */
  function StylesOpened(t: Trace): nat
  {
    match t
    case Start => 0
    case Piece(before, k) => StylesOpened(before) + (if k.OpenStyles? then 1 else 0)
  }

  /** The `<Styles>` table is written at most once, and it has been opened exactly when the document says so. */
  lemma {:induction false} StylesAtMostOnce(t: Trace)
    requires Replay(t).Some?
    ensures StylesOpened(t) == if Replay(t).value.stylesWritten || Replay(t).value.level == InStyles then 1 else 0
  {
    if t.Piece? {
      StylesAtMostOnce(t.before);
      ReplayReachable(t.before);
    }
  }

  /** Once the `<Styles>` table is written, its closing tag is among the pieces. */
  lemma {:induction false} StylesWrittenClosed(t: Trace)
    requires Replay(t).Some? && Replay(t).value.stylesWritten
    ensures exists j :: 0 <= j < |Kinds(t)| && Kinds(t)[j] == CloseStyles
  {
    var ks := Kinds(t);
    assert t.Piece?;
    if t.kind == CloseStyles {
      assert ks[|ks| - 1] == CloseStyles;
    } else {
      StylesWrittenClosed(t.before);
      var j :| 0 <= j < |Kinds(t.before)| && Kinds(t.before)[j] == CloseStyles;
      assert ks[j] == Kinds(t.before)[j];
    }
  }

  /** Every worksheet comes after the `<Styles>` table has been closed. */
  lemma {:induction false} StylesBeforeSheets(t: Trace, i: nat)
    requires Replay(t).Some? && i < |Kinds(t)| && Kinds(t)[i] == OpenSheet
    ensures exists j :: 0 <= j < i && Kinds(t)[j] == CloseStyles
  {
    assert t.Piece?;
    var ks, pre := Kinds(t), Kinds(t.before);
    assert ks == pre + [t.kind];
    if i == |pre| {
      StylesWrittenClosed(t.before);
      var j :| 0 <= j < |pre| && pre[j] == CloseStyles;
      assert ks[j] == pre[j];
    } else {
      assert pre[i] == ks[i];
      StylesBeforeSheets(t.before, i);
      var j :| 0 <= j < i && pre[j] == CloseStyles;
      assert ks[j] == pre[j];
    }
  }
}
