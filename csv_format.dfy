/**
 * The text the CSV writer (csv/index.js) produces: its escaping of values,
 * the cells it writes, and a reader for that text. Every cell is written as
 * `"…",` and every row ends with a line feed; the reader takes such text back
 * apart into its cells and line ends.
 */
module CsvFormat {
  import opened Wrappers
  import opened Text
  import opened Dates
  import opened Types

  // ---------------------------------------------------------------------------
  // Escaping

  const LineBreaks: set<char> := {'\n', '\r'}

  /** Line feeds and carriage returns each become a space. */
  function Flatten(s: string): string
  {
    Replace(s, LineBreaks, " ")
  }

  /** Every double quote doubled. */
  function DoubleQuotes(s: string): string
  {
    Replace(s, {'"'}, "\"\"")
  }

  /** Line breaks become spaces and double quotes are doubled (lines 3-7). */
  function PrepareString(s: string): string
  {
    DoubleQuotes(Flatten(s))
  }

  /** Text inside a quoted field: every double quote is one of a doubled pair. */
  predicate WellQuoted(f: string)
    decreases |f|
  {
    if f == [] then true
    else if f[0] == '"' then |f| >= 2 && f[1] == '"' && WellQuoted(f[2..])
    else WellQuoted(f[1..])
  }

  /** Each doubled double quote read as one. */
  function Undouble(f: string): string
    decreases |f|
  {
    if f == [] then []
    else if |f| >= 2 && f[0] == '"' && f[1] == '"' then "\"" + Undouble(f[2..])
    else [f[0]] + Undouble(f[1..])
  }

  /** Doubling the quotes leaves a well-quoted text that reads back to the original. */
  lemma {:induction false} DoubleQuotesReadBack(s: string)
    ensures WellQuoted(DoubleQuotes(s))
    ensures Undouble(DoubleQuotes(s)) == s
  {
    if s != [] {
      var rest := DoubleQuotes(s[1..]);
      DoubleQuotesReadBack(s[1..]);
      var t := DoubleQuotes(s);
      if s[0] == '"' {
        assert t == "\"\"" + rest;
        assert t[2..] == rest;
      } else {
        assert t == [s[0]] + rest;
        assert t[1..] == rest;
      }
    }
  }

  /** The escaped text is a well-quoted field that reads back to the value with its line breaks made spaces. */
  lemma PrepareStringReadBack(s: string)
    ensures WellQuoted(PrepareString(s))
    ensures Undouble(PrepareString(s)) == Flatten(s)
  {
    DoubleQuotesReadBack(Flatten(s));
  }

  /** Replacement leaves only characters of the replacement or characters not replaced. */
  lemma {:induction false} ReplaceLeaves(s: string, cs: set<char>, r: string, c: char)
    requires c in Replace(s, cs, r)
    ensures c in r || (c in s && c !in cs)
  {
    assert s != [];
    var head := if s[0] in cs then r else [s[0]];
    assert Replace(s, cs, r) == head + Replace(s[1..], cs, r);
    if c !in head {
      ReplaceLeaves(s[1..], cs, r, c);
      assert c in r || c in s[1..];
    }
  }

  /** The escaped text stays on one line. */
  lemma PrepareStringOneLine(s: string)
    ensures '\n' !in PrepareString(s) && '\r' !in PrepareString(s)
  {
    forall c | c in PrepareString(s) && c in LineBreaks
      ensures false
    {
      ReplaceLeaves(Flatten(s), {'"'}, "\"\"", c);
      ReplaceLeaves(s, LineBreaks, " ", c);
    }
  }

  /** Text with no line break and no double quote is written as it is. */
  lemma PrepareStringPlain(s: string)
    requires '\n' !in s && '\r' !in s && '"' !in s
    ensures PrepareString(s) == s
  {
    ReplaceAbsent(s, LineBreaks, " ");
    ReplaceMissing(s, '"', "\"\"");
  }

  // ---------------------------------------------------------------------------
  // Cells

  /** The text between the quotes of a cell: a date in the XML date-time layout, a boolean as `1` or `0`, anything else escaped. */
  function CellField(v: CellValue): string
  {
    match v
    case Date(d) => ToXmlDateTime(d)
    case Bool(b) => if b then "1" else "0"
    case Num(text) => PrepareString(text)
    case Str(s) => PrepareString(s)
  }

  /** What a reader gets back from a cell: the value's text, with its line breaks made spaces. */
  function CellReading(v: CellValue): string
  {
    match v
    case Date(d) => ToXmlDateTime(d)
    case Bool(b) => if b then "1" else "0"
    case Num(text) => Flatten(text)
    case Str(s) => Flatten(s)
  }

  lemma {:induction false} NoQuoteWellQuoted(f: string)
    requires '"' !in f
    ensures WellQuoted(f) && Undouble(f) == f
  {
    if f != [] {
      assert f[0] in f;
      assert forall c | c in f[1..] :: c in f;
      NoQuoteWellQuoted(f[1..]);
      assert f == [f[0]] + f[1..];
    }
  }

  /** Every cell's text is a well-quoted field on one line, and it reads back to the value. */
  lemma CellFieldReadBack(v: CellValue)
    ensures WellQuoted(CellField(v))
    ensures Undouble(CellField(v)) == CellReading(v)
    ensures '\n' !in CellField(v) && '\r' !in CellField(v)
  {
    match v
    case Date(d) =>
      var t := ToXmlDateTime(d);
      DateTimeChars(d);
      forall c | c in t
        ensures c != '"' && c != '\n' && c != '\r'
      {
        var i :| 0 <= i < |t| && t[i] == c;
        assert DateTimeChar(t[i]);
      }
      NoQuoteWellQuoted(t);
    case Bool(b) =>
      NoQuoteWellQuoted(CellField(v));
    case Num(text) =>
      PrepareStringReadBack(text);
      PrepareStringOneLine(text);
    case Str(s) =>
      PrepareStringReadBack(s);
      PrepareStringOneLine(s);
  }

  /** Every cell's text is a well-quoted field. */
  lemma CellFieldWellQuoted(v: CellValue)
    ensures WellQuoted(CellField(v))
  {
    CellFieldReadBack(v);
  }

  // ---------------------------------------------------------------------------
  // The written text, piece by piece

  /** One piece of output: a cell, holding the text between its quotes, or the end of a row. */
  datatype Item = Cell(field: string) | LineEnd

  function ItemText(x: Item): string
  {
    match x
    case Cell(f) => "\"" + f + "\","
    case LineEnd => "\n"
  }

  /** The text of the pieces, in order. */
  function Render(items: seq<Item>): string
  {
    if items == [] then "" else ItemText(items[0]) + Render(items[1..])
  }

  /** Writing one more piece appends its text. */
  lemma {:induction false} RenderSnoc(items: seq<Item>, x: Item)
    ensures Render(items + [x]) == Render(items) + ItemText(x)
  {
    if items == [] {
      assert [] + [x] == [x];
      assert [x][1..] == [];
    } else {
      assert (items + [x])[0] == items[0];
      assert (items + [x])[1..] == items[1..] + [x];
      RenderSnoc(items[1..], x);
    }
  }

  /** Every cell's text is well quoted. */
  predicate AllWellQuoted(items: seq<Item>)
  {
    forall i | 0 <= i < |items| :: items[i].Cell? ==> WellQuoted(items[i].field)
  }

  /** One more piece keeps every cell well quoted exactly when it is itself well quoted, or a row end. */
  lemma WellQuotedSnoc(items: seq<Item>, x: Item)
    ensures AllWellQuoted(items + [x]) <==> AllWellQuoted(items) && (x.Cell? ==> WellQuoted(x.field))
  {
    var all := items + [x];
    assert all[|items|] == x;
    assert forall i | 0 <= i < |items| :: all[i] == items[i];
  }

  /** Regroups a list of items; the writer names this step when one call appends several items. */
  lemma AppendAssoc(a: seq<Item>, b: seq<Item>, c: seq<Item>)
    ensures (a + b) + c == a + (b + c)
  {
  }

  /** The text of a list is the text of its first item, then the rest. */
  lemma RenderCons(x: Item, rest: seq<Item>)
    ensures Render([x] + rest) == ItemText(x) + Render(rest)
  {
    assert ([x] + rest)[1..] == rest;
  }

  /** Writing several pieces appends their texts. */
  lemma {:induction false} RenderAppend(items: seq<Item>, more: seq<Item>)
    ensures Render(items + more) == Render(items) + Render(more)
    decreases |more|
  {
    if more == [] {
      assert items + more == items;
    } else {
      var init := more[..|more| - 1];
      var last := more[|more| - 1];
      assert more == init + [last];
      assert items + more == (items + init) + [last];
      RenderAppend(items, init);
      RenderSnoc(items + init, last);
      RenderSnoc(init, last);
    }
  }

  /** The pieces as a reader sees them: each cell's doubled quotes read as one. */
  function Readings(items: seq<Item>): (r: seq<Item>)
    ensures |r| == |items|
  {
    if items == [] then []
    else (if items[0].Cell? then [Cell(Undouble(items[0].field))] else [LineEnd]) + Readings(items[1..])
  }

  // ---------------------------------------------------------------------------
  // Reading the text back

  function Push(c: char, r: Option<(string, string)>): Option<(string, string)>
  {
    if r.Some? then Some(([c] + r.value.0, r.value.1)) else Option.None
  }

  /**
   * The rest of a quoted field, after its opening quote: its text, with
   * doubled quotes read as one, and what follows the closing quote.
   */
  function ReadQuoted(t: string): (r: Option<(string, string)>)
    ensures r.Some? ==> |r.value.1| < |t|
    decreases |t|
  {
    if t == [] then Option.None
    else if t[0] == '"' then
      if |t| >= 2 && t[1] == '"' then Push('"', ReadQuoted(t[2..])) else Some(([], t[1..]))
    else Push(t[0], ReadQuoted(t[1..]))
  }

  /** A quoted field followed by a comma: its text and what follows the comma. */
  function ReadField(t: string): (r: Option<(string, string)>)
    ensures r.Some? ==> |r.value.1| < |t|
  {
    if t != [] && t[0] == '"' then
      var q := ReadQuoted(t[1..]);
      if q.Some? && q.value.1 != [] && q.value.1[0] == ',' then Some((q.value.0, q.value.1[1..])) else Option.None
    else Option.None
  }

  function Prepend(x: Item, r: Option<seq<Item>>): Option<seq<Item>>
  {
    if r.Some? then Some([x] + r.value) else Option.None
  }

  /** The cells and row ends of a text, or `None` when it is not made of them. */
  function ReadItems(t: string): Option<seq<Item>>
    decreases |t|
  {
    if t == [] then Some([])
    else if t[0] == '\n' then Prepend(LineEnd, ReadItems(t[1..]))
    else
      var f := ReadField(t);
      if f.Some? then Prepend(Cell(f.value.0), ReadItems(f.value.1)) else Option.None
  }

  /** A well-quoted text is read up to the quote that closes it. */
  lemma {:induction false} ReadQuotedField(f: string, rest: string)
    requires WellQuoted(f)
    ensures ReadQuoted(f + "\"," + rest) == Some((Undouble(f), "," + rest))
    decreases |f|
  {
    var t := f + "\"," + rest;
    if f == [] {
      assert t == "\"," + rest;
      assert t[1..] == "," + rest;
    } else if f[0] == '"' {
      assert t[2..] == f[2..] + "\"," + rest;
      ReadQuotedField(f[2..], rest);
    } else {
      assert t[1..] == f[1..] + "\"," + rest;
      ReadQuotedField(f[1..], rest);
    }
  }

  lemma ReadCellText(f: string, rest: string)
    requires WellQuoted(f)
    ensures ReadItems(ItemText(Cell(f)) + rest) == Prepend(Cell(Undouble(f)), ReadItems(rest))
  {
    var t := ItemText(Cell(f)) + rest;
    assert t[0] == '"';
    assert t[1..] == f + "\"," + rest;
    ReadQuotedField(f, rest);
    assert ("," + rest)[1..] == rest;
    assert ReadField(t) == Some((Undouble(f), rest));
  }

  lemma ReadItemText(x: Item, rest: string)
    requires x.Cell? ==> WellQuoted(x.field)
    ensures ReadItems(ItemText(x) + rest) ==
      Prepend(if x.Cell? then Cell(Undouble(x.field)) else LineEnd, ReadItems(rest))
  {
    if x.Cell? {
      ReadCellText(x.field, rest);
    } else {
      var t := ItemText(x) + rest;
      assert t[0] == '\n';
      assert t[1..] == rest;
    }
  }

  /** Whatever pieces were written, a reader gets them back, as long as every cell's text is well quoted. */
  lemma {:induction false} ReadBack(items: seq<Item>)
    requires AllWellQuoted(items)
    ensures ReadItems(Render(items)) == Some(Readings(items))
  {
    if items != [] {
      assert AllWellQuoted(items[1..]) by {
        forall i | 0 <= i < |items[1..]| ensures items[1..][i].Cell? ==> WellQuoted(items[1..][i].field) {
          assert items[1..][i] == items[i + 1];
        }
      }
      ReadBack(items[1..]);
      assert items[0].Cell? ==> WellQuoted(items[0].field);
      ReadItemText(items[0], Render(items[1..]));
    }
  }

  /** An example: in the cell `a"b` the lone double quote closes the field early, and the output cannot be read back. */
  lemma LoneQuoteUnreadable()
    ensures ReadItems(Render([Cell("a\"b")])) == Option.None
  {
    var t := Render([Cell("a\"b")]);
    assert [Cell("a\"b")][1..] == [];
    assert t == "\"a\"b\",";
    assert t[1..] == "a\"b\",";
    assert ReadQuoted("\"b\",") == Some(([], "b\","));
    assert ("a\"b\",")[1..] == "\"b\",";
    assert ['a'] + [] == "a";
    assert ReadQuoted(t[1..]) == Some(("a", "b\","));
    assert ReadField(t) == Option.None;
  }
}
