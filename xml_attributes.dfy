/**
 * The `ss:` attributes of SpreadsheetML elements: each is written as
 * ` ss:Name="value"` with nothing between the quotes escaped, so an attribute
 * list reads back exactly when no value holds a double quote.
 */
module XmlAttributes {
  import opened Wrappers

  /** Every attribute name the XML writer emits. */
  datatype AttrName =
    | ID | Name | Parent | Format | Type | ExpandedColumnCount
    | StyleID | MergeAcross | MergeDown | Formula
    | Height | AutoFitHeight | Width | AutoFitWidth
    | Horizontal | Indent | ReadingOrder | Rotate | ShrinkToFit | Vertical | VerticalText | WrapText
    | Position | Color | LineStyle | Weight
    | Pattern | PatternColor
    | Bold | FontName | Italic | Outline | Shadow | Size | StrikeThrough | Underline
    | VerticalAlign | CharSet | Family

  function AttrNameText(n: AttrName): string
  {
    match n
    case ID => "ID"
    case Name => "Name"
    case Parent => "Parent"
    case Format => "Format"
    case Type => "Type"
    case ExpandedColumnCount => "ExpandedColumnCount"
    case StyleID => "StyleID"
    case MergeAcross => "MergeAcross"
    case MergeDown => "MergeDown"
    case Formula => "Formula"
    case Height => "Height"
    case AutoFitHeight => "AutoFitHeight"
    case Width => "Width"
    case AutoFitWidth => "AutoFitWidth"
    case Horizontal => "Horizontal"
    case Indent => "Indent"
    case ReadingOrder => "ReadingOrder"
    case Rotate => "Rotate"
    case ShrinkToFit => "ShrinkToFit"
    case Vertical => "Vertical"
    case VerticalText => "VerticalText"
    case WrapText => "WrapText"
    case Position => "Position"
    case Color => "Color"
    case LineStyle => "LineStyle"
    case Weight => "Weight"
    case Pattern => "Pattern"
    case PatternColor => "PatternColor"
    case Bold => "Bold"
    case FontName => "FontName"
    case Italic => "Italic"
    case Outline => "Outline"
    case Shadow => "Shadow"
    case Size => "Size"
    case StrikeThrough => "StrikeThrough"
    case Underline => "Underline"
    case VerticalAlign => "VerticalAlign"
    case CharSet => "CharSet"
    case Family => "Family"
  }

  /**
   * No attribute name holds the `=` that ends it. The names are checked
   * four at a time: one proof over all of them at once is too large for
   * the solver.
   */
  lemma NameWithoutEquals(n: AttrName)
    ensures '=' !in AttrNameText(n)
  {
    if n == ID || n == Name || n == Parent || n == Format {
      NamesWithoutEquals0(n);
    } else if n == Type || n == ExpandedColumnCount || n == StyleID || n == MergeAcross {
      NamesWithoutEquals1(n);
    } else if n == MergeDown || n == Formula || n == Height || n == AutoFitHeight {
      NamesWithoutEquals2(n);
    } else if n == Width || n == AutoFitWidth || n == Horizontal || n == Indent {
      NamesWithoutEquals3(n);
    } else if n == ReadingOrder || n == Rotate || n == ShrinkToFit || n == Vertical {
      NamesWithoutEquals4(n);
    } else if n == VerticalText || n == WrapText || n == Position || n == Color {
      NamesWithoutEquals5(n);
    } else if n == LineStyle || n == Weight || n == Pattern || n == PatternColor {
      NamesWithoutEquals6(n);
    } else if n == Bold || n == FontName || n == Italic || n == Outline {
      NamesWithoutEquals7(n);
    } else if n == Shadow || n == Size || n == StrikeThrough || n == Underline {
      NamesWithoutEquals8(n);
    } else {
      NamesWithoutEquals9(n);
    }
  }

  lemma NamesWithoutEquals0(n: AttrName)
    requires n == ID || n == Name || n == Parent || n == Format
    ensures '=' !in AttrNameText(n)
  {
  }

  lemma NamesWithoutEquals1(n: AttrName)
    requires n == Type || n == ExpandedColumnCount || n == StyleID || n == MergeAcross
    ensures '=' !in AttrNameText(n)
  {
  }

  lemma NamesWithoutEquals2(n: AttrName)
    requires n == MergeDown || n == Formula || n == Height || n == AutoFitHeight
    ensures '=' !in AttrNameText(n)
  {
  }

  lemma NamesWithoutEquals3(n: AttrName)
    requires n == Width || n == AutoFitWidth || n == Horizontal || n == Indent
    ensures '=' !in AttrNameText(n)
  {
  }

  lemma NamesWithoutEquals4(n: AttrName)
    requires n == ReadingOrder || n == Rotate || n == ShrinkToFit || n == Vertical
    ensures '=' !in AttrNameText(n)
  {
  }

  lemma NamesWithoutEquals5(n: AttrName)
    requires n == VerticalText || n == WrapText || n == Position || n == Color
    ensures '=' !in AttrNameText(n)
  {
  }

  lemma NamesWithoutEquals6(n: AttrName)
    requires n == LineStyle || n == Weight || n == Pattern || n == PatternColor
    ensures '=' !in AttrNameText(n)
  {
  }

  lemma NamesWithoutEquals7(n: AttrName)
    requires n == Bold || n == FontName || n == Italic || n == Outline
    ensures '=' !in AttrNameText(n)
  {
  }

  lemma NamesWithoutEquals8(n: AttrName)
    requires n == Shadow || n == Size || n == StrikeThrough || n == Underline
    ensures '=' !in AttrNameText(n)
  {
  }

  lemma NamesWithoutEquals9(n: AttrName)
    requires n == VerticalAlign || n == CharSet || n == Family
    ensures '=' !in AttrNameText(n)
  {
  }

  datatype Attr = Attr(name: AttrName, value: string)

  /** What precedes every attribute name. */
  const Lead := " ss:"

  /** ` ss:name="value"`. */
  function AttrText(a: Attr): string
  {
    Lead + AttrNameText(a.name) + ['=', '"'] + a.value + ['"']
  }

  /** The attributes in order. */
  function RenderAttrs(attrs: seq<Attr>): string
  {
    if attrs == [] then "" else AttrText(attrs[0]) + RenderAttrs(attrs[1..])
  }

  /** The value of the first attribute called `n`. */
  function Lookup(attrs: seq<Attr>, n: AttrName): Option<string>
  {
    if attrs == [] then None
    else if attrs[0].name == n then Some(attrs[0].value)
    else Lookup(attrs[1..], n)
  }

  /** The names the list holds. */
  function Names(attrs: seq<Attr>): set<AttrName>
  {
    if attrs == [] then {} else {attrs[0].name} + Names(attrs[1..])
  }

  /** No attribute name occurs twice. */
  predicate Unique(attrs: seq<Attr>)
  {
    attrs == [] || (attrs[0].name !in Names(attrs[1..]) && Unique(attrs[1..]))
  }

  /** `Some(v)` when `present`: an attribute the writer writes only under a condition. */
  function When(present: bool, v: string): Option<string>
  {
    if present then Some(v) else None
  }

  /**
   * An attribute as the writer handles it, in the place it may be written:
   * its name and, when the writer's condition for it holds, its value.
   */
  datatype Slot = Slot(name: AttrName, value: Option<string>)

  /** The slots of `names`, each holding the value in the same place of `values`. */
  function Zip(names: seq<AttrName>, values: seq<Option<string>>): (r: seq<Slot>)
    ensures |r| == if |names| < |values| then |names| else |values|
  {
    if names == [] || values == [] then [] else [Slot(names[0], values[0])] + Zip(names[1..], values[1..])
  }

  lemma {:induction false} ZipAt(names: seq<AttrName>, values: seq<Option<string>>, k: nat)
    requires k < |names| && k < |values|
    ensures Zip(names, values)[k] == Slot(names[k], values[k])
  {
    if k > 0 {
      ZipAt(names[1..], values[1..], k - 1);
    }
  }

  predicate Distinct(names: seq<AttrName>)
  {
    forall i, j | 0 <= i < j < |names| :: names[i] != names[j]
  }

  /** Slots of distinct names have distinct names. */
  lemma DistinctZip(names: seq<AttrName>, values: seq<Option<string>>)
    requires Distinct(names)
    ensures DistinctSlots(Zip(names, values))
  {
    var r := Zip(names, values);
    forall i, j | 0 <= i < j < |r| ensures r[i].name != r[j].name {
      ZipAt(names, values, i);
      ZipAt(names, values, j);
    }
  }

  /** Among slots of distinct names, the one in place `k` is the one its name finds. */
  lemma ZipValue(names: seq<AttrName>, values: seq<Option<string>>, k: nat, n: AttrName)
    requires Distinct(names) && k < |names| && k < |values| && names[k] == n
    ensures SlotValue(Zip(names, values), n) == values[k]
  {
    DistinctZip(names, values);
    ZipAt(names, values, k);
    SlotAt(Zip(names, values), k);
  }

  /** Every attribute written from the slots carries one of their values. */
  lemma {:induction false} PresentValues(names: seq<AttrName>, values: seq<Option<string>>)
    ensures forall a | a in Present(Zip(names, values)) :: Some(a.value) in values
  {
    if names != [] && values != [] {
      PresentValues(names[1..], values[1..]);
      var z := Zip(names, values);
      assert z[1..] == Zip(names[1..], values[1..]);
      assert forall v | v in values[1..] :: v in values;
    }
  }

  /** The attributes the slots write, in order: those that hold a value. */
  function Present(slots: seq<Slot>): seq<Attr>
  {
    if slots == [] then []
    else if slots[0].value.Some? then [Attr(slots[0].name, slots[0].value.value)] + Present(slots[1..])
    else Present(slots[1..])
  }

  /** The value of the first slot called `n`. */
  function SlotValue(slots: seq<Slot>, n: AttrName): Option<string>
  {
    if slots == [] then None
    else if slots[0].name == n then slots[0].value
    else SlotValue(slots[1..], n)
  }

  /** No name has two slots. */
  predicate DistinctSlots(slots: seq<Slot>)
  {
    forall i, j | 0 <= i < j < |slots| :: slots[i].name != slots[j].name
  }

  /** What the first slot contributes to the lookups and names of the list. */
  lemma PresentStep(slots: seq<Slot>)
    requires slots != []
    ensures var r := Present(slots); var rest := Present(slots[1..]); var s := slots[0];
      (forall n :: Lookup(r, n) == if s.value.Some? && s.name == n then s.value else Lookup(rest, n)) &&
      Names(r) == (if s.value.Some? then {s.name} else {}) + Names(rest) &&
      (Unique(rest) && s.name !in Names(rest) ==> Unique(r))
  {
    var r := Present(slots);
    if slots[0].value.Some? {
      assert r[0] == Attr(slots[0].name, slots[0].value.value) && r[1..] == Present(slots[1..]);
    }
  }

  /** Dropping the first slot keeps the names distinct, and its name is in no other slot. */
  lemma DistinctTail(slots: seq<Slot>)
    requires slots != [] && DistinctSlots(slots)
    ensures DistinctSlots(slots[1..]) && forall n :: SlotValue(slots[1..], n).Some? ==> n != slots[0].name
  {
    var tail := slots[1..];
    forall i, j | 0 <= i < j < |tail| ensures tail[i].name != tail[j].name {
      assert tail[i] == slots[i + 1] && tail[j] == slots[j + 1];
    }
    forall n | SlotValue(tail, n).Some? ensures n != slots[0].name {
      var k := SlotIndex(tail, n);
      assert tail[k] == slots[k + 1];
    }
  }

  /** Among slots with distinct names, each slot's value is what looking up its name gives. */
  lemma {:induction false} SlotAt(slots: seq<Slot>, k: nat)
    requires DistinctSlots(slots) && k < |slots|
    ensures SlotValue(slots, slots[k].name) == slots[k].value
  {
    if k > 0 {
      DistinctTail(slots);
      assert slots[1..][k - 1] == slots[k];
      assert slots[0].name != slots[k].name;
      SlotAt(slots[1..], k - 1);
    }
  }

  /** The position of the slot a lookup finds. */
  function SlotIndex(slots: seq<Slot>, n: AttrName): (k: nat)
    requires SlotValue(slots, n).Some?
    ensures k < |slots| && slots[k] == Slot(n, SlotValue(slots, n))
  {
    if slots[0].name == n then 0 else SlotIndex(slots[1..], n) + 1
  }

  /**
   * The list an element writes: each name at most once, with the value its
   * slot holds, and no name without a value.
   */
  lemma {:induction false} PresentLookup(slots: seq<Slot>)
    requires DistinctSlots(slots)
    ensures forall n :: Lookup(Present(slots), n) == SlotValue(slots, n)
    ensures forall n :: n in Names(Present(slots)) <==> SlotValue(slots, n).Some?
    ensures Unique(Present(slots))
    ensures forall a | a in Present(slots) :: Slot(a.name, Some(a.value)) in slots
  {
    if slots != [] {
      var tail := slots[1..];
      DistinctTail(slots);
      PresentLookup(tail);
      PresentStep(slots);
      var r := Present(slots);
      assert forall s | s in tail :: s in slots;
      if slots[0].value.Some? {
        assert forall a | a in r :: a == r[0] || a in r[1..];
      }
    }
  }

  /** A list none of whose values holds a double quote. */
  lemma {:induction false} QuoteFreeAll(attrs: seq<Attr>)
    requires forall a | a in attrs :: '"' !in a.value
    ensures QuoteFree(attrs)
  {
    if attrs != [] {
      assert attrs[0] in attrs;
      assert forall a | a in attrs[1..] :: a in attrs;
      QuoteFreeAll(attrs[1..]);
    }
  }

  /** No value can close its quotes early. */
  predicate QuoteFree(attrs: seq<Attr>)
  {
    attrs == [] || ('"' !in attrs[0].value && QuoteFree(attrs[1..]))
  }

  // ---------------------------------------------------------------------------
  // Reading attributes back

  /** `s` split around the first `c`. */
  function SplitAt(s: string, c: char): (r: Option<(string, string)>)
    ensures r.None? <==> c !in s
    ensures r.Some? ==> s == r.value.0 + [c] + r.value.1 && c !in r.value.0
  {
    if s == [] then None
    else if s[0] == c then
      assert s == [] + [c] + s[1..];
      Some(([], s[1..]))
    else
      match SplitAt(s[1..], c)
      case None => None
      case Some((a, b)) =>
        assert s == [s[0]] + a + [c] + b;
        Some(([s[0]] + a, b))
  }

  lemma {:induction false} SplitAtConcat(a: string, c: char, b: string)
    requires c !in a
    ensures SplitAt(a + [c] + b, c) == Some((a, b))
  {
    var s := a + [c] + b;
    if a == [] {
      assert s[0] == c && s[1..] == b;
    } else {
      assert s[0] == a[0] && s[1..] == a[1..] + [c] + b;
      SplitAtConcat(a[1..], c, b);
      assert [a[0]] + a[1..] == a;
    }
  }

  /** The name, the value and what follows, of the attribute `t` starts with. */
  function ParseOne(t: string): (r: Option<(string, string, string)>)
    ensures r.Some? ==> |r.value.2| < |t|
  {
    if |t| < |Lead| || t[..|Lead|] != Lead then None
    else
      match SplitAt(t[|Lead|..], '=')
      case None => None
      case Some((name, after)) =>
        if after == [] || after[0] != '"' then None
        else
          match SplitAt(after[1..], '"')
          case None => None
          case Some((value, rest)) => Some((name, value, rest))
  }

  /** The (name, value) pairs of a run of ` ss:name="value"` attributes. */
  function ParseAttrs(t: string): Option<seq<(string, string)>>
    decreases |t|
  {
    if t == [] then Some([])
    else
      match ParseOne(t)
      case None => None
      case Some((name, value, rest)) =>
        match ParseAttrs(rest)
        case None => None
        case Some(more) => Some([(name, value)] + more)
  }

  /**
   * The (name, value) pairs of the attributes `t` begins with, and the text
   * after the last of them: reading stops where no attribute begins.
   */
  function ReadRun(t: string): (seq<(string, string)>, string)
    decreases |t|
  {
    match ParseOne(t)
    case None => ([], t)
    case Some((name, value, rest)) =>
      var (more, after) := ReadRun(rest);
      ([(name, value)] + more, after)
  }

  /** The (name, value) text pairs of an attribute list. */
  function Pairs(attrs: seq<Attr>): seq<(string, string)>
  {
    if attrs == [] then [] else [(AttrNameText(attrs[0].name), attrs[0].value)] + Pairs(attrs[1..])
  }

  /** A name without `=` and a value without `"` read back from ` ss:name="value"`. */
  lemma ParseOneText(n: string, v: string, rest: string)
    requires '=' !in n && '"' !in v
    ensures ParseOne(Lead + n + ['=', '"'] + v + ['"'] + rest) == Some((n, v, rest))
  {
    var t := Lead + n + ['=', '"'] + v + ['"'] + rest;
    var after := ['"'] + v + ['"'] + rest;
    assert t[..|Lead|] == Lead;
    assert t[|Lead|..] == n + ['='] + after;
    SplitAtConcat(n, '=', after);
    assert after[1..] == v + ['"'] + rest;
    SplitAtConcat(v, '"', rest);
  }

  /** An attribute reads back as its name and value. */
  lemma ParseAttrText(a: Attr, rest: string)
    requires '"' !in a.value
    ensures ParseOne(AttrText(a) + rest) == Some((AttrNameText(a.name), a.value, rest))
  {
    var n := AttrNameText(a.name);
    NameWithoutEquals(a.name);
    ParseOneText(n, a.value, rest);
  }

  /** A quote-free attribute list reads back as its names and values. */
  lemma {:induction false} ParseRenderAttrs(attrs: seq<Attr>)
    requires QuoteFree(attrs)
    ensures ParseAttrs(RenderAttrs(attrs)) == Some(Pairs(attrs))
  {
    if attrs != [] {
      ParseAttrText(attrs[0], RenderAttrs(attrs[1..]));
      assert RenderAttrs(attrs) != [];
      ParseRenderAttrs(attrs[1..]);
    }
  }

  /** A run of quote-free attributes, followed by text no attribute begins, reads back as its pairs and that text. */
  lemma {:induction false} ReadRunRender(attrs: seq<Attr>, rest: string)
    requires QuoteFree(attrs) && ParseOne(rest).None?
    ensures ReadRun(RenderAttrs(attrs) + rest) == (Pairs(attrs), rest)
  {
    if attrs == [] {
      assert RenderAttrs(attrs) + rest == rest;
    } else {
      var tail := RenderAttrs(attrs[1..]) + rest;
      assert RenderAttrs(attrs) + rest == AttrText(attrs[0]) + tail;
      ParseAttrText(attrs[0], tail);
      ReadRunRender(attrs[1..], rest);
    }
  }

  /** A single quote-free attribute reads back as its name and value. */
  lemma ParseSingleAttr(a: Attr)
    requires '"' !in a.value
    ensures ParseAttrs(AttrText(a)) == Some([(AttrNameText(a.name), a.value)])
  {
    var t := AttrText(a);
    ParseAttrText(a, "");
    assert t + "" == t;
    assert t != [] by { assert |t| >= |Lead|; }
    assert ParseOne(t) == Some((AttrNameText(a.name), a.value, ""));
    assert ParseAttrs("") == Some([]);
    assert [(AttrNameText(a.name), a.value)] + [] == [(AttrNameText(a.name), a.value)];
  }

  /** The text of the slots that hold a value, in order. */
  function RenderSlots(slots: seq<Slot>): string
  {
    if slots == [] then ""
    else (if slots[0].value.Some? then AttrText(Attr(slots[0].name, slots[0].value.value)) else "") + RenderSlots(slots[1..])
  }

  /** Writing the slots is writing the attributes `Present` lists. */
  lemma {:induction false} RenderSlotsPresent(slots: seq<Slot>)
    ensures RenderSlots(slots) == RenderAttrs(Present(slots))
  {
    if slots != [] {
      RenderSlotsPresent(slots[1..]);
      if slots[0].value.Some? {
        var a := Attr(slots[0].name, slots[0].value.value);
        var rest := Present(slots[1..]);
        assert ([a] + rest)[0] == a && ([a] + rest)[1..] == rest;
      } else {
        assert RenderSlots(slots) == "" + RenderSlots(slots[1..]);
      }
    }
  }

  /** Slots whose values hold no double quote read back as the pairs they write. */
  lemma SlotsReadBack(slots: seq<Slot>)
    requires QuoteFree(Present(slots))
    ensures ParseAttrs(RenderSlots(slots)) == Some(Pairs(Present(slots)))
  {
    RenderSlotsPresent(slots);
    ParseRenderAttrs(Present(slots));
  }
}
