/**
 * The `<Style>` entries the XML writer puts in the `<Styles>` table: the
 * switches that turn the style constants into attribute values, the attribute
 * lists of the alignment, border, interior and font elements, and the markup
 * of one whole style.
 */
module XmlStyle {
  import opened Wrappers
  import opened Text
  import opened Types
  import opened XmlAttributes
  import opened XmlMarkup

  // ---------------------------------------------------------------------------
  // Switches. Each writes the constant's own name, and nothing for the default
  // constant or a value outside the table.

  /** `ss:Horizontal` (xml/writer.js lines 523-552). */
  function HorizontalText(h: Option<HorizontalAlignment>): (r: Option<string>)
    ensures r == if h.None? || h.value == HorizontalAlignment.Automatic then Option.None
                 else Some(HorizontalAlignmentName(h.value))
  {
    match h
    case None => Option.None
    case Some(Automatic) => Option.None
    case Some(Left) => Some("Left")
    case Some(Center) => Some("Center")
    case Some(Right) => Some("Right")
    case Some(Fill) => Some("Fill")
    case Some(Justify) => Some("Justify")
    case Some(CenterAcrossSelection) => Some("CenterAcrossSelection")
    case Some(Distributed) => Some("Distributed")
    case Some(JustifyDistributed) => Some("JustifyDistributed")
  }

  /** `ss:ReadingOrder`. */
  function ReadingOrderText(o: Option<HorizontalReadingOrder>): (r: Option<string>)
    ensures r == if o.None? || o.value == HorizontalReadingOrder.Context then Option.None
                 else Some(HorizontalReadingOrderName(o.value))
  {
    match o
    case None => Option.None
    case Some(Context) => Option.None
    case Some(RightToLeft) => Some("RightToLeft")
    case Some(LeftToRight) => Some("LeftToRight")
  }

  /** `ss:Vertical`. */
  function VerticalAlignmentText(v: Option<VerticalAlignment>): (r: Option<string>)
    ensures r == if v.None? || v.value == VerticalAlignment.Automatic then Option.None
                 else Some(VerticalAlignmentName(v.value))
  {
    match v
    case None => Option.None
    case Some(Automatic) => Option.None
    case Some(Top) => Some("Top")
    case Some(Bottom) => Some("Bottom")
    case Some(Center) => Some("Center")
    case Some(Justify) => Some("Justify")
    case Some(Distributed) => Some("Distributed")
    case Some(JustifyDistributed) => Some("JustifyDistributed")
  }

  /** `ss:Position`: always written, `Left` by default. */
  function PositionText(p: Option<BorderPosition>): (r: string)
    ensures r == if p.None? then "Left" else BorderPositionName(p.value)
  {
    match p
    case None => "Left"
    case Some(Left) => "Left"
    case Some(Top) => "Top"
    case Some(Right) => "Right"
    case Some(Bottom) => "Bottom"
    case Some(DiagonalLeft) => "DiagonalLeft"
    case Some(DiagonalRight) => "DiagonalRight"
  }

  /** `ss:LineStyle`. */
  function LineStyleText(s: Option<BorderLineStyle>): (r: Option<string>)
    ensures r == if s.None? || s.value == BorderLineStyle.None then Option.None
                 else Some(BorderLineStyleName(s.value))
  {
    match s
    case None => Option.None
    case Some(None) => Option.None
    case Some(Continuous) => Some("Continuous")
    case Some(Dash) => Some("Dash")
    case Some(Dot) => Some("Dot")
    case Some(DashDot) => Some("DashDot")
    case Some(DashDotDot) => Some("DashDotDot")
    case Some(SlantDashDot) => Some("SlantDashDot")
    case Some(Double) => Some("Double")
  }

  /**
   * `ss:Pattern`. The switch has no case for `DiagStripe`, so that pattern
   * falls to the default branch and is not written.
   */
  function PatternText(p: Option<InteriorPattern>): (r: Option<string>)
    ensures r == if p.None? || p.value == InteriorPattern.None || p.value == InteriorPattern.DiagStripe
                 then Option.None else Some(InteriorPatternName(p.value))
  {
    match p
    case None => Option.None
    case Some(None) => Option.None
    case Some(Solid) => Some("Solid")
    case Some(Gray75) => Some("Gray75")
    case Some(Gray50) => Some("Gray50")
    case Some(Gray25) => Some("Gray25")
    case Some(Gray125) => Some("Gray125")
    case Some(Gray0625) => Some("Gray0625")
    case Some(HorzStripe) => Some("HorzStripe")
    case Some(VertStripe) => Some("VertStripe")
    case Some(ReverseDiagStripe) => Some("ReverseDiagStripe")
    case Some(DiagStripe) => Option.None
    case Some(DiagCross) => Some("DiagCross")
    case Some(ThickDiagCross) => Some("ThickDiagCross")
    case Some(ThinHorzStripe) => Some("ThinHorzStripe")
    case Some(ThinVertStripe) => Some("ThinVertStripe")
    case Some(ThinReverseDiagStripe) => Some("ThinReverseDiagStripe")
    case Some(ThinDiagStripe) => Some("ThinDiagStripe")
    case Some(ThinHorzCross) => Some("ThinHorzCross")
    case Some(ThinDiagCross) => Some("ThinDiagCross")
  }

  /** `ss:Underline`. */
  function UnderlineText(u: Option<FontUnderline>): (r: Option<string>)
    ensures r == if u.None? || u.value == FontUnderline.None then Option.None
                 else Some(FontUnderlineName(u.value))
  {
    match u
    case None => Option.None
    case Some(None) => Option.None
    case Some(Single) => Some("Single")
    case Some(Double) => Some("Double")
    case Some(SingleAccounting) => Some("SingleAccounting")
    case Some(DoubleAccounting) => Some("DoubleAccounting")
  }

  /** `ss:VerticalAlign`. */
  function FontVerticalAlignText(v: Option<FontVerticalAlign>): (r: Option<string>)
    ensures r == if v.None? || v.value == FontVerticalAlign.None then Option.None
                 else Some(FontVerticalAlignName(v.value))
  {
    match v
    case None => Option.None
    case Some(None) => Option.None
    case Some(Subscript) => Some("Subscript")
    case Some(Superscript) => Some("Superscript")
  }

  /** `ss:Family`. */
  function FamilyText(f: Option<FontFamily>): (r: Option<string>)
    ensures r == if f.None? || f.value == FontFamily.Automatic then Option.None
                else Some(FontFamilyName(f.value))
  {
    match f
    case None => Option.None
    case Some(Automatic) => Option.None
    case Some(Decorative) => Some("Decorative")
    case Some(Modern) => Some("Modern")
    case Some(Roman) => Some("Roman")
    case Some(Script) => Some("Script")
    case Some(Swiss) => Some("Swiss")
  }

  /** A colour the colour library reads as visible (alpha above zero). */
  predicate Visible(c: Option<Types.Color>)
  {
    c.Some? && c.value.visible
  }

  function Hex(c: Option<Types.Color>): string
  {
    if c.Some? then c.value.hex else ""
  }

  // ---------------------------------------------------------------------------
  // Attribute lists. Each element has its slots, in the order the writer tries
  // them, each holding a value when the writer's condition for it holds; the
  // element writes the slots that hold one.

  /** The short attribute lists name each attribute once. */
  lemma ShortNamesDistinct()
    ensures Distinct(BorderNames) && Distinct(InteriorNames) && Distinct(StyleHeadNames)
  {
  }

  /** The attributes of one `<ss:Border>` (lines 642-712). */
  const BorderNames := [Position, AttrName.Color, LineStyle, Weight]

  /** The value of each of `BorderNames`, when the writer's condition for it holds. */
  function BorderValues(b: Border): seq<Option<string>>
  {
    [Some(PositionText(b.position)),
     When(Visible(b.color), Hex(b.color)),
     LineStyleText(b.lineStyle),
     When(b.weight > 0, IntToString(b.weight))]
  }

  function BorderSlots(b: Border): seq<Slot>
  {
    Zip(BorderNames, BorderValues(b))
  }

  /** A border writes each attribute once, and always its position. */
  function BorderAttrs(b: Border): (r: seq<Attr>)
    ensures forall n :: Lookup(r, n) == SlotValue(BorderSlots(b), n)
    ensures forall n :: n in Names(r) <==> SlotValue(BorderSlots(b), n).Some?
    ensures Unique(r)
    ensures Lookup(r, Position) == Some(PositionText(b.position))
  {
    var slots := BorderSlots(b);
    ShortNamesDistinct();
    ZipValue(BorderNames, BorderValues(b), 0, Position);
    DistinctZip(BorderNames, BorderValues(b));
    PresentLookup(slots);
    Present(slots)
  }

  /** The attributes of `<ss:Alignment>` (lines 521-626). */
  const AlignmentNames := [Horizontal, Indent, ReadingOrder, Rotate, ShrinkToFit, Vertical, VerticalText, WrapText]

  /** The value of each of `AlignmentNames`, when the writer's condition for it holds. */
  function AlignmentValues(a: Alignment): seq<Option<string>>
  {
    [HorizontalText(a.horizontal),
     When(a.indent > 0, IntToString(a.indent)),
     ReadingOrderText(a.readingOrder),
     When(a.rotate != Some(0), if a.rotate.Some? then IntToString(a.rotate.value) else "undefined"),
     When(a.shrinkToFit, "1"),
     VerticalAlignmentText(a.vertical),
     When(a.verticalText, "1"),
     When(a.wrapText, "1")]
  }

  function AlignmentSlots(a: Alignment): seq<Slot>
  {
    Zip(AlignmentNames, AlignmentValues(a))
  }

  /** Where each name stands among the slots of an alignment. */
  function AlignmentPosition(n: AttrName): int
  {
    match n
    case Horizontal => 0
    case Indent => 1
    case ReadingOrder => 2
    case Rotate => 3
    case ShrinkToFit => 4
    case Vertical => 5
    case VerticalText => 6
    case WrapText => 7
    case _ => -1
  }

  lemma AlignmentNamesDistinct()
    ensures Distinct(AlignmentNames)
  {
    assert forall i | 0 <= i < |AlignmentNames| :: AlignmentPosition(AlignmentNames[i]) == i;
  }

  lemma AlignmentRotateSlot(a: Alignment)
    ensures a.rotate.None? ==> SlotValue(AlignmentSlots(a), Rotate) == Some("undefined")
  {
    AlignmentNamesDistinct();
    var v := AlignmentValues(a);
    ZipValue(AlignmentNames, v, 3, Rotate);
    assert a.rotate.None? ==> v[3] == Some("undefined");
  }

  /**
   * An alignment writes each attribute once. A missing rotation is not 0, so
   * it is written, as `undefined`.
   */
  function AlignmentAttrs(a: Alignment): (r: seq<Attr>)
    ensures forall n :: Lookup(r, n) == SlotValue(AlignmentSlots(a), n)
    ensures forall n :: n in Names(r) <==> SlotValue(AlignmentSlots(a), n).Some?
    ensures Unique(r)
    ensures a.rotate.None? ==> Lookup(r, Rotate) == Some("undefined")
  {
    AlignmentRotateSlot(a);
    var slots := AlignmentSlots(a);
    AlignmentNamesDistinct();
    DistinctZip(AlignmentNames, AlignmentValues(a));
    PresentLookup(slots);
    Present(slots)
  }

  /** The attributes of `<ss:Interior>` (lines 717-793). */
  const InteriorNames := [AttrName.Color, Pattern, PatternColor]

  /** The value of each of `InteriorNames`, when the writer's condition for it holds. */
  function InteriorValues(i: Interior): seq<Option<string>>
  {
    [When(Visible(i.color), Hex(i.color)),
     PatternText(i.pattern),
     When(Visible(i.patternColor), Hex(i.patternColor))]
  }

  function InteriorSlots(i: Interior): seq<Slot>
  {
    Zip(InteriorNames, InteriorValues(i))
  }

  /** An interior writes each attribute once. */
  function InteriorAttrs(i: Interior): (r: seq<Attr>)
    ensures forall n :: Lookup(r, n) == SlotValue(InteriorSlots(i), n)
    ensures forall n :: n in Names(r) <==> SlotValue(InteriorSlots(i), n).Some?
    ensures Unique(r)
  {
    var slots := InteriorSlots(i);
    ShortNamesDistinct();
    DistinctZip(InteriorNames, InteriorValues(i));
    PresentLookup(slots);
    Present(slots)
  }

  /** The attributes of `<ss:Font>` (lines 795-902). */
  const FontNames := [Bold, AttrName.Color, FontName, Italic, Outline, Shadow, Size, StrikeThrough, Underline, VerticalAlign, CharSet, Family]

  /** The value of each of `FontNames`, when the writer's condition for it holds. */
  function FontValues(f: Font): seq<Option<string>>
  {
    [When(f.bold, "1"),
     When(Visible(f.color), Hex(f.color)),
     When(f.fontName != "", f.fontName),
     When(f.italic, "1"),
     When(f.outline, "1"),
     When(f.shadow, "1"),
     When(f.size.Some? && f.size.value != 10, if f.size.Some? then IntToString(f.size.value) else ""),
     When(f.strikeThrough, "1"),
     UnderlineText(f.underline),
     FontVerticalAlignText(f.verticalAlign),
     When(f.charset > 0, IntToString(f.charset)),
     FamilyText(f.family)]
  }

  function FontSlots(f: Font): seq<Slot>
  {
    Zip(FontNames, FontValues(f))
  }

  /** Where each name stands among the slots of a font. */
  function FontPosition(n: AttrName): int
  {
    match n
    case Bold => 0
    case Color => 1
    case FontName => 2
    case Italic => 3
    case Outline => 4
    case Shadow => 5
    case Size => 6
    case StrikeThrough => 7
    case Underline => 8
    case VerticalAlign => 9
    case CharSet => 10
    case Family => 11
    case _ => -1
  }

  lemma FontNamesDistinct()
    ensures Distinct(FontNames)
  {
    assert forall i | 0 <= i < |FontNames| :: FontPosition(FontNames[i]) == i;
  }

  lemma FontSizeSlot(f: Font)
    ensures f.size == Some(10) ==> SlotValue(FontSlots(f), Size).None?
  {
    FontNamesDistinct();
    var v := FontValues(f);
    ZipValue(FontNames, v, 6, Size);
    assert f.size == Some(10) ==> v[6].None?;
  }

  /** A font writes each attribute once. A size of 10 is the default and is not written. */
  function FontAttrs(f: Font): (r: seq<Attr>)
    ensures forall n :: Lookup(r, n) == SlotValue(FontSlots(f), n)
    ensures forall n :: n in Names(r) <==> SlotValue(FontSlots(f), n).Some?
    ensures Unique(r)
    ensures f.size == Some(10) ==> Size !in Names(r)
  {
    FontSizeSlot(f);
    var slots := FontSlots(f);
    FontNamesDistinct();
    DistinctZip(FontNames, FontValues(f));
    PresentLookup(slots);
    Present(slots)
  }

  /** The `<Style>` tag's own id, and the parent's index as given, without the id offset (lines 515-518). */
  const StyleHeadNames := [ID, Parent]

  /** The value of each of `StyleHeadNames`, when the writer's condition for it holds. */
  function StyleHeadValues(index: int, parent: Option<int>): seq<Option<string>>
  {
    [Some(StyleId(index)),
     if parent.Some? then Some(IntToString(parent.value)) else Option.None]
  }

  function StyleHeadSlots(index: int, parent: Option<int>): seq<Slot>
  {
    Zip(StyleHeadNames, StyleHeadValues(index, parent))
  }

  lemma StyleHeadQuoteFree(index: int, parent: Option<int>)
    ensures QuoteFree(Present(StyleHeadSlots(index, parent)))
  {
    var values := StyleHeadValues(index, parent);
    StyleIdNoMarkup(index);
    NoMarkupFree(StyleId(index));
    IntToStringNoMarkup(if parent.Some? then parent.value else 0);
    NoMarkupFree(IntToString(if parent.Some? then parent.value else 0));
    assert forall v | v in values && v.Some? :: '"' !in v.value;
    PresentValues(StyleHeadNames, values);
    QuoteFreeAll(Present(StyleHeadSlots(index, parent)));
  }

  /** The `<Style>` tag always carries its id, and nothing in its attributes needs escaping. */
  function StyleHeadAttrs(index: int, parent: Option<int>): (r: seq<Attr>)
    ensures forall n :: Lookup(r, n) == SlotValue(StyleHeadSlots(index, parent), n)
    ensures forall n :: n in Names(r) <==> SlotValue(StyleHeadSlots(index, parent), n).Some?
    ensures Unique(r)
    ensures Lookup(r, ID) == Some(StyleId(index))
    ensures QuoteFree(r)
  {
    var slots := StyleHeadSlots(index, parent);
    ShortNamesDistinct();
    ZipValue(StyleHeadNames, StyleHeadValues(index, parent), 0, ID);
    DistinctZip(StyleHeadNames, StyleHeadValues(index, parent));
    PresentLookup(slots);
    StyleHeadQuoteFree(index, parent);
    Present(slots)
  }

  // ---------------------------------------------------------------------------
  // Markup

  function AlignmentMarkup(a: Alignment): string
  {
    "   <ss:Alignment" + RenderSlots(AlignmentSlots(a)) + "/>\n"
  }

  /** Nothing when the format is not a string, an empty element when it is empty (lines 628-635). */
  function NumberFormatMarkup(format: Option<string>): string
  {
    match format
    case None => ""
    case Some(f) =>
      if |f| > 0 then "   <ss:NumberFormat" + AttrText(Attr(Format, f)) + "/>\n"
      else "   <ss:NumberFormat />\n"
  }

  function BorderMarkup(b: Border): string
  {
    "<ss:Border" + RenderSlots(BorderSlots(b)) + "/>\n"
  }

  /** The `<ss:Border>` elements of `bs`, in order. */
  function BorderList(bs: seq<Border>): string
  {
    if bs == [] then "" else BorderList(bs[..|bs| - 1]) + BorderMarkup(bs[|bs| - 1])
  }

  /** One more border appends its element to the list. */
  lemma BorderListStep(bs: seq<Border>, i: int)
    requires 0 <= i < |bs|
    ensures BorderList(bs[..i + 1]) == BorderList(bs[..i]) + BorderMarkup(bs[i])
  {
    assert bs[..i + 1][..i] == bs[..i];
  }

  /** Nothing for no borders (lines 637-715). */
  function BordersMarkup(bs: seq<Border>): string
  {
    if |bs| > 0 then "    <ss:Borders>" + BorderList(bs) + "</ss:Borders>\n" else ""
  }

  function InteriorMarkup(i: Interior): string
  {
    "   <ss:Interior" + RenderSlots(InteriorSlots(i)) + "/>\n"
  }

  function FontMarkup(f: Font): string
  {
    "   <ss:Font" + RenderSlots(FontSlots(f)) + "/>\n"
  }

  function StyleOpen(index: int, parent: Option<int>): string
  {
    "  <Style" + RenderSlots(StyleHeadSlots(index, parent)) + ">\n"
  }

  const StyleClose := "  </Style>\n"

  /** The child elements of a style, each present when the style sets it. */
  function StyleBody(s: Style): string
  {
    (if s.alignment.Some? then AlignmentMarkup(s.alignment.value) else "") +
    NumberFormatMarkup(s.numberFormat) +
    BordersMarkup(s.borders) +
    (if s.interior.Some? then InteriorMarkup(s.interior.value) else "") +
    (if s.font.Some? then FontMarkup(s.font.value) else "")
  }

  /** Everything `writeStyle` writes for style `index` (lines 512-907). */
  function StyleMarkup(index: int, s: Style): string
  {
    StyleOpen(index, s.parentStyleIndex) + StyleBody(s) + StyleClose
  }
}
