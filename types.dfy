/**
 * The constant tables of types.js as datatypes, the style descriptors the
 * writers accept, and the values a cell can hold.
 */
module Types {
  import opened Wrappers
  import opened Dates

  // ---------------------------------------------------------------------------
  // Enumerations. Each constructor stands for the string constant of the same
  // name; `...Name` gives that string.

  datatype VerticalAlignment =
    | Automatic | Top | Center | Bottom | Justify | Distributed | JustifyDistributed

  function VerticalAlignmentName(v: VerticalAlignment): string
  {
    match v
    case Automatic => "Automatic"
    case Top => "Top"
    case Center => "Center"
    case Bottom => "Bottom"
    case Justify => "Justify"
    case Distributed => "Distributed"
    case JustifyDistributed => "JustifyDistributed"
  }

  datatype BorderLineStyle =
    | None | Continuous | Dash | Dot | DashDot | DashDotDot | SlantDashDot | Double

  function BorderLineStyleName(s: BorderLineStyle): string
  {
    match s
    case None => "None"
    case Continuous => "Continuous"
    case Dash => "Dash"
    case Dot => "Dot"
    case DashDot => "DashDot"
    case DashDotDot => "DashDotDot"
    case SlantDashDot => "SlantDashDot"
    case Double => "Double"
  }

  datatype BorderPosition = Left | Top | Right | Bottom | DiagonalLeft | DiagonalRight

  function BorderPositionName(p: BorderPosition): string
  {
    match p
    case Left => "Left"
    case Top => "Top"
    case Right => "Right"
    case Bottom => "Bottom"
    case DiagonalLeft => "DiagonalLeft"
    case DiagonalRight => "DiagonalRight"
  }

  datatype FontFamily = Automatic | Decorative | Modern | Roman | Script | Swiss

  function FontFamilyName(f: FontFamily): string
  {
    match f
    case Automatic => "Automatic"
    case Decorative => "Decorative"
    case Modern => "Modern"
    case Roman => "Roman"
    case Script => "Script"
    case Swiss => "Swiss"
  }

  datatype FontUnderline = None | Single | Double | SingleAccounting | DoubleAccounting

  function FontUnderlineName(u: FontUnderline): string
  {
    match u
    case None => "None"
    case Single => "Single"
    case Double => "Double"
    case SingleAccounting => "SingleAccounting"
    case DoubleAccounting => "DoubleAccounting"
  }

  datatype FontVerticalAlign = None | Subscript | Superscript

  function FontVerticalAlignName(v: FontVerticalAlign): string
  {
    match v
    case None => "None"
    case Subscript => "Subscript"
    case Superscript => "Superscript"
  }

  datatype HorizontalAlignment =
    | Automatic | Left | Center | Right | Fill | Justify | CenterAcrossSelection
    | Distributed | JustifyDistributed

  function HorizontalAlignmentName(h: HorizontalAlignment): string
  {
    match h
    case Automatic => "Automatic"
    case Left => "Left"
    case Center => "Center"
    case Right => "Right"
    case Fill => "Fill"
    case Justify => "Justify"
    case CenterAcrossSelection => "CenterAcrossSelection"
    case Distributed => "Distributed"
    case JustifyDistributed => "JustifyDistributed"
  }

  datatype HorizontalReadingOrder = Context | RightToLeft | LeftToRight

  function HorizontalReadingOrderName(o: HorizontalReadingOrder): string
  {
    match o
    case Context => "Context"
    case RightToLeft => "RightToLeft"
    case LeftToRight => "LeftToRight"
  }

  datatype InteriorPattern =
    | None | Solid | Gray75 | Gray50 | Gray25 | Gray125 | Gray0625 | HorzStripe | VertStripe
    | ReverseDiagStripe | DiagStripe | DiagCross | ThickDiagCross | ThinHorzStripe
    | ThinVertStripe | ThinReverseDiagStripe | ThinDiagStripe | ThinHorzCross | ThinDiagCross

  function InteriorPatternName(p: InteriorPattern): string
  {
    match p
    case None => "None"
    case Solid => "Solid"
    case Gray75 => "Gray75"
    case Gray50 => "Gray50"
    case Gray25 => "Gray25"
    case Gray125 => "Gray125"
    case Gray0625 => "Gray0625"
    case HorzStripe => "HorzStripe"
    case VertStripe => "VertStripe"
    case ReverseDiagStripe => "ReverseDiagStripe"
    case DiagStripe => "DiagStripe"
    case DiagCross => "DiagCross"
    case ThickDiagCross => "ThickDiagCross"
    case ThinHorzStripe => "ThinHorzStripe"
    case ThinVertStripe => "ThinVertStripe"
    case ThinReverseDiagStripe => "ThinReverseDiagStripe"
    case ThinDiagStripe => "ThinDiagStripe"
    case ThinHorzCross => "ThinHorzCross"
    case ThinDiagCross => "ThinDiagCross"
  }

  datatype CellType = Number | DateTime | Boolean | String | Error

  function CellTypeName(t: CellType): string
  {
    match t
    case Number => "Number"
    case DateTime => "DateTime"
    case Boolean => "Boolean"
    case String => "String"
    case Error => "Error"
  }

  // ---------------------------------------------------------------------------
  // Style descriptors. A field holding an enumeration is `None` when it is
  // absent or holds a string outside the table: both fall to the `default`
  // branch of the writer's switch.

  /**
   * A colour as the colour library reads it from the caller's string: its
   * `hexString()` and whether `alpha() > 0`.
   */
  datatype Color = Color(hex: string, visible: bool)

  /** `rotate` is `None` when the property is missing (JavaScript `undefined`). */
  datatype Alignment = Alignment(
    horizontal: Option<HorizontalAlignment>,
    vertical: Option<VerticalAlignment>,
    indent: int,
    readingOrder: Option<HorizontalReadingOrder>,
    rotate: Option<int>,
    shrinkToFit: bool,
    verticalText: bool,
    wrapText: bool)

  datatype Border = Border(
    position: Option<BorderPosition>,
    color: Option<Color>,
    lineStyle: Option<BorderLineStyle>,
    weight: int)

  datatype Interior = Interior(
    color: Option<Color>,
    pattern: Option<InteriorPattern>,
    patternColor: Option<Color>)

  /** `fontName` is empty when it is missing; `size` is `None` when it is null or missing. */
  datatype Font = Font(
    bold: bool,
    color: Option<Color>,
    fontName: string,
    italic: bool,
    outline: bool,
    shadow: bool,
    size: Option<int>,
    strikeThrough: bool,
    underline: Option<FontUnderline>,
    verticalAlign: Option<FontVerticalAlign>,
    charset: int,
    family: Option<FontFamily>)

  /**
   * A SpreadsheetCellStyle. `numberFormat` is `None` when it is not a string;
   * a missing borders array is the empty sequence.
   */
  datatype Style = Style(
    parentStyleIndex: Option<int>,
    numberFormat: Option<string>,
    alignment: Option<Alignment>,
    borders: seq<Border>,
    interior: Option<Interior>,
    font: Option<Font>)

  // ---------------------------------------------------------------------------
  // Cell values

  /**
   * The data passed to a cell method: a number (as the text JavaScript gives
   * it), a boolean, a Date (its local-calendar fields) or any other value (as
   * the text `data + ''` gives it).
   */
  datatype CellValue = Num(text: string) | Bool(b: bool) | Date(fields: LocalDateTime) | Str(s: string)

  /** The title both writers give the worksheet `beginRow` opens when none is open. */
  const DefaultSheetName := "New Sheet"
}
