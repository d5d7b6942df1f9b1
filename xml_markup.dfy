/**
 * The pure parts of xml/writer.js: the escaper `prepareString`, the rendering
 * of cell values and the inference of their type, and the markup each writer
 * method appends (attribute lists that leave out default values).
 */
module XmlMarkup {
  import opened Wrappers
  import opened Text
  import opened Dates
  import opened Types

  // ---------------------------------------------------------------------------
  // Escaping

  /** The characters prepareString replaces, in the order it replaces them. */
  function RuleChar(k: nat): char
    requires k < 7
  {
    ['&', '<', '>', '"', '\'', '\r', '\n'][k]
  }

  /** What replacement `k` puts in place of its character. */
  function RuleText(k: nat): string
    requires k < 7
  {
    ["&amp;\"", "&lt;", "&gt;", "&quot;", "&apos;", "&#xD;", "&#xA;"][k]
  }

  /** Replacements `k` to 6 applied one after the other. */
  function Steps(k: nat, s: string): string
    requires k <= 7
    decreases 7 - k
  {
    if k == 7 then s else Steps(k + 1, Replace(s, {RuleChar(k)}, RuleText(k)))
  }

  /**
   * prepareString: seven global replacements applied one after the other. The
   * first one inserts a stray `"` after `&amp;`, which the fourth one escapes
   * again.
   */
  function PrepareString(s: string): string
  {
    Steps(0, s)
  }

  /** What the replacement chain does to a single character. */
  function EscapeChar(c: char): string
  {
    match c
    case '&' => "&amp;&quot;"
    case '<' => "&lt;"
    case '>' => "&gt;"
    case '"' => "&quot;"
    case '\'' => "&apos;"
    case '\r' => "&#xD;"
    case '\n' => "&#xA;"
    case _ => [c]
  }

  /** The reference escaper: every character escaped on its own. */
  function EscapeEach(s: string): string
  {
    if s == [] then [] else EscapeChar(s[0]) + EscapeEach(s[1..])
  }

  /** The characters that may not appear raw in an attribute or text node. */
  predicate Markup(c: char)
  {
    c == '<' || c == '>' || c == '"' || c == '\'' || c == '\r' || c == '\n'
  }

  predicate NoMarkup(s: string)
  {
    forall i | 0 <= i < |s| :: !Markup(s[i])
  }

  lemma NoMarkupConcat(a: string, b: string)
    requires NoMarkup(a) && NoMarkup(b)
    ensures NoMarkup(a + b)
  {
    forall i | 0 <= i < |a + b| ensures !Markup((a + b)[i]) {
      if i >= |a| { assert (a + b)[i] == b[i - |a|]; }
    }
  }

  lemma {:induction false} StepsConcat(k: nat, a: string, b: string)
    requires k <= 7
    ensures Steps(k, a + b) == Steps(k, a) + Steps(k, b)
    decreases 7 - k
  {
    if k < 7 {
      ReplaceConcat(a, b, {RuleChar(k)}, RuleText(k));
      StepsConcat(k + 1, Replace(a, {RuleChar(k)}, RuleText(k)), Replace(b, {RuleChar(k)}, RuleText(k)));
    }
  }

  /** The escaper distributes over concatenation, because each replacement does. */
  lemma PrepareStringConcat(a: string, b: string)
    ensures PrepareString(a + b) == PrepareString(a) + PrepareString(b)
  {
    StepsConcat(0, a, b);
  }

  /** `e` holds none of the characters that steps `k` onwards replace. */
  predicate MissingFrom(k: nat, e: string)
    requires k <= 7
    decreases 7 - k
  {
    k == 7 || (RuleChar(k) !in e && MissingFrom(k + 1, e))
  }

  /** Steps `k` onwards leave alone a text that holds none of their characters. */
  lemma {:induction false} StepsMissing(k: nat, e: string)
    requires k <= 7 && MissingFrom(k, e)
    ensures Steps(k, e) == e
    decreases 7 - k
  {
    if k < 7 {
      ReplaceMissing(e, RuleChar(k), RuleText(k));
      StepsMissing(k + 1, e);
    }
  }

  /** One step on a single character. */
  lemma StepsSingle(k: nat, c: char)
    requires k < 7
    ensures Steps(k, [c]) == if RuleChar(k) == c then Steps(k + 1, RuleText(k)) else Steps(k + 1, [c])
  {
    ReplaceSingle(c, {RuleChar(k)}, RuleText(k));
  }

  /** The text each step puts in holds none of the characters later steps replace. */
  lemma RuleTextMissing(k: nat)
    requires 1 <= k < 7
    ensures MissingFrom(k + 1, RuleText(k))
  {
    if k == 1 {
      assert MissingFrom(2, "&lt;");
    } else if k == 2 {
      assert MissingFrom(3, "&gt;");
    } else if k == 3 {
      assert MissingFrom(4, "&quot;");
    } else if k == 4 {
      assert MissingFrom(5, "&apos;");
    } else if k == 5 {
      assert MissingFrom(6, "&#xD;");
    }
  }

  /**
   * The character of step `k`, fed to steps `j` to 6, is left alone until step
   * `k` and replaced there for good.
   */
  lemma {:induction false} StepsReachRule(j: nat, k: nat)
    requires j <= k && 1 <= k < 7
    ensures Steps(j, [RuleChar(k)]) == RuleText(k)
    decreases k - j
  {
    StepsSingle(j, RuleChar(k));
    if j == k {
      RuleTextMissing(k);
      StepsMissing(k + 1, RuleText(k));
    } else {
      StepsReachRule(j + 1, k);
    }
  }

  /** Steps 1 to 6 leave the entity text of step 0 alone; only its stray quote is replaced. */
  lemma AmpersandSteps(first: string, amp: string, quote: string)
    requires first == RuleText(0) && amp == "&amp;" && quote == "\""
    ensures Steps(1, first) == amp + Steps(1, quote)
  {
    assert first == amp + quote;
    AmpersandMissing(amp);
    StepsMissing(1, amp);
    StepsConcat(1, amp, quote);
  }

  lemma AmpersandMissing(amp: string)
    requires amp == "&amp;"
    ensures MissingFrom(1, amp)
  {
  }

  lemma AmpersandFirst(c: char, first: string)
    requires c == '&' && first == RuleText(0)
    ensures Steps(0, [c]) == Steps(1, first)
  {
    StepsSingle(0, c);
  }

  lemma QuoteSteps(quote: string)
    requires quote == [RuleChar(3)]
    ensures Steps(1, quote) == RuleText(3)
  {
    StepsReachRule(1, 3);
  }

  lemma AmpersandChain(c: char, first: string, amp: string, quote: string)
    requires c == '&' && first == RuleText(0) && amp == "&amp;" && quote == "\""
    ensures Steps(0, [c]) == amp + RuleText(3)
  {
    AmpersandFirst(c, first);
    AmpersandSteps(first, amp, quote);
    QuoteSteps(quote);
  }

  /** A lone ampersand comes out as `&amp;&quot;`, which reads as `&"`. */
  lemma EscapeAmpersand(c: char)
    requires c == '&'
    ensures PrepareString([c]) == EscapeChar(c)
  {
    AmpersandChain(c, RuleText(0), "&amp;", "\"");
  }

  /** On one character the replacement chain gives `EscapeChar`. */
  lemma PrepareStringChar(c: char)
    ensures PrepareString([c]) == EscapeChar(c)
  {
    if c == '&' {
      EscapeAmpersand(c);
    } else if c == '<' {
      StepsReachRule(0, 1);
    } else if c == '>' {
      StepsReachRule(0, 2);
    } else if c == '"' {
      StepsReachRule(0, 3);
    } else if c == '\'' {
      StepsReachRule(0, 4);
    } else if c == '\r' {
      StepsReachRule(0, 5);
    } else if c == '\n' {
      StepsReachRule(0, 6);
    } else {
      StepsMissing(0, [c]);
    }
  }

  /** The replacement chain and the character-by-character escaper agree on every string. */
  lemma {:induction false} PrepareStringIsEscapeEach(s: string)
    ensures PrepareString(s) == EscapeEach(s)
  {
    if s != [] {
      assert s == [s[0]] + s[1..];
      PrepareStringConcat([s[0]], s[1..]);
      PrepareStringChar(s[0]);
      PrepareStringIsEscapeEach(s[1..]);
    } else {
      assert PrepareString([]) == [];
    }
  }

  lemma EscapeCharNoMarkup(c: char)
    ensures NoMarkup(EscapeChar(c))
  {
  }

  lemma {:induction false} EscapeEachNoMarkup(s: string)
    ensures NoMarkup(EscapeEach(s))
  {
    if s != [] {
      EscapeCharNoMarkup(s[0]);
      EscapeEachNoMarkup(s[1..]);
      NoMarkupConcat(EscapeChar(s[0]), EscapeEach(s[1..]));
    }
  }

  /** The escaped text holds none of `<`, `>`, `"`, `'`, CR or LF. */
  lemma PrepareStringNoMarkup(s: string)
    ensures NoMarkup(PrepareString(s))
  {
    PrepareStringIsEscapeEach(s);
    EscapeEachNoMarkup(s);
  }

  /**
   * Reads escaped text back. `&amp;&quot;` is the escape of a single `&`, so it
   * is recognised before `&quot;` alone could be.
   */
  function Unescape(t: string): string
    decreases |t|
  {
    if t == [] then []
    else if t[0] != '&' then [t[0]] + Unescape(t[1..])
    else if StartsWith(t, "&amp;&quot;") then "&" + Unescape(t[11..])
    else if StartsWith(t, "&lt;") then "<" + Unescape(t[4..])
    else if StartsWith(t, "&gt;") then ">" + Unescape(t[4..])
    else if StartsWith(t, "&quot;") then "\"" + Unescape(t[6..])
    else if StartsWith(t, "&apos;") then "'" + Unescape(t[6..])
    else if StartsWith(t, "&#xD;") then "\r" + Unescape(t[5..])
    else if StartsWith(t, "&#xA;") then "\n" + Unescape(t[5..])
    else "&" + Unescape(t[1..])
  }

  /** A text whose character `k` differs from that of `p` does not start with `p`. */
  lemma NotPrefixAt(t: string, p: string, k: nat)
    requires k < |p| && k < |t| && t[k] != p[k]
    ensures !StartsWith(t, p)
  {
    if |p| <= |t| {
      assert t[..|p|][k] == t[k];
    }
  }

  /** A text that begins with `e` starts with it. */
  lemma PrefixOf(e: string, rest: string)
    ensures StartsWith(e + rest, e) && (e + rest)[|e|..] == rest
  {
    assert (e + rest)[..|e|] == e;
  }

  /** The entity `e` of `c` at the front of `e + rest` is read back as `c`. */
  lemma UnescapeAmpersand(e: string, rest: string)
    requires e == "&amp;&quot;"
    ensures Unescape(e + rest) == ['&'] + Unescape(rest)
  {
    var t := e + rest;
    PrefixOf(e, rest);
  }

  lemma UnescapeLt(e: string, rest: string)
    requires e == "&lt;"
    ensures Unescape(e + rest) == ['<'] + Unescape(rest)
  {
    var t := e + rest;
    PrefixOf(e, rest);
    NotPrefixAt(t, "&amp;&quot;", 1);
  }

  lemma UnescapeGt(e: string, rest: string)
    requires e == "&gt;"
    ensures Unescape(e + rest) == ['>'] + Unescape(rest)
  {
    var t := e + rest;
    PrefixOf(e, rest);
    NotPrefixAt(t, "&amp;&quot;", 1);
    NotPrefixAt(t, "&lt;", 1);
  }

  lemma UnescapeQuot(e: string, rest: string)
    requires e == "&quot;"
    ensures Unescape(e + rest) == ['"'] + Unescape(rest)
  {
    var t := e + rest;
    PrefixOf(e, rest);
    NotPrefixAt(t, "&amp;&quot;", 1);
    NotPrefixAt(t, "&lt;", 1);
    NotPrefixAt(t, "&gt;", 1);
  }

  lemma UnescapeApos(e: string, rest: string)
    requires e == "&apos;"
    ensures Unescape(e + rest) == ['\''] + Unescape(rest)
  {
    var t := e + rest;
    PrefixOf(e, rest);
    NotPrefixAt(t, "&amp;&quot;", 2);
    NotPrefixAt(t, "&lt;", 1);
    NotPrefixAt(t, "&gt;", 1);
    NotPrefixAt(t, "&quot;", 1);
  }

  lemma UnescapeCr(e: string, rest: string)
    requires e == "&#xD;"
    ensures Unescape(e + rest) == ['\r'] + Unescape(rest)
  {
    var t := e + rest;
    PrefixOf(e, rest);
    NotPrefixAt(t, "&amp;&quot;", 1);
    NotPrefixAt(t, "&lt;", 1);
    NotPrefixAt(t, "&gt;", 1);
    NotPrefixAt(t, "&quot;", 1);
    NotPrefixAt(t, "&apos;", 1);
  }

  lemma UnescapeLf(e: string, rest: string)
    requires e == "&#xA;"
    ensures Unescape(e + rest) == ['\n'] + Unescape(rest)
  {
    var t := e + rest;
    PrefixOf(e, rest);
    NotPrefixAt(t, "&amp;&quot;", 1);
    NotPrefixAt(t, "&lt;", 1);
    NotPrefixAt(t, "&gt;", 1);
    NotPrefixAt(t, "&quot;", 1);
    NotPrefixAt(t, "&apos;", 1);
    NotPrefixAt(t, "&#xD;", 3);
  }

  lemma UnescapeChar(c: char, rest: string)
    ensures Unescape(EscapeChar(c) + rest) == [c] + Unescape(rest)
  {
    match c
    case '&' => UnescapeAmpersand(EscapeChar(c), rest);
    case '<' => UnescapeLt(EscapeChar(c), rest);
    case '>' => UnescapeGt(EscapeChar(c), rest);
    case '"' => UnescapeQuot(EscapeChar(c), rest);
    case '\'' => UnescapeApos(EscapeChar(c), rest);
    case '\r' => UnescapeCr(EscapeChar(c), rest);
    case '\n' => UnescapeLf(EscapeChar(c), rest);
    case _ =>
      var t := [c] + rest;
      assert t[0] == c && t[1..] == rest;
  }

  lemma {:induction false} UnescapeEscapeEach(s: string)
    ensures Unescape(EscapeEach(s)) == s
  {
    if s != [] {
      UnescapeChar(s[0], EscapeEach(s[1..]));
      UnescapeEscapeEach(s[1..]);
    }
  }

  /** Nothing is lost by escaping: the original text can be read back. */
  lemma UnescapePrepareString(s: string)
    ensures Unescape(PrepareString(s)) == s
  {
    PrepareStringIsEscapeEach(s);
    UnescapeEscapeEach(s);
  }

  // ---------------------------------------------------------------------------
  // Cell values

  /** The type addCell infers when none is given (lines 373-387). */
  function InferCellType(v: CellValue): CellType
  {
    match v
    case Num(_) => CellType.Number
    case Bool(_) => CellType.Boolean
    case Date(_) => CellType.DateTime
    case Str(_) => CellType.String
  }

  /** An explicit type wins; otherwise the type follows the kind of value. */
  function ResolveCellType(explicit: Option<CellType>, v: CellValue): (r: CellType)
    ensures explicit.Some? ==> r == explicit.value
    ensures explicit.None? ==>
      (r == CellType.Number <==> v.Num?) && (r == CellType.Boolean <==> v.Bool?) &&
      (r == CellType.DateTime <==> v.Date?) && (r == CellType.String <==> v.Str?)
    ensures explicit.None? ==> r != CellType.Error
  {
    if explicit.Some? then explicit.value else InferCellType(v)
  }

  /**
   * The text inside `<Data>`: a date in the XML date-time layout, a boolean as
   * `1` or `0`, anything else escaped.
   */
  function RenderValue(v: CellValue): string
  {
    match v
    case Date(d) => ToXmlDateTime(d)
    case Bool(b) => if b then "1" else "0"
    case Num(text) => PrepareString(text)
    case Str(s) => PrepareString(s)
  }

  /** Text without `&` is read back unchanged. */
  lemma {:induction false} UnescapePlain(t: string)
    requires forall i | 0 <= i < |t| :: t[i] != '&'
    ensures Unescape(t) == t
    decreases |t|
  {
    if t != [] {
      UnescapePlain(t[1..]);
      assert t == [t[0]] + t[1..];
    }
  }

  /** Whatever the value, the cell text holds no raw markup character. */
  lemma RenderValueNoMarkup(v: CellValue)
    ensures NoMarkup(RenderValue(v))
  {
    match v
    case Date(d) =>
      DateTimeChars(d);
    case Bool(b) =>
    case Num(text) => PrepareStringNoMarkup(text);
    case Str(s) => PrepareStringNoMarkup(s);
  }

  /**
   * The cell text reads back as the value: strings and number texts through
   * `Unescape`, dates through the date parser, booleans as `1`/`0`.
   */
  lemma RenderValueReadBack(v: CellValue)
    ensures v.Str? ==> Unescape(RenderValue(v)) == v.s
    ensures v.Num? ==> Unescape(RenderValue(v)) == v.text
    ensures v.Bool? ==> RenderValue(v) == (if v.b then "1" else "0")
    ensures v.Date? && InRange(v.fields) ==>
      Unescape(RenderValue(v)) == RenderValue(v) && ParseXmlDateTime(RenderValue(v)) == Some(v.fields)
  {
    match v
    case Date(d) =>
      if InRange(d) {
        DateTimeChars(d);
        UnescapePlain(ToXmlDateTime(d));
        DateTimeRoundTrip(d);
      }
    case Bool(b) =>
    case Num(text) => UnescapePrepareString(text);
    case Str(s) => UnescapePrepareString(s);
  }

  // ---------------------------------------------------------------------------
  // Style ids

  /** User style `i` is written as `s(i + 21)`; lower ids are left to Excel. */
  const StyleIdOffset := 21

  function StyleId(i: int): string
  {
    "s" + IntToString(i + StyleIdOffset)
  }

  /** Reads a style id back to the style index. */
  function ParseStyleId(t: string): Option<int>
  {
    if |t| >= 2 && t[0] == 's' then
      match ParseInt(t[1..])
      case None => Option.None
      case Some(n) => Some(n - StyleIdOffset)
    else Option.None
  }

  lemma StyleIdRoundTrip(i: int)
    ensures ParseStyleId(StyleId(i)) == Some(i)
  {
    var t := StyleId(i);
    IntToStringParses(i + StyleIdOffset);
    assert t[1..] == IntToString(i + StyleIdOffset);
  }

  /** Distinct styles get distinct ids. */
  lemma StyleIdInjective(i: int, j: int)
    ensures StyleId(i) == StyleId(j) <==> i == j
  {
    StyleIdRoundTrip(i);
    StyleIdRoundTrip(j);
  }

  /** A style id is a letter and a number: it needs no escaping. */
  lemma StyleIdNoMarkup(i: int)
    ensures NoMarkup(StyleId(i))
  {
    IntToStringNoMarkup(i + StyleIdOffset);
    var t := StyleId(i);
    assert forall k | 1 <= k < |t| :: t[k] == IntToString(i + StyleIdOffset)[k - 1];
  }

  /** The decimal text of an integer needs no escaping. */
  lemma IntToStringNoMarkup(i: int)
    ensures NoMarkup(IntToString(i))
  {
    var t := IntToString(i);
    IntToStringParses(i);
    if i < 0 {
      NatToStringDigits(-i);
      assert t == "-" + NatToString(-i);
      assert forall k | 1 <= k < |t| :: t[k] == NatToString(-i)[k - 1];
    }
  }

  /** Text without markup characters has no quote, and no angle bracket. */
  lemma NoMarkupFree(s: string)
    requires NoMarkup(s)
    ensures '"' !in s && '<' !in s && '>' !in s
  {
  }
}
