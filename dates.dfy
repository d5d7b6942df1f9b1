/**
 * `toXMLDateTime` of utils.js: a date rendered from its local-calendar fields as
 * `YYYY-MM-DDTHH:MM:SS.fff`, with a parser that reads the fields back.
 */
module Dates {
  import opened Wrappers
  import opened Text

  /**
   * The local-calendar fields a JavaScript Date reports: getFullYear(),
   * getMonth() (zero-based), getDate(), getHours(), getMinutes(), getSeconds()
   * and getMilliseconds().
   */
  datatype LocalDateTime = LocalDateTime(
    year: int, month: nat, day: nat,
    hours: nat, minutes: nat, seconds: nat, milliseconds: nat)

  /** The ranges the getters of a valid Date stay within. */
  predicate InRange(d: LocalDateTime)
  {
    d.month < 12 && 1 <= d.day <= 31 && d.hours < 24 && d.minutes < 60 &&
    d.seconds < 60 && d.milliseconds < 1000
  }

  /** A field padded with a leading zero below 10. */
  function Pad2(i: nat): string
  {
    if i < 10 then "0" + NatToString(i) else NatToString(i)
  }

  /** Every value below 100 is padded to its tens and units digits. */
  lemma Pad2Digits(i: nat)
    ensures AllDigits(Pad2(i))
    ensures i < 100 ==> Pad2(i) == [DigitChar(i / 10), DigitChar(i % 10)]
  {
    NatToStringDigits(i);
    if 10 <= i < 100 {
      assert NatToString(i / 10) == [DigitChar(i / 10)];
    }
  }

  /** Milliseconds padded with leading zeros to three digits below 100. */
  function PadMillis(i: nat): string
  {
    if i < 10 then "00" + NatToString(i)
    else if i < 100 then "0" + NatToString(i)
    else NatToString(i)
  }

  /** Every value below 1000 is padded to three digits. */
  lemma PadMillisDigits(i: nat)
    ensures AllDigits(PadMillis(i))
    ensures i < 1000 ==> PadMillis(i) == [DigitChar(i / 100), DigitChar(i / 10 % 10), DigitChar(i % 10)]
  {
    NatToStringDigits(i);
    if 10 <= i < 100 {
      assert NatToString(i / 10) == [DigitChar(i / 10)];
    } else if 100 <= i < 1000 {
      Pad2Digits(i / 10);
      assert NatToString(i / 10) == Pad2(i / 10) && NatToString(i / 100) == [DigitChar(i / 100)];
    }
  }

  predicate DateTimeChar(c: char)
  {
    IsDigit(c) || c == '-' || c == 'T' || c == ':' || c == '.'
  }

  /** Only digits and the separators `-`, `T`, `:` and `.`. */
  predicate DateTimeText(s: string)
  {
    forall i | 0 <= i < |s| :: DateTimeChar(s[i])
  }

  lemma DateTimeTextConcat(a: string, b: string)
    requires DateTimeText(a) && DateTimeText(b)
    ensures DateTimeText(a + b)
  {
    forall i | 0 <= i < |a + b| ensures DateTimeChar((a + b)[i]) {
      if i >= |a| { assert (a + b)[i] == b[i - |a|]; }
    }
  }

  /** A separator followed by a padded field. */
  function Segment(sep: char, field: string): string
  {
    [sep] + field
  }

  /** Everything after the year: `-MM-DDTHH:MM:SS.fff`. */
  function Tail(d: LocalDateTime): string
  {
    Segment('-', Pad2(d.month + 1)) +
    (Segment('-', Pad2(d.day)) +
    (Segment('T', Pad2(d.hours)) +
    (Segment(':', Pad2(d.minutes)) +
    (Segment(':', Pad2(d.seconds)) +
     Segment('.', PadMillis(d.milliseconds))))))
  }

  /**
   * toXMLDateTime: the year unpadded, then month (getMonth() + 1), day, hours,
   * minutes and seconds on two digits and milliseconds on three, separated by
   * `-`, `-`, `T`, `:`, `:` and `.`.
   */
  function ToXmlDateTime(d: LocalDateTime): string
  {
    IntToString(d.year) + Tail(d)
  }

  /** The year's digits and 19 more characters; 23 in all for a four-digit year. */
  lemma DateTimeLength(d: LocalDateTime)
    requires InRange(d)
    ensures |ToXmlDateTime(d)| == |IntToString(d.year)| + 19
    ensures 1000 <= d.year <= 9999 ==> |ToXmlDateTime(d)| == 23
  {
    TailLayout(d);
    NatToStringWidth(if d.year < 0 then 0 else d.year);
  }

  lemma SegmentChars(sep: char, field: string)
    requires DateTimeChar(sep) && AllDigits(field)
    ensures DateTimeText(Segment(sep, field))
  {
    var r := Segment(sep, field);
    assert forall i | 1 <= i < |r| :: r[i] == field[i - 1];
  }

  lemma ConcatChars6(s0: string, s1: string, s2: string, s3: string, s4: string, s5: string)
    requires DateTimeText(s0) && DateTimeText(s1) && DateTimeText(s2)
    requires DateTimeText(s3) && DateTimeText(s4) && DateTimeText(s5)
    ensures DateTimeText(s0 + (s1 + (s2 + (s3 + (s4 + s5)))))
  {
    DateTimeTextConcat(s4, s5);
    DateTimeTextConcat(s3, s4 + s5);
    DateTimeTextConcat(s2, s3 + (s4 + s5));
    DateTimeTextConcat(s1, s2 + (s3 + (s4 + s5)));
    DateTimeTextConcat(s0, s1 + (s2 + (s3 + (s4 + s5))));
  }

  lemma TailChars(d: LocalDateTime)
    ensures DateTimeText(Tail(d))
  {
    Pad2Digits(d.month + 1);
    Pad2Digits(d.day);
    Pad2Digits(d.hours);
    Pad2Digits(d.minutes);
    Pad2Digits(d.seconds);
    PadMillisDigits(d.milliseconds);
    SegmentChars('-', Pad2(d.month + 1));
    SegmentChars('-', Pad2(d.day));
    SegmentChars('T', Pad2(d.hours));
    SegmentChars(':', Pad2(d.minutes));
    SegmentChars(':', Pad2(d.seconds));
    SegmentChars('.', PadMillis(d.milliseconds));
    ConcatChars6(Segment('-', Pad2(d.month + 1)), Segment('-', Pad2(d.day)), Segment('T', Pad2(d.hours)),
      Segment(':', Pad2(d.minutes)), Segment(':', Pad2(d.seconds)), Segment('.', PadMillis(d.milliseconds)));
  }

  lemma YearChars(y: int)
    ensures DateTimeText(IntToString(y))
  {
    IntToStringParses(y);
    if y < 0 {
      NatToStringDigits(-y);
      var year, digits := IntToString(y), NatToString(-y);
      assert year == "-" + digits;
      assert forall i | 1 <= i < |year| :: year[i] == digits[i - 1];
    }
  }

  /** A rendered date holds nothing but digits and its separators (a `-` leads a negative year). */
  lemma DateTimeChars(d: LocalDateTime)
    ensures DateTimeText(ToXmlDateTime(d))
  {
    YearChars(d.year);
    TailChars(d);
    DateTimeTextConcat(IntToString(d.year), Tail(d));
  }

  /** The value of two decimal digits. */
  function Two(a: char, b: char): nat
    requires IsDigit(a) && IsDigit(b)
  {
    (a as int - '0' as int) * 10 + (b as int - '0' as int)
  }

  /** Every character position of the 19 after the year that holds a digit does. */
  predicate TailDigits(t: string)
    requires |t| == 19
  {
    IsDigit(t[1]) && IsDigit(t[2]) && IsDigit(t[4]) && IsDigit(t[5]) && IsDigit(t[7]) &&
    IsDigit(t[8]) && IsDigit(t[10]) && IsDigit(t[11]) && IsDigit(t[13]) && IsDigit(t[14]) &&
    IsDigit(t[16]) && IsDigit(t[17]) && IsDigit(t[18])
  }

  /** Reads the 19 characters after the year, given the year already read. */
  function ParseTail(t: string, year: int): Option<LocalDateTime>
    requires |t| == 19
  {
    if t[0] == '-' && t[3] == '-' && t[6] == 'T' && t[9] == ':' && t[12] == ':' && t[15] == '.' &&
       TailDigits(t) && Two(t[1], t[2]) >= 1
    then
      var ms := (t[16] as int - '0' as int) * 100 + Two(t[17], t[18]);
      Some(LocalDateTime(year, Two(t[1], t[2]) - 1, Two(t[4], t[5]), Two(t[7], t[8]),
        Two(t[10], t[11]), Two(t[13], t[14]), ms))
    else None
  }

  /**
   * Reads a rendered date back: the last 19 characters hold the separators and
   * the two- and three-digit fields at fixed offsets, and everything before them
   * is the year.
   */
  function ParseXmlDateTime(s: string): Option<LocalDateTime>
  {
    if |s| < 20 then None
    else
      var n := |s| - 19;
      match ParseInt(s[..n])
      case None => None
      case Some(year) => ParseTail(s[n..], year)
  }

  /** Six segments of widths 2, 2, 2, 2, 2 and 3, laid out character by character. */
  lemma SegmentsLayout(mo: string, da: string, ho: string, mi: string, se: string, ms: string)
    requires |mo| == |da| == |ho| == |mi| == |se| == 2 && |ms| == 3
    ensures Segment('-', mo) + (Segment('-', da) + (Segment('T', ho) +
            (Segment(':', mi) + (Segment(':', se) + Segment('.', ms))))) ==
            ['-', mo[0], mo[1], '-', da[0], da[1], 'T', ho[0], ho[1], ':', mi[0], mi[1],
             ':', se[0], se[1], '.', ms[0], ms[1], ms[2]]
  {
  }

  lemma TwoOf(i: nat)
    requires i < 100
    ensures Two(DigitChar(i / 10), DigitChar(i % 10)) == i
  {
  }

  lemma ThreeOf(i: nat)
    requires i < 1000
    ensures (DigitChar(i / 100) as int - '0' as int) * 100 + Two(DigitChar(i / 10 % 10), DigitChar(i % 10)) == i
  {
    var a, r := i / 100, i % 100;
    var b, c := r / 10, r % 10;
    assert i == 100 * a + 10 * b + c;
    assert i / 10 == 10 * a + b;
    assert i / 10 % 10 == b && i % 10 == c;
    TwoOf(r);
  }

  /** The 19 characters a tail holds when its fields are in range. */
  function TailText(mo: nat, da: nat, ho: nat, mi: nat, se: nat, ms: nat): (r: string)
    requires mo < 100 && da < 100 && ho < 100 && mi < 100 && se < 100 && ms < 1000
    ensures |r| == 19
  {
    ['-', DigitChar(mo / 10), DigitChar(mo % 10), '-', DigitChar(da / 10), DigitChar(da % 10),
     'T', DigitChar(ho / 10), DigitChar(ho % 10), ':', DigitChar(mi / 10), DigitChar(mi % 10),
     ':', DigitChar(se / 10), DigitChar(se % 10),
     '.', DigitChar(ms / 100), DigitChar(ms / 10 % 10), DigitChar(ms % 10)]
  }

  lemma ReadTailText(year: int, mo: nat, da: nat, ho: nat, mi: nat, se: nat, ms: nat)
    requires 1 <= mo < 100 && da < 100 && ho < 100 && mi < 100 && se < 100 && ms < 1000
    ensures ParseTail(TailText(mo, da, ho, mi, se, ms), year) == Some(LocalDateTime(year, mo - 1, da, ho, mi, se, ms))
  {
    TwoOf(mo);
    TwoOf(da);
    TwoOf(ho);
    TwoOf(mi);
    TwoOf(se);
    ThreeOf(ms);
  }

  /** The tail of an in-range date, character by character. */
  lemma TailLayout(d: LocalDateTime)
    requires InRange(d)
    ensures Tail(d) == TailText(d.month + 1, d.day, d.hours, d.minutes, d.seconds, d.milliseconds)
  {
    Pad2Digits(d.month + 1);
    Pad2Digits(d.day);
    Pad2Digits(d.hours);
    Pad2Digits(d.minutes);
    Pad2Digits(d.seconds);
    PadMillisDigits(d.milliseconds);
    SegmentsLayout(Pad2(d.month + 1), Pad2(d.day), Pad2(d.hours), Pad2(d.minutes), Pad2(d.seconds),
      PadMillis(d.milliseconds));
  }

  /** The fields after the year are read back from `Tail`. */
  lemma ReadTail(d: LocalDateTime)
    requires InRange(d)
    ensures |Tail(d)| == 19 && ParseTail(Tail(d), d.year) == Some(d)
  {
    TailLayout(d);
    ReadTailText(d.year, d.month + 1, d.day, d.hours, d.minutes, d.seconds, d.milliseconds);
  }

  /** A year that reads back followed by a tail that reads back reads back as a date. */
  lemma ReadSplit(year: string, tail: string, d: LocalDateTime)
    requires |year| >= 1 && ParseInt(year) == Some(d.year)
    requires |tail| == 19 && ParseTail(tail, d.year) == Some(d)
    ensures ParseXmlDateTime(year + tail) == Some(d)
  {
    var s := year + tail;
    assert s[..|s| - 19] == year && s[|s| - 19..] == tail;
  }

  /** Every in-range date can be read back from its rendering, whatever its year. */
  lemma DateTimeRoundTrip(d: LocalDateTime)
    requires InRange(d)
    ensures ParseXmlDateTime(ToXmlDateTime(d)) == Some(d)
  {
    ReadTail(d);
    IntToStringParses(d.year);
    ReadSplit(IntToString(d.year), Tail(d), d);
  }

  /** The worked example: 2024-03-07 09:05:03.007 (March is getMonth() == 2). */
  lemma ExampleDate()
    ensures ToXmlDateTime(LocalDateTime(2024, 2, 7, 9, 5, 3, 7)) == "2024-03-07T09:05:03.007"
  {
    assert NatToString(2024) == "2024" by {
      assert NatToString(2) == "2";
      assert NatToString(20) == "20";
      assert NatToString(202) == "202";
    }
  }
}
