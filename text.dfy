/**
 * Text helpers shared by both writers: global single-character replacement
 * (JavaScript's `s.replace(/[...]/g, r)`) and the decimal text of integers
 * (JavaScript's `n + ''` for integral numbers), with its parser.
 */
module Text {
  import opened Wrappers

  // ---------------------------------------------------------------------------
  // Replacement

  /** `s` with every character that belongs to `cs` replaced by `r`, left to right. */
  function Replace(s: string, cs: set<char>, r: string): string
  {
    if s == [] then [] else (if s[0] in cs then r else [s[0]]) + Replace(s[1..], cs, r)
  }

  /** Replacement works character by character, so it distributes over concatenation. */
  lemma {:induction false} ReplaceConcat(a: string, b: string, cs: set<char>, r: string)
    ensures Replace(a + b, cs, r) == Replace(a, cs, r) + Replace(b, cs, r)
  {
    if a == [] {
      assert a + b == b;
    } else {
      assert (a + b)[0] == a[0];
      assert (a + b)[1..] == a[1..] + b;
      ReplaceConcat(a[1..], b, cs, r);
    }
  }

  lemma ReplaceSingle(c: char, cs: set<char>, r: string)
    ensures Replace([c], cs, r) == if c in cs then r else [c]
  {
    assert [c][1..] == [];
  }

  /** A string with no character of `cs` is left as it is. */
  lemma {:induction false} ReplaceAbsent(s: string, cs: set<char>, r: string)
    requires forall c | c in s :: c !in cs
    ensures Replace(s, cs, r) == s
  {
    if s != [] {
      assert s[0] in s;
      assert forall c | c in s[1..] :: c in s;
      ReplaceAbsent(s[1..], cs, r);
    }
  }

  /** A string without `x` is left as it is by replacing `x`. */
  lemma ReplaceMissing(s: string, x: char, r: string)
    requires x !in s
    ensures Replace(s, {x}, r) == s
  {
    ReplaceAbsent(s, {x}, r);
  }

  /** `p` is a prefix of `s`. */
  predicate StartsWith(s: string, p: string)
  {
    |p| <= |s| && s[..|p|] == p
  }

  /** Text that starts with `p` starts with `p`, and what follows `p` is the rest. */
  lemma PrefixRest(p: string, x: string)
    ensures StartsWith(p + x, p) && (p + x)[|p|..] == x
  {
  }

  /** Appending text keeps every prefix. */
  lemma StartsWithAppend(s: string, p: string, x: string)
    requires StartsWith(s, p)
    ensures StartsWith(s + x, p)
  {
    assert (s + x)[..|p|] == s[..|p|];
  }

  // ---------------------------------------------------------------------------
  // Decimal text

  predicate IsDigit(c: char)
  {
    '0' <= c <= '9'
  }

  predicate AllDigits(s: string)
  {
    forall i | 0 <= i < |s| :: IsDigit(s[i])
  }

  function DigitChar(d: nat): (c: char)
    requires d < 10
    ensures IsDigit(c) && c as int - '0' as int == d
  {
    (d + '0' as int) as char
  }

  /** The value of a string of decimal digits, most significant first. */
  function DigitsValue(s: string): nat
    requires AllDigits(s)
  {
    if s == [] then 0
    else DigitsValue(s[..|s| - 1]) * 10 + (s[|s| - 1] as int - '0' as int)
  }

  /** The shortest decimal text of `n`. */
  function NatToString(n: nat): string
  {
    if n < 10 then [DigitChar(n)] else NatToString(n / 10) + [DigitChar(n % 10)]
  }

  /** The decimal text of `n` is digits only, has no leading zero, and reads back as `n`. */
  lemma {:induction false} NatToStringDigits(n: nat)
    ensures |NatToString(n)| >= 1 && AllDigits(NatToString(n))
    ensures |NatToString(n)| > 1 ==> NatToString(n)[0] != '0'
    ensures DigitsValue(NatToString(n)) == n
  {
    if n >= 10 {
      var init := NatToString(n / 10);
      var r := NatToString(n);
      NatToStringDigits(n / 10);
      assert r == init + [DigitChar(n % 10)];
      assert r[..|r| - 1] == init;
      assert AllDigits(r) by {
        forall i | 0 <= i < |r| ensures IsDigit(r[i]) {
          if i < |init| { assert r[i] == init[i]; }
        }
      }
    }
  }

  /** How many characters the decimal text of a number below 10000 takes. */
  lemma {:induction false} NatToStringWidth(n: nat)
    ensures n < 10 ==> |NatToString(n)| == 1
    ensures 10 <= n < 100 ==> |NatToString(n)| == 2
    ensures 100 <= n < 1000 ==> |NatToString(n)| == 3
    ensures 1000 <= n < 10000 ==> |NatToString(n)| == 4
  {
    if n >= 10 {
      assert |NatToString(n)| == |NatToString(n / 10)| + 1;
      NatToStringWidth(n / 10);
    }
  }

  /** An optional minus sign followed by at least one digit. */
  function ParseInt(s: string): Option<int>
  {
    if |s| >= 2 && s[0] == '-' && AllDigits(s[1..]) then Some(0 - DigitsValue(s[1..]) as int)
    else if |s| >= 1 && AllDigits(s) then Some(DigitsValue(s))
    else None
  }

  /** The decimal text of an integer, with a leading `-` when it is negative. */
  function IntToString(i: int): string
  {
    if i < 0 then "-" + NatToString(-i) else NatToString(i)
  }

  /** The decimal text of an integer is never empty and reads back as the integer. */
  lemma IntToStringParses(i: int)
    ensures |IntToString(i)| >= 1
    ensures ParseInt(IntToString(i)) == Some(i)
    ensures i >= 0 ==> AllDigits(IntToString(i))
  {
    if i < 0 {
      var r := IntToString(i);
      NatToStringDigits(-i);
      assert r[1..] == NatToString(-i);
      assert !IsDigit(r[0]);
    } else {
      NatToStringDigits(i);
    }
  }
}
