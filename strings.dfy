/**
 * The string operations of JavaScript that the bridge relies on: `startsWith`, `join`,
 * number-to-text, `parseInt(_, 10)`, `split('.')[0]` and a global regular-expression `replace`
 * of a fixed pattern.
 */
module Strings {
  import opened Wrappers

  predicate StartsWith(s: string, prefix: string)
  {
    |prefix| <= |s| && s[..|prefix|] == prefix
  }

  /** `Array.prototype.join(sep)`: the items with `sep` between neighbours. */
  function Join(items: seq<string>, sep: string): string
  {
    if items == [] then ""
    else if |items| == 1 then items[0]
    else items[0] + sep + Join(items[1..], sep)
  }

  predicate IsDigit(c: char)
  {
    '0' <= c <= '9'
  }

  function DigitChar(d: nat): (c: char)
    requires d < 10
    ensures IsDigit(c) && c as int - '0' as int == d
  {
    (d + '0' as int) as char
  }

  /** Decimal text of a natural number, as a template literal `${n}` prints it. */
  function NatToString(n: nat): (s: string)
    ensures |s| > 0 && forall i :: 0 <= i < |s| ==> IsDigit(s[i])
  {
    if n < 10 then [DigitChar(n)] else NatToString(n / 10) + [DigitChar(n % 10)]
  }

  function DigitOf(c: char): nat
    requires IsDigit(c)
  {
    c as int - '0' as int
  }

  /** The value of a string of decimal digits, read left to right. */
  function DigitsValue(s: string): nat
    requires forall i :: 0 <= i < |s| ==> IsDigit(s[i])
  {
    if s == [] then 0 else DigitsValue(s[..|s| - 1]) * 10 + DigitOf(s[|s| - 1])
  }

  /** Reading back the printed number gives the number. */
  lemma {:induction false} DigitsValueOfNatToString(n: nat)
    ensures DigitsValue(NatToString(n)) == n
  {
    if n >= 10 {
      DigitsValueOfNatToString(n / 10);
      var s := NatToString(n);
      assert s[..|s| - 1] == NatToString(n / 10);
    }
  }

  /** The longest prefix of `s` made of decimal digits. */
  function LeadingDigits(s: string): (d: string)
    ensures |d| <= |s| && d == s[..|d|]
    ensures forall i :: 0 <= i < |d| ==> IsDigit(d[i])
    ensures |d| < |s| ==> !IsDigit(s[|d|])
  {
    if s == [] || !IsDigit(s[0]) then [] else [s[0]] + LeadingDigits(s[1..])
  }

  /**
   * `parseInt(s, 10)`: an optional sign followed by the longest run of digits; `None` stands
   * for `NaN`, when no digit follows.
   */
  function ParseInt(s: string): (r: Option<int>)
    ensures r.Some? <==> (|s| > 0 && IsDigit(s[0])) || (|s| > 1 && (s[0] == '-' || s[0] == '+') && IsDigit(s[1]))
  {
    if |s| > 0 && (s[0] == '-' || s[0] == '+') then
      var d := LeadingDigits(s[1..]);
      if d == [] then None
      else
        var v: int := DigitsValue(d);
        Some(if s[0] == '-' then -v else v)
    else
      var d := LeadingDigits(s);
      if d == [] then None else Some(DigitsValue(d))
  }

  /** Printed digits followed by a non-digit are read back up to that point. */
  lemma {:induction false} LeadingDigitsOfPrinted(d: string, rest: string)
    requires forall i :: 0 <= i < |d| ==> IsDigit(d[i])
    requires rest == [] || !IsDigit(rest[0])
    ensures LeadingDigits(d + rest) == d
  {
    if d != [] {
      assert (d + rest)[1..] == d[1..] + rest;
      LeadingDigitsOfPrinted(d[1..], rest);
    } else {
      assert d + rest == rest;
    }
  }

  /** `parseInt` reads back a printed number that ends where the digits end. */
  lemma ParseIntOfPrinted(n: nat, rest: string)
    requires rest == [] || !IsDigit(rest[0])
    ensures ParseInt(NatToString(n) + rest) == Some(n)
  {
    var d := NatToString(n);
    LeadingDigitsOfPrinted(d, rest);
    DigitsValueOfNatToString(n);
    assert (d + rest)[0] == d[0] && IsDigit(d[0]);
  }

  /** `s.split(c)[0]`: the text before the first `c`, or all of `s` when `c` does not occur. */
  function Before(s: string, c: char): (r: string)
    ensures |r| <= |s| && r == s[..|r|] && c !in r
    ensures |r| < |s| ==> s[|r|] == c
  {
    if s == [] || s[0] == c then [] else [s[0]] + Before(s[1..], c)
  }

  /** Text that does not contain `c`, followed by `c`, splits back at that point. */
  lemma {:induction false} BeforeOfConcat(a: string, c: char, b: string)
    requires c !in a
    ensures Before(a + [c] + b, c) == a
  {
    if a != [] {
      assert (a + [c] + b)[1..] == a[1..] + [c] + b;
      BeforeOfConcat(a[1..], c, b);
    }
  }

  /**
   * `s.replace(new RegExp(pat, 'g'), rep)` for a pattern without special characters: every
   * occurrence of `pat`, found left to right without overlap, becomes `rep`; `rep` is inserted
   * as it is.
   */
  function ReplaceAll(s: string, pat: string, rep: string): string
    requires pat != []
    decreases |s|
  {
    if |s| < |pat| then s
    else if s[..|pat|] == pat then rep + ReplaceAll(s[|pat|..], pat, rep)
    else [s[0]] + ReplaceAll(s[1..], pat, rep)
  }

  /** A prefix that does not contain the first character of the pattern is copied unchanged. */
  lemma {:induction false} ReplaceAllSkipsLiteral(lit: string, b: string, pat: string, rep: string)
    requires pat != [] && pat[0] !in lit
    ensures ReplaceAll(lit + b, pat, rep) == lit + ReplaceAll(b, pat, rep)
  {
    if lit != [] {
      var s := lit + b;
      assert s[1..] == lit[1..] + b;
      if |s| >= |pat| {
        assert s[0] == lit[0] && s[0] != pat[0];
        assert s[..|pat|] != pat;
        ReplaceAllSkipsLiteral(lit[1..], b, pat, rep);
        calc {
          ReplaceAll(s, pat, rep);
          [s[0]] + ReplaceAll(lit[1..] + b, pat, rep);
          [lit[0]] + (lit[1..] + ReplaceAll(b, pat, rep));
          { assert [lit[0]] + lit[1..] == lit; }
          lit + ReplaceAll(b, pat, rep);
        }
      } else {
        ReplaceAllShort(b, pat, rep);
      }
    } else {
      assert lit + b == b;
    }
  }

  /** Text shorter than the pattern is left alone. */
  lemma ReplaceAllShort(s: string, pat: string, rep: string)
    requires pat != [] && |s| < |pat|
    ensures ReplaceAll(s, pat, rep) == s
  {
  }

  /** Text without the pattern's first character is left alone. */
  lemma ReplaceAllIdentity(lit: string, pat: string, rep: string)
    requires pat != [] && pat[0] !in lit
    ensures ReplaceAll(lit, pat, rep) == lit
  {
    ReplaceAllSkipsLiteral(lit, [], pat, rep);
    assert lit + [] == lit;
  }

  /** An occurrence at the front is replaced and the scan resumes after it. */
  lemma ReplaceAllAtPattern(pat: string, b: string, rep: string)
    requires pat != []
    ensures ReplaceAll(pat + b, pat, rep) == rep + ReplaceAll(b, pat, rep)
  {
    var s := pat + b;
    assert s[..|pat|] == pat && s[|pat|..] == b;
  }

  /**
   * When `b` starts with a character that the pattern does not contain, no occurrence can
   * straddle the boundary, so the two sides are replaced independently.
   */
  lemma {:induction false} ReplaceAllSplit(a: string, b: string, pat: string, rep: string)
    requires pat != [] && b != [] && b[0] !in pat
    ensures ReplaceAll(a + b, pat, rep) == ReplaceAll(a, pat, rep) + ReplaceAll(b, pat, rep)
    decreases |a|
  {
    if a == [] {
      assert a + b == b;
    } else if |a + b| < |pat| {
      ReplaceAllShort(a, pat, rep);
      ReplaceAllShort(b, pat, rep);
    } else if (a + b)[..|pat|] == pat {
      SplitAtMatch(a, b, pat, rep);
    } else {
      SplitAtMismatch(a, b, pat, rep);
    }
  }

  /** The step of ReplaceAllSplit where an occurrence starts at the front. */
  lemma {:induction false} SplitAtMatch(a: string, b: string, pat: string, rep: string)
    requires pat != [] && b != [] && b[0] !in pat && a != []
    requires |a + b| >= |pat| && (a + b)[..|pat|] == pat
    ensures ReplaceAll(a + b, pat, rep) == ReplaceAll(a, pat, rep) + ReplaceAll(b, pat, rep)
    decreases |a|, 0
  {
    var s := a + b;
    // were the occurrence to reach into b, pat[|a|] would be b[0], which pat does not contain
    var k := if |a| < |pat| then |a| else 0;
    assert pat[k] == s[..|pat|][k] == s[k] && pat[k] in pat;
    assert |a| >= |pat|;
    assert a[..|pat|] == pat;
    assert s[|pat|..] == a[|pat|..] + b;
    ReplaceAllSplit(a[|pat|..], b, pat, rep);
  }

  /** The step of ReplaceAllSplit where no occurrence starts at the front. */
  lemma {:induction false} SplitAtMismatch(a: string, b: string, pat: string, rep: string)
    requires pat != [] && b != [] && b[0] !in pat && a != []
    requires |a + b| >= |pat| && (a + b)[..|pat|] != pat
    ensures ReplaceAll(a + b, pat, rep) == ReplaceAll(a, pat, rep) + ReplaceAll(b, pat, rep)
    decreases |a|, 0
  {
    var s := a + b;
    assert s[1..] == a[1..] + b;
    assert ReplaceAll(s, pat, rep) == [a[0]] + ReplaceAll(a[1..] + b, pat, rep);
    ReplaceAllSplit(a[1..], b, pat, rep);
    if |a| >= |pat| {
      assert a[..|pat|] == s[..|pat|];
      assert ReplaceAll(a, pat, rep) == [a[0]] + ReplaceAll(a[1..], pat, rep);
    } else {
      ReplaceAllShort(a, pat, rep);
      ReplaceAllShort(a[1..], pat, rep);
      assert a == [a[0]] + a[1..];
    }
  }
}
