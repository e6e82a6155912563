/** Account numbers are decimal strings. Allocation reads the previous number
    with `Integer.parseInt` and writes the next one with `+ ""`; this module
    gives both directions on unbounded naturals. */
module Decimal {

  predicate IsDigit(c: char) {
    '0' <= c <= '9'
  }

  /** A non-empty string of decimal digits (leading zeros allowed). */
  predicate IsDecimal(s: string) {
    |s| > 0 && forall i :: 0 <= i < |s| ==> IsDigit(s[i])
  }

  function DigitValue(c: char): (d: nat)
    requires IsDigit(c)
    ensures d < 10
  {
    (c as int) - ('0' as int)
  }

  function DigitChar(d: nat): (c: char)
    requires d < 10
    ensures IsDigit(c) && DigitValue(c) == d
  {
    (('0' as int) + d) as char
  }

  /** The canonical rendering of `n`: digits only, no leading zero. */
  function Render(n: nat): (s: string)
    ensures IsDecimal(s)
    ensures s[0] == '0' ==> s == "0"
    decreases n
  {
    if n < 10 then [DigitChar(n)] else Render(n / 10) + [DigitChar(n % 10)]
  }

  /** The value of a decimal string, most significant digit first. */
  function Parse(s: string): (r: nat)
    requires IsDecimal(s)
    ensures s[0] != '0' ==> r >= 1
    decreases |s|
  {
    if |s| == 1 then DigitValue(s[0])
    else
      assert s[..|s| - 1][0] == s[0];
      Parse(s[..|s| - 1]) * 10 + DigitValue(s[|s| - 1])
  }

  /** Appending a digit to a positive number appends its character. */
  lemma RenderStep(n: nat, d: nat)
    requires n >= 1 && d < 10
    ensures Render(n * 10 + d) == Render(n) + [DigitChar(d)]
  {
  }

  /** A digit string without a leading zero is the rendering of its value. */
  lemma {:induction false} RenderParse(s: string)
    requires IsDecimal(s)
    requires s[0] != '0' || |s| == 1
    ensures Render(Parse(s)) == s
    decreases |s|
  {
    if |s| > 1 {
      var prefix := s[..|s| - 1];
      assert prefix[0] == s[0];
      RenderParse(prefix);
      RenderStep(Parse(prefix), DigitValue(s[|s| - 1]));
      assert prefix + [s[|s| - 1]] == s;
    }
  }

  /** Parsing the rendering of a number gives the number back. */
  lemma {:induction false} ParseRender(n: nat)
    ensures Parse(Render(n)) == n
    decreases n
  {
    if n >= 10 {
      var prefix := Render(n / 10);
      var s := Render(n);
      assert s == prefix + [DigitChar(n % 10)];
      assert s[..|s| - 1] == prefix;
      ParseRender(n / 10);
    }
  }

  /** Different numbers render differently. */
  lemma RenderInjective(m: nat, n: nat)
    requires Render(m) == Render(n)
    ensures m == n
  {
    ParseRender(m);
    ParseRender(n);
  }
}
