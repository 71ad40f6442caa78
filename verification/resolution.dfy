/**
 * The overlay text `${w} × ${h}` written by `updateResolution` (src/index.js:53): the
 * viewport width and height in decimal, separated by space, U+00D7 MULTIPLICATION SIGN,
 * space. A parser for that text is its partner: the two form a round trip.
 */
module Resolution {
  import opened Wrappers

  /** U+00D7, the multiplication sign between the two numbers. */
  const Times: char := '\U{D7}'

  /** The separator between width and height. */
  const Separator: string := [' ', Times, ' ']

  predicate IsDigit(c: char)
  {
    '0' <= c <= '9'
  }

  predicate AllDigits(s: string)
  {
    forall i :: 0 <= i < |s| ==> IsDigit(s[i])
  }

  /** How JavaScript prints a non-negative integer: digits only, no leading zero except "0". */
  predicate Canonical(s: string)
  {
    && |s| >= 1
    && AllDigits(s)
    && (|s| == 1 || s[0] != '0')
  }

  function DigitChar(d: nat): (c: char)
    requires d < 10
    ensures IsDigit(c)
    ensures c as int - '0' as int == d
  {
    ('0' as int + d) as char
  }

  function DigitValue(c: char): (d: nat)
    requires IsDigit(c)
    ensures d < 10 && DigitChar(d) == c
  {
    c as int - '0' as int
  }

  /** The number a string of decimal digits denotes. */
  function Value(s: string): nat
    requires AllDigits(s)
  {
    if |s| == 0 then 0 else Value(s[..|s| - 1]) * 10 + DigitValue(s[|s| - 1])
  }

  /** The decimal text of a number, as template-literal interpolation produces it. */
  function Decimal(n: nat): (r: string)
    ensures Canonical(r)
    ensures n < 10 <==> |r| == 1
  {
    if n < 10 then [DigitChar(n)] else Decimal(n / 10) + [DigitChar(n % 10)]
  }

  /** The overlay text for a viewport of the given width and height. */
  function ResolutionText(width: nat, height: nat): (r: string)
    ensures var k := |Decimal(width)|;
      && k + 3 < |r|
      && Canonical(r[..k])
      && r[k..k + 3] == Separator
      && Canonical(r[k + 3..])
  {
    var w := Decimal(width);
    var r := w + Separator + Decimal(height);
    assert r[..|w|] == w;
    assert r[|w| + 3..] == Decimal(height);
    r
  }

  /** The index of the first space in s, or |s| when there is none. */
  function FirstSpace(s: string): (k: nat)
    ensures k <= |s|
    ensures k < |s| ==> s[k] == ' '
    ensures forall i :: 0 <= i < k ==> s[i] != ' '
  {
    if |s| == 0 then 0
    else if s[0] == ' ' then 0
    else 1 + FirstSpace(s[1..])
  }

  /** Reads a canonical decimal number; any other string is rejected. */
  function ParseDecimal(s: string): (r: Option<nat>)
    ensures r.Some? <==> Canonical(s)
  {
    if Canonical(s) then Some(Value(s)) else None
  }

  /** Reads back an overlay text into its width and height. */
  function ParseResolution(s: string): Option<(nat, nat)>
  {
    var k := FirstSpace(s);
    if k + 3 <= |s| && s[k..k + 3] == Separator then
      match (ParseDecimal(s[..k]), ParseDecimal(s[k + 3..]))
      case (Some(w), Some(h)) => Some((w, h))
      case _ => None
    else
      None
  }

  /** The decimal text of n denotes n. */
  lemma {:induction false} ValueOfDecimal(n: nat)
    ensures Value(Decimal(n)) == n
  {
    var r := Decimal(n);
    if n >= 10 {
      ValueOfDecimal(n / 10);
      assert r[..|r| - 1] == Decimal(n / 10);
    }
  }

  /** A digit string with a non-zero leading digit denotes at least that digit. */
  lemma {:induction false} ValueAtLeastLeadingDigit(s: string)
    requires |s| >= 1 && AllDigits(s)
    ensures Value(s) >= DigitValue(s[0])
  {
    if |s| > 1 {
      var p := s[..|s| - 1];
      ValueAtLeastLeadingDigit(p);
    }
  }

  /** A canonical digit string is the decimal text of the number it denotes. */
  lemma {:induction false} DecimalOfValue(s: string)
    requires Canonical(s)
    ensures Decimal(Value(s)) == s
  {
    if |s| > 1 {
      var p := s[..|s| - 1];
      var d := DigitValue(s[|s| - 1]);
      assert Canonical(p);
      ValueAtLeastLeadingDigit(p);
      DecimalOfValue(p);
      var n := Value(s);
      assert n == Value(p) * 10 + d;
      assert n / 10 == Value(p) && n % 10 == d;
      assert s == p + [DigitChar(d)];
    }
  }

  /** Parsing the overlay text gives back the viewport it was written from. */
  lemma ParseResolutionText(width: nat, height: nat)
    ensures ParseResolution(ResolutionText(width, height)) == Some((width, height))
  {
    var w := Decimal(width);
    var h := Decimal(height);
    var r := ResolutionText(width, height);
    assert r == w + Separator + h;
    FirstSpaceOfNumberThenSeparator(w, Separator + h);
    assert r[..|w|] == w;
    assert r[|w| + 3..] == h;
    ValueOfDecimal(width);
    ValueOfDecimal(height);
  }

  /** Every text the parser accepts is exactly the overlay text of what it returns. */
  lemma ResolutionTextOfParse(s: string)
    requires ParseResolution(s).Some?
    ensures ResolutionText(ParseResolution(s).value.0, ParseResolution(s).value.1) == s
  {
    var k := FirstSpace(s);
    var w := s[..k];
    var h := s[k + 3..];
    DecimalOfValue(w);
    DecimalOfValue(h);
    assert s == w + Separator + h;
  }

  /** A text reads as a viewport exactly when it is that viewport's overlay text. */
  lemma ParseResolutionIff(s: string, width: nat, height: nat)
    ensures ParseResolution(s) == Some((width, height)) <==> s == ResolutionText(width, height)
  {
    if ParseResolution(s) == Some((width, height)) {
      ResolutionTextOfParse(s);
    }
    if s == ResolutionText(width, height) {
      ParseResolutionText(width, height);
    }
  }

  /** Distinct viewports are shown as distinct texts. */
  lemma ResolutionTextInjective(w1: nat, h1: nat, w2: nat, h2: nat)
    requires ResolutionText(w1, h1) == ResolutionText(w2, h2)
    ensures w1 == w2 && h1 == h2
  {
    ParseResolutionText(w1, h1);
    ParseResolutionText(w2, h2);
  }

  lemma {:induction false} FirstSpaceOfNumberThenSeparator(w: string, rest: string)
    requires AllDigits(w) && |rest| >= 1 && rest[0] == ' '
    ensures FirstSpace(w + rest) == |w|
  {
    if |w| > 0 {
      assert (w + rest)[1..] == w[1..] + rest;
      FirstSpaceOfNumberThenSeparator(w[1..], rest);
    } else {
      assert w + rest == rest;
    }
  }
}
