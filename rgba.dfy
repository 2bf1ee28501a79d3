/** `FFmpegService.rgba_to_hex`: "rgba(r,g,b,a)" to "#rrggbb". */
module Rgba {
  import opened Wrappers
  import opened Strings

  const RgbaChars: set<char> := {'r', 'g', 'b', 'a', '(', ')'}

  /** Python's `int(float(s))` for the literals `ddd`, `ddd.ddd`, `.ddd` and
      `ddd.`, with surrounding white space; None where `float` raises. The
      result is the exact whole part of the literal, which is what Python
      gives for literals of up to 15 significant digits; longer ones can be
      rounded by the conversion to a double, and overflow is not modelled. */
  function FloatToNat(s: string): (r: Option<nat>)
  {
    var t := Strip(s, Whitespace);
    var pieces := Split(t, ".");
    if |pieces| == 1 then ParseNat(t)
    else if |pieces| == 2 && (pieces[0] != "" || pieces[1] != "")
            && AllDigits(pieces[0]) && AllDigits(pieces[1])
    then Some(DigitsValue(pieces[0]))
    else None
  }

  /** `map(float, parts)` followed by `int()`: every part must convert. */
  function ParseComponents(parts: seq<string>): (r: Option<seq<nat>>)
    ensures r.Some? ==> |r.value| == |parts|
  {
    if parts == [] then Some([])
    else
      match (FloatToNat(parts[0]), ParseComponents(parts[1..]))
      case (Some(x), Some(xs)) => Some([x] + xs)
      case _ => None
  }

  /** `rgba_to_hex`: strip the characters of "rgba()" from both ends, split at
      ',', require exactly four numbers, and print the first three as two-digit
      lower-case hex; the fourth (alpha) is discarded. None where the Python
      code raises `ValueError`. */
  function RgbaToHex(rgba: string): (r: Option<string>)
    ensures r.Some? ==> |r.value| >= 7 && r.value[0] == '#'
  {
    match ParseComponents(Split(Strip(rgba, RgbaChars), ","))
    case Some(c) => if |c| == 4 then Some("#" + Hex2(c[0]) + Hex2(c[1]) + Hex2(c[2])) else None
    case None => None
  }

  /** An alpha the conversion accepts and the stripping leaves alone: it
      starts and ends with a digit, has no ',' and converts with `float`. */
  predicate AlphaLiteral(alpha: string) {
    alpha != [] && IsDigit(alpha[0]) && IsDigit(alpha[|alpha| - 1]) && ',' !in alpha && FloatToNat(alpha).Some?
  }

  /** A string that starts and ends with a digit is left alone by `strip()`. */
  lemma {:induction false} StripDigitEnds(s: string)
    requires s != [] && IsDigit(s[0]) && IsDigit(s[|s| - 1])
    ensures Strip(s, Whitespace) == s
  {
    assert s[0] !in Whitespace && s[|s| - 1] !in Whitespace;
    StripWrapped([], s, [], Whitespace);
    assert [] + s + [] == s;
  }

  /** "whole.frac" splits at '.' into its two digit strings. */
  lemma {:induction false} SplitDecimal(whole: string, frac: string)
    requires AllDigits(whole) && AllDigits(frac)
    ensures Split(whole + "." + frac, ".") == [whole, frac]
  {
    assert '.' !in whole by {
      assert forall i :: 0 <= i < |whole| ==> IsDigit(whole[i]);
    }
    assert '.' !in frac by {
      assert forall i :: 0 <= i < |frac| ==> IsDigit(frac[i]);
    }
    SplitAtSeparator(whole, '.', frac);
    SplitWithoutSeparator(frac, '.');
  }

  /** `int(float("whole.frac"))` is the value of the whole part. */
  lemma {:induction false} FloatToNatOfDecimal(whole: string, frac: string)
    requires whole != [] && AllDigits(whole) && frac != [] && AllDigits(frac)
    ensures FloatToNat(whole + "." + frac) == Some(DigitsValue(whole))
  {
    var s := whole + "." + frac;
    assert Strip(s, Whitespace) == s by {
      assert s[0] == whole[0] && s[|s| - 1] == frac[|frac| - 1];
      StripDigitEnds(s);
    }
    assert Split(s, ".") == [whole, frac] by {
      SplitDecimal(whole, frac);
    }
  }

  /** Decimal literals "whole.frac" and plain digit strings are alphas. */
  lemma {:induction false} DecimalAlpha(whole: string, frac: string)
    requires whole != [] && AllDigits(whole) && frac != [] && AllDigits(frac)
    ensures AlphaLiteral(whole + "." + frac) && FloatToNat(whole + "." + frac) == Some(DigitsValue(whole))
    ensures AlphaLiteral(whole) && FloatToNat(whole) == Some(DigitsValue(whole))
  {
    var s := whole + "." + frac;
    assert FloatToNat(s) == Some(DigitsValue(whole)) by {
      FloatToNatOfDecimal(whole, frac);
    }
    assert ',' !in s by {
      assert forall i :: 0 <= i < |s| ==> s[i] == '.' || IsDigit(s[i]);
    }
    assert s[0] == whole[0] && s[|s| - 1] == frac[|frac| - 1];
    assert ',' !in whole by {
      NoCommaInDigits(whole);
    }
    FloatToNatOfDigitString(whole);
  }

  /** With a fractional alpha such as "0.3" the result is the same: the
      alpha is parsed and dropped. */
  lemma {:induction false} FractionalAlphaDropped(r: nat, g: nat, b: nat, whole: string, frac: string)
    requires whole != [] && AllDigits(whole) && frac != [] && AllDigits(frac)
    ensures RgbaToHex(RgbaText(r, g, b, whole + "." + frac)) == Some("#" + Hex2(r) + Hex2(g) + Hex2(b))
    ensures RgbaToHex(RgbaText(r, g, b, whole + "." + frac)) == RgbaToHex(RgbaText(r, g, b, whole))
  {
    DecimalAlpha(whole, frac);
    RgbaToHexOfComponents(r, g, b, whole + "." + frac);
    RgbaToHexOfComponents(r, g, b, whole);
  }

  /** The text "rgba(r,g,b,alpha)" with the components in decimal. */
  function RgbaText(r: nat, g: nat, b: nat, alpha: string): string {
    "rgba(" + Join([NatToString(r), NatToString(g), NatToString(b), alpha], ",") + ")"
  }

  lemma {:induction false} StripDigits(s: string)
    requires s != [] && AllDigits(s)
    ensures Strip(s, Whitespace) == s
  {
    assert s[0] !in Whitespace && s[|s| - 1] !in Whitespace;
    StripWrapped([], s, [], Whitespace);
    assert [] + s + [] == s;
  }

  /** `int(float(s))` of a decimal digit string is its value. */
  lemma {:induction false} FloatToNatOfDigitString(s: string)
    requires s != [] && AllDigits(s)
    ensures FloatToNat(s) == Some(DigitsValue(s))
  {
    StripDigits(s);
    assert '.' !in s;
    SplitWithoutSeparator(s, '.');
  }

  /** The inner text of "rgba(...)" is what stripping the characters of
      "rgba()" leaves, since decimal digits are not among them. */
  lemma {:induction false} StripRgbaText(r: nat, g: nat, b: nat, alpha: string)
    requires AlphaLiteral(alpha)
    ensures Strip(RgbaText(r, g, b, alpha), RgbaChars)
            == Join([NatToString(r), NatToString(g), NatToString(b), alpha], ",")
  {
    var parts := [NatToString(r), NatToString(g), NatToString(b), alpha];
    JoinEnds(parts, ",");
    StripWrapped("rgba(", Join(parts, ","), ")", RgbaChars);
  }

  /** Three decimal digit strings and an alpha joined by ',' split back into themselves. */
  lemma {:induction false} SplitFourDigitStrings(a: string, b: string, c: string, d: string)
    requires AllDigits(a) && AllDigits(b) && AllDigits(c) && ',' !in d
    ensures Split(Join([a, b, c, d], ","), ",") == [a, b, c, d]
  {
    NoCommaInDigits(a);
    NoCommaInDigits(b);
    NoCommaInDigits(c);
    SplitJoin([a, b, c, d], ',');
  }

  /** Parts that each convert convert to the list of their values. */
  lemma {:induction false} ParseComponentsAll(parts: seq<string>, vals: seq<nat>)
    requires |parts| == |vals|
    requires forall i :: 0 <= i < |parts| ==> FloatToNat(parts[i]) == Some(vals[i])
    ensures ParseComponents(parts) == Some(vals)
  {
    if parts != [] {
      ParseComponentsAll(parts[1..], vals[1..]);
      assert vals == [vals[0]] + vals[1..];
    }
  }

  /** Three non-empty decimal digit strings and a convertible alpha convert
      to their values. */
  lemma {:induction false} ParseFourDigitStrings(a: string, b: string, c: string, d: string)
    requires a != [] && AllDigits(a) && b != [] && AllDigits(b)
    requires c != [] && AllDigits(c) && FloatToNat(d).Some?
    ensures ParseComponents([a, b, c, d])
            == Some([DigitsValue(a), DigitsValue(b), DigitsValue(c), FloatToNat(d).value])
  {
    var parts := [a, b, c, d];
    var vals := [DigitsValue(a), DigitsValue(b), DigitsValue(c), FloatToNat(d).value];
    forall i | 0 <= i < 3 ensures FloatToNat(parts[i]) == Some(vals[i]) {
      FloatToNatOfDigitString(parts[i]);
    }
    ParseComponentsAll(parts, vals);
  }

  /** On "rgba(r,g,b,a)" with decimal components and a decimal alpha, the
      result is '#' followed by r, g and b as two lower-case hex digits each;
      alpha is discarded. */
  lemma {:induction false} RgbaToHexOfComponents(r: nat, g: nat, b: nat, alpha: string)
    requires AlphaLiteral(alpha)
    ensures RgbaToHex(RgbaText(r, g, b, alpha)) == Some("#" + Hex2(r) + Hex2(g) + Hex2(b))
  {
    var parts := [NatToString(r), NatToString(g), NatToString(b), alpha];
    StripRgbaText(r, g, b, alpha);
    SplitFourDigitStrings(parts[0], parts[1], parts[2], parts[3]);
    ParseFourDigitStrings(parts[0], parts[1], parts[2], parts[3]);
    DigitsValueOfNatToString(r);
    DigitsValueOfNatToString(g);
    DigitsValueOfNatToString(b);
    RgbaToHexOfParsed(RgbaText(r, g, b, alpha), Join(parts, ","), parts, [r, g, b, FloatToNat(alpha).value]);
  }

  lemma {:induction false} RgbaToHexOfParsed(s: string, inner: string, parts: seq<string>, c: seq<nat>)
    requires Strip(s, RgbaChars) == inner && Split(inner, ",") == parts
    requires ParseComponents(parts) == Some(c) && |c| == 4
    ensures RgbaToHex(s) == Some("#" + Hex2(c[0]) + Hex2(c[1]) + Hex2(c[2]))
  {
  }

  lemma {:induction false} NoCommaInDigits(s: string)
    requires AllDigits(s)
    ensures ',' !in s
  {
  }

  /** Each byte-sized component reads back from its two hex digits. */
  lemma {:induction false} RgbaToHexRoundTrip(r: nat, g: nat, b: nat, alpha: string)
    requires r < 256 && g < 256 && b < 256
    requires AlphaLiteral(alpha)
    ensures var h := RgbaToHex(RgbaText(r, g, b, alpha));
      && h.Some? && |h.value| == 7
      && ParseHex(h.value[1..3]) == Some(r) && ParseHex(h.value[3..5]) == Some(g)
      && ParseHex(h.value[5..7]) == Some(b)
  {
    RgbaToHexOfComponents(r, g, b, alpha);
    Hex2Length(r);
    Hex2Length(g);
    Hex2Length(b);
    HashTripleSlices(Hex2(r), Hex2(g), Hex2(b));
    ParseHex2(r);
    ParseHex2(g);
    ParseHex2(b);
  }

  lemma {:induction false} Hex2Length(n: nat)
    requires n < 256
    ensures |Hex2(n)| == 2
  {
    Hex2Small(n);
  }

  /** The slices of "#" + x + y + z for two-character x, y and z. */
  lemma {:induction false} HashTripleSlices(x: string, y: string, z: string)
    requires |x| == 2 && |y| == 2 && |z| == 2
    ensures var h := "#" + x + y + z;
      |h| == 7 && h[1..3] == x && h[3..5] == y && h[5..7] == z
  {
    var h := "#" + x + y + z;
    assert h[1..3] == x;
    assert h[3..5] == y;
    assert h[5..7] == z;
  }
}
