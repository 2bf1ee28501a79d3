/** `hex_to_rgb` and `rgb_to_hex` (scripts_examples/utils.py). */
module ColorUtils {
  import opened Wrappers
  import opened Strings
  import Rgba

  /** A colour as `hex_to_rgb` returns it: a sign on a field makes a
      component negative. */
  datatype Rgb = Rgb(r: int, g: int, b: int)

  /** Python's `s[i:j]` for 0 <= i <= j: both ends are clamped to the length. */
  function Slice(s: string, i: nat, j: nat): (r: string)
    requires i <= j
    ensures |r| <= j - i
  {
    var hi := if j <= |s| then j else |s|;
    var lo := if i <= hi then i else hi;
    s[lo..hi]
  }

  /** Python's `int(s, 16)` on a field of at most two characters: white space
      around the field is stripped and one leading '+' or '-' is allowed. The
      other forms `int` accepts (a `0x` prefix, `_` between digits) need at
      least three characters. None where `int` raises. */
  function ParseHexField(s: string): (v: Option<int>)
    requires |s| <= 2
    ensures v.Some? ==> -16 < v.value < 256
  {
    var t := Strip(s, Whitespace);
    if t != [] && (t[0] == '+' || t[0] == '-') then
      match ParseHex(t[1..])
      case Some(d) =>
        ShortHexSmall(t[1..]);
        ShortHexSmall1(t[1..]);
        var n: int := if t[0] == '-' then -(d as int) else d;
        Some(n)
      case None => None
    else
      match ParseHex(t)
      case Some(d) =>
        ShortHexSmall(t);
        Some(d)
      case None => None
  }

  /** `hex_to_rgb`: drop every leading '#', then read the fields [0:2], [2:4]
      and [4:6] with `int(_, 16)`; None where `int` raises (an empty field,
      or one that is not a signed hexadecimal number once stripped). */
  function HexToRgb(hex: string): (c: Option<Rgb>)
    ensures c.Some? ==> -16 < c.value.r < 256 && -16 < c.value.g < 256 && -16 < c.value.b < 256
  {
    var h := LStrip(hex, {'#'});
    match (ParseHexField(Slice(h, 0, 2)), ParseHexField(Slice(h, 2, 4)), ParseHexField(Slice(h, 4, 6)))
    case (Some(r), Some(g), Some(b)) => Some(Rgb(r, g, b))
    case _ => None
  }

  /** Python's `f"{n:02x}"` for any integer: a negative number is its sign
      and its digits, which already fill the width of two. */
  function Format02x(n: int): (s: string)
    ensures |s| >= 2
    ensures n >= 0 ==> s == Hex2(n)
  {
    if n >= 0 then Hex2(n) else "-" + NatToHex(-n)
  }

  /** `rgb_to_hex`: '#' and each component as `02x`. */
  function RgbToHex(c: Rgb): (s: string)
    ensures |s| >= 7 && s[0] == '#'
  {
    "#" + Format02x(c.r) + Format02x(c.g) + Format02x(c.b)
  }

  /** Components in the range `hex_to_rgb` gives print with exactly two
      characters each. */
  lemma {:induction false} Format02xLength(n: int)
    requires -16 < n < 256
    ensures |Format02x(n)| == 2
  {
    if n >= 0 {
      Rgba.Hex2Length(n);
    } else {
      assert NatToHex(-n) == [HexDigitChar(-n)];
    }
  }

  /** A field of two hexadecimal digits reads as their value, as by a plain
      base-16 parse: nothing is stripped and there is no sign. */
  lemma {:induction false} HexFieldOfDigits(s: string)
    requires 1 <= |s| <= 2 && AllHexDigits(s)
    ensures ParseHexField(s) == Some(HexDigitsValue(s))
  {
    assert s[0] !in Whitespace && s[|s| - 1] !in Whitespace;
    StripWrapped([], s, [], Whitespace);
    assert [] + s + [] == s;
  }

  /** `int(_, 16)` accepts white space on either side of a one-digit field
      and a sign before it: " f" and "f " read 15, "-f" reads -15. */
  lemma {:induction false} FieldSpacesAndSigns(d: char)
    requires IsHexDigit(d)
    ensures ParseHexField([' ', d]) == Some(HexValue(d))
    ensures ParseHexField([d, ' ']) == Some(HexValue(d))
    ensures ParseHexField(['+', d]) == Some(HexValue(d))
    ensures ParseHexField(['-', d]) == Some(-(HexValue(d) as int))
  {
    assert [d][..0] == [];
    assert HexDigitsValue([d]) == HexValue(d);
    FieldSpaced(d);
    FieldSigned(d, '+');
    FieldSigned(d, '-');
  }

  lemma {:induction false} FieldSpaced(d: char)
    requires IsHexDigit(d) && HexDigitsValue([d]) == HexValue(d)
    ensures ParseHexField([' ', d]) == Some(HexValue(d))
    ensures ParseHexField([d, ' ']) == Some(HexValue(d))
  {
    StripWrapped([' '], [d], [], Whitespace);
    assert [' '] + [d] + [] == [' ', d];
    StripWrapped([], [d], [' '], Whitespace);
    assert [] + [d] + [' '] == [d, ' '];
  }

  lemma {:induction false} FieldSigned(d: char, sign: char)
    requires IsHexDigit(d) && HexDigitsValue([d]) == HexValue(d) && (sign == '+' || sign == '-')
    ensures ParseHexField([sign, d]) == Some(if sign == '-' then -(HexValue(d) as int) else HexValue(d))
  {
    StripWrapped([], [sign, d], [], Whitespace);
    assert [] + [sign, d] + [] == [sign, d];
    assert [sign, d][1..] == [d];
  }

  /** A field holding only white space, or only a sign, makes `int` raise. */
  lemma {:induction false} FieldWithoutDigits(c: char)
    requires c in Whitespace || c == '+' || c == '-'
    ensures ParseHexField([c]) == None
    ensures ParseHexField([c, c]) == None
  {
    if c in Whitespace {
      assert LStrip([c], Whitespace) == LStrip([], Whitespace);
      assert LStrip([c, c], Whitespace) == LStrip([c], Whitespace);
    } else {
      assert Strip([c], Whitespace) == [c] by {
        StripWrapped([], [c], [], Whitespace);
        assert [] + [c] + [] == [c];
      }
      assert Strip([c, c], Whitespace) == [c, c] by {
        StripWrapped([], [c, c], [], Whitespace);
        assert [] + [c, c] + [] == [c, c];
      }
      assert [c, c][1..] == [c];
    }
  }

  /** One hexadecimal digit denotes a number below 16. */
  lemma {:induction false} ShortHexSmall1(s: string)
    requires |s| <= 1 && AllHexDigits(s)
    ensures HexDigitsValue(s) < 16
  {
    if |s| == 1 {
      assert s[..0] == [];
    }
  }

  /** At most two hexadecimal digits denote a number below 256. */
  lemma {:induction false} ShortHexSmall(s: string)
    requires |s| <= 2 && AllHexDigits(s)
    ensures HexDigitsValue(s) < 256
  {
    if |s| == 1 {
      assert s[..0] == [];
    } else if |s| == 2 {
      assert s == [s[0], s[1]];
      HexDigitsValuePair(s[0], s[1]);
    }
  }

  /** Components in 0..255 print as seven characters: '#' and six digits. */
  lemma {:induction false} RgbToHexLength(c: Rgb)
    requires -16 < c.r < 256 && -16 < c.g < 256 && -16 < c.b < 256
    ensures |RgbToHex(c)| == 7
  {
    Format02xLength(c.r);
    Format02xLength(c.g);
    Format02xLength(c.b);
  }

  /** A component printed with `02x` is a two-character field that does not
      start with '#' and reads back as the component, a negative one too. */
  lemma {:induction false} FieldOfFormat02x(n: int)
    requires -16 < n < 256
    ensures |Format02x(n)| == 2 && Format02x(n)[0] != '#'
    ensures ParseHexField(Format02x(n)) == Some(n)
  {
    if n >= 0 {
      FieldOfHex2(n);
    } else {
      FieldOfNegative(n);
    }
  }

  lemma {:induction false} FieldOfHex2(n: nat)
    requires n < 256
    ensures |Hex2(n)| == 2 && Hex2(n)[0] != '#'
    ensures ParseHexField(Hex2(n)) == Some(n)
  {
    Rgba.Hex2Length(n);
    assert IsLowerHexDigit(Hex2(n)[0]);
    assert AllHexDigits(Hex2(n)) && HexDigitsValue(Hex2(n)) == n by {
      ParseHex2(n);
    }
    HexFieldOfDigits(Hex2(n));
  }

  lemma {:induction false} FieldOfNegative(n: int)
    requires -16 < n < 0
    ensures Format02x(n) == ['-', HexDigitChar(-n)]
    ensures ParseHexField(Format02x(n)) == Some(n)
  {
    var d := HexDigitChar(-n);
    assert NatToHex(-n) == [d];
    assert HexValue(d) == -n by {
      HexValueOfDigitChar(-n);
    }
    FieldSpacesAndSigns(d);
  }

  /** Printing a colour and reading it back gives the colour, for every
      colour `hex_to_rgb` can return. */
  lemma {:induction false} HexToRgbOfRgbToHex(c: Rgb)
    requires -16 < c.r < 256 && -16 < c.g < 256 && -16 < c.b < 256
    ensures HexToRgb(RgbToHex(c)) == Some(c)
  {
    FieldOfFormat02x(c.r);
    FieldOfFormat02x(c.g);
    FieldOfFormat02x(c.b);
    HexFieldsRead(Format02x(c.r), Format02x(c.g), Format02x(c.b), c);
  }

  /** `hex_to_rgb` of '#' and three two-character fields that read as the components. */
  lemma {:induction false} HexFieldsRead(x: string, y: string, z: string, c: Rgb)
    requires |x| == 2 && |y| == 2 && |z| == 2 && x[0] != '#'
    requires ParseHexField(x) == Some(c.r) && ParseHexField(y) == Some(c.g) && ParseHexField(z) == Some(c.b)
    ensures HexToRgb("#" + x + y + z) == Some(c)
  {
    var s := "#" + x + y + z;
    Rgba.HashTripleSlices(x, y, z);
    assert s[1] == x[0] by {
      assert s[1..3] == x;
    }
    StripHash(s);
    FieldsAfterHash(s, x, y, z);
    HexToRgbOfFields(s, s[1..], c);
  }

  /** Stripping the '#' in front of a string that does not start with one. */
  lemma {:induction false} StripHash(s: string)
    requires |s| >= 2 && s[0] == '#' && s[1] != '#'
    ensures LStrip(s, {'#'}) == s[1..]
  {
    assert s[1..][0] == s[1];
  }

  /** The three fields `hex_to_rgb` reads from "#" + x + y + z. */
  lemma {:induction false} FieldsAfterHash(s: string, x: string, y: string, z: string)
    requires |x| == 2 && |y| == 2 && |z| == 2 && s == "#" + x + y + z
    ensures Slice(s[1..], 0, 2) == x && Slice(s[1..], 2, 4) == y && Slice(s[1..], 4, 6) == z
  {
    Rgba.HashTripleSlices(x, y, z);
    var h := s[1..];
    assert h[0..2] == s[1..3];
    assert h[2..4] == s[3..5];
    assert h[4..6] == s[5..7];
  }

  /** `hex_to_rgb` on a string whose three fields read as the components. */
  lemma {:induction false} HexToRgbOfFields(hex: string, h: string, c: Rgb)
    requires LStrip(hex, {'#'}) == h
    requires ParseHexField(Slice(h, 0, 2)) == Some(c.r) && ParseHexField(Slice(h, 2, 4)) == Some(c.g)
    requires ParseHexField(Slice(h, 4, 6)) == Some(c.b)
    ensures HexToRgb(hex) == Some(c)
  {
  }

  /** Two hexadecimal digits print back, via their value, as their lower-case forms. */
  lemma {:induction false} Hex2OfPair(a: char, b: char)
    requires IsHexDigit(a) && IsHexDigit(b)
    ensures AllHexDigits([a, b])
    ensures Hex2(HexDigitsValue([a, b])) == [LowerHex(a), LowerHex(b)]
  {
    HexDigitsValuePair(a, b);
    var n := HexValue(a) * 16 + HexValue(b);
    assert n / 16 == HexValue(a) && n % 16 == HexValue(b);
    Hex2Small(n);
  }

  /** Reading a colour and printing it again gives '#' and the first six hex
      digits after the leading '#' characters, in lower case. */
  lemma {:induction false} RgbToHexOfHexToRgb(hex: string)
    requires var h := LStrip(hex, {'#'}); |h| >= 6 && forall i :: 0 <= i < 6 ==> IsHexDigit(h[i])
    ensures var h := LStrip(hex, {'#'});
      && HexToRgb(hex).Some?
      && RgbToHex(HexToRgb(hex).value)
         == "#" + [LowerHex(h[0]), LowerHex(h[1]), LowerHex(h[2]), LowerHex(h[3]), LowerHex(h[4]), LowerHex(h[5])]
  {
    var h := LStrip(hex, {'#'});
    HexToRgbOfDigits(hex, h);
    var v := HexToRgb(hex).value;
    Hex2OfPair(h[0], h[1]);
    Hex2OfPair(h[2], h[3]);
    Hex2OfPair(h[4], h[5]);
    RgbToHexOfPairs(v, LowerHex(h[0]), LowerHex(h[1]), LowerHex(h[2]), LowerHex(h[3]), LowerHex(h[4]), LowerHex(h[5]));
  }

  /** `hex_to_rgb` of a string with six hex digits after its leading '#'s
      reads the three digit pairs. */
  lemma {:induction false} HexToRgbOfDigits(hex: string, h: string)
    requires h == LStrip(hex, {'#'}) && |h| >= 6 && forall i :: 0 <= i < 6 ==> IsHexDigit(h[i])
    ensures HexToRgb(hex)
            == Some(Rgb(HexDigitsValue([h[0], h[1]]), HexDigitsValue([h[2], h[3]]), HexDigitsValue([h[4], h[5]])))
  {
    assert Slice(h, 0, 2) == [h[0], h[1]];
    assert Slice(h, 2, 4) == [h[2], h[3]];
    assert Slice(h, 4, 6) == [h[4], h[5]];
    HexDigitsValuePair(h[0], h[1]);
    HexDigitsValuePair(h[2], h[3]);
    HexDigitsValuePair(h[4], h[5]);
    HexFieldOfDigits([h[0], h[1]]);
    HexFieldOfDigits([h[2], h[3]]);
    HexFieldOfDigits([h[4], h[5]]);
  }

  /** `rgb_to_hex` of components whose `02x` forms are the given pairs. */
  lemma {:induction false} RgbToHexOfPairs(v: Rgb, a: char, b: char, c: char, d: char, e: char, f: char)
    requires Format02x(v.r) == [a, b] && Format02x(v.g) == [c, d] && Format02x(v.b) == [e, f]
    ensures RgbToHex(v) == "#" + [a, b, c, d, e, f]
  {
    HashPairs(a, b, c, d, e, f);
  }

  lemma {:induction false} HashPairs(a: char, b: char, c: char, d: char, e: char, f: char)
    ensures "#" + [a, b] + [c, d] + [e, f] == "#" + [a, b, c, d, e, f]
  {
  }
}
