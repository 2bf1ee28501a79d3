/** The handful of Python string operations the modelled code relies on:
    decimal and hexadecimal rendering and parsing, prefix and substring tests,
    `str.split`, `str.strip`, `str.replace(pat, "")`, `str.join` and sorting. */
module Strings {
  import opened Wrappers

  // ---------------------------------------------------------------- decimal

  predicate IsDigit(c: char) {
    '0' <= c <= '9'
  }

  predicate AllDigits(s: string) {
    forall i :: 0 <= i < |s| ==> IsDigit(s[i])
  }

  function DigitChar(d: nat): (c: char)
    requires d < 10
    ensures IsDigit(c)
  {
    (d + 48) as char
  }

  function DigitValue(c: char): (d: nat)
    requires IsDigit(c)
    ensures d < 10
  {
    (c as int) - 48
  }

  /** Python's `str(n)` for a non-negative integer. */
  function NatToString(n: nat): (s: string)
    ensures |s| >= 1 && AllDigits(s)
  {
    if n < 10 then [DigitChar(n)] else NatToString(n / 10) + [DigitChar(n % 10)]
  }

  /** Python's `str(i)` for any integer. */
  function IntToString(i: int): (s: string)
    ensures |s| >= 1
  {
    if i < 0 then "-" + NatToString(-i) else NatToString(i)
  }

  /** The value of a string of decimal digits (leading zeros allowed). */
  function DigitsValue(s: string): nat
    requires AllDigits(s)
  {
    if s == [] then 0 else DigitsValue(s[..|s| - 1]) * 10 + DigitValue(s[|s| - 1])
  }

  /** Python's `int(s)` restricted to plain digit strings: None where `int`
      raises `ValueError`. */
  function ParseNat(s: string): (r: Option<nat>)
    ensures r.Some? <==> s != [] && AllDigits(s)
  {
    if s != [] && AllDigits(s) then Some(DigitsValue(s)) else None
  }

  lemma {:induction false} DigitsValueOfNatToString(n: nat)
    ensures DigitsValue(NatToString(n)) == n
  {
    if n >= 10 {
      var s := NatToString(n);
      assert s[..|s| - 1] == NatToString(n / 10);
      DigitsValueOfNatToString(n / 10);
    }
  }

  /** Parsing what `str` printed gives the number back. */
  lemma {:induction false} ParseNatToString(n: nat)
    ensures ParseNat(NatToString(n)) == Some(n)
  {
    DigitsValueOfNatToString(n);
  }

  lemma {:induction false} NatToStringInjective(a: nat, b: nat)
    ensures NatToString(a) == NatToString(b) ==> a == b
  {
    DigitsValueOfNatToString(a);
    DigitsValueOfNatToString(b);
  }

  lemma {:induction false} DigitsValueLeadingZero(s: string)
    requires AllDigits(s)
    ensures AllDigits("0" + s) && DigitsValue("0" + s) == DigitsValue(s)
  {
    if s != [] {
      var t := "0" + s;
      assert t[..|t| - 1] == "0" + s[..|s| - 1];
      DigitsValueLeadingZero(s[..|s| - 1]);
    }
  }

  /** `s` left-padded with `c` to at least `width` characters. */
  function PadLeft(s: string, width: nat, c: char): (r: string)
    ensures |r| == if |s| >= width then |s| else width
    ensures r[|r| - |s|..] == s
    ensures forall i :: 0 <= i < |r| - |s| ==> r[i] == c
    decreases width
  {
    if |s| >= width then s else [c] + PadLeft(s, width - 1, c)
  }

  /** Python's `f"{n:0<width>d}"`. */
  function ZeroPad(n: nat, width: nat): (r: string)
    ensures AllDigits(r)
  {
    PadLeft(NatToString(n), width, '0')
  }

  /** Leading zeros do not change the number a digit string denotes. */
  lemma {:induction false} LeadingZerosValue(n: nat, s: string)
    requires AllDigits(s)
    ensures AllDigits(seq(n, _ => '0') + s) && DigitsValue(seq(n, _ => '0') + s) == DigitsValue(s)
  {
    if n > 0 {
      var z := seq(n - 1, _ => '0');
      assert seq(n, _ => '0') + s == "0" + (z + s);
      LeadingZerosValue(n - 1, s);
      DigitsValueLeadingZero(z + s);
    } else {
      assert seq(n, _ => '0') + s == s;
    }
  }

  lemma {:induction false} PadLeftZerosValue(s: string, width: nat)
    requires AllDigits(s)
    ensures AllDigits(PadLeft(s, width, '0'))
    ensures DigitsValue(PadLeft(s, width, '0')) == DigitsValue(s)
  {
    var r := PadLeft(s, width, '0');
    var n := |r| - |s|;
    assert r == seq(n, _ => '0') + s by {
      assert r[n..] == s;
    }
    LeadingZerosValue(n, s);
  }

  /** Zero padding does not change the number a digit string denotes. */
  lemma {:induction false} ParseZeroPad(n: nat, width: nat)
    ensures ParseNat(ZeroPad(n, width)) == Some(n)
  {
    PadLeftZerosValue(NatToString(n), width);
    DigitsValueOfNatToString(n);
  }

  // ------------------------------------------------------------ hexadecimal

  predicate IsLowerHexDigit(c: char) {
    '0' <= c <= '9' || 'a' <= c <= 'f'
  }

  predicate IsHexDigit(c: char) {
    '0' <= c <= '9' || 'a' <= c <= 'f' || 'A' <= c <= 'F'
  }

  function HexDigitChar(d: nat): (c: char)
    requires d < 16
    ensures IsLowerHexDigit(c)
  {
    if d < 10 then (d + 48) as char else (d - 10 + 97) as char
  }

  /** The value of one hexadecimal digit; both cases are accepted, as by `int(x, 16)`. */
  function HexValue(c: char): (d: nat)
    requires IsHexDigit(c)
    ensures d < 16
  {
    if '0' <= c <= '9' then (c as int) - 48
    else if 'a' <= c <= 'f' then (c as int) - 97 + 10
    else (c as int) - 65 + 10
  }

  /** The lower-case form of a hexadecimal digit. */
  function LowerHex(c: char): (l: char)
    requires IsHexDigit(c)
    ensures IsLowerHexDigit(l) && HexValue(l) == HexValue(c)
  {
    HexDigitChar(HexValue(c))
  }

  /** Python's `f"{n:x}"`. */
  function NatToHex(n: nat): (s: string)
    ensures |s| >= 1
    ensures forall i :: 0 <= i < |s| ==> IsLowerHexDigit(s[i])
  {
    if n < 16 then [HexDigitChar(n)] else NatToHex(n / 16) + [HexDigitChar(n % 16)]
  }

  /** Python's `f"{n:02x}"`: at least two lower-case hexadecimal digits. */
  function Hex2(n: nat): (s: string)
    ensures |s| >= 2
    ensures forall i :: 0 <= i < |s| ==> IsLowerHexDigit(s[i])
  {
    PadLeft(NatToHex(n), 2, '0')
  }

  predicate AllHexDigits(s: string) {
    forall i :: 0 <= i < |s| ==> IsHexDigit(s[i])
  }

  function HexDigitsValue(s: string): nat
    requires AllHexDigits(s)
  {
    if s == [] then 0 else HexDigitsValue(s[..|s| - 1]) * 16 + HexValue(s[|s| - 1])
  }

  /** Python's `int(s, 16)` restricted to plain hexadecimal digit strings. */
  function ParseHex(s: string): (r: Option<nat>)
    ensures r.Some? <==> s != [] && AllHexDigits(s)
  {
    if s != [] && AllHexDigits(s) then Some(HexDigitsValue(s)) else None
  }

  /** A component below 256 prints as exactly two digits, high nibble first. */
  lemma {:induction false} Hex2Small(n: nat)
    requires n < 256
    ensures Hex2(n) == [HexDigitChar(n / 16), HexDigitChar(n % 16)]
  {
    if n >= 16 {
      assert NatToHex(n / 16) == [HexDigitChar(n / 16)];
    }
  }

  lemma {:induction false} HexValueOfDigitChar(d: nat)
    requires d < 16
    ensures HexValue(HexDigitChar(d)) == d
  {
  }

  /** Printing with `02x` and parsing with `int(_, 16)` is the identity on 0..255. */
  lemma {:induction false} HexDigitsValuePair(a: char, b: char)
    requires IsHexDigit(a) && IsHexDigit(b)
    ensures AllHexDigits([a, b]) && HexDigitsValue([a, b]) == HexValue(a) * 16 + HexValue(b)
  {
    assert [a, b][..1] == [a];
    assert [a][..0] == [];
    assert HexDigitsValue([a]) == HexValue(a);
    assert HexDigitsValue([a, b]) == HexDigitsValue([a]) * 16 + HexValue(b);
  }

  lemma {:induction false} ParseHex2(n: nat)
    requires n < 256
    ensures ParseHex(Hex2(n)) == Some(n)
  {
    var hi, lo := n / 16, n % 16;
    assert hi * 16 + lo == n;
    Hex2Small(n);
    ParseHexOfDigits(Hex2(n), hi, lo);
  }

  /** Two digits printed by `HexDigitChar` parse back to their value. */
  lemma {:induction false} ParseHexOfDigits(h: string, hi: nat, lo: nat)
    requires hi < 16 && lo < 16 && h == [HexDigitChar(hi), HexDigitChar(lo)]
    ensures ParseHex(h) == Some(hi * 16 + lo)
  {
    HexValueOfDigitChar(hi);
    HexValueOfDigitChar(lo);
    HexDigitsValuePair(HexDigitChar(hi), HexDigitChar(lo));
  }

  // ------------------------------------------------- prefixes and substrings

  predicate StartsWith(s: string, p: string) {
    |p| <= |s| && s[..|p|] == p
  }

  predicate EndsWith(s: string, p: string) {
    |p| <= |s| && s[|s| - |p|..] == p
  }

  /** Python's `p in s` for strings. */
  predicate Contains(s: string, p: string)
    decreases |s|
  {
    StartsWith(s, p) || (|s| > 0 && Contains(s[1..], p))
  }

  lemma {:induction false} ContainsChar(s: string, c: char)
    ensures Contains(s, [c]) <==> c in s
  {
    if |s| > 0 {
      ContainsChar(s[1..], c);
      assert c in s <==> s[0] == c || c in s[1..];
    }
  }

  /** A string contains whatever is written inside it. */
  lemma {:induction false} ContainsMiddle(a: string, p: string, b: string)
    ensures Contains(a + p + b, p)
    decreases |a|
  {
    var s := a + p + b;
    if a == [] {
      assert s[..|p|] == p;
    } else {
      assert s[1..] == a[1..] + p + b;
      ContainsMiddle(a[1..], p, b);
    }
  }

  lemma {:induction false} ContainsPrefix(s: string, p: string, q: string)
    requires StartsWith(s, q) && Contains(q, p)
    ensures Contains(s, p)
    decreases |q|
  {
    if !StartsWith(q, p) {
      assert q[1..] == s[1..][..|q| - 1];
      ContainsPrefix(s[1..], p, q[1..]);
    }
  }

  // -------------------------------------------------------------- splitting

  /** Python's `s.split(sep)` for a non-empty separator: the pieces between
      the non-overlapping occurrences of `sep` found from the left. */
  function Split(s: string, sep: string): (r: seq<string>)
    requires |sep| > 0
    ensures |r| >= 1
    decreases |s|
  {
    if StartsWith(s, sep) then [""] + Split(s[|sep|..], sep)
    else if |s| == 0 then [""]
    else
      var rest := Split(s[1..], sep);
      [[s[0]] + rest[0]] + rest[1..]
  }

  function Last<T>(s: seq<T>): T
    requires |s| > 0
  {
    s[|s| - 1]
  }

  /** The first piece of a split is a prefix of the string split. */
  lemma {:induction false} SplitFirstIsPrefix(s: string, sep: string)
    requires |sep| > 0
    ensures StartsWith(s, Split(s, sep)[0])
    decreases |s|
  {
    if !StartsWith(s, sep) && |s| > 0 {
      var first := Split(s[1..], sep)[0];
      SplitFirstIsPrefix(s[1..], sep);
      assert Split(s, sep)[0] == [s[0]] + first;
      assert s[..|first| + 1] == [s[0]] + s[1..][..|first|];
    }
  }

  /** No piece of a split contains the separator. */
  lemma {:induction false} SplitPiecesAvoidSeparator(s: string, sep: string, k: nat)
    requires |sep| > 0 && k < |Split(s, sep)|
    ensures !Contains(Split(s, sep)[k], sep)
    decreases |s|
  {
    if StartsWith(s, sep) {
      if k > 0 {
        SplitPiecesAvoidSeparator(s[|sep|..], sep, k - 1);
      }
    } else if |s| > 0 {
      var rest := Split(s[1..], sep);
      if k == 0 {
        var p := [s[0]] + rest[0];
        SplitPiecesAvoidSeparator(s[1..], sep, 0);
        SplitFirstIsPrefix(s[1..], sep);
        assert p[1..] == rest[0];
      } else {
        SplitPiecesAvoidSeparator(s[1..], sep, k);
      }
    }
  }

  /** For a one-character separator: no piece contains that character. */
  lemma {:induction false} SplitPiecesAvoidChar(s: string, c: char, k: nat)
    requires k < |Split(s, [c])|
    ensures c !in Split(s, [c])[k]
  {
    SplitPiecesAvoidSeparator(s, [c], k);
    ContainsChar(Split(s, [c])[k], c);
  }

  /** A string without the separator splits into itself alone. */
  lemma {:induction false} SplitWithoutSeparator(s: string, c: char)
    requires c !in s
    ensures Split(s, [c]) == [s]
    decreases |s|
  {
    if |s| > 0 {
      assert s[1..][..0] == [];
      SplitWithoutSeparator(s[1..], c);
      assert [s[0]] + s[1..] == s;
    }
  }

  /** A string ending in the separator splits into at least two pieces, the
      last one empty. */
  lemma {:induction false} SplitEndingInSeparator(s: string, c: char)
    ensures |Split(s + [c], [c])| >= 2 && Last(Split(s + [c], [c])) == ""
    decreases |s|
  {
    var t := s + [c];
    if s == [] {
      assert t[..1] == [c] && t[1..] == [];
    } else if s[0] == c {
      assert t[..1] == [c];
      assert t[1..] == s[1..] + [c];
      SplitEndingInSeparator(s[1..], c);
    } else {
      assert t[..1] != [c] by { assert t[..1][0] == s[0]; }
      assert t[1..] == s[1..] + [c];
      SplitEndingInSeparator(s[1..], c);
    }
  }

  /** Python's `sep.join(parts)`. */
  function Join(parts: seq<string>, sep: string): string {
    if |parts| == 0 then ""
    else if |parts| == 1 then parts[0]
    else parts[0] + sep + Join(parts[1..], sep)
  }

  /** Splitting at a character the first piece does not contain yields that
      piece, then the pieces of the rest. */
  lemma {:induction false} SplitAtSeparator(p: string, c: char, rest: string)
    requires c !in p
    ensures Split(p + [c] + rest, [c]) == [p] + Split(rest, [c])
    decreases |p|
  {
    var s := p + [c] + rest;
    if p == [] {
      assert s == [c] + rest;
      assert s[..1] == [c];
      assert s[1..] == rest;
    } else {
      assert s[0] == p[0] && p[0] != c;
      assert s[..1] != [c] by { assert s[..1][0] == p[0]; }
      assert s[1..] == p[1..] + [c] + rest;
      SplitAtSeparator(p[1..], c, rest);
      assert [p[0]] + p[1..] == p;
    }
  }

  /** `sep.split` undoes `sep.join` when no part contains the separator. */
  lemma {:induction false} SplitJoin(parts: seq<string>, c: char)
    requires |parts| > 0
    requires forall k :: 0 <= k < |parts| ==> c !in parts[k]
    ensures Split(Join(parts, [c]), [c]) == parts
    decreases |parts|
  {
    if |parts| == 1 {
      SplitWithoutSeparator(parts[0], c);
    } else {
      SplitJoin(parts[1..], c);
      SplitAtSeparator(parts[0], c, Join(parts[1..], [c]));
      assert [parts[0]] + parts[1..] == parts;
    }
  }

  /** The joined text starts with the first part's first character and ends
      with the last part's last character. */
  lemma {:induction false} JoinEnds(parts: seq<string>, sep: string)
    requires |parts| > 0 && parts[0] != [] && Last(parts) != []
    ensures var j := Join(parts, sep);
      |j| > 0 && j[0] == parts[0][0] && j[|j| - 1] == Last(parts)[|Last(parts)| - 1]
    decreases |parts|
  {
    if |parts| > 1 {
      var rest := parts[1..];
      if rest[0] == [] {
        assert |rest| > 1 by { assert Last(rest) == Last(parts); }
      }
      JoinEndsLast(rest, sep);
    }
  }

  lemma {:induction false} JoinEndsLast(parts: seq<string>, sep: string)
    requires |parts| > 0 && Last(parts) != []
    ensures var j := Join(parts, sep); |j| > 0 && j[|j| - 1] == Last(parts)[|Last(parts)| - 1]
    decreases |parts|
  {
    if |parts| > 1 {
      assert Last(parts[1..]) == Last(parts);
      JoinEndsLast(parts[1..], sep);
    }
  }

  // -------------------------------------------------------------- stripping

  /** Python's `s.lstrip(chars)`. */
  function LStrip(s: string, chars: set<char>): (r: string)
    ensures |r| <= |s|
    ensures |r| > 0 ==> r[0] !in chars
  {
    if |s| > 0 && s[0] in chars then LStrip(s[1..], chars) else s
  }

  /** Python's `s.rstrip(chars)`. */
  function RStrip(s: string, chars: set<char>): (r: string)
    ensures |r| <= |s|
    ensures |r| > 0 ==> r[|r| - 1] !in chars
  {
    if |s| > 0 && s[|s| - 1] in chars then RStrip(s[..|s| - 1], chars) else s
  }

  /** `lstrip` removes a prefix: what is left is a suffix of `s`. */
  lemma {:induction false} LStripIsSuffix(s: string, chars: set<char>)
    ensures var r := LStrip(s, chars); r == s[|s| - |r|..]
  {
    if |s| > 0 && s[0] in chars {
      LStripIsSuffix(s[1..], chars);
      var r := LStrip(s, chars);
      assert s[1..][|s| - 1 - |r|..] == s[|s| - |r|..];
    }
  }

  /** `rstrip` removes a suffix: what is left is a prefix of `s`. */
  lemma {:induction false} RStripIsPrefix(s: string, chars: set<char>)
    ensures var r := RStrip(s, chars); r == s[..|r|]
  {
    if |s| > 0 && s[|s| - 1] in chars {
      RStripIsPrefix(s[..|s| - 1], chars);
      var r := RStrip(s, chars);
      assert s[..|s| - 1][..|r|] == s[..|r|];
    }
  }

  /** Python's `s.strip(chars)`. */
  function Strip(s: string, chars: set<char>): string {
    RStrip(LStrip(s, chars), chars)
  }

  /** `lstrip` skips a prefix made of the stripped characters. */
  lemma {:induction false} LStripSkipsPrefix(p: string, x: string, chars: set<char>)
    requires forall i :: 0 <= i < |p| ==> p[i] in chars
    ensures LStrip(p + x, chars) == LStrip(x, chars)
    decreases |p|
  {
    if p != [] {
      assert (p + x)[0] == p[0] && p[0] in chars;
      assert (p + x)[1..] == p[1..] + x;
      LStripSkipsPrefix(p[1..], x, chars);
      assert LStrip(p + x, chars) == LStrip((p + x)[1..], chars);
    } else {
      assert p + x == x;
    }
  }

  /** `rstrip` skips a suffix made of the stripped characters. */
  lemma {:induction false} RStripSkipsSuffix(x: string, q: string, chars: set<char>)
    requires forall i :: 0 <= i < |q| ==> q[i] in chars
    ensures RStrip(x + q, chars) == RStrip(x, chars)
    decreases |q|
  {
    if q != [] {
      assert (x + q)[|x + q| - 1] == q[|q| - 1] && q[|q| - 1] in chars;
      assert (x + q)[..|x + q| - 1] == x + q[..|q| - 1];
      RStripSkipsSuffix(x, q[..|q| - 1], chars);
      assert RStrip(x + q, chars) == RStrip((x + q)[..|x + q| - 1], chars);
    } else {
      assert x + q == x;
    }
  }

  /** `strip` of a string wrapped in stripped characters gives back the
      string, when its own first and last characters are not stripped. */
  lemma {:induction false} StripWrapped(p: string, x: string, q: string, chars: set<char>)
    requires forall i :: 0 <= i < |p| ==> p[i] in chars
    requires forall i :: 0 <= i < |q| ==> q[i] in chars
    requires |x| > 0 && x[0] !in chars && x[|x| - 1] !in chars
    ensures Strip(p + x + q, chars) == x
  {
    assert p + x + q == p + (x + q);
    LStripSkipsPrefix(p, x + q, chars);
    assert (x + q)[0] == x[0];
    RStripSkipsSuffix(x, q, chars);
  }

  /** The characters `str.strip()` and `str.isspace()` treat as white space,
      up to U+00A0 (wider Unicode white space is not modelled). */
  const Whitespace: set<char> :=
    {' ', '\t', '\n', '\r', '\U{000B}', '\U{000C}', '\U{001C}', '\U{001D}', '\U{001E}', '\U{001F}', '\U{0085}', '\U{00A0}'}

  /** Python's `s.strip() != ""`: the line has a character that is not white space. */
  predicate NotBlank(s: string) {
    Strip(s, Whitespace) != ""
  }

  // ------------------------------------------------------------- replacing

  /** Python's `s.replace(pat, "")`: every non-overlapping occurrence found
      from the left is removed. */
  function RemoveAll(s: string, pat: string): string
    requires |pat| > 0
    decreases |s|
  {
    if StartsWith(s, pat) then RemoveAll(s[|pat|..], pat)
    else if |s| == 0 then ""
    else [s[0]] + RemoveAll(s[1..], pat)
  }

  /** Removing a pattern whose first character does not occur in `s` leaves `s`
      in front of what remains of `t`. */
  lemma {:induction false} RemoveAllSkips(s: string, t: string, pat: string)
    requires |pat| > 0 && pat[0] !in s
    ensures RemoveAll(s + t, pat) == s + RemoveAll(t, pat)
    decreases |s|
  {
    if |s| == 0 {
      assert s + t == t;
    } else {
      var st := s + t;
      assert st[0] == s[0];
      assert !StartsWith(st, pat);
      assert st[1..] == s[1..] + t;
      RemoveAllSkips(s[1..], t, pat);
      assert RemoveAll(st, pat) == [s[0]] + RemoveAll(st[1..], pat);
      assert s == [s[0]] + s[1..];
    }
  }

  lemma {:induction false} RemoveAllLeading(pat: string, t: string)
    requires |pat| > 0
    ensures RemoveAll(pat + t, pat) == RemoveAll(t, pat)
  {
    assert StartsWith(pat + t, pat);
    assert (pat + t)[|pat|..] == t;
  }

  // --------------------------------------------------------------- ordering

  /** Python's `a <= b` on strings: lexicographic by code point. */
  predicate LexLessEq(a: string, b: string)
    decreases |a|
  {
    if a == [] then true
    else if b == [] then false
    else if a[0] != b[0] then a[0] < b[0]
    else LexLessEq(a[1..], b[1..])
  }

  lemma {:induction false} LexTotal(a: string, b: string)
    ensures LexLessEq(a, b) || LexLessEq(b, a)
    decreases |a|
  {
    if a != [] && b != [] && a[0] == b[0] {
      LexTotal(a[1..], b[1..]);
    }
  }

  lemma {:induction false} LexTransitive(a: string, b: string, c: string)
    requires LexLessEq(a, b) && LexLessEq(b, c)
    ensures LexLessEq(a, c)
    decreases |a|
  {
    if a != [] && b != [] && c != [] && a[0] == b[0] && b[0] == c[0] {
      LexTransitive(a[1..], b[1..], c[1..]);
    }
  }

  predicate Sorted(s: seq<string>) {
    forall i, j :: 0 <= i < j < |s| ==> LexLessEq(s[i], s[j])
  }

  function Insert(x: string, s: seq<string>): (r: seq<string>)
    requires Sorted(s)
    ensures Sorted(r) && multiset(r) == multiset(s) + multiset{x}
  {
    if s == [] then [x]
    else if LexLessEq(x, s[0]) then
      SortedPrepend(x, s);
      [x] + s
    else
      var tail := Insert(x, s[1..]);
      SortedInsertBehind(x, s, tail);
      [s[0]] + tail
  }

  lemma {:induction false} SortedPrepend(x: string, s: seq<string>)
    requires Sorted(s) && s != [] && LexLessEq(x, s[0])
    ensures Sorted([x] + s) && multiset([x] + s) == multiset(s) + multiset{x}
  {
    var r := [x] + s;
    forall i, j | 0 <= i < j < |r| ensures LexLessEq(r[i], r[j]) {
      assert r[j] == s[j - 1];
      if i == 0 {
        if j > 1 { LexTransitive(x, s[0], s[j - 1]); }
      } else {
        assert r[i] == s[i - 1];
      }
    }
  }

  /** `x` goes behind the head `s[0]` when it does not come before it. */
  lemma {:induction false} SortedInsertBehind(x: string, s: seq<string>, tail: seq<string>)
    requires Sorted(s) && s != [] && !LexLessEq(x, s[0])
    requires Sorted(tail) && multiset(tail) == multiset(s[1..]) + multiset{x}
    ensures Sorted([s[0]] + tail) && multiset([s[0]] + tail) == multiset(s) + multiset{x}
  {
    assert s == [s[0]] + s[1..];
    LexTotal(x, s[0]);
    var r := [s[0]] + tail;
    forall j | 0 <= j < |tail| ensures LexLessEq(s[0], tail[j]) {
      assert tail[j] in multiset(tail);
      assert tail[j] in multiset(s[1..]) || tail[j] == x;
      if tail[j] != x {
        var k :| 0 <= k < |s[1..]| && s[1..][k] == tail[j];
        assert s[k + 1] == tail[j];
      }
    }
    forall i, j | 0 <= i < j < |r| ensures LexLessEq(r[i], r[j]) {
      assert r[j] == tail[j - 1];
      if i > 0 {
        assert r[i] == tail[i - 1];
      }
    }
  }

  /** Python's `sorted(names)`. */
  function Sort(s: seq<string>): (r: seq<string>)
    ensures Sorted(r) && multiset(r) == multiset(s) && |r| == |s|
  {
    if s == [] then []
    else
      assert s == [s[0]] + s[1..];
      var r := Insert(s[0], Sort(s[1..]));
      assert |r| == |multiset(r)|;
      r
  }

  // ------------------------------------------------------------------ paths

  /** Python's `os.path.join(a, b)` on POSIX. */
  function PathJoin(a: string, b: string): (r: string)
    ensures EndsWith(r, b)
  {
    if StartsWith(b, "/") then b
    else if a == "" || EndsWith(a, "/") then a + b
    else a + "/" + b
  }

  /** `os.path.basename`: the text after the last '/'. */
  function Basename(path: string): string {
    Last(Split(path, "/"))
  }
}
