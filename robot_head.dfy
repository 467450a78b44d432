/** The two pure helpers of the robot-head component: `adjustColor`, which
    brightens or darkens a `#rrggbb` colour, and `getMouthAnimationClass`,
    which picks the CSS animation class of the mouth.

    `adjustColor` is modelled with the JavaScript semantics of the library
    calls it makes, so that it is total on every string, as in the browser:
    `String.prototype.substring`, `parseInt(s, 16)` (which yields NaN when no
    hex digit follows the optional blanks, sign and `0x` prefix),
    `Math.min`/`Math.max` (which propagate NaN), `Number.prototype.toString(16)`
    and `String.prototype.padStart`. */
module RobotHead {

  /** An integer-valued JavaScript number, or NaN. */
  datatype JsNumber = NaN | Finite(value: int)

  // ---------------------------------------------------------------- digits

  predicate IsHexDigit(ch: char) {
    ('0' <= ch <= '9') || ('a' <= ch <= 'f') || ('A' <= ch <= 'F')
  }

  predicate IsLowerHexDigit(ch: char) {
    ('0' <= ch <= '9') || ('a' <= ch <= 'f')
  }

  function DigitValue(ch: char): (v: nat)
    requires IsHexDigit(ch)
    ensures v < 16
  {
    if '0' <= ch <= '9' then ch as int - '0' as int
    else if 'a' <= ch <= 'f' then ch as int - 'a' as int + 10
    else ch as int - 'A' as int + 10
  }

  /** The lower-case digit that `toString(16)` writes for `v`. */
  function HexDigit(v: nat): (ch: char)
    requires v < 16
    ensures IsLowerHexDigit(ch) && IsHexDigit(ch) && DigitValue(ch) == v
  {
    if v < 10 then ('0' as int + v) as char else ('a' as int + v - 10) as char
  }

  function LowerDigit(ch: char): (r: char)
    requires IsHexDigit(ch)
    ensures IsLowerHexDigit(r) && DigitValue(r) == DigitValue(ch)
    ensures IsLowerHexDigit(ch) ==> r == ch
  {
    HexDigit(DigitValue(ch))
  }

  /** The value of a string of hex digits, most significant first. */
  function HexValue(ds: string): (v: nat)
    requires forall i :: 0 <= i < |ds| ==> IsHexDigit(ds[i])
  {
    if ds == [] then 0 else 16 * HexValue(ds[..|ds| - 1]) + DigitValue(ds[|ds| - 1])
  }

  // ------------------------------------------------------------- parseInt

  /** StrWhiteSpaceChar of ECMAScript: the characters `parseInt` skips
      before the number. */
  predicate IsJsWhitespace(ch: char) {
    || ('\t' <= ch <= '\r') || ch == ' ' || ch == '\U{00A0}' || ch == '\U{1680}'
    || ('\U{2000}' <= ch <= '\U{200A}') || ch == '\U{2028}' || ch == '\U{2029}'
    || ch == '\U{202F}' || ch == '\U{205F}' || ch == '\U{3000}' || ch == '\U{FEFF}'
  }

  /** `s` without its leading blanks: a suffix of `s` whose first character,
      if any, is not a blank, and everything removed is a blank. */
  function TrimStart(s: string): (r: string)
    ensures |r| <= |s| && r == s[|s| - |r|..]
    ensures forall i :: 0 <= i < |s| - |r| ==> IsJsWhitespace(s[i])
    ensures r != [] ==> !IsJsWhitespace(r[0])
  {
    if s != [] && IsJsWhitespace(s[0]) then TrimStart(s[1..]) else s
  }

  /** The longest prefix of `s` made of hex digits. */
  function HexPrefix(s: string): (r: string)
    ensures |r| <= |s| && r == s[..|r|]
    ensures forall i :: 0 <= i < |r| ==> IsHexDigit(r[i])
    ensures |r| < |s| ==> !IsHexDigit(s[|r|])
  {
    if s != [] && IsHexDigit(s[0]) then [s[0]] + HexPrefix(s[1..]) else []
  }

  /** `parseInt(s, 16)`: skip leading blanks, read an optional sign, drop a
      `0x`/`0X` prefix, then read as many hex digits as there are; NaN when
      there are none. (-0 and +0 are the same integer here; the callers
      below cannot tell them apart either.) */
  function ParseInt16(s: string): (r: JsNumber)
    ensures r.Finite? && r.value < 0 ==> TrimStart(s) != [] && TrimStart(s)[0] == '-'
  {
    var t := TrimStart(s);
    if t != [] && t[0] == '-' then
      match ParseMagnitude(t[1..])
      case NaN => NaN
      case Finite(m) => Finite(0 - m)
    else if t != [] && t[0] == '+' then ParseMagnitude(t[1..])
    else ParseMagnitude(t)
  }

  /** What `parseInt` reads after the sign: an optional `0x`/`0X`, then the
      longest run of hex digits; NaN when the run is empty. */
  function ParseMagnitude(u: string): (r: JsNumber)
    ensures r.Finite? ==> r.value >= 0
    ensures u == [] ==> r.NaN?
  {
    var v := if |u| >= 2 && u[0] == '0' && (u[1] == 'x' || u[1] == 'X') then u[2..] else u;
    var digits := HexPrefix(v);
    if digits == [] then NaN else Finite(HexValue(digits))
  }

  // ------------------------------------------------------- other library calls

  function Min(a: int, b: int): int { if a <= b then a else b }

  function Max(a: int, b: int): int { if a >= b then a else b }

  /** `s.substring(start, end)`: both indices are clamped to the string and
      swapped when out of order. */
  function Substring(s: string, start: nat, end: nat): (r: string)
    ensures end <= |s| && start <= end ==> r == s[start..end]
    ensures |r| <= |s|
  {
    var a := Min(start, |s|);
    var b := Min(end, |s|);
    if a <= b then s[a..b] else s[b..a]
  }

  /** The digits of `n` in base 16, lower case, without leading zeros. */
  function HexDigits(n: nat): (r: string)
    ensures r != [] && forall i :: 0 <= i < |r| ==> IsLowerHexDigit(r[i])
    ensures forall i :: 0 <= i < |r| ==> IsHexDigit(r[i])
    ensures HexValue(r) == n
    decreases n
  {
    if n < 16 then
      assert [HexDigit(n)][..0] == [];
      [HexDigit(n)]
    else
      var r := HexDigits(n / 16) + [HexDigit(n % 16)];
      assert r[..|r| - 1] == HexDigits(n / 16);
      r
  }

  /** `x.toString(16)`: `NaN`, or lower-case hex digits after a `-` for a
      negative value. */
  function ToString16(x: JsNumber): (r: string)
    ensures r == "NaN" <==> x.NaN?
    ensures x.Finite? && x.value >= 0 ==> r != [] && forall i :: 0 <= i < |r| ==> IsLowerHexDigit(r[i])
    ensures x.Finite? && x.value < 0 ==>
      |r| >= 2 && r[0] == '-' && forall i :: 1 <= i < |r| ==> IsLowerHexDigit(r[i])
  {
    match x
    case NaN => "NaN"
    case Finite(v) =>
      var r := if v < 0 then "-" + HexDigits(-v) else HexDigits(v);
      assert r[0] != 'N';
      r
  }

  /** `s.padStart(2, '0')`. */
  function PadStart2(s: string): (r: string)
    ensures |s| >= 2 ==> r == s
    ensures |s| < 2 ==> |r| == 2 && r[2 - |s|..] == s
    ensures forall i :: 0 <= i < 2 - |s| ==> r[i] == '0'
  {
    if |s| >= 2 then s else if |s| == 1 then "0" + s else "00"
  }

  /** `Math.max(0, Math.min(255, x + amount))`: NaN stays NaN. */
  function Brighten(x: JsNumber, amount: int): (r: JsNumber)
    ensures x.NaN? <==> r.NaN?
    ensures r.Finite? ==> 0 <= r.value <= 255
  {
    match x
    case NaN => NaN
    case Finite(v) => Finite(Max(0, Min(255, v + amount)))
  }

  // ------------------------------------------------------------ adjustColor

  /** Channel `i` (0 red, 1 green, 2 blue) as `adjustColor` parses it. */
  function ParsedChannel(color: string, i: nat): JsNumber
    requires i < 3
  {
    ParseInt16(Substring(color, 1 + 2 * i, 3 + 2 * i))
  }

  function ChannelText(x: JsNumber): string {
    PadStart2(ToString16(x))
  }

  /** The text `adjustColor` writes for channel `i`: on any string at all,
      `NaN` or two lower-case hex digits. */
  function Segment(color: string, i: nat, amount: int): (t: string)
    requires i < 3
    ensures t == "NaN" || (|t| == 2 && IsLowerHexDigit(t[0]) && IsLowerHexDigit(t[1]))
  {
    var y := Brighten(ParsedChannel(color, i), amount);
    if y.Finite? then EncodeChannel(y.value); ChannelText(y) else ChannelText(y)
  }

  /** `adjustColor(color, amount)` of RobotHead.tsx: on any string at all, `#`
      and 6 to 9 more characters. */
  function AdjustColor(color: string, amount: int): (r: string)
    ensures 7 <= |r| <= 10 && r[0] == '#'
  {
    "#" + Segment(color, 0, amount) + Segment(color, 1, amount) + Segment(color, 2, amount)
  }

  // ------------------------------------------------- the colour notation

  /** `#` followed by six hex digits of either case. */
  predicate IsHexColor(c: string) {
    |c| == 7 && c[0] == '#' && forall i :: 1 <= i < 7 ==> IsHexDigit(c[i])
  }

  /** `#` followed by six lower-case hex digits. */
  predicate IsLowerHexColor(c: string) {
    |c| == 7 && c[0] == '#' && forall i :: 1 <= i < 7 ==> IsLowerHexDigit(c[i])
  }

  /** The value of channel `i` of a well-formed colour. */
  function ChannelValue(c: string, i: nat): (v: nat)
    requires IsHexColor(c) && i < 3
    ensures v <= 255
  {
    16 * DigitValue(c[1 + 2 * i]) + DigitValue(c[2 + 2 * i])
  }

  function Clamp(x: int): (r: int)
    ensures 0 <= r <= 255
    ensures 0 <= x <= 255 ==> r == x
    ensures x < 0 ==> r == 0
    ensures x > 255 ==> r == 255
  {
    Max(0, Min(255, x))
  }

  /** The colour with its hex letters in lower case. */
  function ToLower(c: string): (r: string)
    requires IsHexColor(c)
    ensures IsLowerHexColor(r)
    ensures ChannelValue(r, 0) == ChannelValue(c, 0)
    ensures ChannelValue(r, 1) == ChannelValue(c, 1)
    ensures ChannelValue(r, 2) == ChannelValue(c, 2)
  {
    ['#', LowerDigit(c[1]), LowerDigit(c[2]), LowerDigit(c[3]),
     LowerDigit(c[4]), LowerDigit(c[5]), LowerDigit(c[6])]
  }

  // ---------------------------------------------------------------- lemmas

  /** The value of one and of two hex digits. */
  lemma HexValuePair(a: char, b: char)
    requires IsHexDigit(a) && IsHexDigit(b)
    ensures HexValue([a]) == DigitValue(a)
    ensures HexValue([a, b]) == 16 * DigitValue(a) + DigitValue(b)
  {
    assert [a][..0] == [];
    assert [a, b][..1] == [a];
    assert HexValue([a, b]) == 16 * HexValue([a]) + DigitValue(b);
  }

  /** Two hex digits parse to their value: nothing in them is a blank, a
      sign or an `x`. */
  lemma ParseHexPair(a: char, b: char)
    requires IsHexDigit(a) && IsHexDigit(b)
    ensures ParseInt16([a, b]) == Finite(16 * DigitValue(a) + DigitValue(b))
  {
    ParseDigits([a, b]);
    HexValuePair(a, b);
  }

  /** A string of hex digits parses to its value: it has no blank, sign or
      `x` to skip. */
  lemma ParseDigits(s: string)
    requires s != [] && forall i :: 0 <= i < |s| ==> IsHexDigit(s[i])
    ensures ParseInt16(s) == Finite(HexValue(s))
  {
    NoBlankDigit(s[0]);
    TrimStartOfNonBlank(s);
    MagnitudeOfDigits(s);
  }

  /** A minus sign followed by hex digits parses to the negated value. */
  lemma ParseNegativeDigits(s: string)
    requires s != [] && forall i :: 0 <= i < |s| ==> IsHexDigit(s[i])
    ensures ParseInt16("-" + s) == Finite(0 - HexValue(s))
  {
    var t := "-" + s;
    TrimStartOfNonBlank(t);
    assert t[1..] == s;
    MagnitudeOfDigits(s);
    assert TrimStart(t) != [] && TrimStart(t)[0] == '-';
    assert ParseMagnitude(TrimStart(t)[1..]) == Finite(HexValue(s));
  }

  lemma MagnitudeOfDigits(s: string)
    requires s != [] && forall i :: 0 <= i < |s| ==> IsHexDigit(s[i])
    ensures ParseMagnitude(s) == Finite(HexValue(s))
  {
    HexPrefixOfDigits(s);
    if |s| >= 2 {
      assert IsHexDigit(s[1]);
    }
  }

  lemma HexPrefixOfDigits(s: string)
    requires forall i :: 0 <= i < |s| ==> IsHexDigit(s[i])
    ensures HexPrefix(s) == s
  {
  }

  lemma NoBlankDigit(ch: char)
    requires IsHexDigit(ch)
    ensures !IsJsWhitespace(ch)
  {
  }

  lemma TrimStartOfNonBlank(s: string)
    requires s != [] && !IsJsWhitespace(s[0])
    ensures TrimStart(s) == s
  {
  }

  /** `parseInt("NaN", 16)` is NaN: `N` is no hex digit. */
  lemma ParseNaN()
    ensures ParseInt16("NaN") == NaN
  {
    var s := "NaN";
    TrimStartOfNonBlank(s);
    assert !IsHexDigit(s[0]);
    assert HexPrefix(s) == [];
  }

  /** `parseInt(x.toString(16), 16)` gives `x` back, NaN included. */
  lemma ParseToString16(x: JsNumber)
    ensures ParseInt16(ToString16(x)) == x
  {
    match x
    case NaN => ParseNaN();
    case Finite(v) =>
      ParseHexText(if v < 0 then -v else v);
  }

  /** The digits of `n`, alone or after a minus sign, parse to `n` or
      `-n`. */
  lemma ParseHexText(n: nat)
    ensures ParseInt16(HexDigits(n)) == Finite(n)
    ensures ParseInt16("-" + HexDigits(n)) == Finite(0 - n)
  {
    ParseDigits(HexDigits(n));
    ParseNegativeDigits(HexDigits(n));
  }

  /** A channel value in range is written as exactly two digits: the high
      and the low nibble. */
  lemma {:induction false} EncodeChannel(v: int)
    requires 0 <= v <= 255
    ensures ChannelText(Finite(v)) == [HexDigit(v / 16), HexDigit(v % 16)]
  {
    if v < 16 {
      assert HexDigit(0) == '0';
    } else {
      assert HexDigits(v / 16) == [HexDigit(v / 16)];
    }
  }

  /** Parsing channel `i` of a well-formed colour yields its value. */
  lemma ParseChannel(c: string, i: nat)
    requires IsHexColor(c) && i < 3
    ensures ParsedChannel(c, i) == Finite(ChannelValue(c, i))
  {
    assert Substring(c, 1 + 2 * i, 3 + 2 * i) == [c[1 + 2 * i], c[2 + 2 * i]];
    ParseHexPair(c[1 + 2 * i], c[2 + 2 * i]);
  }

  /** The digits written for channel `i` of a well-formed colour: those of
      the clamped sum. */
  lemma SegmentOfHexColor(c: string, i: nat, amount: int)
    requires IsHexColor(c) && i < 3
    ensures var v := Clamp(ChannelValue(c, i) + amount);
      Segment(c, i, amount) == [HexDigit(v / 16), HexDigit(v % 16)]
  {
    var v := Clamp(ChannelValue(c, i) + amount);
    assert Brighten(ParsedChannel(c, i), amount) == Finite(v) by {
      ParseChannel(c, i);
    }
    EncodeChannel(v);
  }

  /** Splitting a byte into its two nibbles loses nothing. */
  lemma Nibbles(v: int)
    requires 0 <= v <= 255
    ensures v / 16 < 16 && 16 * (v / 16) + v % 16 == v
  {
  }

  /** The `#rrggbb` text, in lower case, of three channel values. */
  function EncodeColor(r: int, g: int, b: int): (c: string)
    requires 0 <= r <= 255 && 0 <= g <= 255 && 0 <= b <= 255
    ensures IsLowerHexColor(c) && IsHexColor(c)
    ensures ChannelValue(c, 0) == r && ChannelValue(c, 1) == g && ChannelValue(c, 2) == b
  {
    Nibbles(r);
    Nibbles(g);
    Nibbles(b);
    ['#', HexDigit(r / 16), HexDigit(r % 16), HexDigit(g / 16), HexDigit(g % 16),
     HexDigit(b / 16), HexDigit(b % 16)]
  }

  lemma Concat7(s0: string, s1: string, s2: string, a: char, b: char, c: char, d: char, e: char, f: char)
    requires s0 == [a, b] && s1 == [c, d] && s2 == [e, f]
    ensures "#" + s0 + s1 + s2 == ['#', a, b, c, d, e, f]
  {
  }

  /** On a well-formed colour, `adjustColor` writes the colour whose every
      channel is the input channel plus `amount`, clamped to [0, 255]: the
      three channels are computed independently. */
  lemma AdjustHexColor(c: string, amount: int)
    requires IsHexColor(c)
    ensures AdjustColor(c, amount) == EncodeColor(Clamp(ChannelValue(c, 0) + amount),
      Clamp(ChannelValue(c, 1) + amount), Clamp(ChannelValue(c, 2) + amount))
  {
    var v0, v1, v2 := Clamp(ChannelValue(c, 0) + amount), Clamp(ChannelValue(c, 1) + amount),
                      Clamp(ChannelValue(c, 2) + amount);
    var s0, s1, s2 := Segment(c, 0, amount), Segment(c, 1, amount), Segment(c, 2, amount);
    assert s0 == [HexDigit(v0 / 16), HexDigit(v0 % 16)] by { SegmentOfHexColor(c, 0, amount); }
    assert s1 == [HexDigit(v1 / 16), HexDigit(v1 % 16)] by { SegmentOfHexColor(c, 1, amount); }
    assert s2 == [HexDigit(v2 / 16), HexDigit(v2 % 16)] by { SegmentOfHexColor(c, 2, amount); }
    Concat7(s0, s1, s2, HexDigit(v0 / 16), HexDigit(v0 % 16), HexDigit(v1 / 16), HexDigit(v1 % 16),
            HexDigit(v2 / 16), HexDigit(v2 % 16));
  }

  /** The bounds property: on a well-formed colour the result is `#` and six
      lower-case hex digits, each channel being the clamped sum. */
  lemma AdjustColorChannels(c: string, amount: int)
    requires IsHexColor(c)
    ensures IsLowerHexColor(AdjustColor(c, amount)) && IsHexColor(AdjustColor(c, amount))
    ensures ChannelValue(AdjustColor(c, amount), 0) == Clamp(ChannelValue(c, 0) + amount)
    ensures ChannelValue(AdjustColor(c, amount), 1) == Clamp(ChannelValue(c, 1) + amount)
    ensures ChannelValue(AdjustColor(c, amount), 2) == Clamp(ChannelValue(c, 2) + amount)
  {
    AdjustHexColor(c, amount);
  }

  /** A byte written as two digits splits back into those digits. */
  lemma SplitByte(hi: nat, lo: nat)
    requires hi < 16 && lo < 16
    ensures (16 * hi + lo) / 16 == hi && (16 * hi + lo) % 16 == lo
  {
  }

  /** Re-encoding the value of two hex digits writes them in lower case. */
  lemma EncodeDigitPair(a: char, b: char)
    requires IsHexDigit(a) && IsHexDigit(b)
    ensures var v := 16 * DigitValue(a) + DigitValue(b);
      HexDigit(v / 16) == LowerDigit(a) && HexDigit(v % 16) == LowerDigit(b)
  {
    SplitByte(DigitValue(a), DigitValue(b));
  }

  /** Writing out the channel values of a colour gives the colour back, in
      lower case. */
  lemma EncodeChannelValues(c: string)
    requires IsHexColor(c)
    ensures EncodeColor(ChannelValue(c, 0), ChannelValue(c, 1), ChannelValue(c, 2)) == ToLower(c)
  {
    var e := EncodeColor(ChannelValue(c, 0), ChannelValue(c, 1), ChannelValue(c, 2));
    var l := ToLower(c);
    EncodeChannelDigits(c, 0);
    EncodeChannelDigits(c, 1);
    EncodeChannelDigits(c, 2);
    assert |e| == |l| && forall k :: 0 <= k < 7 ==> e[k] == l[k];
  }

  /** The two digits written for channel `i` of a colour are its own two
      digits, in lower case. */
  lemma EncodeChannelDigits(c: string, i: nat)
    requires IsHexColor(c) && i < 3
    ensures HexDigit(ChannelValue(c, i) / 16) == LowerDigit(c[1 + 2 * i])
    ensures HexDigit(ChannelValue(c, i) % 16) == LowerDigit(c[2 + 2 * i])
  {
    EncodeDigitPair(c[1 + 2 * i], c[2 + 2 * i]);
  }

  /** Round trip: adjusting by zero gives back the colour, with its hex
      letters in lower case. */
  lemma AdjustByZero(c: string)
    requires IsHexColor(c)
    ensures AdjustColor(c, 0) == ToLower(c)
  {
    AdjustByNothing(c, 0);
  }

  /** AdjustByZero, with the zero amount held in a variable. */
  lemma AdjustByNothing(c: string, amount: int)
    requires IsHexColor(c) && amount == 0
    ensures AdjustColor(c, amount) == ToLower(c)
  {
    AdjustHexColor(c, amount);
    UnchangedChannels(c, amount);
  }

  /** Adding nothing and clamping leaves the channels of a colour as they are. */
  lemma UnchangedChannels(c: string, amount: int)
    requires IsHexColor(c) && amount == 0
    ensures EncodeColor(Clamp(ChannelValue(c, 0) + amount), Clamp(ChannelValue(c, 1) + amount),
                        Clamp(ChannelValue(c, 2) + amount)) == ToLower(c)
  {
    EncodeChannelValues(c);
  }

  /** Saturation: any amount of 255 or more gives white, any amount of -255
      or less gives black, whatever the colour. */
  lemma Saturation(c: string, amount: int)
    requires IsHexColor(c)
    ensures amount >= 255 ==> AdjustColor(c, amount) == "#ffffff"
    ensures amount <= -255 ==> AdjustColor(c, amount) == "#000000"
  {
    AdjustHexColor(c, amount);
    SaturatedChannels(c, amount);
  }

  /** The clamped channels of a saturating amount are all 255 or all 0. */
  lemma SaturatedChannels(c: string, amount: int)
    requires IsHexColor(c)
    ensures var e := EncodeColor(Clamp(ChannelValue(c, 0) + amount), Clamp(ChannelValue(c, 1) + amount),
                                 Clamp(ChannelValue(c, 2) + amount));
      && (amount >= 255 ==> e == "#ffffff")
      && (amount <= -255 ==> e == "#000000")
  {
    var v0, v1, v2 := ChannelValue(c, 0), ChannelValue(c, 1), ChannelValue(c, 2);
    WhiteAndBlack();
    if amount >= 255 {
      assert Clamp(v0 + amount) == 255 && Clamp(v1 + amount) == 255 && Clamp(v2 + amount) == 255;
    } else if amount <= -255 {
      assert Clamp(v0 + amount) == 0 && Clamp(v1 + amount) == 0 && Clamp(v2 + amount) == 0;
    }
  }

  lemma WhiteAndBlack()
    ensures EncodeColor(255, 255, 255) == "#ffffff" && EncodeColor(0, 0, 0) == "#000000"
  {
    assert HexDigit(15) == 'f' && HexDigit(0) == '0';
  }

  /** Monotonicity: a larger amount never darkens any channel. */
  lemma Monotonic(c: string, a1: int, a2: int)
    requires IsHexColor(c) && a1 <= a2
    ensures IsHexColor(AdjustColor(c, a1)) && IsHexColor(AdjustColor(c, a2))
    ensures ChannelValue(AdjustColor(c, a1), 0) <= ChannelValue(AdjustColor(c, a2), 0)
    ensures ChannelValue(AdjustColor(c, a1), 1) <= ChannelValue(AdjustColor(c, a2), 1)
    ensures ChannelValue(AdjustColor(c, a1), 2) <= ChannelValue(AdjustColor(c, a2), 2)
  {
    AdjustColorChannels(c, a1);
    AdjustColorChannels(c, a2);
  }

  /** `#` and three hex digits, the CSS shorthand for a colour. */
  predicate IsShorthandColor(c: string) {
    |c| == 4 && c[0] == '#' && IsHexDigit(c[1]) && IsHexDigit(c[2]) && IsHexDigit(c[3])
  }

  /** The shorthand is not understood: red is read from the first two
      digits, green from the third alone, and blue from the empty string,
      which is NaN (so `#abc` adjusted by 10 is `#b516NaN`). */
  lemma ShorthandColour(c: string, amount: int)
    requires IsShorthandColor(c)
    ensures AdjustColor(c, amount) ==
      "#" + ChannelText(Finite(Clamp(16 * DigitValue(c[1]) + DigitValue(c[2]) + amount)))
          + ChannelText(Finite(Clamp(DigitValue(c[3]) + amount))) + "NaN"
  {
    ShorthandRed(c, amount);
    ShorthandGreen(c, amount);
    ShorthandBlue(c, amount);
  }

  lemma ShorthandRed(c: string, amount: int)
    requires IsShorthandColor(c)
    ensures Segment(c, 0, amount) == ChannelText(Finite(Clamp(16 * DigitValue(c[1]) + DigitValue(c[2]) + amount)))
  {
    var v := 16 * DigitValue(c[1]) + DigitValue(c[2]);
    ParsedShorthandRed(c);
    SegmentOfParsed(c, 0, amount, v);
  }

  lemma ShorthandGreen(c: string, amount: int)
    requires IsShorthandColor(c)
    ensures Segment(c, 1, amount) == ChannelText(Finite(Clamp(DigitValue(c[3]) + amount)))
  {
    ParsedShorthandGreen(c);
    SegmentOfParsed(c, 1, amount, DigitValue(c[3]));
  }

  lemma ShorthandBlue(c: string, amount: int)
    requires IsShorthandColor(c)
    ensures Segment(c, 2, amount) == "NaN"
  {
    assert ParsedChannel(c, 2) == NaN by {
      assert Substring(c, 5, 7) == [];
    }
  }

  /** The text written for a channel that parses to a number: that number
      plus `amount`, clamped. */
  lemma SegmentOfParsed(c: string, i: nat, amount: int, v: int)
    requires i < 3 && ParsedChannel(c, i) == Finite(v)
    ensures Segment(c, i, amount) == ChannelText(Finite(Clamp(v + amount)))
  {
    assert Brighten(ParsedChannel(c, i), amount) == Finite(Clamp(v + amount));
  }

  /** Red of a shorthand colour is read from its first two digits. */
  lemma ParsedShorthandRed(c: string)
    requires IsShorthandColor(c)
    ensures ParsedChannel(c, 0) == Finite(16 * DigitValue(c[1]) + DigitValue(c[2]))
  {
    assert Substring(c, 1, 3) == [c[1], c[2]];
    ParseHexPair(c[1], c[2]);
  }

  /** Green of a shorthand colour is read from its third digit alone. */
  lemma ParsedShorthandGreen(c: string)
    requires IsShorthandColor(c)
    ensures ParsedChannel(c, 1) == Finite(DigitValue(c[3]))
  {
    assert Substring(c, 3, 5) == [c[3]];
    ParseHexDigit(c[3]);
  }

  /** One hex digit parses to its value. */
  lemma ParseHexDigit(a: char)
    requires IsHexDigit(a)
    ensures ParseInt16([a]) == Finite(DigitValue(a))
  {
    ParseDigits([a]);
    HexValuePair(a, '0');
  }

  // -------------------------------------------------- getMouthAnimationClass

  const KnownAnimations: set<string> := {"robotic", "pulse", "wave", "glitch"}

  /** `getMouthAnimationClass()` of RobotHead.tsx, with the component's
      `isSpeaking` and `mouthAnimation` props as parameters. */
  function MouthAnimationClass(isSpeaking: bool, mouthAnimation: string): (r: string)
    ensures r == "" <==> !isSpeaking
    ensures isSpeaking ==> "animate-robot-speak" <= r
    ensures isSpeaking ==> (r == "animate-robot-speak" <==> mouthAnimation !in KnownAnimations)
  {
    if !isSpeaking then ""
    else match mouthAnimation
      case "robotic" => "animate-robot-speak-mechanical"
      case "pulse" => "animate-robot-speak-pulse"
      case "wave" => "animate-robot-speak-wave"
      case "glitch" => "animate-robot-speak-glitch"
      case _ => "animate-robot-speak"
  }

  /** While speaking, the four named animations get four distinct classes,
      each the default class with a suffix; `robotic` is the mechanical one. */
  lemma NamedAnimations()
    ensures MouthAnimationClass(true, "robotic") == "animate-robot-speak-mechanical"
    ensures MouthAnimationClass(true, "pulse") == "animate-robot-speak-pulse"
    ensures MouthAnimationClass(true, "wave") == "animate-robot-speak-wave"
    ensures MouthAnimationClass(true, "glitch") == "animate-robot-speak-glitch"
    ensures MouthAnimationClass(true, "standard") == "animate-robot-speak"
    ensures forall a, b :: a in KnownAnimations && b in KnownAnimations && a != b ==>
      MouthAnimationClass(true, a) != MouthAnimationClass(true, b)
  {
  }
}
