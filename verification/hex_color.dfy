/**
 * `luminance`: scale a `#rrggbb` colour's three channels by `1 + intensity`,
 * clamp them to 0..255, round, and write the colour back out.
 *
 * Only lower-case colours match the source's pattern; anything else makes it
 * dereference a null match, so a lower-case colour is a precondition here.
 * Intensities are exact reals; `Math.round(x)` is `Floor(x + 1/2)`.
 */
module HexColor {

  type Byte = x: int | 0 <= x < 256

  /** The characters of `[0-9a-f]`. */
  predicate IsHexDigit(ch: char) {
    '0' <= ch <= '9' || 'a' <= ch <= 'f'
  }

  /** The colours matched by `^#([0-9a-f][0-9a-f])([0-9a-f][0-9a-f])([0-9a-f][0-9a-f])$`. */
  predicate IsColor(c: string) {
    && |c| == 7 && c[0] == '#'
    && IsHexDigit(c[1]) && IsHexDigit(c[2])
    && IsHexDigit(c[3]) && IsHexDigit(c[4])
    && IsHexDigit(c[5]) && IsHexDigit(c[6])
  }

  function DigitValue(ch: char): (d: nat)
    requires IsHexDigit(ch)
    ensures d < 16
    ensures d < 10 <==> '0' <= ch <= '9'
  {
    if '0' <= ch <= '9' then ch as int - '0' as int else ch as int - 'a' as int + 10
  }

  /** The lower-case digit `Number.prototype.toString(16)` writes for `d`. */
  function DigitChar(d: nat): (ch: char)
    requires d < 16
    ensures IsHexDigit(ch)
    ensures DigitValue(ch) == d
  {
    if d < 10 then ('0' as int + d) as char else ('a' as int + d - 10) as char
  }

  /** A digit is determined by its value. */
  lemma DigitCharOfValue(ch: char)
    requires IsHexDigit(ch)
    ensures DigitChar(DigitValue(ch)) == ch
  {
  }

  /** `parseInt(s, 16)` on a two-digit string. */
  function ParsePair(hi: char, lo: char): Byte
    requires IsHexDigit(hi) && IsHexDigit(lo)
  {
    16 * DigitValue(hi) + DigitValue(lo)
  }

  /** `n.toString(16)`: the shortest lower-case hexadecimal numeral of `n`. */
  function ToHexString(n: nat): (s: string)
    ensures 1 <= |s|
    ensures forall i :: 0 <= i < |s| ==> IsHexDigit(s[i])
    ensures n < 16 <==> |s| == 1
    ensures 16 <= n < 256 ==> |s| == 2
    decreases n
  {
    if n < 16 then [DigitChar(n)] else ToHexString(n / 16) + [DigitChar(n % 16)]
  }

  /** `s.padStart(width, fill)` for a one-character `fill`. */
  function PadStart(s: string, width: nat, fill: char): (r: string)
    ensures |s| >= width ==> r == s
    ensures |s| < width ==> |r| == width
    ensures |s| <= |r| && r[|r| - |s|..] == s
    ensures forall i :: 0 <= i < |r| - |s| ==> r[i] == fill
  {
    if |s| >= width then s else seq(width - |s|, _ => fill) + s
  }

  /** A channel as exactly two lower-case digits, high digit first. */
  function FormatByte(b: Byte): (s: string)
    ensures |s| == 2
    ensures s[0] == DigitChar(b / 16) && s[1] == DigitChar(b % 16)
  {
    [DigitChar(b / 16), DigitChar(b % 16)]
  }

  /** `b.toString(16).padStart(2, '0')` writes exactly `FormatByte(b)`. */
  lemma PaddedHexIsFormatByte(b: Byte)
    ensures PadStart(ToHexString(b), 2, '0') == FormatByte(b)
  {
    if b < 16 {
      assert ToHexString(b) == [DigitChar(b)];
      assert DigitChar(0) == '0';
    } else {
      assert ToHexString(b / 16) == [DigitChar(b / 16)];
    }
  }

  /** Decoding an encoded channel gives the channel back. */
  lemma ParseFormat(b: Byte)
    ensures IsHexDigit(FormatByte(b)[0]) && IsHexDigit(FormatByte(b)[1])
    ensures ParsePair(FormatByte(b)[0], FormatByte(b)[1]) == b
  {
  }

  /** Encoding a decoded digit pair gives the digit pair back. */
  lemma FormatParse(hi: char, lo: char)
    requires IsHexDigit(hi) && IsHexDigit(lo)
    ensures FormatByte(ParsePair(hi, lo)) == [hi, lo]
  {
    var b := ParsePair(hi, lo);
    assert b / 16 == DigitValue(hi) && b % 16 == DigitValue(lo);
    DigitCharOfValue(hi);
    DigitCharOfValue(lo);
  }

  /** Channel `k` (0 red, 1 green, 2 blue) of a colour. */
  function Channel(c: string, k: nat): Byte
    requires IsColor(c) && k < 3
  {
    ParsePair(c[1 + 2 * k], c[2 + 2 * k])
  }

  /** A digit pair is determined by the value it parses to. */
  lemma PairDeterminedByValue(hi: char, lo: char, hi': char, lo': char)
    requires IsHexDigit(hi) && IsHexDigit(lo) && IsHexDigit(hi') && IsHexDigit(lo')
    requires ParsePair(hi, lo) == ParsePair(hi', lo')
    ensures hi == hi' && lo == lo'
  {
    FormatParse(hi, lo);
    FormatParse(hi', lo');
  }

  /** A colour is determined by its three channels. */
  lemma ChannelsDetermineColor(a: string, b: string)
    requires IsColor(a) && IsColor(b)
    requires Channel(a, 0) == Channel(b, 0)
    requires Channel(a, 1) == Channel(b, 1)
    requires Channel(a, 2) == Channel(b, 2)
    ensures a == b
  {
    PairDeterminedByValue(a[1], a[2], b[1], b[2]);
    PairDeterminedByValue(a[3], a[4], b[3], b[4]);
    PairDeterminedByValue(a[5], a[6], b[5], b[6]);
    assert forall i :: 0 <= i < 7 ==> a[i] == b[i];
  }

  /** `Math.min(Math.max(x, 0), 255)`. */
  function Clamp(x: real): (r: real)
    ensures 0.0 <= r <= 255.0
    ensures 0.0 <= x <= 255.0 ==> r == x
    ensures x < 0.0 ==> r == 0.0
    ensures 255.0 < x ==> r == 255.0
  {
    if x < 0.0 then 0.0 else if x > 255.0 then 255.0 else x
  }

  /**
   * The least `n >= from` with `x < n + 1/2`: the search behind `Round`.
   * Started at 0 on a clamped value, it finds the nearest byte, halves rounding up.
   */
  function RoundFrom(x: real, from: nat): (n: Byte)
    requires 0.0 <= x <= 255.0 && from as real - 0.5 <= x
    ensures from <= n
    ensures n as real - 0.5 <= x < n as real + 0.5
    decreases 256 - from
  {
    if x < from as real + 0.5 then from else RoundFrom(x, from + 1)
  }

  /** `Math.round` on a value already clamped to 0..255. */
  function Round(x: real): (n: Byte)
    requires 0.0 <= x <= 255.0
    ensures n as real - 0.5 <= x < n as real + 0.5
  {
    RoundFrom(x, 0)
  }

  /** `Round` is `Math.round`'s `Floor(x + 1/2)`. */
  lemma RoundIsFloorHalf(x: real)
    requires 0.0 <= x <= 255.0
    ensures Round(x) == (x + 0.5).Floor
  {
    var n := Round(x);
    assert n as real <= x + 0.5 < n as real + 1.0;
  }

  /** Rounding a clamped value keeps an overshoot at its bound. */
  lemma RoundClamped(x: real)
    ensures x < 0.0 ==> Round(Clamp(x)) == 0
    ensures 255.0 < x ==> Round(Clamp(x)) == 255
  {
  }

  /** Rounding keeps the order against an integer, and fixes integers. */
  lemma RoundedAgainst(x: real, n: int)
    requires 0.0 <= x <= 255.0
    ensures x >= n as real ==> Round(x) >= n
    ensures x <= n as real ==> Round(x) <= n
    ensures x == n as real ==> Round(x) == n
  {
  }

  /**
   * `v * f` for a channel value `v`, as `v` repeated additions of `f`; this
   * keeps the product linear for the solver. `TimesIsProduct` shows it is
   * the exact product.
   */
  function Times(v: nat, f: real): real
    decreases v
  {
    if v == 0 then 0.0 else Times(v - 1, f) + f
  }

  lemma {:induction false} TimesIsProduct(v: nat, f: real)
    ensures Times(v, f) == v as real * f
    decreases v
  {
    if v > 0 {
      TimesIsProduct(v - 1, f);
      assert v as real * f == (v - 1) as real * f + f;
    }
  }

  /** Scaling by a factor of at least one never shrinks a count, by at most one never grows it. */
  lemma {:induction false} TimesSide(v: nat, f: real)
    ensures f >= 1.0 ==> Times(v, f) >= v as real
    ensures 0.0 <= f <= 1.0 ==> 0.0 <= Times(v, f) <= v as real
    ensures f < 0.0 && v > 0 ==> Times(v, f) < 0.0
    decreases v
  {
    if v > 0 {
      TimesSide(v - 1, f);
    }
  }

  /** The exact product `channel * (1 + intensity)`, before clamping and rounding. */
  function Scaled(v: Byte, intensity: real): real {
    Times(v, 1.0 + intensity)
  }

  /** One channel scaled by `1 + intensity`, clamped and rounded. */
  function ScaleChannel(v: Byte, intensity: real): (r: Byte)
    // Brightening never darkens a channel, darkening never brightens one.
    ensures intensity >= 0.0 ==> r >= v
    ensures intensity <= 0.0 ==> r <= v
    ensures intensity == 0.0 ==> r == v
  {
    var x := Scaled(v, intensity);
    TimesSide(v, 1.0 + intensity);
    RoundClamped(x);
    RoundedAgainst(Clamp(x), v);
    Round(Clamp(x))
  }

  /**
   * The scaled channel is the byte nearest `channel * (1 + intensity)`, or
   * the bound that product overshoots.
   */
  lemma ScaleChannelRounds(v: Byte, intensity: real)
    ensures var x := Scaled(v, intensity);
      && x == v as real * (1.0 + intensity)
      && (0.0 <= x <= 255.0 ==> ScaleChannel(v, intensity) as real - 0.5 <= x < ScaleChannel(v, intensity) as real + 0.5)
      && (x < 0.0 ==> ScaleChannel(v, intensity) == 0)
      && (255.0 < x ==> ScaleChannel(v, intensity) == 255)
  {
    TimesIsProduct(v, 1.0 + intensity);
    RoundClamped(Scaled(v, intensity));
  }

  /** `#` followed by the three channels' two-digit numerals, joined. */
  function FormatColor(red: Byte, green: Byte, blue: Byte): (c: string)
    ensures IsColor(c)
    ensures Channel(c, 0) == red && Channel(c, 1) == green && Channel(c, 2) == blue
  {
    var c := "#" + FormatByte(red) + FormatByte(green) + FormatByte(blue);
    FormattedColor(red, green, blue, c);
    c
  }

  /** The joined numerals form a colour whose channels read back as the bytes written. */
  lemma FormattedColor(red: Byte, green: Byte, blue: Byte, c: string)
    requires c == "#" + FormatByte(red) + FormatByte(green) + FormatByte(blue)
    ensures IsColor(c)
    ensures Channel(c, 0) == red && Channel(c, 1) == green && Channel(c, 2) == blue
  {
    var r, g, b := FormatByte(red), FormatByte(green), FormatByte(blue);
    assert c[1] == r[0] && c[2] == r[1];
    assert c[3] == g[0] && c[4] == g[1];
    assert c[5] == b[0] && c[6] == b[1];
    ParseFormat(red);
    ParseFormat(green);
    ParseFormat(blue);
    assert Channel(c, 0) == ParsePair(r[0], r[1]);
    assert Channel(c, 1) == ParsePair(g[0], g[1]);
    assert Channel(c, 2) == ParsePair(b[0], b[1]);
  }

  /** `luminance(color, intensity)`. */
  function Luminance(color: string, intensity: real): (r: string)
    requires IsColor(color)
    ensures IsColor(r)
    ensures Channel(r, 0) == ScaleChannel(Channel(color, 0), intensity)
    ensures Channel(r, 1) == ScaleChannel(Channel(color, 1), intensity)
    ensures Channel(r, 2) == ScaleChannel(Channel(color, 2), intensity)
  {
    var red := ScaleChannel(Channel(color, 0), intensity);
    var green := ScaleChannel(Channel(color, 1), intensity);
    var blue := ScaleChannel(Channel(color, 2), intensity);
    FormatColor(red, green, blue)
  }

  /** An intensity of zero writes the colour back unchanged. */
  lemma {:induction false} LuminanceIdentity(c: string)
    requires IsColor(c)
    ensures Luminance(c, 0.0) == c
  {
    var r := Luminance(c, 0.0);
    assert Channel(r, 0) == Channel(c, 0);
    assert Channel(r, 1) == Channel(c, 1);
    assert Channel(r, 2) == Channel(c, 2);
    ChannelsDetermineColor(r, c);
  }

  /** A non-negative intensity raises or keeps every channel. */
  lemma LuminanceBrightens(c: string, intensity: real, k: nat)
    requires IsColor(c) && k < 3 && intensity >= 0.0
    ensures Channel(Luminance(c, intensity), k) >= Channel(c, k)
  {
    LuminanceChannel(c, intensity, k);
  }

  /** A non-positive intensity lowers or keeps every channel. */
  lemma LuminanceDarkens(c: string, intensity: real, k: nat)
    requires IsColor(c) && k < 3 && intensity <= 0.0
    ensures Channel(Luminance(c, intensity), k) <= Channel(c, k)
  {
    LuminanceChannel(c, intensity, k);
  }

  /**
   * Opposite intensities bracket a colour: the darkened copy is no lighter
   * and the lightened copy no darker, channel by channel.
   */
  lemma LuminancePair(c: string, intensity: real, k: nat)
    requires IsColor(c) && k < 3 && intensity >= 0.0
    ensures Channel(Luminance(c, -intensity), k) <= Channel(c, k) <= Channel(Luminance(c, intensity), k)
  {
    LuminanceDarkens(c, -intensity, k);
    LuminanceBrightens(c, intensity, k);
  }

  /** Channel `k` of the result is channel `k` of the input, scaled. */
  lemma LuminanceChannel(c: string, intensity: real, k: nat)
    requires IsColor(c) && k < 3
    ensures Channel(Luminance(c, intensity), k) == ScaleChannel(Channel(c, k), intensity)
  {
    // One case per channel, so that each case meets exactly one of Luminance's ensures.
    if k == 0 {
    } else if k == 1 {
    } else {
    }
  }
}
