/**
 * The colour helper `adjustBrightness` of the letter modal (the letter envelope carries a
 * textually identical copy): read `#rrggbb`, add an amount to each channel, clamp each channel
 * to [0, 255] and print it again as two lower-case hex digits.
 */
module LetterModal {
  import opened Text

  /** `color.replace('#', '')`: the pattern is a string, so only the first '#' goes. */
  function StripHash(color: string): string
  {
    var k := IndexOf(color, '#');
    if k < |color| then color[..k] + color[k + 1..] else color
  }

  /**
   * The colours the helper reads as numbers: once the first '#' is gone, the three two-character
   * slices it parses are hex digits. Anything else reaches parseInt's NaN path, which is not
   * modelled.
   */
  predicate ValidColor(color: string)
  {
    |StripHash(color)| >= 6 && AllDigits(StripHash(color)[..6], 16)
  }

  /** The six hex digits the helper reads. */
  function Hex(color: string): (hex: string)
    requires ValidColor(color)
    ensures |hex| == 6 && AllDigits(hex, 16)
  {
    StripHash(color)[..6]
  }

  /** `Math.max(0, Math.min(255, v))`. */
  function Clamp(v: int): (r: nat)
    ensures r <= 255
    ensures 0 <= v <= 255 ==> r == v
    ensures v < 0 ==> r == 0
    ensures v > 255 ==> r == 255
  {
    if v < 0 then 0 else if v > 255 then 255 else v
  }

  /** `parseInt(pair, 16)` on two hex digits. */
  function ParsePair(pair: string): (v: nat)
    requires |pair| == 2 && AllDigits(pair, 16)
    ensures v == DigitValue(pair[0]) * 16 + DigitValue(pair[1])
    ensures v < 256
  {
    var first := pair[..1];
    assert first[..0] == [];
    assert DigitsValue(first, 16) == DigitValue(pair[0]);
    assert DigitsValue(pair, 16) == DigitsValue(first, 16) * 16 + DigitValue(pair[1]);
    DigitsValue(pair, 16)
  }

  /** Channel k (0 red, 1 green, 2 blue) of a valid colour: `parseInt(hex.substring(2k, 2k + 2), 16)`. */
  function ChannelIn(color: string, k: nat): (v: nat)
    requires ValidColor(color) && k < 3
    ensures v < 256
  {
    var hex := Hex(color);
    ParsePair(hex[2 * k..2 * k + 2])
  }

  /** `n.toString(16).padStart(2, '0')` for a clamped channel. */
  function Byte(n: nat): (b: string)
    requires n < 256
    ensures |b| == 2 && IsLowerDigit(b[0]) && IsLowerDigit(b[1])
  {
    HexPair(n);
    DigitCharValue(n / 16);
    DigitCharValue(n % 16);
    PadStart(ToRadix(n, 16), 2, '0')
  }

  /** The template `#${r}${g}${b}` with each channel printed as a two-digit byte. */
  function HexColor(red: nat, green: nat, blue: nat): (r: string)
    requires red < 256 && green < 256 && blue < 256
    ensures |r| == 7 && r[0] == '#'
    ensures forall i :: 1 <= i < 7 ==> IsLowerDigit(r[i])
  {
    var x := Byte(red);
    var y := Byte(green);
    var z := Byte(blue);
    assert "#" + x + y + z == ['#', x[0], x[1], y[0], y[1], z[0], z[1]];
    "#" + x + y + z
  }

  /** The helper itself: every result is `#` followed by six lower-case hex digits. */
  function AdjustBrightness(color: string, amount: int): (r: string)
    requires ValidColor(color)
    ensures |r| == 7 && r[0] == '#'
    ensures forall i :: 1 <= i < 7 ==> IsLowerDigit(r[i])
  {
    var red := Clamp(ChannelIn(color, 0) + amount);
    var green := Clamp(ChannelIn(color, 1) + amount);
    var blue := Clamp(ChannelIn(color, 2) + amount);
    HexColor(red, green, blue)
  }

  /** Channel k of a `#rrggbb` string, read back by the same parser. */
  function ChannelOut(s: string, k: nat): (v: nat)
    requires |s| == 7 && k < 3
    requires forall i :: 1 <= i < 7 ==> IsLowerDigit(s[i])
    ensures v < 256
  {
    var pair := s[1 + 2 * k..3 + 2 * k];
    DigitCharValue(0);
    assert IsLowerDigit(pair[0]) && IsLowerDigit(pair[1]);
    ParsePair(pair)
  }

  lemma ByteValue(n: nat)
    requires n < 256
    ensures ParsePair(Byte(n)) == n
  {
    ToRadixRoundTrip(n, 16);
    ZeroPadKeepsValue(ToRadix(n, 16), 2, 16);
  }

  lemma HexColorSlices(red: nat, green: nat, blue: nat)
    requires red < 256 && green < 256 && blue < 256
    ensures HexColor(red, green, blue) == "#" + Byte(red) + Byte(green) + Byte(blue)
  {
  }

  /** Reading a printed colour back gives the channels it was printed from. */
  lemma HexColorChannels(red: nat, green: nat, blue: nat, k: nat)
    requires red < 256 && green < 256 && blue < 256 && k < 3
    ensures ChannelOut(HexColor(red, green, blue), k) == if k == 0 then red else if k == 1 then green else blue
  {
    var r := HexColor(red, green, blue);
    HexColorSlices(red, green, blue);
    if k == 0 {
      assert r[1..3] == Byte(red);
      ByteValue(red);
    } else if k == 1 {
      assert r[3..5] == Byte(green);
      ByteValue(green);
    } else {
      assert r[5..7] == Byte(blue);
      ByteValue(blue);
    }
  }

  /** Each channel of the result, read back, is the input channel plus amount, clamped to [0, 255]. */
  lemma ChannelsClamped(color: string, amount: int, k: nat)
    requires ValidColor(color) && k < 3
    ensures ChannelOut(AdjustBrightness(color, amount), k) == Clamp(ChannelIn(color, k) + amount)
  {
    var red := Clamp(ChannelIn(color, 0) + amount);
    var green := Clamp(ChannelIn(color, 1) + amount);
    var blue := Clamp(ChannelIn(color, 2) + amount);
    HexColorChannels(red, green, blue, k);
  }

  lemma LowerDigitRoundTrip(c: char)
    requires IsLowerDigit(c)
    ensures 0 <= DigitValue(c) < 16 && DigitChar(DigitValue(c)) == c
  {
  }

  /** Printing a parsed lower-case pair gives the pair back. */
  lemma PairRoundTrip(pair: string)
    requires |pair| == 2 && IsLowerDigit(pair[0]) && IsLowerDigit(pair[1])
    ensures AllDigits(pair, 16) && Byte(ParsePair(pair)) == pair
  {
    LowerDigitRoundTrip(pair[0]);
    LowerDigitRoundTrip(pair[1]);
    var v := ParsePair(pair);
    HexPair(v);
  }

  /** `#` followed by six lower-case hex digits: what the helper prints. */
  predicate LowerHexColor(color: string)
  {
    |color| == 7 && color[0] == '#' && forall i :: 1 <= i < 7 ==> IsLowerDigit(color[i])
  }

  lemma LowerHexIsValid(color: string)
    requires LowerHexColor(color)
    ensures ValidColor(color) && Hex(color) == color[1..]
  {
    assert StripHash(color) == color[1..];
    forall i | 0 <= i < 6 ensures IsDigit(color[1..][i], 16) {
      LowerDigitRoundTrip(color[i + 1]);
    }
  }

  /** Channel k of a lower-case colour prints back as the very pair it was read from. */
  lemma LowerChannelRoundTrip(color: string, k: nat)
    requires LowerHexColor(color) && k < 3
    ensures ValidColor(color) && Byte(ChannelIn(color, k)) == color[1 + 2 * k..3 + 2 * k]
  {
    LowerHexIsValid(color);
    var pair := color[1 + 2 * k..3 + 2 * k];
    assert Hex(color)[2 * k..2 * k + 2] == pair;
    PairRoundTrip(pair);
  }

  /** Adding 0 leaves every channel where it is, before printing. */
  lemma AdjustByZero(color: string)
    requires ValidColor(color)
    ensures AdjustBrightness(color, 0) == HexColor(ChannelIn(color, 0), ChannelIn(color, 1), ChannelIn(color, 2))
  {
  }

  /** A seven-character string is its first character and its three pairs. */
  lemma SplitSeven(s: string)
    requires |s| == 7
    ensures s == s[..1] + s[1..3] + s[3..5] + s[5..7]
  {
  }

  /** With amount 0 a lower-case `#rrggbb` comes back unchanged: parse and print are inverse. */
  lemma ZeroAmountIsIdentity(color: string)
    requires LowerHexColor(color)
    ensures ValidColor(color) && AdjustBrightness(color, 0) == color
  {
    LowerChannelRoundTrip(color, 0);
    LowerChannelRoundTrip(color, 1);
    LowerChannelRoundTrip(color, 2);
    AdjustByZero(color);
    var v0, v1, v2 := ChannelIn(color, 0), ChannelIn(color, 1), ChannelIn(color, 2);
    HexColorSlices(v0, v1, v2);
    SplitSeven(color);
    assert color[..1] == "#";
  }

  lemma StripLeadingHash(hex: string)
    ensures StripHash("#" + hex) == hex
  {
    var s := "#" + hex;
    assert s[0] == '#';
    assert IndexOf(s, '#') == 0;
    assert s[..0] + s[1..] == hex;
  }

  /** A '#' after the six digits does not disturb them. */
  lemma StripKeepsDigits(hex: string)
    requires |hex| >= 6 && AllDigits(hex[..6], 16)
    ensures ValidColor(hex) && Hex(hex) == hex[..6]
  {
    var k := IndexOf(hex, '#');
    assert DigitValue('#') == -1;
    assert forall i :: 0 <= i < 6 ==> hex[..6][i] != '#';
    assert k >= 6;
    assert StripHash(hex)[..6] == hex[..6];
  }

  /** The leading '#' is optional: `#rrggbb` and `rrggbb` give the same colour. */
  lemma HashOptional(hex: string, amount: int)
    requires |hex| >= 6 && AllDigits(hex[..6], 16)
    ensures ValidColor(hex) && ValidColor("#" + hex)
    ensures AdjustBrightness("#" + hex, amount) == AdjustBrightness(hex, amount)
  {
    StripLeadingHash(hex);
    StripKeepsDigits(hex);
    SameDigitsSameResult("#" + hex, hex, amount);
  }

  /** The result depends on the colour only through the six digits read. */
  lemma SameDigitsSameResult(c1: string, c2: string, amount: int)
    requires ValidColor(c1) && ValidColor(c2) && Hex(c1) == Hex(c2)
    ensures AdjustBrightness(c1, amount) == AdjustBrightness(c2, amount)
  {
    assert ChannelIn(c1, 0) == ChannelIn(c2, 0);
    assert ChannelIn(c1, 1) == ChannelIn(c2, 1);
    assert ChannelIn(c1, 2) == ChannelIn(c2, 2);
  }

  /** Each channel of the result is monotone in amount. */
  lemma MonotoneInAmount(color: string, a1: int, a2: int, k: nat)
    requires ValidColor(color) && k < 3 && a1 <= a2
    ensures ChannelOut(AdjustBrightness(color, a1), k) <= ChannelOut(AdjustBrightness(color, a2), k)
  {
    ChannelsClamped(color, a1, k);
    ChannelsClamped(color, a2, k);
  }

  lemma SaturatedChannels(color: string, amount: int, v: nat)
    requires ValidColor(color)
    requires v == 0 || v == 255
    requires v == 255 ==> amount >= 255
    requires v == 0 ==> amount <= -255
    ensures AdjustBrightness(color, amount) == HexColor(v, v, v)
  {
    assert Clamp(ChannelIn(color, 0) + amount) == v;
    assert Clamp(ChannelIn(color, 1) + amount) == v;
    assert Clamp(ChannelIn(color, 2) + amount) == v;
  }

  lemma Grey(v: nat)
    requires v == 0 || v == 255
    ensures v == 0 ==> HexColor(v, v, v) == "#000000"
    ensures v == 255 ==> HexColor(v, v, v) == "#ffffff"
  {
    HexPair(v);
  }

  /** An amount of 255 or more saturates every channel: the result is white. */
  lemma SaturatesToWhite(color: string, amount: int)
    requires ValidColor(color) && amount >= 255
    ensures AdjustBrightness(color, amount) == "#ffffff"
  {
    SaturatedChannels(color, amount, 255);
    Grey(255);
  }

  /** An amount of -255 or less empties every channel: the result is black. */
  lemma SaturatesToBlack(color: string, amount: int)
    requires ValidColor(color) && amount <= -255
    ensures AdjustBrightness(color, amount) == "#000000"
  {
    SaturatedChannels(color, amount, 0);
    Grey(0);
  }
}
