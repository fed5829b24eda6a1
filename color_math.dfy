/**
 * Colour arithmetic of the suggestion engine: the strict hex parser, the
 * RGB-to-hex printer, the 24-bit XOR complement and the clamped random
 * jitter, with `Math.floor`, `parseInt(_, 16)`, `toString(16)`, `padStart`
 * and the bitwise `^` written out.
 */
module ColorMath {
  import opened Wrappers
  import opened Text

  /** A colour channel, 0 to 255. */
  type Byte = x: int | 0 <= x < 256

  datatype Rgb = Rgb(r: Byte, g: Byte, b: Byte)

  predicate IsHexDigit(c: char) {
    '0' <= c <= '9' || 'a' <= c <= 'f' || 'A' <= c <= 'F'
  }

  predicate AllHex(s: string) {
    forall i :: 0 <= i < |s| ==> IsHexDigit(s[i])
  }

  /** A lower-case hex digit, the form `toString(16)` prints. */
  predicate IsLowerHexDigit(c: char) {
    '0' <= c <= '9' || 'a' <= c <= 'f'
  }

  /** The form every generated colour has: `#` and six lower-case hex digits. */
  predicate IsCanonicalHex(s: string) {
    |s| == 7 && s[0] == '#' && forall i :: 1 <= i < 7 ==> IsLowerHexDigit(s[i])
  }

  function HexValue(c: char): (v: nat)
    requires IsHexDigit(c)
    ensures v < 16
  {
    if '0' <= c <= '9' then c as int - '0' as int
    else if 'a' <= c <= 'f' then c as int - 'a' as int + 10
    else c as int - 'A' as int + 10
  }

  function Pow16(k: nat): (p: nat)
    ensures p >= 1
  {
    if k == 0 then 1 else 16 * Pow16(k - 1)
  }

  lemma Pow16Values()
    ensures Pow16(1) == 16 && Pow16(2) == 256 && Pow16(4) == 65536
    ensures Pow16(5) == 0x100000 && Pow16(6) == 0x1000000
  {
    assert Pow16(1) == 16;
    assert Pow16(2) == 256;
    assert Pow16(3) == 4096;
    assert Pow16(4) == 65536;
    assert Pow16(5) == 0x100000;
  }

  /** `parseInt(s, 16)` for a text made only of hex digits. */
  function ParseHex(s: string): (v: nat)
    requires AllHex(s)
    ensures v < Pow16(|s|)
  {
    if s == [] then 0 else ParseHex(s[..|s| - 1]) * 16 + HexValue(s[|s| - 1])
  }

  function LowerHexDigit(d: nat): (c: char)
    requires d < 16
    ensures IsLowerHexDigit(c) && HexValue(c) == d
  {
    if d < 10 then ('0' as int + d) as char else ('a' as int + d - 10) as char
  }

  /** The last `width` hex digits of `n`, lower case, zero-filled on the left. */
  function FixedHex(n: nat, width: nat): (s: string)
    ensures |s| == width
    ensures forall i :: 0 <= i < width ==> IsLowerHexDigit(s[i])
  {
    if width == 0 then [] else FixedHex(n / 16, width - 1) + [LowerHexDigit(n % 16)]
  }

  /** `n.toString(16)` for a non-negative integer: lower-case digits without leading zeros. */
  function ToHexString(n: nat): (s: string)
    ensures |s| >= 1
  {
    if n < 16 then [LowerHexDigit(n)] else ToHexString(n / 16) + [LowerHexDigit(n % 16)]
  }

  /** A colour as `_hexToRgb` accepts it: an optional `#`, then exactly six hex digits, any case. */
  predicate IsHexColor(s: string) {
    (|s| == 7 && s[0] == '#' && AllHex(s[1..])) || (|s| == 6 && AllHex(s))
  }

  /**
   * `_hexToRgb`: the regular expression `^#?([a-f\d]{2})([a-f\d]{2})([a-f\d]{2})$`
   * with the `i` flag, each captured pair read with `parseInt(_, 16)`; `null` is None.
   */
  function HexToRgb(hex: string): (c: Option<Rgb>)
    ensures c.Some? <==> IsHexColor(hex)
  {
    var digits := if |hex| == 7 && hex[0] == '#' then hex[1..] else hex;
    if |digits| == 6 && AllHex(digits) then
      Some(Rgb(ParseHex(digits[0..2]), ParseHex(digits[2..4]), ParseHex(digits[4..6])))
    else None
  }

  // ----- lemmas about the digit functions -----

  /** Reading back fixed-width digits gives the number, when it fits. */
  lemma {:induction false} ParseFixedHex(n: nat, width: nat)
    requires n < Pow16(width)
    ensures AllHex(FixedHex(n, width)) && ParseHex(FixedHex(n, width)) == n
  {
    if width > 0 {
      ParseFixedHex(n / 16, width - 1);
      var s := FixedHex(n, width);
      assert s[..|s| - 1] == FixedHex(n / 16, width - 1);
    }
  }

  /** Fixed-width digits of `a * 16^k + b` split into those of `a` and those of `b`. */
  lemma {:induction false} FixedHexSplit(a: nat, b: nat, j: nat, k: nat)
    requires b < Pow16(k)
    ensures FixedHex(a * Pow16(k) + b, j + k) == FixedHex(a, j) + FixedHex(b, k)
  {
    if k > 0 {
      var p := Pow16(k - 1);
      var x := a * p;
      MulShift(a, p);
      assert a * Pow16(k) + b == 16 * x + b;
      DivMod16(x, b);
      assert b / 16 < p;
      FixedHexSplit(a, b / 16, j, k - 1);
    }
  }

  lemma MulShift(a: nat, p: nat)
    ensures a * (16 * p) == 16 * (a * p)
  {
  }

  lemma DivMod16(x: nat, b: nat)
    ensures (16 * x + b) / 16 == x + b / 16
    ensures (16 * x + b) % 16 == b % 16
  {
  }

  /** The digits of `parseInt` split the same way. */
  lemma {:induction false} ParseHexConcat(a: string, b: string)
    requires AllHex(a) && AllHex(b)
    ensures AllHex(a + b) && ParseHex(a + b) == ParseHex(a) * Pow16(|b|) + ParseHex(b)
  {
    if b != [] {
      var ab := a + b;
      var b' := b[..|b| - 1];
      assert ab[..|ab| - 1] == a + b' && ab[|ab| - 1] == b[|b| - 1];
      ParseHexConcat(a, b');
      ShiftDigit(ParseHex(a), Pow16(|b'|), ParseHex(b'), HexValue(b[|b| - 1]));
    } else {
      assert a + b == a;
    }
  }

  lemma ShiftDigit(x: nat, p: nat, y: nat, d: nat)
    ensures (x * p + y) * 16 + d == x * (16 * p) + (y * 16 + d)
  {
  }

  /** `toString(16)` of `16^k + v` is a `1` followed by the `k` digits of `v`. */
  lemma {:induction false} ToHexStringLeadingOne(k: nat, v: nat)
    requires v < Pow16(k)
    ensures ToHexString(Pow16(k) + v) == ['1'] + FixedHex(v, k)
  {
    if k > 0 {
      var p := Pow16(k - 1);
      var n := Pow16(k) + v;
      assert n / 16 == p + v / 16 && n % 16 == v % 16;
      ToHexStringLeadingOne(k - 1, v / 16);
    }
  }

  /** `toString(16)` padded with `'0'` to `k` places is the `k` fixed-width digits. */
  lemma {:induction false} PaddedToHexString(k: nat, v: nat)
    requires k >= 1 && v < Pow16(k)
    ensures PadStart(ToHexString(v), k, '0') == FixedHex(v, k)
  {
    if v < 16 {
      FixedHexOfSmall(v, k);
      PadStartSnoc([], LowerHexDigit(v), k, '0');
    } else {
      Pow16Values();
      PaddedToHexString(k - 1, v / 16);
      PadStartSnoc(ToHexString(v / 16), LowerHexDigit(v % 16), k, '0');
    }
  }

  lemma {:induction false} FixedHexOfSmall(v: nat, k: nat)
    requires k >= 1 && v < 16
    ensures FixedHex(v, k) == seq(k - 1, _ => '0') + [LowerHexDigit(v)]
  {
    if k >= 2 {
      FixedHexOfSmall(0, k - 1);
      assert seq(k - 2, _ => '0') + [LowerHexDigit(0)] == seq(k - 1, _ => '0');
    }
  }

  /** Six fixed-width digits of `r*65536 + g*256 + b` behind a `#` read back as (r, g, b). */
  lemma HexOfChannels(r: Byte, g: Byte, b: Byte)
    ensures HexToRgb("#" + FixedHex(r * 65536 + g * 256 + b, 6)) == Some(Rgb(r, g, b))
  {
    var digits := FixedHex(r * 65536 + g * 256 + b, 6);
    assert digits == FixedHex(r, 2) + FixedHex(g, 2) + FixedHex(b, 2) by {
      Pow16Values();
      FixedHexSplit(g, b, 2, 2);
      FixedHexSplit(r, g * 256 + b, 2, 4);
    }
    assert digits[0..2] == FixedHex(r, 2) && digits[2..4] == FixedHex(g, 2) && digits[4..6] == FixedHex(b, 2);
    assert ParseHex(digits[0..2]) == r && ParseHex(digits[2..4]) == g && ParseHex(digits[4..6]) == b by {
      Pow16Values();
      ParseFixedHex(r, 2);
      ParseFixedHex(g, 2);
      ParseFixedHex(b, 2);
    }
    var hex := "#" + digits;
    assert hex[1..] == digits;
  }

  /** The 24-bit value of six hex digits is the channels' weighted sum. */
  lemma SixDigitValue(digits: string)
    requires |digits| == 6 && AllHex(digits)
    ensures ParseHex(digits) == ParseHex(digits[0..2]) * 65536 + ParseHex(digits[2..4]) * 256 + ParseHex(digits[4..6])
  {
    Pow16Values();
    assert digits[2..6] == digits[2..4] + digits[4..6];
    ParseHexConcat(digits[2..4], digits[4..6]);
    assert digits == digits[0..2] + digits[2..6];
    ParseHexConcat(digits[0..2], digits[2..6]);
  }

  // ----- `_rgbToHex` -----

  /**
   * `_rgbToHex`: `((1 << 24) + (r << 16) + (g << 8) + b).toString(16).slice(1)`
   * behind a `#`. The shifts cannot overflow 32 bits for channels in range.
   */
  function RgbToHex(r: Byte, g: Byte, b: Byte): (hex: string)
    ensures IsCanonicalHex(hex)
  {
    RgbToHexDigits(r, g, b);
    "#" + ToHexString(16777216 + r * 65536 + g * 256 + b)[1..]
  }

  lemma RgbToHexDigits(r: Byte, g: Byte, b: Byte)
    ensures |ToHexString(16777216 + r * 65536 + g * 256 + b)| == 7
    ensures ToHexString(16777216 + r * 65536 + g * 256 + b)[1..] == FixedHex(r * 65536 + g * 256 + b, 6)
  {
    Pow16Values();
    ToHexStringLeadingOne(6, r * 65536 + g * 256 + b);
  }

  /** Printing channels in range and parsing them back gives the same channels. */
  lemma RgbToHexRoundTrip(r: Byte, g: Byte, b: Byte)
    ensures HexToRgb(RgbToHex(r, g, b)) == Some(Rgb(r, g, b))
  {
    RgbToHexDigits(r, g, b);
    HexOfChannels(r, g, b);
  }

  // ----- the 24-bit complement -----

  function Pow2(k: nat): (p: nat)
    ensures p >= 1
  {
    if k == 0 then 1 else 2 * Pow2(k - 1)
  }

  lemma Pow2Of24()
    ensures Pow2(24) == 0x1000000
  {
    assert Pow2(4) == 16;
    assert Pow2(8) == 256 by { assert Pow2(5) == 32; assert Pow2(6) == 64; assert Pow2(7) == 128; }
    assert Pow2(12) == 4096 by { assert Pow2(9) == 512; assert Pow2(10) == 1024; assert Pow2(11) == 2048; }
    assert Pow2(16) == 65536 by { assert Pow2(13) == 8192; assert Pow2(14) == 16384; assert Pow2(15) == 32768; }
    assert Pow2(20) == 0x100000 by { assert Pow2(17) == 0x20000; assert Pow2(18) == 0x40000; assert Pow2(19) == 0x80000; }
    assert Pow2(23) == 0x800000 by { assert Pow2(21) == 0x200000; assert Pow2(22) == 0x400000; }
  }

  /** The bitwise `^` of two non-negative integers, bit by bit from the lowest. */
  function BitXor(a: nat, b: nat): nat
    decreases a + b
  {
    if a == 0 && b == 0 then 0
    else 2 * BitXor(a / 2, b / 2) + (if a % 2 == b % 2 then 0 else 1)
  }

  /** XOR with `k` one-bits flips each of the `k` bits: it subtracts from the mask. */
  lemma {:induction false} XorWithOnes(k: nat, v: nat)
    requires v < Pow2(k)
    ensures BitXor(Pow2(k) - 1, v) == Pow2(k) - 1 - v
  {
    if k > 0 {
      var m := Pow2(k) - 1;
      assert m / 2 == Pow2(k - 1) - 1 && m % 2 == 1;
      XorWithOnes(k - 1, v / 2);
    }
  }

  /** XOR with 0xFFFFFF is its own inverse on 24-bit values. */
  lemma XorInvolution(v: nat)
    requires v < 0x1000000
    ensures BitXor(0xFFFFFF, v) < 0x1000000
    ensures BitXor(0xFFFFFF, BitXor(0xFFFFFF, v)) == v
  {
    Pow2Of24();
    XorWithOnes(24, v);
    XorWithOnes(24, 0xFFFFFF - v);
  }

  /**
   * The complementary colour of line 74: `0xFFFFFF ^ parseInt(color.substring(1), 16)`
   * printed with `toString(16).padStart(6, '0')` behind a `#`: a channel
   * inversion (see ComplementInvertsChannels), not a hue rotation.
   */
  function ComplementHex(color: string): (hex: string)
    requires IsHexColor(color)
    ensures IsCanonicalHex(hex)
  {
    ComplementDigits(color);
    "#" + PadStart(ToHexString(BitXor(0xFFFFFF, ParseHex(color[1..]))), 6, '0')
  }

  /** For the `#`-form the complement inverts every channel: 255 minus it. */
  lemma ComplementInvertsChannels(color: string)
    requires IsHexColor(color) && color[0] == '#'
    ensures var c := HexToRgb(color).value;
      HexToRgb(ComplementHex(color)) == Some(Rgb(255 - c.r, 255 - c.g, 255 - c.b))
  {
    ComplementDigits(color);
    ComplementChannels(color);
  }

  /** The printed complement is the six digits of `0xFFFFFF - v`. */
  lemma ComplementDigits(color: string)
    requires IsHexColor(color)
    ensures var v := ParseHex(color[1..]);
      v < 0x1000000 &&
      PadStart(ToHexString(BitXor(0xFFFFFF, v)), 6, '0') == FixedHex(0xFFFFFF - v, 6)
  {
    var v := ParseHex(color[1..]);
    assert v < 0x1000000 by {
      Pow16Values();
    }
    var w := BitXor(0xFFFFFF, v);
    assert w == 0xFFFFFF - v by {
      Pow2Of24();
      XorWithOnes(24, v);
    }
    assert PadStart(ToHexString(w), 6, '0') == FixedHex(w, 6) by {
      Pow16Values();
      PaddedToHexString(6, w);
    }
  }

  /** For the `#`-form the six digits of `0xFFFFFF - v` invert every channel. */
  lemma ComplementChannels(color: string)
    requires IsHexColor(color) && color[0] == '#'
    ensures var c := HexToRgb(color).value;
      HexToRgb("#" + FixedHex(0xFFFFFF - ParseHex(color[1..]), 6)) == Some(Rgb(255 - c.r, 255 - c.g, 255 - c.b))
  {
    var c := HexToRgb(color).value;
    var v := ParseHex(color[1..]);
    assert v == c.r * 65536 + c.g * 256 + c.b by {
      ChannelsOfValue(color);
    }
    InvertedChannels(c.r, c.g, c.b, v);
  }

  lemma InvertedChannels(r: Byte, g: Byte, b: Byte, v: nat)
    requires v == r * 65536 + g * 256 + b
    ensures HexToRgb("#" + FixedHex(0xFFFFFF - v, 6)) == Some(Rgb(255 - r, 255 - g, 255 - b))
  {
    assert 0xFFFFFF - v == (255 - r) * 65536 + (255 - g) * 256 + (255 - b);
    HexOfChannels(255 - r, 255 - g, 255 - b);
  }

  /** For the `#`-form the value of the six digits is the channels' weighted sum. */
  lemma ChannelsOfValue(color: string)
    requires IsHexColor(color) && color[0] == '#'
    ensures var c := HexToRgb(color).value;
      ParseHex(color[1..]) == c.r * 65536 + c.g * 256 + c.b
  {
    var digits := color[1..];
    SixDigitValue(digits);
  }

  /** Complementing twice gives back the original 24-bit colour. */
  lemma ComplementTwice(color: string)
    requires IsHexColor(color) && color[0] == '#'
    ensures IsHexColor(ComplementHex(color))
    ensures HexToRgb(ComplementHex(ComplementHex(color))) == HexToRgb(color)
  {
    var once := ComplementHex(color);
    assert IsHexColor(once) && once[0] == '#' by {
      CanonicalIsHexColor(once);
    }
    var c := HexToRgb(color).value;
    assert HexToRgb(once) == Some(Rgb(255 - c.r, 255 - c.g, 255 - c.b)) by {
      ComplementInvertsChannels(color);
    }
    ComplementInvertsChannels(once);
  }

  lemma CanonicalIsHexColor(s: string)
    requires IsCanonicalHex(s)
    ensures IsHexColor(s) && s[0] == '#'
  {
    assert forall i :: 0 <= i < 6 ==> s[1..][i] == s[i + 1];
  }

  // ----- random draws -----

  function Min(a: int, b: int): int { if a < b then a else b }

  function Max(a: int, b: int): int { if a < b then b else a }

  /** `Math.max(0, Math.min(255, v))`; a value already in range is kept. */
  function Clamp(v: int): (c: Byte)
    ensures 0 <= v <= 255 ==> c == v
    ensures v < 0 ==> c == 0
    ensures v > 255 ==> c == 255
  {
    Max(0, Min(255, v))
  }

  /** `Math.floor(x * 60 - 30)` for a draw `x` of `Math.random()`: a shift in [-30, 29]. */
  function Jitter(x: real): (d: int)
    requires 0.0 <= x < 1.0
    ensures -30 <= d <= 29
  {
    (x * 60.0 - 30.0).Floor
  }

  /** `Math.floor(x * 256)` for a draw `x` of `Math.random()`: a channel. */
  function RandomChannel(x: real): (c: Byte)
    requires 0.0 <= x < 1.0
  {
    (x * 256.0).Floor
  }

  /** A jittered and clamped channel stays within 30 of the channel it came from. */
  lemma ClampedJitterClose(c: Byte, x: real)
    requires 0.0 <= x < 1.0
    ensures -30 <= Clamp(c + Jitter(x)) - c <= 30
  {
  }

  // ----- the `#` prefix rule -----

  /**
   * A colour with a `#` in front unless it already starts with one
   * (`color.startsWith('#') ? color : `#${color}``, and the same rule written
   * with `substr(0, 1) !== '#'` on import).
   */
  function WithHash(color: string): (r: string)
    ensures |r| >= 1 && r[0] == '#'
    ensures |color| >= 1 && color[0] == '#' ==> r == color
    ensures (color == [] || color[0] != '#') ==> r == "#" + color
  {
    if |color| >= 1 && color[0] == '#' then color else "#" + color
  }

  /** Adding the prefix is idempotent. */
  lemma WithHashIdempotent(color: string)
    ensures WithHash(WithHash(color)) == WithHash(color)
  {
  }
}
