/**
 * The helpers of `imageUtils` in utils/imageOptimization.ts that compute something: the device
 * memory class per platform and the placeholder colour derived from a 32-bit string hash.
 */
module ImageUtils {
  import opened ImageOptimization

  datatype Platform = Web | IOS | Android | OtherPlatform

  /** getDeviceMemoryCapacity: never reports a low-memory device. */
  function GetDeviceMemoryCapacity(platform: Platform): (m: DeviceMemory)
    ensures m != LowMemory
    ensures m == HighMemory <==> platform == IOS
  {
    match platform
    case Web => MediumMemory
    case IOS => HighMemory
    case Android => MediumMemory
    case OtherPlatform => MediumMemory
  }

  const TwoTo31: int := 0x8000_0000
  const TwoTo32: int := 0x1_0000_0000

  predicate IsInt32(x: int) { -TwoTo31 <= x < TwoTo31 }

  /** ECMAScript ToInt32 on an integral number: wrap into [-2^31, 2^31). */
  function ToInt32(x: int): (r: int)
    ensures IsInt32(r)
    ensures (x - r) % TwoTo32 == 0
    ensures IsInt32(x) ==> r == x
  {
    var m := x % TwoTo32;
    if m >= TwoTo31 then m - TwoTo32 else m
  }

  /** Numbers congruent modulo 2^32 wrap to the same 32-bit integer. */
  lemma ToInt32Congruent(x: int, y: int)
    requires (x - y) % TwoTo32 == 0
    ensures ToInt32(x) == ToInt32(y)
  {
    var k := (x - y) / TwoTo32;
    assert x == y + k * TwoTo32;
    assert x % TwoTo32 == y % TwoTo32;
  }

  /** Congruence modulo 2^32 survives `n -> 31 * n + unit`. */
  lemma CongruentStep(p: int, h: int, unit: int)
    requires (p - h) % TwoTo32 == 0
    ensures ((31 * p + unit) - (31 * h + unit)) % TwoTo32 == 0
  {
    var k := (p - h) / TwoTo32;
    assert p - h == k * TwoTo32;
    assert (31 * p + unit) - (31 * h + unit) == (31 * k) * TwoTo32;
  }

  /** The UTF-16 code units of one character (what charCodeAt reads). */
  function CodeUnits(c: char): (u: seq<int>)
    ensures 1 <= |u| <= 2
    ensures forall k :: 0 <= k < |u| ==> 0 <= u[k] < 0x1_0000
  {
    var n := c as int;
    if n < 0x1_0000 then [n]
    else [0xD800 + (n - 0x1_0000) / 0x400, 0xDC00 + (n - 0x1_0000) % 0x400]
  }

  /** A string as JavaScript sees it: a sequence of UTF-16 code units. */
  function Utf16(s: string): (u: seq<int>)
    ensures |u| >= |s|
    ensures forall k :: 0 <= k < |u| ==> 0 <= u[k] < 0x1_0000
  {
    if s == [] then [] else Utf16(s[..|s| - 1]) + CodeUnits(s[|s| - 1])
  }

  /**
   * One round of the loop body: `((hash << 5) - hash) + char`, then `hash & hash`. The result is a
   * signed 32-bit integer congruent to hash * 31 + char modulo 2^32.
   */
  function HashStep(hash: int, unit: int): (h: int)
    ensures IsInt32(h)
    ensures (h - (31 * hash + unit)) % TwoTo32 == 0
  {
    WrappedStepCongruent(hash, unit);
    ToInt32(ToInt32(hash * 32) - hash + unit)
  }

  /** The wrapped round differs from hash * 31 + unit by a multiple of 2^32. */
  lemma WrappedStepCongruent(hash: int, unit: int)
    ensures (ToInt32(ToInt32(hash * 32) - hash + unit) - (31 * hash + unit)) % TwoTo32 == 0
  {
    var s := ToInt32(hash * 32);
    var k1 := (hash * 32 - s) / TwoTo32;
    assert hash * 32 - s == k1 * TwoTo32;
    var x := s - hash + unit;
    var h := ToInt32(x);
    var k2 := (x - h) / TwoTo32;
    assert x - h == k2 * TwoTo32;
    assert h - (31 * hash + unit) == (-k1 - k2) * TwoTo32;
  }

  /** The hash after the loop has consumed `units`. */
  function StringHash(units: seq<int>): (h: int)
    ensures IsInt32(h)
  {
    if units == [] then 0 else HashStep(StringHash(units[..|units| - 1]), units[|units| - 1])
  }

  /** The same hash without wrap-around: sum of units[i] * 31^(n-1-i). */
  function PolynomialHash(units: seq<int>): int {
    if units == [] then 0 else 31 * PolynomialHash(units[..|units| - 1]) + units[|units| - 1]
  }

  /** One loop round is hash * 31 + char, wrapped to 32 bits. */
  lemma HashStepIsTimes31(hash: int, unit: int)
    ensures HashStep(hash, unit) == ToInt32(31 * hash + unit)
  {
    var s := ToInt32(hash * 32);
    assert (hash * 32 - s) % TwoTo32 == 0;
    assert ((s - hash + unit) - (31 * hash + unit)) == -(hash * 32 - s);
    ToInt32Congruent(s - hash + unit, 31 * hash + unit);
  }

  /** The wrapped hash is the unbounded polynomial hash reduced to a signed 32-bit integer. */
  lemma {:induction false} StringHashIsWrappedPolynomial(units: seq<int>)
    ensures StringHash(units) == ToInt32(PolynomialHash(units))
  {
    if units != [] {
      var init, last := units[..|units| - 1], units[|units| - 1];
      StringHashIsWrappedPolynomial(init);
      var h, p := StringHash(init), PolynomialHash(init);
      HashStepIsTimes31(h, last);
      CongruentStep(p, h, last);
      ToInt32Congruent(31 * p + last, 31 * h + last);
    }
  }

  /** `hsl(hue, saturation%, lightness%)` */
  datatype Hsl = Hsl(hue: int, saturation: int, lightness: int)

  function Abs(x: int): (a: nat)
    ensures a == x || a == -x
  {
    if x < 0 then -x else x
  }

  /** The colour picked by a hash: a hue, a muted saturation and a light lightness. */
  function ColorOf(hash: int): (c: Hsl)
    ensures 0 <= c.hue <= 359
    ensures 20 <= c.saturation <= 49
    ensures 85 <= c.lightness <= 94
  {
    Hsl(Abs(hash) % 360, 20 + Abs(hash) % 30, 85 + Abs(hash) % 10)
  }

  /**
   * generatePlaceholderColor: the loop keeps the hash a signed 32-bit integer, and the colour is a
   * function of the string alone, with hue in [0, 359], saturation in [20, 49], lightness in [85, 94].
   */
  method GeneratePlaceholderColor(imageUri: string) returns (color: Hsl)
    ensures color == ColorOf(ToInt32(PolynomialHash(Utf16(imageUri))))
    ensures 0 <= color.hue <= 359 && 20 <= color.saturation <= 49 && 85 <= color.lightness <= 94
  {
    var units := Utf16(imageUri);
    var hash := 0;
    for i := 0 to |units|
      invariant IsInt32(hash)
      invariant hash == StringHash(units[..i])
    {
      assert units[..i + 1][..i] == units[..i];
      var code := units[i];
      ghost var previous := hash;
      hash := ToInt32(hash * 32) - hash + code;
      hash := ToInt32(hash);
      assert hash == HashStep(previous, code);
    }
    assert hash == ToInt32(PolynomialHash(units)) by {
      assert units[..|units|] == units;
      StringHashIsWrappedPolynomial(units);
    }
    var hue := Abs(hash) % 360;
    var saturation := 20 + (Abs(hash) % 30);
    var lightness := 85 + (Abs(hash) % 10);
    color := Hsl(hue, saturation, lightness);
    assert color == ColorOf(hash);
  }
}
