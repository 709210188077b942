/**
 * Colour conversions that both server message APIs (viser/_message_api.py and
 * src/viser/_message_api.py) define identically: `_encode_rgb`, which packs a colour
 * into one integer, and `_colors_to_uint8`, which turns intensities into bytes.
 */
module Colors {
  import opened Wrappers
  import opened ServerMessages
  import opened HandleRules

  /** One channel of `_encode_rgb`: integers are kept, floats scaled by 255 and truncated. */
  function ChannelByte(n: Num): int
  {
    match n
    case IntN(i) => i
    case FloatN(r) => TruncToInt(r * 255.0)
  }

  /** `_encode_rgb`: three channels packed as r·65536 + g·256 + b; any other length fails the assertion. */
  function EncodeRgb(rgb: seq<Num>): (r: Result<int>)
    ensures r.Ok? <==> |rgb| == 3
  {
    if |rgb| != 3 then Err("rgb must have three channels")
    else Ok(ChannelByte(rgb[0]) * 65536 + ChannelByte(rgb[1]) * 256 + ChannelByte(rgb[2]))
  }

  /** With byte-sized channels the packed colour fits 24 bits and each channel reads back. */
  lemma EncodeRgbRecoverable(rgb: seq<Num>)
    requires |rgb| == 3 && forall i :: 0 <= i < 3 ==> 0 <= ChannelByte(rgb[i]) < 256
    ensures var c := EncodeRgb(rgb).value;
      && 0 <= c < 16777216
      && c / 65536 == ChannelByte(rgb[0])
      && (c / 256) % 256 == ChannelByte(rgb[1])
      && c % 256 == ChannelByte(rgb[2])
  {
    var r, g, b := ChannelByte(rgb[0]), ChannelByte(rgb[1]), ChannelByte(rgb[2]);
    assert 0 <= r < 256 && 0 <= g < 256 && 0 <= b < 256 by {
      assert 0 <= ChannelByte(rgb[0]) < 256 && 0 <= ChannelByte(rgb[1]) < 256 && 0 <= ChannelByte(rgb[2]) < 256;
    }
    var c := r * 65536 + g * 256 + b;
    assert c / 256 == r * 256 + g;
    assert c / 65536 == r;
  }

  /** A float channel in [0,1] scales to a byte. */
  lemma FloatChannelIsByte(x: real)
    requires 0.0 <= x <= 1.0
    ensures 0 <= ChannelByte(FloatN(x)) <= 255
  {
  }

  type Byte = x: int | 0 <= x < 256

  /** A numpy colour array by dtype: already `uint8`, another integer type, or floating point. */
  datatype ColorArray = Uint8Colors(bytes: seq<Byte>) | IntColors(ints: seq<int>) | FloatColors(reals: seq<real>)

  function Length(c: ColorArray): nat
  {
    match c
    case Uint8Colors(b) => |b|
    case IntColors(i) => |i|
    case FloatColors(r) => |r|
  }

  /** `onp.clip(x, 0, 255)`: bytes unchanged, anything else the nearer end of [0, 255]. */
  function ClipToByte(x: int): (b: Byte)
    ensures 0 <= x < 256 ==> b == x
    ensures x < 0 ==> b == 0
    ensures x >= 256 ==> b == 255
  {
    if x < 0 then 0 else if x > 255 then 255 else x
  }

  /** `onp.clip(x * 255.0, 0, 255).astype(onp.uint8)`: the clipped value is truncated. */
  function FloatToByte(x: real): (b: Byte)
    ensures 0.0 <= x <= 1.0 ==> b as real <= x * 255.0 < b as real + 1.0
    ensures x <= 0.0 ==> b == 0
    ensures x >= 1.0 ==> b == 255
  {
    var y := x * 255.0;
    if y < 0.0 then 0 else if y > 255.0 then 255 else y.Floor
  }

  /**
   * `_colors_to_uint8`: `uint8` input is returned as is; floats are scaled by 255,
   * clipped and truncated; other integers are clipped to [0,255].
   */
  function ColorsToUint8(c: ColorArray): (r: seq<Byte>)
    ensures |r| == Length(c)
  {
    match c
    case Uint8Colors(b) => b
    case IntColors(ints) => seq(|ints|, i requires 0 <= i < |ints| => ClipToByte(ints[i]))
    case FloatColors(reals) => seq(|reals|, i requires 0 <= i < |reals| => FloatToByte(reals[i]))
  }

  /** Bytes pass unchanged, and integers already in [0,255] come out as they went in. */
  lemma ColorsToUint8KeepsBytes(c: ColorArray)
    ensures c.Uint8Colors? ==> ColorsToUint8(c) == c.bytes
    ensures c.IntColors? && (forall i :: 0 <= i < |c.ints| ==> 0 <= c.ints[i] < 256) ==> ColorsToUint8(c) == c.ints
  {
    if c.IntColors? && (forall i :: 0 <= i < |c.ints| ==> 0 <= c.ints[i] < 256) {
      var r := ColorsToUint8(c);
      forall i | 0 <= i < |c.ints|
        ensures r[i] == c.ints[i]
      {
        assert r[i] == ClipToByte(c.ints[i]);
      }
    }
  }

  /** Integers are clipped: below 0 gives 0, above 255 gives 255. */
  lemma ColorsToUint8Clips(ints: seq<int>, i: nat)
    requires i < |ints|
    ensures ints[i] < 0 ==> ColorsToUint8(IntColors(ints))[i] == 0
    ensures ints[i] > 255 ==> ColorsToUint8(IntColors(ints))[i] == 255
  {
  }

  /** A float intensity in [0,1] becomes the byte just below (or at) 255·x. */
  lemma FloatColorIsScaledDown(reals: seq<real>, i: nat)
    requires i < |reals| && 0.0 <= reals[i] <= 1.0
    ensures var b := ColorsToUint8(FloatColors(reals))[i];
      b as real <= reals[i] * 255.0 < b as real + 1.0
  {
  }
}
