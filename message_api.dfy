/**
 * The container-based server message API (src/viser/_message_api.py): hex colours for
 * the theme palette, the `configure_theme` brand-colour rules, spline argument checks,
 * fixed-point depth for background images, and 3D GUI containers. Float colour-space
 * conversions (`colorsys`) and interpolation are inputs: the model takes the RGB
 * triples they produce.
 */
module MessageApi {
  import opened Wrappers
  import opened ServerMessages
  import opened Colors

  // ---------------------------------------------------------------- hex colours

  const HexDigits: string := "0123456789abcdef"

  /** `bytes.hex()` of one byte: two lower-case hex digits. */
  function Hex2(b: Byte): (s: string)
    ensures |s| == 2
  {
    [HexDigits[b / 16], HexDigits[b % 16]]
  }

  /** The value of a lower-case hex digit. */
  function HexValue(c: char): (v: Option<nat>)
    ensures v.Some? ==> v.value < 16
  {
    if '0' <= c <= '9' then Some(c as nat - '0' as nat)
    else if 'a' <= c <= 'f' then Some(c as nat - 'a' as nat + 10)
    else None
  }

  lemma HexDigitValue(n: nat)
    requires n < 16
    ensures HexValue(HexDigits[n]) == Some(n)
  {
    if n < 10 {
      assert HexDigits[n] == ('0' as int + n) as char;
    } else {
      assert HexDigits[n] == ('a' as int + n - 10) as char;
    }
  }

  /** Two hex digits, high digit first, read as a byte; anything else is not one. */
  function ParseHex2(s: string): (r: Option<nat>)
    requires |s| == 2
    ensures r.Some? <==> HexValue(s[0]).Some? && HexValue(s[1]).Some?
    ensures r.Some? ==> r.value < 256 && r.value % 16 == HexValue(s[1]).value
  {
    match (HexValue(s[0]), HexValue(s[1]))
    case (Some(hi), Some(lo)) => Some(hi * 16 + lo)
    case _ => None
  }

  /** Two hex digits read back as the byte they encode. */
  lemma Hex2RoundTrip(b: Byte)
    ensures ParseHex2(Hex2(b)) == Some(b)
  {
    HexDigitValue(b / 16);
    HexDigitValue(b % 16);
  }

  /** `int(min(255, max(0, channel * 255.0)) + 0.5)`: the channel scaled, clamped and rounded half up. */
  function ByteFromUnit(c: real): (b: Byte)
    ensures 0.0 <= c <= 1.0 ==> c * 255.0 - 0.5 < b as real <= c * 255.0 + 0.5
  {
    var scaled := if c * 255.0 > 255.0 then 255.0 else if c * 255.0 < 0.0 then 0.0 else c * 255.0;
    (scaled + 0.5).Floor
  }

  /** An RGB triple with channels nominally in [0,1]. */
  datatype Rgb = Rgb(r: real, g: real, b: real)

  /** `_hex_from_hls`, given the RGB triple `colorsys.hls_to_rgb(h, l, s)` yields: "#" and three two-digit channels. */
  function HexFromHls(rgb: Rgb): (s: string)
    ensures |s| == 7 && s[0] == '#'
  {
    "#" + Hex2(ByteFromUnit(rgb.r)) + Hex2(ByteFromUnit(rgb.g)) + Hex2(ByteFromUnit(rgb.b))
  }

  /** Reading the hex string back gives each channel's clamped, rounded byte. */
  lemma HexFromHlsRoundTrip(rgb: Rgb)
    ensures var s := HexFromHls(rgb);
      && ParseHex2(s[1..3]) == Some(ByteFromUnit(rgb.r))
      && ParseHex2(s[3..5]) == Some(ByteFromUnit(rgb.g))
      && ParseHex2(s[5..7]) == Some(ByteFromUnit(rgb.b))
  {
    var s := HexFromHls(rgb);
    var head := "#" + Hex2(ByteFromUnit(rgb.r)) + Hex2(ByteFromUnit(rgb.g));
    assert s == head + Hex2(ByteFromUnit(rgb.b)) && |head| == 5;
    assert s[1..3] == Hex2(ByteFromUnit(rgb.r));
    assert s[3..5] == Hex2(ByteFromUnit(rgb.g));
    assert s[5..7] == Hex2(ByteFromUnit(rgb.b));
    Hex2RoundTrip(ByteFromUnit(rgb.r));
    Hex2RoundTrip(ByteFromUnit(rgb.g));
    Hex2RoundTrip(ByteFromUnit(rgb.b));
  }

  // ---------------------------------------------------------------- theme

  /** One entry of `brand_color`, which the code lets be ints, floats or strings. */
  datatype BrandChannel = IntC(i: int) | FloatC(r: real) | StrC(s: string)

  predicate IsHexColor(c: BrandChannel)
  {
    c.StrC? && |c.s| > 0 && c.s[0] == '#'
  }

  /**
   * The `colors` that `configure_theme` sends, as written: none without a brand colour;
   * a length other than 3 or 10, or a non-int channel of a 3-tuple, fails an assertion;
   * a 3-tuple gives the 10-colour palette whose RGB triples are `palette`; a
   * 10-tuple passes the assertion and is then dropped.
   */
  function ThemeColorsAsWritten(brand: Option<seq<BrandChannel>>, palette: seq<Rgb>): (r: Result<Option<seq<string>>>)
    requires |palette| == 10
    ensures r.Ok? <==> brand.None? || |brand.value| == 10 || (|brand.value| == 3 && forall i :: 0 <= i < 3 ==> brand.value[i].IntC?)
    ensures r.Ok? && r.value.Some? ==> brand.Some? && |brand.value| == 3
  {
    match brand
    case None => Ok(None)
    case Some(b) =>
      if |b| != 3 && |b| != 10 then Err("brand_color must have 3 or 10 entries")
      else if |b| == 10 then Ok(None)
      else if !(forall i :: 0 <= i < 3 ==> b[i].IntC?) then Err("All channels should be integers.")
      else Ok(Some(seq(10, i requires 0 <= i < 10 => HexFromHls(palette[i]))))
  }

  /**
   * `configure_theme` with a 10-entry brand colour passed on as the palette, which its
   * final assertion anticipates. Every palette sent has 10 colours, each starting with
   * "#", so that assertion never fails on a generated palette; a 10-entry brand colour is
   * accepted exactly when all ten are hex strings; every other input behaves as written.
   */
  function ThemeColors(brand: Option<seq<BrandChannel>>, palette: seq<Rgb>): (r: Result<Option<seq<string>>>)
    requires |palette| == 10
    ensures r.Ok? && r.value.Some? ==>
              |r.value.value| == 10 && forall i :: 0 <= i < 10 ==> |r.value.value[i]| > 0 && r.value.value[i][0] == '#'
    ensures brand.Some? && |brand.value| == 10 ==> (r.Ok? <==> forall i :: 0 <= i < 10 ==> IsHexColor(brand.value[i]))
    ensures brand.None? || |brand.value| != 10 ==> r == ThemeColorsAsWritten(brand, palette)
  {
    match brand
    case Some(b) =>
      if |b| == 10 then
        if forall i :: 0 <= i < 10 ==> IsHexColor(b[i]) then Ok(Some(seq(10, i requires 0 <= i < 10 => b[i].s)))
        else Err("All string colors should be in hexadecimal + prefixed with #, eg #ffffff.")
      else ThemeColorsAsWritten(brand, palette)
    case None => Ok(None)
  }

  /** A 10-colour brand palette is accepted and then silently not sent. */
  lemma TenColorBrandIsDropped(palette: seq<Rgb>)
    requires |palette| == 10
    ensures var brand := Some(seq(10, i => StrC("#ffffff")));
      && ThemeColorsAsWritten(brand, palette) == Ok(None)
      && ThemeColors(brand, palette) == Ok(Some(seq(10, i => "#ffffff")))
  {
    var brand := Some(seq(10, i => StrC("#ffffff")));
    assert forall i :: 0 <= i < 10 ==> IsHexColor(brand.value[i]);
    var cs := seq(10, i requires 0 <= i < 10 => brand.value[i].s);
    assert forall i :: 0 <= i < 10 ==> cs[i] == "#ffffff";
    assert cs == seq(10, i => "#ffffff");
  }

  // ---------------------------------------------------------------- splines

  /** A position list as handed in: a tuple of tuples, or a numpy array whose rows are `rows`. */
  datatype Points = TuplePoints(points: seq<seq<real>>) | ArrayPoints(rows: seq<seq<real>>)

  function AsTuples(p: Points): seq<seq<real>>
  {
    match p
    case TuplePoints(ps) => ps
    case ArrayPoints(rows) => rows
  }

  /** The array check of both spline methods: two dimensions, three columns. */
  predicate ArrayShapeOk(p: Points)
  {
    p.ArrayPoints? ==> forall i :: 0 <= i < |p.rows| ==> |p.rows[i]| == 3
  }

  /**
   * `add_spline_catmull_rom`'s checks: an array must be N×3; then the first position
   * must have three components (an empty list is the IndexError of `positions[0]`).
   */
  function CatmullRomPositions(p: Points): (r: Result<seq<seq<real>>>)
    ensures r.Ok? <==> ArrayShapeOk(p) && |AsTuples(p)| > 0 && |AsTuples(p)[0]| == 3
    ensures r.Ok? ==> r.value == AsTuples(p)
  {
    if !ArrayShapeOk(p) then Err("positions should have shape (N, 3)")
    else if |AsTuples(p)| == 0 then Err("positions[0] out of range")
    else if |AsTuples(p)[0]| != 3 then Err("positions should be 3D")
    else Ok(AsTuples(p))
  }

  /** `add_spline_cubic_bezier`'s checks: arrays must be N×3, and there are 2·N − 2 control points. */
  function CubicBezierPoints(positions: Points, controls: Points): (r: Result<(seq<seq<real>>, seq<seq<real>>)>)
    ensures r.Ok? <==> ArrayShapeOk(positions) && ArrayShapeOk(controls)
                       && |AsTuples(controls)| == 2 * |AsTuples(positions)| - 2
    ensures r.Ok? ==> |AsTuples(positions)| >= 1 && r.value == (AsTuples(positions), AsTuples(controls))
  {
    if !ArrayShapeOk(positions) || !ArrayShapeOk(controls) then Err("points should have shape (N, 3)")
    else if |AsTuples(controls)| != 2 * |AsTuples(positions)| - 2 then Err("need 2N - 2 control points")
    else Ok((AsTuples(positions), AsTuples(controls)))
  }

  // ---------------------------------------------------------------- depth

  const MaxFixedDepth: int := 16777215

  /** `onp.clip(depth * 100_000, 0, 2**24 - 1).astype(onp.uint32)` for one pixel. */
  function FixedDepth(d: real): (n: int)
    ensures 0 <= n <= MaxFixedDepth
    ensures 0.0 <= d * 100000.0 <= MaxFixedDepth as real ==> n == (d * 100000.0).Floor
  {
    var scaled := d * 100000.0;
    if scaled < 0.0 then 0 else if scaled > MaxFixedDepth as real then MaxFixedDepth else scaled.Floor
  }

  /** The first three bytes of the little-endian `uint32`, which become the PNG's RGB channels. */
  function DepthBytes(n: int): (b: seq<Byte>)
    requires 0 <= n <= MaxFixedDepth
    ensures |b| == 3
  {
    [n % 256, (n / 256) % 256, n / 65536]
  }

  /** Dropping the fourth byte loses nothing: the three channels give the fixed-point depth back. */
  lemma DepthBytesRoundTrip(d: real)
    ensures var b := DepthBytes(FixedDepth(d));
      b[0] as int + 256 * (b[1] as int) + 65536 * (b[2] as int) == FixedDepth(d)
  {
  }

  /** Depth images must be (H, W) or (H, W, 1). */
  predicate DepthShapeOk(shape: seq<nat>)
  {
    |shape| == 2 || (|shape| == 3 && shape[2] == 1)
  }

  // ---------------------------------------------------------------- the API object

  /** The queue and the scene-node names the API keeps a handle for. */
  class MessageApi {
    const out: Outbox
    var handleFromNodeName: set<string>

    constructor (out: Outbox)
      ensures this.out == out && handleFromNodeName == {}
    {
      this.out := out;
      handleFromNodeName := {};
    }

    /** `configure_theme`: the assertions first, then one theme message. */
    method ConfigureTheme(darkMode: bool, brand: Option<seq<BrandChannel>>, palette: seq<Rgb>) returns (ok: bool)
      requires |palette| == 10
      modifies out
      ensures ok <==> ThemeColors(brand, palette).Ok?
      ensures !ok ==> out.queued == old(out.queued)
      ensures ok ==> out.queued == old(out.queued) + [ThemeConfiguration(darkMode, ThemeColors(brand, palette).value)]
      ensures out.calls == old(out.calls)
    {
      var colors := ThemeColors(brand, palette);
      if colors.Err? {
        return false;
      }
      out.Queue(ThemeConfiguration(darkMode, colors.value));
      return true;
    }

    /** `add_spline_catmull_rom`: the checks, then the colour encoding, then one message. */
    method AddSplineCatmullRom(name: string, positions: Points, color: seq<Num>) returns (ok: bool)
      modifies out
      ensures ok <==> CatmullRomPositions(positions).Ok? && EncodeRgb(color).Ok?
      ensures !ok ==> out.queued == old(out.queued)
      ensures ok ==> out.queued == old(out.queued)
                       + [CatmullRomSpline(name, AsTuples(positions), EncodeRgb(color).value)]
    {
      var ps := CatmullRomPositions(positions);
      if ps.Err? {
        return false;
      }
      var c := EncodeRgb(color);
      if c.Err? {
        return false;
      }
      out.Queue(CatmullRomSpline(name, ps.value, c.value));
      return true;
    }

    /** `add_spline_cubic_bezier`: the checks, then the colour encoding, then one message. */
    method AddSplineCubicBezier(name: string, positions: Points, controls: Points, color: seq<Num>) returns (ok: bool)
      modifies out
      ensures ok <==> CubicBezierPoints(positions, controls).Ok? && EncodeRgb(color).Ok?
      ensures !ok ==> out.queued == old(out.queued)
      ensures ok ==> out.queued == old(out.queued)
                       + [CubicBezierSpline(name, AsTuples(positions), AsTuples(controls), EncodeRgb(color).value)]
    {
      var pts := CubicBezierPoints(positions, controls);
      if pts.Err? {
        return false;
      }
      var c := EncodeRgb(color);
      if c.Err? {
        return false;
      }
      out.Queue(CubicBezierSpline(name, pts.value.0, pts.value.1, c.value));
      return true;
    }

    /**
     * `add_3d_gui_container`: an existing node of that name is removed first, then the
     * container is announced under a fresh container id.
     */
    method Add3dGuiContainer(name: string, containerId: string, now: real)
      modifies out
      ensures out.calls == old(out.calls) + (if name in handleFromNodeName then [RemoveNode(name)] else [])
      ensures out.queued == old(out.queued) + [Gui3D(now, name, containerId)]
    {
      if name in handleFromNodeName {
        out.Record(RemoveNode(name));
      }
      out.Queue(Gui3D(now, name, containerId));
    }
  }
}
