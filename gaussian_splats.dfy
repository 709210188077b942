/**
 * The Gaussian-splat mesh of the web client
 * (src/viser/client/src/Splatting/GaussianSplats.tsx): how many splats a buffer holds,
 * the data-texture layout and the texel each splat reads, the quad index buffer, and
 * the per-component state the effect and the frame callback keep — the one-shot
 * texture upload on the first sort result, the fade-in ramp and the gating of sort
 * requests on a changed camera transform.
 */
module GaussianSplats {
  import opened Wrappers

  // ---------------------------------------------------------------- texture layout

  /** Four floats (centre and a scale) per splat. */
  function NumGaussians(floatBufferLength: nat): (n: nat)
    ensures 4 * n <= floatBufferLength < 4 * n + 4
  {
    floatBufferLength / 4
  }

  function CeilDiv(a: nat, b: nat): (q: nat)
    requires b > 0
    ensures b * q >= a && b * q < a + b
  {
    (a + b - 1) / b
  }

  lemma CeilDivSelf(n: nat)
    requires n > 0
    ensures CeilDiv(n, n) == 1
  {
  }

  datatype TextureLayout = TextureLayout(width: nat, height: nat)

  /**
   * The texture is as wide as the splat count allows, up to the device limit, and just
   * tall enough for every splat. With no splats the height is 0/0, which is not a number.
   */
  function Layout(n: nat, maxTextureSize: nat): (r: Option<TextureLayout>)
    requires maxTextureSize > 0
    ensures r.None? <==> n == 0
    ensures r.Some? ==>
              && 1 <= r.value.width <= maxTextureSize
              && r.value.width <= n
              && (n <= maxTextureSize ==> r.value.width == n && r.value.height == 1)
              && r.value.width * r.value.height >= n
              && r.value.width * r.value.height < n + r.value.width
  {
    if n == 0 then None
    else
      var width := if n < maxTextureSize then n else maxTextureSize;
      var height := CeilDiv(n, width);
      assert width == n ==> height == 1 by {
        if width == n {
          CeilDivSelf(n);
        }
      }
      Some(TextureLayout(width, height))
  }

  /** The texel a splat's data is fetched from in the vertex shader. */
  function Texel(i: nat, width: nat): (xy: (nat, nat))
    requires width > 0
    ensures xy.1 * width + xy.0 == i && xy.0 < width
  {
    (i % width, i / width)
  }

  /** Every splat index reads a texel inside the texture, and distinct splats read distinct texels. */
  lemma TexelInsideTexture(n: nat, maxTextureSize: nat, i: nat, j: nat)
    requires maxTextureSize > 0 && i < n && j < n
    requires Layout(n, maxTextureSize).Some?
    ensures var l := Layout(n, maxTextureSize).value;
            && Texel(i, l.width).0 < l.width && Texel(i, l.width).1 < l.height
            && (i != j ==> Texel(i, l.width) != Texel(j, l.width))
  {
  }

  /** A typed-array `set` that copies buf to the front of a zeroed array of the given size; longer input throws. */
  function Padded<T>(buf: seq<T>, size: nat, zero: T): (r: Result<seq<T>>)
    ensures r.Ok? <==> |buf| <= size
    ensures r.Ok? ==> |r.value| == size && r.value[..|buf|] == buf
                      && forall k :: |buf| <= k < size ==> r.value[k] == zero
  {
    if |buf| > size then Err("RangeError: offset is out of bounds")
    else Ok(buf + seq(size - |buf|, _ => zero))
  }

  /** The float buffer (and an int buffer of the same length) fits the padded texture arrays. */
  lemma BuffersFitTexture(floatBuffer: seq<real>, intBuffer: seq<int>, maxTextureSize: nat)
    requires maxTextureSize > 0 && |intBuffer| <= 4 * NumGaussians(|floatBuffer|)
    requires Layout(NumGaussians(|floatBuffer|), maxTextureSize).Some?
    ensures var l := Layout(NumGaussians(|floatBuffer|), maxTextureSize).value;
            && Padded(intBuffer, l.width * l.height * 4, 0).Ok?
            && (|floatBuffer| % 4 == 0 ==> Padded(floatBuffer, l.width * l.height * 4, 0.0).Ok?)
  {
  }

  // ---------------------------------------------------------------- quad geometry

  /** Corners of the quad every splat is drawn on, as (x, y) pairs. */
  const QuadPositions: seq<real> := [-2.0, -2.0, 2.0, -2.0, 2.0, 2.0, -2.0, 2.0]

  /** Two triangles over the quad. */
  const QuadIndex: seq<nat> := [0, 2, 1, 0, 3, 2]

  /** The index buffer names only the four corners, and uses each of them. */
  lemma QuadIndexCoversCorners()
    ensures forall k :: 0 <= k < |QuadIndex| ==> QuadIndex[k] < |QuadPositions| / 2
    ensures forall c :: 0 <= c < |QuadPositions| / 2 ==> c in QuadIndex
  {
    assert QuadIndex[0] == 0 && QuadIndex[2] == 1 && QuadIndex[1] == 2 && QuadIndex[4] == 3;
  }

  // ---------------------------------------------------------------- component state

  /** A 4×4 transform, column-major, as the sixteen entries three.js keeps. */
  type Matrix = seq<real>

  const Identity: Matrix :=
    [1.0, 0.0, 0.0, 0.0, 0.0, 1.0, 0.0, 0.0, 0.0, 0.0, 1.0, 0.0, 0.0, 0.0, 0.0, 1.0]

  /** What is posted to the sorting worker. */
  datatype WorkerMessage = SetFloatBuffer(buffer: seq<real>) | SetCameraObj(elements: Matrix)

  datatype SplatState = SplatState(
    initializedTextures: bool,
    numGaussians: nat,          // from the current buffers
    uniformNumGaussians: nat,   // the shader uniform
    texturesNeedUpdate: bool,
    sortedIndex: seq<int>,
    transitionInState: real,
    prevCameraObj: Matrix,
    sortSynchronized: Matrix,
    posted: seq<WorkerMessage>) // to the current worker

  /**
   * The effect run when the buffers change, as written: a new material with zero splats
   * and a fresh worker, the previous camera transform reset to the identity, and the
   * initialized flag left as it was.
   */
  function LoadBuffersAsWritten(s: SplatState, floatBuffer: seq<real>): (t: SplatState)
    ensures t.initializedTextures == s.initializedTextures
    ensures t.uniformNumGaussians == 0 && !t.texturesNeedUpdate && t.transitionInState == 0.0
    ensures t.prevCameraObj == Identity && t.posted == [SetFloatBuffer(floatBuffer)]
  {
    s.(numGaussians := NumGaussians(|floatBuffer|), uniformNumGaussians := 0, texturesNeedUpdate := false,
       sortedIndex := seq(NumGaussians(|floatBuffer|), _ => 0), transitionInState := 0.0,
       prevCameraObj := Identity, posted := [SetFloatBuffer(floatBuffer)])
  }

  /** The same effect with the initialized flag cleared, so the new textures are uploaded once. */
  function LoadBuffers(s: SplatState, floatBuffer: seq<real>): (t: SplatState)
    ensures !t.initializedTextures
    ensures t.uniformNumGaussians == 0 && !t.texturesNeedUpdate && t.transitionInState == 0.0
    ensures t.prevCameraObj == Identity && t.posted == [SetFloatBuffer(floatBuffer)]
  {
    LoadBuffersAsWritten(s, floatBuffer).(initializedTextures := false)
  }

  /** The worker's reply: new indices, and the one-shot upload of textures and splat count. */
  function OnSortResult(s: SplatState, sortedIndices: seq<int>): (t: SplatState)
    ensures t.sortedIndex == sortedIndices && t.initializedTextures
    ensures !s.initializedTextures ==> t.uniformNumGaussians == s.numGaussians && t.texturesNeedUpdate
    ensures s.initializedTextures ==> t == s.(sortedIndex := sortedIndices)
  {
    var s1 := s.(sortedIndex := sortedIndices);
    if !s.initializedTextures then
      s1.(uniformNumGaussians := s.numGaussians, texturesNeedUpdate := true, initializedTextures := true)
    else s1
  }

  /** `Math.min(t + 0.01, 1.0)`: one fade-in step. */
  function Ramp(t: real): (r: real)
    ensures r <= 1.0 && (t <= 1.0 ==> t <= r)
    ensures t + 0.01 <= 1.0 ==> r == t + 0.01
  {
    if t + 0.01 < 1.0 then t + 0.01 else 1.0
  }

  /**
   * The frame callback: nothing until the mesh and worker exist (`ready`); then the
   * fade-in steps up, and a changed camera transform is posted for sorting and remembered.
   */
  function OnFrame(s: SplatState, ready: bool, cameraObj: Matrix): (t: SplatState)
    ensures !ready ==> t == s
    ensures ready ==> t.transitionInState == Ramp(s.transitionInState)
    ensures ready && cameraObj != s.prevCameraObj ==>
              t.posted == s.posted + [SetCameraObj(cameraObj)] && t.sortSynchronized == cameraObj
    ensures ready && cameraObj == s.prevCameraObj ==> t.posted == s.posted && t.sortSynchronized == s.sortSynchronized
    ensures ready ==> t.prevCameraObj == cameraObj
  {
    if !ready then s
    else
      var s1 := s.(transitionInState := Ramp(s.transitionInState));
      if cameraObj != s.prevCameraObj then
        s1.(sortSynchronized := cameraObj, posted := s.posted + [SetCameraObj(cameraObj)], prevCameraObj := cameraObj)
      else s1
  }

  /** The fade-in never goes down and never passes 1 once it is in [0, 1]. */
  lemma TransitionStaysInUnitRange(s: SplatState, ready: bool, cameraObj: Matrix)
    requires 0.0 <= s.transitionInState <= 1.0
    ensures var t := OnFrame(s, ready, cameraObj).transitionInState;
            s.transitionInState <= t <= 1.0
  {
  }

  function Frames(s: SplatState, cameras: seq<Matrix>): SplatState
  {
    if |cameras| == 0 then s else OnFrame(Frames(s, cameras[..|cameras| - 1]), true, cameras[|cameras| - 1])
  }

  /** After k ready frames from a fresh load, the fade-in stands at min(k/100, 1). */
  lemma {:induction false} TransitionAfterFrames(s: SplatState, cameras: seq<Matrix>)
    requires s.transitionInState == 0.0
    ensures var t := Frames(s, cameras).transitionInState;
            t == if |cameras| < 100 then (|cameras| as real) / 100.0 else 1.0
  {
    if |cameras| > 0 {
      TransitionAfterFrames(s, cameras[..|cameras| - 1]);
    }
  }

  /** A camera transform seen twice in a row is posted for sorting once. */
  lemma SameCameraPostsOnce(s: SplatState, cameraObj: Matrix)
    ensures var t := OnFrame(s, true, cameraObj);
            OnFrame(t, true, cameraObj).posted == t.posted
            && |t.posted| <= |s.posted| + 1
  {
  }

  /** Whenever a camera transform has been posted, the last one posted is the remembered one. */
  lemma {:induction false} LastPostedIsRemembered(s: SplatState, cameras: seq<Matrix>)
    requires |s.posted| > 0 && s.posted[|s.posted| - 1].SetCameraObj? ==> s.posted[|s.posted| - 1].elements == s.prevCameraObj
    ensures var t := Frames(s, cameras);
            |t.posted| > 0 && t.posted[|t.posted| - 1].SetCameraObj? ==> t.posted[|t.posted| - 1].elements == t.prevCameraObj
  {
    if |cameras| > 0 {
      LastPostedIsRemembered(s, cameras[..|cameras| - 1]);
    }
  }

  /** With the flag cleared on load, the first sort result of new buffers shows all of them. */
  lemma FirstSortAfterLoadUploads(s: SplatState, floatBuffer: seq<real>, sortedIndices: seq<int>)
    ensures var t := OnSortResult(LoadBuffers(s, floatBuffer), sortedIndices);
            t.uniformNumGaussians == NumGaussians(|floatBuffer|) && t.texturesNeedUpdate
  {
  }

  /**
   * As written, once a sort result has arrived, replacing the buffers leaves the new
   * material at zero splats and its textures never flagged for upload, whatever the
   * worker replies afterwards.
   */
  lemma {:induction false} ReplacedBuffersStayHidden(s: SplatState, sortedIndices: seq<int>, floatBuffer: seq<real>, replies: seq<seq<int>>)
    requires |floatBuffer| >= 4
    ensures var t := Replies(LoadBuffersAsWritten(OnSortResult(s, sortedIndices), floatBuffer), replies);
            t.uniformNumGaussians == 0 && NumGaussians(|floatBuffer|) > 0 && !t.texturesNeedUpdate
  {
    if |replies| > 0 {
      ReplacedBuffersStayHidden(s, sortedIndices, floatBuffer, replies[..|replies| - 1]);
    }
  }

  function Replies(s: SplatState, replies: seq<seq<int>>): (t: SplatState)
    ensures s.initializedTextures ==> t.initializedTextures == s.initializedTextures
  {
    if |replies| == 0 then s else OnSortResult(Replies(s, replies[..|replies| - 1]), replies[|replies| - 1])
  }

  /** The component, holding the state the effect and the callbacks update. */
  class SplatMesh {
    var state: SplatState

    constructor ()
      ensures state == SplatState(false, 0, 0, false, [], 0.0, Identity, Identity, [])
    {
      state := SplatState(false, 0, 0, false, [], 0.0, Identity, Identity, []);
    }

    method SetBuffers(floatBuffer: seq<real>)
      modifies this
      ensures state == LoadBuffers(old(state), floatBuffer)
    {
      state := LoadBuffers(state, floatBuffer);
    }

    method HandleSortResult(sortedIndices: seq<int>)
      modifies this
      ensures state == OnSortResult(old(state), sortedIndices)
    {
      var s := state.(sortedIndex := sortedIndices);
      if !state.initializedTextures {
        s := s.(uniformNumGaussians := state.numGaussians, texturesNeedUpdate := true, initializedTextures := true);
      }
      state := s;
    }

    method Frame(ready: bool, cameraObj: Matrix)
      modifies this
      ensures state == OnFrame(old(state), ready, cameraObj)
    {
      if !ready {
        return;
      }
      state := state.(transitionInState := Ramp(state.transitionInState));
      if cameraObj != state.prevCameraObj {
        state := state.(sortSynchronized := cameraObj, posted := state.posted + [SetCameraObj(cameraObj)],
                        prevCameraObj := cameraObj);
      }
    }
  }
}
