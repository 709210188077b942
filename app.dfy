/**
 * Two pieces of the viewer root (src/viser/client/src/App.tsx): the websocket server
 * address derived from the page URL, and the pointer state machine that turns
 * pointer-down / move / up events on the canvas into "click" and "scribble" messages.
 */
module App {
  import opened Wrappers
  import opened Text

  // ---------------------------------------------------------------------------
  // Server address.

  /** `server.replace("http://", "ws://")` then `.replace("https://", "wss://")`: first occurrences only. */
  function ReplaceSchemes(href: string): (r: string)
    ensures (forall i :: 0 <= i ==> !OccursAt(href, "http://", i) && !OccursAt(href, "https://", i)) ==> r == href
  {
    ReplaceFirstSpec(href, "http://", "ws://");
    ReplaceFirstSpec(ReplaceFirst(href, "http://", "ws://"), "https://", "wss://");
    ReplaceFirst(ReplaceFirst(href, "http://", "ws://"), "https://", "wss://")
  }

  /** `if (server.endsWith("/")) server = server.slice(0, -1)`: at most one "/" goes. */
  function DropTrailingSlash(s: string): (r: string)
    ensures EndsWith(s, "/") ==> s == r + "/"
    ensures !EndsWith(s, "/") ==> r == s
  {
    if EndsWith(s, "/") then s[..|s| - 1] else s
  }

  /** `getDefaultServerFromUrl`: rewrite the scheme, cut the query, drop one trailing "/". */
  function DefaultServerFromUrl(href: string): (server: string)
    ensures '?' !in server
  {
    DropTrailingSlash(BeforeFirst(ReplaceSchemes(href), '?'))
  }

  /** The first `server` search parameter wins over the address derived from the URL. */
  function InitialServer(serverParams: seq<string>, href: string): (server: string)
    ensures |serverParams| >= 1 ==> server == serverParams[0]
    ensures |serverParams| == 0 ==> server == DefaultServerFromUrl(href) && '?' !in server
  {
    if |serverParams| >= 1 then serverParams[0] else DefaultServerFromUrl(href)
  }

  /** One mismatching character rules out an occurrence. */
  lemma NotOccursAt(s: string, pat: string, i: nat, k: nat)
    requires k < |pat|
    requires i + k < |s| ==> s[i + k] != pat[k]
    ensures !OccursAt(s, pat, i)
  {
  }

  /**
   * A pattern ending in "//" with no other "/" cannot start at or before a lone "/"
   * that is followed by "?" or by the end of the string.
   */
  lemma NoSchemeAcrossSlash(s: string, pat: string, lo: nat, slash: nat)
    requires lo <= slash < |s| && s[slash] == '/'
    requires forall j :: lo <= j < slash ==> s[j] != '/'
    requires slash + 1 < |s| ==> s[slash + 1] == '?'
    requires |pat| >= 2 && pat[|pat| - 1] == '/' && pat[|pat| - 2] == '/'
    requires forall k :: 0 <= k < |pat| - 2 ==> pat[k] != '/'
    ensures forall i :: lo <= i <= slash ==> !OccursAt(s, pat, i)
  {
    forall i | lo <= i <= slash ensures !OccursAt(s, pat, i) {
      var f := i + |pat| - 2;
      if f < slash {
        NotOccursAt(s, pat, i, |pat| - 2);
      } else if f == slash {
        NotOccursAt(s, pat, i, |pat| - 1);
      } else {
        NotOccursAt(s, pat, i, slash - i);
      }
    }
  }

  /** What survives the query cut: `prefix` when the tail is empty or starts with "?". */
  lemma CutQuery(prefix: string, tail: string)
    requires '?' !in prefix
    requires tail == [] || tail[0] == '?'
    ensures BeforeFirst(prefix + tail, '?') == prefix
  {
    if tail == [] {
      assert prefix + tail == prefix;
      BeforeFirstAbsent(prefix, '?');
    } else {
      assert prefix + tail == prefix + ['?'] + tail[1..];
      BeforeFirstOfJoin(prefix, '?', tail[1..]);
    }
  }

  /** The replacement of "http://" never touches a leading "?" of the tail. */
  lemma ReplaceKeepsLeadingQuery(tail: string, pat: string, rep: string)
    requires |pat| > 0 && pat[0] != '?'
    requires tail == [] || tail[0] == '?'
    ensures var r := ReplaceFirst(tail, pat, rep); r == [] || r[0] == '?'
  {
    if tail != [] {
      assert tail == [tail[0]] + tail[1..];
      assert !OccursAt([tail[0]] + tail[1..], pat, 0);
      ReplaceFirstSkipsPrefix([tail[0]], tail[1..], pat, rep);
    }
  }

  /** No "http://" starts inside the scheme or host of an https page address. */
  lemma NoHttpInHttpsPage(host: string, tail: string)
    requires '/' !in host && '?' !in host
    requires tail == [] || tail[0] == '?'
    ensures forall i :: 0 <= i < |"https://" + host + "/"| ==> !OccursAt("https://" + host + "/" + tail, "http://", i)
  {
    var href := "https://" + host + "/" + tail;
    assert href[..8] == "https://";
    forall i | 0 <= i < 8 ensures !OccursAt(href, "http://", i) {
      if i == 0 {
        NotOccursAt(href, "http://", 0, 4);
      } else {
        NotOccursAt(href, "http://", i, 0);
      }
    }
    NoSchemeAcrossSlash(href, "http://", 8, 8 + |host|);
  }

  /** No "https://" starts inside the scheme or host of a rewritten http page address. */
  lemma NoHttpsInWsPage(host: string, tail: string)
    requires '/' !in host && '?' !in host
    requires tail == [] || tail[0] == '?'
    ensures forall i :: 0 <= i < |"ws://" + host + "/"| ==> !OccursAt("ws://" + host + "/" + tail, "https://", i)
  {
    var s1 := "ws://" + host + "/" + tail;
    assert s1[..5] == "ws://";
    forall i | 0 <= i < 5 ensures !OccursAt(s1, "https://", i) {
      NotOccursAt(s1, "https://", i, 0);
    }
    NoSchemeAcrossSlash(s1, "https://", 5, 5 + |host|);
  }

  /** On an https page address the "http://" replacement can only touch the query. */
  lemma HttpStepOfHttpsPage(host: string, tail: string) returns (tail1: string)
    requires '/' !in host && '?' !in host
    requires tail == [] || tail[0] == '?'
    ensures ReplaceFirst("https://" + host + "/" + tail, "http://", "ws://") == ("https://" + host + "/") + tail1
    ensures tail1 == [] || tail1[0] == '?'
  {
    var a := "https://" + host + "/";
    assert a + tail == "https://" + host + "/" + tail;
    NoHttpInHttpsPage(host, tail);
    ReplaceFirstSkipsPrefix(a, tail, "http://", "ws://");
    tail1 := ReplaceFirst(tail, "http://", "ws://");
    ReplaceKeepsLeadingQuery(tail, "http://", "ws://");
  }

  /** The "https://" replacement rewrites a leading "https://". */
  lemma HttpsStep(rest: string)
    ensures ReplaceFirst("https://" + rest, "https://", "wss://") == "wss://" + rest
  {
    assert StartsWith("https://" + rest, "https://");
    assert ("https://" + rest)[8..] == rest;
  }

  /** Rewriting the schemes of an https page address only changes its scheme and, maybe, its query. */
  lemma SchemesOfHttpsPage(host: string, tail: string) returns (tail1: string)
    requires '/' !in host && '?' !in host
    requires tail == [] || tail[0] == '?'
    ensures ReplaceSchemes("https://" + host + "/" + tail) == ("wss://" + host + "/") + tail1
    ensures tail1 == [] || tail1[0] == '?'
  {
    tail1 := HttpStepOfHttpsPage(host, tail);
    var rest := host + "/" + tail1;
    var y := ReplaceFirst("https://" + host + "/" + tail, "http://", "ws://");
    assert y == "https://" + rest;
    HttpsStep(rest);
    assert ReplaceFirst(y, "https://", "wss://") == "wss://" + rest;
    assert "wss://" + rest == ("wss://" + host + "/") + tail1;
  }

  /**
   * A page served over https at `host` (its path "/" and an optional query) connects to
   * "wss://" + host. (The source's comment says "ws://"; the code produces "wss://".)
   */
  lemma DefaultServerOfHttpsPage(host: string, tail: string)
    requires '/' !in host && '?' !in host
    requires tail == [] || tail[0] == '?'
    ensures DefaultServerFromUrl("https://" + host + "/" + tail) == "wss://" + host
  {
    var tail1 := SchemesOfHttpsPage(host, tail);
    CutQuery("wss://" + host + "/", tail1);
    assert DropTrailingSlash("wss://" + host + "/") == "wss://" + host;
  }

  /** A page served over http at `host` connects to "ws://" + host. */
  lemma DefaultServerOfHttpPage(host: string, tail: string)
    requires '/' !in host && '?' !in host
    requires tail == [] || tail[0] == '?'
    ensures DefaultServerFromUrl("http://" + host + "/" + tail) == "ws://" + host
  {
    var href := "http://" + host + "/" + tail;
    assert StartsWith(href, "http://");
    var b1 := "ws://" + host + "/";
    assert href[7..] == host + "/" + tail;
    assert ReplaceFirst(href, "http://", "ws://") == b1 + tail;
    assert b1 + tail == "ws://" + host + "/" + tail;
    NoHttpsInWsPage(host, tail);
    ReplaceFirstSkipsPrefix(b1, tail, "https://", "wss://");
    var tail2 := ReplaceFirst(tail, "https://", "wss://");
    ReplaceKeepsLeadingQuery(tail, "https://", "wss://");
    CutQuery(b1, tail2);
    assert DropTrailingSlash(b1) == "ws://" + host;
  }

  // ---------------------------------------------------------------------------
  // Pointer gestures on the canvas.

  datatype Vec3 = Vec3(x: real, y: real, z: real)

  /** A ray already converted to the server's coordinates. */
  datatype Ray = Ray(origin: Vec3, direction: Vec3)

  /** `[e.nativeEvent.offsetX, e.nativeEvent.offsetY]`. */
  datatype ScreenPos = ScreenPos(x: real, y: real)

  /** `ScenePointerMessage`, as handed to the throttled sender. */
  datatype PointerMessage = ScenePointerMessage(eventType: string, rayOrigin: seq<Vec3>, rayDirection: seq<Vec3>)

  function Abs(x: real): real { if x < 0.0 then -x else x }

  /** The 3-pixel denoise test: a move within 3 px on both axes of the last sample is ignored. */
  predicate FarEnough(last: ScreenPos, p: ScreenPos)
  {
    !(Abs(p.x - last.x) <= 3.0 && Abs(p.y - last.y) <= 3.0)
  }

  /** The messages a pointer-up sends for the recorded samples: a click first when there is exactly one. */
  function PointerUpMessages(origins: seq<Vec3>, directions: seq<Vec3>): (ms: seq<PointerMessage>)
    ensures |ms| == (if |origins| == 1 then 2 else 1)
    ensures ms[|ms| - 1] == ScenePointerMessage("scribble", origins, directions)
    ensures |origins| == 1 ==> ms[0] == ScenePointerMessage("click", origins, directions)
  {
    (if |origins| == 1 then [ScenePointerMessage("click", origins, directions)] else [])
      + [ScenePointerMessage("scribble", origins, directions)]
  }

  /** `sceneClickDragInfo` plus the camera-controls flag and what was sent. */
  class DragInfo {
    var dragOrigin: seq<Vec3>
    var dragDirection: seq<Vec3>
    var dragScreenPos: seq<ScreenPos>
    var dragLock: int
    var cameraControlsEnabled: bool
    var sent: seq<PointerMessage>   // messages given to the throttled sender, in order

    /** The lock is 0 or 1, the three lists have equal length, and they are non-empty while locked. */
    ghost predicate Valid()
      reads this
    {
      (dragLock == 0 || dragLock == 1) &&
      |dragOrigin| == |dragDirection| == |dragScreenPos| &&
      (dragLock == 1 ==> |dragOrigin| >= 1)
    }

    constructor ()
      ensures Valid()
      ensures dragOrigin == [] && dragDirection == [] && dragScreenPos == [] && dragLock == 0
      ensures cameraControlsEnabled && sent == []
    {
      dragOrigin, dragDirection, dragScreenPos := [], [], [];
      dragLock := 0;
      cameraControlsEnabled := true;
      sent := [];
    }

    /**
     * `onPointerDown`: ignored when scene clicks are off, the click is outside the
     * viewport or a drag is already in progress; otherwise takes the lock, restarts
     * the three lists with this one sample and freezes the camera.
     */
    method PointerDown(sceneClickEnable: bool, clickValid: bool, ray: Ray, pos: ScreenPos)
      requires Valid()
      modifies this
      ensures Valid()
      ensures sent == old(sent)
      ensures !sceneClickEnable || !clickValid || old(dragLock) > 0 ==>
        dragOrigin == old(dragOrigin) && dragDirection == old(dragDirection) &&
        dragScreenPos == old(dragScreenPos) && dragLock == old(dragLock) &&
        cameraControlsEnabled == old(cameraControlsEnabled)
      ensures sceneClickEnable && clickValid && old(dragLock) == 0 ==>
        dragLock == 1 && !cameraControlsEnabled &&
        dragOrigin == [ray.origin] && dragDirection == [ray.direction] && dragScreenPos == [pos]
    {
      if !sceneClickEnable { return; }
      if !clickValid { return; }
      if dragLock > 0 { return; }
      dragLock := dragLock + 1;
      dragOrigin, dragDirection, dragScreenPos := [], [], [];
      cameraControlsEnabled := false;
      dragOrigin := dragOrigin + [ray.origin];
      dragDirection := dragDirection + [ray.direction];
      dragScreenPos := dragScreenPos + [pos];
    }

    /**
     * `onPointerMove`: while a drag is in progress, appends one sample when the pointer
     * moved more than 3 px on some axis from the last recorded sample.
     */
    method PointerMove(sceneClickEnable: bool, clickValid: bool, ray: Ray, pos: ScreenPos)
      requires Valid()
      modifies this
      ensures Valid()
      ensures sent == old(sent) && dragLock == old(dragLock) && cameraControlsEnabled == old(cameraControlsEnabled)
      ensures var appended := sceneClickEnable && old(dragLock) != 0 && clickValid &&
                              FarEnough(old(dragScreenPos)[|old(dragScreenPos)| - 1], pos);
        if appended then
          dragOrigin == old(dragOrigin) + [ray.origin] && dragDirection == old(dragDirection) + [ray.direction] &&
          dragScreenPos == old(dragScreenPos) + [pos]
        else
          dragOrigin == old(dragOrigin) && dragDirection == old(dragDirection) && dragScreenPos == old(dragScreenPos)
    {
      if !sceneClickEnable { return; }
      if dragLock == 0 { return; }
      if !clickValid { return; }
      var last := dragScreenPos[|dragScreenPos| - 1];
      if Abs(pos.x - last.x) <= 3.0 && Abs(pos.y - last.y) <= 3.0 { return; }
      dragOrigin := dragOrigin + [ray.origin];
      dragDirection := dragDirection + [ray.direction];
      dragScreenPos := dragScreenPos + [pos];
    }

    /**
     * `onPointerUp`: ends a drag by sending a "click" (exactly one sample) and a
     * "scribble" with all samples, re-enabling the camera and releasing the lock. The
     * lists are left as they are; the next pointer-down restarts them. With no sample
     * recorded it returns without releasing the lock.
     */
    method PointerUp(sceneClickEnable: bool)
      modifies this
      ensures old(Valid()) ==> Valid()
      ensures dragOrigin == old(dragOrigin) && dragDirection == old(dragDirection) && dragScreenPos == old(dragScreenPos)
      ensures var acts := sceneClickEnable && old(dragLock) != 0 && |old(dragOrigin)| != 0;
        if acts then
          sent == old(sent) + PointerUpMessages(old(dragOrigin), old(dragDirection)) &&
          cameraControlsEnabled && dragLock == old(dragLock) - 1
        else
          sent == old(sent) && cameraControlsEnabled == old(cameraControlsEnabled) && dragLock == old(dragLock)
    {
      if !sceneClickEnable { return; }
      if dragLock == 0 { return; }
      if |dragOrigin| == 0 { return; }
      if |dragOrigin| == 1 {
        sent := sent + [ScenePointerMessage("click", dragOrigin, dragDirection)];
      }
      sent := sent + [ScenePointerMessage("scribble", dragOrigin, dragDirection)];
      cameraControlsEnabled := true;
      dragLock := dragLock - 1;
    }
  }
}
