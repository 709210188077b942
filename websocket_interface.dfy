/**
 * The message handler of the first browser client (client/src/WebsocketInterface.tsx):
 * each decoded server message is applied, in arrival order, to the scene-tree
 * store and the GUI store.
 *
 * The two stores themselves live in files that are not part of this model; they
 * are represented by the maps their callers read and write:
 *  - the scene tree by `nodeFromName` (name -> node) and the visibility attribute map,
 *    `addSceneNode` inserting or replacing one entry, `removeSceneNode` deleting a name
 *    and every name nested under it, `resetScene` keeping only the root "";
 *  - the GUI store by `guiConfigFromName` and `guiValueFromName`, whose key set plays the
 *    part of `guiNames`.
 */
module WebsocketInterface {
  import opened Wrappers
  import opened Text

  type Vec3 = s: seq<real> | |s| == 3 witness [0.0, 0.0, 0.0]
  type Wxyz = s: seq<real> | |s| == 4 witness [1.0, 0.0, 0.0, 0.0]

  /** A three.js quaternion, scalar last. */
  datatype Quaternion = Quaternion(x: real, y: real, z: real, w: real)

  /** A typed-array view onto an underlying ArrayBuffer. */
  datatype BufferView = BufferView(buffer: seq<int>, byteOffset: nat, byteLength: nat)

  datatype LevaConf = LevaConf(settings: string)
  datatype GuiValue = BoolValue(b: bool) | NumberValue(x: real) | TextValue(s: string) | VectorValue(v: seq<real>)

  /** What the GUI store keeps per input name. */
  datatype GuiEntry = GuiEntry(levaConf: LevaConf, folderName: string)

  datatype FramePose = FramePose(scale: real, position: Vec3, quaternion: Quaternion)

  /** The renderable object a scene node produces. */
  datatype SceneObject =
    | CoordinateFrame(showAxes: bool, pose: Option<FramePose>)   // None: the component's default pose
    | PointCloud(positionBytes: seq<int>, colors: seq<int>, pointSize: real)
    | Mesh(vertexBytes: seq<int>, faceBytes: seq<int>)
    | CameraFrustum(fov: real, aspect: real, scale: real)
    | Image(mediaType: string, base64Data: string, renderWidth: real, renderHeight: real)

  datatype SceneNode = SceneNode(name: string, obj: SceneObject)

  /** The decoded messages the handler understands, plus any other `type` tag. */
  datatype Message =
    | FrameMessage(name: string, scale: real, position: Vec3, wxyz: Wxyz, showAxes: bool)
    | PointCloudMessage(name: string, points: BufferView, color: seq<int>, pointSize: real)
    | MeshMessage(name: string, vertices: BufferView, faces: BufferView)
    | CameraFrustumMessage(name: string, fov: real, aspect: real, scale: real)
    | BackgroundImageMessage(mediaType: string, base64Data: string)
    | ImageMessage(name: string, mediaType: string, base64Data: string, renderWidth: real, renderHeight: real)
    | RemoveSceneNodeMessage(name: string)
    | SetSceneNodeVisibilityMessage(name: string, visible: bool)
    | ResetSceneMessage
    | AddGuiMessage(name: string, levaConf: LevaConf, folder: string)
    | GuiSetMessage(name: string, value: GuiValue)
    | GuiSetLevaConfMessage(name: string, levaConf: LevaConf)
    | RemoveGuiMessage(name: string)
    | UnknownMessage(typeTag: string)

  // ---------------------------------------------------------------------------
  // Pure parts.

  /**
   * `name.split("/").slice(0, -1).join("/")`: everything before the last "/", and the
   * root "" when there is none.
   */
  function ParentName(name: string): (p: string)
    ensures '/' !in name ==> p == ""
    ensures '/' in name ==>
      |p| < |name| && name[..|p|] == p && name[|p|] == '/' && '/' !in name[|p| + 1..]
  {
    var parts := Split(name, '/');
    var n := |parts|;
    var p := Join(parts[..n - 1], '/');
    JoinSplit(name, '/');
    if n == 1 then
      assert name == parts[0];
      p
    else
      JoinLast(parts, '/');
      assert name == p + ['/'] + parts[n - 1];
      assert name[..|p|] == p;
      assert name[|p| + 1..] == parts[n - 1];
      p
  }

  /** A non-root name has a strictly shorter parent; the root is its own parent. */
  lemma ParentNameShorter(name: string)
    ensures name != "" ==> |ParentName(name)| < |name|
    ensures name == "" ==> ParentName(name) == ""
  {
  }

  lemma ParentNameExamples()
    ensures ParentName("/a/b") == "/a"
    ensures ParentName("/a") == ""
    ensures ParentName("") == ""
  {
    assert "b"[1..] == [] && "a"[1..] == [];
    assert "/b"[1..] == "b" && "a/b"[1..] == "/b" && "/a/b"[1..] == "a/b" && "/a"[1..] == "a";
    assert Split("", '/') == [""];
    assert ['b'] + "" == "b" && ['a'] + "" == "a";
    assert Split("b", '/') == [['b'] + ""] + [""][1..];
    assert Split("b", '/') == ["b"];
    assert Split("/b", '/') == ["", "b"];
    assert Split("a/b", '/') == [['a'] + ""] + ["", "b"][1..];
    assert Split("a/b", '/') == ["a", "b"];
    assert Split("/a/b", '/') == ["", "a", "b"];
    assert Split("a", '/') == [['a'] + ""] + [""][1..];
    assert Split("a", '/') == ["a"];
    assert Split("/a", '/') == ["", "a"];
    assert ["", "a", "b"][..2] == ["", "a"];
    assert ["", "a"][..1] == [""];
  }

  /** `a` is a proper ancestor of `name`: reached by taking parents at least once. */
  predicate IsAncestor(a: string, name: string)
    decreases |name|
  {
    name != "" &&
    (ParentNameShorter(name);
     ParentName(name) == a || IsAncestor(a, ParentName(name)))
  }

  /** Every stored name has its parent stored too, and the root is stored. */
  predicate Closed(nodes: map<string, SceneNode>)
  {
    "" in nodes && forall k :: k in nodes ==> ParentName(k) in nodes
  }

  /** In a closed map every ancestor of a stored name is stored. */
  lemma {:induction false} ClosedHasAncestors(nodes: map<string, SceneNode>, name: string)
    requires Closed(nodes) && name in nodes
    ensures forall a :: IsAncestor(a, name) ==> a in nodes
    decreases |name|
  {
    ParentNameShorter(name);
    if name != "" {
      ClosedHasAncestors(nodes, ParentName(name));
    }
  }

  /** The invisible frame synthesised for a missing parent. */
  function Placeholder(name: string): SceneNode
  {
    SceneNode(name, CoordinateFrame(false, None))
  }

  /** The node map after `addSceneNodeMakeParents(node)`. */
  function WithParents(nodes: map<string, SceneNode>, node: SceneNode): (r: map<string, SceneNode>)
    requires "" in nodes
    ensures "" in r && node.name in r
    decreases |node.name|
  {
    var parent := ParentName(node.name);
    if parent in nodes then nodes[node.name := node]
    else
      ParentNameShorter(node.name);
      WithParents(nodes, Placeholder(parent))[node.name := node]
  }

  /**
   * After adding with parent synthesis, the node and its parent are stored, nodes
   * that existed (other than the one added) are untouched, every new entry besides
   * the node is a placeholder for one of its ancestors, and a closed map stays closed.
   */
  lemma {:induction false} WithParentsSpec(nodes: map<string, SceneNode>, node: SceneNode)
    requires "" in nodes
    ensures var r := WithParents(nodes, node);
      && node.name in r && r[node.name] == node
      && ParentName(node.name) in r
      && (forall k :: k in nodes && k != node.name ==> k in r && r[k] == nodes[k])
      && (forall k :: k in r && k !in nodes && k != node.name ==> IsAncestor(k, node.name) && r[k] == Placeholder(k))
      && (Closed(nodes) ==> Closed(r))
    decreases |node.name|
  {
    var parent := ParentName(node.name);
    var r := WithParents(nodes, node);
    ParentNameShorter(node.name);
    if parent !in nodes {
      assert node.name != "";
      var q := WithParents(nodes, Placeholder(parent));
      WithParentsSpec(nodes, Placeholder(parent));
      assert r == q[node.name := node];
      NotOwnAncestor(node.name);
      forall k | k in r && k !in nodes && k != node.name
        ensures IsAncestor(k, node.name) && r[k] == Placeholder(k)
      {
        if k != parent {
          assert IsAncestor(k, parent);
        }
      }
    }
  }

  /** No name is its own ancestor (ancestors are strictly shorter). */
  lemma {:induction false} NotOwnAncestor(name: string)
    ensures forall a :: IsAncestor(a, name) ==> |a| < |name|
    decreases |name|
  {
    ParentNameShorter(name);
    if name != "" {
      NotOwnAncestor(ParentName(name));
    }
  }

  /**
   * The subtree-removal effect assumed for the scene-tree store's `removeSceneNode`,
   * whose body lies outside this model: the name and every name nested under it
   * ("name/...") go, the root "" stays, and every other node is kept as it was.
   */
  function RemoveSubtree(nodes: map<string, SceneNode>, name: string): (r: map<string, SceneNode>)
    ensures r.Keys <= nodes.Keys
    ensures "" in nodes ==> "" in r
    ensures name != "" ==> name !in r
    ensures forall k :: k in nodes && k != name && !StartsWith(k, name + "/") ==> k in r
    ensures forall k :: k in r ==> r[k] == nodes[k] && (k == "" || !StartsWith(k, name + "/"))
  {
    map k | k in nodes && (k == "" || !(k == name || StartsWith(k, name + "/"))) :: nodes[k]
  }

  /**
   * Handling a `RemoveSceneNodeMessage` (`removeSceneNode(message.name)`), with the
   * store effect `RemoveSubtree` stands for, keeps a closed map closed: no surviving
   * node loses its parent, and the named node is gone unless it is the root.
   */
  lemma RemoveSubtreeKeepsClosed(nodes: map<string, SceneNode>, name: string)
    requires Closed(nodes)
    ensures Closed(RemoveSubtree(nodes, name))
    ensures name != "" ==> name !in RemoveSubtree(nodes, name)
  {
    var r := RemoveSubtree(nodes, name);
    forall k | k in r ensures ParentName(k) in r {
      if '/' in k {
        var p := ParentName(k);
        assert k[..|p|] == p;
      }
    }
  }

  /** `wxyz` on the wire becomes the renderer quaternion (x, y, z, w) = (wxyz[1], wxyz[2], wxyz[3], wxyz[0]). */
  function RenderQuaternion(wxyz: Wxyz): (q: Quaternion)
    ensures WireOrder(q) == wxyz
  {
    Quaternion(wxyz[1], wxyz[2], wxyz[3], wxyz[0])
  }

  /** The wire order of a renderer quaternion. */
  function WireOrder(q: Quaternion): Wxyz
  {
    [q.w, q.x, q.y, q.z]
  }

  /** The reorder loses nothing: it is undone by reading the quaternion back in wire order. */
  lemma QuaternionReorderRoundTrip(wxyz: Wxyz, q: Quaternion)
    ensures WireOrder(RenderQuaternion(wxyz)) == wxyz
    ensures RenderQuaternion(WireOrder(q)) == q
    ensures RenderQuaternion(wxyz).w == wxyz[0]
  {
  }

  /**
   * `view.buffer.slice(view.byteOffset, view.byteOffset + view.byteLength)`, with the
   * clamping of `ArrayBuffer.prototype.slice` for offsets past the end.
   */
  function SliceView(v: BufferView): (r: seq<int>)
    ensures |r| <= v.byteLength
    ensures v.byteOffset + v.byteLength <= |v.buffer| ==>
      |r| == v.byteLength && forall k :: 0 <= k < |r| ==> r[k] == v.buffer[v.byteOffset + k]
  {
    var first := if v.byteOffset < |v.buffer| then v.byteOffset else |v.buffer|;
    var last := if v.byteOffset + v.byteLength < |v.buffer| then v.byteOffset + v.byteLength else |v.buffer|;
    v.buffer[first..last]
  }

  // ---------------------------------------------------------------------------
  // The stores as one value, and the effect of one message on them.

  datatype Stores = Stores(
    nodeFromName: map<string, SceneNode>,
    visibilityFromName: map<string, bool>,
    guiConfigFromName: map<string, GuiEntry>,
    guiValueFromName: map<string, GuiValue>,
    backgroundAvailable: bool,
    websocketConnected: bool,
    wrapperBackground: Option<string>)  // None: no wrapper element; Some(css): its background image

  function BackgroundCss(mediaType: string, base64Data: string): string
  {
    "url(data:" + mediaType + ";base64," + base64Data + ")"
  }

  /**
   * The handler's effect on the stores, and whether it completed: a reset with no
   * wrapper element fails on the non-null assertion after the scene was already reset.
   */
  function Step(st: Stores, m: Message): (r: (Stores, bool))
    requires "" in st.nodeFromName
    ensures "" in r.0.nodeFromName
  {
    match m
    case FrameMessage(name, scale, position, wxyz, showAxes) =>
      var node := SceneNode(name, CoordinateFrame(showAxes, Some(FramePose(scale, position, RenderQuaternion(wxyz)))));
      (st.(nodeFromName := WithParents(st.nodeFromName, node)), true)
    case PointCloudMessage(name, points, color, pointSize) =>
      var node := SceneNode(name, PointCloud(SliceView(points), color, pointSize));
      (st.(nodeFromName := WithParents(st.nodeFromName, node)), true)
    case MeshMessage(name, vertices, faces) =>
      (st.(nodeFromName := st.nodeFromName[name := SceneNode(name, Mesh(SliceView(vertices), SliceView(faces)))]), true)
    case CameraFrustumMessage(name, fov, aspect, scale) =>
      var node := SceneNode(name, CameraFrustum(fov, aspect, scale));
      (st.(nodeFromName := WithParents(st.nodeFromName, node)), true)
    case BackgroundImageMessage(mediaType, base64Data) =>
      if st.wrapperBackground.Some? then
        (st.(wrapperBackground := Some(BackgroundCss(mediaType, base64Data)), backgroundAvailable := true), true)
      else (st, true)
    case ImageMessage(name, mediaType, base64Data, renderWidth, renderHeight) =>
      var node := SceneNode(name, Image(mediaType, base64Data, renderWidth, renderHeight));
      (st.(nodeFromName := WithParents(st.nodeFromName, node)), true)
    case RemoveSceneNodeMessage(name) =>
      (st.(nodeFromName := RemoveSubtree(st.nodeFromName, name)), true)
    case SetSceneNodeVisibilityMessage(name, visible) =>
      (st.(visibilityFromName := st.visibilityFromName[name := visible]), true)
    case ResetSceneMessage =>
      var reset := st.(nodeFromName := map["" := st.nodeFromName[""]], visibilityFromName := map[]);
      if st.wrapperBackground.None? then (reset, false)
      else (reset.(wrapperBackground := Some("none"), backgroundAvailable := false), true)
    case AddGuiMessage(name, levaConf, folder) =>
      (st.(guiConfigFromName := st.guiConfigFromName[name := GuiEntry(levaConf, folder)]), true)
    case GuiSetMessage(name, value) =>
      (st.(guiValueFromName := st.guiValueFromName[name := value]), true)
    case GuiSetLevaConfMessage(name, levaConf) =>
      if name in st.guiConfigFromName then
        (st.(guiConfigFromName := st.guiConfigFromName[name := GuiEntry(levaConf, st.guiConfigFromName[name].folderName)]), true)
      else (st, true)
    case RemoveGuiMessage(name) =>
      (st.(guiConfigFromName := st.guiConfigFromName - {name}, guiValueFromName := st.guiValueFromName - {name}), true)
    case UnknownMessage(_) =>
      (st, true)
  }

  /** Applying messages one after another, in arrival order. */
  function Fold(st: Stores, ms: seq<Message>): (r: Stores)
    requires "" in st.nodeFromName
    ensures "" in r.nodeFromName
    decreases |ms|
  {
    if ms == [] then st else Fold(Step(st, ms[0]).0, ms[1..])
  }

  /**
   * The socket's close handler: disconnected, and the GUI reset only when some input
   * exists, so no GUI input is left either way; the scene is kept.
   */
  function Close(st: Stores): (r: Stores)
    ensures !r.websocketConnected
    ensures r.guiConfigFromName == map[]
    ensures r.nodeFromName == st.nodeFromName && r.visibilityFromName == st.visibilityFromName
    ensures |st.guiConfigFromName| == 0 ==> r.guiValueFromName == st.guiValueFromName
  {
    var st1 := st.(websocketConnected := false);
    if |st.guiConfigFromName| > 0 then st1.(guiConfigFromName := map[], guiValueFromName := map[]) else st1
  }

  // ---------------------------------------------------------------------------
  // Properties of the handler.

  /** A message with an unknown type tag changes no store. */
  lemma UnknownMessageChangesNothing(st: Stores, tag: string)
    requires "" in st.nodeFromName
    ensures Step(st, UnknownMessage(tag)) == (st, true)
  {
  }

  /** A config update for a name without a config is dropped; otherwise it replaces the config and keeps the folder. */
  lemma LevaConfUpdateRule(st: Stores, name: string, conf: LevaConf)
    requires "" in st.nodeFromName
    ensures var (r, ok) := Step(st, GuiSetLevaConfMessage(name, conf));
      ok &&
      (name !in st.guiConfigFromName ==> r == st) &&
      (name in st.guiConfigFromName ==>
         r.guiConfigFromName.Keys == st.guiConfigFromName.Keys &&
         r.guiConfigFromName[name] == GuiEntry(conf, st.guiConfigFromName[name].folderName) &&
         r.nodeFromName == st.nodeFromName && r.guiValueFromName == st.guiValueFromName)
  {
  }

  /** Frames, point clouds, frustums and images get their parent synthesised; a mesh is added alone. */
  lemma ParentSynthesisByKind(st: Stores, m: Message)
    requires "" in st.nodeFromName
    requires m.FrameMessage? || m.PointCloudMessage? || m.CameraFrustumMessage? || m.ImageMessage? || m.MeshMessage?
    ensures var r := Step(st, m).0;
      m.name in r.nodeFromName &&
      (!m.MeshMessage? ==> ParentName(m.name) in r.nodeFromName) &&
      (m.MeshMessage? ==> r.nodeFromName.Keys == st.nodeFromName.Keys + {m.name}) &&
      (forall k :: k in st.nodeFromName && k != m.name ==> k in r.nodeFromName && r.nodeFromName[k] == st.nodeFromName[k])
  {
    match m {
      case FrameMessage(name, scale, position, wxyz, showAxes) =>
        WithParentsSpec(st.nodeFromName, SceneNode(name, CoordinateFrame(showAxes, Some(FramePose(scale, position, RenderQuaternion(wxyz))))));
      case PointCloudMessage(name, points, color, pointSize) =>
        WithParentsSpec(st.nodeFromName, SceneNode(name, PointCloud(SliceView(points), color, pointSize)));
      case CameraFrustumMessage(name, fov, aspect, scale) =>
        WithParentsSpec(st.nodeFromName, SceneNode(name, CameraFrustum(fov, aspect, scale)));
      case ImageMessage(name, mediaType, base64Data, renderWidth, renderHeight) =>
        WithParentsSpec(st.nodeFromName, SceneNode(name, Image(mediaType, base64Data, renderWidth, renderHeight)));
      case MeshMessage(_, _, _) =>
    }
  }

  /** A frame message stores a frame whose quaternion is the reordered wire quaternion. */
  lemma FrameStoresReorderedQuaternion(st: Stores, name: string, scale: real, position: Vec3, wxyz: Wxyz, showAxes: bool)
    requires "" in st.nodeFromName
    ensures var r := Step(st, FrameMessage(name, scale, position, wxyz, showAxes)).0;
      name in r.nodeFromName &&
      r.nodeFromName[name].obj == CoordinateFrame(showAxes, Some(FramePose(scale, position, Quaternion(wxyz[1], wxyz[2], wxyz[3], wxyz[0]))))
  {
    WithParentsSpec(st.nodeFromName, SceneNode(name, CoordinateFrame(showAxes, Some(FramePose(scale, position, RenderQuaternion(wxyz))))));
  }

  /**
   * Every message except a mesh keeps the node map closed under parents (a mesh can
   * add a node whose parent is missing).
   */
  lemma {:induction false} StepKeepsClosed(st: Stores, m: Message)
    requires Closed(st.nodeFromName) && !m.MeshMessage?
    ensures Closed(Step(st, m).0.nodeFromName)
  {
    match m {
      case FrameMessage(name, scale, position, wxyz, showAxes) =>
        WithParentsSpec(st.nodeFromName, SceneNode(name, CoordinateFrame(showAxes, Some(FramePose(scale, position, RenderQuaternion(wxyz))))));
      case PointCloudMessage(name, points, color, pointSize) =>
        WithParentsSpec(st.nodeFromName, SceneNode(name, PointCloud(SliceView(points), color, pointSize)));
      case CameraFrustumMessage(name, fov, aspect, scale) =>
        WithParentsSpec(st.nodeFromName, SceneNode(name, CameraFrustum(fov, aspect, scale)));
      case ImageMessage(name, mediaType, base64Data, renderWidth, renderHeight) =>
        WithParentsSpec(st.nodeFromName, SceneNode(name, Image(mediaType, base64Data, renderWidth, renderHeight)));
      case RemoveSceneNodeMessage(name) =>
        RemoveSubtreeKeepsClosed(st.nodeFromName, name);
      case ResetSceneMessage =>
        var root := map["" := st.nodeFromName[""]];
        ParentNameShorter("");
        assert forall k :: k in root ==> k == "";
      case _ =>
    }
  }

  /** A reset leaves only the root and no attributes; it clears the background only if the wrapper element exists. */
  lemma ResetSceneRule(st: Stores)
    requires "" in st.nodeFromName
    ensures var (r, ok) := Step(st, ResetSceneMessage);
      r.nodeFromName.Keys == {""} && r.visibilityFromName == map[] &&
      ok == st.wrapperBackground.Some? &&
      (ok ==> !r.backgroundAvailable) &&
      (!ok ==> r.backgroundAvailable == st.backgroundAvailable) &&
      r.guiConfigFromName == st.guiConfigFromName
  {
  }

  /** How many handlers throw while the messages are handled one after another. */
  function Failures(st: Stores, ms: seq<Message>): (n: nat)
    requires "" in st.nodeFromName
    ensures n <= |ms|
    decreases |ms|
  {
    if ms == [] then 0
    else
      var (next, ok) := Step(st, ms[0]);
      (if ok then 0 else 1) + Failures(next, ms[1..])
  }

  /** The number of reset messages in a batch. */
  function Resets(ms: seq<Message>): nat
  {
    if ms == [] then 0 else (if ms[0].ResetSceneMessage? then 1 else 0) + Resets(ms[1..])
  }

  /**
   * Only a reset without a wrapper element throws, and no message adds or removes the
   * wrapper: with one no handler throws, without one exactly the resets do.
   */
  lemma {:induction false} FailuresAreWrapperlessResets(st: Stores, ms: seq<Message>)
    requires "" in st.nodeFromName
    ensures st.wrapperBackground.Some? ==> Failures(st, ms) == 0
    ensures st.wrapperBackground.None? ==> Failures(st, ms) == Resets(ms)
    decreases |ms|
  {
    if ms != [] {
      StepFailsOnlyOnWrapperlessReset(st, ms[0]);
      FailuresAreWrapperlessResets(Step(st, ms[0]).0, ms[1..]);
    }
  }

  /** One step: it keeps the presence of the wrapper element and throws only on a reset without one. */
  lemma StepFailsOnlyOnWrapperlessReset(st: Stores, m: Message)
    requires "" in st.nodeFromName
    ensures var (next, ok) := Step(st, m);
      (next.wrapperBackground.Some? <==> st.wrapperBackground.Some?) &&
      (ok <==> !(m.ResetSceneMessage? && st.wrapperBackground.None?))
  {
  }

  /** Handling a list of messages is handling its first part, then the rest. */
  lemma {:induction false} FoldAppend(st: Stores, ms1: seq<Message>, ms2: seq<Message>)
    requires "" in st.nodeFromName
    ensures Fold(st, ms1 + ms2) == Fold(Fold(st, ms1), ms2)
    decreases |ms1|
  {
    if ms1 == [] {
      assert ms1 + ms2 == ms2;
    } else {
      assert (ms1 + ms2)[0] == ms1[0];
      assert (ms1 + ms2)[1..] == ms1[1..] + ms2;
      FoldAppend(Step(st, ms1[0]).0, ms1[1..], ms2);
    }
  }

  // ---------------------------------------------------------------------------
  // The handler as the client runs it: stores updated call by call.

  /** The GUI messages, and any unknown type, which the switch handles after the scene messages. */
  predicate IsGuiMessage(m: Message)
  {
    m.AddGuiMessage? || m.GuiSetMessage? || m.GuiSetLevaConfMessage? || m.RemoveGuiMessage? || m.UnknownMessage?
  }

  class Client {
    var nodeFromName: map<string, SceneNode>
    var visibilityFromName: map<string, bool>
    var guiConfigFromName: map<string, GuiEntry>
    var guiValueFromName: map<string, GuiValue>
    var backgroundAvailable: bool
    var websocketConnected: bool
    var wrapperBackground: Option<string>

    function State(): Stores
      reads this
    {
      Stores(nodeFromName, visibilityFromName, guiConfigFromName, guiValueFromName,
             backgroundAvailable, websocketConnected, wrapperBackground)
    }

    constructor (root: SceneObject, wrapper: Option<string>)
      ensures State() == Stores(map["" := SceneNode("", root)], map[], map[], map[], false, false, wrapper)
    {
      nodeFromName := map["" := SceneNode("", root)];
      visibilityFromName := map[];
      guiConfigFromName := map[];
      guiValueFromName := map[];
      backgroundAvailable := false;
      websocketConnected := false;
      wrapperBackground := wrapper;
    }

    /** The store's `addSceneNode`: insert or replace one entry. */
    method AddSceneNode(node: SceneNode)
      modifies this
      ensures State() == old(State()).(nodeFromName := old(nodeFromName)[node.name := node])
    {
      nodeFromName := nodeFromName[node.name := node];
    }

    /** `addSceneNodeMakeParents`: synthesise the missing parent (recursively), then add. */
    method AddSceneNodeMakeParents(node: SceneNode)
      requires "" in nodeFromName
      modifies this
      ensures State() == old(State()).(nodeFromName := WithParents(old(nodeFromName), node))
      decreases |node.name|
    {
      var parentName := ParentName(node.name);
      if parentName !in nodeFromName {
        ParentNameShorter(node.name);
        AddSceneNodeMakeParents(Placeholder(parentName));
      }
      AddSceneNode(node);
    }

    /** `handleMessage`: the switch on the message type, scene cases first, then GUI ones. */
    method HandleMessage(m: Message) returns (ok: bool)
      requires "" in nodeFromName
      modifies this
      ensures (State(), ok) == Step(old(State()), m)
    {
      if IsGuiMessage(m) {
        ok := HandleGuiMessage(m);
      } else {
        ok := HandleSceneMessage(m);
      }
    }

    /** The cases of the switch that update the scene tree and the background. */
    method HandleSceneMessage(m: Message) returns (ok: bool)
      requires "" in nodeFromName && !IsGuiMessage(m)
      modifies this
      ensures (State(), ok) == Step(old(State()), m)
    {
      ok := true;
      match m {
        case FrameMessage(name, scale, position, wxyz, showAxes) =>
          AddSceneNodeMakeParents(SceneNode(name, CoordinateFrame(showAxes, Some(FramePose(scale, position, RenderQuaternion(wxyz))))));
        case PointCloudMessage(name, points, color, pointSize) =>
          AddSceneNodeMakeParents(SceneNode(name, PointCloud(SliceView(points), color, pointSize)));
        case MeshMessage(name, vertices, faces) =>
          AddSceneNode(SceneNode(name, Mesh(SliceView(vertices), SliceView(faces))));
        case CameraFrustumMessage(name, fov, aspect, scale) =>
          AddSceneNodeMakeParents(SceneNode(name, CameraFrustum(fov, aspect, scale)));
        case BackgroundImageMessage(mediaType, base64Data) =>
          if wrapperBackground.Some? {
            wrapperBackground := Some(BackgroundCss(mediaType, base64Data));
            backgroundAvailable := true;
          }
        case ImageMessage(name, mediaType, base64Data, renderWidth, renderHeight) =>
          AddSceneNodeMakeParents(SceneNode(name, Image(mediaType, base64Data, renderWidth, renderHeight)));
        case RemoveSceneNodeMessage(name) =>
          nodeFromName := RemoveSubtree(nodeFromName, name);
        case SetSceneNodeVisibilityMessage(name, visible) =>
          visibilityFromName := visibilityFromName[name := visible];
        case ResetSceneMessage =>
          nodeFromName := map["" := nodeFromName[""]];
          visibilityFromName := map[];
          if wrapperBackground.None? {
            ok := false;
          } else {
            wrapperBackground := Some("none");
            backgroundAvailable := false;
          }
      }
    }

    /** The cases of the switch that update the GUI store, and the default case. */
    method HandleGuiMessage(m: Message) returns (ok: bool)
      requires "" in nodeFromName && IsGuiMessage(m)
      modifies this
      ensures (State(), ok) == Step(old(State()), m)
    {
      ok := true;
      match m {
        case AddGuiMessage(name, levaConf, folder) =>
          guiConfigFromName := guiConfigFromName[name := GuiEntry(levaConf, folder)];
        case GuiSetMessage(name, value) =>
          guiValueFromName := guiValueFromName[name := value];
        case GuiSetLevaConfMessage(name, levaConf) =>
          if name in guiConfigFromName {
            guiConfigFromName := guiConfigFromName[name := GuiEntry(levaConf, guiConfigFromName[name].folderName)];
          }
        case RemoveGuiMessage(name) =>
          guiConfigFromName := guiConfigFromName - {name};
          guiValueFromName := guiValueFromName - {name};
        case UnknownMessage(_) =>
      }
    }

    /**
     * Messages are handled strictly one after another; a handler that throws
     * releases the ordering lock, so later messages are still handled.
     * Returns how many handlers threw.
     */
    method HandleAll(ms: seq<Message>) returns (failures: nat)
      requires "" in nodeFromName
      modifies this
      ensures State() == Fold(old(State()), ms)
      ensures failures == Failures(old(State()), ms)
    {
      failures := 0;
      var i := 0;
      while i < |ms|
        invariant 0 <= i <= |ms|
        invariant "" in nodeFromName
        invariant Fold(old(State()), ms) == Fold(State(), ms[i..])
        invariant Failures(old(State()), ms) == failures + Failures(State(), ms[i..])
      {
        var ok := HandleMessage(ms[i]);
        if !ok {
          failures := failures + 1;
        }
        assert ms[i..][1..] == ms[i + 1..];
        i := i + 1;
      }
    }

    /** The socket's `onclose` handler (the reconnect timer is not modelled). */
    method OnClose()
      modifies this
      ensures State() == Close(old(State()))
    {
      websocketConnected := false;
      if |guiConfigFromName| > 0 {
        guiConfigFromName := map[];
        guiValueFromName := map[];
      }
    }
  }
}
