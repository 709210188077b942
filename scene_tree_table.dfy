/**
 * The scene-tree table of the control panel (src/viser/client/src/ControlPanel/SceneTreeTable.tsx):
 * the rows it derives from the scene tree and the per-node attributes, the local
 * visibility override the eye icons set and the "clear overrides" action, and the
 * segments the name column renders.
 */
module SceneTreeTable {
  import opened Wrappers
  import opened Text

  /** The per-node attribute record kept outside the scene-tree store. */
  datatype NodeAttributes = NodeAttributes(
    wxyz: Option<seq<real>>,
    position: Option<seq<real>>,
    visibility: Option<bool>,          // sent by the server
    overrideVisibility: Option<bool>)  // set locally from the table

  /** `{}`: a record with no field set. */
  function EmptyAttributes(): NodeAttributes
  {
    NodeAttributes(None, None, None, None)
  }

  /** A scene-tree node as the table reads it: its children's names, in order. */
  datatype TreeNode = TreeNode(children: seq<string>)

  /** One table row: its node name, the eye icon (displayed visibility), its opacity flag and its children. */
  datatype Row = Row(name: string, visible: bool, effective: bool, subRows: seq<Row>)

  /**
   * `(attrs?.overrideVisibility === undefined ? attrs?.visibility : attrs.overrideVisibility) ?? true`:
   * a local override wins over the server's visibility, and a node with neither shows.
   */
  function DisplayedVisibility(attrs: map<string, NodeAttributes>, name: string): (v: bool)
    ensures name in attrs && attrs[name].overrideVisibility.Some? ==> v == attrs[name].overrideVisibility.value
    ensures name in attrs && attrs[name].overrideVisibility.None? && attrs[name].visibility.Some? ==> v == attrs[name].visibility.value
    ensures name !in attrs || (attrs[name].overrideVisibility.None? && attrs[name].visibility.None?) ==> v
  {
    if name !in attrs then true
    else
      var a := attrs[name];
      match a.overrideVisibility
      case Some(v) => v
      case None => if a.visibility.Some? then a.visibility.value else true
  }

  /**
   * `getSceneTreeSubRows(parentName, _, isParentVisible)`. The tree is walked at most
   * `fuel` levels deep; the source walks until it runs out of children. A missing node
   * has no rows; otherwise there is one row per child, in `children` order, whose
   * effective visibility is its displayed visibility AND its parent's.
   */
  function SubRows(nodes: map<string, TreeNode>, attrs: map<string, NodeAttributes>,
                   parentName: string, isParentVisible: bool, fuel: nat): (rows: seq<Row>)
    ensures parentName !in nodes ==> rows == []
    ensures parentName in nodes && fuel > 0 ==>
      var children := nodes[parentName].children;
      |rows| == |children| &&
      forall i :: 0 <= i < |rows| ==>
        rows[i].name == children[i] &&
        rows[i].visible == DisplayedVisibility(attrs, children[i]) &&
        rows[i].effective == (DisplayedVisibility(attrs, children[i]) && isParentVisible) &&
        rows[i].subRows == SubRows(nodes, attrs, children[i], rows[i].effective, fuel - 1)
    decreases fuel
  {
    if fuel == 0 || parentName !in nodes then []
    else
      var children := nodes[parentName].children;
      seq(|children|, i requires 0 <= i < |children| =>
        var v := DisplayedVisibility(attrs, children[i]);
        Row(children[i], v, v && isParentVisible, SubRows(nodes, attrs, children[i], v && isParentVisible, fuel - 1)))
  }

  /** The table's data: the rows under the root "", whose own visibility counts as true. */
  function TableData(nodes: map<string, TreeNode>, attrs: map<string, NodeAttributes>, fuel: nat): seq<Row>
  {
    SubRows(nodes, attrs, "", true, fuel)
  }

  /** Every row of a forest (at any depth) is drawn faded. */
  predicate AllFaded(rows: seq<Row>)
    decreases rows
  {
    forall i :: 0 <= i < |rows| ==> !rows[i].effective && AllFaded(rows[i].subRows)
  }

  /** Every row of a forest shows full opacity only if its own eye is open. */
  predicate EffectiveImpliesVisible(rows: seq<Row>)
    decreases rows
  {
    forall i :: 0 <= i < |rows| ==> (rows[i].effective ==> rows[i].visible) && EffectiveImpliesVisible(rows[i].subRows)
  }

  /** Under a hidden parent every row of the subtree is faded, whatever its own visibility. */
  lemma {:induction false} HiddenParentFadesSubtree(nodes: map<string, TreeNode>, attrs: map<string, NodeAttributes>,
                                                    parentName: string, fuel: nat)
    ensures AllFaded(SubRows(nodes, attrs, parentName, false, fuel))
    decreases fuel
  {
    var rows := SubRows(nodes, attrs, parentName, false, fuel);
    if fuel > 0 && parentName in nodes {
      forall i | 0 <= i < |rows| ensures !rows[i].effective && AllFaded(rows[i].subRows) {
        HiddenParentFadesSubtree(nodes, attrs, rows[i].name, fuel - 1);
      }
    }
  }

  /** A row is drawn at full opacity only when its own eye is open, at every depth. */
  lemma {:induction false} EffectiveRowsAreVisible(nodes: map<string, TreeNode>, attrs: map<string, NodeAttributes>,
                                                   parentName: string, isParentVisible: bool, fuel: nat)
    ensures EffectiveImpliesVisible(SubRows(nodes, attrs, parentName, isParentVisible, fuel))
    decreases fuel
  {
    var rows := SubRows(nodes, attrs, parentName, isParentVisible, fuel);
    if fuel > 0 && parentName in nodes {
      forall i | 0 <= i < |rows| ensures (rows[i].effective ==> rows[i].visible) && EffectiveImpliesVisible(rows[i].subRows) {
        EffectiveRowsAreVisible(nodes, attrs, rows[i].name, rows[i].effective, fuel - 1);
      }
    }
  }

  /**
   * `setOverrideVisibility(name, visible)` on the attribute map: it creates the record
   * when missing and changes only its `overrideVisibility`; the displayed visibility
   * becomes the override.
   */
  function WithOverride(attrs: map<string, NodeAttributes>, name: string, visible: bool): (r: map<string, NodeAttributes>)
    ensures r.Keys == attrs.Keys + {name}
    ensures name in attrs ==> r[name] == attrs[name].(overrideVisibility := Some(visible))
    ensures name !in attrs ==> r[name] == NodeAttributes(None, None, None, Some(visible))
    ensures forall k :: k in attrs && k != name ==> r[k] == attrs[k]
    ensures DisplayedVisibility(r, name) == visible
  {
    var a := if name in attrs then attrs[name] else EmptyAttributes();
    attrs[name := a.(overrideVisibility := Some(visible))]
  }

  /** The eye icon's click sets the override to the negation of what is displayed, so the display flips. */
  lemma EyeToggleFlips(attrs: map<string, NodeAttributes>, name: string)
    ensures DisplayedVisibility(WithOverride(attrs, name, !DisplayedVisibility(attrs, name)), name) == !DisplayedVisibility(attrs, name)
  {
  }

  /** The attribute map after "clear visibility overrides". */
  function WithoutOverrides(attrs: map<string, NodeAttributes>): (r: map<string, NodeAttributes>)
    ensures r.Keys == attrs.Keys
    ensures forall k :: k in r ==> r[k].overrideVisibility.None? && r[k].(overrideVisibility := attrs[k].overrideVisibility) == attrs[k]
  {
    map k | k in attrs :: attrs[k].(overrideVisibility := None)
  }

  /** Once overrides are cleared, each node displays the server's visibility again (true when unset). */
  lemma ClearedOverridesShowServerVisibility(attrs: map<string, NodeAttributes>, name: string)
    ensures DisplayedVisibility(WithoutOverrides(attrs), name) ==
      (if name in attrs && attrs[name].visibility.Some? then attrs[name].visibility.value else true)
  {
  }

  /** The node-attribute records, updated in place. */
  class NodeAttributeStore {
    var attributesFromName: map<string, NodeAttributes>

    constructor (initial: map<string, NodeAttributes>)
      ensures attributesFromName == initial
    {
      attributesFromName := initial;
    }

    method SetOverrideVisibility(name: string, visible: bool)
      modifies this
      ensures attributesFromName == WithOverride(old(attributesFromName), name, visible)
    {
      if name !in attributesFromName {
        attributesFromName := attributesFromName[name := EmptyAttributes()];
      }
      attributesFromName := attributesFromName[name := attributesFromName[name].(overrideVisibility := Some(visible))];
    }

    /** `Object.values(attributes).forEach((attrs) => delete attrs.overrideVisibility)`. */
    method ClearOverrides()
      modifies this
      ensures attributesFromName == WithoutOverrides(old(attributesFromName))
    {
      var pending := attributesFromName.Keys;
      ghost var cleared: set<string> := {};
      while pending != {}
        invariant attributesFromName.Keys == old(attributesFromName).Keys
        invariant pending !! cleared && pending + cleared == old(attributesFromName).Keys
        invariant forall k :: k in cleared ==> attributesFromName[k] == old(attributesFromName)[k].(overrideVisibility := None)
        invariant forall k :: k in pending ==> attributesFromName[k] == old(attributesFromName)[k]
        decreases pending
      {
        var k :| k in pending;
        attributesFromName := attributesFromName[k := attributesFromName[k].(overrideVisibility := None)];
        pending := pending - {k};
        cleared := cleared + {k};
      }
    }
  }

  // ---------------------------------------------------------------------------
  // The name column.

  /** `.split("/").filter((part) => part.length > 0)`. */
  function NonEmpty(parts: seq<string>): (r: seq<string>)
    ensures forall i :: 0 <= i < |r| ==> |r[i]| > 0
  {
    if parts == [] then []
    else (if |parts[0]| > 0 then [parts[0]] else []) + NonEmpty(parts[1..])
  }

  /** One rendered segment: a dimmed span, then the emphasised text (only the last segment has one). */
  datatype Span = Span(dimmed: string, emphasised: string)

  /** The spans the name cell renders for `name`: one per segment, only the last one emphasised. */
  function NameSpans(name: string): (r: seq<Span>)
    ensures |r| == |NonEmpty(Split(name, '/'))|
    ensures forall i :: 0 <= i < |r| ==> (r[i].emphasised != "" <==> i == |r| - 1)
  {
    var parts := NonEmpty(Split(name, '/'));
    seq(|parts|, i requires 0 <= i < |parts| =>
      if i == |parts| - 1 then Span("/", parts[i]) else Span("/" + parts[i], ""))
  }

  /** The text a reader sees: all spans in order. */
  function SpansText(spans: seq<Span>): string
  {
    if spans == [] then "" else spans[0].dimmed + spans[0].emphasised + SpansText(spans[1..])
  }

  /** Each segment preceded by "/". */
  function Slashed(parts: seq<string>): string
  {
    if parts == [] then "" else "/" + parts[0] + Slashed(parts[1..])
  }

  lemma {:induction false} SlashedIsJoin(parts: seq<string>)
    requires |parts| >= 1
    ensures Slashed(parts) == "/" + Join(parts, '/')
    decreases |parts|
  {
    if |parts| > 1 {
      SlashedIsJoin(parts[1..]);
    } else {
      assert parts[1..] == [];
    }
  }

  lemma {:induction false} SpansTextIsSlashed(spans: seq<Span>, parts: seq<string>)
    requires |spans| == |parts| >= 1
    requires forall i :: 0 <= i < |parts| - 1 ==> spans[i] == Span("/" + parts[i], "")
    requires spans[|parts| - 1] == Span("/", parts[|parts| - 1])
    ensures SpansText(spans) == Slashed(parts)
    decreases |parts|
  {
    if |parts| > 1 {
      SpansTextIsSlashed(spans[1..], parts[1..]);
    } else {
      assert spans[1..] == [] && parts[1..] == [];
    }
  }

  /**
   * The name cell reads "/" followed by the name's non-empty "/"-segments joined with
   * "/" (so "/a//b/" reads "/a/b"), and nothing when the name has no segment.
   */
  lemma NameCellText(name: string)
    ensures var parts := NonEmpty(Split(name, '/'));
      SpansText(NameSpans(name)) == if parts == [] then "" else "/" + Join(parts, '/')
  {
    var parts := NonEmpty(Split(name, '/'));
    var spans := NameSpans(name);
    if parts != [] {
      assert |spans| == |parts|;
      assert forall i :: 0 <= i < |parts| - 1 ==> spans[i] == Span("/" + parts[i], "");
      assert spans[|parts| - 1] == Span("/", parts[|parts| - 1]);
      SpansTextIsSlashed(spans, parts);
      SlashedIsJoin(parts);
    } else {
      assert spans == [];
    }
  }
}
