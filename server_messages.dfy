/**
 * The Python server's outgoing messages (viser/_messages.py), reduced to the fields
 * the handle and API code sets, and the queue they are sent through (`_queue`).
 * Callbacks that the handles run are recorded, in order, next to the queued messages.
 */
module ServerMessages {
  import opened Wrappers

  /** A Python number: `int` and `float` stay distinct, as `type(x)` can tell them apart. */
  datatype Num = IntN(i: int) | FloatN(r: real)

  function ToReal(n: Num): real
  {
    match n
    case IntN(i) => i as real
    case FloatN(r) => r
  }

  /** A GUI input's value. */
  datatype Value = Flag(b: bool) | Text(s: string) | Number(n: Num) | Vector(xs: seq<Num>)

  /** A user-supplied callback, by identity. */
  type Callback = int

  /** Where a GUI element is placed: under folder labels (older API) or in a container. */
  datatype Placement = FolderLabels(labels: seq<string>) | Container(containerId: string)

  /** `int | Literal[False]` of a notification's `auto_close`. */
  datatype AutoClose = Never | AfterMs(ms: int)

  datatype Message =
    | GuiAddInput(kind: string, order: real, id: string, labelText: string, placement: Placement,
                  hint: Option<string>, initialValue: Value)
    | GuiSetValue(id: string, value: Value, excludedSelfClient: Option<int>)
    | GuiSetDisabled(id: string, disabled: bool)
    | GuiSetVisible(id: string, visible: bool)
    | GuiRemove(id: string)
    | GuiAddDropdown(order: real, id: string, labelText: string, placement: Placement, hint: Option<string>,
                     initialOption: string, options: seq<string>)
    | GuiAddSlider(order: real, id: string, labelText: string, placement: Placement, hint: Option<string>,
                   min: Num, max: Num, step: Num, initialValue: Value, precision: nat)
    | GuiAddButtonGroup(order: real, id: string, labelText: string, placement: Placement, hint: Option<string>,
                        initialOption: string, options: seq<string>)
    | GuiAddTabGroup(order: real, id: string, containerId: string, tabLabels: seq<string>,
                     tabIconsBase64: seq<Option<string>>, tabContainerIds: seq<string>)
    | GuiRemoveContainerChildren(containerId: string)
    | Gui3D(order: real, name: string, containerId: string)
    | UpdateNotification(id: string, title: string, body: string, loading: bool,
                         withCloseButton: bool, autoClose: AutoClose)
    | RemoveNotification(id: string)
    | TransformControlsSet(name: string, wxyz: seq<Num>, position: seq<Num>)
    | ThemeConfiguration(darkMode: bool, colors: Option<seq<string>>)
    | CatmullRomSpline(name: string, positions: seq<seq<real>>, color: int)
    | CubicBezierSpline(name: string, positions: seq<seq<real>>, controlPoints: seq<seq<real>>, color: int)

  /** The messages that add one GUI input (`_GuiAddMessageBase`). */
  predicate IsGuiAdd(m: Message)
  {
    m.GuiAddInput? || m.GuiAddDropdown? || m.GuiAddSlider? || m.GuiAddButtonGroup?
  }

  /** A call made on the user's behalf. */
  datatype Call =
    | UpdateCallback(cb: Callback, handleId: string)   // `cb(handle)`, possibly on a new thread
    | Cleanup(handleId: string)                        // a `cleanup_cb` whose body is not part of this model
    | RemoveNode(name: string)                         // `SceneNodeHandle.remove()`

  /** The destination of `_queue` / `queue_message`, plus the log of calls. */
  class Outbox {
    var queued: seq<Message>
    var calls: seq<Call>

    constructor ()
      ensures queued == [] && calls == []
    {
      queued := [];
      calls := [];
    }

    method Queue(m: Message)
      modifies this
      ensures queued == old(queued) + [m] && calls == old(calls)
    {
      queued := queued + [m];
    }

    method Record(c: Call)
      modifies this
      ensures calls == old(calls) + [c] && queued == old(queued)
    {
      calls := calls + [c];
    }

    /** Each callback in order, with the handle it is called on. */
    method RunCallbacks(cbs: seq<Callback>, handleId: string)
      modifies this
      ensures calls == old(calls) + UpdateCalls(cbs, handleId) && queued == old(queued)
    {
      var i := 0;
      while i < |cbs|
        invariant 0 <= i <= |cbs|
        invariant calls == old(calls) + UpdateCalls(cbs[..i], handleId) && queued == old(queued)
      {
        assert cbs[..i + 1] == cbs[..i] + [cbs[i]];
        UpdateCallsAppend(cbs[..i], cbs[i], handleId);
        calls := calls + [UpdateCallback(cbs[i], handleId)];
        i := i + 1;
      }
      assert cbs[..i] == cbs;
    }
  }

  /** The calls made by running `cbs` on the handle `handleId`. */
  function UpdateCalls(cbs: seq<Callback>, handleId: string): (r: seq<Call>)
    ensures |r| == |cbs| && forall i :: 0 <= i < |cbs| ==> r[i] == UpdateCallback(cbs[i], handleId)
  {
    seq(|cbs|, i requires 0 <= i < |cbs| => UpdateCallback(cbs[i], handleId))
  }

  lemma UpdateCallsAppend(cbs: seq<Callback>, cb: Callback, handleId: string)
    ensures UpdateCalls(cbs + [cb], handleId) == UpdateCalls(cbs, handleId) + [UpdateCallback(cb, handleId)]
  {
  }
}
