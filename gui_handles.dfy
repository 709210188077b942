/**
 * GUI handles of the container-based server API (viser/_gui_handles.py): the shared
 * handle state and its setters, button groups, dropdowns, tab groups with their three
 * parallel lists, folder and tab contexts that redirect where new elements go, and
 * markdown handles. The GUI API object is reduced to what these handles use of it:
 * the current container id and the message queue.
 */
module GuiHandles {
  import opened Wrappers
  import opened ServerMessages
  import opened HandleRules

  /** The part of the GUI API the handles touch: `_get_container_id`/`_set_container_id` and `_get_api()._queue`. */
  class GuiApi {
    var containerId: string
    const api: Outbox

    constructor (containerId: string, api: Outbox)
      ensures this.containerId == containerId && this.api == api
    {
      this.containerId := containerId;
      this.api := api;
    }
  }

  /** `_GuiHandleState`: everything a handle knows about one input. */
  class GuiHandleState {
    const labelText: string
    const typ: Kind
    const container: GuiApi
    var value: Value
    var updateTimestamp: real
    const containerId: string
    var updateCb: seq<Callback>
    const isButton: bool
    var hasSyncCb: bool
    var hasCleanupCb: bool
    var disabled: bool
    var visible: bool
    const order: real
    const id: string
    var initialValue: Value
    const hint: Option<string>

    constructor (labelText: string, container: GuiApi, initialValue: Value, now: real, containerId: string,
                 isButton: bool, order: real, id: string, hint: Option<string>)
      ensures this.labelText == labelText && this.container == container
      ensures typ == KindOf(initialValue) && value == initialValue && this.initialValue == initialValue
      ensures updateTimestamp == now && this.containerId == containerId && updateCb == []
      ensures this.isButton == isButton && !hasSyncCb && !hasCleanupCb
      ensures !disabled && visible
      ensures this.order == order && this.id == id && this.hint == hint
    {
      this.labelText := labelText;
      this.typ := KindOf(initialValue);
      this.container := container;
      this.value := initialValue;
      this.updateTimestamp := now;
      this.containerId := containerId;
      this.updateCb := [];
      this.isButton := isButton;
      this.hasSyncCb := false;
      this.hasCleanupCb := false;
      this.disabled := false;
      this.visible := true;
      this.order := order;
      this.id := id;
      this.initialValue := initialValue;
      this.hint := hint;
    }

    /**
     * The `value` setter. An array is turned into a tuple of floats (the dimension
     * assertion can fail: nothing changes); a non-button queues the value; the value is
     * converted to the current value's type (the conversion can raise: the queued
     * message stays, nothing else changes), stored and stamped; every update callback
     * is started. `ok` is false when the setter raises.
     */
    method SetValue(x: Assigned, now: real) returns (ok: bool)
      modifies this, container.api
      ensures ok <==> Assignment(x).Ok? && Convert(KindOf(old(value)), Assignment(x).value).Ok?
      ensures Assignment(x).Err? ==> container.api.queued == old(container.api.queued)
      ensures Assignment(x).Ok? ==>
                container.api.queued == old(container.api.queued) + (if isButton then [] else [GuiSetValue(id, Assignment(x).value, None)])
      ensures !ok ==> value == old(value) && updateTimestamp == old(updateTimestamp) && container.api.calls == old(container.api.calls)
      ensures ok ==>
                && value == Convert(KindOf(old(value)), Assignment(x).value).value
                && updateTimestamp == now
                && container.api.calls == old(container.api.calls) + UpdateCalls(updateCb, id)
      ensures updateCb == old(updateCb) && disabled == old(disabled) && visible == old(visible)
      ensures initialValue == old(initialValue)
    {
      var incoming := Assignment(x);
      if incoming.Err? {
        return false;
      }
      var v := incoming.value;
      if !isButton {
        container.api.Queue(GuiSetValue(id, v, None));
      }
      var converted := Convert(KindOf(value), v);
      if converted.Err? {
        return false;
      }
      value := converted.value;
      updateTimestamp := now;
      container.api.RunCallbacks(updateCb, id);
      return true;
    }

    /** The `disabled` setter: nothing when unchanged, otherwise one message and the new field. */
    method SetDisabled(d: bool)
      modifies this, container.api
      ensures disabled == d
      ensures container.api.queued == old(container.api.queued) + (if d == old(disabled) then [] else [GuiSetDisabled(id, d)])
      ensures container.api.calls == old(container.api.calls) && value == old(value) && visible == old(visible)
    {
      if d == disabled {
        return;
      }
      container.api.Queue(GuiSetDisabled(id, d));
      disabled := d;
    }

    /** The `visible` setter: nothing when unchanged, otherwise one message and the new field. */
    method SetVisible(vis: bool)
      modifies this, container.api
      ensures visible == vis
      ensures container.api.queued == old(container.api.queued) + (if vis == old(visible) then [] else [GuiSetVisible(id, vis)])
      ensures container.api.calls == old(container.api.calls) && value == old(value) && disabled == old(disabled)
    {
      if vis == visible {
        return;
      }
      container.api.Queue(GuiSetVisible(id, vis));
      visible := vis;
    }

    /** `remove`: the removal message first; false is the failed assertion on a missing `cleanup_cb`. */
    method Remove() returns (ok: bool)
      modifies container.api
      ensures ok == hasCleanupCb
      ensures container.api.queued == old(container.api.queued) + [GuiRemove(id)]
      ensures container.api.calls == old(container.api.calls) + (if ok then [Cleanup(id)] else [])
    {
      container.api.Queue(GuiRemove(id));
      if !hasCleanupCb {
        return false;
      }
      container.api.Record(Cleanup(id));
      return true;
    }

    /** `on_update` / `on_click`: the function is appended and handed back. */
    method AddCallback(f: Callback) returns (g: Callback)
      modifies this
      ensures g == f && updateCb == old(updateCb) + [f]
      ensures value == old(value) && disabled == old(disabled) && visible == old(visible)
    {
      updateCb := updateCb + [f];
      return f;
    }
  }

  /** `GuiButtonGroupHandle`: a group of buttons that cannot be disabled. */
  class GuiButtonGroupHandle {
    const impl: GuiHandleState

    constructor (impl: GuiHandleState)
      ensures this.impl == impl
    {
      this.impl := impl;
    }

    /** The `disabled` getter ignores the shared state. */
    function Disabled(): bool
    {
      false
    }

    /** The `disabled` setter only asserts; false is the failed assertion for `true`. */
    method SetDisabled(d: bool) returns (ok: bool)
      ensures ok <==> !d
    {
      ok := !d;
    }
  }

  /** `GuiDropdownHandle`: a string input whose options can be replaced. */
  class GuiDropdownHandle {
    const impl: GuiHandleState
    var options: seq<string>

    constructor (impl: GuiHandleState, options: seq<string>)
      ensures this.impl == impl && this.options == options
    {
      this.impl := impl;
      this.options := options;
    }

    predicate Valid()
      reads this, impl
    {
      impl.value.Text? && impl.initialValue.Text? && !impl.isButton
    }

    /**
     * The `options` setter: the options are replaced, `initial_value` is reset to the
     * first option when it is not one of them, the dropdown is re-sent whole into its
     * container, and `value` is assigned the first option when it is not one of them.
     * False is the IndexError of an empty option list, after the options were stored.
     */
    method SetOptions(opts: seq<string>, now: real) returns (ok: bool)
      requires Valid()
      modifies this, impl, impl.container.api
      ensures options == opts && Valid()
      ensures ok <==> |opts| > 0
      ensures !ok ==> impl.container.api.queued == old(impl.container.api.queued)
                      && impl.value == old(impl.value) && impl.initialValue == old(impl.initialValue)
      ensures ok ==>
                && impl.initialValue == Text(Reconciled(old(impl.initialValue.s), opts).value)
                && impl.value == Text(Reconciled(old(impl.value.s), opts).value)
                && impl.container.api.queued == old(impl.container.api.queued)
                     + [GuiAddDropdown(impl.order, impl.id, impl.labelText, Container(impl.containerId),
                                       impl.hint, impl.initialValue.s, opts)]
                     + (if old(impl.value.s) in opts then [] else [GuiSetValue(impl.id, Text(opts[0]), None)])
      ensures !ok || old(impl.value.s) in opts ==>
                impl.container.api.calls == old(impl.container.api.calls) && impl.updateTimestamp == old(impl.updateTimestamp)
      ensures ok && old(impl.value.s) !in opts ==>
                impl.container.api.calls == old(impl.container.api.calls) + UpdateCalls(impl.updateCb, impl.id) && impl.updateTimestamp == now
    {
      options := opts;
      var initial := Reconciled(impl.initialValue.s, opts);
      if initial.None? {
        return false;
      }
      impl.initialValue := Text(initial.value);
      impl.container.api.Queue(GuiAddDropdown(impl.order, impl.id, impl.labelText, Container(impl.containerId),
                                              impl.hint, initial.value, opts));
      if impl.value.s !in opts {
        var _ := impl.SetValue(Plain(Text(opts[0])), now);
      }
      return true;
    }
  }

  /** The three lists of a tab group: labels, base64 icons and the tabs' container ids. */
  datatype Tabs = Tabs(labels: seq<string>, icons: seq<Option<string>>, containerIds: seq<string>)

  predicate Parallel(t: Tabs)
  {
    |t.labels| == |t.icons| == |t.containerIds|
  }

  /** `add_tab`: one entry appended to each list. */
  function WithTab(t: Tabs, labelText: string, icon: Option<string>, id: string): (r: Tabs)
    ensures Parallel(t) ==> Parallel(r)
    ensures |r.labels| == |t.labels| + 1 && r.labels[..|t.labels|] == t.labels && r.labels[|t.labels|] == labelText
    ensures |r.icons| == |t.icons| + 1 && r.icons[..|t.icons|] == t.icons && r.icons[|t.icons|] == icon
    ensures |r.containerIds| == |t.containerIds| + 1 && r.containerIds[..|t.containerIds|] == t.containerIds
            && r.containerIds[|t.containerIds|] == id
  {
    Tabs(t.labels + [labelText], t.icons + [icon], t.containerIds + [id])
  }

  /** `list.index`: the first position of `x`, or `None` for its ValueError. */
  function IndexOf(xs: seq<string>, x: string): (r: Option<nat>)
    ensures r.Some? <==> x in xs
    ensures r.Some? ==> r.value < |xs| && xs[r.value] == x && x !in xs[..r.value]
  {
    if |xs| == 0 then None
    else if xs[0] == x then Some(0)
    else
      var rest := IndexOf(xs[1..], x);
      assert xs == [xs[0]] + xs[1..];
      if rest.None? then None else
        assert xs[..rest.value + 1] == [xs[0]] + xs[1..][..rest.value];
        Some(rest.value + 1)
  }

  function RemoveAt<T>(xs: seq<T>, i: nat): (r: seq<T>)
    requires i < |xs|
    ensures |r| == |xs| - 1
  {
    xs[..i] + xs[i + 1..]
  }

  /**
   * `GuiTabHandle.remove`: the same index popped from all three lists; an id that is
   * not a tab of the group is the ValueError of `list.index`.
   */
  function WithoutTab(t: Tabs, id: string): (r: Result<Tabs>)
    requires Parallel(t)
    ensures r.Ok? <==> id in t.containerIds
    ensures r.Ok? ==> Parallel(r.value) && |r.value.containerIds| == |t.containerIds| - 1
  {
    match IndexOf(t.containerIds, id)
    case None => Err("tab already removed")
    case Some(i) => Ok(Tabs(RemoveAt(t.labels, i), RemoveAt(t.icons, i), RemoveAt(t.containerIds, i)))
  }

  /** Removing the tab just added, with an id new to the group, gives the group back. */
  lemma RemoveAddedTab(t: Tabs, labelText: string, icon: Option<string>, id: string)
    requires Parallel(t) && id !in t.containerIds
    ensures WithoutTab(WithTab(t, labelText, icon, id), id) == Ok(t)
  {
    var a := WithTab(t, labelText, icon, id);
    var n := |t.containerIds|;
    assert IndexOf(a.containerIds, id) == Some(n) by {
      assert a.containerIds[..n] == t.containerIds;
    }
    assert RemoveAt(a.labels, n) == t.labels;
    assert RemoveAt(a.icons, n) == t.icons;
    assert RemoveAt(a.containerIds, n) == t.containerIds;
  }

  /** Removal keeps every other tab, in order, and with unique ids forgets the removed one. */
  lemma RemoveTabKeepsOthers(t: Tabs, id: string)
    requires Parallel(t) && id in t.containerIds
    requires forall i, j :: 0 <= i < j < |t.containerIds| ==> t.containerIds[i] != t.containerIds[j]
    ensures var r := WithoutTab(t, id).value;
      && id !in r.containerIds
      && (forall x :: x in t.containerIds && x != id ==> x in r.containerIds)
      && (forall x :: x in r.containerIds ==> x in t.containerIds)
  {
    var i := IndexOf(t.containerIds, id).value;
    var r := WithoutTab(t, id).value;
    assert r.containerIds == t.containerIds[..i] + t.containerIds[i + 1..];
    forall k | 0 <= k < |r.containerIds|
      ensures r.containerIds[k] != id
    {
      if k < i {
        assert r.containerIds[k] == t.containerIds[k];
      } else {
        assert r.containerIds[k] == t.containerIds[k + 1];
      }
    }
    forall x | x in t.containerIds && x != id
      ensures x in r.containerIds
    {
      var k :| 0 <= k < |t.containerIds| && t.containerIds[k] == x;
      if k < i {
        assert r.containerIds[k] == x;
      } else {
        assert r.containerIds[k - 1] == x;
      }
    }
  }

  /** `GuiTabGroupHandle`: the three lists and the container the group sits in. */
  class GuiTabGroupHandle {
    const tabGroupId: string
    var labels: seq<string>
    var iconsBase64: seq<Option<string>>
    var tabContainerIds: seq<string>
    const guiApi: GuiApi
    const containerId: string

    constructor (tabGroupId: string, guiApi: GuiApi, containerId: string)
      ensures this.tabGroupId == tabGroupId && this.guiApi == guiApi && this.containerId == containerId
      ensures State() == Tabs([], [], [])
    {
      this.tabGroupId := tabGroupId;
      this.guiApi := guiApi;
      this.containerId := containerId;
      labels := [];
      iconsBase64 := [];
      tabContainerIds := [];
    }

    function State(): Tabs
      reads this
    {
      Tabs(labels, iconsBase64, tabContainerIds)
    }

    /** The message `_sync_with_client` queues: the whole group at time `now`. */
    function SyncMessage(now: real): Message
      reads this
    {
      GuiAddTabGroup(now, tabGroupId, containerId, labels, iconsBase64, tabContainerIds)
    }

    /** `add_tab` with a fresh id `id` and the icon already encoded; the group is re-sent. */
    method AddTab(labelText: string, icon: Option<string>, id: string, now: real) returns (tab: GuiTabHandle)
      modifies this, guiApi.api
      ensures State() == WithTab(old(State()), labelText, icon, id)
      ensures guiApi.api.queued == old(guiApi.api.queued) + [SyncMessage(now)]
      ensures fresh(tab) && tab.parent == this && tab.containerId == id && tab.restore.None?
    {
      labels := labels + [labelText];
      iconsBase64 := iconsBase64 + [icon];
      tabContainerIds := tabContainerIds + [id];
      guiApi.api.Queue(SyncMessage(now));
      tab := new GuiTabHandle(this, id);
    }

    /** `remove`: one removal message for the group; the client drops its tabs. */
    method Remove()
      modifies guiApi.api
      ensures guiApi.api.queued == old(guiApi.api.queued) + [GuiRemove(tabGroupId)]
    {
      guiApi.api.Queue(GuiRemove(tabGroupId));
    }
  }

  /** `GuiTabHandle`: a context that places new elements into one tab. */
  class GuiTabHandle {
    const parent: GuiTabGroupHandle
    const containerId: string
    var restore: Option<string>

    constructor (parent: GuiTabGroupHandle, containerId: string)
      ensures this.parent == parent && this.containerId == containerId && restore.None?
    {
      this.parent := parent;
      this.containerId := containerId;
      restore := None;
    }

    /** `__enter__`: remember the API's container and switch to this tab's. */
    method Enter()
      modifies this, parent.guiApi
      ensures restore == Some(old(parent.guiApi.containerId)) && parent.guiApi.containerId == containerId
    {
      restore := Some(parent.guiApi.containerId);
      parent.guiApi.containerId := containerId;
    }

    /** `__exit__`: put the remembered container back and clear the slot; false is the failed assertion. */
    method Exit() returns (ok: bool)
      modifies this, parent.guiApi
      ensures ok <==> old(restore).Some?
      ensures ok ==> parent.guiApi.containerId == old(restore).value && restore.None?
      ensures !ok ==> parent.guiApi.containerId == old(parent.guiApi.containerId) && restore == old(restore)
    {
      if restore.None? {
        return false;
      }
      parent.guiApi.containerId := restore.value;
      restore := None;
      return true;
    }

    /**
     * `remove`: the tab's contents are cleared, its entries popped from the three lists
     * and the group re-sent. False, with nothing changed, when the tab is already gone.
     */
    method Remove(now: real) returns (ok: bool)
      requires Parallel(parent.State())
      modifies parent, parent.guiApi.api
      ensures ok <==> containerId in old(parent.tabContainerIds)
      ensures !ok ==> parent.State() == old(parent.State()) && parent.guiApi.api.queued == old(parent.guiApi.api.queued)
      ensures ok ==>
                && Ok(parent.State()) == WithoutTab(old(parent.State()), containerId)
                && parent.guiApi.api.queued == old(parent.guiApi.api.queued)
                     + [GuiRemoveContainerChildren(containerId), parent.SyncMessage(now)]
    {
      var removed := WithoutTab(parent.State(), containerId);
      if removed.Err? {
        return false;
      }
      parent.guiApi.api.Queue(GuiRemoveContainerChildren(containerId));
      parent.labels := removed.value.labels;
      parent.iconsBase64 := removed.value.icons;
      parent.tabContainerIds := removed.value.containerIds;
      parent.guiApi.api.Queue(parent.SyncMessage(now));
      return true;
    }
  }

  /** `GuiFolderHandle`: a context that places new elements into a folder. */
  class GuiFolderHandle {
    const guiApi: GuiApi
    const containerId: string
    var restore: Option<string>

    constructor (guiApi: GuiApi, containerId: string)
      ensures this.guiApi == guiApi && this.containerId == containerId && restore.None?
    {
      this.guiApi := guiApi;
      this.containerId := containerId;
      restore := None;
    }

    method Enter()
      modifies this, guiApi
      ensures restore == Some(old(guiApi.containerId)) && guiApi.containerId == containerId
    {
      restore := Some(guiApi.containerId);
      guiApi.containerId := containerId;
    }

    method Exit() returns (ok: bool)
      modifies this, guiApi
      ensures ok <==> old(restore).Some?
      ensures ok ==> guiApi.containerId == old(restore).value && restore.None?
      ensures !ok ==> guiApi.containerId == old(guiApi.containerId) && restore == old(restore)
    {
      if restore.None? {
        return false;
      }
      guiApi.containerId := restore.value;
      restore := None;
      return true;
    }

    method Remove()
      modifies guiApi.api
      ensures guiApi.api.queued == old(guiApi.api.queued) + [GuiRemove(containerId)]
    {
      guiApi.api.Queue(GuiRemove(containerId));
    }
  }

  /** `GuiMarkdownHandle`: visibility kept on the handle itself. */
  class GuiMarkdownHandle {
    const guiApi: GuiApi
    const id: string
    var visible: bool

    constructor (guiApi: GuiApi, id: string, visible: bool)
      ensures this.guiApi == guiApi && this.id == id && this.visible == visible
    {
      this.guiApi := guiApi;
      this.id := id;
      this.visible := visible;
    }

    method SetVisible(vis: bool)
      modifies this, guiApi.api
      ensures visible == vis
      ensures guiApi.api.queued == old(guiApi.api.queued) + (if vis == old(visible) then [] else [GuiSetVisible(id, vis)])
    {
      if vis == visible {
        return;
      }
      guiApi.api.Queue(GuiSetVisible(id, vis));
      visible := vis;
    }

    method Remove()
      modifies guiApi.api
      ensures guiApi.api.queued == old(guiApi.api.queued) + [GuiRemove(id)]
    {
      guiApi.api.Queue(GuiRemove(id));
    }
  }

  /** Entering a folder and then a tab inside it, and leaving both, restores the original container. */
  method NestedContextsRestore(folder: GuiFolderHandle, tab: GuiTabHandle) returns (ok: bool)
    requires folder.guiApi == tab.parent.guiApi && folder != tab.parent as object
    modifies folder, tab, folder.guiApi
    ensures ok && folder.guiApi.containerId == old(folder.guiApi.containerId)
  {
    folder.Enter();
    tab.Enter();
    var inner := tab.Exit();
    var outer := folder.Exit();
    ok := inner && outer;
  }
}
