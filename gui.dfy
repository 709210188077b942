/**
 * GUI handles of the older server API (viser/_gui.py): the state shared by a handle
 * and the message API, its setters that synchronise with clients, callback
 * registration, removal through `cleanup_cb`, button groups and dropdowns.
 * Time is a parameter `now`; callbacks started on threads are recorded in order.
 */
module Gui {
  import opened Wrappers
  import opened ServerMessages
  import opened HandleRules

  /**
   * `MessageApi._gui_handle_state_from_id`. The `cleanup_cb` that the message API
   * installs pops the handle's id from it.
   */
  class GuiRegistry {
    var stateFromId: map<string, GuiHandleState>

    constructor ()
      ensures stateFromId == map[]
    {
      stateFromId := map[];
    }

    method Register(s: GuiHandleState)
      modifies this
      ensures stateFromId == old(stateFromId)[s.id := s]
    {
      stateFromId := stateFromId[s.id := s];
    }

    /** `dict.pop(id)`: false is the KeyError of an id that is not registered. */
    method Pop(id: string) returns (ok: bool)
      modifies this
      ensures ok <==> id in old(stateFromId)
      ensures stateFromId == old(stateFromId) - {id}
    {
      ok := id in stateFromId;
      stateFromId := stateFromId - {id};
    }
  }

  /** `_GuiHandleState`: everything a handle and the message API know about one input. */
  class GuiHandleState {
    const labelText: string
    const typ: Kind
    const api: Outbox
    var value: Value
    var updateTimestamp: real
    const folderLabels: seq<string>
    var updateCb: seq<Callback>
    const isButton: bool
    var hasSyncCb: bool
    /** The registry `cleanup_cb` pops from, and whether `cleanup_cb` is set. */
    const registry: GuiRegistry
    var hasCleanupCb: bool
    var disabled: bool
    var visible: bool
    const order: real
    const id: string
    var initialValue: Value
    const hint: Option<string>

    constructor (labelText: string, api: Outbox, registry: GuiRegistry, initialValue: Value, now: real,
                 folderLabels: seq<string>, isButton: bool, order: real, id: string, hint: Option<string>)
      ensures this.labelText == labelText && this.api == api && this.registry == registry
      ensures typ == KindOf(initialValue) && value == initialValue && this.initialValue == initialValue
      ensures updateTimestamp == now && this.folderLabels == folderLabels && updateCb == []
      ensures this.isButton == isButton && !hasSyncCb && !hasCleanupCb
      ensures !disabled && visible
      ensures this.order == order && this.id == id && this.hint == hint
    {
      this.labelText := labelText;
      this.typ := KindOf(initialValue);
      this.api := api;
      this.value := initialValue;
      this.updateTimestamp := now;
      this.folderLabels := folderLabels;
      this.updateCb := [];
      this.isButton := isButton;
      this.hasSyncCb := false;
      this.registry := registry;
      this.hasCleanupCb := false;
      this.disabled := false;
      this.visible := true;
      this.order := order;
      this.id := id;
      this.initialValue := initialValue;
      this.hint := hint;
    }

    /**
     * The `value` setter. An array is turned into a tuple of floats (the dimension
     * assertion can fail: nothing changes); a non-button queues the value; the value is
     * converted to the current value's type (the conversion can raise: the queued
     * message stays, nothing else changes), stored and stamped; every update callback
     * is started. `ok` is false when the setter raises.
     */
    method SetValue(x: Assigned, now: real) returns (ok: bool)
      modifies this, api
      ensures ok <==> Assignment(x).Ok? && Convert(KindOf(old(value)), Assignment(x).value).Ok?
      ensures Assignment(x).Err? ==> api.queued == old(api.queued)
      ensures Assignment(x).Ok? ==>
                api.queued == old(api.queued) + (if isButton then [] else [GuiSetValue(id, Assignment(x).value, None)])
      ensures !ok ==> value == old(value) && updateTimestamp == old(updateTimestamp) && api.calls == old(api.calls)
      ensures ok ==>
                && value == Convert(KindOf(old(value)), Assignment(x).value).value
                && updateTimestamp == now
                && api.calls == old(api.calls) + UpdateCalls(updateCb, id)
      ensures updateCb == old(updateCb) && disabled == old(disabled) && visible == old(visible)
      ensures initialValue == old(initialValue) && hasCleanupCb == old(hasCleanupCb) && hasSyncCb == old(hasSyncCb)
    {
      var incoming := Assignment(x);
      if incoming.Err? {
        return false;
      }
      var v := incoming.value;
      if !isButton {
        api.Queue(GuiSetValue(id, v, None));
      }
      var converted := Convert(KindOf(value), v);
      if converted.Err? {
        return false;
      }
      value := converted.value;
      updateTimestamp := now;
      api.RunCallbacks(updateCb, id);
      return true;
    }

    /** The `disabled` setter: nothing when unchanged, otherwise one message and the new field. */
    method SetDisabled(d: bool)
      modifies this, api
      ensures disabled == d
      ensures api.queued == old(api.queued) + (if d == old(disabled) then [] else [GuiSetDisabled(id, d)])
      ensures api.calls == old(api.calls) && value == old(value) && visible == old(visible)
      ensures updateCb == old(updateCb) && updateTimestamp == old(updateTimestamp)
      ensures initialValue == old(initialValue) && hasCleanupCb == old(hasCleanupCb) && hasSyncCb == old(hasSyncCb)
    {
      if d == disabled {
        return;
      }
      api.Queue(GuiSetDisabled(id, d));
      disabled := d;
    }

    /** The `visible` setter: nothing when unchanged, otherwise one message and the new field. */
    method SetVisible(vis: bool)
      modifies this, api
      ensures visible == vis
      ensures api.queued == old(api.queued) + (if vis == old(visible) then [] else [GuiSetVisible(id, vis)])
      ensures api.calls == old(api.calls) && value == old(value) && disabled == old(disabled)
      ensures updateCb == old(updateCb) && updateTimestamp == old(updateTimestamp)
      ensures initialValue == old(initialValue) && hasCleanupCb == old(hasCleanupCb) && hasSyncCb == old(hasSyncCb)
    {
      if vis == visible {
        return;
      }
      api.Queue(GuiSetVisible(id, vis));
      visible := vis;
    }

    /**
     * `remove`: the removal message is queued first; false is the failed assertion
     * on a missing `cleanup_cb` or the KeyError of a second removal.
     */
    method Remove() returns (ok: bool)
      modifies api, registry
      ensures api.queued == old(api.queued) + [GuiRemove(id)] && api.calls == old(api.calls)
      ensures ok <==> hasCleanupCb && id in old(registry.stateFromId)
      ensures registry.stateFromId == (if hasCleanupCb then old(registry.stateFromId) - {id} else old(registry.stateFromId))
    {
      api.Queue(GuiRemove(id));
      if !hasCleanupCb {
        return false;
      }
      ok := registry.Pop(id);
    }

    /** `on_update` / `on_click`: the function is appended and handed back. */
    method AddCallback(f: Callback) returns (g: Callback)
      modifies this
      ensures g == f && updateCb == old(updateCb) + [f]
      ensures value == old(value) && disabled == old(disabled) && visible == old(visible)
      ensures updateTimestamp == old(updateTimestamp)
    {
      updateCb := updateCb + [f];
      return f;
    }
  }

  /** `GuiHandle` and `GuiButtonHandle`: `on_update` and `on_click` register a callback. */
  class GuiHandle {
    const impl: GuiHandleState

    constructor (impl: GuiHandleState)
      ensures this.impl == impl
    {
      this.impl := impl;
    }

    method OnUpdate(f: Callback) returns (g: Callback)
      modifies impl
      ensures g == f && impl.updateCb == old(impl.updateCb) + [f]
    {
      g := impl.AddCallback(f);
    }
  }

  /** `GuiButtonGroupHandle`: a group of buttons that cannot be disabled. */
  class GuiButtonGroupHandle {
    const impl: GuiHandleState

    constructor (impl: GuiHandleState)
      ensures this.impl == impl
    {
      this.impl := impl;
    }

    /** The `disabled` getter ignores the shared state. */
    function Disabled(): (d: bool)
    {
      false
    }

    /** The `disabled` setter only asserts; false is the failed assertion for `true`. */
    method SetDisabled(d: bool) returns (ok: bool)
      ensures ok <==> !d
    {
      ok := !d;
    }
  }

  /** `GuiDropdownHandle`: a string input whose options can be replaced. */
  class GuiDropdownHandle {
    const impl: GuiHandleState
    var options: seq<string>

    constructor (impl: GuiHandleState, options: seq<string>)
      ensures this.impl == impl && this.options == options
    {
      this.impl := impl;
      this.options := options;
    }

    /** A dropdown holds strings and is not a button. */
    predicate Valid()
      reads this, impl
    {
      impl.value.Text? && impl.initialValue.Text? && !impl.isButton
    }

    /**
     * The `options` setter: the options are replaced, `initial_value` is reset to the
     * first option when it is not one of them, the dropdown is re-sent whole, and
     * then `value` is incoming the first option when it is not one of them either.
     * False is the IndexError of an empty option list, after the options were stored.
     */
    method SetOptions(opts: seq<string>, now: real) returns (ok: bool)
      requires Valid()
      modifies this, impl, impl.api
      ensures options == opts && Valid()
      ensures ok <==> |opts| > 0
      ensures !ok ==> impl.api.queued == old(impl.api.queued) && impl.value == old(impl.value)
                      && impl.initialValue == old(impl.initialValue)
      ensures ok ==>
                && impl.initialValue == Text(Reconciled(old(impl.initialValue.s), opts).value)
                && impl.value == Text(Reconciled(old(impl.value.s), opts).value)
                && impl.api.queued == old(impl.api.queued)
                     + [GuiAddDropdown(impl.order, impl.id, impl.labelText, FolderLabels(impl.folderLabels),
                                       impl.hint, impl.initialValue.s, opts)]
                     + (if old(impl.value.s) in opts then [] else [GuiSetValue(impl.id, Text(opts[0]), None)])
      ensures !ok || old(impl.value.s) in opts ==>
                impl.api.calls == old(impl.api.calls) && impl.updateTimestamp == old(impl.updateTimestamp)
      ensures ok && old(impl.value.s) !in opts ==>
                impl.api.calls == old(impl.api.calls) + UpdateCalls(impl.updateCb, impl.id) && impl.updateTimestamp == now
    {
      options := opts;
      var initial := Reconciled(impl.initialValue.s, opts);
      if initial.None? {
        return false;
      }
      impl.initialValue := Text(initial.value);
      impl.api.Queue(GuiAddDropdown(impl.order, impl.id, impl.labelText, FolderLabels(impl.folderLabels),
                                    impl.hint, initial.value, opts));
      if impl.value.s !in opts {
        var _ := impl.SetValue(Plain(Text(opts[0])), now);
      }
      return true;
    }
  }
}
