/**
 * The older server message API (viser/_message_api.py): colour packing, the step and
 * precision of number inputs, folder nesting, the argument rules of sliders, dropdowns
 * and button groups, and the GUI registry that creates inputs and applies client
 * updates to them. Time and fresh ids are parameters.
 */
module MessageApiLegacy {
  import opened Wrappers
  import opened ServerMessages
  import opened HandleRules
  import opened Gui
  import opened Colors

  // ---------------------------------------------------------------- number inputs

  function Pow10(d: nat): (p: nat)
    ensures p >= 1
  {
    if d == 0 then 1 else 10 * Pow10(d - 1)
  }

  /** Nearest integer with ties to even, as Python's `round` does. */
  function NearestInt(y: real): (n: int)
    ensures y - 0.5 <= n as real <= y + 0.5
  {
    var f := y.Floor;
    var frac := y - f as real;
    if frac < 0.5 then f
    else if frac > 0.5 then f + 1
    else if f % 2 == 0 then f else f + 1
  }

  /** x shifted d decimal places left. */
  function Scaled(x: real, d: nat): real
  {
    x * (Pow10(d) as real)
  }

  /** `round(x, ndigits=d)` on exact reals: off from x by at most half a unit in the d-th decimal. */
  function RoundTo(x: real, d: nat): (r: real)
    ensures Scaled(x, d) - 0.5 <= r * (Pow10(d) as real) <= Scaled(x, d) + 0.5
  {
    var n := NearestInt(Scaled(x, d)) as real;
    var p := Pow10(d) as real;
    assert (n / p) * p == n;
    n / p
  }

  /** Rounding to d digits leaves x alone exactly when x has at most d decimals. */
  lemma RoundToFixes(x: real, d: nat)
    ensures RoundTo(x, d) == x <==> Scaled(x, d).Floor as real == Scaled(x, d)
  {
    DivideEquals(NearestInt(Scaled(x, d)) as real, Pow10(d) as real, x);
    NearestIntFixes(Scaled(x, d));
  }

  lemma DivideEquals(n: real, p: real, x: real)
    requires p > 0.0
    ensures n / p == x <==> n == x * p
  {
  }

  /** Rounding to the nearest integer leaves exactly the integers alone. */
  lemma NearestIntFixes(y: real)
    ensures NearestInt(y) as real == y <==> y.Floor as real == y
  {
  }

  /** The number of decimals `_compute_precision_digits` settles on: the least d with round(x, d) == x, capped at 7. */
  function PrecisionFrom(x: real, d: nat): (r: nat)
    requires d <= 7
    ensures d <= r <= 7
    ensures r < 7 ==> RoundTo(x, r) == x
    ensures forall e :: d <= e < r ==> RoundTo(x, e) != x
    decreases 7 - d
  {
    if RoundTo(x, d) == x || d == 7 then d else PrecisionFrom(x, d + 1)
  }

  function PrecisionDigits(x: real): (r: nat)
    ensures r <= 7
  {
    PrecisionFrom(x, 0)
  }

  /** `_compute_precision_digits`: the loop that tries ever more decimals, up to 7. */
  method ComputePrecisionDigits(x: real) returns (digits: nat)
    ensures digits == PrecisionDigits(x)
  {
    digits := 0;
    while RoundTo(x, digits) != x && digits < 7
      invariant digits <= 7
      invariant PrecisionFrom(x, digits) == PrecisionDigits(x)
      decreases 7 - digits
    {
      digits := digits + 1;
    }
  }

  /** The precision is the least number of decimals of x, when x has at most 6. */
  lemma PrecisionIsLeastDecimals(x: real, d: nat)
    requires d < 7 && Scaled(x, d).Floor as real == Scaled(x, d)
    ensures PrecisionDigits(x) <= d
    ensures Scaled(x, PrecisionDigits(x)).Floor as real == Scaled(x, PrecisionDigits(x))
  {
    RoundToFixes(x, d);
    RoundToFixes(x, PrecisionDigits(x));
  }

  /** The examples that document `_compute_precision_digits`: 100 has no decimals, 12.1 one, 0.007 three. */
  lemma PrecisionOfWholeNumber()
    ensures PrecisionDigits(100.0) == 0
  {
    RoundToFixes(100.0, 0);
  }

  lemma PrecisionOfOneDecimal()
    ensures PrecisionDigits(12.1) == 1
  {
    assert Pow10(0) == 1 && Pow10(1) == 10;
    RoundToFixes(12.1, 0);
    assert Scaled(12.1, 0).Floor == 12;
    assert RoundTo(12.1, 0) != 12.1;
    RoundToFixes(12.1, 1);
    assert Scaled(12.1, 1) == 121.0;
    assert RoundTo(12.1, 1) == 12.1;
    assert PrecisionDigits(12.1) == PrecisionFrom(12.1, 1);
  }

  lemma PrecisionOfThreeDecimals()
    ensures PrecisionDigits(0.007) == 3
  {
    assert PrecisionFrom(0.007, 0) == PrecisionFrom(0.007, 1) by {
      assert Pow10(0) == 1;
      RoundToFixes(0.007, 0);
    }
    assert PrecisionFrom(0.007, 1) == PrecisionFrom(0.007, 2) by {
      assert Pow10(1) == 10;
      RoundToFixes(0.007, 1);
    }
    assert PrecisionFrom(0.007, 2) == PrecisionFrom(0.007, 3) by {
      assert Pow10(2) == 100;
      RoundToFixes(0.007, 2);
    }
    assert PrecisionFrom(0.007, 3) == 3 by {
      assert Pow10(3) == 1000;
      assert Scaled(0.007, 3) == 7.0;
      assert Scaled(0.007, 3).Floor == 7;
      RoundToFixes(0.007, 3);
    }
  }

  /** `_compute_step`: 1 without a number, otherwise one unit of its last decimal. */
  method ComputeStep(x: Option<real>) returns (step: real)
    ensures x.None? ==> step == 1.0
    ensures x.Some? ==> step * Pow10(PrecisionDigits(x.value)) as real == 1.0
  {
    if x.None? {
      return 1.0;
    }
    var digits := ComputePrecisionDigits(x.value);
    step := 1.0 / Pow10(digits) as real;
    UnitTimesPow10(digits);
  }

  lemma UnitTimesPow10(d: nat)
    ensures (1.0 / Pow10(d) as real) * Pow10(d) as real == 1.0
  {
  }

  /** Python `a - b` on numbers: an int only when both are ints. */
  function Sub(a: Num, b: Num): (r: Num)
    ensures ToReal(r) == ToReal(a) - ToReal(b)
  {
    if a.IntN? && b.IntN? then IntN(a.i - b.i) else FloatN(ToReal(a) - ToReal(b))
  }

  datatype SliderConfig = SliderConfig(step: Num, initialValue: Num)

  /**
   * The argument rules of `add_gui_slider`: max ≥ min, the step clamped to the range
   * (the clamped step takes the type of max − min), min ≤ initial ≤ max, and an int
   * initial value made a float when min, max or the clamped step is a float.
   */
  function SliderArgs(min: Num, max: Num, step: Num, initial: Num): (r: Result<SliderConfig>)
    ensures r.Ok? <==> ToReal(min) <= ToReal(max) && ToReal(min) <= ToReal(initial) <= ToReal(max)
    ensures r.Ok? ==>
              && ToReal(r.value.step) == (if ToReal(step) > ToReal(max) - ToReal(min) then ToReal(max) - ToReal(min) else ToReal(step))
              && ToReal(r.value.initialValue) == ToReal(initial)
              && (r.value.initialValue.IntN? <==> initial.IntN? && min.IntN? && max.IntN? && r.value.step.IntN?)
  {
    if ToReal(max) < ToReal(min) then Err("max must be at least min")
    else
      var clamped := if ToReal(step) > ToReal(max) - ToReal(min) then Sub(max, min) else step;
      if !(ToReal(max) >= ToReal(initial) >= ToReal(min)) then Err("initial value out of range")
      else
        var init := if initial.IntN? && (min.FloatN? || max.FloatN? || clamped.FloatN?) then FloatN(initial.i as real) else initial;
        Ok(SliderConfig(clamped, init))
  }

  /** `add_gui_dropdown`'s initial value: the given one, else the first option (IndexError when there is none). */
  function DropdownInitial(options: seq<string>, initial: Option<string>): (r: Result<string>)
    ensures initial.Some? ==> r == Ok(initial.value)
    ensures initial.None? ==> (r.Ok? <==> |options| > 0) && (r.Ok? ==> r.value == options[0])
  {
    match initial
    case Some(v) => Ok(v)
    case None => if |options| == 0 then Err("no options") else Ok(options[0])
  }

  /** `add_gui_button_group` always starts at the first option. */
  function ButtonGroupInitial(options: seq<string>): (r: Result<string>)
    ensures r.Ok? <==> |options| > 0
    ensures r.Ok? ==> r.value == options[0]
  {
    if |options| == 0 then Err("no options") else Ok(options[0])
  }

  // ---------------------------------------------------------------- the API object

  /** `MessageApi`: the GUI registry, the folder label stack and the outgoing queue. */
  class MessageApi {
    const registry: GuiRegistry
    const out: Outbox
    var guiFolderLabels: seq<string>

    constructor (registry: GuiRegistry, out: Outbox)
      ensures this.registry == registry && this.out == out && guiFolderLabels == []
    {
      this.registry := registry;
      this.out := out;
      guiFolderLabels := [];
    }

    /** Entering `gui_folder(label)`: the label is pushed. */
    method EnterFolder(labelText: string)
      modifies this
      ensures guiFolderLabels == old(guiFolderLabels) + [labelText]
    {
      guiFolderLabels := guiFolderLabels + [labelText];
    }

    /**
     * Leaving `gui_folder(label)`: the last label is popped and must be `label`. False
     * is the IndexError of an empty stack or the failed assertion after the pop.
     */
    method ExitFolder(labelText: string) returns (ok: bool)
      modifies this
      ensures old(guiFolderLabels) == [] ==> !ok && guiFolderLabels == []
      ensures old(guiFolderLabels) != [] ==>
                && guiFolderLabels == old(guiFolderLabels)[..|old(guiFolderLabels)| - 1]
                && (ok <==> old(guiFolderLabels)[|old(guiFolderLabels)| - 1] == labelText)
    {
      if guiFolderLabels == [] {
        return false;
      }
      var top := guiFolderLabels[|guiFolderLabels| - 1];
      guiFolderLabels := guiFolderLabels[..|guiFolderLabels| - 1];
      ok := top == labelText;
    }

    /**
     * `_create_gui_input`: the add message is queued, the new state is registered under
     * its id with a `cleanup_cb` that unregisters it, non-buttons get a sync callback,
     * and the requested disabled/visible flags go through their setters.
     */
    method CreateGuiInput(initialValue: Value, msg: Message, disabled: bool, visible: bool, isButton: bool, now: real)
      returns (state: GuiHandleState)
      requires IsGuiAdd(msg) && msg.placement.FolderLabels?
      modifies registry, out
      ensures fresh(state) && state.registry == registry && state.api == out
      ensures registry.stateFromId == old(registry.stateFromId)[msg.id := state]
      ensures state.id == msg.id && state.labelText == msg.labelText && state.order == msg.order && state.hint == msg.hint
      ensures state.folderLabels == msg.placement.labels && state.isButton == isButton
      ensures state.value == initialValue && state.initialValue == initialValue && state.typ == KindOf(initialValue)
      ensures state.updateCb == [] && state.updateTimestamp == now
      ensures state.hasCleanupCb && (state.hasSyncCb <==> !isButton)
      ensures state.disabled == disabled && state.visible == visible
      ensures out.queued == old(out.queued) + [msg]
                + (if disabled then [GuiSetDisabled(msg.id, true)] else [])
                + (if visible then [] else [GuiSetVisible(msg.id, false)])
      ensures out.calls == old(out.calls)
    {
      out.Queue(msg);
      state := new GuiHandleState(msg.labelText, out, registry, initialValue, now, msg.placement.labels,
                                  isButton, msg.order, msg.id, msg.hint);
      registry.Register(state);
      ConfigureNewInput(state, disabled, visible, isButton);
    }

    /** The tail of `_create_gui_input`: set the callbacks, then apply `disabled` and `visible` when not the defaults. */
    static method ConfigureNewInput(state: GuiHandleState, disabled: bool, visible: bool, isButton: bool)
      requires !state.disabled && state.visible
      modifies state, state.api
      ensures state.hasCleanupCb && (state.hasSyncCb <==> (old(state.hasSyncCb) || !isButton))
      ensures state.disabled == disabled && state.visible == visible
      ensures state.value == old(state.value) && state.initialValue == old(state.initialValue)
      ensures state.updateCb == old(state.updateCb) && state.updateTimestamp == old(state.updateTimestamp)
      ensures state.api.queued == old(state.api.queued)
                + (if disabled then [GuiSetDisabled(state.id, true)] else [])
                + (if visible then [] else [GuiSetVisible(state.id, false)])
      ensures state.api.calls == old(state.api.calls)
    {
      state.hasCleanupCb := true;
      if !isButton {
        state.hasSyncCb := true;
      }
      if disabled {
        state.SetDisabled(disabled);
      }
      if !visible {
        state.SetVisible(visible);
      }
    }

    /** `add_gui_slider`, with its argument rules applied before anything is sent. */
    method AddGuiSlider(labelText: string, min: Num, max: Num, step: Num, initial: Num, disabled: bool,
                        visible: bool, hint: Option<string>, id: string, now: real)
      returns (r: Option<GuiHandleState>)
      modifies registry, out
      ensures r.None? <==> SliderArgs(min, max, step, initial).Err?
      ensures r.None? ==> out.queued == old(out.queued) && registry.stateFromId == old(registry.stateFromId)
      ensures r.Some? ==>
                && registry.stateFromId == old(registry.stateFromId)[id := r.value]
                && r.value.value == Number(SliderArgs(min, max, step, initial).value.initialValue)
                && !r.value.isButton && r.value.hasSyncCb
      ensures r.Some? ==>
                var args := SliderArgs(min, max, step, initial).value;
                out.queued == old(out.queued)
                  + [GuiAddSlider(now, id, labelText, FolderLabels(guiFolderLabels), hint, min, max, args.step,
                                  Number(args.initialValue), PrecisionDigits(ToReal(args.step)))]
                  + (if disabled then [GuiSetDisabled(id, true)] else [])
                  + (if visible then [] else [GuiSetVisible(id, false)])
    {
      var args := SliderArgs(min, max, step, initial);
      if args.Err? {
        return None;
      }
      var precision := ComputePrecisionDigits(ToReal(args.value.step));
      var msg := GuiAddSlider(now, id, labelText, FolderLabels(guiFolderLabels), hint, min, max,
                              args.value.step, Number(args.value.initialValue), precision);
      var state := CreateGuiInput(Number(args.value.initialValue), msg, disabled, visible, false, now);
      return Some(state);
    }

    /** `add_gui_dropdown`: the initial value defaults to the first option. */
    method AddGuiDropdown(labelText: string, options: seq<string>, initial: Option<string>, disabled: bool,
                          visible: bool, hint: Option<string>, id: string, now: real)
      returns (r: Option<GuiDropdownHandle>)
      modifies registry, out
      ensures r.None? <==> DropdownInitial(options, initial).Err?
      ensures r.None? ==> out.queued == old(out.queued) && registry.stateFromId == old(registry.stateFromId)
      ensures r.Some? ==>
                && r.value.options == options && r.value.Valid()
                && registry.stateFromId == old(registry.stateFromId)[id := r.value.impl]
                && r.value.impl.value == Text(DropdownInitial(options, initial).value)
      ensures r.Some? ==>
                out.queued == old(out.queued)
                  + [GuiAddDropdown(now, id, labelText, FolderLabels(guiFolderLabels), hint,
                                    DropdownInitial(options, initial).value, options)]
                  + (if disabled then [GuiSetDisabled(id, true)] else [])
                  + (if visible then [] else [GuiSetVisible(id, false)])
    {
      var init := DropdownInitial(options, initial);
      if init.Err? {
        return None;
      }
      var msg := GuiAddDropdown(now, id, labelText, FolderLabels(guiFolderLabels), hint, init.value, options);
      var state := CreateGuiInput(Text(init.value), msg, disabled, visible, false, now);
      var handle := new GuiDropdownHandle(state, options);
      return Some(handle);
    }

    /** `add_gui_button_group`: starts at the first option. */
    method AddGuiButtonGroup(labelText: string, options: seq<string>, visible: bool, disabled: bool,
                             hint: Option<string>, id: string, now: real)
      returns (r: Option<GuiButtonGroupHandle>)
      modifies registry, out
      ensures r.None? <==> |options| == 0
      ensures r.None? ==> out.queued == old(out.queued) && registry.stateFromId == old(registry.stateFromId)
      ensures r.Some? ==>
                && registry.stateFromId == old(registry.stateFromId)[id := r.value.impl]
                && r.value.impl.value == Text(options[0])
      ensures r.Some? ==>
                out.queued == old(out.queued)
                  + [GuiAddButtonGroup(now, id, labelText, FolderLabels(guiFolderLabels), hint, options[0], options)]
                  + (if disabled then [GuiSetDisabled(id, true)] else [])
                  + (if visible then [] else [GuiSetVisible(id, false)])
    {
      var init := ButtonGroupInitial(options);
      if init.Err? {
        return None;
      }
      var msg := GuiAddButtonGroup(now, id, labelText, FolderLabels(guiFolderLabels), hint, init.value, options);
      var state := CreateGuiInput(Text(init.value), msg, disabled, visible, false, now);
      var handle := new GuiButtonGroupHandle(state);
      return Some(handle);
    }

    /**
     * `_handle_gui_updates`: an unknown id is ignored; the value is converted to the
     * input's type (a conversion that raises changes nothing); a non-button whose value
     * did not change is ignored; otherwise the value and time are stored, the callbacks
     * run in order, and the sync callback forwards the new value to every client but
     * the sender.
     */
    method HandleGuiUpdates(clientId: int, id: string, v: Value, now: real)
      modifies out, if id in registry.stateFromId then {registry.stateFromId[id]} else {}
      ensures id !in registry.stateFromId ==> out.queued == old(out.queued) && out.calls == old(out.calls)
      ensures id in registry.stateFromId ==>
                var s := registry.stateFromId[id];
                var c := Convert(s.typ, v);
                if c.Err? || (!s.isButton && PyEq(c.value, old(s.value))) then
                  && s.value == old(s.value) && s.updateTimestamp == old(s.updateTimestamp)
                  && out.queued == old(out.queued) && out.calls == old(out.calls)
                else
                  && s.value == c.value && s.updateTimestamp == now
                  && out.calls == old(out.calls) + UpdateCalls(s.updateCb, id)
                  && out.queued == old(out.queued) + (if s.hasSyncCb then [GuiSetValue(id, c.value, Some(clientId))] else [])
      ensures id in registry.stateFromId ==> registry.stateFromId[id].updateCb == old(registry.stateFromId[id].updateCb)
    {
      if id !in registry.stateFromId {
        return;
      }
      var s := registry.stateFromId[id];
      var converted := Convert(s.typ, v);
      if converted.Err? {
        return;
      }
      var c := converted.value;
      if !s.isButton && PyEq(c, s.value) {
        return;
      }
      s.value := c;
      s.updateTimestamp := now;
      out.RunCallbacks(s.updateCb, id);
      if s.hasSyncCb {
        out.Queue(GuiSetValue(id, c, Some(clientId)));
      }
    }

    /**
     * A client repeating an update of a non-button: the second delivery queues and calls
     * nothing, and the input holds the converted value or one equal to it.
     */
    method RepeatedUpdateIsIgnored(clientId: int, id: string, v: Value, now: real, later: real)
      returns (queuedAfterFirst: seq<Message>, callsAfterFirst: seq<Call>)
      requires id in registry.stateFromId && !registry.stateFromId[id].isButton
      modifies out, registry.stateFromId[id]
      ensures out.queued == queuedAfterFirst && out.calls == callsAfterFirst
      ensures Convert(registry.stateFromId[id].typ, v).Ok? ==>
                PyEq(registry.stateFromId[id].value, Convert(registry.stateFromId[id].typ, v).value)
    {
      HandleGuiUpdates(clientId, id, v, now);
      queuedAfterFirst, callsAfterFirst := out.queued, out.calls;
      HandleGuiUpdates(clientId, id, v, later);
    }
  }
}
