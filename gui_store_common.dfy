/**
 * What the two versions of the client's GUI store (src/viser/client/src/ControlPanel/GuiState.tsx
 * and viser/client/src/ControlPanel/GuiState.tsx) have in common: the GUI configs, the
 * id-keyed maps and the container -> member-set index, and the effect of each store
 * action on them. The two stores differ only in their theme record; each is a class
 * in its own module.
 */
module GuiStoreCommon {
  import opened Wrappers
  import opened Text

  /** A `GuiAdd*` message as stored: its type tag, id, container and kind-specific properties. */
  datatype GuiConfig = GuiConfig(typeTag: string, id: string, containerId: string, props: map<string, string>)

  datatype GuiModal = GuiModal(id: string, title: string)

  datatype GuiValue = BoolValue(b: bool) | NumberValue(x: real) | TextValue(s: string) | VectorValue(v: seq<real>)

  /** `{ visible?: boolean; disabled?: boolean }`. */
  datatype Attributes = Attributes(visible: Option<bool>, disabled: Option<bool>)

  /** The four id-keyed parts of the store that `resetGui` clears. */
  datatype Registry = Registry(
    guiIdSetFromContainerId: map<string, set<string>>,
    guiConfigFromId: map<string, GuiConfig>,
    guiValueFromId: map<string, GuiValue>,
    guiAttributeFromId: map<string, Attributes>)

  /** `isGuiConfig`: a message is a GUI config when its type starts with "GuiAdd". */
  predicate IsGuiConfig(typeTag: string)
  {
    StartsWith(typeTag, "GuiAdd")
  }

  lemma IsGuiConfigExamples()
    ensures IsGuiConfig("GuiAddSliderMessage") && IsGuiConfig("GuiAddMarkdownMessage")
    ensures !IsGuiConfig("GuiModalMessage") && !IsGuiConfig("GuiRemoveMessage") && !IsGuiConfig("Gui")
  {
    assert "GuiAddSliderMessage"[..6] == "GuiAdd";
    assert "GuiAddMarkdownMessage"[..6] == "GuiAdd";
    assert "GuiModalMessage"[3] != "GuiAdd"[3];
    assert "GuiRemoveMessage"[3] != "GuiAdd"[3];
  }

  /** Every stored config sits under its own id and is a member of its own container's set. */
  predicate Indexed(r: Registry)
  {
    forall id :: id in r.guiConfigFromId ==>
      r.guiConfigFromId[id].id == id &&
      r.guiConfigFromId[id].containerId in r.guiIdSetFromContainerId &&
      id in r.guiIdSetFromContainerId[r.guiConfigFromId[id].containerId]
  }

  function EmptyRegistry(): Registry
  {
    Registry(map[], map[], map[], map[])
  }

  /** The member set of a container, the empty set when it has none yet (`new Set(undefined)`). */
  function MembersOf(sets: map<string, set<string>>, containerId: string): set<string>
  {
    if containerId in sets then sets[containerId] else {}
  }

  /**
   * `addGui(config)` stores the config under its id and adds the id to its container's
   * set (creating the set), keeping every other container's set and every other config.
   */
  function AddGui(r: Registry, config: GuiConfig): (a: Registry)
    ensures a.guiConfigFromId.Keys == r.guiConfigFromId.Keys + {config.id}
    ensures a.guiConfigFromId[config.id] == config
    ensures a.guiIdSetFromContainerId.Keys == r.guiIdSetFromContainerId.Keys + {config.containerId}
    ensures a.guiIdSetFromContainerId[config.containerId] == MembersOf(r.guiIdSetFromContainerId, config.containerId) + {config.id}
    ensures forall c :: c in r.guiIdSetFromContainerId && c != config.containerId ==> a.guiIdSetFromContainerId[c] == r.guiIdSetFromContainerId[c]
    ensures forall id :: id in r.guiConfigFromId && id != config.id ==> a.guiConfigFromId[id] == r.guiConfigFromId[id]
    ensures a.guiValueFromId == r.guiValueFromId && a.guiAttributeFromId == r.guiAttributeFromId
  {
    r.(guiConfigFromId := r.guiConfigFromId[config.id := config],
       guiIdSetFromContainerId := r.guiIdSetFromContainerId[config.containerId := MembersOf(r.guiIdSetFromContainerId, config.containerId) + {config.id}])
  }

  /**
   * `removeGui(id)`: dereferences the stored config and its container's set, so both must
   * exist. The id leaves the three id-keyed maps, the config's own id leaves its
   * container's set, and nothing else changes.
   */
  function RemoveGui(r: Registry, id: string): (d: Registry)
    requires id in r.guiConfigFromId && r.guiConfigFromId[id].containerId in r.guiIdSetFromContainerId
    ensures var c := r.guiConfigFromId[id].containerId;
      id !in d.guiConfigFromId && id !in d.guiValueFromId && id !in d.guiAttributeFromId &&
      d.guiIdSetFromContainerId.Keys == r.guiIdSetFromContainerId.Keys &&
      d.guiIdSetFromContainerId[c] == r.guiIdSetFromContainerId[c] - {r.guiConfigFromId[id].id} &&
      (forall o :: o in r.guiIdSetFromContainerId && o != c ==> d.guiIdSetFromContainerId[o] == r.guiIdSetFromContainerId[o]) &&
      (forall k :: k in r.guiConfigFromId && k != id ==> k in d.guiConfigFromId && d.guiConfigFromId[k] == r.guiConfigFromId[k])
  {
    var config := r.guiConfigFromId[id];
    Registry(
      r.guiIdSetFromContainerId[config.containerId := r.guiIdSetFromContainerId[config.containerId] - {config.id}],
      r.guiConfigFromId - {id},
      r.guiValueFromId - {id},
      r.guiAttributeFromId - {id})
  }

  /** `setGuiValue` writes the value map only, whether or not a config exists for the id. */
  function SetGuiValue(r: Registry, id: string, value: GuiValue): (s: Registry)
    ensures s.guiValueFromId.Keys == r.guiValueFromId.Keys + {id} && s.guiValueFromId[id] == value
    ensures forall k :: k in r.guiValueFromId && k != id ==> s.guiValueFromId[k] == r.guiValueFromId[k]
    ensures s.guiConfigFromId == r.guiConfigFromId
    ensures s.guiIdSetFromContainerId == r.guiIdSetFromContainerId
    ensures s.guiAttributeFromId == r.guiAttributeFromId
  {
    r.(guiValueFromId := r.guiValueFromId[id := value])
  }

  /** `{...old, visible}`: the spread keeps an existing `disabled`. */
  function WithVisible(old_: Option<Attributes>, visible: bool): Attributes
  {
    match old_
    case None => Attributes(Some(visible), None)
    case Some(a) => a.(visible := Some(visible))
  }

  /** `{...old, disabled}`: the spread keeps an existing `visible`. */
  function WithDisabled(old_: Option<Attributes>, disabled: bool): Attributes
  {
    match old_
    case None => Attributes(None, Some(disabled))
    case Some(a) => a.(disabled := Some(disabled))
  }

  function Lookup<K, V>(m: map<K, V>, k: K): Option<V>
  {
    if k in m then Some(m[k]) else None
  }

  /** The visible setter keeps `disabled`, and other ids' attributes. */
  function SetGuiVisible(r: Registry, id: string, visible: bool): (s: Registry)
    ensures id in s.guiAttributeFromId && s.guiAttributeFromId[id].visible == Some(visible)
    ensures s.guiAttributeFromId[id].disabled == (if id in r.guiAttributeFromId then r.guiAttributeFromId[id].disabled else None)
    ensures s.guiAttributeFromId.Keys == r.guiAttributeFromId.Keys + {id}
    ensures forall k :: k in r.guiAttributeFromId && k != id ==> s.guiAttributeFromId[k] == r.guiAttributeFromId[k]
    ensures s.(guiAttributeFromId := r.guiAttributeFromId) == r
  {
    r.(guiAttributeFromId := r.guiAttributeFromId[id := WithVisible(Lookup(r.guiAttributeFromId, id), visible)])
  }

  /** The disabled setter keeps `visible`, and other ids' attributes. */
  function SetGuiDisabled(r: Registry, id: string, disabled: bool): (s: Registry)
    ensures id in s.guiAttributeFromId && s.guiAttributeFromId[id].disabled == Some(disabled)
    ensures s.guiAttributeFromId[id].visible == (if id in r.guiAttributeFromId then r.guiAttributeFromId[id].visible else None)
    ensures s.guiAttributeFromId.Keys == r.guiAttributeFromId.Keys + {id}
    ensures forall k :: k in r.guiAttributeFromId && k != id ==> s.guiAttributeFromId[k] == r.guiAttributeFromId[k]
    ensures s.(guiAttributeFromId := r.guiAttributeFromId) == r
  {
    r.(guiAttributeFromId := r.guiAttributeFromId[id := WithDisabled(Lookup(r.guiAttributeFromId, id), disabled)])
  }

  /** `modals.filter((m) => m.id !== id)`. */
  function RemoveModal(modals: seq<GuiModal>, id: string): (r: seq<GuiModal>)
    ensures |r| <= |modals|
    ensures forall k :: 0 <= k < |r| ==> r[k].id != id
  {
    if modals == [] then []
    else (if modals[0].id != id then [modals[0]] else []) + RemoveModal(modals[1..], id)
  }

  // ---------------------------------------------------------------------------
  // Properties.

  /** Each action keeps every stored config indexed under its own container. */
  lemma {:induction false} ActionsKeepIndexed(r: Registry, config: GuiConfig, id: string, value: GuiValue, flag: bool)
    requires Indexed(r)
    ensures Indexed(AddGui(r, config))
    ensures id in r.guiConfigFromId ==> Indexed(RemoveGui(r, id))
    ensures Indexed(SetGuiValue(r, id, value)) && Indexed(SetGuiVisible(r, id, flag)) && Indexed(SetGuiDisabled(r, id, flag))
    ensures Indexed(EmptyRegistry())
  {
    AddGuiKeepsIndexed(r, config);
    if id in r.guiConfigFromId {
      RemoveGuiKeepsIndexed(r, id);
    }
  }

  lemma AddGuiKeepsIndexed(r: Registry, config: GuiConfig)
    requires Indexed(r)
    ensures Indexed(AddGui(r, config))
  {
    var a := AddGui(r, config);
    forall k | k in a.guiConfigFromId
      ensures a.guiConfigFromId[k].id == k && a.guiConfigFromId[k].containerId in a.guiIdSetFromContainerId
      ensures k in a.guiIdSetFromContainerId[a.guiConfigFromId[k].containerId]
    {
      if k != config.id {
        assert r.guiConfigFromId[k].id == k;
      }
    }
  }

  lemma RemoveGuiKeepsIndexed(r: Registry, id: string)
    requires Indexed(r) && id in r.guiConfigFromId
    ensures Indexed(RemoveGui(r, id))
  {
    var d := RemoveGui(r, id);
    forall k | k in d.guiConfigFromId
      ensures d.guiConfigFromId[k].containerId in d.guiIdSetFromContainerId
      ensures k in d.guiIdSetFromContainerId[d.guiConfigFromId[k].containerId]
    {
      assert k != id && d.guiConfigFromId[k] == r.guiConfigFromId[k];
      assert r.guiConfigFromId[id].id == id;
    }
  }

  /**
   * `removeGui` deletes the id from the three id-keyed maps and from its container's
   * set; nothing else in the registry changes.
   */
  lemma RemoveGuiSpec(r: Registry, id: string)
    requires Indexed(r) && id in r.guiConfigFromId
    ensures var d := RemoveGui(r, id); var c := r.guiConfigFromId[id].containerId;
      id !in d.guiConfigFromId && id !in d.guiValueFromId && id !in d.guiAttributeFromId &&
      id !in d.guiIdSetFromContainerId[c] &&
      d.guiIdSetFromContainerId[c] == r.guiIdSetFromContainerId[c] - {id} &&
      d.guiIdSetFromContainerId.Keys == r.guiIdSetFromContainerId.Keys &&
      (forall o :: o in r.guiIdSetFromContainerId && o != c ==> d.guiIdSetFromContainerId[o] == r.guiIdSetFromContainerId[o]) &&
      (forall k :: k in r.guiConfigFromId && k != id ==> k in d.guiConfigFromId && d.guiConfigFromId[k] == r.guiConfigFromId[k])
  {
  }

  /**
   * Membership in exactly one container is not guaranteed: adding an id again under a
   * different container leaves it in the old container's set as well.
   */
  lemma ReAddLeavesStaleMembership(r: Registry, config: GuiConfig, newContainer: string)
    requires newContainer != config.containerId
    ensures var twice := AddGui(AddGui(r, config), config.(containerId := newContainer));
      config.id in twice.guiIdSetFromContainerId[config.containerId] &&
      config.id in twice.guiIdSetFromContainerId[newContainer] &&
      (Indexed(r) ==> Indexed(twice))
  {
    var once := AddGui(r, config);
    var twice := AddGui(once, config.(containerId := newContainer));
    if Indexed(r) {
      AddGuiKeepsIndexed(r, config);
      AddGuiKeepsIndexed(once, config.(containerId := newContainer));
    }
  }

  /** Removing a modal drops exactly the modals with that id. */
  lemma {:induction false} RemoveModalMembers(modals: seq<GuiModal>, id: string)
    ensures forall m :: m in RemoveModal(modals, id) <==> m in modals && m.id != id
    ensures |RemoveModal(modals, id)| <= |modals|
    decreases |modals|
  {
    if modals != [] {
      RemoveModalMembers(modals[1..], id);
      assert forall m :: m in modals <==> m == modals[0] || m in modals[1..];
    }
  }

  /** Removal keeps the remaining modals in order: it distributes over concatenation. */
  lemma {:induction false} RemoveModalKeepsOrder(a: seq<GuiModal>, b: seq<GuiModal>, id: string)
    ensures RemoveModal(a + b, id) == RemoveModal(a, id) + RemoveModal(b, id)
    decreases |a|
  {
    if a == [] {
      assert a + b == b;
    } else {
      assert (a + b)[0] == a[0];
      assert (a + b)[1..] == a[1..] + b;
      RemoveModalKeepsOrder(a[1..], b, id);
    }
  }

  /** A modal added at the end and then removed by its id leaves the others as they were, when the id was unused. */
  lemma {:induction false} AddThenRemoveModal(modals: seq<GuiModal>, m: GuiModal)
    requires forall k :: 0 <= k < |modals| ==> modals[k].id != m.id
    ensures RemoveModal(modals + [m], m.id) == modals
    decreases |modals|
  {
    RemoveModalKeepsOrder(modals, [m], m.id);
    RemoveModalUnused(modals, m.id);
    assert RemoveModal([m], m.id) == [] by {
      assert [m][1..] == [];
    }
  }

  lemma {:induction false} RemoveModalUnused(modals: seq<GuiModal>, id: string)
    requires forall k :: 0 <= k < |modals| ==> modals[k].id != id
    ensures RemoveModal(modals, id) == modals
    decreases |modals|
  {
    if modals != [] {
      RemoveModalUnused(modals[1..], id);
    }
  }
}
