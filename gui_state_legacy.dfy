/**
 * The GUI store of the earlier browser client (viser/client/src/ControlPanel/GuiState.tsx): a zustand store whose
 * actions mutate the draft state in place.
 */
module GuiStateLegacy {
  import opened Wrappers
  import opened GuiStoreCommon

  /** `ThemeConfigurationMessage` as the store keeps it. */
  datatype ThemeConfig = ThemeConfig(titlebarContent: Option<string>, controlLayout: string, darkMode: bool, colors: Option<seq<string>>)

  /** The theme of `cleanGuiState`. */
  function CleanTheme(): ThemeConfig
  {
    ThemeConfig(None, "floating", false, None)
  }

  class GuiStore {
    var theme: ThemeConfig
    var labelText: string  // `label`
    var server: string
    var websocketConnected: bool
    var backgroundAvailable: bool
    var modals: seq<GuiModal>
    var guiIdSetFromContainerId: map<string, set<string>>
    var guiConfigFromId: map<string, GuiConfig>
    var guiValueFromId: map<string, GuiValue>
    var guiAttributeFromId: map<string, Attributes>

    function Registry(): Registry
      reads this
    {
      GuiStoreCommon.Registry(guiIdSetFromContainerId, guiConfigFromId, guiValueFromId, guiAttributeFromId)
    }

    /** The parts of the store that no id-keyed action touches. */
    function Settings(): (ThemeConfig, string, string, bool, bool)
      reads this
    {
      (theme, labelText, server, websocketConnected, backgroundAvailable)
    }

    /** Every stored config is a member of its own container's set. */
    ghost predicate Valid()
      reads this
    {
      Indexed(Registry())
    }

    /** `useGuiState(initialServer)`: the clean state with the given server. */
    constructor (initialServer: string)
      ensures Valid()
      ensures Settings() == (CleanTheme(), "", initialServer, false, false)
      ensures modals == [] && Registry() == EmptyRegistry()
    {
      theme := CleanTheme();
      labelText := "";
      server := initialServer;
      websocketConnected := false;
      backgroundAvailable := false;
      modals := [];
      guiIdSetFromContainerId := map[];
      guiConfigFromId := map[];
      guiValueFromId := map[];
      guiAttributeFromId := map[];
    }

    method SetTheme(newTheme: ThemeConfig)
      modifies this
      ensures Settings() == old(Settings()).(0 := newTheme)
      ensures modals == old(modals) && Registry() == old(Registry())
    {
      theme := newTheme;
    }

    method AddGui(config: GuiConfig)
      requires Valid()
      modifies this
      ensures Valid()
      ensures Registry() == GuiStoreCommon.AddGui(old(Registry()), config)
      ensures Settings() == old(Settings()) && modals == old(modals)
    {
      AddGuiKeepsIndexed(Registry(), config);
      var r := GuiStoreCommon.AddGui(Registry(), config);
      guiConfigFromId := r.guiConfigFromId;
      guiIdSetFromContainerId := r.guiIdSetFromContainerId;
    }

    method AddModal(modal: GuiModal)
      modifies this
      ensures modals == old(modals) + [modal]
      ensures Settings() == old(Settings()) && Registry() == old(Registry())
    {
      modals := modals + [modal];
    }

    method RemoveModal(id: string)
      modifies this
      ensures modals == GuiStoreCommon.RemoveModal(old(modals), id)
      ensures Settings() == old(Settings()) && Registry() == old(Registry())
    {
      modals := GuiStoreCommon.RemoveModal(modals, id);
    }

    method SetGuiValue(id: string, value: GuiValue)
      requires Valid()
      modifies this
      ensures Valid()
      ensures Registry() == GuiStoreCommon.SetGuiValue(old(Registry()), id, value)
      ensures Settings() == old(Settings()) && modals == old(modals)
    {
      guiValueFromId := guiValueFromId[id := value];
    }

    method SetGuiVisible(id: string, visible: bool)
      requires Valid()
      modifies this
      ensures Valid()
      ensures Registry() == GuiStoreCommon.SetGuiVisible(old(Registry()), id, visible)
      ensures Settings() == old(Settings()) && modals == old(modals)
    {
      guiAttributeFromId := guiAttributeFromId[id := WithVisible(Lookup(guiAttributeFromId, id), visible)];
    }

    method SetGuiDisabled(id: string, disabled: bool)
      requires Valid()
      modifies this
      ensures Valid()
      ensures Registry() == GuiStoreCommon.SetGuiDisabled(old(Registry()), id, disabled)
      ensures Settings() == old(Settings()) && modals == old(modals)
    {
      guiAttributeFromId := guiAttributeFromId[id := WithDisabled(Lookup(guiAttributeFromId, id), disabled)];
    }

    /**
     * `removeGui(id)`: reading `container_id` of a missing config throws inside the draft,
     * which leaves the store as it was (`ok` false).
     */
    method RemoveGui(id: string) returns (ok: bool)
      requires Valid()
      modifies this
      ensures Valid()
      ensures ok <==> id in old(guiConfigFromId)
      ensures ok ==> Registry() == GuiStoreCommon.RemoveGui(old(Registry()), id)
      ensures !ok ==> Registry() == old(Registry())
      ensures Settings() == old(Settings()) && modals == old(modals)
    {
      ok := id in guiConfigFromId;
      if ok {
        RemoveGuiKeepsIndexed(Registry(), id);
        var r := GuiStoreCommon.RemoveGui(Registry(), id);
        guiIdSetFromContainerId := r.guiIdSetFromContainerId;
        guiConfigFromId := r.guiConfigFromId;
        guiValueFromId := r.guiValueFromId;
        guiAttributeFromId := r.guiAttributeFromId;
      }
    }

    /** `resetGui`: clears the four id-keyed maps; modals, theme, server, label and flags stay. */
    method ResetGui()
      modifies this
      ensures Valid()
      ensures Registry() == EmptyRegistry()
      ensures Settings() == old(Settings()) && modals == old(modals)
    {
      guiIdSetFromContainerId := map[];
      guiConfigFromId := map[];
      guiValueFromId := map[];
      guiAttributeFromId := map[];
    }
  }
}
