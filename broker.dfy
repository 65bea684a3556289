/**
 * The daemon object (BusIBusImpl of bus/ibusimpl.c) as a class whose
 * fields the callbacks and D-Bus methods update in place. Each method is
 * proved to perform the transition of module BrokerSpec on the state it
 * holds, and to keep the broker invariant (BrokerProps).
 */
module Broker {
  import opened Common
  import opened Registry
  import opened BrokerSpec
  import opened BrokerProps

  class IBusImpl {
    /** Whether one engine is shared by all input contexts. */
    const useGlobalEngine: bool
    /** The placeholder context focused when no client context is. */
    const fakeContext: ContextId
    /** The component and engine bookkeeping. */
    const registry: EngineRegistry

    var contexts: map<ContextId, InputContext>
    var clientContexts: seq<ContextId>
    var focusedContext: Option<ContextId>
    var globalEngineName: Option<string>
    var globalPreviousEngineName: Option<string>
    var panel: Option<PanelId>
    var emojiExtension: Option<PanelId>
    var enableEmojiExtension: bool
    var embedPreeditText: bool
    var extensionRegisterKeys: Option<Payload>
    var pending: map<InvocationId, ContextId>
    var nextContextId: ContextId
    var nextEngineId: EngineId
    var log: seq<Event>

    function Cfg(): Config
    {
      Config(useGlobalEngine, fakeContext)
    }

    /** The broker state the fields hold. */
    function Snapshot(): State
      reads this
    {
      State(contexts, clientContexts, focusedContext, globalEngineName, globalPreviousEngineName,
            panel, emojiExtension, enableEmojiExtension, embedPreeditText, extensionRegisterKeys,
            pending, nextContextId, nextEngineId, log)
    }

    /** The broker invariant holds of the fields. */
    predicate Valid()
      reads this
    {
      Inv(Snapshot(), Cfg())
    }

    /** bus_ibus_impl_init: the placeholder context with the preedit,
        focus and surrounding-text capabilities, focused in global-engine
        mode; the registry loaded from the catalog. */
    constructor (useGlobal: bool, catalog: seq<ComponentInfo>)
      ensures Valid() && fresh(registry) && registry.Valid()
      ensures useGlobalEngine == useGlobal && fakeContext == 0
      ensures Snapshot() == InitState(Cfg())
      ensures registry.engineTable == FirstWinsTable(CatalogEngines(catalog))
      ensures registry.registerEngineList == []
    {
      useGlobalEngine := useGlobal;
      fakeContext := 0;
      registry := new EngineRegistry(catalog);
      contexts := map[0 := InputContext(CapPreeditText | CapFocus | CapSurroundingText, None, 0, 0, None)];
      clientContexts := [];
      focusedContext := None;
      globalEngineName := None;
      globalPreviousEngineName := None;
      panel := None;
      emojiExtension := None;
      enableEmojiExtension := false;
      embedPreeditText := true;
      extensionRegisterKeys := None;
      pending := map[];
      nextContextId := 1;
      nextEngineId := 0;
      log := [];
      new;
      if useGlobalEngine {
        SetFocusedContext(Some(fakeContext));
      }
      InitSatisfiesInv(Cfg());
    }

    /** bus_ibus_impl_set_focused_context. */
    method SetFocusedContext(target: Option<ContextId>)
      requires Wf(Snapshot(), Cfg()) && (target.Some? ==> target.value in contexts)
      modifies this`focusedContext, this`contexts, this`log
      ensures Snapshot() == SetFocusedStep(old(Snapshot()), Cfg(), target)
    {
      if focusedContext == target {
        return;
      }
      var engine, purpose, hints := DetachFocusedContext();
      AttachFocusedContext(engine, purpose, hints, target);
    }

    /** The first half of bus_ibus_impl_set_focused_context: the focused
        context loses focus, and in global-engine mode its engine. */
    method DetachFocusedContext() returns (engine: Option<Engine>, purpose: bv32, hints: bv32)
      requires Wf(Snapshot(), Cfg())
      modifies this`focusedContext, this`contexts, this`log
      ensures Detached(Snapshot(), engine, purpose, hints) == DetachFocused(old(Snapshot()), Cfg())
    {
      engine, purpose, hints := None, 0, 0;
      if focusedContext.Some? {
        engine, purpose, hints := TakeFocusFrom(focusedContext.value);
      }
    }

    /** Context f, the focused one, loses focus and, in global-engine
        mode, its engine. */
    method TakeFocusFrom(f: ContextId) returns (engine: Option<Engine>, purpose: bv32, hints: bv32)
      requires f in contexts
      modifies this`focusedContext, this`contexts, this`log
      ensures Detached(Snapshot(), engine, purpose, hints) == DetachFrom(old(Snapshot()), Cfg(), f)
    {
      engine := None;
      {
        var ic := contexts[f];
        if useGlobalEngine {
          engine := ic.engine;
          if engine.Some? {
            log := log + [ClearPreedit(f, false)];
            ic := ic.(engine := None);
          }
        }
        log := log + PanelEvents(panel, emojiExtension, PanelOp.FocusOut, f);
        ic := ic.(emoji := None);
        contexts := contexts[f := ic];
        purpose, hints := ic.purpose, ic.hints;
        focusedContext := None;
      }
    }

    /** The second half: the target, or the placeholder, gains focus and
        the engine taken from the old one. */
    method AttachFocusedContext(engine: Option<Engine>, purpose: bv32, hints: bv32,
                                target: Option<ContextId>)
      requires Wf(Snapshot(), Cfg()) && focusedContext.None?
      requires target.Some? ==> target.value in contexts
      modifies this`focusedContext, this`contexts, this`log
      ensures Snapshot() == AttachFocus(Detached(old(Snapshot()), engine, purpose, hints), Cfg(), target)
    {
      var context := target;
      if context.None? && useGlobalEngine {
        context := Some(fakeContext);
        contexts := contexts[fakeContext := contexts[fakeContext].(purpose := purpose, hints := hints)];
      }
      if context.Some? {
        GiveFocus(context.value, engine);
      }
    }

    /** The focus and the engine taken from the old focused context go to
        context c. */
    method GiveFocus(c: ContextId, engine: Option<Engine>)
      requires c in contexts
      modifies this`focusedContext, this`contexts, this`log
      ensures Snapshot() == FocusOn(old(Snapshot()), c, engine)
    {
      focusedContext := Some(c);
      if engine.Some? {
        var emoji := if enableEmojiExtension then emojiExtension else None;
        contexts := contexts[c := contexts[c].(engine := engine, emoji := emoji)];
        log := log + [ContextEnabled(c)];
      }
      log := log + PanelEvents(panel, emojiExtension, PanelOp.FocusIn, c);
    }

    /** _context_focus_in_cb: only a context with the focus capability
        takes focus. */
    method FocusIn(c: ContextId)
      requires Valid() && c in contexts && c != fakeContext
      modifies this`focusedContext, this`contexts, this`log
      ensures Valid()
      ensures Snapshot() == FocusInStep(old(Snapshot()), Cfg(), c)
    {
      if contexts[c].caps & CapFocus == 0 {
        return;
      }
      SetFocusedKeepsInv(Snapshot(), Cfg(), Some(c));
      SetFocusedContext(Some(c));
    }

    /** _context_focus_out_cb: only the focused context, with the focus
        capability, gives focus up. */
    method FocusOut(c: ContextId)
      requires Valid() && c in contexts && c != fakeContext
      modifies this`focusedContext, this`contexts, this`log
      ensures Valid()
      ensures Snapshot() == FocusOutStep(old(Snapshot()), Cfg(), c)
    {
      if contexts[c].caps & CapFocus == 0 {
        return;
      }
      if focusedContext != Some(c) {
        return;
      }
      SetFocusedKeepsInv(Snapshot(), Cfg(), None);
      SetFocusedContext(None);
    }

    /** _context_destroy_cb, with the invariant. */
    method ContextDestroy(c: ContextId)
      requires Valid() && c in clientContexts
      modifies this`focusedContext, this`contexts, this`log, this`clientContexts
      ensures Valid()
      ensures Snapshot() == DestroyStep(old(Snapshot()), Cfg(), c)
    {
      DestroyKeepsInv(Snapshot(), Cfg(), c);
      RemoveContext(c);
    }

    /** _context_destroy_cb: the context gives up focus, the panels
        forget it, and it leaves the context list. */
    method RemoveContext(c: ContextId)
      requires Wf(Snapshot(), Cfg()) && c in clientContexts
      modifies this`focusedContext, this`contexts, this`log, this`clientContexts
      ensures Snapshot() == DestroyStep(old(Snapshot()), Cfg(), c)
    {
      ghost var s0 := Snapshot();
      if focusedContext == Some(c) {
        SetFocusedContext(None);
      }
      ghost var s1 := Snapshot();
      assert s1 == if s0.focused == Some(c) then SetFocusedStep(s0, Cfg(), None) else s0;
      if contexts[c].caps & CapFocus != 0 {
        log := log + PanelEvents(panel, emojiExtension, DestroyContext, c);
      }
      clientContexts := RemoveFirst(clientContexts, c);
      contexts := contexts - {c};
    }

    /** _context_engine_changed_cb. */
    method EngineChanged(c: ContextId)
      requires Valid() && c in contexts
      modifies this`globalEngineName, this`globalPreviousEngineName, this`log
      ensures Valid()
      ensures Snapshot() == EngineChangedStep(old(Snapshot()), Cfg(), c)
    {
      EngineChangedKeepsInv(Snapshot(), Cfg(), c);
      if !useGlobalEngine {
        return;
      }
      if focusedContext == Some(c) || (focusedContext.None? && c == fakeContext) {
        var engine := contexts[c].engine;
        if engine.Some? {
          var name := engine.value.desc.name;
          if globalEngineName == Some(name) {
            return;
          }
          globalPreviousEngineName := globalEngineName;
          globalEngineName := Some(name);
          log := log + [GlobalEngineChanged(name)];
        }
      }
    }

    /** bus_ibus_impl_set_global_engine, called with no engine. */
    method ClearGlobalEngine()
      requires Wf(Snapshot(), Cfg())
      modifies this`contexts
      ensures Snapshot() == ClearGlobalEngineStep(old(Snapshot()), Cfg())
    {
      ghost var r := ClearGlobalEngineStep(Snapshot(), Cfg());
      if !useGlobalEngine {
        return;
      }
      if focusedContext.Some? {
        var f := focusedContext.value;
        var emoji := if enableEmojiExtension then emojiExtension else None;
        contexts := contexts[f := contexts[f].(engine := None, emoji := emoji)];
      } else {
        contexts := contexts[fakeContext := contexts[fakeContext].(engine := None)];
      }
      assert Snapshot() == r;
    }

    /** bus_ibus_impl_set_global_engine_by_name. */
    method SetGlobalEngineByName(name: string)
      requires Valid()
      modifies this`log
      ensures Valid()
      ensures Snapshot() == SetGlobalEngineByNameStep(old(Snapshot()), Cfg(),
                              registry.registerEngineList, registry.engineTable, name)
    {
      SetGlobalEngineByNameKeepsInv(Snapshot(), Cfg(), registry.registerEngineList,
                                    registry.engineTable, name);
      if !useGlobalEngine {
        return;
      }
      var context := if focusedContext.Some? then focusedContext.value else fakeContext;
      if globalEngineName == Some(name) {
        log := log + [ContextEnabled(context)];
        return;
      }
      var desc := registry.GetEngineDesc(name);
      if desc.Some? {
        log := log + [SwitchRequested(context, desc.value, None)];
      }
    }

    /** bus_ibus_impl_check_global_engine. */
    method CheckGlobalEngine()
      requires Valid()
      modifies this`contexts, this`log
      ensures Valid()
      ensures Snapshot() == CheckGlobalEngineStep(old(Snapshot()), Cfg(),
                              registry.registerEngineList, registry.engineTable)
    {
      CheckGlobalEngineKeepsInv(Snapshot(), Cfg(), registry.registerEngineList, registry.engineTable);
      FallBack();
    }

    /** The choice made by CheckGlobalEngine, and the switch it makes. */
    method FallBack()
      requires Valid()
      modifies this`contexts, this`log
      ensures Snapshot() == CheckGlobalEngineStep(old(Snapshot()), Cfg(),
                              registry.registerEngineList, registry.engineTable)
    {
      if !useGlobalEngine {
        return;
      }
      if globalEngineName.Some? {
        var d := registry.FindEngineDescByName(globalEngineName.value);
        if d.Some? {
          return;
        }
      }
      if globalPreviousEngineName.Some? {
        var d := registry.FindEngineDescByName(globalPreviousEngineName.value);
        if d.Some? {
          assert FallbackChoice(registry.registerEngineList, globalEngineName, globalPreviousEngineName)
                 == SwitchTo(globalPreviousEngineName.value);
          SetGlobalEngineByName(globalPreviousEngineName.value);
          return;
        }
      }
      if registry.registerEngineList != [] {
        assert FallbackChoice(registry.registerEngineList, globalEngineName, globalPreviousEngineName)
               == SwitchTo(registry.registerEngineList[0].name);
        SetGlobalEngineByName(registry.registerEngineList[0].name);
        return;
      }
      assert FallbackChoice(registry.registerEngineList, globalEngineName, globalPreviousEngineName) == Disable;
      ClearGlobalEngine();
    }

    /** _component_destroy_cb: the component and its engines leave the
        registered lists, then the global engine is checked. */
    method ComponentDestroy(c: ComponentId)
      requires Valid() && registry.Valid() && c in registry.registeredComponents
      modifies this, registry`registeredComponents, registry`registerEngineList
      ensures Valid() && registry.Valid()
      ensures registry.registeredComponents == RemoveFirst(old(registry.registeredComponents), c)
      ensures registry.registerEngineList
              == RemoveEach(old(registry.registerEngineList), registry.componentTable[c].engines)
      ensures Snapshot() == CheckGlobalEngineStep(old(Snapshot()), Cfg(),
                              registry.registerEngineList, registry.engineTable)
    {
      registry.UnregisterComponent(c);
      CheckGlobalEngine();
    }

    /** _ibus_set_global_engine: the SetGlobalEngine D-Bus method. */
    method SetGlobalEngine(inv: InvocationId, name: string)
      requires Valid()
      modifies this`pending, this`log
      ensures Valid()
      ensures Snapshot() == SetGlobalEngineCallStep(old(Snapshot()), Cfg(),
                              registry.registerEngineList, registry.engineTable, inv, name)
    {
      SetGlobalEngineCallKeepsInv(Snapshot(), Cfg(), registry.registerEngineList,
                                  registry.engineTable, inv, name);
      if !useGlobalEngine {
        log := log + [Reply(inv, Err("Global engine feature is disabled."))];
        return;
      }
      var context := if focusedContext.Some? then focusedContext.value else fakeContext;
      var desc := registry.GetEngineDesc(name);
      if desc.None? {
        log := log + [Reply(inv, Err("Cannot find engine " + name + "."))];
        return;
      }
      pending := pending[inv := context];
      log := log + [SwitchRequested(context, desc.value, Some(inv))];
    }

    /** _ibus_set_global_engine_ready_cb. */
    method SetGlobalEngineReady(inv: InvocationId, result: Result<()>)
      requires Valid() && inv in pending
      modifies this`pending, this`log, this`contexts
      ensures Valid()
      ensures Snapshot() == SetGlobalEngineReadyStep(old(Snapshot()), Cfg(), inv, result)
    {
      ReadyKeepsInv(Snapshot(), Cfg(), inv, result);
      FinishSwitch(inv, result);
    }

    method FinishSwitch(inv: InvocationId, result: Result<()>)
      requires Wf(Snapshot(), Cfg()) && inv in pending
      modifies this`pending, this`log, this`contexts
      ensures Snapshot() == SetGlobalEngineReadyStep(old(Snapshot()), Cfg(), inv, result)
    {
      ghost var r := SetGlobalEngineReadyStep(Snapshot(), Cfg(), inv, result);
      var context := pending[inv];
      pending := pending - {inv};
      if result.Err? {
        log := log + [Reply(inv, Err("Set global engine failed: " + result.message))];
        return;
      }
      log := log + [Reply(inv, Ok(()))];
      var engine := if context in contexts then contexts[context].engine else None;
      assert engine == EngineOf(Snapshot(), context);
      if useGlobalEngine && focusedContext != Some(context) {
        if engine.Some? && focusedContext.Some? {
          var f := focusedContext.value;
          var emoji := if enableEmojiExtension then emojiExtension else None;
          contexts := contexts[context := contexts[context].(engine := None, emoji := None)]
                              [f := contexts[f].(engine := engine, emoji := emoji)];
        }
      }
      if engine.Some? && extensionRegisterKeys.Some? {
        log := log + [RegisterKeys(engine.value.id, extensionRegisterKeys.value)];
      }
      assert Snapshot() == r;
    }

    /** _ibus_get_global_engine_enabled. */
    method GetGlobalEngineEnabled() returns (enabled: bool)
      requires Valid()
      ensures enabled == GlobalEngineEnabled(Snapshot(), Cfg())
    {
      enabled := false;
      if !useGlobalEngine {
        return;
      }
      var context := if focusedContext.Some? then Some(focusedContext.value)
                     else if fakeContext in contexts then Some(fakeContext) else None;
      if context.None? {
        return;
      }
      enabled := true;
    }

    /** bus_ibus_impl_create_input_context: a new client context, listed
        last and enabled. */
    method CreateInputContext() returns (c: ContextId)
      requires Valid()
      modifies this`contexts, this`clientContexts, this`nextContextId, this`log
      ensures Valid() && c == old(nextContextId)
      ensures Snapshot() == CreateContextStep(old(Snapshot()))
    {
      CreateContextKeepsInv(Snapshot(), Cfg());
      ghost var r := CreateContextStep(Snapshot());
      c := nextContextId;
      contexts := contexts[c := InputContext(0, None, 0, 0, None)];
      clientContexts := clientContexts + [c];
      nextContextId := c + 1;
      log := log + [ContextEnabled(c)];
      assert Snapshot() == r;
    }

    /** A context finished switching to a new engine session of desc. */
    method AttachNewEngine(c: ContextId, desc: EngineDesc) returns (e: Engine)
      requires Valid() && c in contexts
      modifies this`contexts, this`nextEngineId
      ensures Valid() && e == Engine(old(nextEngineId), desc)
      ensures Snapshot() == AttachNewEngineStep(old(Snapshot()), c, desc)
    {
      AttachNewEngineKeepsInv(Snapshot(), Cfg(), c, desc);
      e := Engine(nextEngineId, desc);
      contexts := contexts[c := contexts[c].(engine := Some(e))];
      nextEngineId := nextEngineId + 1;
    }

    /** A client sets its context's capabilities. */
    method SetCapabilities(c: ContextId, caps: Caps)
      requires Valid() && c in contexts
      modifies this`contexts
      ensures Valid()
      ensures Snapshot() == SetCapsStep(old(Snapshot()), c, caps)
    {
      SetCapsKeepsInv(Snapshot(), Cfg(), c, caps);
      contexts := contexts[c := contexts[c].(caps := caps)];
    }

    /** _panel_destroy_cb. */
    method PanelDestroy(p: PanelId)
      requires Valid()
      modifies this`panel, this`emojiExtension
      ensures Valid()
      ensures Snapshot() == PanelDestroyStep(old(Snapshot()), p)
    {
      PanelProcessKeepsCore(Snapshot(), Cfg(), p, false);
      CoreUnchangedKeepsInv(Snapshot(), PanelDestroyStep(Snapshot(), p), Cfg());
      if panel == Some(p) {
        panel := None;
      } else if emojiExtension == Some(p) {
        emojiExtension := None;
      }
    }

    /** A panel process took the panel or the emoji-extension bus name:
        it replaces the previous one and is told which context has focus. */
    method PanelStart(p: PanelId, extension: bool)
      requires Valid()
      modifies this`panel, this`emojiExtension, this`enableEmojiExtension, this`log
      ensures Valid()
      ensures Snapshot() == PanelStartStep(old(Snapshot()), Cfg(), p, extension)
    {
      PanelProcessKeepsCore(Snapshot(), Cfg(), p, extension);
      CoreUnchangedKeepsInv(Snapshot(), PanelStartStep(Snapshot(), Cfg(), p, extension), Cfg());
      if extension {
        emojiExtension := Some(p);
        enableEmojiExtension := false;
      } else {
        panel := Some(p);
      }
      var context := focusedContext;
      if context.None? && useGlobalEngine {
        context := Some(fakeContext);
      }
      if context.Some? {
        log := log + [ToPanel(PanelOp.FocusIn, p, context.value)];
      }
    }

    /** bus_ibus_impl_set_panel_extension_mode. */
    method SetPanelExtensionMode(enabled: bool)
      requires Valid()
      modifies this`enableEmojiExtension, this`contexts
      ensures Valid()
      ensures Snapshot() == SetPanelExtensionModeStep(old(Snapshot()), enabled)
    {
      SetPanelExtensionModeKeepsInv(Snapshot(), Cfg(), enabled);
      if emojiExtension.None? {
        return;
      }
      enableEmojiExtension := enabled;
      if focusedContext.Some? {
        var f := focusedContext.value;
        contexts := contexts[f := contexts[f].(emoji := if enabled then emojiExtension else None)];
      }
    }

    /** bus_ibus_impl_set_panel_extension_keys. */
    method SetPanelExtensionKeys(payload: Payload)
      requires Valid()
      modifies this`extensionRegisterKeys, this`log
      ensures Valid()
      ensures Snapshot() == SetPanelExtensionKeysStep(old(Snapshot()), payload)
    {
      PanelPropertiesKeepCore(Snapshot(), payload, false);
      CoreUnchangedKeepsInv(Snapshot(), SetPanelExtensionKeysStep(Snapshot(), payload), Cfg());
      if emojiExtension.None? {
        return;
      }
      extensionRegisterKeys := Some(payload);
      var engine := if focusedContext.Some? then contexts[focusedContext.value].engine else None;
      if engine.None? {
        return;
      }
      log := log + [RegisterKeys(engine.value.id, payload)];
    }

    /** _ibus_set_embed_preedit_text. */
    method SetEmbedPreeditText(value: bool)
      requires Valid()
      modifies this`embedPreeditText, this`log
      ensures Valid()
      ensures Snapshot() == SetEmbedPreeditTextStep(old(Snapshot()), value)
    {
      PanelPropertiesKeepCore(Snapshot(), Payload([]), value);
      CoreUnchangedKeepsInv(Snapshot(), SetEmbedPreeditTextStep(Snapshot(), value), Cfg());
      if value != embedPreeditText {
        embedPreeditText := value;
        log := log + [Event.PropertyChanged("EmbedPreeditText")];
      }
    }
  }
}
