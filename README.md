# IBus core, modelled in Dafny

This project models three parts of IBus, the input-method framework:

- **The daemon's broker**, from `bus/ibusimpl.c`:
  - the focused input context, and the global engine that moves with focus when one engine is shared by all contexts;
  - the component and engine registry;
  - the PreloadEngines request;
  - the GlobalShortcutKeys property and the IME-switcher key filter.
- **The daemon's engine proxy**, from `bus/engineproxy.c`:
  - the cached mutators, which call the engine process only when the value changes;
  - the focus calls and the capability category tables;
  - the demultiplexer for the engine's D-Bus signals;
  - the asynchronous creation protocol (a notify handler, a timeout, a cancel handler and an idle callback).
- **The toolkit-independent core of the GTK input-method module**, from `client/gtk2/ibusimcontext.c`:
  - the queue of key events kept while the IBus input context is being created;
  - the preedit state and the signals it emits to the application;
  - focus handling, with the process-wide focused context and fake context;
  - the selection-anchor computation;
  - the environment-variable parsers.

Each stateful part has three pieces:

- a pure specification module: a `State` or `Cache` value plus one transition function per callback or method;
- a module of lemmas about those functions: invariants, round trips, idempotence and case splits;
- a class whose fields mirror the value, and whose methods update the fields in place. Each method is proved to make exactly the transition of its specification function, and to keep the invariant.

| file | contents |
|---|---|
| `common.dfy` | Option, Result, NoDup |
| `shortcut.dfy` | the IME-switcher recogniser (ibusimpl.c) |
| `registry.dfy` | components, engines, the catalog table, PreloadEngines (ibusimpl.c) |
| `broker_spec.dfy`, `broker_props.dfy`, `broker.dfy` | focus and the global engine (ibusimpl.c) |
| `engine_signals.dfy` | the signal demultiplexer (engineproxy.c) |
| `proxy_spec.dfy`, `proxy_props.dfy`, `proxy.dfy` | the engine proxy's cache and category tables (engineproxy.c) |
| `creation_spec.dfy`, `creation.dfy` | the engine-proxy creation protocol (engineproxy.c) |
| `im_context_spec.dfy`, `im_context_props.dfy`, `im_context.dfy` | the GTK module's queue, preedit and focus (ibusimcontext.c) |
| `client_env.dfy` | the environment parsers and the selection anchor (ibusimcontext.c) |

## Modelling conventions

- **Integer widths.**
  - `guint` flags and masks are `bv32`.
  - Cursor coordinates are `int32`.
  - The unsigned subtraction in the selection anchor wraps modulo 2^32 (`ClientEnv.Sub32`).
- **Values instead of objects.** Objects the core only refers to become identifiers or values:
  - input contexts, engines (an engine session is `Engine(id, desc)`) and panels;
  - the D-Bus method invocations.
- **The event log.** Calls the core makes whose effect lies elsewhere are appended to a log that each transition states in full. These are calls into input contexts, panels and engine processes, signals and D-Bus replies.
- **Constants.** Constants the core takes from headers outside this model use the values of the public IBus and GTK headers:
  - the modifier bits and `IBUS_MODIFIER_FILTER`;
  - the modifier keysyms;
  - the capability bits;
  - the binding types;
  - the input purposes;
  - `IBUS_KEY_VoidSymbol`.
- **Key-event queue bound.** The module constant `MAX_QUEUED_EVENTS` is 20 (`client/gtk2/ibusimcontext.c:60`): while the IBus context is still being created the client queues key events, and past that many it drops the oldest (`client/gtk2/ibusimcontext.c:1322-1335`).
- **The emoji extension.** The broker keeps the emoji-extension switch (`enable_emoji_extension`) in its state.

## Model

| member | source | states |
|---|---|---|
| Shortcut.AfterRelease | bus/ibusimpl.c:2622-2632 | definition: what remains of a pending binding after a release is the pending bits still held, without the released key's modifier |
| Shortcut.Decide | bus/ibusimpl.c:2607-2632 | definition of one table entry's verdict: a match with modifiers pressed records them and hits; a match released with modifiers while a binding is pending is no hit; any other match hits; a non-matching release while pending shrinks the state and hits when nothing is left; anything else moves on |
| Shortcut.Scan | bus/ibusimpl.c:2606-2633 | definition of the scan up to the zero-keyval terminator: the first entry that decides gives the outcome, else no hit with the state kept |
| Shortcut.KeyvalToModifier | bus/ibusimpl.c:2549-2575 | a keysym maps to a nonzero modifier bit exactly when it is one of the modifier keys Shift_L..Hyper_R except Shift_Lock; Super maps to Mod4 |
| Shortcut.KeyvalToModifierBits | bus/ibusimpl.c:2549-2575 | a modifier key sets a single bit, which survives the modifier filter or is Lock |
| Shortcut.NormaliseModifiers | bus/ibusimpl.c:2596-2605 | the compared modifiers never hold Super or the release bit and lie within the filter; Super becomes Mod4; without Super the state is only masked |
| Shortcut.AfterReleaseShrinks | bus/ibusimpl.c:2622-2632 | after a release, the pending binding keeps only bits it had and modifiers still held, and never the released modifier |
| Shortcut.PressRecordsBinding | bus/ibusimpl.c:2606-2621 | pressing the first matching binding that has modifiers is a hit and records its modifiers as pending |
| Shortcut.ReleaseWhilePending | bus/ibusimpl.c:2606-2632 | while a binding is pending, the first entry decides a release: releasing the trigger key keeps the state, and is a hit exactly when it has no modifiers; any other release shrinks the state and hits when nothing is left |
| Shortcut.ReleaseOnlyShrinks | bus/ibusimpl.c:2606-2633 | a release never records a binding: the pending state is kept or shrinks |
| Shortcut.NoMatchNoHit | bus/ibusimpl.c:2606-2633 | with nothing pending, an event that matches no live entry is no hit and leaves the state alone |
| Shortcut.TestEntry | bus/ibusimpl.c:2607-2632 | one loop iteration stops exactly when the entry decides the event, and then returns the entry's decision |
| Shortcut.ScanKeys | bus/ibusimpl.c:2606-2633 | the loop over the key table, up to its zero terminator, returns the hit, the new binding state and the direction the table scan specifies |
| Shortcut.Switcher.constructor | bus/ibusimpl.c:2587 | no table and no pending binding at start |
| Shortcut.Switcher.SetGlobalShortcutKeys | bus/ibusimpl.c:1999-2041 | an empty key list is refused; a switcher list replaces the table; a list of another binding type is accepted and dropped |
| Shortcut.Switcher.ProcessKeyEvent | bus/ibusimpl.c:2578-2650 | without a table: no hit and no change; otherwise the scan's hit and binding state, with the GlobalShortcutKeyResponded payload (type, keyval, keycode, state, direction) on a hit |
| Registry.FromInfo | bus/ibusimpl.c:2311-2323 | definition: a catalog component starts with its engines, owned by it, and no factory |
| Registry.CatalogEngines | bus/ibusimpl.c:2299-2325 | definition: the catalog's engines in catalog order, each owned by its component |
| Registry.Flatten | bus/ibusimpl.c:1368-1417 | definition of the registered engine list: the registered components' engines, in registration order |
| Registry.FirstWinsTable | bus/ibusimpl.c:2311-2323 | definition of the engine table: the first catalog component that provides a name keeps it |
| Registry.RemoveFirst | bus/ibusimpl.c:1335-1359 | definition of `g_list_remove`: the list without the first occurrence of the item |
| Registry.RemoveEach | bus/ibusimpl.c:1335-1359 | definition: the engine list after removing each engine of a component in turn |
| Registry.PreloadPlan | bus/ibusimpl.c:1909-1941 | definition of the PreloadEngines plan: for each name, its engine's component unless it runs or is already chosen; an unknown name fails with "Cannot find engine" |
| Registry.Descs | bus/ibusimpl.c:2311-2323 | one description per engine of the component, in order, with the engine's name and layout and the component as owner |
| Registry.CatalogEnginesOwners | bus/ibusimpl.c:2299-2325 | every catalog engine is owned by a catalog component |
| Registry.FirstNamed | bus/ibusimpl.c:792-806 | the result is a registered engine of that name, and there is none exactly when no registered engine has that name |
| Registry.LookupDesc | bus/ibusimpl.c:832-844 | the empty name gives nothing; the first registered engine of the name wins over the catalog table; nothing is found only when neither knows the name |
| Registry.FirstWinsTableFrom | bus/ibusimpl.c:2311-2323 | each entry of the catalog table is a catalog engine of that name |
| Registry.FirstWinsTableIsFirstNamed | bus/ibusimpl.c:2311-2323 | the catalog table holds exactly the catalog engine names, each mapped to the first engine of that name |
| Registry.FirstNamedAppend | bus/ibusimpl.c:1368-1417 | appending an engine changes the first match of a name only when the name had none |
| Registry.FlattenOwners | bus/ibusimpl.c:1368-1417 | every registered engine belongs to a registered component |
| Registry.FlattenOwnersAll | bus/ibusimpl.c:1368-1417 | the same for all registered engines at once |
| Registry.RemoveListed | bus/ibusimpl.c:1335-1359 | removing a registered component keeps the list well formed and splits it around the component |
| Registry.FlattenSplit | bus/ibusimpl.c:1335-1359 | the engine list is the engines before the component, its own engines, and the engines after it |
| Registry.RegisterAppends | bus/ibusimpl.c:1368-1417 | registering a new component keeps the list well formed and appends its engines to the engine list |
| Registry.DropBlock | bus/ibusimpl.c:1335-1359 | removing a component's engines one by one leaves the other components' engines, in order |
| Registry.DestroyDropsEngines | bus/ibusimpl.c:1335-1359 | destroying a component leaves the engine list equal to the remaining components' engines, with none of its own |
| Registry.PreloadPlanNoDup | bus/ibusimpl.c:1931-1940 | a preload plan starts no component twice |
| Registry.PreloadPlanNotRunning | bus/ibusimpl.c:1924-1929 | a plan starts only components without a factory, and keeps earlier choices in front |
| Registry.PreloadPlanComplete | bus/ibusimpl.c:1909-1941 | a plan succeeds exactly when every name is served, and then covers the component of every named engine that is not running |
| Registry.PreloadPlanGrows | bus/ibusimpl.c:1909-1941 | a successful plan extends what was already chosen |
| Registry.PreloadPlanError | bus/ibusimpl.c:1912-1922 | a failing request reports the first name that has no engine |
| Registry.FirstComponentNamed | bus/ibusimpl.c:2409-2426 | the result is a catalog component of that name, and there is none exactly when no catalog component has it |
| Registry.Starts | bus/ibusimpl.c:1943-1946 | one start per planned component, in plan order |
| Registry.CollectComponents | bus/ibusimpl.c:1909-1941 | the collecting loop computes the preload plan |
| Registry.InsertFirstWins | bus/ibusimpl.c:2312-2323 | inserting engines into the catalog table gives the first-wins table of the longer list |
| Registry.CatalogTableWellFormed | bus/ibusimpl.c:2299-2325 | the catalog components are numbered below the catalog's length, are not running, and own the engines of the catalog table |
| Registry.LoadCatalog | bus/ibusimpl.c:2299-2325 | one component per catalog entry, in order and without a factory; the engine table is first-wins over the catalog engines |
| Registry.EngineRegistry.OwnersKnown | bus/ibusimpl.c:1368-1417 | every registered engine's owner is a known component |
| Registry.EngineRegistry.constructor | bus/ibusimpl.c:2258-2334 | after loading the catalog, the components are the catalog's, the engine table is first-wins, and nothing is registered |
| Registry.EngineRegistry.FindEngineDescByName | bus/ibusimpl.c:792-806 | the first registered engine of the name |
| Registry.EngineRegistry.GetEngineDesc | bus/ibusimpl.c:832-844 | the engine served for a name, as LookupDesc states |
| Registry.EngineRegistry.RequestEngine | bus/ibusimpl.c:815-823 | a missing or empty name asks for the default engine; any other name is looked up |
| Registry.EngineRegistry.LookupComponentByName | bus/ibusimpl.c:2409-2426 | the first catalog component of the name |
| Registry.EngineRegistry.RegisterComponent | bus/ibusimpl.c:1368-1417 | a non-component argument and a failed factory are refused with the source's messages and change nothing; otherwise the component is registered with a new factory and its engines are appended |
| Registry.EngineRegistry.UnregisterComponent | bus/ibusimpl.c:1335-1359 | the component leaves the registered list, and each of its engines leaves the engine list |
| Registry.EngineRegistry.NameOwnerChanged | bus/ibusimpl.c:2363-2406 | a component whose process stopped loses its factory; one whose process started gets a new factory when its connection is known and the factory is created; no other component changes |
| Registry.EngineRegistry.SetComponent | bus/ibusimpl.c:2363-2406 | a component record is replaced by one with the same name and engines, and name lookups are unaffected |
| Registry.EngineRegistry.SetPreloadEngines | bus/ibusimpl.c:1895-1953 | an unknown name fails with its message and starts nothing; otherwise the plan's components start, and the property change is announced |
| BrokerSpec.PanelEvents | bus/ibusimpl.c:931-936 | definition: the same notification to the panel and then to the emoji extension, for whichever runs |
| BrokerSpec.DetachFrom | bus/ibusimpl.c:908-947 | definition: the focused context loses focus and its emoji link, and in global mode its engine (preedit cleared without commit); the panels are told |
| BrokerSpec.FocusTarget | bus/ibusimpl.c:949-953 | definition: the context that becomes focused is the target, or the placeholder in global mode when there is none |
| BrokerSpec.FocusInStep | bus/ibusimpl.c:1119-1132 | definition: a focus-in counts only for a context with the focus capability, which then becomes focused |
| BrokerSpec.FocusOutStep | bus/ibusimpl.c:1141-1160 | definition: a focus-out counts only for the focused context with the focus capability, and then clears the focus |
| BrokerSpec.GlobalTarget | bus/ibusimpl.c:1006-1037 | definition: the global engine applies to the focused context, else to the placeholder |
| BrokerSpec.EngineChangedStep | bus/ibusimpl.c:1087-1108 | definition: in global mode, an engine change from the focused context (or from the placeholder while nothing is focused) to a new name shifts the global name to the previous one and announces the new one |
| BrokerSpec.ClearGlobalEngineStep | bus/ibusimpl.c:986-1003 | definition: in global mode the focused context (emoji link reset) or else the placeholder loses its engine |
| BrokerSpec.SetGlobalEngineByNameStep | bus/ibusimpl.c:1006-1037 | definition: the current global name re-enables the target context; another known name asks it to switch; an unknown name does nothing |
| BrokerSpec.FallbackChoice | bus/ibusimpl.c:1043-1077 | definition of the fallback order: keep, else the previous engine, else the first registered engine, else drop |
| BrokerSpec.CheckGlobalEngineStep | bus/ibusimpl.c:1043-1077 | definition: in global mode, applies the fallback choice by name or by clearing the engine |
| BrokerSpec.SetGlobalEngineCallStep | bus/ibusimpl.c:1797-1835 | definition: refused with its message outside global mode or for an unknown engine; otherwise the target context is asked to switch and the call waits |
| BrokerSpec.SetGlobalEngineReadyStep | bus/ibusimpl.c:1736-1788 | definition: a failure is replied with its message; a success is replied, the engine follows the focus if it moved, and gets the extension's keys |
| BrokerSpec.CreateContextStep | bus/ibusimpl.c:1199-1236 | definition: a new context with the next id, no engine and no capabilities, listed last and enabled |
| BrokerSpec.AttachNewEngineStep | bus/ibusimpl.c:847-858 | definition: the context holds a new engine session with the next session id |
| BrokerSpec.SetCapsStep | bus/ibusimpl.c:1119-1160 | definition: only the context's capabilities change |
| BrokerSpec.PanelDestroyStep | bus/ibusimpl.c:317-330 | definition: whichever of the panel and the emoji extension went away is dropped |
| BrokerSpec.PanelStartStep | bus/ibusimpl.c:517-612 | definition: the panel or the extension (switched off) is recorded and told of the focused context or, in global mode, the placeholder |
| BrokerSpec.SetPanelExtensionModeStep | bus/ibusimpl.c:333-367 | definition: while the extension runs, the switch is stored and the focused context's emoji link follows it |
| BrokerSpec.SetPanelExtensionKeysStep | bus/ibusimpl.c:370-391 | definition: while the extension runs, the keys are stored and passed to the focused context's engine |
| BrokerSpec.SetEmbedPreeditTextStep | bus/ibusimpl.c:1978-1990 | definition: the property changes and is announced only when the value differs |
| BrokerSpec.InitState | bus/ibusimpl.c:628-677 | definition of start-up: only the placeholder exists, with preedit, focus and surrounding-text capabilities, focused in global mode |
| BrokerSpec.DetachFocused | bus/ibusimpl.c:903-947 | nothing is focused afterwards; in global-engine mode the old context's engine is taken from it; its content type is returned |
| BrokerSpec.AttachFocus | bus/ibusimpl.c:949-979 | the target, or the placeholder in global-engine mode, becomes focused and gets the engine taken from the old one |
| BrokerSpec.FocusOn | bus/ibusimpl.c:955-979 | the context becomes focused and holds the engine if one is given; no other context changes engine |
| BrokerSpec.SetFocusedStep | bus/ibusimpl.c:890-983 | focusing the focused context changes nothing; otherwise focus moves to the target, or the placeholder in global-engine mode |
| BrokerSpec.DestroyStep | bus/ibusimpl.c:1169-1189 | a destroyed context leaves the context list and the client list, and is not focused |
| BrokerSpec.GlobalEngineEnabled | bus/ibusimpl.c:1844-1866 | true in global-engine mode when a focused or placeholder context exists; since the placeholder always exists, exactly in global-engine mode |
| BrokerProps.FocusMovesEngine | bus/ibusimpl.c:908-967 | in global-engine mode the old focused context's preedit is cleared without commit and the panels hear it lost focus; it keeps neither engine nor emoji link; the new focused context gets the engine and the emoji link; no other context changes |
| BrokerProps.FocusKeepsEnginesPerContext | bus/ibusimpl.c:908-967 | outside global-engine mode focus moves to the target and no engine moves |
| BrokerProps.SetFocusedKeepsInv | bus/ibusimpl.c:890-983 | a focus change keeps references sound, engines single-held, and some context focused in global-engine mode |
| BrokerProps.FocusOutFallsBackToFake | bus/ibusimpl.c:1141-1160 | focus-out without the focus capability, or from an unfocused context, changes nothing; from the focused one in global-engine mode, the placeholder is focused and takes over the content type |
| BrokerProps.FocusInIdempotent | bus/ibusimpl.c:903-906 | a repeated focus-in changes nothing, and a context with the focus capability is focused after one |
| BrokerProps.DestroyKeepsInv | bus/ibusimpl.c:1169-1189 | destroying a context keeps the invariant; it is not focused afterwards, and in global-engine mode the placeholder takes over its focus |
| BrokerProps.EngineChangedGuard | bus/ibusimpl.c:1087-1108 | the global name changes exactly when global-engine mode is on, the context is the focused one (or the placeholder with nothing focused), and it holds an engine with a new name; the old name then becomes the previous one |
| BrokerProps.FallbackOrder | bus/ibusimpl.c:1043-1077 | the global engine is kept exactly while it is registered; otherwise it switches to the previous engine when that is registered, else to the first engine of the list; the engine is dropped exactly when nothing is registered |
| BrokerProps.SetGlobalEngineByNameCases | bus/ibusimpl.c:1006-1037 | nothing happens outside global-engine mode or for an unknown name; the current name only re-enables the focused (or placeholder) context; a known new name requests a switch of that context |
| BrokerProps.CheckFallsBackToPrevious | bus/ibusimpl.c:1043-1077 | when the global engine is gone and the previous one is registered, the switch goes back to the previous one |
| BrokerProps.CheckFallsBackToFirst | bus/ibusimpl.c:1066-1073 | when neither the global nor the previous engine is registered, the focused context is asked to switch to the first registered engine and nothing else changes |
| BrokerProps.CheckDropsEngineWhenNoneLeft | bus/ibusimpl.c:1043-1077 | with no engine registered, the focused context loses its engine; focus and the other contexts stay |
| BrokerProps.EngineChangedKeepsInv | bus/ibusimpl.c:1087-1108 | the invariant is kept |
| BrokerProps.ClearGlobalEngineKeepsInv | bus/ibusimpl.c:986-1003 | the invariant is kept |
| BrokerProps.SetGlobalEngineByNameKeepsInv | bus/ibusimpl.c:1006-1037 | the invariant is kept |
| BrokerProps.CheckGlobalEngineKeepsInv | bus/ibusimpl.c:1043-1077 | the invariant is kept |
| BrokerProps.SetGlobalEngineCallKeepsInv | bus/ibusimpl.c:1797-1835 | the invariant is kept, and only this call's invocation can become pending |
| BrokerProps.ReadyMovesEngineToFocus | bus/ibusimpl.c:1736-1788 | when focus moved away during a successful switch, the new engine ends on the focused context with the emoji link, and the requester keeps neither |
| BrokerProps.ReadyRepliesThenReplaysKeys | bus/ibusimpl.c:1736-1788 | a successful switch replies first, then replays the extension's key registration to the new engine |
| BrokerProps.ReadyWithoutRace | bus/ibusimpl.c:1736-1788 | when focus did not move, or the switch failed, no engine moves and focus stays; a failure answers the caller with the error |
| BrokerProps.ReadyKeepsCore | bus/ibusimpl.c:1736-1788 | a finished switch keeps the context set, the client list, focus and the counters |
| BrokerProps.ReadyKeepsInv | bus/ibusimpl.c:1736-1788 | the invariant is kept |
| BrokerProps.CreateContextKeepsInv | bus/ibusimpl.c:1199-1236 | the new context has a fresh id, is listed last among the clients, has no engine and no capabilities, and the invariant is kept |
| BrokerProps.AttachNewEngineKeepsInv | bus/ibusimpl.c:847-858 | a fresh engine session has one holder, so the invariant is kept |
| BrokerProps.SetCapsKeepsInv | bus/ibusimpl.c:1119-1160 | setting capabilities keeps the invariant |
| BrokerProps.PanelStepsKeepInv | bus/ibusimpl.c:317-391 | panel start and destroy, extension keys and EmbedPreeditText keep the invariant |
| BrokerProps.PanelProcessKeepsCore | bus/ibusimpl.c:317-330 | a panel starting or going away changes no context, no focus and no counter |
| BrokerProps.PanelStartTellsFocus | bus/ibusimpl.c:517-612 | a new panel or extension replaces the old one and is told once which context has focus, if any; a new extension starts switched off |
| BrokerProps.PanelPropertiesKeepCore | bus/ibusimpl.c:370-391 | the extension's keys and EmbedPreeditText change no context, no focus and no counter |
| BrokerProps.SetPanelExtensionModeKeepsInv | bus/ibusimpl.c:333-367 | the invariant is kept |
| BrokerProps.InitSatisfiesInv | bus/ibusimpl.c:628-677 | the start-up state satisfies the invariant, and in global-engine mode the placeholder is focused |
| BrokerProps.FocusInThenSwitch | src/tests/ibus-engine-switch.c:217-234 | a context with the focus capability that gains focus and is switched keeps focus and holds a new session of the new engine; the invariant holds |
| BrokerProps.FocusHandsOverGlobalEngine | src/tests/ibus-engine-switch.c:217-248 | after a second context gains focus, the first has no engine and the second holds the engine the first was switched to |
| Broker.IBusImpl.constructor | bus/ibusimpl.c:628-677 | the placeholder with the preedit, focus and surrounding-text capabilities, focused in global-engine mode, and the loaded registry |
| Broker.IBusImpl.SetFocusedContext | bus/ibusimpl.c:890-983 | performs SetFocusedStep and keeps the invariant |
| Broker.IBusImpl.DetachFocusedContext | bus/ibusimpl.c:903-947 | performs DetachFocused |
| Broker.IBusImpl.TakeFocusFrom | bus/ibusimpl.c:908-947 | performs the detach of a focused context |
| Broker.IBusImpl.AttachFocusedContext | bus/ibusimpl.c:949-979 | performs AttachFocus |
| Broker.IBusImpl.GiveFocus | bus/ibusimpl.c:955-979 | performs FocusOn |
| Broker.IBusImpl.FocusIn | bus/ibusimpl.c:1119-1132 | only a context with the focus capability takes focus; the invariant is kept |
| Broker.IBusImpl.FocusOut | bus/ibusimpl.c:1141-1160 | only the focused context with the focus capability gives focus up; the invariant is kept |
| Broker.IBusImpl.ContextDestroy | bus/ibusimpl.c:1169-1189 | performs DestroyStep and keeps the invariant |
| Broker.IBusImpl.RemoveContext | bus/ibusimpl.c:1169-1189 | performs DestroyStep |
| Broker.IBusImpl.EngineChanged | bus/ibusimpl.c:1087-1108 | performs EngineChangedStep and keeps the invariant |
| Broker.IBusImpl.ClearGlobalEngine | bus/ibusimpl.c:986-1003 | outside global-engine mode nothing changes; otherwise the focused context (whose emoji link is reset) or else the placeholder loses its engine |
| Broker.IBusImpl.SetGlobalEngineByName | bus/ibusimpl.c:1006-1037 | performs SetGlobalEngineByNameStep and keeps the invariant |
| Broker.IBusImpl.CheckGlobalEngine | bus/ibusimpl.c:1043-1077 | performs CheckGlobalEngineStep and keeps the invariant |
| Broker.IBusImpl.FallBack | bus/ibusimpl.c:1043-1077 | makes the fallback choice with registry lookups, and performs it |
| Broker.IBusImpl.ComponentDestroy | bus/ibusimpl.c:1335-1359 | the component and its engines leave the registered lists, then the global engine is checked |
| Broker.IBusImpl.SetGlobalEngine | bus/ibusimpl.c:1797-1835 | performs SetGlobalEngineCallStep and keeps the invariant |
| Broker.IBusImpl.SetGlobalEngineReady | bus/ibusimpl.c:1736-1788 | performs SetGlobalEngineReadyStep and keeps the invariant |
| Broker.IBusImpl.FinishSwitch | bus/ibusimpl.c:1736-1788 | performs SetGlobalEngineReadyStep |
| Broker.IBusImpl.GetGlobalEngineEnabled | bus/ibusimpl.c:1844-1866 | the answer is exactly whether the daemon runs in global-engine mode |
| Broker.IBusImpl.CreateInputContext | bus/ibusimpl.c:1199-1236 | a fresh context, listed last and enabled; the invariant is kept |
| Broker.IBusImpl.AttachNewEngine | bus/ibusimpl.c:847-858 | the context holds a new engine session with a fresh id |
| Broker.IBusImpl.SetCapabilities | bus/ibusimpl.c:1119-1160 | only the context's capabilities change |
| Broker.IBusImpl.PanelDestroy | bus/ibusimpl.c:317-330 | whichever of the panel and the extension it was is dropped |
| Broker.IBusImpl.PanelStart | bus/ibusimpl.c:517-612 | performs PanelStartStep and keeps the invariant |
| Broker.IBusImpl.SetPanelExtensionMode | bus/ibusimpl.c:333-367 | only while the extension runs: the switch is set and the focused context's emoji link follows it |
| Broker.IBusImpl.SetPanelExtensionKeys | bus/ibusimpl.c:370-391 | only while the extension runs: the keys are kept and given to the focused context's engine |
| Broker.IBusImpl.SetEmbedPreeditText | bus/ibusimpl.c:1978-1990 | the property changes and is announced only when its value differs |
| EngineSignals.Decode | bus/engineproxy.c:619-776 | definition: each signal kind takes its own argument shape and object class, else gives nothing |
| EngineSignals.Demux | bus/engineproxy.c:585-776 | definition of the dispatch: the nullary table first, then the signals with arguments; an unknown name gives nothing |
| EngineSignals.Find | bus/engineproxy.c:610-617 | a found entry has the name, and nothing is found only when no entry has it |
| EngineSignals.NullaryIndex | bus/engineproxy.c:596-608 | every nullary signal has an entry in the table |
| EngineSignals.ArgIndex | bus/engineproxy.c:621-776 | every signal with arguments has an entry in the table |
| EngineSignals.NamesDistinct | bus/engineproxy.c:592-776 | all 21 signal names are distinct |
| EngineSignals.NullaryRoundTrip | bus/engineproxy.c:592-617 | each nullary signal name is re-emitted as its own event, whatever the arguments |
| EngineSignals.ArgRoundTrip | bus/engineproxy.c:619-776 | each named signal with arguments is decoded by its own decoder |
| EngineSignals.DecodeRoundTrip | bus/engineproxy.c:619-776 | decoding the arguments an event travels with gives the event back |
| EngineSignals.DemuxRoundTrip | bus/engineproxy.c:585-776 | every event survives the trip through its signal name and arguments |
| EngineSignals.IndicesInvert | bus/engineproxy.c:592-776 | the index functions invert the tables |
| EngineSignals.DemuxNames | bus/engineproxy.c:585-776 | an event only comes from the signal that carries it, and an unknown name gives nothing |
| EngineSignals.DecodeKind | bus/engineproxy.c:619-776 | a decoded event is of the kind it was decoded as |
| ProxySpec.LookupKeysym | bus/engineproxy.c:1150-1153 | definition: a keymap lookup, VoidSymbol for a pair it does not map |
| ProxySpec.NewProxyStep | bus/engineproxy.c:779-840 | definition: the keymap of a non-empty layout, each capability flag from its category table, and a GetProperty probe for each category the table does not know |
| ProxySpec.ChosenKeymap | bus/engineproxy.c:1146-1148 | definition: the engine's own keymap, else the daemon's default |
| ProxySpec.EffectiveKeyval | bus/engineproxy.c:1141-1155 | definition: with a keycode and without the system layout, the chosen keymap's keysym unless it is VoidSymbol; otherwise the keyval as given |
| ProxySpec.ProcessKeyEventStep | bus/engineproxy.c:1132-1165 | definition: one ProcessKeyEvent call with the effective keyval and the keycode and state as given |
| ProxySpec.SetCursorLocationStep | bus/engineproxy.c:1168-1190 | definition: a changed location is cached and sent; an equal one is dropped |
| ProxySpec.SetCapabilitiesStep | bus/engineproxy.c:1227-1243 | definition: changed capabilities are cached and sent; equal ones are dropped |
| ProxySpec.SetSurroundingTextStep | bus/engineproxy.c:1296-1328 | definition: a changed text, cursor or anchor is cached and sent; an equal triple is dropped |
| ProxySpec.SetContentTypeStep | bus/engineproxy.c:1331-1366 | definition: a content type that differs from the cached property is cached and sent |
| ProxySpec.FocusInStep | bus/engineproxy.c:1513-1546 | definition: unless already focused on the same path, focus, path and client are recorded, surrounding text is requested if active, and FocusInId or FocusIn is sent |
| ProxySpec.FocusOutStep | bus/engineproxy.c:1549-1577 | definition: when focused, focus, path and client are forgotten and FocusOutId or FocusOut is sent |
| ProxySpec.EnableStep | bus/engineproxy.c:1580-1596 | definition: when disabled, enables, requests surrounding text if active, and sends Enable |
| ProxySpec.DisableStep | bus/engineproxy.c:1599-1613 | definition: when enabled, disables and sends Disable |
| ProxySpec.UpdateFirst | bus/engineproxy.c:534-540 | definition: the first property with the key is replaced |
| ProxySpec.SignalEffect | bus/engineproxy.c:523-540 | definition of the class handlers: register-properties replaces the list, update-property updates it by key, other signals change nothing |
| ProxySpec.HandleSignalStep | bus/engineproxy.c:585-776 | definition: a recognised signal takes its class handler's effect and is re-emitted; an unknown one is dropped |
| ProxySpec.FocusIdReplyStep | bus/engineproxy.c:1389-1420 | definition: an error changes nothing; an answer sets the focus-id flag and, while focused, requests surrounding text |
| ProxySpec.ActiveSurroundingReplyStep | bus/engineproxy.c:1435-1477 | definition: an error changes nothing; an answer sets the flag and, when the engine takes ids and a context is focused, re-sends focus-in |
| ProxySpec.KeyIndex | bus/engineproxy.c:534-540 | the index found holds the first property with the key, and there is none only when no property has it |
| ProxyProps.SetCursorLocationOnChange | bus/engineproxy.c:1168-1190 | the engine is called exactly when the location changes; a repeat is silent |
| ProxyProps.SetCapabilitiesOnChange | bus/engineproxy.c:1227-1243 | the engine is called exactly when the capabilities change; a repeat is silent |
| ProxyProps.SetSurroundingTextOnChange | bus/engineproxy.c:1296-1328 | one call per distinct (text, cursor, anchor) triple |
| ProxyProps.SetContentTypeOnChange | bus/engineproxy.c:1331-1366 | the engine is called exactly when the cached content type differs; a repeat is silent |
| ProxyProps.EnableOnChange | bus/engineproxy.c:1580-1596 | only a disabled proxy calls Enable, last; it first asks for surrounding text exactly when the engine uses it actively |
| ProxyProps.DisableOnChange | bus/engineproxy.c:1599-1613 | only an enabled proxy calls Disable |
| ProxyProps.EnableDisableRoundTrip | bus/engineproxy.c:1580-1613 | enable then disable restores the cache |
| ProxyProps.FocusInCases | bus/engineproxy.c:1513-1546 | silent when already focused on the path; otherwise remembers path and client, asks for surrounding text when active, and calls FocusInId exactly when the engine takes ids |
| ProxyProps.FocusOutCases | bus/engineproxy.c:1549-1577 | silent without focus; otherwise forgets path and client and calls FocusOutId exactly when the engine takes ids |
| ProxyProps.FocusIdempotent | bus/engineproxy.c:1513-1577 | a repeated focus-in, or a repeated focus-out, is silent |
| ProxyProps.FocusInOutRoundTrip | bus/engineproxy.c:1513-1577 | focus-in then focus-out restores the cache |
| ProxyProps.FocusStepsKeepInv | bus/engineproxy.c:1389-1577 | the focus flag, path and client stay in step |
| ProxyProps.HandleSignalKeepsInv | bus/engineproxy.c:585-776 | signals keep the invariant |
| ProxyProps.EffectiveKeyvalCases | bus/engineproxy.c:1132-1165 | the keyval is replaced exactly when the keycode is set, the system layout is unused, a keymap (own, else default) exists and the lookup finds a keysym |
| ProxyProps.ProcessKeyEventSends | bus/engineproxy.c:1132-1165 | a key event changes no cache and makes one call with the original keycode and state |
| ProxyProps.NewProxyCategories | bus/engineproxy.c:779-840 | a known category gives the flag without a probe; an unknown one is probed; the keymap is the layout's when the layout is not empty |
| ProxyProps.ProbeAnswerIsRemembered | bus/engineproxy.c:1389-1477 | a probe's answer sets the flag, and a later proxy for the engine takes it without probing |
| ProxyProps.FocusIdReplyCases | bus/engineproxy.c:1389-1420 | an error reply changes nothing; an answer sets the flag and asks for surrounding text when focused |
| ProxyProps.ActiveSurroundingReplyRefocuses | bus/engineproxy.c:1435-1477 | with focus on an id-aware engine, the answer re-sends FocusInId for the same path and client |
| ProxyProps.ActiveSurroundingReplyQuiet | bus/engineproxy.c:1435-1477 | otherwise the answer only sets the flag |
| ProxyProps.UpdateFirstSpec | bus/engineproxy.c:534-540 | an update replaces exactly the first property with the key and keeps the rest |
| ProxyProps.UpdateFirstIdempotent | bus/engineproxy.c:534-540 | updating twice equals updating once |
| ProxyProps.HandleSignalCases | bus/engineproxy.c:585-776 | a recognised signal is re-emitted as decoded; an unknown one is dropped; only the property list may change |
| ProxyProps.SignalEffectKeeps | bus/engineproxy.c:523-540 | a signal's class handler changes only the property list |
| ProxyProps.HandleSentEvent | bus/engineproxy.c:585-776 | an event sent through its signal is re-emitted as it was, and its class handler's effect lands on the cache |
| ProxyProps.PropertySignals | bus/engineproxy.c:523-540 | RegisterProperties sets the list, UpdateProperty updates its first match, and other signals leave the cache alone |
| Proxy.CategoryTables.constructor | bus/ibusimpl.c:663-665 | both tables start empty |
| Proxy.EngineProxy.constructor | bus/engineproxy.c:779-840 | performs NewProxyStep and satisfies the invariant |
| Proxy.EngineProxy.ProcessKeyEvent | bus/engineproxy.c:1132-1165 | sends the call ProcessKeyEventStep gives |
| Proxy.EngineProxy.SetCursorLocation | bus/engineproxy.c:1168-1190 | performs SetCursorLocationStep |
| Proxy.EngineProxy.SetCapabilities | bus/engineproxy.c:1227-1243 | performs SetCapabilitiesStep |
| Proxy.EngineProxy.SetSurroundingText | bus/engineproxy.c:1296-1328 | performs SetSurroundingTextStep |
| Proxy.EngineProxy.SetContentType | bus/engineproxy.c:1331-1366 | performs SetContentTypeStep |
| Proxy.EngineProxy.FocusIn | bus/engineproxy.c:1513-1546 | performs FocusInStep |
| Proxy.EngineProxy.FocusOut | bus/engineproxy.c:1549-1577 | performs FocusOutStep |
| Proxy.EngineProxy.Enable | bus/engineproxy.c:1580-1596 | performs EnableStep |
| Proxy.EngineProxy.Disable | bus/engineproxy.c:1599-1613 | performs DisableStep |
| Proxy.EngineProxy.HandleSignal | bus/engineproxy.c:585-776 | performs HandleSignalStep |
| Proxy.EngineProxy.EmitEvent | bus/engineproxy.c:523-540 | records the emission, then applies the class handler (register-properties and update-property are run-last, `bus/engineproxy.c:423`, 437), which keeps the property list |
| Proxy.EngineProxy.FocusIdReply | bus/engineproxy.c:1389-1420 | performs FocusIdReplyStep and records the category under the engine's name |
| Proxy.EngineProxy.ActiveSurroundingReply | bus/engineproxy.c:1435-1477 | performs ActiveSurroundingReplyStep and records the category under the engine's name |
| CreationSpec.Start | bus/engineproxy.c:1031-1101 | definition: an already cancelled request completes with the cancel message; without a factory the component starts and the triggers are armed; with one the engine is created |
| CreationSpec.Free | bus/engineproxy.c:855-889 | definition: every trigger is disarmed and the request is freed |
| CreationSpec.Step | bus/engineproxy.c:899-1028 | definition of each trigger: a factory disarms and creates, a timeout or the idle completes with its message, a cancel schedules the idle, a created engine completes with the reply |
| CreationSpec.StartSatisfiesInv | bus/engineproxy.c:1031-1101 | a new request is well formed; an already cancelled one is completed with the cancel message |
| CreationSpec.StepKeepsInv | bus/engineproxy.c:855-1028 | each delivered event keeps the request well formed and only appends to the completions; a freed request does not change |
| CreationSpec.FreedIsInert | bus/engineproxy.c:855-889 | a freed request can only see a cancellation, which changes nothing |
| CreationSpec.FactoryDisarmsBeforeCreate | bus/engineproxy.c:936-977 | the factory's arrival disarms the timeout, the notify handler and the cancel handler before CreateEngine |
| CreationSpec.FailuresComplete | bus/engineproxy.c:987-1016 | a timeout and a cancellation complete the GTask with their own message and free the request |
| CreationSpec.CanComplete | bus/engineproxy.c:1031-1101 | an incomplete request always has an armed trigger that completes it |
| CreationSpec.RunCompletesAtMostOnce | bus/engineproxy.c:855-1101 | in any admissible order of events the GTask is completed at most once, and nothing it was told is taken back |
| CreationSpec.CompletedStaysPut | bus/engineproxy.c:855-889 | once completed, no event changes the request |
| Creation.EngineProxyNew.constructor | bus/engineproxy.c:1031-1101 | performs Start |
| Creation.EngineProxyNew.FreeData | bus/engineproxy.c:855-889 | disarms every trigger and frees |
| Creation.EngineProxyNew.NotifyFactory | bus/engineproxy.c:936-977 | performs the factory-notified transition |
| Creation.EngineProxyNew.Timeout | bus/engineproxy.c:987-996 | performs the timeout transition |
| Creation.EngineProxyNew.CancelledCb | bus/engineproxy.c:1019-1028 | performs the cancellation transition |
| Creation.EngineProxyNew.CancelledIdle | bus/engineproxy.c:1006-1016 | performs the idle transition |
| Creation.EngineProxyNew.CreateEngineReady | bus/engineproxy.c:899-925 | performs the create-finished transition |
| ImContextSpec.InitialCtx | client/gtk2/ibusimcontext.c:1081-1146 | definition: a new context has no focus, no IBus context, no pending request, an empty queue and a hidden preedit |
| ImContextSpec.Enqueue | client/gtk2/ibusimcontext.c:1322-1338 | definition: the event is pushed and, past the bound, the oldest is dropped |
| ImContextSpec.EnqueueAll | client/gtk2/ibusimcontext.c:1322-1338 | definition: the events pushed one after another |
| ImContextSpec.WireState | client/gtk2/ibusimcontext.c:596-606 | definition: a release carries the release bit in the state sent |
| ImContextSpec.ProcessCall | client/gtk2/ibusimcontext.c:485-628 | every mode sends the keyval, the hardware keycode less 8 (wrapping as guint: 8 added back gives the hardware keycode, codes below 8 wrap to the top of the range) and the wire state |
| ImContextSpec.DrainCalls | client/gtk2/ibusimcontext.c:2412-2426 | definition: one ProcessCall per queued event, oldest first |
| ImContextSpec.FilterKeypressStep | client/gtk2/ibusimcontext.c:1248-1341 | definition: without the daemon or focus the event goes to the fallback; marked events are taken as handled or committed; with an IBus context it is sent; while creation is pending or the bus is down it is queued; otherwise refused |
| ImContextSpec.CreateInputContextStep | client/gtk2/ibusimcontext.c:2433-2464 | definition: a request starts unless one is pending |
| ImContextSpec.ContentTypeCheck | client/gtk2/ibusimcontext.c:665-689 | definition: with an IBus context the content type is sent unless the password filter withholds a password or PIN purpose, which also refuses focus |
| ImContextSpec.NotifyContentTypeStep | client/gtk2/ibusimcontext.c:1149-1158 | definition: the new purpose and hints are stored and passed through the content-type check |
| ImContextSpec.SetupCalls | client/gtk2/ibusimcontext.c:2351-2398 | definition: the capabilities, then for a focused context the content type (unless the password filter withholds it) and focus-in |
| ImContextSpec.CreateDoneStep | client/gtk2/ibusimcontext.c:2332-2430 | definition: failure ends the request; success creates the IBus context, sends the setup calls and then the queue's ProcessCalls, and empties the queue |
| ImContextSpec.UpdatePreedit | client/gtk2/ibusimcontext.c:2159-2250 | definition: the preedit is replaced; becoming visible emits start and changed, staying visible changed, becoming hidden changed and end |
| ImContextSpec.ShowPreedit | client/gtk2/ibusimcontext.c:2253-2266 | definition: a hidden preedit becomes visible with start and changed |
| ImContextSpec.HidePreedit | client/gtk2/ibusimcontext.c:2269-2280 | definition: a visible preedit is hidden with changed and end |
| ImContextSpec.PendingCommit | client/gtk2/ibusimcontext.c:1211-1245 | definition: a visible preedit in commit mode leaves its text to commit |
| ImContextSpec.ClearPreedit | client/gtk2/ibusimcontext.c:1211-1245 | definition: an empty update keeping cursor and visibility, then the commit of what was pending |
| ImContextSpec.PreeditString | client/gtk2/ibusimcontext.c:1468-1504 | definition: the visible text and cursor, else the empty string at 0 |
| ImContextSpec.FocusInStep | client/gtk2/ibusimcontext.c:1344-1409 | definition: unless already focused or a hidden entry, the fake context, if any, is focused out when no context is focused; then the content-type check decides whether focus is taken and focus-in sent |
| ImContextSpec.FocusOutStep | client/gtk2/ibusimcontext.c:1412-1442 | definition: a focused context drops focus and, with an IBus context, clears its preedit and sends focus-out; the focused-context global is cleared and the fake context, if any, is focused in |
| ImContextSpec.Newest | client/gtk2/ibusimcontext.c:1329-1338 | the newest events kept never exceed the bound |
| ImContextProps.EnqueueBounded | client/gtk2/ibusimcontext.c:1322-1338 | the queue stays within 20 events: below the bound the event is appended; at the bound the oldest is dropped |
| ImContextProps.NewestAbsorbs | client/gtk2/ibusimcontext.c:1322-1338 | trimming in two steps equals trimming once |
| ImContextProps.EnqueueKeepsNewest | client/gtk2/ibusimcontext.c:1322-1338 | a push keeps the newest events |
| ImContextProps.EnqueueAllKeepsNewest | client/gtk2/ibusimcontext.c:1322-1338 | any sequence of pushes leaves the newest events, in arrival order |
| ImContextProps.DrainCallsInOrder | client/gtk2/ibusimcontext.c:2412-2426 | the drain makes one ProcessCall per queued event, oldest first (ProcessCall: keyval, hardware keycode less 8, state with the release bit) |
| ImContextProps.FilterKeypressCases | client/gtk2/ibusimcontext.c:1259-1341 | an event is queued exactly when the daemon runs, the context has focus, the event is unmarked, there is no IBus context yet, and creation is pending or the bus is disconnected; an event with an IBus context is sent as its ProcessCall |
| ImContextProps.WaitingContextQueuesOne | client/gtk2/ibusimcontext.c:1315-1338 | a waiting context queues an unmarked event |
| ImContextProps.WaitingContextQueues | client/gtk2/ibusimcontext.c:1315-1338 | a waiting context keeps the newest of the events it filters |
| ImContextProps.CreateDoneDrains | client/gtk2/ibusimcontext.c:2332-2430 | on success the IBus context exists, the queue is empty and exactly the setup calls and then the queued events' ProcessCalls, in order, were sent; on failure only the pending request ends |
| ImContextProps.WaitedEventsReachIBus | client/gtk2/ibusimcontext.c:2412-2426 | the events typed while waiting reach IBus after creation: exactly the setup calls, then the newest twenty events' ProcessCalls in typing order, each with its keycode less 8 |
| ImContextProps.CreateInputContextOnce | client/gtk2/ibusimcontext.c:2433-2464 | a request starts only when none is pending |
| ImContextProps.UpdatePreeditSignals | client/gtk2/ibusimcontext.c:2159-2250 | an update emits start and end exactly on a change of visibility, and changed whenever it is or was visible |
| ImContextProps.UpdatePreeditReadBack | client/gtk2/ibusimcontext.c:1468-1504 | what an update sets is what the application reads back |
| ImContextProps.ShowHideIdempotent | client/gtk2/ibusimcontext.c:2253-2280 | showing a visible preedit and hiding a hidden one are silent no-ops |
| ImContextProps.ShowHideRoundTrip | client/gtk2/ibusimcontext.c:2253-2280 | hide undoes show and show undoes hide; a hidden preedit reads as empty |
| ImContextProps.ClearPreeditCommits | client/gtk2/ibusimcontext.c:1211-1245 | clearing empties the string and keeps cursor and visibility; it commits exactly when visible in commit mode |
| ImContextProps.ClearPreeditOnce | client/gtk2/ibusimcontext.c:1211-1245 | a second clear commits nothing more |
| ImContextProps.PreeditStepsFollowProtocol | client/gtk2/ibusimcontext.c:2159-2280 | every preedit transition's signals follow the start/changed/end protocol |
| ImContextProps.ApplyPreeditKeepsInv | client/gtk2/ibusimcontext.c:2159-2280 | a transition that follows the protocol keeps the context well formed |
| ImContextProps.PreeditStepsKeepInv | client/gtk2/ibusimcontext.c:2159-2280 | the preedit transitions keep the context well formed |
| ImContextProps.FocusNoOps | client/gtk2/ibusimcontext.c:1344-1442 | focus-in of a focused context and focus-out of an unfocused one change nothing; a hidden entry never gains focus; a second focus-in leaves the context as the first did |
| ImContextProps.FocusInCases | client/gtk2/ibusimcontext.c:1344-1409 | focus-in of an unfocused context takes focus, and sends the content type and focus-in when an IBus context exists, unless the content-type check refuses; a refused one changes neither the context nor the focused context; the fake context hears focus-out whenever nothing was focused |
| ImContextProps.DiscardedPasswordNotFocused | client/gtk2/ibusimcontext.c:665-689 | with the password filter on, a password or PIN entry never gains focus and IBus hears nothing |
| ImContextProps.NotifyContentTypeCases | client/gtk2/ibusimcontext.c:665-689 | a purpose or hints change is stored; IBus hears SetContentType exactly when the context has an IBus context and the password filter does not withhold it; the invariant is kept |
| ImContextProps.PasswordPurposeRefusesFocus | client/gtk2/ibusimcontext.c:665-689 | after switching to a password or PIN purpose under the password filter, IBus hears nothing and a later focus-in changes nothing |
| ImContextProps.FocusOutCases | client/gtk2/ibusimcontext.c:1412-1442 | focus-out drops focus, forgets the focused context, clears the preedit, tells IBus, then focuses the fake context |
| ImContextProps.FilterKeypressKeepsInv | client/gtk2/ibusimcontext.c:1248-1341 | filtering keeps the context well formed |
| ImContextProps.CreationStepsKeepInv | client/gtk2/ibusimcontext.c:2332-2464 | the creation steps keep the context well formed |
| ImContextProps.FocusStepsKeepInv | client/gtk2/ibusimcontext.c:1344-1442 | focus changes keep the context well formed |
| ImContextProps.FocusKeepsFocusInv | client/gtk2/ibusimcontext.c:1344-1442 | the remembered focused context is always one that has focus |
| ImContextProps.TwoContextsKeepFocus | client/gtk2/ibusimcontext.c:1344-1442 | focus-in does not take focus from another context; a later focus-out of the first forgets the focused context while the second still has focus |
| ImContext.ClientGlobals.constructor | client/gtk2/ibusimcontext.c:880-1010 | nothing focused, and no calls on the fake context yet |
| ImContext.IMContext.constructor | client/gtk2/ibusimcontext.c:1081-1146 | a context without focus, IBus context, queue or preedit |
| ImContext.IMContext.FilterKeypress | client/gtk2/ibusimcontext.c:1248-1341 | performs FilterKeypressStep (queue, pass on, or send the ProcessCall) and keeps the invariant |
| ImContext.IMContext.ApplyFilterKeypress | client/gtk2/ibusimcontext.c:1248-1341 | performs FilterKeypressStep (queue, pass on, or send the ProcessCall) |
| ImContext.IMContext.CreateInputContext | client/gtk2/ibusimcontext.c:2433-2464 | starts a request unless one is pending |
| ImContext.IMContext.CreateInputContextDone | client/gtk2/ibusimcontext.c:2332-2430 | performs CreateDoneStep and keeps the invariant |
| ImContext.IMContext.ApplyCreateDone | client/gtk2/ibusimcontext.c:2332-2430 | performs CreateDoneStep |
| ImContext.IMContext.SendSetup | client/gtk2/ibusimcontext.c:2351-2398 | sends the capabilities, then for a focused context the content type and focus-in |
| ImContext.IMContext.DrainQueue | client/gtk2/ibusimcontext.c:2412-2426 | empties the queue, sending each event's ProcessCall oldest first |
| ImContext.IMContext.UpdatePreeditText | client/gtk2/ibusimcontext.c:2159-2250 | performs UpdatePreedit and keeps the invariant |
| ImContext.IMContext.ApplyUpdatePreedit | client/gtk2/ibusimcontext.c:2159-2250 | performs UpdatePreedit |
| ImContext.IMContext.ShowPreeditText | client/gtk2/ibusimcontext.c:2253-2266 | performs ShowPreedit and keeps the invariant |
| ImContext.IMContext.HidePreeditText | client/gtk2/ibusimcontext.c:2269-2280 | performs HidePreedit and keeps the invariant |
| ImContext.IMContext.ClearPreeditText | client/gtk2/ibusimcontext.c:1211-1245 | performs ClearPreedit and keeps the invariant |
| ImContext.IMContext.ApplyClearPreedit | client/gtk2/ibusimcontext.c:1211-1245 | performs ClearPreedit |
| ImContext.IMContext.GetPreeditString | client/gtk2/ibusimcontext.c:1468-1504 | the visible string and cursor, or ("", 0) when hidden |
| ImContext.IMContext.NotifyContentType | client/gtk2/ibusimcontext.c:1149-1158 | performs NotifyContentTypeStep (store purpose and hints, pass them on) and keeps the invariant |
| ImContext.IMContext.FocusIn | client/gtk2/ibusimcontext.c:1344-1409 | performs FocusInStep on the context and the globals, and keeps the invariant |
| ImContext.IMContext.ApplyFocusIn | client/gtk2/ibusimcontext.c:1344-1409 | performs FocusInStep |
| ImContext.IMContext.FocusOut | client/gtk2/ibusimcontext.c:1412-1442 | performs FocusOutStep on the context and the globals, and keeps the invariant |
| ImContext.IMContext.ApplyFocusOut | client/gtk2/ibusimcontext.c:1412-1442 | performs FocusOutStep |
| ClientEnv.GetBooleanEnv | client/gtk2/ibusimcontext.c:811-828 | an unset variable gives the default; a set one is false exactly for "", "0", "false", "False" and "FALSE" |
| ClientEnv.GetCharEnv | client/gtk2/ibusimcontext.c:831-850 | an unset variable gives the default; a false spelling gives 0; "2" gives 2; anything else gives 1 |
| ClientEnv.CharEnvRefinesBooleanEnv | client/gtk2/ibusimcontext.c:811-850 | the two parsers agree on which values are set, and the char parser gives 0, 1 or 2 |
| ClientEnv.Sub32 | client/gtk2/ibusimcontext.c:1760-1821 | unsigned 32-bit subtraction, wrapping below zero |
| ClientEnv.GetSelectionAnchorPoint | client/gtk2/ibusimcontext.c:1760-1821 | definition: the selection end the cursor is not at, relative to the surrounding text's origin, else the cursor position |
| ClientEnv.AnchorPointCases | client/gtk2/ibusimcontext.c:1760-1821 | the anchor is the cursor position unless the cursor is at one end of a text-view selection; then it lies within the surrounding text |
| ClientEnv.AnchorAtOtherEnd | client/gtk2/ibusimcontext.c:1760-1821 | with the cursor at one end of a selection inside the text, the anchor is the other end, relative to the text's origin |

## Left out

- D-Bus plumbing, GVariant marshalling, object references and signal connection: arguments arrive as decoded values, and calls and replies are log entries.
- The input context (`bus/inputcontext.c`) is not part of this model. The broker sees only a context's capabilities, engine, content type and emoji link. Engine switching in a context is its completion `AttachNewEngine`, and "engine-changed" is an event given to the broker.
- After `BrokerProps.FocusHandsOverGlobalEngine`, the context that lost focus holds no engine; the engine-switch test reads "dummy" for it. That name comes from the input context, which is not part of this model.
- The panel proxy is not part of this model. Three panel behaviours are not modelled:
  - the relays of preedit, lookup-table, auxiliary-text, key and message signals between panels and contexts;
  - the property list sent to a new panel;
  - the extension events `SetPanelExtensionMode` forwards.
- `src/ibusproperty.c` and `src/ibusproplist.c` are not part of this model. The property list is a flat list updated by key: an update replaces the whole stored property, its type and sub-properties included, where `ibus_property_update` copies only the label, icon, tooltip, sensitive, visible, state and symbol; sub-properties are not searched.
- The component object (`bus/component.c`) and the factory proxy are not part of this model. Starting a component, creating a factory and a factory going away are effects and flags.
- Keymaps are finite maps from (keycode, state) to keysyms. The keymap files and the layout lookup are left out.
- `Proxy.EngineProxy.SetContentType` compares the values with the cached ContentType D-Bus property, which is a field of the proxy here. GDBus's property cache is left out.
- The pass-through engine-proxy RPCs are not modelled:
  - property activate, show and hide;
  - candidate clicks;
  - hand-writing events;
  - `bus_engine_proxy_real_destroy`.
- The engine's answer to ProcessKeyEvent is not modelled, and neither are the sync, async and hybrid key modes (`_process_key_event*`) or `ibus_im_context_commit_event`. Their outcomes are the `KeyOutcome` tags. What every mode sends is modelled: the keyval, the hardware keycode less 8 (wrapping as `guint`) and the state with the release bit (`client/gtk2/ibusimcontext.c:494-497`, 524-528, 560-564).
- Decode: a ForwardKeyEvent or DeleteSurroundingText whose arguments have the wrong D-Bus type gives no event, where `bus/engineproxy.c:634-656` logs a `g_variant_get` critical and still emits the signal with zeroed arguments.
- The GTK module's toolkit side is not modelled:
  - widgets, windows and GdkEvent construction;
  - the slave context and its callbacks;
  - cursor-location scaling;
  - retrieve and delete surrounding;
  - Pango attributes;
  - the key snooper;
  - `_ibus_context_destroy_cb`;
  - the fake context's creation.
- The creation protocol assumes that a scheduled idle runs before the request is freed. This is the daemon's event-loop priority. `engine_proxy_new_data_free` does not remove the idle.
- Process supervision, the registry cache on disk, `ui/gtk3/xml-to-c.py` and `src/get_system_langs.py` are build or start-up tooling outside the core.
- `ImContext.IMContext.CreateInputContext` requires that no IBus input context exists. The source asserts this.
- `ImContext.IMContext.ClearPreeditText` requires an IBus input context. The source asserts this.
