/**
 * The focus and global-engine arbitration of the daemon (bus/ibusimpl.c),
 * as transitions on a value that holds the broker's state. Each
 * transition is one callback or D-Bus method of the daemon; since the
 * daemon runs on one event loop, each is atomic. The class in module
 * Broker performs the same transitions in place and is proved against
 * these functions.
 *
 * Input contexts are values here: their engine, capabilities, content
 * type and emoji-extension link are the parts of an input context the
 * broker reads and writes. Calls the broker makes into input contexts
 * and panels that have effects elsewhere are recorded in an event log.
 */
module BrokerSpec {
  import opened Common
  import opened Registry

  type ContextId = nat
  type EngineId = nat
  type PanelId = nat
  type InvocationId = nat
  type Caps = bv32

  // Bits of IBusCapabilite.
  const CapPreeditText: Caps := 0x1
  const CapFocus: Caps := 0x8
  const CapSurroundingText: Caps := 0x20

  /** The key-registration payload the panel extension sends, kept as an
      opaque value. */
  datatype Payload = Payload(data: seq<int>)

  /** One engine session, identified by id, of the engine desc. */
  datatype Engine = Engine(id: EngineId, desc: EngineDesc)

  /** What the broker sees of an input context. */
  datatype InputContext = InputContext(caps: Caps, engine: Option<Engine>,
                                       purpose: bv32, hints: bv32,
                                       emoji: Option<PanelId>)

  /** What the panel and the emoji extension are told about a context. */
  datatype PanelOp = FocusIn | FocusOut | DestroyContext

  /** Calls the broker makes whose effect lies outside the broker. */
  datatype Event =
    | ClearPreedit(context: ContextId, commit: bool)
    | ContextEnabled(context: ContextId)
    | ToPanel(op: PanelOp, panel: PanelId, context: ContextId)
    | GlobalEngineChanged(name: string)
    | SwitchRequested(context: ContextId, desc: EngineDesc, caller: Option<InvocationId>)
    | RegisterKeys(engine: EngineId, payload: Payload)
    | Reply(invocation: InvocationId, result: Result<()>)
    | PropertyChanged(property: string)

  /** Fixed at start-up: whether one engine is shared by all contexts,
      and the placeholder context that is focused when no client is. */
  datatype Config = Config(useGlobalEngine: bool, fake: ContextId)

  /** The broker's state. */
  datatype State = State(
    contexts: map<ContextId, InputContext>,
    clientContexts: seq<ContextId>,
    focused: Option<ContextId>,
    globalName: Option<string>,
    previousName: Option<string>,
    panel: Option<PanelId>,
    emojiExtension: Option<PanelId>,
    enableEmoji: bool,
    embedPreeditText: bool,
    registerKeys: Option<Payload>,
    pending: map<InvocationId, ContextId>,
    nextContextId: ContextId,
    nextEngineId: EngineId,
    log: seq<Event>)

  /** The references in the state point at existing contexts. */
  predicate Wf(s: State, cfg: Config)
  {
    cfg.fake in s.contexts
    && (s.focused.Some? ==> s.focused.value in s.contexts)
    && (forall i :: 0 <= i < |s.clientContexts| ==>
                      s.clientContexts[i] in s.contexts && s.clientContexts[i] != cfg.fake)
    && NoDup(s.clientContexts)
    && (forall c :: c in s.contexts ==> c < s.nextContextId)
  }

  /** No engine session is held by two contexts. */
  predicate SingleHolder(contexts: map<ContextId, InputContext>)
  {
    forall a, b :: a in contexts && b in contexts && a != b
                   && contexts[a].engine.Some? && contexts[b].engine.Some?
                   ==> contexts[a].engine.value.id != contexts[b].engine.value.id
  }

  /** The invariant the broker keeps: references are sound and each
      client context is listed once, each engine has one holder and an
      id below the next fresh one, and in global-engine mode some context
      (a client or the placeholder) is always focused. */
  predicate Inv(s: State, cfg: Config)
  {
    Wf(s, cfg)
    && SingleHolder(s.contexts)
    && (forall c :: c in s.contexts && s.contexts[c].engine.Some? ==>
                      s.contexts[c].engine.value.id < s.nextEngineId)
    && (cfg.useGlobalEngine ==> s.focused.Some?)
  }

  /** The emoji-extension link a context gets when it is given the
      global engine. */
  function EmojiSetting(s: State): Option<PanelId>
  {
    if s.enableEmoji then s.emojiExtension else None
  }

  function SetEngineOf(s: State, c: ContextId, e: Option<Engine>): State
    requires c in s.contexts
  {
    s.(contexts := s.contexts[c := s.contexts[c].(engine := e)])
  }

  function SetEmojiOf(s: State, c: ContextId, x: Option<PanelId>): State
    requires c in s.contexts
  {
    s.(contexts := s.contexts[c := s.contexts[c].(emoji := x)])
  }

  /** The same call to the panel and then to the emoji extension, for
      those that run. */
  function PanelEvents(panel: Option<PanelId>, extension: Option<PanelId>, op: PanelOp,
                       c: ContextId): seq<Event>
  {
    (if panel.Some? then [ToPanel(op, panel.value, c)] else [])
    + (if extension.Some? then [ToPanel(op, extension.value, c)] else [])
  }

  // ---------------------------------------------------------------
  // Focus
  // ---------------------------------------------------------------

  /** The state after the old focused context lost focus, with the
      engine taken from it and its content type. */
  datatype Detached = Detached(s: State, engine: Option<Engine>, purpose: bv32, hints: bv32)

  /** The first half of a focus change: in global-engine mode the engine
      of the focused context is taken from it (its preedit cleared without
      commit); the panels are told it lost focus; its emoji link is cut;
      nothing is focused any more. */
  function DetachFocused(s: State, cfg: Config): (d: Detached)
    requires Wf(s, cfg)
    ensures d.s.focused.None?
    ensures d.s.contexts.Keys == s.contexts.Keys
    ensures d.s.clientContexts == s.clientContexts && d.s.nextEngineId == s.nextEngineId
    ensures d.engine.Some? ==> cfg.useGlobalEngine && s.focused.Some?
                               && d.engine == s.contexts[s.focused.value].engine
    ensures forall c :: c in s.contexts ==>
              d.s.contexts[c].engine == (if d.engine.Some? && s.focused == Some(c) then None
                                         else s.contexts[c].engine)
  {
    if s.focused.None? then Detached(s, None, 0, 0)
    else DetachFrom(s, cfg, s.focused.value)
  }

  /** Context f loses focus, its emoji link and, in global-engine mode,
      its engine (its preedit cleared without commit); the panels are
      told. */
  function DetachFrom(s: State, cfg: Config, f: ContextId): Detached
    requires f in s.contexts
  {
    var ic := s.contexts[f];
    var engine := if cfg.useGlobalEngine then ic.engine else None;
    var ic' := ic.(engine := if engine.Some? then None else ic.engine, emoji := None);
    Detached(s.(contexts := s.contexts[f := ic'], focused := None,
                log := s.log + (if engine.Some? then [ClearPreedit(f, false)] else [])
                             + PanelEvents(s.panel, s.emojiExtension, FocusOut, f)),
             engine, ic.purpose, ic.hints)
  }

  /** The context that becomes focused: the target, or the placeholder
      when there is none in global-engine mode. */
  function FocusTarget(cfg: Config, target: Option<ContextId>): Option<ContextId>
  {
    if target.None? && cfg.useGlobalEngine then Some(cfg.fake) else target
  }

  /** The second half of a focus change: the placeholder takes over the
      content type when it replaces a missing target; the new context is
      focused and gets the engine taken from the old one, enabled and
      with the emoji link; the panels are told it gained focus. */
  function AttachFocus(d: Detached, cfg: Config, target: Option<ContextId>): (r: State)
    requires Wf(d.s, cfg) && d.s.focused.None? && (target.Some? ==> target.value in d.s.contexts)
    ensures r.contexts.Keys == d.s.contexts.Keys && r.focused == FocusTarget(cfg, target)
    ensures r.clientContexts == d.s.clientContexts && r.nextEngineId == d.s.nextEngineId
    ensures forall c :: c in d.s.contexts ==>
              r.contexts[c].engine == (if d.engine.Some? && FocusTarget(cfg, target) == Some(c)
                                       then d.engine else d.s.contexts[c].engine)
  {
    var s := if target.None? && cfg.useGlobalEngine then
               d.s.(contexts := d.s.contexts[cfg.fake :=
                      d.s.contexts[cfg.fake].(purpose := d.purpose, hints := d.hints)])
             else d.s;
    var t := FocusTarget(cfg, target);
    if t.None? then s else FocusOn(s, t.value, d.engine)
  }

  /** Context c becomes the focused one and gets the engine, if any,
      enabled and with the emoji link; the panels are told. */
  function FocusOn(s: State, c: ContextId, engine: Option<Engine>): (r: State)
    requires c in s.contexts
    ensures r.contexts.Keys == s.contexts.Keys && r.focused == Some(c)
    ensures r.clientContexts == s.clientContexts && r.nextEngineId == s.nextEngineId
    ensures forall x :: x in s.contexts ==>
              r.contexts[x].engine == (if engine.Some? && x == c then engine else s.contexts[x].engine)
  {
    var ic := s.contexts[c];
    s.(contexts := s.contexts[c := if engine.Some? then ic.(engine := engine, emoji := EmojiSetting(s))
                                  else ic],
       focused := Some(c),
       log := s.log + (if engine.Some? then [ContextEnabled(c)] else [])
                    + PanelEvents(s.panel, s.emojiExtension, FocusIn, c))
  }

  /** bus_ibus_impl_set_focused_context. */
  function SetFocusedStep(s: State, cfg: Config, target: Option<ContextId>): (r: State)
    requires Wf(s, cfg) && (target.Some? ==> target.value in s.contexts)
    ensures Wf(r, cfg) && r.contexts.Keys == s.contexts.Keys
    ensures r.clientContexts == s.clientContexts && r.nextEngineId == s.nextEngineId
    ensures s.focused != target ==> r.focused == FocusTarget(cfg, target)
  {
    if s.focused == target then s
    else AttachFocus(DetachFocused(s, cfg), cfg, target)
  }

  /** A context with the focus capability gained focus. */
  function FocusInStep(s: State, cfg: Config, c: ContextId): State
    requires Wf(s, cfg) && c in s.contexts
  {
    if s.contexts[c].caps & CapFocus == 0 then s
    else SetFocusedStep(s, cfg, Some(c))
  }

  /** A context lost focus; only the focused one, with the focus
      capability, counts. */
  function FocusOutStep(s: State, cfg: Config, c: ContextId): State
    requires Wf(s, cfg) && c in s.contexts
  {
    if s.contexts[c].caps & CapFocus == 0 || s.focused != Some(c) then s
    else SetFocusedStep(s, cfg, None)
  }

  /** A client context is destroyed: it loses focus first, the panels
      forget it, and it leaves the context list. */
  function DestroyStep(s: State, cfg: Config, c: ContextId): (r: State)
    requires Wf(s, cfg) && c in s.clientContexts
    ensures Wf(r, cfg) && r.contexts.Keys == s.contexts.Keys - {c}
  {
    var s1 := if s.focused == Some(c) then SetFocusedStep(s, cfg, None) else s;
    var focusCap := s1.contexts[c].caps & CapFocus != 0;
    var r := s1.(clientContexts := RemoveFirst(s1.clientContexts, c),
                 contexts := s1.contexts - {c},
                 log := s1.log + (if focusCap then PanelEvents(s1.panel, s1.emojiExtension, DestroyContext, c)
                                  else []));
    RemoveFirstKeeps(s1.clientContexts, c);
    assert forall i :: 0 <= i < |r.clientContexts| ==> r.clientContexts[i] in s1.clientContexts;
    r
  }

  lemma {:induction false} RemoveFirstKeeps<T>(s: seq<T>, x: T)
    ensures forall y :: y in RemoveFirst(s, x) ==> y in s
    ensures NoDup(s) ==> x !in RemoveFirst(s, x) && NoDup(RemoveFirst(s, x))
  {
    if s != [] {
      RemoveFirstKeeps(s[1..], x);
      if s[0] != x {
        assert RemoveFirst(s, x) == [s[0]] + RemoveFirst(s[1..], x);
        if NoDup(s) {
          assert s[0] !in s[1..];
        }
      } else {
        assert NoDup(s) ==> x !in s[1..];
      }
    }
  }

  // ---------------------------------------------------------------
  // Global engine
  // ---------------------------------------------------------------

  /** The context the global engine is applied to: the focused one, or
      the placeholder. */
  function GlobalTarget(s: State, cfg: Config): ContextId
  {
    if s.focused.Some? then s.focused.value else cfg.fake
  }

  /** engine-changed from a context: in global-engine mode, when it comes
      from the focused context (or from the placeholder while nothing is
      focused) and the context's engine has a new name, the previous
      global name becomes the old one and the engine's name the global
      one. */
  function EngineChangedStep(s: State, cfg: Config, c: ContextId): (r: State)
    requires c in s.contexts
  {
    if !cfg.useGlobalEngine then s
    else if !(s.focused == Some(c) || (s.focused.None? && c == cfg.fake)) then s
    else if s.contexts[c].engine.None? then s
    else
      var name := s.contexts[c].engine.value.desc.name;
      if s.globalName == Some(name) then s
      else s.(previousName := s.globalName, globalName := Some(name),
              log := s.log + [GlobalEngineChanged(name)])
  }

  /** bus_ibus_impl_set_global_engine with no engine (its only use): the
      focused context, or else the placeholder, loses its engine. */
  function ClearGlobalEngineStep(s: State, cfg: Config): (r: State)
    requires Wf(s, cfg)
  {
    if !cfg.useGlobalEngine then s
    else if s.focused.Some? then
      SetEmojiOf(SetEngineOf(s, s.focused.value, None), s.focused.value, EmojiSetting(s))
    else SetEngineOf(s, cfg.fake, None)
  }

  /** bus_ibus_impl_set_global_engine_by_name: re-enables the target
      context when the name is already the global one; otherwise asks
      the target context to switch to the named engine, if there is one. */
  function SetGlobalEngineByNameStep(s: State, cfg: Config, list: seq<EngineDesc>,
                                     table: map<string, EngineDesc>, name: string): (r: State)
    requires Wf(s, cfg)
  {
    if !cfg.useGlobalEngine then s
    else
      var c := GlobalTarget(s, cfg);
      if s.globalName == Some(name) then s.(log := s.log + [ContextEnabled(c)])
      else
        match LookupDesc(list, table, name)
        case None => s
        case Some(d) => s.(log := s.log + [SwitchRequested(c, d, None)])
  }

  /** What bus_ibus_impl_check_global_engine does once the registered
      engines changed. */
  datatype Fallback = Keep | SwitchTo(name: string) | Disable

  /** The fallback order: keep the global engine while it is still
      registered; else go back to the previous one if it is registered;
      else take the first registered engine; else drop the engine. */
  function FallbackChoice(list: seq<EngineDesc>, global: Option<string>,
                          previous: Option<string>): Fallback
  {
    if global.Some? && FirstNamed(list, global.value).Some? then Keep
    else if previous.Some? && FirstNamed(list, previous.value).Some? then SwitchTo(previous.value)
    else if list != [] then SwitchTo(list[0].name)
    else Disable
  }

  function CheckGlobalEngineStep(s: State, cfg: Config, list: seq<EngineDesc>,
                                 table: map<string, EngineDesc>): State
    requires Wf(s, cfg)
  {
    if !cfg.useGlobalEngine then s
    else
      match FallbackChoice(list, s.globalName, s.previousName)
      case Keep => s
      case SwitchTo(name) => SetGlobalEngineByNameStep(s, cfg, list, table, name)
      case Disable => ClearGlobalEngineStep(s, cfg)
  }

  /** The SetGlobalEngine D-Bus method: refused when global-engine mode
      is off or the engine is unknown; otherwise the focused (or
      placeholder) context is asked to switch, and the call waits for
      the switch to finish. */
  function SetGlobalEngineCallStep(s: State, cfg: Config, list: seq<EngineDesc>,
                                   table: map<string, EngineDesc>,
                                   inv: InvocationId, name: string): State
    requires Wf(s, cfg)
  {
    if !cfg.useGlobalEngine then
      s.(log := s.log + [Reply(inv, Err("Global engine feature is disabled."))])
    else
      var c := GlobalTarget(s, cfg);
      match LookupDesc(list, table, name)
      case None => s.(log := s.log + [Reply(inv, Err("Cannot find engine " + name + "."))])
      case Some(d) => s.(pending := s.pending[inv := c],
                         log := s.log + [SwitchRequested(c, d, Some(inv))])
  }

  /** The engine a context holds; a context that is gone holds none. */
  function EngineOf(s: State, c: ContextId): Option<Engine>
  {
    if c in s.contexts then s.contexts[c].engine else None
  }

  /** The switch requested by SetGlobalEngine finished. A failure is
      reported to the caller. On success the caller gets its reply; if
      focus moved away from the requesting context meanwhile, the new
      engine is moved from it to the focused context; and the engine is
      given the panel extension's key registration, if there is one. */
  function SetGlobalEngineReadyStep(s: State, cfg: Config, inv: InvocationId,
                                    result: Result<()>): State
    requires Wf(s, cfg) && inv in s.pending
  {
    var c := s.pending[inv];
    var s0 := s.(pending := s.pending - {inv});
    if result.Err? then
      s0.(log := s0.log + [Reply(inv, Err("Set global engine failed: " + result.message))])
    else
      var s1 := s0.(log := s0.log + [Reply(inv, Ok(()))]);
      var engine := EngineOf(s1, c);
      var s2 := if cfg.useGlobalEngine && s1.focused != Some(c) && engine.Some? && s1.focused.Some?
                then
                  var f := s1.focused.value;
                  s1.(contexts := s1.contexts[c := s1.contexts[c].(engine := None, emoji := None)]
                                             [f := s1.contexts[f].(engine := engine,
                                                                   emoji := EmojiSetting(s1))])
                else s1;
      if engine.Some? && s2.registerKeys.Some? then
        s2.(log := s2.log + [RegisterKeys(engine.value.id, s2.registerKeys.value)])
      else s2
  }

  /** Whether the daemon runs with one engine shared by all contexts. */
  function GlobalEngineEnabled(s: State, cfg: Config): (r: bool)
    requires Wf(s, cfg)
    ensures r == cfg.useGlobalEngine
  {
    cfg.useGlobalEngine && (s.focused.Some? || cfg.fake in s.contexts)
  }

  // ---------------------------------------------------------------
  // Contexts, panels and properties
  // ---------------------------------------------------------------

  /** A client creates an input context; it is listed and enabled. */
  function CreateContextStep(s: State): State
  {
    var id := s.nextContextId;
    s.(contexts := s.contexts[id := InputContext(0, None, 0, 0, None)],
       clientContexts := s.clientContexts + [id],
       nextContextId := id + 1,
       log := s.log + [ContextEnabled(id)])
  }

  /** An input context finished creating an engine session of desc and
      now holds it (the completion of its engine switch). */
  function AttachNewEngineStep(s: State, c: ContextId, desc: EngineDesc): State
    requires c in s.contexts
  {
    SetEngineOf(s, c, Some(Engine(s.nextEngineId, desc))).(nextEngineId := s.nextEngineId + 1)
  }

  /** A client sets the capabilities of its input context. */
  function SetCapsStep(s: State, c: ContextId, caps: Caps): State
    requires c in s.contexts
  {
    s.(contexts := s.contexts[c := s.contexts[c].(caps := caps)])
  }

  /** A panel process went away: whichever of the panel and the emoji
      extension it was is dropped. */
  function PanelDestroyStep(s: State, p: PanelId): State
  {
    if s.panel == Some(p) then s.(panel := None)
    else if s.emojiExtension == Some(p) then s.(emojiExtension := None)
    else s
  }

  /** A panel process connected, as the panel or as the emoji extension
      (which starts switched off). It is told which context has focus:
      the focused one, or the placeholder in global-engine mode. */
  function PanelStartStep(s: State, cfg: Config, p: PanelId, extension: bool): State
  {
    var s1 := if extension then s.(emojiExtension := Some(p), enableEmoji := false)
              else s.(panel := Some(p));
    var c := if s.focused.Some? then s.focused
             else if cfg.useGlobalEngine then Some(cfg.fake) else None;
    if c.None? then s1 else s1.(log := s1.log + [ToPanel(FocusIn, p, c.value)])
  }

  /** The extension switched itself on or off: only while it runs; the
      focused context's emoji link follows. */
  function SetPanelExtensionModeStep(s: State, enabled: bool): State
    requires s.focused.Some? ==> s.focused.value in s.contexts
  {
    if s.emojiExtension.None? then s
    else
      var s1 := s.(enableEmoji := enabled);
      if s1.focused.Some? then SetEmojiOf(s1, s1.focused.value, EmojiSetting(s1)) else s1
  }

  /** The extension registered its keys: only while it runs; kept for
      later engines and given to the focused context's engine now. */
  function SetPanelExtensionKeysStep(s: State, payload: Payload): State
    requires s.focused.Some? ==> s.focused.value in s.contexts
  {
    if s.emojiExtension.None? then s
    else
      var s1 := s.(registerKeys := Some(payload));
      var engine := if s1.focused.Some? then s1.contexts[s1.focused.value].engine else None;
      if engine.None? then s1
      else s1.(log := s1.log + [RegisterKeys(engine.value.id, payload)])
  }

  /** The EmbedPreeditText property: announced only when it changes. */
  function SetEmbedPreeditTextStep(s: State, value: bool): State
  {
    if value == s.embedPreeditText then s
    else s.(embedPreeditText := value, log := s.log + [Event.PropertyChanged("EmbedPreeditText")])
  }

  /** The state at start-up: only the placeholder context exists, with
      the preedit, focus and surrounding-text capabilities, and in
      global-engine mode it is focused. */
  function InitState(cfg: Config): State
  {
    var s := State(map[cfg.fake := InputContext(CapPreeditText | CapFocus | CapSurroundingText,
                                                None, 0, 0, None)],
                   [], None, None, None, None, None, false, true, None, map[],
                   cfg.fake + 1, 0, []);
    if cfg.useGlobalEngine then SetFocusedStep(s, cfg, Some(cfg.fake)) else s
  }
}
