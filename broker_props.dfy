/**
 * Properties of the broker's transitions (module BrokerSpec): the
 * invariant each one keeps, the engine hand-over on focus changes, the
 * guard on global-engine renames, the fallback order, and the repair of
 * a SetGlobalEngine switch that finishes after focus moved.
 */
module BrokerProps {
  import opened Common
  import opened Registry
  import opened BrokerSpec

  /** Where each context's engine is after a hand-over of e from f to t. */
  predicate MovedEngine(cs: map<ContextId, InputContext>, cs': map<ContextId, InputContext>,
                        f: ContextId, t: ContextId, e: Engine)
  {
    cs'.Keys == cs.Keys
    && forall c :: c in cs ==>
         cs'[c].engine == (if c == t then Some(e) else if c == f then None else cs[c].engine)
  }

  /** Handing the engine of f to t keeps every engine with one holder. */
  lemma MoveKeepsSingleHolder(cs: map<ContextId, InputContext>, cs': map<ContextId, InputContext>,
                              f: ContextId, t: ContextId, e: Engine)
    requires SingleHolder(cs) && f in cs && t in cs && cs[f].engine == Some(e)
    requires MovedEngine(cs, cs', f, t, e)
    ensures SingleHolder(cs')
  {
    forall a, b | a in cs' && b in cs' && a != b && cs'[a].engine.Some? && cs'[b].engine.Some?
      ensures cs'[a].engine.value.id != cs'[b].engine.value.id
    {
      if a != t && b != t {
        assert a != f && b != f;
      } else if a == t {
        assert b != f;
        assert cs[b].engine.Some? && cs[f].engine.Some?;
      } else {
        assert a != f;
        assert cs[a].engine.Some? && cs[f].engine.Some?;
      }
    }
  }

  /** Only the engine fields matter to SingleHolder. */
  predicate SameEngines(cs: map<ContextId, InputContext>, cs': map<ContextId, InputContext>)
  {
    cs'.Keys == cs.Keys && forall c :: c in cs ==> cs'[c].engine == cs[c].engine
  }

  lemma SameEnginesKeepInv(s: State, s': State, cfg: Config)
    requires Inv(s, cfg) && Wf(s', cfg) && SameEngines(s.contexts, s'.contexts)
    requires s'.nextEngineId == s.nextEngineId
    requires cfg.useGlobalEngine ==> s'.focused.Some?
    ensures Inv(s', cfg)
  {
    assert SingleHolder(s'.contexts) by {
      forall a, b | a in s'.contexts && b in s'.contexts && a != b
                    && s'.contexts[a].engine.Some? && s'.contexts[b].engine.Some?
        ensures s'.contexts[a].engine.value.id != s'.contexts[b].engine.value.id
      {
        assert s'.contexts[a].engine == s.contexts[a].engine;
        assert s'.contexts[b].engine == s.contexts[b].engine;
      }
    }
  }

  /** A step that changes neither contexts, focus nor counters keeps the
      invariant. */
  lemma CoreUnchangedKeepsInv(s: State, s': State, cfg: Config)
    requires Inv(s, cfg)
    requires s'.contexts == s.contexts && s'.clientContexts == s.clientContexts
    requires s'.focused == s.focused && s'.nextContextId == s.nextContextId
    requires s'.nextEngineId == s.nextEngineId
    ensures Inv(s', cfg)
  {
  }

  lemma MovedKeepsInv(s: State, s': State, cfg: Config, f: ContextId, t: ContextId, e: Engine)
    requires Inv(s, cfg) && Wf(s', cfg) && f in s.contexts && t in s.contexts
    requires s.contexts[f].engine == Some(e) && MovedEngine(s.contexts, s'.contexts, f, t, e)
    requires s'.nextEngineId == s.nextEngineId
    requires cfg.useGlobalEngine ==> s'.focused.Some?
    ensures Inv(s', cfg)
  {
    MoveKeepsSingleHolder(s.contexts, s'.contexts, f, t, e);
  }

  // ---------------------------------------------------------------
  // Focus
  // ---------------------------------------------------------------

  /** In global-engine mode a focus change hands the engine of the old
      focused context to the new one (the placeholder if the target is
      missing): the old context's preedit is cleared without commit and
      it keeps neither engine nor emoji link; the new one holds the
      engine, enabled, with the emoji link; no other context changes. */
  lemma FocusMovesEngine(s: State, cfg: Config, target: Option<ContextId>)
    requires Inv(s, cfg) && cfg.useGlobalEngine
    requires target.Some? ==> target.value in s.contexts
    requires s.focused != target && s.contexts[s.focused.value].engine.Some?
    ensures var r := SetFocusedStep(s, cfg, target);
            var f := s.focused.value;
            var t := FocusTarget(cfg, target).value;
            var e := s.contexts[f].engine.value;
            r.focused == Some(t)
            && r.contexts[t].engine == Some(e) && r.contexts[t].emoji == EmojiSetting(s)
            && (t != f ==> r.contexts[f].engine.None? && r.contexts[f].emoji.None?)
            && MovedEngine(s.contexts, r.contexts, f, t, e)
            && (forall c :: c in s.contexts && c != f && c != t ==> r.contexts[c] == s.contexts[c])
            && r.log == s.log + [ClearPreedit(f, false)] + PanelEvents(s.panel, s.emojiExtension, FocusOut, f)
                        + [ContextEnabled(t)] + PanelEvents(s.panel, s.emojiExtension, FocusIn, t)
  {
  }

  /** Outside global-engine mode a focus change moves no engine. */
  lemma FocusKeepsEnginesPerContext(s: State, cfg: Config, target: Option<ContextId>)
    requires Wf(s, cfg) && !cfg.useGlobalEngine
    requires target.Some? ==> target.value in s.contexts
    ensures var r := SetFocusedStep(s, cfg, target);
            r.focused == target && SameEngines(s.contexts, r.contexts)
  {
  }

  /** A focus change keeps the invariant. */
  lemma SetFocusedKeepsInv(s: State, cfg: Config, target: Option<ContextId>)
    requires Inv(s, cfg) && (target.Some? ==> target.value in s.contexts)
    ensures Inv(SetFocusedStep(s, cfg, target), cfg)
  {
    if s.focused != target {
      var d := DetachFocused(s, cfg);
      var r := AttachFocus(d, cfg, target);
      assert r == SetFocusedStep(s, cfg, target);
      if d.engine.Some? {
        var f := s.focused.value;
        var t := FocusTarget(cfg, target).value;
        assert MovedEngine(s.contexts, r.contexts, f, t, d.engine.value) by {
          forall c | c in s.contexts
            ensures r.contexts[c].engine == (if c == t then d.engine else if c == f then None
                                             else s.contexts[c].engine)
          {
            assert d.s.contexts[c].engine == (if c == f then None else s.contexts[c].engine);
          }
        }
        MovedKeepsInv(s, r, cfg, f, t, d.engine.value);
      } else {
        assert SameEngines(s.contexts, r.contexts) by {
          forall c | c in s.contexts ensures r.contexts[c].engine == s.contexts[c].engine {
            assert d.s.contexts[c].engine == s.contexts[c].engine;
          }
        }
        SameEnginesKeepInv(s, r, cfg);
      }
    }
  }

  /** Focus-out from a context without the focus capability, or from one
      that is not focused, changes nothing. Focus-out of the focused
      context in global-engine mode focuses the placeholder, which takes
      over the content type of the context that lost focus. */
  lemma FocusOutFallsBackToFake(s: State, cfg: Config, c: ContextId)
    requires Inv(s, cfg) && c in s.contexts && c != cfg.fake
    ensures s.contexts[c].caps & CapFocus == 0 || s.focused != Some(c) ==> FocusOutStep(s, cfg, c) == s
    ensures cfg.useGlobalEngine && s.contexts[c].caps & CapFocus != 0 && s.focused == Some(c) ==>
              var r := FocusOutStep(s, cfg, c);
              r.focused == Some(cfg.fake)
              && r.contexts[cfg.fake].purpose == s.contexts[c].purpose
              && r.contexts[cfg.fake].hints == s.contexts[c].hints
  {
  }

  /** Focus-in of a context that is already focused changes nothing. */
  lemma FocusInIdempotent(s: State, cfg: Config, c: ContextId)
    requires Wf(s, cfg) && c in s.contexts
    ensures var r := FocusInStep(s, cfg, c);
            FocusInStep(r, cfg, c) == r
            && (s.contexts[c].caps & CapFocus != 0 ==> r.focused == Some(c))
  {
  }

  /** Destroying a context keeps the invariant, and a destroyed focused
      context never stays focused. */
  lemma DestroyKeepsInv(s: State, cfg: Config, c: ContextId)
    requires Inv(s, cfg) && c in s.clientContexts
    ensures var r := DestroyStep(s, cfg, c);
            Inv(r, cfg) && r.focused != Some(c)
            && (s.focused == Some(c) && cfg.useGlobalEngine ==> r.focused == Some(cfg.fake))
  {
    var s1 := if s.focused == Some(c) then SetFocusedStep(s, cfg, None) else s;
    if s.focused == Some(c) {
      SetFocusedKeepsInv(s, cfg, None);
    }
    RemoveFirstKeeps(s1.clientContexts, c);
  }

  // ---------------------------------------------------------------
  // Global engine
  // ---------------------------------------------------------------

  /** engine-changed renames the global engine exactly when global-engine
      mode is on, the context is the focused one (or the placeholder with
      nothing focused), it holds an engine, and that engine's name is not
      already the global one; the old global name then becomes the
      previous one and GlobalEngineChanged is announced. Nothing else
      changes. */
  lemma EngineChangedGuard(s: State, cfg: Config, c: ContextId)
    requires c in s.contexts
    ensures var r := EngineChangedStep(s, cfg, c);
            var fires := cfg.useGlobalEngine
                         && (s.focused == Some(c) || (s.focused.None? && c == cfg.fake))
                         && s.contexts[c].engine.Some?
                         && s.globalName != Some(s.contexts[c].engine.value.desc.name);
            (r.globalName != s.globalName <==> fires)
            && (fires ==> r == s.(previousName := s.globalName,
                                  globalName := Some(s.contexts[c].engine.value.desc.name),
                                  log := s.log + [GlobalEngineChanged(s.contexts[c].engine.value.desc.name)]))
            && (!fires ==> r == s)
  {
  }

  /** The fallback keeps the global engine exactly while it is
      registered, only ever switches to a registered engine (the
      previous one when it is registered, else the first of the list),
      and drops the engine exactly when nothing is registered. */
  lemma {:induction false} FallbackOrder(list: seq<EngineDesc>, global: Option<string>,
                                         previous: Option<string>)
    ensures var f := FallbackChoice(list, global, previous);
            (f == Keep <==> global.Some? && FirstNamed(list, global.value).Some?)
            && (f.SwitchTo? ==> FirstNamed(list, f.name).Some?)
            && (f.SwitchTo? && previous.Some? && FirstNamed(list, previous.value).Some? ==>
                  f.name == previous.value)
            && (f.SwitchTo? && !(previous.Some? && FirstNamed(list, previous.value).Some?) ==>
                  list != [] && f.name == list[0].name)
            && (f == Disable <==> list == [])
  {
    var f := FallbackChoice(list, global, previous);
    if f.SwitchTo? && !(previous.Some? && FirstNamed(list, previous.value).Some?) {
      assert list[0] in list;
    }
    if list == [] {
      assert global.Some? ==> FirstNamed(list, global.value).None?;
    }
  }

  /** set_global_engine_by_name does nothing outside global-engine mode
      or for an unknown name; for the current global name it only
      enables the focused (or placeholder) context; otherwise it asks
      that context to switch to the named engine. */
  lemma SetGlobalEngineByNameCases(s: State, cfg: Config, list: seq<EngineDesc>,
                                   table: map<string, EngineDesc>, name: string)
    requires Wf(s, cfg)
    ensures var r := SetGlobalEngineByNameStep(s, cfg, list, table, name);
            var c := GlobalTarget(s, cfg);
            (!cfg.useGlobalEngine ==> r == s)
            && (cfg.useGlobalEngine && s.globalName == Some(name) ==>
                  r == s.(log := s.log + [ContextEnabled(c)]))
            && (cfg.useGlobalEngine && s.globalName != Some(name) ==>
                  if LookupDesc(list, table, name).None? then r == s
                  else r == s.(log := s.log + [SwitchRequested(c, LookupDesc(list, table, name).value, None)]))
  {
  }

  /** check_global_engine when the global engine's component went away
      but the previous engine is still registered: the focused context is
      asked to switch back to the previous engine. */
  lemma CheckFallsBackToPrevious(s: State, cfg: Config, list: seq<EngineDesc>,
                                 table: map<string, EngineDesc>)
    requires Wf(s, cfg) && cfg.useGlobalEngine
    requires s.globalName.Some? && FirstNamed(list, s.globalName.value).None?
    requires s.previousName.Some? && FirstNamed(list, s.previousName.value).Some?
    requires s.previousName != s.globalName && s.previousName.value != ""
    ensures CheckGlobalEngineStep(s, cfg, list, table)
            == s.(log := s.log + [SwitchRequested(GlobalTarget(s, cfg),
                                                  FirstNamed(list, s.previousName.value).value, None)])
  {
  }

  /** check_global_engine when neither the global engine nor the
      previous one is registered any more: the focused (or placeholder)
      context is asked to switch to the first registered engine. */
  lemma CheckFallsBackToFirst(s: State, cfg: Config, list: seq<EngineDesc>,
                              table: map<string, EngineDesc>)
    requires Wf(s, cfg) && cfg.useGlobalEngine && list != [] && list[0].name != ""
    requires s.globalName.None? || FirstNamed(list, s.globalName.value).None?
    requires s.previousName.None? || FirstNamed(list, s.previousName.value).None?
    ensures CheckGlobalEngineStep(s, cfg, list, table)
            == s.(log := s.log + [SwitchRequested(GlobalTarget(s, cfg), list[0], None)])
  {
    FallbackOrder(list, s.globalName, s.previousName);
    assert FirstNamed(list, list[0].name) == Some(list[0]);
  }

  /** check_global_engine with no engine registered any more: the
      focused context loses its engine. */
  lemma CheckDropsEngineWhenNoneLeft(s: State, cfg: Config, table: map<string, EngineDesc>)
    requires Inv(s, cfg) && cfg.useGlobalEngine
    ensures var r := CheckGlobalEngineStep(s, cfg, [], table);
            var f := s.focused.value;
            r.contexts[f].engine.None? && r.focused == s.focused
            && (forall c :: c in s.contexts && c != f ==> r.contexts[c] == s.contexts[c])
  {
    FallbackOrder([], s.globalName, s.previousName);
  }

  /** The global-engine steps keep the invariant. */
  lemma EngineChangedKeepsInv(s: State, cfg: Config, c: ContextId)
    requires Inv(s, cfg) && c in s.contexts
    ensures Inv(EngineChangedStep(s, cfg, c), cfg)
  {
    SameEnginesKeepInv(s, EngineChangedStep(s, cfg, c), cfg);
  }

  lemma ClearGlobalEngineKeepsInv(s: State, cfg: Config)
    requires Inv(s, cfg)
    ensures Inv(ClearGlobalEngineStep(s, cfg), cfg)
  {
    var r := ClearGlobalEngineStep(s, cfg);
    if cfg.useGlobalEngine {
      var f := s.focused.value;
      assert SingleHolder(r.contexts) by {
        forall a, b | a in r.contexts && b in r.contexts && a != b
                      && r.contexts[a].engine.Some? && r.contexts[b].engine.Some?
          ensures r.contexts[a].engine.value.id != r.contexts[b].engine.value.id
        {
          assert a != f && b != f;
          assert r.contexts[a] == s.contexts[a] && r.contexts[b] == s.contexts[b];
        }
      }
    }
  }

  lemma SetGlobalEngineByNameKeepsInv(s: State, cfg: Config, list: seq<EngineDesc>,
                                      table: map<string, EngineDesc>, name: string)
    requires Inv(s, cfg)
    ensures Inv(SetGlobalEngineByNameStep(s, cfg, list, table, name), cfg)
  {
    var r := SetGlobalEngineByNameStep(s, cfg, list, table, name);
    assert r.contexts == s.contexts && r.clientContexts == s.clientContexts;
    assert r.focused == s.focused && r.nextContextId == s.nextContextId;
    CoreUnchangedKeepsInv(s, r, cfg);
  }

  lemma CheckGlobalEngineKeepsInv(s: State, cfg: Config, list: seq<EngineDesc>,
                                  table: map<string, EngineDesc>)
    requires Inv(s, cfg)
    ensures Inv(CheckGlobalEngineStep(s, cfg, list, table), cfg)
  {
    if cfg.useGlobalEngine {
      match FallbackChoice(list, s.globalName, s.previousName)
      case Keep =>
      case SwitchTo(name) => SetGlobalEngineByNameKeepsInv(s, cfg, list, table, name);
      case Disable => ClearGlobalEngineKeepsInv(s, cfg);
    }
  }

  lemma SetGlobalEngineCallKeepsInv(s: State, cfg: Config, list: seq<EngineDesc>,
                                    table: map<string, EngineDesc>, inv: InvocationId, name: string)
    requires Inv(s, cfg)
    ensures var r := SetGlobalEngineCallStep(s, cfg, list, table, inv, name);
            Inv(r, cfg) && (forall i :: i in r.pending ==> i in s.pending || i == inv)
  {
    var r := SetGlobalEngineCallStep(s, cfg, list, table, inv, name);
    if cfg.useGlobalEngine {
      var c := GlobalTarget(s, cfg);
      match LookupDesc(list, table, name)
      case None =>
      case Some(d) =>
        assert r == s.(pending := s.pending[inv := c], log := s.log + [SwitchRequested(c, d, Some(inv))]);
    }
    assert r.contexts == s.contexts && r.clientContexts == s.clientContexts;
    CoreUnchangedKeepsInv(s, r, cfg);
  }

  /** When a SetGlobalEngine switch succeeds after focus moved away from
      the requesting context, the new engine ends up on the focused
      context, with the emoji link, and the requesting context keeps
      neither engine nor emoji link. */
  lemma ReadyMovesEngineToFocus(s: State, cfg: Config, inv: InvocationId)
    requires Inv(s, cfg) && cfg.useGlobalEngine && inv in s.pending
    requires s.pending[inv] in s.contexts && s.contexts[s.pending[inv]].engine.Some?
    requires s.focused != Some(s.pending[inv])
    ensures var r := SetGlobalEngineReadyStep(s, cfg, inv, Ok(()));
            var c := s.pending[inv];
            var f := s.focused.value;
            var e := s.contexts[c].engine.value;
            r.contexts[f].engine == Some(e) && r.contexts[f].emoji == EmojiSetting(s)
            && r.contexts[c].engine.None? && r.contexts[c].emoji.None?
            && MovedEngine(s.contexts, r.contexts, c, f, e)
            && r.focused == s.focused && inv !in r.pending
  {
    var c := s.pending[inv];
    var f := s.focused.value;
    var e := s.contexts[c].engine.value;
    var r := SetGlobalEngineReadyStep(s, cfg, inv, Ok(()));
    assert r.contexts == s.contexts[c := s.contexts[c].(engine := None, emoji := None)]
                                   [f := s.contexts[f].(engine := Some(e), emoji := EmojiSetting(s))];
  }

  /** A successful switch answers the caller first and then replays the
      extension's key registration to the new engine, if there is one. */
  lemma ReadyRepliesThenReplaysKeys(s: State, cfg: Config, inv: InvocationId)
    requires Wf(s, cfg) && inv in s.pending
    requires s.pending[inv] in s.contexts && s.contexts[s.pending[inv]].engine.Some?
    ensures var r := SetGlobalEngineReadyStep(s, cfg, inv, Ok(()));
            var e := s.contexts[s.pending[inv]].engine.value;
            r.log == s.log + [Reply(inv, Ok(()))]
                     + (if s.registerKeys.Some? then [RegisterKeys(e.id, s.registerKeys.value)] else [])
  {
  }

  /** When the switch finishes on the context that is still focused, no
      engine moves. A failed switch only answers the caller. */
  lemma ReadyWithoutRace(s: State, cfg: Config, inv: InvocationId, result: Result<()>)
    requires Wf(s, cfg) && inv in s.pending
    requires s.focused == Some(s.pending[inv]) || result.Err?
    ensures var r := SetGlobalEngineReadyStep(s, cfg, inv, result);
            r.contexts == s.contexts && r.focused == s.focused
            && (result.Err? ==> r.log == s.log + [Reply(inv, Err("Set global engine failed: " + result.message))])
  {
  }

  /** A finished switch keeps the context set, the client list, focus
      and the counters. */
  lemma ReadyKeepsCore(s: State, cfg: Config, inv: InvocationId, result: Result<()>)
    requires Wf(s, cfg) && inv in s.pending
    ensures var r := SetGlobalEngineReadyStep(s, cfg, inv, result);
            r.contexts.Keys == s.contexts.Keys && r.clientContexts == s.clientContexts
            && r.focused == s.focused && r.nextContextId == s.nextContextId
            && r.nextEngineId == s.nextEngineId
  {
  }

  lemma ReadyKeepsInv(s: State, cfg: Config, inv: InvocationId, result: Result<()>)
    requires Inv(s, cfg) && inv in s.pending
    ensures Inv(SetGlobalEngineReadyStep(s, cfg, inv, result), cfg)
  {
    var c := s.pending[inv];
    var r := SetGlobalEngineReadyStep(s, cfg, inv, result);
    ReadyKeepsCore(s, cfg, inv, result);
    if result.Ok? && cfg.useGlobalEngine && s.focused != Some(c) && EngineOf(s, c).Some? {
      ReadyMovesEngineToFocus(s, cfg, inv);
      MovedKeepsInv(s, r, cfg, c, s.focused.value, EngineOf(s, c).value);
    } else {
      SameEnginesKeepInv(s, r, cfg);
    }
  }

  // ---------------------------------------------------------------
  // Contexts and panels
  // ---------------------------------------------------------------

  /** Creating a context keeps the invariant; the new context is
      listed last, holds no engine and has no capabilities. */
  lemma CreateContextKeepsInv(s: State, cfg: Config)
    requires Inv(s, cfg)
    ensures var r := CreateContextStep(s);
            var c := s.nextContextId;
            Inv(r, cfg) && c !in s.contexts && r.clientContexts == s.clientContexts + [c]
            && r.contexts[c].engine.None? && r.contexts[c].caps == 0
  {
    var r := CreateContextStep(s);
    assert NoDup(r.clientContexts) by {
      assert s.nextContextId !in s.clientContexts;
    }
    assert SingleHolder(r.contexts) by {
      forall x, y | x in r.contexts && y in r.contexts && x != y
                    && r.contexts[x].engine.Some? && r.contexts[y].engine.Some?
        ensures r.contexts[x].engine.value.id != r.contexts[y].engine.value.id
      {
        assert r.contexts[x] == s.contexts[x] && r.contexts[y] == s.contexts[y];
      }
    }
  }

  /** A freshly created engine session never has a second holder. */
  lemma AttachNewEngineKeepsInv(s: State, cfg: Config, c: ContextId, desc: EngineDesc)
    requires Inv(s, cfg) && c in s.contexts
    ensures Inv(AttachNewEngineStep(s, c, desc), cfg)
  {
    var a := AttachNewEngineStep(s, c, desc);
    assert SingleHolder(a.contexts) by {
      forall x, y | x in a.contexts && y in a.contexts && x != y
                    && a.contexts[x].engine.Some? && a.contexts[y].engine.Some?
        ensures a.contexts[x].engine.value.id != a.contexts[y].engine.value.id
      {
        if x != c && y != c {
          assert a.contexts[x] == s.contexts[x] && a.contexts[y] == s.contexts[y];
        }
      }
    }
  }

  /** Capabilities, panel processes and properties move no engine. */
  lemma SetCapsKeepsInv(s: State, cfg: Config, c: ContextId, caps: Caps)
    requires Inv(s, cfg) && c in s.contexts
    ensures Inv(SetCapsStep(s, c, caps), cfg)
  {
    SameEnginesKeepInv(s, SetCapsStep(s, c, caps), cfg);
  }

  lemma PanelStepsKeepInv(s: State, cfg: Config, p: PanelId, flag: bool, payload: Payload)
    requires Inv(s, cfg)
    ensures Inv(PanelDestroyStep(s, p), cfg) && Inv(PanelStartStep(s, cfg, p, flag), cfg)
    ensures Inv(SetPanelExtensionKeysStep(s, payload), cfg)
    ensures Inv(SetEmbedPreeditTextStep(s, flag), cfg)
  {
    PanelProcessKeepsCore(s, cfg, p, flag);
    CoreUnchangedKeepsInv(s, PanelDestroyStep(s, p), cfg);
    CoreUnchangedKeepsInv(s, PanelStartStep(s, cfg, p, flag), cfg);
    PanelPropertiesKeepCore(s, payload, flag);
    CoreUnchangedKeepsInv(s, SetPanelExtensionKeysStep(s, payload), cfg);
    CoreUnchangedKeepsInv(s, SetEmbedPreeditTextStep(s, flag), cfg);
  }

  /** A panel process starting or going away touches neither contexts,
      focus nor counters. */
  lemma PanelProcessKeepsCore(s: State, cfg: Config, p: PanelId, extension: bool)
    ensures var r := PanelDestroyStep(s, p);
            r.contexts == s.contexts && r.clientContexts == s.clientContexts && r.focused == s.focused
            && r.nextContextId == s.nextContextId && r.nextEngineId == s.nextEngineId
    ensures var r := PanelStartStep(s, cfg, p, extension);
            r.contexts == s.contexts && r.clientContexts == s.clientContexts && r.focused == s.focused
            && r.nextContextId == s.nextContextId && r.nextEngineId == s.nextEngineId
  {
  }

  /** A panel that starts is told, once, that the focused context has
      focus (in global-engine mode some context always has); the emoji
      extension starts switched off. */
  lemma PanelStartTellsFocus(s: State, cfg: Config, p: PanelId, extension: bool)
    requires Inv(s, cfg)
    ensures var r := PanelStartStep(s, cfg, p, extension);
            (s.focused.Some? ==> r.log == s.log + [ToPanel(FocusIn, p, s.focused.value)]) &&
            (s.focused.None? ==> r.log == s.log) &&
            (extension ==> r.emojiExtension == Some(p) && !r.enableEmoji && r.panel == s.panel) &&
            (!extension ==> r.panel == Some(p) && r.emojiExtension == s.emojiExtension &&
                            r.enableEmoji == s.enableEmoji)
  {
  }

  /** Nor do the extension's keys and the EmbedPreeditText property. */
  lemma PanelPropertiesKeepCore(s: State, payload: Payload, value: bool)
    requires s.focused.Some? ==> s.focused.value in s.contexts
    ensures var r := SetPanelExtensionKeysStep(s, payload);
            r.contexts == s.contexts && r.clientContexts == s.clientContexts && r.focused == s.focused
            && r.nextContextId == s.nextContextId && r.nextEngineId == s.nextEngineId
    ensures var r := SetEmbedPreeditTextStep(s, value);
            r.contexts == s.contexts && r.clientContexts == s.clientContexts && r.focused == s.focused
            && r.nextContextId == s.nextContextId && r.nextEngineId == s.nextEngineId
  {
  }

  lemma SetPanelExtensionModeKeepsInv(s: State, cfg: Config, enabled: bool)
    requires Inv(s, cfg)
    ensures Inv(SetPanelExtensionModeStep(s, enabled), cfg)
  {
    SameEnginesKeepInv(s, SetPanelExtensionModeStep(s, enabled), cfg);
  }

  /** The start-up state satisfies the invariant, with the placeholder
      focused in global-engine mode. */
  lemma InitSatisfiesInv(cfg: Config)
    ensures Inv(InitState(cfg), cfg)
    ensures cfg.useGlobalEngine ==> InitState(cfg).focused == Some(cfg.fake)
  {
  }

  // ---------------------------------------------------------------
  // Scenario
  // ---------------------------------------------------------------

  /** Two contexts with the focus capability in global-engine mode; the
      first gains focus and is switched to engine `after`; when the
      second then gains focus, the first is left without an engine and
      the second holds `after`. */
  lemma {:induction false} FocusHandsOverGlobalEngine(s: State, cfg: Config, x: ContextId, y: ContextId,
                                                      after: EngineDesc)
    requires Inv(s, cfg) && cfg.useGlobalEngine
    requires x in s.contexts && y in s.contexts && x != y
    requires s.contexts[x].caps & CapFocus != 0 && s.contexts[y].caps & CapFocus != 0
    ensures var s1 := FocusInStep(s, cfg, x);
            var s2 := AttachNewEngineStep(s1, x, after);
            var s3 := FocusInStep(s2, cfg, y);
            s3.contexts[x].engine.None? && s3.contexts[y].engine.Some?
            && s3.contexts[y].engine.value.desc == after && s3.focused == Some(y)
  {
    var s1 := FocusInStep(s, cfg, x);
    var s2 := AttachNewEngineStep(s1, x, after);
    FocusInThenSwitch(s, cfg, x, after);
    assert s2.contexts[y].caps == s.contexts[y].caps;
    assert FocusInStep(s2, cfg, y) == SetFocusedStep(s2, cfg, Some(y));
    FocusMovesEngine(s2, cfg, Some(y));
  }

  /** The first half of the scenario: a context with the focus capability
      gains focus and is switched to a new engine. */
  lemma FocusInThenSwitch(s: State, cfg: Config, x: ContextId, after: EngineDesc)
    requires Inv(s, cfg) && x in s.contexts && s.contexts[x].caps & CapFocus != 0
    ensures var s1 := FocusInStep(s, cfg, x);
            var s2 := AttachNewEngineStep(s1, x, after);
            Inv(s2, cfg) && s2.focused == Some(x) && s2.contexts.Keys == s.contexts.Keys
            && s2.contexts[x].engine == Some(Engine(s1.nextEngineId, after))
  {
    var s1 := FocusInStep(s, cfg, x);
    assert s1 == SetFocusedStep(s, cfg, Some(x));
    SetFocusedKeepsInv(s, cfg, Some(x));
    AttachNewEngineKeepsInv(s1, cfg, x, after);
  }
}
