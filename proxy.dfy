/**
 * BusEngineProxy (bus/engineproxy.c) as an object: its cached fields are
 * updated in place by the mutators, and every mutator is proved to make
 * the transition of the same name in module ProxySpec. The two
 * engine-name category tables are one object shared by every proxy; the
 * probe replies write into it.
 */
module Proxy {
  import opened Common
  import opened EngineSignals
  import opened ProxySpec

  /** The daemon's tables of what each engine (by name) was found to
      support: focus ids, and active use of the surrounding text. */
  class CategoryTables {
    var focusId: map<string, FocusCategory>
    var activeSurroundingText: map<string, SurroundingCategory>

    constructor ()
      ensures focusId == map[] && activeSurroundingText == map[]
    {
      focusId := map[];
      activeSurroundingText := map[];
    }
  }

  class EngineProxy {
    /** The name of the engine desc the proxy was created for. */
    const name: string
    const tables: CategoryTables

    var hasFocus: bool
    var enabled: bool
    var capabilities: bv32
    var x: int32
    var y: int32
    var w: int32
    var h: int32
    var surroundingText: string
    var surroundingCursorPos: bv32
    var selectionAnchorPos: bv32
    /** The proxy's cached ContentType D-Bus property. */
    var contentType: Option<(bv32, bv32)>
    var propList: seq<Property>
    var hasFocusId: bool
    var hasActiveSurroundingText: bool
    var objectPath: Option<string>
    var client: Option<string>
    var keymap: Option<Keymap>
    /** Calls made to the engine and signals emitted, oldest first. */
    var log: seq<Out>

    function Snapshot(): Cache
      reads this
    {
      Cache(hasFocus, enabled, capabilities, x, y, w, h, surroundingText, surroundingCursorPos,
            selectionAnchorPos, contentType, propList, hasFocusId, hasActiveSurroundingText,
            objectPath, client, keymap)
    }

    predicate Valid()
      reads this
    {
      Inv(Snapshot())
    }

    /** bus_engine_proxy_new_internal. layoutKeymap is what the keymap
        lookup gives for the desc's layout. */
    constructor (name: string, layout: string, layoutKeymap: Option<Keymap>, tables: CategoryTables)
      ensures this.name == name && this.tables == tables
      ensures Valid()
      ensures Snapshot() == NewProxyStep(name, layout, layoutKeymap, tables.focusId,
                                         tables.activeSurroundingText).c
      ensures log == NewProxyStep(name, layout, layoutKeymap, tables.focusId,
                                  tables.activeSurroundingText).out
    {
      this.name := name;
      this.tables := tables;
      hasFocus := false;
      enabled := false;
      capabilities := 0;
      x, y, w, h := 0, 0, 0, 0;
      surroundingText := "";
      surroundingCursorPos, selectionAnchorPos := 0, 0;
      contentType := None;
      propList := [];
      objectPath, client := None, None;
      keymap := None;
      if layout != "" {
        keymap := layoutKeymap;
      }
      log := [];
      hasFocusId := false;
      var focusCategory := FocusCategoryIn(tables.focusId, name);
      if focusCategory == HasId {
        hasFocusId := true;
      } else if focusCategory == NoId {
        hasFocusId := false;
      } else {
        log := log + [Call(GetProperty("FocusId"))];
      }
      hasActiveSurroundingText := false;
      var surroundingCategory := SurroundingCategoryIn(tables.activeSurroundingText, name);
      if surroundingCategory == HasActive {
        hasActiveSurroundingText := true;
      } else if surroundingCategory == NotActive {
        hasActiveSurroundingText := false;
      } else {
        log := log + [Call(GetProperty("ActiveSurroundingText"))];
      }
    }

    /** bus_engine_proxy_process_key_event: the keyval is translated with
        the engine's keymap, else the default one, unless the system
        layout is used; the cache does not change. */
    method ProcessKeyEvent(keyval: bv32, keycode: bv32, state: bv32,
                           useSysLayout: bool, defaultKeymap: Option<Keymap>)
      modifies this`log
      ensures log == old(log) + ProcessKeyEventStep(Snapshot(), defaultKeymap, useSysLayout,
                                                    keyval, keycode, state).out
    {
      var sent := keyval;
      if keycode != 0 && !useSysLayout {
        var k := keymap;
        if k.None? {
          k := defaultKeymap;
        }
        assert k == ChosenKeymap(keymap, defaultKeymap);
        if k.Some? {
          var t := LookupKeysym(k.value, keycode, state);
          if t != VoidSymbol {
            sent := t;
          }
        }
      }
      log := log + [Call(Rpc.ProcessKeyEvent(sent, keycode, state))];
    }

    method SetCursorLocation(x: int32, y: int32, w: int32, h: int32)
      requires Valid()
      modifies this`x, this`y, this`w, this`h, this`log
      ensures Valid()
      ensures Snapshot() == SetCursorLocationStep(old(Snapshot()), x, y, w, h).c
      ensures log == old(log) + SetCursorLocationStep(old(Snapshot()), x, y, w, h).out
    {
      if this.x != x || this.y != y || this.w != w || this.h != h {
        this.x, this.y, this.w, this.h := x, y, w, h;
        log := log + [Call(Rpc.SetCursorLocation(x, y, w, h))];
      }
    }

    method SetCapabilities(caps: bv32)
      requires Valid()
      modifies this`capabilities, this`log
      ensures Valid()
      ensures Snapshot() == SetCapabilitiesStep(old(Snapshot()), caps).c
      ensures log == old(log) + SetCapabilitiesStep(old(Snapshot()), caps).out
    {
      if capabilities != caps {
        capabilities := caps;
        log := log + [Call(Rpc.SetCapabilities(caps))];
      }
    }

    method SetSurroundingText(text: string, cursor: bv32, anchor: bv32)
      requires Valid()
      modifies this`surroundingText, this`surroundingCursorPos, this`selectionAnchorPos, this`log
      ensures Valid()
      ensures Snapshot() == SetSurroundingTextStep(old(Snapshot()), text, cursor, anchor).c
      ensures log == old(log) + SetSurroundingTextStep(old(Snapshot()), text, cursor, anchor).out
    {
      if text != surroundingText || cursor != surroundingCursorPos || anchor != selectionAnchorPos {
        surroundingText := text;
        surroundingCursorPos := cursor;
        selectionAnchorPos := anchor;
        log := log + [Call(Rpc.SetSurroundingText(text, cursor, anchor))];
      }
    }

    method SetContentType(purpose: bv32, hints: bv32)
      requires Valid()
      modifies this`contentType, this`log
      ensures Valid()
      ensures Snapshot() == SetContentTypeStep(old(Snapshot()), purpose, hints).c
      ensures log == old(log) + SetContentTypeStep(old(Snapshot()), purpose, hints).out
    {
      if contentType != Some((purpose, hints)) {
        log := log + [Call(Rpc.SetContentType(purpose, hints))];
        contentType := Some((purpose, hints));
      }
    }

    /** bus_engine_proxy_focus_in. Whatever the state before, the proxy is
        focused afterwards with its path and client remembered. */
    method FocusIn(path: string, client: string)
      requires objectPath.Some? ==> this.client.Some?
      modifies this`hasFocus, this`objectPath, this`client, this`log
      ensures Valid()
      ensures Snapshot() == FocusInStep(old(Snapshot()), path, client).c
      ensures log == old(log) + FocusInStep(old(Snapshot()), path, client).out
    {
      if hasFocus && objectPath == Some(path) {
        return;
      }
      hasFocus := true;
      objectPath := Some(path);
      this.client := Some(client);
      if hasActiveSurroundingText {
        log := log + [RequireSurrounding];
      }
      if hasFocusId {
        log := log + [Call(FocusInId(path, client))];
      } else {
        log := log + [Call(Rpc.FocusIn)];
      }
    }

    method FocusOut(path: string)
      requires Valid()
      modifies this`hasFocus, this`objectPath, this`client, this`log
      ensures Valid()
      ensures Snapshot() == FocusOutStep(old(Snapshot()), path).c
      ensures log == old(log) + FocusOutStep(old(Snapshot()), path).out
    {
      if !hasFocus {
        return;
      }
      hasFocus := false;
      objectPath := None;
      client := None;
      if hasFocusId {
        log := log + [Call(FocusOutId(path))];
      } else {
        log := log + [Call(Rpc.FocusOut)];
      }
    }

    method Enable()
      requires Valid()
      modifies this`enabled, this`log
      ensures Valid()
      ensures Snapshot() == EnableStep(old(Snapshot())).c
      ensures log == old(log) + EnableStep(old(Snapshot())).out
    {
      if !enabled {
        enabled := true;
        if hasActiveSurroundingText {
          log := log + [RequireSurrounding];
        }
        log := log + [Call(Rpc.Enable)];
      }
    }

    method Disable()
      requires Valid()
      modifies this`enabled, this`log
      ensures Valid()
      ensures Snapshot() == DisableStep(old(Snapshot())).c
      ensures log == old(log) + DisableStep(old(Snapshot())).out
    {
      if enabled {
        enabled := false;
        log := log + [Call(Rpc.Disable)];
      }
    }

    /** bus_engine_proxy_g_signal: a recognised signal is emitted again
        as a typed event; an unrecognised one is dropped. */
    method HandleSignal(signalName: string, args: Args)
      requires Valid()
      modifies this`propList, this`log
      ensures Valid()
      ensures Snapshot() == HandleSignalStep(old(Snapshot()), signalName, args).c
      ensures log == old(log) + HandleSignalStep(old(Snapshot()), signalName, args).out
    {
      var decoded := Demux(signalName, args);
      if decoded.Some? {
        EmitEvent(decoded.value);
      }
    }

    /** Emitting an event: the emission reaches the connected handlers
        first and then, these signals being run-last, the class handlers of
        register-properties and update-property, which keep the property
        list. */
    method EmitEvent(e: EngineEvent)
      requires Valid()
      modifies this`propList, this`log
      ensures Valid()
      ensures Snapshot() == SignalEffect(old(Snapshot()), e)
      ensures log == old(log) + [Out.Emit(e)]
    {
      log := log + [Out.Emit(e)];
      if e.RegisterProperties? {
        propList := e.props;
      } else if e.UpdateProperty? {
        propList := UpdateFirst(propList, e.prop);
      }
    }

    /** _get_has_focus_id_cb: a successful reply sets the flag and records
        the category for the engine's name. */
    method FocusIdReply(reply: Option<bool>)
      requires Valid()
      modifies this, tables`focusId
      ensures Valid()
      ensures Snapshot() == FocusIdReplyStep(old(Snapshot()), reply).c
      ensures log == old(log) + FocusIdReplyStep(old(Snapshot()), reply).out
      ensures tables.focusId == (if reply.Some? then old(tables.focusId)[name := FocusCategoryOf(reply.value)]
                                 else old(tables.focusId))
    {
      if reply.Some? {
        hasFocusId := reply.value;
        tables.focusId := tables.focusId[name := if hasFocusId then HasId else NoId];
        if hasFocus {
          log := log + [RequireSurrounding];
        }
      }
    }

    /** _get_active_surrounding_text_cb: a successful reply sets the flag,
        records the category, and repeats focus-in for an id-aware engine
        that has a focused context. */
    method ActiveSurroundingReply(reply: Option<bool>)
      requires Valid()
      modifies this, tables`activeSurroundingText
      ensures Valid()
      ensures Snapshot() == ActiveSurroundingReplyStep(old(Snapshot()), reply).c
      ensures log == old(log) + ActiveSurroundingReplyStep(old(Snapshot()), reply).out
      ensures tables.activeSurroundingText ==
              (if reply.Some? then old(tables.activeSurroundingText)[name := SurroundingCategoryOf(reply.value)]
               else old(tables.activeSurroundingText))
    {
      if reply.Some? {
        hasActiveSurroundingText := reply.value;
        tables.activeSurroundingText := tables.activeSurroundingText[
          name := if hasActiveSurroundingText then HasActive else NotActive];
        if hasFocusId && objectPath.Some? {
          var path := objectPath.value;
          var focusedClient := if client.Some? then client.value else "";
          hasFocus := false;
          FocusIn(path, focusedClient);
        }
      }
    }
  }
}
