/**
 * What the engine proxy's transitions promise: a mutator only calls the
 * engine when the cached value differs, so an identical repeat is
 * silent; focus calls pick the id-aware RPC by the probed flag; the
 * category tables spare later proxies the probe; the property cache
 * follows the engine's signals.
 */
module ProxyProps {
  import opened Common
  import opened EngineSignals
  import opened ProxySpec

  /** The cursor location is sent exactly when it changes; afterwards the
      cache holds it, so sending it again is silent. */
  lemma SetCursorLocationOnChange(c: Cache, x: int32, y: int32, w: int32, h: int32)
    ensures var r := SetCursorLocationStep(c, x, y, w, h);
      r.c.x == x && r.c.y == y && r.c.w == w && r.c.h == h &&
      r.c == c.(x := x, y := y, w := w, h := h) &&
      (r.out != [] <==> (c.x, c.y, c.w, c.h) != (x, y, w, h)) &&
      (r.out != [] ==> r.out == [Call(SetCursorLocation(x, y, w, h))]) &&
      SetCursorLocationStep(r.c, x, y, w, h) == Step(r.c, [])
  {
  }

  lemma SetCapabilitiesOnChange(c: Cache, caps: bv32)
    ensures var r := SetCapabilitiesStep(c, caps);
      r.c == c.(capabilities := caps) &&
      (r.out != [] <==> c.capabilities != caps) &&
      (r.out != [] ==> r.out == [Call(SetCapabilities(caps))]) &&
      SetCapabilitiesStep(r.c, caps) == Step(r.c, [])
  {
  }

  /** One SetSurroundingText per distinct (text, cursor, anchor) triple. */
  lemma SetSurroundingTextOnChange(c: Cache, text: string, cursor: bv32, anchor: bv32)
    ensures var r := SetSurroundingTextStep(c, text, cursor, anchor);
      r.c == c.(surroundingText := text, surroundingCursorPos := cursor, selectionAnchorPos := anchor) &&
      (r.out != [] <==> (c.surroundingText, c.surroundingCursorPos, c.selectionAnchorPos) != (text, cursor, anchor)) &&
      (r.out != [] ==> r.out == [Call(SetSurroundingText(text, cursor, anchor))]) &&
      SetSurroundingTextStep(r.c, text, cursor, anchor) == Step(r.c, [])
  {
  }

  lemma SetContentTypeOnChange(c: Cache, purpose: bv32, hints: bv32)
    ensures var r := SetContentTypeStep(c, purpose, hints);
      r.c == c.(contentType := Some((purpose, hints))) &&
      (r.out != [] <==> c.contentType != Some((purpose, hints))) &&
      (r.out != [] ==> r.out == [Call(SetContentType(purpose, hints))]) &&
      SetContentTypeStep(r.c, purpose, hints) == Step(r.c, [])
  {
  }

  /** Enable acts only on a disabled proxy, and asks for the surrounding
      text first exactly when the engine uses it actively. */
  lemma EnableOnChange(c: Cache)
    ensures var r := EnableStep(c);
      r.c == c.(enabled := true) &&
      (c.enabled ==> r.out == []) &&
      (!c.enabled ==> Call(Enable) in r.out && r.out[|r.out| - 1] == Call(Enable)) &&
      (RequireSurrounding in r.out <==> !c.enabled && c.hasActiveSurroundingText) &&
      EnableStep(r.c) == Step(r.c, [])
  {
  }

  lemma DisableOnChange(c: Cache)
    ensures var r := DisableStep(c);
      r.c == c.(enabled := false) &&
      r.out == (if c.enabled then [Call(Disable)] else []) &&
      DisableStep(r.c) == Step(r.c, [])
  {
  }

  /** Enable and disable undo each other on the cache. */
  lemma EnableDisableRoundTrip(c: Cache)
    requires !c.enabled
    ensures DisableStep(EnableStep(c).c).c == c
  {
  }

  /** focus_in is silent when the proxy is already focused on that path;
      otherwise it remembers the path and client, asks for the surrounding
      text iff the engine uses it actively, and calls FocusInId iff the
      engine takes focus ids. */
  lemma FocusInCases(c: Cache, path: string, client: string)
    ensures var r := FocusInStep(c, path, client);
      (c.hasFocus && c.objectPath == Some(path) ==> r == Step(c, [])) &&
      (!(c.hasFocus && c.objectPath == Some(path)) ==>
         r.c == c.(hasFocus := true, objectPath := Some(path), client := Some(client)) &&
         (RequireSurrounding in r.out <==> c.hasActiveSurroundingText) &&
         (Call(FocusInId(path, client)) in r.out <==> c.hasFocusId) &&
         (Call(FocusIn) in r.out <==> !c.hasFocusId) &&
         |r.out| == (if c.hasActiveSurroundingText then 2 else 1))
  {
  }

  /** focus_out is silent without focus; otherwise it forgets the path
      and client and calls FocusOutId iff the engine takes focus ids. */
  lemma FocusOutCases(c: Cache, path: string)
    ensures var r := FocusOutStep(c, path);
      (!c.hasFocus ==> r == Step(c, [])) &&
      (c.hasFocus ==>
         r.c == c.(hasFocus := false, objectPath := None, client := None) &&
         r.out == [Call(if c.hasFocusId then FocusOutId(path) else FocusOut)])
  {
  }

  /** A repeated focus-in, and a focus-out after a focus-out, are silent. */
  lemma FocusIdempotent(c: Cache, path: string, client: string)
    ensures var r := FocusInStep(c, path, client);
      FocusInStep(r.c, path, client) == Step(r.c, [])
    ensures var r := FocusOutStep(c, path);
      FocusOutStep(r.c, path) == Step(r.c, [])
  {
  }

  /** Focus in, then out, leaves the proxy unfocused with nothing else of
      the cache changed. */
  lemma FocusInOutRoundTrip(c: Cache, path: string, client: string)
    requires Inv(c) && !c.hasFocus
    ensures FocusOutStep(FocusInStep(c, path, client).c, path).c == c
  {
  }

  /** Every transition keeps the focus flag and the remembered path and
      client in step. */
  lemma FocusStepsKeepInv(c: Cache, path: string, client: string, reply: Option<bool>)
    requires Inv(c)
    ensures Inv(FocusInStep(c, path, client).c)
    ensures Inv(FocusOutStep(c, path).c)
    ensures Inv(FocusIdReplyStep(c, reply).c)
    ensures Inv(ActiveSurroundingReplyStep(c, reply).c)
  {
  }

  lemma HandleSignalKeepsInv(c: Cache, name: string, args: Args)
    requires Inv(c)
    ensures Inv(HandleSignalStep(c, name, args).c)
  {
  }

  /** The keyval is replaced only by a keymap lookup, and then exactly when
      the keycode is set, the system layout is not used, a keymap (the
      engine's own, else the default) exists and the lookup finds a
      keysym. */
  lemma EffectiveKeyvalCases(own: Option<Keymap>, default: Option<Keymap>, useSysLayout: bool,
                             keyval: bv32, keycode: bv32, state: bv32)
    ensures var r := EffectiveKeyval(own, default, useSysLayout, keyval, keycode, state);
      var k := ChosenKeymap(own, default);
      var translate := keycode != 0 && !useSysLayout && k.Some? &&
                       LookupKeysym(k.value, keycode, state) != VoidSymbol;
      (translate ==> r == LookupKeysym(k.value, keycode, state)) &&
      (!translate ==> r == keyval) &&
      (r != keyval ==> r != VoidSymbol)
    ensures own.Some? ==> ChosenKeymap(own, default) == own
    ensures own.None? ==> ChosenKeymap(own, default) == default
  {
  }

  /** A key event changes nothing in the cache and makes one call with
      the original keycode and state. */
  lemma ProcessKeyEventSends(c: Cache, default: Option<Keymap>, useSysLayout: bool,
                             keyval: bv32, keycode: bv32, state: bv32)
    ensures var r := ProcessKeyEventStep(c, default, useSysLayout, keyval, keycode, state);
      r.c == c && |r.out| == 1 && r.out[0].Call? && r.out[0].rpc.ProcessKeyEvent? &&
      r.out[0].rpc.keycode == keycode && r.out[0].rpc.state == state &&
      (useSysLayout || keycode == 0 ==> r.out[0].rpc.keyval == keyval)
  {
  }

  /** A new proxy takes a known category's flag without a probe, and probes
      each capability whose category is unknown; its keymap is the
      layout's when the layout is non-empty. */
  lemma NewProxyCategories(name: string, layout: string, layoutKeymap: Option<Keymap>,
                           ft: map<string, FocusCategory>, st: map<string, SurroundingCategory>)
    ensures var r := NewProxyStep(name, layout, layoutKeymap, ft, st);
      Inv(r.c) && !r.c.hasFocus && !r.c.enabled && r.c.propList == [] && r.c.surroundingText == "" &&
      r.c.keymap == (if layout == "" then None else layoutKeymap) &&
      (r.c.hasFocusId <==> name in ft && ft[name] == HasId) &&
      (r.c.hasActiveSurroundingText <==> name in st && st[name] == HasActive) &&
      (Call(GetProperty("FocusId")) in r.out <==> FocusCategoryIn(ft, name) == FocusUnknown) &&
      (Call(GetProperty("ActiveSurroundingText")) in r.out <==>
         SurroundingCategoryIn(st, name) == SurroundingUnknown)
  {
    var r := NewProxyStep(name, layout, layoutKeymap, ft, st);
    assert Call(GetProperty("FocusId")) != Call(GetProperty("ActiveSurroundingText"));
  }

  /** A successful probe records its answer under the engine's name, so a
      proxy created afterwards for that engine takes the same flag and does
      not probe again. */
  lemma {:induction false} ProbeAnswerIsRemembered(c: Cache, b: bool, name: string, layout: string,
                                  km: Option<Keymap>, ft: map<string, FocusCategory>,
                                  st: map<string, SurroundingCategory>)
    ensures FocusIdReplyStep(c, Some(b)).c.hasFocusId == b
    ensures ActiveSurroundingReplyStep(c, Some(b)).c.hasActiveSurroundingText == b
    ensures var r := NewProxyStep(name, layout, km, ft[name := FocusCategoryOf(b)], st);
      r.c.hasFocusId == b && Call(GetProperty("FocusId")) !in r.out
    ensures var r := NewProxyStep(name, layout, km, ft, st[name := SurroundingCategoryOf(b)]);
      r.c.hasActiveSurroundingText == b && Call(GetProperty("ActiveSurroundingText")) !in r.out
  {
    NewProxyCategories(name, layout, km, ft[name := FocusCategoryOf(b)], st);
    NewProxyCategories(name, layout, km, ft, st[name := SurroundingCategoryOf(b)]);
  }

  /** The FocusId answer asks for the surrounding text iff a context is
      focused; an error reply changes nothing. */
  lemma FocusIdReplyCases(c: Cache, reply: Option<bool>)
    ensures var r := FocusIdReplyStep(c, reply);
      (reply.None? ==> r == Step(c, [])) &&
      (reply.Some? ==> r.c == c.(hasFocusId := reply.value) &&
                       r.out == (if c.hasFocus then [RequireSurrounding] else []))
  {
  }

  /** When the ActiveSurroundingText answer arrives while a context is
      focused on an id-aware engine, the proxy stays focused on the same
      path and client and sends FocusInId for it again. */
  lemma ActiveSurroundingReplyRefocuses(c: Cache, b: bool)
    requires Inv(c) && c.hasFocus && c.hasFocusId
    ensures var r := ActiveSurroundingReplyStep(c, Some(b));
      r.c == c.(hasActiveSurroundingText := b) &&
      r.out == (if b then [RequireSurrounding] else []) +
               [Call(FocusInId(c.objectPath.value, c.client.value))]
  {
  }

  lemma ActiveSurroundingReplyQuiet(c: Cache, reply: Option<bool>)
    requires Inv(c) && !(c.hasFocus && c.hasFocusId)
    ensures var r := ActiveSurroundingReplyStep(c, reply);
      r.out == [] &&
      r.c == (if reply.Some? then c.(hasActiveSurroundingText := reply.value) else c)
  {
  }

  /** UpdateFirst replaces exactly the first property with the new one's
      key and keeps the rest of the list. */
  lemma {:induction false} UpdateFirstSpec(props: seq<Property>, prop: Property)
    ensures var r := UpdateFirst(props, prop);
      |r| == |props| &&
      (forall i :: 0 <= i < |props| ==> r[i].key == props[i].key) &&
      match KeyIndex(props, prop.key)
      case None => r == props
      case Some(k) => r[k] == prop && forall i :: 0 <= i < |props| && i != k ==> r[i] == props[i]
  {
    if props != [] && props[0].key != prop.key {
      UpdateFirstSpec(props[1..], prop);
      var r := UpdateFirst(props, prop);
      assert r == [props[0]] + UpdateFirst(props[1..], prop);
      match KeyIndex(props[1..], prop.key)
      case None =>
      case Some(k) =>
        forall i | 0 <= i < |props| && i != k + 1
          ensures r[i] == props[i]
        {
          if i > 0 { assert r[i] == UpdateFirst(props[1..], prop)[i - 1]; }
        }
    }
  }

  /** Updating a property twice with the same value is the same as once. */
  lemma {:induction false} UpdateFirstIdempotent(props: seq<Property>, prop: Property)
    ensures UpdateFirst(UpdateFirst(props, prop), prop) == UpdateFirst(props, prop)
  {
    if props != [] && props[0].key != prop.key {
      UpdateFirstIdempotent(props[1..], prop);
      assert UpdateFirst(props, prop)[1..] == UpdateFirst(props[1..], prop);
    }
  }

  /** Every recognised signal is re-emitted as it was decoded; only the
      two property signals touch the cache, and an unrecognised one is
      dropped. */
  lemma HandleSignalCases(c: Cache, name: string, args: Args)
    ensures var r := HandleSignalStep(c, name, args);
      (Demux(name, args).None? ==> r == Step(c, [])) &&
      (Demux(name, args).Some? ==> r.out == [Emit(Demux(name, args).value)]) &&
      (r.c == c || r.c == c.(propList := r.c.propList))
  {
    var d := Demux(name, args);
    if d.Some? {
      SignalEffectKeeps(c, d.value);
    }
  }

  /** A signal's effect on the cache is confined to the property list. */
  lemma SignalEffectKeeps(c: Cache, e: EngineEvent)
    ensures SignalEffect(c, e) == c.(propList := SignalEffect(c, e).propList)
  {
  }

  /** An event the engine sends through its signal is re-emitted as it
      was, and its class handler's effect lands on the cache. */
  lemma HandleSentEvent(c: Cache, e: EngineEvent)
    ensures HandleSignalStep(c, SignalName(e), SignalArgs(e)) == Step(SignalEffect(c, e), [Emit(e)])
  {
    DemuxRoundTrip(e);
  }

  /** A property list the engine registers becomes the cache; an update
      sent through the same signal path lands on the first property with
      its key; no other signal touches the cache. */
  lemma PropertySignals(c: Cache, e: EngineEvent)
    ensures var r := HandleSignalStep(c, SignalName(e), SignalArgs(e)).c;
      (e.RegisterProperties? ==> r == c.(propList := e.props)) &&
      (e.UpdateProperty? ==> r == c.(propList := UpdateFirst(c.propList, e.prop))) &&
      (!e.RegisterProperties? && !e.UpdateProperty? ==> r == c)
  {
    HandleSentEvent(c, e);
  }
}
