/**
 * The daemon's mirror of one engine session (BusEngineProxy in
 * bus/engineproxy.c), as transitions on a value that holds the proxy's
 * cached fields. Every mutator compares the new value with the cache and
 * only calls the engine when something differs; calls to the engine
 * process and signals the proxy re-emits are recorded in an output log.
 * The class in module Proxy performs the same transitions in place and is
 * proved against these functions.
 */
module ProxySpec {
  import opened Common
  import opened EngineSignals

  /** IBUS_KEY_VoidSymbol. */
  const VoidSymbol: bv32 := 0xffffff

  /** A keycode-to-keysym mapping (IBusKeymap); a pair it does not map
      looks up as VoidSymbol. */
  datatype Keymap = Keymap(entries: map<(bv32, bv32), bv32>)

  function LookupKeysym(k: Keymap, keycode: bv32, state: bv32): bv32
  {
    if (keycode, state) in k.entries then k.entries[(keycode, state)] else VoidSymbol
  }

  /** The values an engine-name category table holds. A name that is
      not in the table reads as unknown. */
  datatype FocusCategory = FocusUnknown | HasId | NoId
  datatype SurroundingCategory = SurroundingUnknown | HasActive | NotActive

  /** The D-Bus methods the proxy calls on the engine process. */
  datatype Rpc =
    | ProcessKeyEvent(keyval: bv32, keycode: bv32, state: bv32)
    | SetCursorLocation(x: int32, y: int32, w: int32, h: int32)
    | SetCapabilities(caps: bv32)
    | SetSurroundingText(text: string, cursor: bv32, anchor: bv32)
    | SetContentType(purpose: bv32, hints: bv32)
    | FocusInId(path: string, client: string)
    | FocusIn
    | FocusOutId(path: string)
    | FocusOut
    | Enable
    | Disable
    | GetProperty(name: string)

  /** One entry of the proxy's output: a call to the engine, or a signal
      the proxy emits towards its input context. */
  datatype Out = Call(rpc: Rpc) | Emit(event: EngineEvent)

  /** The cached fields of a proxy. */
  datatype Cache = Cache(
    hasFocus: bool,
    enabled: bool,
    capabilities: bv32,
    x: int32, y: int32, w: int32, h: int32,
    surroundingText: string,
    surroundingCursorPos: bv32,
    selectionAnchorPos: bv32,
    contentType: Option<(bv32, bv32)>,
    propList: seq<Property>,
    hasFocusId: bool,
    hasActiveSurroundingText: bool,
    objectPath: Option<string>,
    client: Option<string>,
    keymap: Option<Keymap>)

  /** The new cache and what the transition sent. */
  datatype Step = Step(c: Cache, out: seq<Out>)

  /** The focus flag and the remembered object path and client agree. */
  predicate Inv(c: Cache)
  {
    (c.hasFocus <==> c.objectPath.Some?) && (c.objectPath.Some? <==> c.client.Some?)
  }

  const RequireSurrounding: Out := Emit(Plain(RequireSurroundingText))

  /** A fresh proxy before the category tables are consulted. */
  function Blank(keymap: Option<Keymap>): Cache
  {
    Cache(false, false, 0, 0, 0, 0, 0, "", 0, 0, None, [], false, false, None, None, keymap)
  }

  /** The flag a focus-id category gives, and whether it has to be probed. */
  function FocusFlag(cat: FocusCategory): (bool, bool)
  {
    match cat
    case HasId => (true, false)
    case NoId => (false, false)
    case FocusUnknown => (false, true)
  }

  function SurroundingFlag(cat: SurroundingCategory): (bool, bool)
  {
    match cat
    case HasActive => (true, false)
    case NotActive => (false, false)
    case SurroundingUnknown => (false, true)
  }

  function FocusCategoryIn(table: map<string, FocusCategory>, name: string): FocusCategory
  {
    if name in table then table[name] else FocusUnknown
  }

  function SurroundingCategoryIn(table: map<string, SurroundingCategory>, name: string): SurroundingCategory
  {
    if name in table then table[name] else SurroundingUnknown
  }

  /** bus_engine_proxy_new_internal: the keymap of a non-empty layout, and
      each capability flag from its table, or a probe when the table does
      not know the engine's name. */
  function NewProxyStep(name: string, layout: string, layoutKeymap: Option<Keymap>,
                        focusTable: map<string, FocusCategory>,
                        surroundingTable: map<string, SurroundingCategory>): Step
  {
    var f := FocusFlag(FocusCategoryIn(focusTable, name));
    var a := SurroundingFlag(SurroundingCategoryIn(surroundingTable, name));
    var c := Blank(if layout != "" then layoutKeymap else None).(hasFocusId := f.0, hasActiveSurroundingText := a.0);
    Step(c, (if f.1 then [Call(GetProperty("FocusId"))] else []) +
            (if a.1 then [Call(GetProperty("ActiveSurroundingText"))] else []))
  }

  /** The category a successful probe records for the engine's name. */
  function FocusCategoryOf(b: bool): FocusCategory { if b then HasId else NoId }
  function SurroundingCategoryOf(b: bool): SurroundingCategory { if b then HasActive else NotActive }

  /** The keymap a key event is translated with: the engine's own, else
      the daemon's default. */
  function ChosenKeymap(own: Option<Keymap>, default: Option<Keymap>): Option<Keymap>
  {
    if own.Some? then own else default
  }

  /** The keyval bus_engine_proxy_process_key_event sends. */
  function EffectiveKeyval(own: Option<Keymap>, default: Option<Keymap>, useSysLayout: bool,
                           keyval: bv32, keycode: bv32, state: bv32): bv32
  {
    if keycode != 0 && !useSysLayout then
      match ChosenKeymap(own, default)
      case Some(k) =>
        var t := LookupKeysym(k, keycode, state);
        if t != VoidSymbol then t else keyval
      case None => keyval
    else keyval
  }

  function ProcessKeyEventStep(c: Cache, default: Option<Keymap>, useSysLayout: bool,
                               keyval: bv32, keycode: bv32, state: bv32): Step
  {
    Step(c, [Call(ProcessKeyEvent(EffectiveKeyval(c.keymap, default, useSysLayout, keyval, keycode, state),
                                  keycode, state))])
  }

  function SetCursorLocationStep(c: Cache, x: int32, y: int32, w: int32, h: int32): Step
  {
    if c.x != x || c.y != y || c.w != w || c.h != h then
      Step(c.(x := x, y := y, w := w, h := h), [Call(SetCursorLocation(x, y, w, h))])
    else Step(c, [])
  }

  function SetCapabilitiesStep(c: Cache, caps: bv32): Step
  {
    if c.capabilities != caps then Step(c.(capabilities := caps), [Call(SetCapabilities(caps))])
    else Step(c, [])
  }

  function SetSurroundingTextStep(c: Cache, text: string, cursor: bv32, anchor: bv32): Step
  {
    if text != c.surroundingText || cursor != c.surroundingCursorPos || anchor != c.selectionAnchorPos then
      Step(c.(surroundingText := text, surroundingCursorPos := cursor, selectionAnchorPos := anchor),
           [Call(SetSurroundingText(text, cursor, anchor))])
    else Step(c, [])
  }

  /** The content type is compared with the proxy's cached D-Bus property,
      which the proxy sets itself after the call. */
  function SetContentTypeStep(c: Cache, purpose: bv32, hints: bv32): Step
  {
    if c.contentType != Some((purpose, hints)) then
      Step(c.(contentType := Some((purpose, hints))), [Call(SetContentType(purpose, hints))])
    else Step(c, [])
  }

  function FocusInStep(c: Cache, path: string, client: string): Step
  {
    if c.hasFocus && c.objectPath == Some(path) then Step(c, [])
    else
      Step(c.(hasFocus := true, objectPath := Some(path), client := Some(client)),
           (if c.hasActiveSurroundingText then [RequireSurrounding] else []) +
           [Call(if c.hasFocusId then FocusInId(path, client) else FocusIn)])
  }

  function FocusOutStep(c: Cache, path: string): Step
  {
    if !c.hasFocus then Step(c, [])
    else
      Step(c.(hasFocus := false, objectPath := None, client := None),
           [Call(if c.hasFocusId then FocusOutId(path) else FocusOut)])
  }

  function EnableStep(c: Cache): Step
  {
    if c.enabled then Step(c, [])
    else
      Step(c.(enabled := true),
           (if c.hasActiveSurroundingText then [RequireSurrounding] else []) + [Call(Enable)])
  }

  function DisableStep(c: Cache): Step
  {
    if c.enabled then Step(c.(enabled := false), [Call(Disable)]) else Step(c, [])
  }

  /** ibus_prop_list_update_property on a flat list: the first property
      with the same key is replaced. */
  function UpdateFirst(props: seq<Property>, prop: Property): seq<Property>
  {
    if props == [] then []
    else if props[0].key == prop.key then [prop] + props[1..]
    else [props[0]] + UpdateFirst(props[1..], prop)
  }

  /** Where UpdateFirst puts the property, if anywhere. */
  function KeyIndex(props: seq<Property>, key: string): (r: Option<nat>)
    ensures r.Some? ==> r.value < |props| && props[r.value].key == key &&
                        forall i :: 0 <= i < r.value ==> props[i].key != key
    ensures r.None? ==> forall i :: 0 <= i < |props| ==> props[i].key != key
  {
    if props == [] then None
    else if props[0].key == key then Some(0)
    else match KeyIndex(props[1..], key)
      case Some(i) => Some(i + 1)
      case None => None
  }

  /** What a signal does to the cache on its way: the class handlers of
      register-properties and update-property keep the property list. */
  function SignalEffect(c: Cache, e: EngineEvent): Cache
  {
    match e
    case RegisterProperties(props) => c.(propList := props)
    case UpdateProperty(prop) => c.(propList := UpdateFirst(c.propList, prop))
    case _ => c
  }

  /** A signal from the engine: every recognised signal is re-emitted. */
  function HandleSignalStep(c: Cache, name: string, args: Args): Step
  {
    match Demux(name, args)
    case None => Step(c, [])
    case Some(e) => Step(SignalEffect(c, e), [Emit(e)])
  }

  /** The reply to the FocusId probe; an error reply changes nothing. */
  function FocusIdReplyStep(c: Cache, reply: Option<bool>): Step
  {
    match reply
    case None => Step(c, [])
    case Some(b) => Step(c.(hasFocusId := b), if c.hasFocus then [RequireSurrounding] else [])
  }

  /** The reply to the ActiveSurroundingText probe. When the engine takes
      focus ids and a context is focused, focus-in is sent once more so
      that the engine hears of it now that the flags are known. */
  function ActiveSurroundingReplyStep(c: Cache, reply: Option<bool>): Step
  {
    match reply
    case None => Step(c, [])
    case Some(b) =>
      var c1 := c.(hasActiveSurroundingText := b);
      if c1.hasFocusId && c1.objectPath.Some? then
        FocusInStep(c1.(hasFocus := false), c1.objectPath.value,
                    if c1.client.Some? then c1.client.value else "")
      else Step(c1, [])
  }
}
