/**
 * The demultiplexer of D-Bus signals coming from an engine process
 * (bus_engine_proxy_g_signal in bus/engineproxy.c): a signal name and its
 * decoded arguments become one typed engine event, or nothing.
 *
 * Arguments arrive already decoded from their D-Bus tuple; a serialised
 * object is given by the class it deserialised to, and a variant or a
 * deserialisation that produced no object is None.
 */
module EngineSignals {
  import opened Common

  type int32 = x: int | -0x8000_0000 <= x < 0x8000_0000

  /** A property of an engine's property list; everything but its key
      (label, icon, tooltip, state, ...) is kept opaque. */
  datatype Property = Property(key: string, attributes: seq<int>)

  /** A deserialised IBus object, by the class it deserialised to. */
  datatype Serial =
    | TextObj(text: string)
    | TableObj(candidates: seq<string>)
    | PropListObj(props: seq<Property>)
    | PropObj(prop: Property)
    | ExtensionObj(data: seq<int>)

  /** The decoded argument tuple of an incoming signal. */
  datatype Args =
    | NoArgs
    | ObjectArg(obj: Option<Serial>)                                        // (v)
    | KeyArgs(keyval: bv32, keycode: bv32, state: bv32)                     // (uuu)
    | DeleteArgs(offset: int32, nchars: bv32)                               // (iu)
    | PreeditArgs(text: Option<Serial>, cursor: bv32, visible: bool, mode: bv32) // (vubu)
    | VisibleArgs(content: Option<Serial>, shown: bool)                     // (vb)
    | RawArgs(raw: seq<int>)                                                // any other tuple

  /** The signals without arguments. */
  datatype Nullary =
    | ShowPreeditText | HidePreeditText | ShowAuxiliaryText | HideAuxiliaryText
    | ShowLookupTable | HideLookupTable | PageUpLookupTable | PageDownLookupTable
    | CursorUpLookupTable | CursorDownLookupTable | RequireSurroundingText

  /** The events the proxy re-emits. */
  datatype EngineEvent =
    | Plain(kind: Nullary)
    | CommitText(text: string)
    | ForwardKeyEvent(keyval: bv32, keycode: bv32, state: bv32)
    | DeleteSurroundingText(offset: int32, nchars: bv32)
    | UpdatePreeditText(text: string, cursor: bv32, visible: bool, mode: bv32)
    | UpdateAuxiliaryText(text: string, visible: bool)
    | UpdateLookupTable(candidates: seq<string>, visible: bool)
    | RegisterProperties(props: seq<Property>)
    | UpdateProperty(prop: Property)
    | PanelExtension(data: seq<int>)
    | SendMessage(parameters: Args)

  /** The signals with arguments. */
  datatype ArgKind =
    | KCommitText | KForwardKeyEvent | KDeleteSurroundingText | KUpdatePreeditText
    | KUpdateAuxiliaryText | KUpdateLookupTable | KRegisterProperties | KUpdateProperty
    | KPanelExtension | KSendMessage

  /** The nullary signals, in the order they are tried. */
  const NullaryTable: seq<(string, Nullary)> := [
    ("ShowPreeditText", ShowPreeditText),
    ("HidePreeditText", HidePreeditText),
    ("ShowAuxiliaryText", ShowAuxiliaryText),
    ("HideAuxiliaryText", HideAuxiliaryText),
    ("ShowLookupTable", ShowLookupTable),
    ("HideLookupTable", HideLookupTable),
    ("PageUpLookupTable", PageUpLookupTable),
    ("PageDownLookupTable", PageDownLookupTable),
    ("CursorUpLookupTable", CursorUpLookupTable),
    ("CursorDownLookupTable", CursorDownLookupTable),
    ("RequireSurroundingText", RequireSurroundingText)
  ]

  /** The signals with arguments, in the order they are tried. */
  const ArgTable: seq<(string, ArgKind)> := [
    ("CommitText", KCommitText),
    ("ForwardKeyEvent", KForwardKeyEvent),
    ("DeleteSurroundingText", KDeleteSurroundingText),
    ("UpdatePreeditText", KUpdatePreeditText),
    ("UpdateAuxiliaryText", KUpdateAuxiliaryText),
    ("UpdateLookupTable", KUpdateLookupTable),
    ("RegisterProperties", KRegisterProperties),
    ("UpdateProperty", KUpdateProperty),
    ("PanelExtension", KPanelExtension),
    ("SendMessage", KSendMessage)
  ]

  /** The first entry of a table with the given name. */
  function Find<K>(table: seq<(string, K)>, name: string): (r: Option<K>)
    ensures r.Some? ==> exists i :: 0 <= i < |table| && table[i] == (name, r.value)
    ensures r.None? ==> forall i :: 0 <= i < |table| ==> table[i].0 != name
  {
    if table == [] then None
    else if table[0].0 == name then Some(table[0].1)
    else
      var r := Find(table[1..], name);
      assert r.Some? ==> exists i :: 0 <= i < |table[1..]| && table[1..][i] == (name, r.value);
      r
  }

  /** The event a signal with arguments carries, when its arguments have
      the expected shape and hold an object of the expected class. A
      ForwardKeyEvent or DeleteSurroundingText of the wrong type gives None
      here, where bus_engine_proxy_g_signal still emits the signal with
      zeroed arguments after g_variant_get fails. */
  function Decode(kind: ArgKind, args: Args): Option<EngineEvent>
  {
    match kind
    case KCommitText =>
      if args.ObjectArg? && args.obj.Some? && args.obj.value.TextObj? then
        Some(CommitText(args.obj.value.text))
      else None
    case KForwardKeyEvent =>
      if args.KeyArgs? then Some(ForwardKeyEvent(args.keyval, args.keycode, args.state)) else None
    case KDeleteSurroundingText =>
      if args.DeleteArgs? then Some(DeleteSurroundingText(args.offset, args.nchars)) else None
    case KUpdatePreeditText =>
      if args.PreeditArgs? && args.text.Some? && args.text.value.TextObj? then
        Some(UpdatePreeditText(args.text.value.text, args.cursor, args.visible, args.mode))
      else None
    case KUpdateAuxiliaryText =>
      if args.VisibleArgs? && args.content.Some? && args.content.value.TextObj? then
        Some(UpdateAuxiliaryText(args.content.value.text, args.shown))
      else None
    case KUpdateLookupTable =>
      if args.VisibleArgs? && args.content.Some? && args.content.value.TableObj? then
        Some(UpdateLookupTable(args.content.value.candidates, args.shown))
      else None
    case KRegisterProperties =>
      if args.ObjectArg? && args.obj.Some? && args.obj.value.PropListObj? then
        Some(RegisterProperties(args.obj.value.props))
      else None
    case KUpdateProperty =>
      if args.ObjectArg? && args.obj.Some? && args.obj.value.PropObj? then
        Some(UpdateProperty(args.obj.value.prop))
      else None
    case KPanelExtension =>
      if args.ObjectArg? && args.obj.Some? && args.obj.value.ExtensionObj? then
        Some(PanelExtension(args.obj.value.data))
      else None
    case KSendMessage =>
      Some(SendMessage(args))
  }

  /** bus_engine_proxy_g_signal: the nullary table first, then the
      signals with arguments; an unknown name, arguments of another
      shape, or a missing object give nothing. */
  function Demux(name: string, args: Args): Option<EngineEvent>
  {
    match Find(NullaryTable, name)
    case Some(k) => Some(Plain(k))
    case None =>
      match Find(ArgTable, name)
      case Some(kind) => Decode(kind, args)
      case None => None
  }

  function NullaryIndex(k: Nullary): (i: nat)
    ensures i < |NullaryTable| && NullaryTable[i].1 == k
  {
    match k
    case ShowPreeditText => 0
    case HidePreeditText => 1
    case ShowAuxiliaryText => 2
    case HideAuxiliaryText => 3
    case ShowLookupTable => 4
    case HideLookupTable => 5
    case PageUpLookupTable => 6
    case PageDownLookupTable => 7
    case CursorUpLookupTable => 8
    case CursorDownLookupTable => 9
    case RequireSurroundingText => 10
  }

  function ArgIndex(k: ArgKind): (i: nat)
    ensures i < |ArgTable| && ArgTable[i].1 == k
  {
    match k
    case KCommitText => 0
    case KForwardKeyEvent => 1
    case KDeleteSurroundingText => 2
    case KUpdatePreeditText => 3
    case KUpdateAuxiliaryText => 4
    case KUpdateLookupTable => 5
    case KRegisterProperties => 6
    case KUpdateProperty => 7
    case KPanelExtension => 8
    case KSendMessage => 9
  }

  /** The kind of a signal with arguments that carries an event. */
  function KindOf(e: EngineEvent): ArgKind
    requires !e.Plain?
  {
    match e
    case CommitText(_) => KCommitText
    case ForwardKeyEvent(_, _, _) => KForwardKeyEvent
    case DeleteSurroundingText(_, _) => KDeleteSurroundingText
    case UpdatePreeditText(_, _, _, _) => KUpdatePreeditText
    case UpdateAuxiliaryText(_, _) => KUpdateAuxiliaryText
    case UpdateLookupTable(_, _) => KUpdateLookupTable
    case RegisterProperties(_) => KRegisterProperties
    case UpdateProperty(_) => KUpdateProperty
    case PanelExtension(_) => KPanelExtension
    case SendMessage(_) => KSendMessage
  }

  /** The D-Bus name of the signal that carries an event. */
  function SignalName(e: EngineEvent): string
  {
    if e.Plain? then NullaryTable[NullaryIndex(e.kind)].0 else ArgTable[ArgIndex(KindOf(e))].0
  }

  /** The arguments an event travels with. */
  function SignalArgs(e: EngineEvent): Args
  {
    match e
    case Plain(_) => NoArgs
    case CommitText(t) => ObjectArg(Some(TextObj(t)))
    case ForwardKeyEvent(kv, kc, st) => KeyArgs(kv, kc, st)
    case DeleteSurroundingText(o, n) => DeleteArgs(o, n)
    case UpdatePreeditText(t, c, v, m) => PreeditArgs(Some(TextObj(t)), c, v, m)
    case UpdateAuxiliaryText(t, v) => VisibleArgs(Some(TextObj(t)), v)
    case UpdateLookupTable(t, v) => VisibleArgs(Some(TableObj(t)), v)
    case RegisterProperties(p) => ObjectArg(Some(PropListObj(p)))
    case UpdateProperty(p) => ObjectArg(Some(PropObj(p)))
    case PanelExtension(x) => ObjectArg(Some(ExtensionObj(x)))
    case SendMessage(a) => a
  }

  /** All 21 signal names are distinct. */
  lemma NamesDistinct()
    ensures forall i, j :: 0 <= i < j < |NullaryTable| ==> NullaryTable[i].0 != NullaryTable[j].0
    ensures forall i, j :: 0 <= i < j < |ArgTable| ==> ArgTable[i].0 != ArgTable[j].0
    ensures forall i, j :: 0 <= i < |NullaryTable| && 0 <= j < |ArgTable| ==>
                           NullaryTable[i].0 != ArgTable[j].0
  {
  }

  /** In a table whose names are distinct, looking up the name of an
      entry finds that entry. */
  lemma {:induction false} FindAt<K>(t: seq<(string, K)>, i: nat)
    requires i < |t|
    requires forall a, b :: 0 <= a < b < |t| ==> t[a].0 != t[b].0
    ensures Find(t, t[i].0) == Some(t[i].1)
  {
    if i > 0 {
      assert t[0].0 != t[i].0;
      assert t[1..][i - 1] == t[i];
      FindAt(t[1..], i - 1);
    }
  }

  /** Looking a name up in a table none of whose names it is gives nothing. */
  lemma FindAbsent<K>(t: seq<(string, K)>, name: string)
    requires forall i :: 0 <= i < |t| ==> t[i].0 != name
    ensures Find(t, name).None?
  {
  }

  lemma NullaryRoundTrip(k: Nullary, args: Args)
    ensures Demux(NullaryTable[NullaryIndex(k)].0, args) == Some(Plain(k))
  {
    NamesDistinct();
    FindAt(NullaryTable, NullaryIndex(k));
  }

  lemma ArgRoundTrip(kind: ArgKind, args: Args)
    ensures Demux(ArgTable[ArgIndex(kind)].0, args) == Decode(kind, args)
  {
    var j := ArgIndex(kind);
    NamesDistinct();
    FindAbsent(NullaryTable, ArgTable[j].0);
    FindAt(ArgTable, j);
  }

  /** Decoding the arguments an event travels with gives the event back. */
  lemma DecodeRoundTrip(e: EngineEvent)
    requires !e.Plain?
    ensures Decode(KindOf(e), SignalArgs(e)) == Some(e)
  {
  }

  /** Every event survives the trip through its signal: the demultiplexer
      gives back exactly the event that was sent. */
  lemma DemuxRoundTrip(e: EngineEvent)
    ensures Demux(SignalName(e), SignalArgs(e)) == Some(e)
  {
    if e.Plain? {
      NullaryRoundTrip(e.kind, SignalArgs(e));
    } else {
      ArgRoundTrip(KindOf(e), SignalArgs(e));
      DecodeRoundTrip(e);
    }
  }

  /** The index functions invert the tables. */
  lemma IndicesInvert()
    ensures forall i :: 0 <= i < |NullaryTable| ==> NullaryIndex(NullaryTable[i].1) == i
    ensures forall j :: 0 <= j < |ArgTable| ==> ArgIndex(ArgTable[j].1) == j
  {
  }

  /** An event comes only from the signal that carries it, and a name in
      neither table gives nothing. */
  lemma DemuxNames(name: string, args: Args)
    ensures Demux(name, args).Some? ==> SignalName(Demux(name, args).value) == name
    ensures ((forall i :: 0 <= i < |NullaryTable| ==> NullaryTable[i].0 != name) &&
             (forall j :: 0 <= j < |ArgTable| ==> ArgTable[j].0 != name)) ==> Demux(name, args).None?
  {
    IndicesInvert();
    match Find(NullaryTable, name)
    case Some(k) =>
      var i :| 0 <= i < |NullaryTable| && NullaryTable[i] == (name, k);
      assert i == NullaryIndex(k);
    case None =>
      match Find(ArgTable, name)
      case Some(kind) =>
        var j :| 0 <= j < |ArgTable| && ArgTable[j] == (name, kind);
        assert j == ArgIndex(kind);
        DecodeKind(kind, args);
      case None =>
  }
  /** A decoded event is of the kind it was decoded as. */
  lemma DecodeKind(kind: ArgKind, args: Args)
    ensures Decode(kind, args).Some? ==> !Decode(kind, args).value.Plain? && KindOf(Decode(kind, args).value) == kind
  {
  }
}
