/**
 * The toolkit-independent state of the GTK input-method module
 * (IBusIMContext in client/gtk2/ibusimcontext.c), as transitions on
 * values: the queue of key events that arrive before the IBus input
 * context exists, the preedit state and the signals it emits towards the
 * application, and focus, which is shared with the process-wide globals
 * (the focused context and the fake context). The classes in module
 * ImContext perform the same transitions in place and are proved against
 * these functions.
 */
module ImContextSpec {
  import opened Common

  /** MAX_QUEUED_EVENTS. */
  const MaxQueuedEvents := 20

  /** Modifier bits of IBusModifierType. */
  const HandledMask: bv32 := 0x100_0000
  const IgnoredMask: bv32 := 0x200_0000
  const ReleaseMask: bv32 := 0x4000_0000

  /** IBusPreeditFocusMode. */
  const PreeditClear: bv32 := 0
  const PreeditCommit: bv32 := 1

  /** GtkInputPurpose values the password filter looks for. */
  const PurposePassword: bv32 := 8
  const PurposePin: bv32 := 9

  /** A key event from the toolkit; hardwareKeycode is the toolkit's
      16-bit hardware keycode, which is 8 above the evdev code IBus takes. */
  datatype KeyEvent = KeyEvent(keyval: bv32, hardwareKeycode: bv16, state: bv32, release: bool)

  /** Signals the context emits towards the application. */
  datatype ImSignal = PreeditStart | PreeditChanged | PreeditEnd | Commit(text: string)

  /** Calls made on an IBus input context (the context's own or the fake
      context). */
  datatype ContextCall =
    | SetCapabilities(caps: bv32)
    | SetContentType(purpose: bv32, hints: bv32)
    | FocusIn
    | FocusOut
    | ProcessKeyEvent(keyval: bv32, keycode: bv32, state: bv32)

  /** The preedit the context shows; text is None until the first update. */
  datatype Preedit = Preedit(text: Option<string>, cursorPos: int, visible: bool, mode: bv32)

  const InitialPreedit := Preedit(None, 0, false, PreeditClear)

  /** One IBusIMContext. creating stands for a pending creation request
      (a non-null cancellable); ibusContext for an existing IBus input
      context. */
  datatype Ctx = Ctx(
    id: nat,
    hasFocus: bool,
    ibusContext: bool,
    creating: bool,
    queue: seq<KeyEvent>,
    preedit: Preedit,
    purpose: bv32,
    hints: bv32,
    caps: bv32,
    signals: seq<ImSignal>,
    calls: seq<ContextCall>)

  /** The process-wide state: the focused context (_focus_im_context),
      whether the fake context exists and the calls made on it, and the
      settings and connection state the callbacks consult. */
  datatype Globals = Globals(
    focused: Option<nat>,
    fakeContext: bool,
    fakeCalls: seq<ContextCall>,
    useDiscardPassword: bool,
    daemonRunning: bool,
    busConnected: bool)

  datatype Pair = Pair(c: Ctx, g: Globals)

  function InitialCtx(id: nat, caps: bv32): Ctx
  {
    Ctx(id, false, false, false, [], InitialPreedit, 0, 0, caps, [], [])
  }

  // ---------------------------------------------------------------------
  // The key-event queue

  /** Appends an event and drops the oldest one when the queue has grown
      beyond its bound. */
  function Enqueue(q: seq<KeyEvent>, e: KeyEvent): seq<KeyEvent>
  {
    var pushed := q + [e];
    if |pushed| > MaxQueuedEvents then pushed[1..] else pushed
  }

  /** The newest events of s, as many as the queue holds. */
  function Newest(s: seq<KeyEvent>): (r: seq<KeyEvent>)
    ensures |r| <= MaxQueuedEvents
  {
    if |s| <= MaxQueuedEvents then s else s[|s| - MaxQueuedEvents..]
  }

  function EnqueueAll(q: seq<KeyEvent>, es: seq<KeyEvent>): seq<KeyEvent>
    decreases |es|
  {
    if es == [] then q else EnqueueAll(Enqueue(q, es[0]), es[1..])
  }

  /** The state word sent for an event: a release carries the release bit. */
  function WireState(e: KeyEvent): bv32
  {
    if e.release then e.state | ReleaseMask else e.state
  }

  /** The call _process_key_event makes for e in every mode: the keycode
      is the hardware keycode less 8, a subtraction that wraps as guint. */
  function ProcessCall(e: KeyEvent): (r: ContextCall)
    ensures r.ProcessKeyEvent? && r.keyval == e.keyval && r.state == WireState(e)
    ensures r.keycode + 8 == e.hardwareKeycode as bv32
    ensures e.hardwareKeycode >= 8 ==> r.keycode == (e.hardwareKeycode - 8) as bv32
    ensures e.hardwareKeycode < 8 ==> r.keycode >= 0xFFFF_FFF8
  {
    ProcessKeyEvent(e.keyval, (e.hardwareKeycode as bv32) - 8, WireState(e))
  }

  /** The calls that process the events of q in order. */
  function DrainCalls(q: seq<KeyEvent>): seq<ContextCall>
    decreases |q|
  {
    if q == [] then [] else DrainCalls(q[..|q| - 1]) + [ProcessCall(q[|q| - 1])]
  }

  /** What filter_keypress did with an event: left it to the fallback
      context, accepted it as already handled, committed it as text, sent
      it to IBus, refused it, or queued it. */
  datatype KeyOutcome = ToSlave | AlreadyHandled | CommittedAsText | SentToIBus | Refused | Queued

  /** ibus_im_context_filter_keypress. The answer IBus gives to a sent
      event, and the text a committed event gives, are not modelled. */
  function FilterKeypressStep(c: Ctx, g: Globals, e: KeyEvent): (Ctx, KeyOutcome)
  {
    if !g.daemonRunning || !c.hasFocus then (c, ToSlave)
    else if e.state & HandledMask != 0 then (c, AlreadyHandled)
    else if e.state & IgnoredMask != 0 then (c, CommittedAsText)
    else if c.ibusContext then (c.(calls := c.calls + [ProcessCall(e)]), SentToIBus)
    else if !(c.creating || !g.busConnected) then (c, Refused)
    else (c.(queue := Enqueue(c.queue, e)), Queued)
  }

  /** _create_input_context: starts a request unless one is pending. */
  function CreateInputContextStep(c: Ctx): Ctx
  {
    if c.creating then c else c.(creating := true)
  }

  /** _set_content_type: whether focus may be taken, and the call it makes. */
  function ContentTypeCheck(c: Ctx, g: Globals): (bool, seq<ContextCall>)
  {
    if !c.ibusContext then (true, [])
    else if g.useDiscardPassword && (c.purpose == PurposePassword || c.purpose == PurposePin) then (false, [])
    else (true, [SetContentType(c.purpose, c.hints)])
  }

  /** ibus_im_context_notify for the input-purpose and input-hints
      properties: the context takes the new content type and
      _set_content_type passes it on. */
  function NotifyContentTypeStep(c: Ctx, g: Globals, purpose: bv32, hints: bv32): Ctx
  {
    var c1 := c.(purpose := purpose, hints := hints);
    c1.(calls := c1.calls + ContentTypeCheck(c1, g).1)
  }

  /** The calls _create_input_context_done makes on a new input context
      before the queued events: the capabilities, then, for a focused
      context, the content type (unless the password filter withholds it)
      and focus-in. The content-type check's answer is ignored here. */
  function SetupCalls(c: Ctx, g: Globals): seq<ContextCall>
  {
    [SetCapabilities(c.caps)] +
    if c.hasFocus then ContentTypeCheck(c.(ibusContext := true), g).1 + [FocusIn] else []
  }

  /** _create_input_context_done. On success the IBus input context
      exists, it is set up, and the queued events are processed oldest
      first; the queue is left empty. */
  function CreateDoneStep(c: Ctx, g: Globals, ok: bool): Ctx
  {
    if !ok then c.(creating := false)
    else
      c.(creating := false, ibusContext := true, calls := c.calls + SetupCalls(c, g) + DrainCalls(c.queue),
         queue := [])
  }

  // ---------------------------------------------------------------------
  // The preedit

  datatype PreeditStep = PreeditStep(p: Preedit, signals: seq<ImSignal>)

  /** _ibus_context_update_preedit_text_cb. */
  function UpdatePreedit(p: Preedit, text: string, cursorPos: int, visible: bool, mode: bv32): PreeditStep
  {
    var changed := p.visible != visible;
    var sigs :=
      if visible then (if changed then [PreeditStart] else []) + [PreeditChanged]
      else if changed then [PreeditChanged, PreeditEnd]
      else [];
    PreeditStep(Preedit(Some(text), cursorPos, visible, mode), sigs)
  }

  /** _ibus_context_show_preedit_text_cb. */
  function ShowPreedit(p: Preedit): PreeditStep
  {
    if p.visible then PreeditStep(p, [])
    else PreeditStep(p.(visible := true), [PreeditStart, PreeditChanged])
  }

  /** _ibus_context_hide_preedit_text_cb. */
  function HidePreedit(p: Preedit): PreeditStep
  {
    if !p.visible then PreeditStep(p, [])
    else PreeditStep(p.(visible := false), [PreeditChanged, PreeditEnd])
  }

  /** The string a visible preedit in commit mode leaves behind. */
  function PendingCommit(p: Preedit): Option<string>
  {
    if p.visible && p.mode == PreeditCommit then p.text else None
  }

  /** ibus_im_context_clear_preedit_text: an empty update that keeps the
      cursor and the visibility, then the commit of what was pending. */
  function ClearPreedit(p: Preedit): PreeditStep
  {
    var u := UpdatePreedit(p, "", p.cursorPos, p.visible, PreeditClear);
    var saved := PendingCommit(p);
    PreeditStep(u.p, u.signals + if saved.Some? then [Commit(saved.value)] else [])
  }

  /** A preedit transition applied to a context: the new preedit, and its
      signals appended to what the context emitted. */
  function ApplyPreedit(c: Ctx, s: PreeditStep): Ctx
  {
    c.(preedit := s.p, signals := c.signals + s.signals)
  }

  /** ibus_im_context_get_preedit_string: the string and cursor an
      application reads. */
  function PreeditString(p: Preedit): (string, int)
  {
    if p.visible then (if p.text.Some? then p.text.value else "", p.cursorPos) else ("", 0)
  }

  /** A preedit in commit mode has a string. */
  predicate PreeditWf(p: Preedit)
  {
    p.mode == PreeditCommit ==> p.text.Some?
  }

  /** The application's view of the preedit after a stream of signals,
      starting from open: whether a preedit-start has been seen without
      its preedit-end. None when the stream breaks the protocol: a start
      while open, or an end or a change while closed. */
  function Track(open: bool, sigs: seq<ImSignal>): Option<bool>
    decreases |sigs|
  {
    if sigs == [] then Some(open)
    else match sigs[0]
      case PreeditStart => if open then None else Track(true, sigs[1..])
      case PreeditEnd => if !open then None else Track(false, sigs[1..])
      case PreeditChanged => if !open then None else Track(open, sigs[1..])
      case Commit(_) => Track(open, sigs[1..])
  }

  // ---------------------------------------------------------------------
  // Focus

  /** ibus_im_context_focus_in. hiddenEntry: the client widget is a
      GtkEntry whose text is not visible. */
  function FocusInStep(c: Ctx, g: Globals, hiddenEntry: bool): Pair
  {
    if c.hasFocus || hiddenEntry then Pair(c, g)
    else
      var g1 := if g.focused.None? && g.fakeContext then g.(fakeCalls := g.fakeCalls + [FocusOut]) else g;
      var check := ContentTypeCheck(c, g);
      if !check.0 then Pair(c, g1)
      else
        Pair(c.(hasFocus := true, calls := c.calls + check.1 + if c.ibusContext then [FocusIn] else []),
             g1.(focused := Some(c.id)))
  }

  /** ibus_im_context_focus_out: the focused context is forgotten whichever
      context it was. */
  function FocusOutStep(c: Ctx, g: Globals): Pair
  {
    if !c.hasFocus then Pair(c, g)
    else
      var c1 :=
        if c.ibusContext then
          ApplyPreedit(c, ClearPreedit(c.preedit)).(hasFocus := false, calls := c.calls + [FocusOut])
        else c.(hasFocus := false);
      Pair(c1, g.(focused := None, fakeCalls := g.fakeCalls + if g.fakeContext then [FocusIn] else []))
  }

  /** A context is well formed: its queue is bounded, its preedit is well
      formed, and its signal stream follows the protocol, with the
      application's view matching the visibility flag. */
  predicate Inv(c: Ctx)
  {
    |c.queue| <= MaxQueuedEvents &&
    PreeditWf(c.preedit) &&
    Track(false, c.signals) == Some(c.preedit.visible)
  }

  /** The focused context is one of the contexts, and it has focus. */
  predicate FocusInv(ctxs: map<nat, Ctx>, g: Globals)
  {
    (forall k :: k in ctxs ==> ctxs[k].id == k) &&
    (g.focused.Some? ==> g.focused.value in ctxs && ctxs[g.focused.value].hasFocus)
  }
}
