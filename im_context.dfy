/**
 * IBusIMContext (client/gtk2/ibusimcontext.c) as objects: the process-wide
 * globals the contexts share, and a context whose fields the callbacks
 * update in place. Every method is proved to make the transition of the
 * same name in module ImContextSpec.
 */
module ImContext {
  import opened Common
  import opened ImContextSpec
  import opened ImContextProps

  /** The module's static variables. */
  class ClientGlobals {
    var focused: Option<nat>
    var fakeContext: bool
    var fakeCalls: seq<ContextCall>
    var useDiscardPassword: bool
    var daemonRunning: bool
    var busConnected: bool

    constructor (fakeContext: bool, useDiscardPassword: bool, daemonRunning: bool, busConnected: bool)
      ensures Snapshot() == Globals(None, fakeContext, [], useDiscardPassword, daemonRunning, busConnected)
    {
      focused := None;
      this.fakeContext := fakeContext;
      fakeCalls := [];
      this.useDiscardPassword := useDiscardPassword;
      this.daemonRunning := daemonRunning;
      this.busConnected := busConnected;
    }

    function Snapshot(): Globals
      reads this
    {
      Globals(focused, fakeContext, fakeCalls, useDiscardPassword, daemonRunning, busConnected)
    }
  }

  class IMContext {
    const id: nat
    const globals: ClientGlobals

    var hasFocus: bool
    var ibusContext: bool
    /** A creation request is pending (the cancellable is set). */
    var creating: bool
    var eventsQueue: seq<KeyEvent>
    var preeditString: Option<string>
    var preeditCursorPos: int
    var preeditVisible: bool
    var preeditMode: bv32
    var purpose: bv32
    var hints: bv32
    var caps: bv32
    /** Signals emitted towards the application, oldest first. */
    var signals: seq<ImSignal>
    /** Calls made on the IBus input context, oldest first. */
    var calls: seq<ContextCall>

    function Preedit(): Preedit
      reads this
    {
      ImContextSpec.Preedit(preeditString, preeditCursorPos, preeditVisible, preeditMode)
    }

    function Snapshot(): Ctx
      reads this
    {
      Ctx(id, hasFocus, ibusContext, creating, eventsQueue, Preedit(), purpose, hints, caps,
          signals, calls)
    }

    predicate Valid()
      reads this
    {
      Inv(Snapshot())
    }

    /** ibus_im_context_init; caps is what the build enables. */
    constructor (id: nat, globals: ClientGlobals, caps: bv32)
      ensures this.id == id && this.globals == globals
      ensures Snapshot() == InitialCtx(id, caps)
      ensures Valid()
    {
      this.id := id;
      this.globals := globals;
      hasFocus, ibusContext, creating := false, false, false;
      eventsQueue := [];
      preeditString, preeditCursorPos, preeditVisible, preeditMode := None, 0, false, PreeditClear;
      purpose, hints := 0, 0;
      this.caps := caps;
      signals, calls := [], [];
    }

    /** ibus_im_context_filter_keypress. */
    method FilterKeypress(e: KeyEvent) returns (outcome: KeyOutcome)
      requires Valid()
      modifies this`eventsQueue, this`calls
      ensures Valid()
      ensures (Snapshot(), outcome) == FilterKeypressStep(old(Snapshot()), globals.Snapshot(), e)
    {
      FilterKeypressKeepsInv(Snapshot(), globals.Snapshot(), e);
      outcome := ApplyFilterKeypress(e);
    }

    method ApplyFilterKeypress(e: KeyEvent) returns (outcome: KeyOutcome)
      modifies this`eventsQueue, this`calls
      ensures (Snapshot(), outcome) == FilterKeypressStep(old(Snapshot()), globals.Snapshot(), e)
    {
      if !globals.daemonRunning || !hasFocus {
        return ToSlave;
      }
      if e.state & HandledMask != 0 {
        return AlreadyHandled;
      }
      if e.state & IgnoredMask != 0 {
        return CommittedAsText;
      }
      if ibusContext {
        calls := calls + [ProcessCall(e)];
        return SentToIBus;
      }
      if !(creating || !globals.busConnected) {
        return Refused;
      }
      // Push to the tail; past the bound, drop the head.
      eventsQueue := eventsQueue + [e];
      if |eventsQueue| > MaxQueuedEvents {
        eventsQueue := eventsQueue[1..];
      }
      return Queued;
    }

    /** _create_input_context. */
    method CreateInputContext()
      requires Valid() && !ibusContext
      modifies this`creating
      ensures Valid()
      ensures Snapshot() == CreateInputContextStep(old(Snapshot()))
    {
      if !creating {
        creating := true;
      }
    }

    /** _create_input_context_done; ok tells whether the daemon created
        the input context. */
    method CreateInputContextDone(ok: bool)
      requires Valid() && creating
      modifies this`creating, this`ibusContext, this`calls, this`eventsQueue
      ensures Valid()
      ensures Snapshot() == CreateDoneStep(old(Snapshot()), globals.Snapshot(), ok)
    {
      CreationStepsKeepInv(Snapshot(), globals.Snapshot(), ok);
      ApplyCreateDone(ok);
    }

    method ApplyCreateDone(ok: bool)
      modifies this`creating, this`ibusContext, this`calls, this`eventsQueue
      ensures Snapshot() == CreateDoneStep(old(Snapshot()), globals.Snapshot(), ok)
    {
      creating := false;
      if !ok {
        return;
      }
      ibusContext := true;
      SendSetup();
      DrainQueue();
    }

    /** The calls _create_input_context_done makes before the drain. */
    method SendSetup()
      modifies this`calls
      ensures calls == old(calls) + SetupCalls(Snapshot(), globals.Snapshot())
    {
      var setup := [SetCapabilities(caps)];
      if hasFocus {
        // The content-type check's answer is not consulted here.
        if !(globals.useDiscardPassword && (purpose == PurposePassword || purpose == PurposePin)) {
          setup := setup + [SetContentType(purpose, hints)];
        }
        setup := setup + [ContextCall.FocusIn];
      }
      calls := calls + setup;
    }

    /** The drain loop of _create_input_context_done: the queued events are
        popped from the head and processed until the queue is empty. */
    method DrainQueue()
      modifies this`eventsQueue, this`calls
      ensures eventsQueue == []
      ensures calls == old(calls) + DrainCalls(old(eventsQueue))
    {
      ghost var processed: seq<KeyEvent> := [];
      while eventsQueue != []
        invariant old(eventsQueue) == processed + eventsQueue
        invariant calls == old(calls) + DrainCalls(processed)
        decreases |eventsQueue|
      {
        var e := eventsQueue[0];
        eventsQueue := eventsQueue[1..];
        calls := calls + [ProcessCall(e)];
        DrainCallsAppend(processed, e);
        processed := processed + [e];
      }
      assert processed == old(eventsQueue);
    }

    /** _ibus_context_update_preedit_text_cb. */
    method UpdatePreeditText(text: string, cursorPos: int, visible: bool, mode: bv32)
      requires Valid()
      modifies this`preeditString, this`preeditCursorPos, this`preeditVisible, this`preeditMode, this`signals
      ensures Valid()
      ensures Snapshot() == ApplyPreedit(old(Snapshot()), UpdatePreedit(old(Preedit()), text, cursorPos, visible, mode))
    {
      PreeditStepsKeepInv(Snapshot(), text, cursorPos, visible, mode);
      ApplyUpdatePreedit(text, cursorPos, visible, mode);
    }

    method ApplyUpdatePreedit(text: string, cursorPos: int, visible: bool, mode: bv32)
      modifies this`preeditString, this`preeditCursorPos, this`preeditVisible, this`preeditMode, this`signals
      ensures Snapshot() == ApplyPreedit(old(Snapshot()), UpdatePreedit(old(Preedit()), text, cursorPos, visible, mode))
    {
      preeditString := Some(text);
      preeditCursorPos := cursorPos;
      var flag := preeditVisible != visible;
      preeditVisible := visible;
      preeditMode := mode;
      var emitted: seq<ImSignal> := [];
      if preeditVisible {
        if flag {
          emitted := [PreeditStart];
        }
        emitted := emitted + [PreeditChanged];
      } else if flag {
        emitted := [PreeditChanged, PreeditEnd];
      }
      signals := signals + emitted;
    }

    /** _ibus_context_show_preedit_text_cb. */
    method ShowPreeditText()
      requires Valid()
      modifies this`preeditVisible, this`signals
      ensures Valid()
      ensures Snapshot() == ApplyPreedit(old(Snapshot()), ShowPreedit(old(Preedit())))
    {
      PreeditStepsKeepInv(Snapshot(), "", 0, false, PreeditClear);
      if preeditVisible {
        return;
      }
      preeditVisible := true;
      signals := signals + [PreeditStart, PreeditChanged];
    }

    /** _ibus_context_hide_preedit_text_cb. */
    method HidePreeditText()
      requires Valid()
      modifies this`preeditVisible, this`signals
      ensures Valid()
      ensures Snapshot() == ApplyPreedit(old(Snapshot()), HidePreedit(old(Preedit())))
    {
      PreeditStepsKeepInv(Snapshot(), "", 0, false, PreeditClear);
      if !preeditVisible {
        return;
      }
      preeditVisible := false;
      signals := signals + [PreeditChanged, PreeditEnd];
    }

    /** ibus_im_context_clear_preedit_text; the source asserts that the
        IBus input context exists. */
    method ClearPreeditText()
      requires Valid() && ibusContext
      modifies this`preeditString, this`preeditCursorPos, this`preeditVisible, this`preeditMode, this`signals
      ensures Valid()
      ensures Snapshot() == ApplyPreedit(old(Snapshot()), ClearPreedit(old(Preedit())))
    {
      PreeditStepsKeepInv(Snapshot(), "", 0, false, PreeditClear);
      ApplyClearPreedit();
    }

    method ApplyClearPreedit()
      modifies this`preeditString, this`preeditCursorPos, this`preeditVisible, this`preeditMode, this`signals
      ensures Snapshot() == ApplyPreedit(old(Snapshot()), ClearPreedit(old(Preedit())))
    {
      ghost var c0 := Snapshot();
      var saved: Option<string> := None;
      if preeditVisible && preeditMode == PreeditCommit {
        saved := preeditString;
      }
      ApplyUpdatePreedit("", preeditCursorPos, preeditVisible, PreeditClear);
      if saved.Some? {
        signals := signals + [Commit(saved.value)];
      }
      assert signals == c0.signals + ClearPreedit(c0.preedit).signals;
    }

    /** ibus_im_context_get_preedit_string. */
    method GetPreeditString() returns (text: string, cursorPos: int)
      ensures (text, cursorPos) == PreeditString(Preedit())
      ensures !preeditVisible ==> text == "" && cursorPos == 0
    {
      if preeditVisible {
        text := if preeditString.Some? then preeditString.value else "";
        cursorPos := preeditCursorPos;
      } else {
        text := "";
        cursorPos := 0;
      }
    }

    /** ibus_im_context_notify for the input-purpose and input-hints
        properties, which the client widget sets. */
    method NotifyContentType(newPurpose: bv32, newHints: bv32)
      requires Valid()
      modifies this`purpose, this`hints, this`calls
      ensures Valid()
      ensures Snapshot() == NotifyContentTypeStep(old(Snapshot()), globals.Snapshot(), newPurpose, newHints)
    {
      purpose, hints := newPurpose, newHints;
      if ibusContext && !(globals.useDiscardPassword && (purpose == PurposePassword || purpose == PurposePin)) {
        calls := calls + [SetContentType(purpose, hints)];
      }
    }

    /** ibus_im_context_focus_in; hiddenEntry: the client widget is an entry
        whose text is not visible. */
    method FocusIn(hiddenEntry: bool)
      requires Valid()
      modifies this`hasFocus, this`calls, globals`focused, globals`fakeCalls
      ensures Valid()
      ensures Snapshot() == FocusInStep(old(Snapshot()), old(globals.Snapshot()), hiddenEntry).c
      ensures globals.Snapshot() == FocusInStep(old(Snapshot()), old(globals.Snapshot()), hiddenEntry).g
    {
      FocusStepsKeepInv(Snapshot(), globals.Snapshot(), hiddenEntry);
      ApplyFocusIn(hiddenEntry);
    }

    method ApplyFocusIn(hiddenEntry: bool)
      modifies this`hasFocus, this`calls, globals`focused, globals`fakeCalls
      ensures Snapshot() == FocusInStep(old(Snapshot()), old(globals.Snapshot()), hiddenEntry).c
      ensures globals.Snapshot() == FocusInStep(old(Snapshot()), old(globals.Snapshot()), hiddenEntry).g
    {
      if hasFocus || hiddenEntry {
        return;
      }
      ghost var r := FocusInStep(Snapshot(), globals.Snapshot(), hiddenEntry);
      if globals.focused.None? && globals.fakeContext {
        globals.fakeCalls := globals.fakeCalls + [ContextCall.FocusOut];
      }
      assert globals.fakeCalls == r.g.fakeCalls;
      hasFocus := true;
      if ibusContext {
        if globals.useDiscardPassword && (purpose == PurposePassword || purpose == PurposePin) {
          hasFocus := false;
          return;
        }
        calls := calls + [SetContentType(purpose, hints), ContextCall.FocusIn];
      }
      globals.focused := Some(id);
    }

    /** ibus_im_context_focus_out. */
    method FocusOut()
      requires Valid()
      modifies this`hasFocus, this`calls, this`preeditString, this`preeditCursorPos,
               this`preeditVisible, this`preeditMode, this`signals, globals`focused, globals`fakeCalls
      ensures Valid()
      ensures Snapshot() == FocusOutStep(old(Snapshot()), old(globals.Snapshot())).c
      ensures globals.Snapshot() == FocusOutStep(old(Snapshot()), old(globals.Snapshot())).g
    {
      FocusStepsKeepInv(Snapshot(), globals.Snapshot(), false);
      ApplyFocusOut();
    }

    method ApplyFocusOut()
      modifies this`hasFocus, this`calls, this`preeditString, this`preeditCursorPos,
               this`preeditVisible, this`preeditMode, this`signals, globals`focused, globals`fakeCalls
      ensures Snapshot() == FocusOutStep(old(Snapshot()), old(globals.Snapshot())).c
      ensures globals.Snapshot() == FocusOutStep(old(Snapshot()), old(globals.Snapshot())).g
    {
      if !hasFocus {
        return;
      }
      globals.focused := None;
      hasFocus := false;
      if ibusContext {
        ApplyClearPreedit();
        calls := calls + [ContextCall.FocusOut];
      }
      if globals.fakeContext {
        globals.fakeCalls := globals.fakeCalls + [ContextCall.FocusIn];
      }
    }
  }
}
