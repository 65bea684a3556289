/**
 * Properties of the input-method context transitions of module
 * ImContextSpec: the bound and order of the key-event queue, the preedit
 * signal protocol, and focus.
 */
module ImContextProps {
  import opened Common
  import opened ImContextSpec

  // ---------------------------------------------------------------------
  // The key-event queue

  /** Pushing onto a queue within its bound keeps it within the bound:
      below the bound the event is appended, at the bound the oldest event
      makes room for it. */
  lemma EnqueueBounded(q: seq<KeyEvent>, e: KeyEvent)
    requires |q| <= MaxQueuedEvents
    ensures var r := Enqueue(q, e); |r| <= MaxQueuedEvents && r[|r| - 1] == e
    ensures |q| < MaxQueuedEvents ==> Enqueue(q, e) == q + [e]
    ensures |q| == MaxQueuedEvents ==> Enqueue(q, e) == q[1..] + [e]
  {
  }

  /** Keeping the newest events of a prefix and then the newest of the
      whole is the same as keeping the newest of the whole. */
  lemma NewestAbsorbs(s: seq<KeyEvent>, t: seq<KeyEvent>)
    ensures Newest(Newest(s) + t) == Newest(s + t)
  {
    if |s| > MaxQueuedEvents {
      var n := MaxQueuedEvents;
      var a := Newest(s) + t;
      var b := s + t;
      assert |a| == n + |t|;
      if |t| < n {
        forall i | 0 <= i < n
          ensures Newest(a)[i] == Newest(b)[i]
        {
          if i < n - |t| {
            assert Newest(a)[i] == a[|t| + i] == s[|s| - n + |t| + i];
          } else {
            assert Newest(a)[i] == t[i - (n - |t|)];
          }
        }
      } else {
        assert Newest(a) == t[|t| - n..] == Newest(b);
      }
    }
  }

  /** Within the bound, pushing keeps the newest events. */
  lemma EnqueueKeepsNewest(q: seq<KeyEvent>, e: KeyEvent)
    requires |q| <= MaxQueuedEvents
    ensures Enqueue(q, e) == Newest(q + [e])
  {
  }

  /** Whatever events are queued, the queue ends up holding the newest
      of them (and of what it held), in the order they arrived. */
  lemma {:induction false} EnqueueAllKeepsNewest(q: seq<KeyEvent>, es: seq<KeyEvent>)
    requires |q| <= MaxQueuedEvents
    decreases |es|
    ensures EnqueueAll(q, es) == Newest(q + es)
  {
    if es == [] {
      assert q + es == q;
    } else {
      var q1 := Enqueue(q, es[0]);
      assert EnqueueAll(q, es) == EnqueueAll(q1, es[1..]);
      EnqueueKeepsNewest(q, es[0]);
      EnqueueAllKeepsNewest(q1, es[1..]);
      NewestAbsorbs(q + [es[0]], es[1..]);
      assert q + [es[0]] + es[1..] == q + es;
    }
  }

  /** Processing one more event appends its call. */
  lemma DrainCallsAppend(q: seq<KeyEvent>, e: KeyEvent)
    ensures DrainCalls(q + [e]) == DrainCalls(q) + [ProcessCall(e)]
  {
    assert (q + [e])[..|q|] == q;
  }

  /** The drain processes the queued events one each, oldest first. */
  lemma {:induction false} DrainCallsInOrder(q: seq<KeyEvent>)
    decreases |q|
    ensures |DrainCalls(q)| == |q|
    ensures forall i :: 0 <= i < |q| ==> DrainCalls(q)[i] == ProcessCall(q[i])
  {
    if q != [] {
      DrainCallsInOrder(q[..|q| - 1]);
    }
  }

  /** An event is queued exactly when the daemon runs, the context has
      focus, the event is not marked as handled or ignored, no IBus input
      context exists yet, and a creation request is pending or the bus is
      not connected. Only a queued event changes the queue, and only a
      sent event changes the calls. */
  lemma FilterKeypressCases(c: Ctx, g: Globals, e: KeyEvent)
    ensures var (c', o) := FilterKeypressStep(c, g, e);
      (o == Queued <==> g.daemonRunning && c.hasFocus && e.state & HandledMask == 0 &&
                        e.state & IgnoredMask == 0 && !c.ibusContext && (c.creating || !g.busConnected)) &&
      (o == Queued ==> c' == c.(queue := Enqueue(c.queue, e))) &&
      (o == SentToIBus ==> c' == c.(calls := c.calls + [ProcessCall(e)])) &&
      (o != Queued && o != SentToIBus ==> c' == c)
  {
  }

  /** The result of filtering a sequence of events. */
  function FilterAll(c: Ctx, g: Globals, es: seq<KeyEvent>): Ctx
    decreases |es|
  {
    if es == [] then c else FilterAll(FilterKeypressStep(c, g, es[0]).0, g, es[1..])
  }

  /** An event neither marked as handled nor as ignored. */
  predicate Unmarked(e: KeyEvent)
  {
    e.state & HandledMask == 0 && e.state & IgnoredMask == 0
  }

  /** A waiting context queues an unmarked event. */
  lemma WaitingContextQueuesOne(c: Ctx, g: Globals, e: KeyEvent)
    requires g.daemonRunning && c.hasFocus && !c.ibusContext && (c.creating || !g.busConnected)
    requires Unmarked(e)
    ensures FilterKeypressStep(c, g, e).0 == c.(queue := Enqueue(c.queue, e))
  {
  }

  /** The events a waiting context filters are queued, and the queue keeps
      the newest of them. */
  lemma {:induction false} WaitingContextQueues(c: Ctx, g: Globals, es: seq<KeyEvent>)
    requires g.daemonRunning && c.hasFocus && !c.ibusContext && (c.creating || !g.busConnected)
    requires forall i :: 0 <= i < |es| ==> Unmarked(es[i])
    requires |c.queue| <= MaxQueuedEvents
    decreases |es|
    ensures FilterAll(c, g, es) == c.(queue := Newest(c.queue + es))
  {
    if es == [] {
      assert c.queue + es == c.queue;
    } else {
      WaitingContextQueuesOne(c, g, es[0]);
      var c1 := c.(queue := Enqueue(c.queue, es[0]));
      assert FilterAll(c, g, es) == FilterAll(c1, g, es[1..]);
      EnqueueKeepsNewest(c.queue, es[0]);
      WaitingContextQueues(c1, g, es[1..]);
      NewestAbsorbs(c.queue + [es[0]], es[1..]);
      assert c.queue + [es[0]] + es[1..] == c.queue + es;
    }
  }

  /** Once the IBus input context has been created, the queue is empty and
      the queued events have been sent in order; after a failure the queue
      is kept for a later attempt. Either way no request is pending. */
  lemma CreateDoneDrains(c: Ctx, g: Globals, ok: bool)
    ensures !CreateDoneStep(c, g, ok).creating
    ensures ok ==> CreateDoneStep(c, g, ok).queue == [] && CreateDoneStep(c, g, ok).ibusContext
    ensures ok ==> CreateDoneStep(c, g, ok).calls == c.calls + SetupCalls(c, g) + DrainCalls(c.queue)
    ensures !ok ==> CreateDoneStep(c, g, ok) == c.(creating := false)
  {
  }

  /** The events a focused context receives while it waits for its IBus
      input context reach IBus once it is created: the newest twenty of
      them, in the order they were typed, after the calls that set it up. */
  lemma WaitedEventsReachIBus(c: Ctx, g: Globals, es: seq<KeyEvent>)
    requires g.daemonRunning && c.hasFocus && !c.ibusContext && c.creating && c.queue == []
    requires forall i :: 0 <= i < |es| ==> Unmarked(es[i])
    ensures var done := CreateDoneStep(FilterAll(c, g, es), g, true);
      done.queue == [] && done.ibusContext &&
      done.calls == c.calls + SetupCalls(c, g) + DrainCalls(Newest(es))
  {
    WaitingContextQueues(c, g, es);
    assert c.queue + es == es;
    CreateDoneDrains(FilterAll(c, g, es), g, true);
  }

  /** _create_input_context starts a request only when none is pending. */
  lemma CreateInputContextOnce(c: Ctx)
    ensures CreateInputContextStep(c).creating
    ensures CreateInputContextStep(CreateInputContextStep(c)) == CreateInputContextStep(c)
    ensures c.creating ==> CreateInputContextStep(c) == c
  {
  }

  // ---------------------------------------------------------------------
  // The preedit

  /** The signals of an update follow the change of visibility. */
  lemma UpdatePreeditSignals(p: Preedit, text: string, cursorPos: int, visible: bool, mode: bv32)
    ensures var s := UpdatePreedit(p, text, cursorPos, visible, mode).signals;
      (!p.visible && visible ==> s == [PreeditStart, PreeditChanged]) &&
      (p.visible && visible ==> s == [PreeditChanged]) &&
      (p.visible && !visible ==> s == [PreeditChanged, PreeditEnd]) &&
      (!p.visible && !visible ==> s == [])
  {
  }

  /** What an update sets is what the application reads back. */
  lemma UpdatePreeditReadBack(p: Preedit, text: string, cursorPos: int, visible: bool, mode: bv32)
    ensures var r := UpdatePreedit(p, text, cursorPos, visible, mode).p;
      PreeditWf(r) &&
      PreeditString(r) == (if visible then (text, cursorPos) else ("", 0))
  {
  }

  /** Showing a visible preedit and hiding a hidden one change nothing and
      emit nothing; so showing or hiding twice is the same as once. */
  lemma ShowHideIdempotent(p: Preedit)
    ensures p.visible ==> ShowPreedit(p) == PreeditStep(p, [])
    ensures !p.visible ==> HidePreedit(p) == PreeditStep(p, [])
    ensures ShowPreedit(ShowPreedit(p).p) == PreeditStep(ShowPreedit(p).p, [])
    ensures HidePreedit(HidePreedit(p).p) == PreeditStep(HidePreedit(p).p, [])
  {
  }

  /** Hiding undoes showing, and showing undoes hiding; only the
      visibility changes, never the text, cursor or mode. */
  lemma ShowHideRoundTrip(p: Preedit)
    ensures !p.visible ==> HidePreedit(ShowPreedit(p).p).p == p
    ensures p.visible ==> ShowPreedit(HidePreedit(p).p).p == p
    ensures ShowPreedit(p).p.visible && !HidePreedit(p).p.visible
    ensures PreeditString(HidePreedit(p).p) == ("", 0)
  {
  }

  /** Clearing the preedit empties its string and keeps its cursor and
      visibility; the old string is committed exactly when the preedit
      was visible and in commit mode. */
  lemma ClearPreeditCommits(p: Preedit)
    requires PreeditWf(p)
    ensures var r := ClearPreedit(p);
      r.p == Preedit(Some(""), p.cursorPos, p.visible, PreeditClear) &&
      r.signals == (if p.visible then [PreeditChanged] else []) +
                   (if p.visible && p.mode == PreeditCommit then [Commit(p.text.value)] else [])
    ensures (exists t :: Commit(t) in ClearPreedit(p).signals) <==> p.visible && p.mode == PreeditCommit
    ensures PreeditString(ClearPreedit(p).p) == (if p.visible then ("", p.cursorPos) else ("", 0))
  {
    if p.visible && p.mode == PreeditCommit {
      assert Commit(p.text.value) in ClearPreedit(p).signals;
    }
  }

  /** Clearing twice commits at most once: the first clear leaves the
      preedit in clear mode. */
  lemma ClearPreeditOnce(p: Preedit)
    ensures PendingCommit(ClearPreedit(p).p) == None
    ensures ClearPreedit(ClearPreedit(p).p).p == ClearPreedit(p).p
  {
  }

  /** The protocol tracker over a concatenation. */
  lemma {:induction false} TrackAppend(open: bool, a: seq<ImSignal>, b: seq<ImSignal>)
    decreases |a|
    ensures Track(open, a + b) == (match Track(open, a)
                                   case None => None
                                   case Some(o) => Track(o, b))
  {
    if a != [] {
      assert (a + b)[0] == a[0];
      assert (a + b)[1..] == a[1..] + b;
      match a[0]
      case PreeditStart =>
        if !open { TrackAppend(true, a[1..], b); }
      case PreeditEnd =>
        if open { TrackAppend(false, a[1..], b); }
      case PreeditChanged =>
        if open { TrackAppend(open, a[1..], b); }
      case Commit(_) =>
        TrackAppend(open, a[1..], b);
    } else {
      assert a + b == b;
    }
  }

  /** Every preedit transition follows the protocol: from the application's
      view matching the visibility flag, its signals lead to a view that
      matches the new flag. */
  lemma PreeditStepsFollowProtocol(p: Preedit, text: string, cursorPos: int, visible: bool, mode: bv32)
    ensures var s := UpdatePreedit(p, text, cursorPos, visible, mode); Track(p.visible, s.signals) == Some(s.p.visible)
    ensures var s := ShowPreedit(p); Track(p.visible, s.signals) == Some(s.p.visible)
    ensures var s := HidePreedit(p); Track(p.visible, s.signals) == Some(s.p.visible)
    ensures var s := ClearPreedit(p); Track(p.visible, s.signals) == Some(s.p.visible)
  {
    var s := UpdatePreedit(p, text, cursorPos, visible, mode).signals;
    if visible && !p.visible {
      assert s == [PreeditStart, PreeditChanged] && s[1..] == [PreeditChanged];
    } else if !visible && p.visible {
      assert s == [PreeditChanged, PreeditEnd] && s[1..] == [PreeditEnd];
    }
    assert [PreeditStart, PreeditChanged][1..] == [PreeditChanged];
    assert [PreeditChanged, PreeditEnd][1..] == [PreeditEnd];
    var u := UpdatePreedit(p, "", p.cursorPos, p.visible, PreeditClear);
    var saved := PendingCommit(p);
    TrackAppend(p.visible, u.signals, if saved.Some? then [Commit(saved.value)] else []);
  }

  /** A transition that follows the protocol keeps a context well formed. */
  lemma ApplyPreeditKeepsInv(c: Ctx, s: PreeditStep)
    requires Inv(c) && PreeditWf(s.p)
    requires Track(c.preedit.visible, s.signals) == Some(s.p.visible)
    ensures Inv(ApplyPreedit(c, s))
  {
    TrackAppend(false, c.signals, s.signals);
  }

  /** The preedit transitions keep a context well formed. */
  lemma PreeditStepsKeepInv(c: Ctx, text: string, cursorPos: int, visible: bool, mode: bv32)
    requires Inv(c)
    ensures Inv(ApplyPreedit(c, UpdatePreedit(c.preedit, text, cursorPos, visible, mode)))
    ensures Inv(ApplyPreedit(c, ShowPreedit(c.preedit)))
    ensures Inv(ApplyPreedit(c, HidePreedit(c.preedit)))
    ensures Inv(ApplyPreedit(c, ClearPreedit(c.preedit)))
  {
    PreeditStepsFollowProtocol(c.preedit, text, cursorPos, visible, mode);
    ApplyPreeditKeepsInv(c, UpdatePreedit(c.preedit, text, cursorPos, visible, mode));
    ApplyPreeditKeepsInv(c, ShowPreedit(c.preedit));
    ApplyPreeditKeepsInv(c, HidePreedit(c.preedit));
    ApplyPreeditKeepsInv(c, ClearPreedit(c.preedit));
  }

  // ---------------------------------------------------------------------
  // Focus

  /** Focus-in on a focused context, and focus-out on an unfocused one,
      change nothing; an invisible entry never gains focus. */
  lemma FocusNoOps(c: Ctx, g: Globals, hiddenEntry: bool)
    ensures c.hasFocus ==> FocusInStep(c, g, hiddenEntry) == Pair(c, g)
    ensures !c.hasFocus ==> FocusOutStep(c, g) == Pair(c, g)
    ensures FocusInStep(c, g, true) == Pair(c, g)
    ensures var r := FocusInStep(c, g, hiddenEntry); FocusInStep(r.c, r.g, hiddenEntry).c == r.c
  {
  }

  /** Focus-in on an unfocused context takes focus unless the content-type
      check refuses it; a refused focus-in only tells the fake context
      that it lost focus. */
  lemma FocusInCases(c: Ctx, g: Globals)
    requires !c.hasFocus
    ensures var r := FocusInStep(c, g, false);
      var fakeOut := g.focused.None? && g.fakeContext;
      r.g.fakeCalls == g.fakeCalls + (if fakeOut then [FocusOut] else []) &&
      (ContentTypeCheck(c, g).0 ==>
         r.c.hasFocus && r.g.focused == Some(c.id) &&
         r.c.calls == c.calls + (if c.ibusContext then [SetContentType(c.purpose, c.hints), FocusIn] else [])) &&
      (!ContentTypeCheck(c, g).0 ==> r.c == c && r.g.focused == g.focused)
  {
  }

  /** With the password filter on, a password or PIN entry with an IBus
      input context never gains focus and IBus hears nothing of it. */
  lemma DiscardedPasswordNotFocused(c: Ctx, g: Globals, hiddenEntry: bool)
    requires c.ibusContext && g.useDiscardPassword
    requires c.purpose == PurposePassword || c.purpose == PurposePin
    ensures FocusInStep(c, g, hiddenEntry).c == c
    ensures FocusInStep(c, g, hiddenEntry).g.focused == g.focused
  {
  }

  /** A new input purpose or new hints are kept, and passed on once to an
      existing IBus input context unless the password filter withholds
      them; nothing else of the context changes. */
  lemma NotifyContentTypeCases(c: Ctx, g: Globals, purpose: bv32, hints: bv32)
    ensures var r := NotifyContentTypeStep(c, g, purpose, hints);
      var withheld := g.useDiscardPassword && (purpose == PurposePassword || purpose == PurposePin);
      r == c.(purpose := purpose, hints := hints, calls := r.calls) &&
      (c.ibusContext && !withheld ==> r.calls == c.calls + [SetContentType(purpose, hints)]) &&
      (!c.ibusContext || withheld ==> r.calls == c.calls) &&
      (Inv(c) ==> Inv(r))
  {
  }

  /** Once the widget marks the entry as a password or PIN entry, the
      password filter keeps IBus from hearing of it and from focusing it. */
  lemma PasswordPurposeRefusesFocus(c: Ctx, g: Globals, purpose: bv32, hints: bv32, hiddenEntry: bool)
    requires c.ibusContext && g.useDiscardPassword
    requires purpose == PurposePassword || purpose == PurposePin
    ensures var r := NotifyContentTypeStep(c, g, purpose, hints);
      r.calls == c.calls &&
      FocusInStep(r, g, hiddenEntry).c == r && FocusInStep(r, g, hiddenEntry).g.focused == g.focused
  {
    DiscardedPasswordNotFocused(NotifyContentTypeStep(c, g, purpose, hints), g, hiddenEntry);
  }

  /** Focus-out drops focus, forgets the focused context, clears the
      preedit and tells IBus, then focuses the fake context in. */
  lemma FocusOutCases(c: Ctx, g: Globals)
    requires c.hasFocus
    ensures var r := FocusOutStep(c, g);
      !r.c.hasFocus && r.g.focused == None &&
      r.g.fakeCalls == g.fakeCalls + (if g.fakeContext then [FocusIn] else []) &&
      (c.ibusContext ==> r.c.preedit == ClearPreedit(c.preedit).p &&
                         r.c.signals == c.signals + ClearPreedit(c.preedit).signals &&
                         r.c.calls == c.calls + [FocusOut]) &&
      (!c.ibusContext ==> r.c == c.(hasFocus := false))
  {
  }

  /** Filtering a key keeps a context well formed. */
  lemma FilterKeypressKeepsInv(c: Ctx, g: Globals, e: KeyEvent)
    requires Inv(c)
    ensures Inv(FilterKeypressStep(c, g, e).0)
  {
    EnqueueBounded(c.queue, e);
  }

  /** The creation steps keep a context well formed. */
  lemma CreationStepsKeepInv(c: Ctx, g: Globals, ok: bool)
    requires Inv(c)
    ensures Inv(CreateInputContextStep(c))
    ensures Inv(CreateDoneStep(c, g, ok))
  {
  }

  /** Focus changes keep a context well formed. */
  lemma FocusStepsKeepInv(c: Ctx, g: Globals, hiddenEntry: bool)
    requires Inv(c)
    ensures Inv(FocusInStep(c, g, hiddenEntry).c)
    ensures Inv(FocusOutStep(c, g).c)
  {
    if c.hasFocus && c.ibusContext {
      PreeditStepsKeepInv(c, "", 0, false, PreeditClear);
    }
  }

  /** Whichever context focus moves to or from, the focused context is
      one that has focus. */
  lemma FocusKeepsFocusInv(ctxs: map<nat, Ctx>, g: Globals, id: nat, hiddenEntry: bool)
    requires FocusInv(ctxs, g) && id in ctxs
    ensures var r := FocusInStep(ctxs[id], g, hiddenEntry); FocusInv(ctxs[id := r.c], r.g)
    ensures var r := FocusOutStep(ctxs[id], g); FocusInv(ctxs[id := r.c], r.g)
  {
  }

  /** Focus-in does not take focus from the previously focused context, so
      two contexts can both have focus; a later focus-out of the first
      forgets the focused context although the second still has it. */
  lemma TwoContextsKeepFocus(a: Ctx, b: Ctx, g: Globals)
    requires a.id != b.id && !a.hasFocus && !b.hasFocus && !a.ibusContext && !b.ibusContext
    ensures var ra := FocusInStep(a, g, false);
      var rb := FocusInStep(b, ra.g, false);
      var ra2 := FocusOutStep(ra.c, rb.g);
      ra.c.hasFocus && rb.c.hasFocus && rb.g.focused == Some(b.id) &&
      ra2.g.focused == None && !ra2.c.hasFocus
  {
  }
}
