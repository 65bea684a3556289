/**
 * The asynchronous creation of an engine proxy (bus_engine_proxy_new and
 * its callbacks in bus/engineproxy.c). The pending request holds up to
 * four triggers: the component's notify::factory handler, a timeout, a
 * handler on the caller's cancellable, and the idle that reports a
 * cancellation; once the factory is there, a CreateEngine call is
 * pending instead. Whichever fires first completes the caller's task and
 * frees the request, which disarms the rest.
 *
 * The source relies on the cancellation idle running at high priority,
 * before any other event the daemon dispatches. The model states this as
 * an assumption on the order of events (Enabled): while the idle is
 * scheduled, it is the only event that can happen.
 */
module CreationSpec {
  import opened Common

  /** What the request asks of the rest of the daemon. */
  datatype Action = StartComponent | CreateEngine

  /** The request's state: which triggers are armed, what has been
      reported to the caller, and what was asked of the daemon. */
  datatype Request = Request(
    factoryHandler: bool,
    timeout: bool,
    cancelledHandler: bool,
    idleScheduled: bool,
    createPending: bool,
    freed: bool,
    completions: seq<Result<string>>,
    actions: seq<Action>)

  /** The events a request can see. A finished CreateEngine call gives the
      new engine's object path, or the error it failed with. */
  datatype Trigger =
    | FactoryNotified(factoryPresent: bool)
    | TimeoutFired
    | Cancelled
    | IdleRan
    | CreateFinished(reply: Result<string>)

  const CancelledMessage := "Operation was cancelled"
  const TimeoutMessage := "Timeout was reached"

  /** bus_engine_proxy_new. An already cancelled request completes at
      once; without a factory the component is started and the triggers
      armed (the cancel handler only when there is a cancellable); with a
      factory the engine is created straight away. */
  function Start(alreadyCancelled: bool, hasCancellable: bool, factoryReady: bool): Request
  {
    if alreadyCancelled then
      Request(false, false, false, false, false, true, [Err(CancelledMessage)], [])
    else if !factoryReady then
      Request(true, true, hasCancellable, false, false, false, [], [StartComponent])
    else
      Request(false, false, false, false, true, false, [], [CreateEngine])
  }

  /** engine_proxy_new_data_free: every trigger is disarmed. A scheduled
      idle is not removed by the source; under the priority assumption it
      has already run. */
  function Free(r: Request): Request
  {
    r.(factoryHandler := false, timeout := false, cancelledHandler := false, freed := true)
  }

  /** The events the daemon can deliver in a state: a trigger only while
      it is armed, and nothing but the idle while the idle is scheduled.
      Cancelling the caller's cancellable can happen at any time. */
  predicate Enabled(r: Request, t: Trigger)
  {
    match t
    case IdleRan => r.idleScheduled
    case Cancelled => true
    case FactoryNotified(_) => r.factoryHandler && !r.idleScheduled
    case TimeoutFired => r.timeout && !r.idleScheduled
    case CreateFinished(_) => r.createPending && !r.idleScheduled
  }

  function Step(r: Request, t: Trigger): Request
  {
    match t
    case FactoryNotified(present) =>
      // notify_factory_cb: with a factory, disarm the timeout, the
      // notify handler and the cancel handler, then create the engine.
      if present then
        r.(timeout := false, factoryHandler := false, cancelledHandler := false,
           createPending := true, actions := r.actions + [CreateEngine])
      else r
    case TimeoutFired =>
      Free(r.(completions := r.completions + [Err(TimeoutMessage)]))
    case Cancelled =>
      // cancelled_cb schedules the idle; a cancellable fires its handlers once.
      if r.cancelledHandler then r.(cancelledHandler := false, idleScheduled := true) else r
    case IdleRan =>
      Free(r.(idleScheduled := false, completions := r.completions + [Err(CancelledMessage)]))
    case CreateFinished(reply) =>
      // create_engine_ready_cb hands the path (as a new proxy) or the error on.
      Free(r.(createPending := false, completions := r.completions + [reply]))
  }

  /** The request is well formed: the notify handler and the timeout are
      armed together, the cancel handler and idle only while waiting for
      the factory, a CreateEngine call only after it; the GTask is completed
      exactly when the request is freed, and then nothing is armed;
      until then some trigger that completes it is armed. */
  predicate Inv(r: Request)
  {
    |r.completions| <= 1 &&
    (r.freed <==> |r.completions| == 1) &&
    (r.factoryHandler <==> r.timeout) &&
    (r.cancelledHandler ==> r.timeout) &&
    (r.idleScheduled ==> r.timeout && !r.cancelledHandler) &&
    (r.createPending ==> !r.timeout && !r.cancelledHandler && !r.idleScheduled) &&
    (r.freed ==> !r.factoryHandler && !r.timeout && !r.cancelledHandler && !r.idleScheduled && !r.createPending) &&
    (!r.freed ==> r.timeout || r.createPending)
  }

  lemma StartSatisfiesInv(alreadyCancelled: bool, hasCancellable: bool, factoryReady: bool)
    ensures Inv(Start(alreadyCancelled, hasCancellable, factoryReady))
    ensures alreadyCancelled ==> Start(alreadyCancelled, hasCancellable, factoryReady).completions == [Err(CancelledMessage)]
    ensures !alreadyCancelled ==> Start(alreadyCancelled, hasCancellable, factoryReady).completions == []
  {
  }

  /** Each delivered event keeps the request well formed and only ever
      appends to what the caller was told. */
  lemma StepKeepsInv(r: Request, t: Trigger)
    requires Inv(r) && Enabled(r, t)
    ensures Inv(Step(r, t))
    ensures r.completions <= Step(r, t).completions
    ensures r.freed ==> Step(r, t) == r
  {
  }

  /** The triggers of a freed request are disarmed, so the only event it
      can still see is a cancellation, which changes nothing. */
  lemma FreedIsInert(r: Request, t: Trigger)
    requires Inv(r) && r.freed && Enabled(r, t)
    ensures t.Cancelled? && Step(r, t) == r
  {
  }

  /** The factory arriving disarms the timeout, the notify handler and
      the cancel handler before the engine is created. */
  lemma FactoryDisarmsBeforeCreate(r: Request)
    requires Inv(r) && Enabled(r, FactoryNotified(true))
    ensures var r' := Step(r, FactoryNotified(true));
      !r'.timeout && !r'.factoryHandler && !r'.cancelledHandler && r'.createPending &&
      r'.actions == r.actions + [CreateEngine] && r'.completions == []
  {
  }

  /** A timeout and a cancellation complete the GTask with their own
      message and free the request. */
  lemma FailuresComplete(r: Request)
    requires Inv(r)
    ensures Enabled(r, TimeoutFired) ==> Step(r, TimeoutFired).completions == [Err(TimeoutMessage)] &&
                                         Step(r, TimeoutFired).freed
    ensures Enabled(r, IdleRan) ==> Step(r, IdleRan).completions == [Err(CancelledMessage)] &&
                                    Step(r, IdleRan).freed
  {
  }

  /** A request that is not yet completed always has an armed trigger
      that completes it, so together with the at-most-once lemma below the
      task is completed exactly once. */
  lemma CanComplete(r: Request)
    requires Inv(r) && !r.freed
    ensures exists t :: Enabled(r, t) && Step(r, t).freed && |Step(r, t).completions| == 1
  {
    var t := if r.idleScheduled then IdleRan
             else if r.createPending then CreateFinished(Err(CancelledMessage))
             else TimeoutFired;
    assert Enabled(r, t) && Step(r, t).freed;
  }

  /** The state after a sequence of events. */
  function Run(r: Request, ts: seq<Trigger>): Request
    decreases |ts|
  {
    if ts == [] then r else Run(Step(r, ts[0]), ts[1..])
  }

  /** Every event of the sequence is enabled when it is delivered. */
  predicate Admissible(r: Request, ts: seq<Trigger>)
    decreases |ts|
  {
    ts == [] || (Enabled(r, ts[0]) && Admissible(Step(r, ts[0]), ts[1..]))
  }

  /** Whatever the order of admissible events, the caller's task is
      completed at most once, what it was told is never taken back, and a
      completed request has nothing left armed. */
  lemma {:induction false} RunCompletesAtMostOnce(r: Request, ts: seq<Trigger>)
    requires Inv(r) && Admissible(r, ts)
    decreases |ts|
    ensures Inv(Run(r, ts))
    ensures |Run(r, ts).completions| <= 1
    ensures r.completions <= Run(r, ts).completions
  {
    if ts != [] {
      StepKeepsInv(r, ts[0]);
      RunCompletesAtMostOnce(Step(r, ts[0]), ts[1..]);
    }
  }

  /** Once the request is completed, no further events change anything. */
  lemma {:induction false} CompletedStaysPut(r: Request, ts: seq<Trigger>)
    requires Inv(r) && r.freed && Admissible(r, ts)
    decreases |ts|
    ensures Run(r, ts) == r
  {
    if ts != [] {
      FreedIsInert(r, ts[0]);
      CompletedStaysPut(Step(r, ts[0]), ts[1..]);
    }
  }
}
