/**
 * EngineProxyNewData (bus/engineproxy.c) as an object whose trigger ids
 * the callbacks set and clear. An armed trigger is a true flag here (a
 * nonzero handler or source id in the source). Each callback is proved
 * to make the transition of module CreationSpec for its event.
 */
module Creation {
  import opened Common
  import opened CreationSpec

  class EngineProxyNew {
    var handlerId: bool
    var timeoutId: bool
    var cancelledHandlerId: bool
    var idleScheduled: bool
    var createPending: bool
    var freed: bool
    /** What the caller's task was completed with. */
    var completions: seq<Result<string>>
    var actions: seq<Action>

    function Snapshot(): Request
      reads this
    {
      Request(handlerId, timeoutId, cancelledHandlerId, idleScheduled, createPending, freed,
              completions, actions)
    }

    predicate Valid()
      reads this
    {
      CreationSpec.Inv(Snapshot())
    }

    /** bus_engine_proxy_new. */
    constructor (alreadyCancelled: bool, hasCancellable: bool, factoryReady: bool)
      ensures Valid()
      ensures Snapshot() == Start(alreadyCancelled, hasCancellable, factoryReady)
    {
      handlerId, timeoutId, cancelledHandlerId := false, false, false;
      idleScheduled, createPending, freed := false, false, false;
      completions, actions := [], [];
      if alreadyCancelled {
        completions := [Err(CancelledMessage)];
        freed := true;
      } else if !factoryReady {
        handlerId := true;
        timeoutId := true;
        if hasCancellable {
          cancelledHandlerId := true;
        }
        actions := actions + [StartComponent];
      } else {
        createPending := true;
        actions := actions + [CreateEngine];
      }
    }

    /** engine_proxy_new_data_free. */
    method FreeData()
      modifies this
      ensures Snapshot() == Free(old(Snapshot()))
    {
      handlerId := false;
      timeoutId := false;
      cancelledHandlerId := false;
      freed := true;
    }

    /** notify_factory_cb. */
    method NotifyFactory(factoryPresent: bool)
      requires Valid() && Enabled(Snapshot(), FactoryNotified(factoryPresent))
      modifies this
      ensures Valid()
      ensures Snapshot() == Step(old(Snapshot()), FactoryNotified(factoryPresent))
    {
      if factoryPresent {
        timeoutId := false;
        handlerId := false;
        cancelledHandlerId := false;
        createPending := true;
        actions := actions + [CreateEngine];
      }
    }

    /** timeout_cb. */
    method Timeout()
      requires Valid() && Enabled(Snapshot(), TimeoutFired)
      modifies this
      ensures Valid()
      ensures Snapshot() == Step(old(Snapshot()), TimeoutFired)
    {
      completions := completions + [Err(TimeoutMessage)];
      FreeData();
    }

    /** cancelled_cb, run by the cancellable the first time it is
        cancelled while the handler is connected. */
    method CancelledCb()
      requires Valid()
      modifies this
      ensures Valid()
      ensures Snapshot() == Step(old(Snapshot()), Cancelled)
    {
      if cancelledHandlerId {
        cancelledHandlerId := false;
        idleScheduled := true;
      }
    }

    /** cancelled_idle_cb. */
    method CancelledIdle()
      requires Valid() && Enabled(Snapshot(), IdleRan)
      modifies this
      ensures Valid()
      ensures Snapshot() == Step(old(Snapshot()), IdleRan)
    {
      idleScheduled := false;
      completions := completions + [Err(CancelledMessage)];
      FreeData();
    }

    /** create_engine_ready_cb. */
    method CreateEngineReady(reply: Result<string>)
      requires Valid() && Enabled(Snapshot(), CreateFinished(reply))
      modifies this
      ensures Valid()
      ensures Snapshot() == Step(old(Snapshot()), CreateFinished(reply))
    {
      createPending := false;
      completions := completions + [reply];
      FreeData();
    }
  }
}
