/** The client's call, the gateway's queue to the client, and the dispatcher behind it, put together. */
module EndToEnd {
  import opened Frames
  import opened Receipts
  import Dispatcher
  import DispatcherTheorems
  import AccountRegistry
  import AckClient

  /** What a queue was given to send are frames the dispatcher sent; other frames are not answers. */
  predicate FedBy(queue: AccountRegistry.State, gateway: Dispatcher.State) {
    forall i | 0 <= i < |queue.log| && queue.log[i].frame.Answer? ::
      (queue.log[i].frame.id, queue.log[i].frame.answer) in gateway.sent
  }

  /** One process of the gateway handed the answer to a client; every process has a queue of its own. */
  ghost predicate HandedOver(id: RequestId, answer: Frame, gateway: Dispatcher.State) {
    exists start, ops, e ::
      && AccountRegistry.Init(start) && FedBy(AccountRegistry.After(start, ops), gateway)
      && e in AccountRegistry.After(start, ops).handed && e.frame == AccountRegistry.Answer(id, answer)
  }

  lemma HandedOverWasSent(id: RequestId, answer: Frame, gateway: Dispatcher.State)
    requires HandedOver(id, answer, gateway)
    ensures (id, answer) in gateway.sent
  {
    var start, ops, e :|
      && AccountRegistry.Init(start) && FedBy(AccountRegistry.After(start, ops), gateway)
      && e in AccountRegistry.After(start, ops).handed && e.frame == AccountRegistry.Answer(id, answer);
    AccountRegistry.FirstInFirstOut(start, ops);
    var queue := AccountRegistry.After(start, ops);
    assert e in queue.handed + queue.queue + queue.dropped;
    assert AccountRegistry.Logged(queue, e);
  }

  /** Whatever answers the call sees were handed over to it. */
  ghost predicate SeesOnlyHandedOver(attempts: seq<AckClient.Attempt>, id: RequestId, gateway: Dispatcher.State) {
    forall i | 0 <= i < |attempts| ::
      && (attempts[i].early.Some? && attempts[i].early.value.Acknowledged? ==>
            HandedOver(id, attempts[i].early.value.frame, gateway))
      && (attempts[i].wait.Answered? && attempts[i].wait.signal.Acknowledged? ==>
            HandedOver(id, attempts[i].wait.signal.frame, gateway))
  }

  /**
   * From the call to the handler and back, through retries, duplicates, lost frames, full queues, reconnections,
   * failed writes and crashes of the gateway: a call with a new id that returns a result ran its action exactly
   * once, and no call runs its action twice, unless the legacy rule erased a failure of that very action between.
   */
  lemma CallRunsOnce(attempts: seq<AckClient.Attempt>, id: RequestId, start: Dispatcher.State,
                     events: seq<Dispatcher.Event>)
    requires AckClient.Plausible(attempts)
    requires Dispatcher.Init(start) && Dispatcher.Runs(start, events)
    requires forall frame :: (id, frame) !in start.produced
    requires SeesOnlyHandedOver(attempts, id, Dispatcher.After(start, events))
    ensures var s := Dispatcher.After(start, events);
      && Dispatcher.Count(s.execs, id) <= 1 + Dispatcher.Count(s.prunes, id)
      && (Dispatcher.Count(s.prunes, id) > 0 ==> IsRecoveryId(id) && DispatcherTheorems.FailedUnsent(s, id))
      && (AckClient.ResultOf(attempts[AckClient.Last(attempts, 0)]).Returned? ==>
            && Dispatcher.Count(s.execs, id) >= 1
            && (!IsRecoveryId(id) || !DispatcherTheorems.FailedUnsent(s, id) ==> Dispatcher.Count(s.execs, id) == 1))
    ensures AckClient.Reports(attempts[AckClient.Last(attempts, 0)], id, Dispatcher.After(start, events))
  {
    var gateway := Dispatcher.After(start, events);
    forall i | 0 <= i < |attempts|
      ensures attempts[i].early.Some? && attempts[i].early.value.Acknowledged? ==>
        (id, attempts[i].early.value.frame) in gateway.sent
      ensures attempts[i].wait.Answered? && attempts[i].wait.signal.Acknowledged? ==>
        (id, attempts[i].wait.signal.frame) in gateway.sent
    {
      if attempts[i].early.Some? && attempts[i].early.value.Acknowledged? {
        HandedOverWasSent(id, attempts[i].early.value.frame, gateway);
      }
      if attempts[i].wait.Answered? && attempts[i].wait.signal.Acknowledged? {
        HandedOverWasSent(id, attempts[i].wait.signal.frame, gateway);
      }
    }
    AckClient.ResultMeansExactlyOnce(attempts, id, start, events);
  }
}
