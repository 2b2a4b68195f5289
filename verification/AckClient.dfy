/** An action call of the Python socket: one frame, sent at most three times under one id, until it is answered. */
module AckClient {
  import opened Options
  import opened Frames
  import opened PendingAcks
  import opened Receipts
  import opened Dispatcher
  import opened DispatcherTheorems

  const ATTEMPTS: nat := 3

  /**
   * What can end a wait from outside the call. `OldTimer`: an earlier call with this id was cancelled and left its
   * timer, which runs before the new call arms its own.
   */
  datatype Signal = Acknowledged(frame: Frame) | Disconnected | OldTimer

  datatype Delivery = Written | Failed(written: bool) | Interrupted(written: bool)

  datatype Wait = Answered(signal: Signal) | TimesOut | CancelledByCaller

  /** One attempt: a signal may arrive while the frame is being delivered; otherwise the call waits for one. */
  datatype Attempt = Attempt(early: Option<Signal>, delivery: Delivery, wait: Wait)

  datatype CallResult = Returned(result: string) | Raised(code: ErrorCode) | NotDelivered | CallerCancelled

  function SignalOutcome(signal: Signal): Outcome
    requires signal.Acknowledged? ==> Settles(signal.frame)
  {
    match signal
    case Acknowledged(frame) => OutcomeOf(frame)
    case Disconnected => Rejected(NoCode)
    case OldTimer => Rejected(Timeout)
  }

  predicate SignalOk(signal: Signal) {
    signal.Acknowledged? ==> Settles(signal.frame)
  }

  predicate AttemptOk(a: Attempt) {
    && (a.early.Some? ==> SignalOk(a.early.value))
    && (a.wait.Answered? ==> SignalOk(a.wait.signal) && !a.wait.signal.OldTimer?)
  }

  predicate MeetsOldTimer(a: Attempt) {
    a.early == Some(OldTimer)
  }

  /** Only the first attempt can meet an old timer: the others follow a timeout, which forgets the id. */
  predicate Plausible(attempts: seq<Attempt>) {
    && |attempts| >= ATTEMPTS
    && (forall i | 0 <= i < |attempts| :: AttemptOk(attempts[i]))
    && (forall i | 0 < i < |attempts| :: !MeetsOldTimer(attempts[i]))
  }

  function ResultOf(a: Attempt): CallResult
    requires AttemptOk(a)
  {
    match a.delivery
    case Failed(_) => NotDelivered
    case Interrupted(_) => CallerCancelled
    case Written =>
      if a.early.Some? then Reported(SignalOutcome(a.early.value))
      else match a.wait
        case Answered(signal) => Reported(SignalOutcome(signal))
        case TimesOut => Raised(Timeout)
        case CancelledByCaller => CallerCancelled
  }

  function Reported(outcome: Outcome): CallResult {
    match outcome
    case Resolved(result) => Returned(result)
    case Rejected(code) => Raised(code)
    case Cancelled => CallerCancelled
  }

  /** The index of the attempt that ends the call: the first not to end in a timeout error, or the third. */
  function Last(attempts: seq<Attempt>, k: nat): (n: nat)
    requires Plausible(attempts) && k < ATTEMPTS
    ensures k <= n < ATTEMPTS
    ensures forall i | k <= i < n :: ResultOf(attempts[i]) == Raised(Timeout)
    ensures n + 1 < ATTEMPTS ==> ResultOf(attempts[n]) != Raised(Timeout)
    decreases ATTEMPTS - k
  {
    if k + 1 < ATTEMPTS && ResultOf(attempts[k]) == Raised(Timeout) then Last(attempts, k + 1) else k
  }

  predicate WritesFrame(a: Attempt) {
    match a.delivery
    case Written => true
    case Failed(written) => written
    case Interrupted(written) => written
  }

  /** How many copies the first `n` attempts write. */
  function Copies(attempts: seq<Attempt>, n: nat): (c: nat)
    requires n <= |attempts|
    ensures c <= n
  {
    if n == 0 then 0 else Copies(attempts, n - 1) + if WritesFrame(attempts[n - 1]) then 1 else 0
  }

  /** Nobody has taken the entry of a caller that was cancelled before anything answered. */
  predicate LeavesFuture(a: Attempt) {
    a.early.None? && (a.delivery.Interrupted? || (a.delivery.Written? && a.wait.CancelledByCaller?))
  }

  /** The timer of such a caller stays too: its own, or the one it found. */
  predicate LeavesTimer(a: Attempt, found: bool) {
    LeavesFuture(a) && (a.delivery.Written? || found)
  }

  class WaSocket {
    const pending: PendingAcks
    var wire: seq<(RequestId, string)>      // action frames written to the gateway

    constructor (acks: PendingAcks)
      ensures pending == acks && wire == []
    {
      pending, wire := acks, [];
    }

    /** The router, or the disconnect path, settles the call. */
    method Receive(id: RequestId, signal: Signal)
      requires pending.Valid() && SignalOk(signal) && (signal.OldTimer? ==> id in pending.timers)
      modifies pending
      ensures pending.Valid()
      ensures id !in pending.futures && id !in pending.timers
      ensures id in old(pending.futures) && old(pending.futures)[id] !in old(pending.settled) ==>
        var future := old(pending.futures)[id];
        future in pending.settled && pending.settled[future] == SignalOutcome(signal)
    {
      match signal
      case Acknowledged(frame) => pending.Route(id, frame);
      case Disconnected => pending.RejectAll(NoCode);
      case OldTimer => pending.OnTimeout(pending.timers[id]);
    }

    /** Wait for the future of a written frame. */
    method AwaitAnswer(id: RequestId, future: Future, a: Attempt) returns (r: CallResult)
      requires pending.Valid() && AttemptOk(a) && a.delivery.Written?
      requires a.early.None? ==>
        id in pending.futures && pending.futures[id] == future && future !in pending.settled
      requires a.early.Some? ==>
        && id !in pending.futures && id !in pending.timers
        && future in pending.settled && pending.settled[future] == SignalOutcome(a.early.value)
      modifies pending
      ensures pending.Valid() && r == ResultOf(a)
      ensures (id in pending.futures <==> LeavesFuture(a)) && (id in pending.timers <==> LeavesFuture(a))
    {
      pending.ArmTimeout(id);
      if a.early.None? {
        match a.wait {
          case Answered(signal) => Receive(id, signal);
          case TimesOut => pending.OnTimeout(pending.timers[id]);
          case CancelledByCaller => pending.CancelWait(id);
        }
      }
      r := Reported(pending.settled[future]);
    }

    method OneAttempt(id: RequestId, action: string, a: Attempt) returns (r: CallResult)
      requires pending.Valid() && AttemptOk(a) && (MeetsOldTimer(a) ==> id in pending.timers)
      modifies this`wire, pending
      ensures pending.Valid() && r == ResultOf(a)
      ensures id in pending.futures <==> LeavesFuture(a)
      ensures id in pending.timers <==> LeavesTimer(a, id in old(pending.timers))
      ensures wire == old(wire) + if WritesFrame(a) then [(id, action)] else []
    {
      var future := pending.Register(id, false);
      if WritesFrame(a) {
        wire := wire + [(id, action)];
      }
      if a.early.Some? {
        Receive(id, a.early.value);
      }
      match a.delivery
      case Failed(_) =>
        pending.Discard(id);
        r := NotDelivered;
      case Interrupted(_) => r := CallerCancelled;
      case Written => r := AwaitAnswer(id, future, a);
    }

    /**
     * The call ends with its last attempt: it returns a result only when that attempt was acknowledged, and
     * unless its caller was cancelled its id is forgotten again, whatever an earlier call had left under it.
     */
    method DispatchAction(id: RequestId, action: string, attempts: seq<Attempt>) returns (r: CallResult)
      requires pending.Valid() && Plausible(attempts) && (MeetsOldTimer(attempts[0]) ==> id in pending.timers)
      modifies this`wire, pending
      ensures pending.Valid() && r == ResultOf(attempts[Last(attempts, 0)])
      ensures id in pending.futures <==> LeavesFuture(attempts[Last(attempts, 0)])
      ensures id in pending.timers <==>
        LeavesTimer(attempts[Last(attempts, 0)], Last(attempts, 0) == 0 && id in old(pending.timers))
      ensures wire == old(wire) + seq(Copies(attempts, Last(attempts, 0) + 1), _ => (id, action))
    {
      var k := 0;
      r := OneAttempt(id, action, attempts[0]);
      while r == Raised(Timeout) && k + 1 < ATTEMPTS
        invariant k < ATTEMPTS && r == ResultOf(attempts[k])
        invariant Last(attempts, k) == Last(attempts, 0)
        invariant pending.Valid()
        invariant id in pending.futures <==> LeavesFuture(attempts[k])
        invariant id in pending.timers <==> LeavesTimer(attempts[k], k == 0 && id in old(pending.timers))
        invariant wire == old(wire) + seq(Copies(attempts, k + 1), _ => (id, action))
      {
        k := k + 1;
        r := OneAttempt(id, action, attempts[k]);
      }
    }
  }

  // ----- what a call reports -----

  /** The frame that ends an attempt, if one does: the first to arrive, and only when the frame was delivered. */
  function DecidedBy(a: Attempt): Option<Frame> {
    if !a.delivery.Written? then None
    else if a.early.Some? then FrameOf(a.early.value)
    else if a.wait.Answered? then FrameOf(a.wait.signal)
    else None
  }

  function FrameOf(signal: Signal): Option<Frame> {
    if signal.Acknowledged? then Some(signal.frame) else None
  }

  /** An attempt returns a value exactly when an acknowledgement with `ok` and that result decides it. */
  lemma ReturnsExactlyTheAckResult(a: Attempt, value: string)
    requires AttemptOk(a)
    ensures ResultOf(a) == Returned(value) <==>
      DecidedBy(a).Some? && DecidedBy(a).value.ActionAck? && DecidedBy(a).value.ok && DecidedBy(a).value.result == value
  {
  }

  /** An attempt that a failed acknowledgement or an error frame decides raises the code of that frame. */
  lemma RaisesTheFrameCode(a: Attempt)
    requires AttemptOk(a) && DecidedBy(a).Some?
    ensures var frame := DecidedBy(a).value;
      && (frame.ActionAck? && !frame.ok ==> ResultOf(a) == Raised(frame.code))
      && (frame.ErrorFrame? ==> ResultOf(a) == Raised(frame.code))
      && (frame.ErrorFrame? || frame.ActionAck?)
  {
  }

  /** Without such a frame nothing is returned: the call fails, times out, is disconnected or cancelled. */
  lemma NothingDecided(a: Attempt)
    requires AttemptOk(a) && DecidedBy(a).None?
    ensures ResultOf(a) ==
      match a.delivery
      case Failed(_) => NotDelivered
      case Interrupted(_) => CallerCancelled
      case Written =>
        if a.early == Some(Disconnected) || (a.early.None? && a.wait == Answered(Disconnected)) then Raised(NoCode)
        else if a.early.None? && a.wait.CancelledByCaller? then CallerCancelled
        else Raised(Timeout)
  {
  }

  // ----- composed with the gateway -----

  /** What the call was told came from the gateway, about its own request. */
  predicate ToldByGateway(attempts: seq<Attempt>, id: RequestId, gateway: State) {
    forall i | 0 <= i < |attempts| ::
      && (attempts[i].early.Some? && attempts[i].early.value.Acknowledged? ==>
           (id, attempts[i].early.value.frame) in gateway.sent)
      && (attempts[i].wait.Answered? && attempts[i].wait.signal.Acknowledged? ==>
           (id, attempts[i].wait.signal.frame) in gateway.sent)
  }

  /**
   * The call reports what the gateway sent it: a returned value is the result of an acknowledgement with `ok` that
   * was sent for this id and that an execution of it emitted; the frame of a failure gives the raised code.
   */
  predicate Reports(a: Attempt, id: RequestId, gateway: State)
    requires AttemptOk(a)
  {
    && (ResultOf(a).Returned? ==>
          && DecidedBy(a).Some? && DecidedBy(a).value.ActionAck? && DecidedBy(a).value.ok
          && DecidedBy(a).value.result == ResultOf(a).result
          && (id, DecidedBy(a).value) in gateway.sent && (id, DecidedBy(a).value) in gateway.produced)
    && (DecidedBy(a).Some? && !ResultOf(a).Returned? ==>
          && (id, DecidedBy(a).value) in gateway.sent
          && (DecidedBy(a).value.ActionAck? || DecidedBy(a).value.ErrorFrame?)
          && ResultOf(a) == Raised(DecidedBy(a).value.code))
  }

  lemma ReportIsSent(a: Attempt, id: RequestId, start: State, events: seq<Event>)
    requires AttemptOk(a) && Init(start) && Runs(start, events)
    requires DecidedBy(a).Some? ==> (id, DecidedBy(a).value) in After(start, events).sent
    ensures Reports(a, id, After(start, events))
  {
    if DecidedBy(a).Some? {
      RaisesTheFrameCode(a);
    }
    if ResultOf(a).Returned? {
      ReturnsExactlyTheAckResult(a, ResultOf(a).result);
      SuccessMeansExecuted(start, events, id, DecidedBy(a).value);
    }
  }

  /**
   * However the copies of a call are delivered, duplicated or lost, and whatever else its gateway is sent: the
   * action is executed at most once, and exactly once when the call returns a result. The one exception is a
   * recovery id whose execution failed in the words of the legacy rule: it may run again each time it is erased.
   */
  lemma ResultMeansExactlyOnce(attempts: seq<Attempt>, id: RequestId, start: State, events: seq<Event>)
    requires Plausible(attempts) && Init(start) && Runs(start, events)
    requires forall frame :: (id, frame) !in start.produced
    requires ToldByGateway(attempts, id, After(start, events))
    ensures Copies(attempts, Last(attempts, 0) + 1) <= ATTEMPTS
    ensures var s := After(start, events);
      && Count(s.execs, id) <= 1 + Count(s.prunes, id)
      && (Count(s.prunes, id) > 0 ==> IsRecoveryId(id) && FailedUnsent(s, id))
      && (ResultOf(attempts[Last(attempts, 0)]).Returned? ==>
            && Count(s.execs, id) >= 1
            && (!IsRecoveryId(id) || !FailedUnsent(s, id) ==> Count(s.execs, id) == 1))
    ensures Reports(attempts[Last(attempts, 0)], id, After(start, events))
  {
    RunsAtMostOnceUnlessFailed(start, events, id);
    var last := attempts[Last(attempts, 0)];
    ReportIsSent(last, id, start, events);
    if ResultOf(last).Returned? {
      var signal := if last.early.Some? then last.early.value else last.wait.signal;
      assert signal.Acknowledged? && signal.frame.ActionAck? && signal.frame.ok;
      SuccessMeansExactlyOnce(start, events, id, signal.frame);
    }
  }
}
