/** The client's map of calls that await an acknowledgement, and their timers. */
module PendingAcks {
  import opened Options
  import opened Frames

  type Future = nat
  type Timer = nat

  datatype Outcome = Resolved(result: string) | Rejected(code: ErrorCode) | Cancelled

  class PendingAcks {
    var futures: map<RequestId, Future>
    var timers: map<RequestId, Timer>
    var settled: map<Future, Outcome>       // futures that are done
    var armed: map<Timer, RequestId>        // scheduled callbacks that were neither cancelled nor run
    var futureCount: nat
    var timerCount: nat

    /** Every tracked timer is armed, for its own id, and belongs to a tracked future. */
    ghost predicate Valid()
      reads this
    {
      && timers.Keys <= futures.Keys
      && (forall id | id in timers :: timers[id] in armed && armed[timers[id]] == id)
      && (forall id | id in futures :: futures[id] < futureCount)
      && (forall f | f in settled :: f < futureCount)
      && (forall t | t in armed :: t < timerCount)
      && (forall a, b | a in futures && b in futures && a != b :: futures[a] != futures[b])
    }

    constructor ()
      ensures Valid() && futures == map[] && timers == map[] && settled == map[]
    {
      futures, timers, settled, armed, futureCount, timerCount := map[], map[], map[], map[], 0, 0;
    }

    /** Settled futures keep their outcome through every operation. */
    twostate predicate SettledKept()
      reads this
    {
      forall f | f in old(settled) :: f in settled && settled[f] == old(settled)[f]
    }

    twostate predicate OthersKept(id: RequestId)
      reads this
    {
      && (forall k | k != id :: k in futures <==> k in old(futures))
      && (forall k | k != id && k in futures :: futures[k] == old(futures)[k])
      && (forall k | k != id :: k in timers <==> k in old(timers))
      && (forall k | k != id && k in timers :: timers[k] == old(timers)[k])
    }

    /** A fresh future under `id`, with a timer of its own if wanted; an earlier timer of the id is not cancelled. */
    method Register(id: RequestId, timed: bool) returns (future: Future)
      requires Valid()
      modifies this`futures, this`futureCount, this`timers, this`armed, this`timerCount
      ensures Valid() && OthersKept(id) && SettledKept()
      ensures id in futures && futures[id] == future && future !in settled && future == old(futureCount)
      ensures id in timers <==> timed || id in old(timers)
      ensures !timed ==> timers == old(timers) && armed == old(armed)
      ensures timed ==> timers[id] !in old(armed) && armed == old(armed)[timers[id] := id]
    {
      future := futureCount;
      futureCount := futureCount + 1;
      futures := futures[id := future];
      if timed {
        armed := armed[timerCount := id];
        timers := timers[id := timerCount];
        timerCount := timerCount + 1;
      }
    }

    method ArmTimeout(id: RequestId)
      requires Valid()
      modifies this`timers, this`armed, this`timerCount
      ensures Valid() && OthersKept(id) && SettledKept()
      ensures id in timers <==> id in old(timers) || (id in futures && futures[id] !in settled)
      ensures id !in futures || futures[id] in settled ==> armed == old(armed) && timers == old(timers)
    {
      if id !in futures || futures[id] in settled {
        return;
      }
      if id in timers {
        armed := armed - {timers[id]};
      }
      armed := armed[timerCount := id];
      timers := timers[id := timerCount];
      timerCount := timerCount + 1;
    }

    /** Forget `id`, cancelling its timer. */
    method Pop(id: RequestId) returns (future: Option<Future>)
      requires Valid()
      modifies this`futures, this`timers, this`armed
      ensures Valid() && OthersKept(id) && SettledKept()
      ensures id !in futures && id !in timers
      ensures future == if id in old(futures) then Some(old(futures)[id]) else None
      ensures forall t | t in armed :: t in old(armed)
      ensures id in old(timers) ==> old(timers)[id] !in armed
    {
      future := if id in futures then Some(futures[id]) else None;
      futures := futures - {id};
      if id in timers {
        armed := armed - {timers[id]};
      }
      timers := timers - {id};
    }

    /** Settle the future of `id` and forget it; an unknown id or a done future is left as it is. */
    method Settle(id: RequestId, outcome: Outcome)
      requires Valid()
      modifies this`futures, this`timers, this`armed, this`settled
      ensures Valid() && OthersKept(id) && SettledKept()
      ensures id !in futures && id !in timers
      ensures settled == if id in old(futures) && old(futures)[id] !in old(settled)
                         then old(settled)[old(futures)[id] := outcome] else old(settled)
    {
      var future := Pop(id);
      if future.None? || future.value in settled {
        return;
      }
      settled := settled[future.value := outcome];
    }

    method Discard(id: RequestId)
      requires Valid()
      modifies this`futures, this`timers, this`armed, this`settled
      ensures Valid() && OthersKept(id) && SettledKept()
      ensures id !in futures && id !in timers
    {
      Settle(id, Cancelled);
    }

    /** An acknowledgement or an error frame settles the call it names, if it is still waiting. */
    method Route(id: RequestId, frame: Frame)
      requires Valid()
      modifies this`futures, this`timers, this`armed, this`settled
      ensures Valid() && OthersKept(id) && SettledKept()
      ensures !Settles(frame) ==> futures == old(futures) && timers == old(timers) && settled == old(settled)
      ensures Settles(frame) ==> id !in futures && id !in timers
      ensures Settles(frame) ==>
        settled == if id in old(futures) && old(futures)[id] !in old(settled)
                   then old(settled)[old(futures)[id] := OutcomeOf(frame)] else old(settled)
    {
      match frame
      case ActionAck(_, ok, _, code, result) => Settle(id, if ok then Resolved(result) else Rejected(code));
      case ErrorFrame(_, code, _) => Settle(id, Rejected(code));
      case _ =>
    }

    /** A scheduled callback runs: it rejects whatever future its id has now. */
    method OnTimeout(timer: Timer)
      requires Valid() && timer in armed
      modifies this`futures, this`timers, this`armed, this`settled
      ensures Valid() && OthersKept(old(armed)[timer]) && SettledKept()
      ensures old(armed)[timer] !in futures && old(armed)[timer] !in timers
      ensures var id := old(armed)[timer];
        settled == if id in old(futures) && old(futures)[id] !in old(settled)
                   then old(settled)[old(futures)[id] := Rejected(Timeout)] else old(settled)
    {
      var id := armed[timer];
      armed := armed - {timer};
      var future := if id in futures then Some(futures[id]) else None;
      futures, timers := futures - {id}, timers - {id};
      if future.Some? && future.value !in settled {
        settled := settled[future.value := Rejected(Timeout)];
      }
    }

    /** The task awaiting `id` was cancelled: its future is done, its entry stays until the timer runs. */
    method CancelWait(id: RequestId)
      requires Valid() && id in futures
      modifies this`settled
      ensures Valid() && SettledKept()
      ensures settled == if futures[id] in old(settled) then old(settled) else old(settled)[futures[id] := Cancelled]
    {
      if futures[id] !in settled {
        settled := settled[futures[id] := Cancelled];
      }
    }

    /** On disconnect every waiting call is rejected and nothing stays tracked. */
    method RejectAll(code: ErrorCode)
      requires Valid()
      modifies this`futures, this`timers, this`armed, this`settled
      ensures Valid() && SettledKept() && futures == map[] && timers == map[]
      ensures forall id | id in old(futures) && old(futures)[id] !in old(settled) ::
                old(futures)[id] in settled && settled[old(futures)[id]] == Rejected(code)
    {
      var ids := futures.Keys;
      while ids != {}
        invariant Valid() && SettledKept() && futures.Keys == ids && ids <= old(futures).Keys
        invariant forall id | id in ids :: futures[id] == old(futures)[id]
        invariant forall id | id in ids :: futures[id] in settled ==> futures[id] in old(settled)
        invariant forall id | id in old(futures) && id !in ids && old(futures)[id] !in old(settled) ::
                    old(futures)[id] in settled && settled[old(futures)[id]] == Rejected(code)
        decreases ids
      {
        var id :| id in ids;
        Settle(id, Rejected(code));
        ids := ids - {id};
      }
    }
  }

  /** Frames that settle the call they name. */
  predicate Settles(frame: Frame) {
    frame.ActionAck? || frame.ErrorFrame?
  }

  function OutcomeOf(frame: Frame): Outcome
    requires Settles(frame)
  {
    match frame
    case ActionAck(_, ok, _, code, result) => if ok then Resolved(result) else Rejected(code)
    case ErrorFrame(_, code, _) => Rejected(code)
  }
}
