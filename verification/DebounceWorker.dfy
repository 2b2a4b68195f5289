/** One chat's pending payloads as the program keeps them: one method per stretch between awaits. */
module DebounceWorker {
  import opened Options
  import opened Debounce

  class PendingChat {
    const timing: Timing
    var clock: real
    var payloads: seq<Payload>
    var burstStartedAt: Option<real>
    var lastEventAt: Option<real>
    var wakeEvent: bool
    var prefixInterrupt: bool
    var task: Worker
    ghost var freeAt: real
    ghost var raised: bool
    ghost var accepted: seq<Payload>
    ghost var handled: seq<seq<Payload>>
    ghost var takes: seq<Take>

    ghost function Now(): State
      reads this
    {
      State(clock, payloads, burstStartedAt, lastEventAt, wakeEvent, prefixInterrupt, task,
            freeAt, raised, accepted, handled, takes)
    }

    ghost predicate Valid()
      reads this
    {
      timing.debounce > 0.0 && timing.burstMax > 0.0 && Sound(Now(), timing)
    }

    constructor (t: Timing, now: real)
      requires t.debounce > 0.0 && t.burstMax > 0.0 && now >= 0.0
      ensures Valid() && Init(Now()) && timing == t && clock == now
    {
      timing, clock := t, now;
      payloads, burstStartedAt, lastEventAt := [], None, None;
      wakeEvent, prefixInterrupt, task := false, false, Idle;
      freeAt, raised, accepted, handled, takes := now, false, [], [], [];
    }

    method Append(p: Payload)
      modifies this`payloads, this`burstStartedAt, this`lastEventAt, this`raised, this`accepted
      ensures payloads == old(payloads) + [p] && accepted == old(accepted) + [p] && !raised
      ensures burstStartedAt == if old(burstStartedAt).None? then Some(clock) else old(burstStartedAt)
      ensures lastEventAt == Some(clock)
    {
      if burstStartedAt.None? {
        burstStartedAt := Some(clock);
      }
      lastEventAt := Some(clock);
      payloads, accepted, raised := payloads + [p], accepted + [p], false;
    }

    /** A chat without a live worker gets one; a waiting worker is told. */
    method StartOrWake()
      modifies this`task, this`freeAt, this`wakeEvent
      ensures task == if old(task).Idle? then Ready else old(task)
      ensures freeAt == if old(task).Idle? then clock else old(freeAt)
      ensures wakeEvent == (old(wakeEvent) || !old(task).Idle?)
    {
      if task.Idle? {
        task := Ready;
        freeAt := clock;
      } else {
        wakeEvent := true;
      }
    }

    /** The last stretch of `dispatch_incoming`. */
    method Enqueue(p: Payload, mode: ChatMode, triggers: set<string>)
      requires Valid()
      modifies this
      ensures Valid() && Now() == Apply(old(Now()), Arrive(p, mode, triggers), timing)
    {
      StepSound(Now(), Arrive(p, mode, triggers), timing);
      Append(p);
      if mode.Hybrid? && Matches(p, triggers) {
        prefixInterrupt := true;
      }
      StartOrWake();
    }

    /** Look for a payload that skips the debounce. */
    method ShouldSkip(mode: ChatMode, triggers: set<string>) returns (skip: bool)
      requires payloads != []
      ensures skip == SkipsDebounce(payloads, mode, triggers)
    {
      skip := payloads[|payloads| - 1].isPrivate;
      if skip || mode.Auto? {
        return;
      }
      var i := 0;
      while i < |payloads| && !skip
        invariant i <= |payloads|
        invariant SomeMatches(payloads, triggers) <==> skip || SomeMatches(payloads[i..], triggers)
      {
        skip := Matches(payloads[i], triggers);
        i := i + 1;
      }
    }

    /** The worker looks at the pending payloads: it ends, or arms its timeout. */
    method ArmTimeout(mode: ChatMode, triggers: set<string>)
      requires Valid() && Enabled(Now(), Arm(mode, triggers))
      modifies this
      ensures Valid() && Now() == Apply(old(Now()), Arm(mode, triggers), timing)
    {
      StepSound(Now(), Arm(mode, triggers), timing);
      if payloads == [] {
        task := Idle;
        return;
      }
      var skip := ShouldSkip(mode, triggers);
      var timeout := 0.0;
      if !skip {
        var quietDeadline := Or(lastEventAt, clock) + timing.debounce;
        var hardDeadline := Or(burstStartedAt, clock) + timing.burstMax;
        timeout := Max(0.0, Min(quietDeadline, hardDeadline) - clock);
      }
      wakeEvent := false;
      task := Waiting(clock + timeout, skip);
    }

    /** The wait ended with the wake event. */
    method Woken()
      requires Valid() && Enabled(Now(), Wake)
      modifies this
      ensures Valid() && Now() == Apply(old(Now()), Wake, timing)
    {
      StepSound(Now(), Wake, timing);
      task := Ready;
    }

    /** The wait timed out: take everything that is pending. */
    method TimedOut()
      requires Valid() && Enabled(Now(), Expire)
      modifies this
      ensures Valid() && Now() == Apply(old(Now()), Expire, timing)
    {
      StepSound(Now(), Expire, timing);
      var batch := payloads;
      if batch != [] {
        takes := takes + [Take(burstStartedAt, freeAt, clock, batch)];
      }
      payloads, burstStartedAt, lastEventAt := [], None, None;
      task := if batch != [] then Processing(batch, false) else Ready;
    }

    /** The hybrid mode starts to route the batch, and can be interrupted from now on. */
    method BeginRouting()
      requires Valid() && Enabled(Now(), StartRouting)
      modifies this
      ensures Valid() && Now() == Apply(old(Now()), StartRouting, timing)
    {
      StepSound(Now(), StartRouting, timing);
      prefixInterrupt := false;
      task := Processing(task.batch, true);
    }

    /** A prefix trigger interrupted the routing: what is pending joins the batch in hand. */
    method InterruptRouting()
      requires Valid() && Enabled(Now(), Drain)
      modifies this
      ensures Valid() && Now() == Apply(old(Now()), Drain, timing)
    {
      StepSound(Now(), Drain, timing);
      var newPayloads := payloads;
      payloads, burstStartedAt, lastEventAt := [], None, None;
      prefixInterrupt := false;
      task := Processing(task.batch + newPayloads, false);
    }

    /** Processing ends; when it raised, the worker is gone as well. */
    method Processed(ok: bool)
      requires Valid() && task.Processing?
      modifies this
      ensures Valid() && Now() == Apply(old(Now()), if ok then Finish else Raise, timing)
    {
      StepSound(Now(), if ok then Finish else Raise, timing);
      handled := handled + [task.batch];
      if ok {
        task := Ready;
        freeAt := clock;
      } else {
        task := Idle;
        raised := true;
      }
    }
  }
}
