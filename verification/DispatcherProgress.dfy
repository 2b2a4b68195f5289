/** No call is ever stuck: whatever happened, every call in flight can run to its end. */
module DispatcherProgress {
  import opened Options
  import opened Frames
  import opened Receipts
  import opened Dispatcher
  import opened DispatcherInvariant
  import opened DispatcherTheorems

  /** The step that brings the call of `id` closer to its end: its own, or one of the write it waits behind. */
  function NextFor(s: State, id: RequestId): Event
    requires id in s.flights
  {
    match s.flights[id].phase
    case Claiming(Some(_)) => ResumeClaim(id)
    case Executing => Finish(id, 0)
    case Settling(Some(_)) => Reply(id)
    case Leaving => Leave(id)
    case _ => if s.snapshot.None? then BeginWrite else EndWrite(true)
  }

  function StagesLeft(phase: Phase): nat {
    match phase
    case Claiming(None) => 6
    case Claiming(Some(_)) => 5
    case Executing => 4
    case Settling(None) => 3
    case Settling(Some(_)) => 2
    case Leaving => 1
  }

  function Position(writes: seq<RequestId>, id: RequestId): nat {
    if writes == [] || writes[0] == id then 0 else 1 + Position(writes[1..], id)
  }

  /** How many steps of writes are left before the one that `id` awaits ends. */
  function WritesLeft(s: State, id: RequestId): nat {
    2 * Position(s.writes, id) + if s.snapshot.None? then 1 else 0
  }

  lemma NextIsEnabled(s: State, id: RequestId)
    requires Inv(s) && id in s.flights
    ensures Enabled(s, NextFor(s, id)) && !NextFor(s, id).Crash? && NextFor(s, id) != EndWrite(false)
  {
    assert IdOk(s, id);
    assert s.cache.Some?;
  }

  lemma ClaimStageEnds(s: State, id: RequestId)
    requires Enabled(s, ResumeClaim(id))
    ensures var s' := ResumeClaimStep(s, id);
      id in s'.flights && StagesLeft(s'.flights[id].phase) <= 4
  {
  }

  /** A stage the call ends itself. */
  lemma OwnStageEnds(s: State, id: RequestId)
    requires Inv(s) && id in s.flights && !Awaiting(s.flights[id].phase)
    requires Enabled(s, NextFor(s, id))
    ensures var s' := Apply(s, NextFor(s, id));
      id in s'.flights ==> StagesLeft(s'.flights[id].phase) < StagesLeft(s.flights[id].phase)
  {
    if s.flights[id].phase.Claiming? {
      ClaimStageEnds(s, id);
    }
  }

  /** A write that began or ended. */
  lemma WriteAdvances(s: State, id: RequestId)
    requires Inv(s) && id in s.flights && Awaiting(s.flights[id].phase)
    requires Enabled(s, NextFor(s, id))
    ensures var s' := Apply(s, NextFor(s, id));
      && id in s'.flights
      && (StagesLeft(s'.flights[id].phase) < StagesLeft(s.flights[id].phase)
          || (s'.flights[id].phase == s.flights[id].phase && WritesLeft(s', id) < WritesLeft(s, id)))
  {
    assert IdOk(s, id);
  }

  /**
   * From every reachable state, a call in flight runs to its end in some continuation without a crash, in which all
   * writes succeed.
   */
  lemma {:induction false} FlightCanFinish(s: State, id: RequestId) returns (events: seq<Event>)
    requires Inv(s) && id in s.flights
    ensures Runs(s, events) && CrashFree(events) && EndWrite(false) !in events
    ensures id !in After(s, events).flights
    decreases StagesLeft(s.flights[id].phase), WritesLeft(s, id)
  {
    var e := NextFor(s, id);
    NextIsEnabled(s, id);
    StepInv(s, e);
    if Awaiting(s.flights[id].phase) {
      WriteAdvances(s, id);
    } else {
      OwnStageEnds(s, id);
    }
    var rest := [];
    if id in Apply(s, e).flights {
      rest := FlightCanFinish(Apply(s, e), id);
    }
    events := [e] + rest;
    assert events[1..] == rest;
  }
}
