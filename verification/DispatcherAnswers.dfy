/** Every call is answered: what a client is sent for a delivery that claimed its id, read off the events alone. */
module DispatcherAnswers {
  import opened Options
  import opened Frames
  import opened Receipts
  import opened Dispatcher
  import opened DispatcherInvariant
  import opened DispatcherTheorems
  import opened DispatcherProgress

  type Sent = seq<(RequestId, Frame)>

  /** What an event adds to the answer of a call that is executing: its own frames, and refusals addressed to it. */
  function AddedBy(e: Event, id: RequestId, fingerprint: Fingerprint): Sent {
    match e
    case Emit(k, frame) => if k == id then [(id, frame)] else []
    case Deliver(k, other, action) =>
      if k != id then []
      else if other != fingerprint then [(id, Refusal(BoundToOtherPayload, action))]
      else [(id, Refusal(MayHaveCompleted, action))]
    case RefuseNotConnected(k, action) =>
      if k == id then [(id, Refusal(NotConnected, action)), (id, RefusalError(NotConnected, action))] else []
    case _ => []
  }

  /** The answer of an execution that started just now: everything up to its end, in the order of the events. */
  function Collected(events: seq<Event>, id: RequestId, fingerprint: Fingerprint): Sent {
    if events == [] || (events[0].Finish? && events[0].id == id) then []
    else AddedBy(events[0], id, fingerprint) + Collected(events[1..], id, fingerprint)
  }

  /** The answer of a call whose claim is durable: what its execution collects once it starts. */
  function Executed(events: seq<Event>, id: RequestId, fingerprint: Fingerprint): Sent {
    if events == [] then []
    else if events[0] == ResumeClaim(id) then Collected(events[1..], id, fingerprint)
    else Executed(events[1..], id, fingerprint)
  }

  /** The answer of a call that made its claim behind `ahead` other writes. */
  function Answered(events: seq<Event>, id: RequestId, fingerprint: Fingerprint, action: string, ahead: nat): Sent {
    if events == [] then []
    else if !events[0].EndWrite? then Answered(events[1..], id, fingerprint, action, ahead)
    else if ahead > 0 then Answered(events[1..], id, fingerprint, action, ahead - 1)
    else if events[0].ok then Executed(events[1..], id, fingerprint)
    else [(id, Refusal(StorageUnavailable, action))]
  }

  predicate BlockAt(sent: Sent, block: Sent, i: nat) {
    i + |block| <= |sent| && sent[i..i + |block|] == block
  }

  /** The block was sent in one piece, at place `from` or later. */
  ghost predicate SentBlock(sent: Sent, block: Sent, from: nat) {
    exists i: nat :: from <= i && BlockAt(sent, block, i)
  }

  // ----- steps -----

  /** The only change a delivery makes outside `sent` and `captures` is a claim. */
  predicate ClaimOnly(s: State, s': State, id: RequestId, fingerprint: Fingerprint, action: string) {
    || s' == s.(captures := s'.captures, sent := s'.sent)
    || (id !in s.flights && s'.writes == s.writes + [id] && s'.sent == s.sent
        && s'.flights == s.flights[id := Flight(fingerprint, action, Claiming(None))])
  }

  lemma FrameSends(s: State, id: RequestId, frame: Frame)
    ensures s.sent <= SendActionFrame(s, id, frame).sent
  {
  }

  lemma DeliverSends(s: State, id: RequestId, fingerprint: Fingerprint, action: string)
    requires s.cache.Some?
    ensures s.sent <= DeliverStep(s, id, fingerprint, action).sent
    ensures ClaimOnly(s, DeliverStep(s, id, fingerprint, action), id, fingerprint, action)
  {
    if id in s.cache.value {
      var receipt := s.cache.value[id];
      if receipt.fingerprint != fingerprint {
        FrameSends(s, id, Refusal(BoundToOtherPayload, action));
      } else if receipt.status == Running {
        FrameSends(s, id, Refusal(MayHaveCompleted, action));
      }
    } else if id in s.flights && s.flights[id].fingerprint != fingerprint {
      FrameSends(s, id, Refusal(ExecutingOtherPayload, action));
    }
  }

  lemma SentGrows(s: State, e: Event)
    requires Enabled(s, e)
    ensures s.sent <= Apply(s, e).sent
  {
    match e
    case Deliver(id, fingerprint, action) => DeliverSends(s, id, fingerprint, action);
    case _ =>
  }

  lemma {:induction false} SentGrowsOver(s: State, events: seq<Event>)
    requires Runs(s, events)
    ensures s.sent <= After(s, events).sent
    decreases |events|
  {
    if events != [] {
      SentGrows(s, events[0]);
      SentGrowsOver(Apply(s, events[0]), events[1..]);
    }
  }

  lemma BlockStays(before: Sent, after: Sent, block: Sent, i: nat)
    requires before <= after && BlockAt(before, block, i)
    ensures BlockAt(after, block, i)
  {
  }

  /** The steps that belong to the call of `id`. */
  predicate IsOwn(s: State, e: Event, id: RequestId) {
    || e == ResumeClaim(id) || (e.Finish? && e.id == id) || e == Reply(id) || e == Leave(id) || e.Crash?
    || (e.EndWrite? && s.writes != [] && s.writes[0] == id)
  }

  lemma DeliverLeavesFlight(s: State, k: RequestId, fingerprint: Fingerprint, action: string, id: RequestId)
    requires s.cache.Some? && id in s.flights
    ensures var s' := DeliverStep(s, k, fingerprint, action);
      id in s'.flights && s'.flights[id] == s.flights[id]
  {
    DeliverSends(s, k, fingerprint, action);
  }

  lemma ResumeLeavesFlight(s: State, k: RequestId, id: RequestId)
    requires Enabled(s, ResumeClaim(k)) && id in s.flights && k != id
    ensures var s' := ResumeClaimStep(s, k);
      id in s'.flights && s'.flights[id] == s.flights[id]
  {
  }

  lemma OthersLeaveFlight(s: State, e: Event, id: RequestId)
    requires Enabled(s, e) && id in s.flights && !IsOwn(s, e, id)
    ensures id in Apply(s, e).flights && Apply(s, e).flights[id] == s.flights[id]
  {
    match e
    case Deliver(k, fingerprint, action) => DeliverLeavesFlight(s, k, fingerprint, action, id);
    case ResumeClaim(k) => ResumeLeavesFlight(s, k, id);
    case _ =>
  }

  // ----- while the call executes -----

  /** The call executes, and has collected this much. */
  predicate Collecting(s: State, id: RequestId, fingerprint: Fingerprint, collected: Sent) {
    && InPhase(s, id, Executing) && s.flights[id].fingerprint == fingerprint
    && id in s.captures && Tagged(id, s.captures[id]) == collected
  }

  lemma TaggedSnoc(id: RequestId, frames: seq<Frame>, frame: Frame)
    ensures Tagged(id, frames + [frame]) == Tagged(id, frames) + [(id, frame)]
  {
  }

  lemma SendCollects(s: State, k: RequestId, frame: Frame, id: RequestId, fingerprint: Fingerprint, collected: Sent)
    requires Collecting(s, id, fingerprint, collected)
    ensures Collecting(SendActionFrame(s, k, frame), id, fingerprint,
                       collected + if k == id then [(id, frame)] else [])
  {
    if k == id {
      TaggedSnoc(id, s.captures[id], frame);
    }
  }

  lemma DeliverCollects(s: State, k: RequestId, other: Fingerprint, action: string, id: RequestId,
                        fingerprint: Fingerprint, collected: Sent)
    requires Inv(s) && s.cache.Some? && Collecting(s, id, fingerprint, collected)
    ensures Collecting(DeliverStep(s, k, other, action), id, fingerprint,
                       collected + AddedBy(Deliver(k, other, action), id, fingerprint))
  {
    assert IdOk(s, id);
    if k == id {
      SendCollects(s, id, if other != fingerprint then Refusal(BoundToOtherPayload, action)
                          else Refusal(MayHaveCompleted, action), id, fingerprint, collected);
    } else if k in s.cache.value || k in s.flights {
      DeliverToOther(s, k, other, action, id);
    }
  }

  lemma DeliverToOther(s: State, k: RequestId, other: Fingerprint, action: string, id: RequestId)
    requires s.cache.Some? && k != id && id in s.captures && id in s.flights
    ensures var s' := DeliverStep(s, k, other, action);
      && id in s'.captures && s'.captures[id] == s.captures[id]
      && id in s'.flights && s'.flights[id] == s.flights[id]
  {
  }

  lemma RefusalCollects(s: State, k: RequestId, action: string, id: RequestId, fingerprint: Fingerprint,
                        collected: Sent)
    requires Collecting(s, id, fingerprint, collected)
    ensures Collecting(Apply(s, RefuseNotConnected(k, action)), id, fingerprint,
                       collected + AddedBy(RefuseNotConnected(k, action), id, fingerprint))
  {
    var first := Refusal(NotConnected, action);
    SendCollects(s, k, first, id, fingerprint, collected);
    var more := collected + if k == id then [(id, first)] else [];
    SendCollects(SendActionFrame(s, k, first), k, RefusalError(NotConnected, action), id, fingerprint, more);
    var second := (id, RefusalError(NotConnected, action));
    assert k == id ==> more + [second] == collected + AddedBy(RefuseNotConnected(k, action), id, fingerprint);
  }

  lemma EmitCollects(s: State, k: RequestId, frame: Frame, id: RequestId, fingerprint: Fingerprint, collected: Sent)
    requires Enabled(s, Emit(k, frame)) && Collecting(s, id, fingerprint, collected)
    ensures Collecting(Apply(s, Emit(k, frame)), id, fingerprint, collected + AddedBy(Emit(k, frame), id, fingerprint))
  {
    SendCollects(s, k, frame, id, fingerprint, collected);
  }

  lemma OtherCallCollects(s: State, e: Event, id: RequestId, fingerprint: Fingerprint, collected: Sent)
    requires Inv(s) && Enabled(s, e) && Collecting(s, id, fingerprint, collected) && !e.Crash?
    requires !e.Emit? && !e.Deliver? && !e.RefuseNotConnected? && !(e.Finish? && e.id == id)
    ensures Collecting(Apply(s, e), id, fingerprint, collected)
  {
    assert IdOk(s, id);
    assert s.cache.Some?;
    if e.ResumeClaim? {
      assert IdOk(s, e.id);
    }
    if e.EndWrite? {
      assert s.writes[0] in s.writes;
    }
  }

  lemma CollectingStep(s: State, e: Event, id: RequestId, fingerprint: Fingerprint, collected: Sent)
    requires Inv(s) && Enabled(s, e) && Collecting(s, id, fingerprint, collected) && !e.Crash?
    requires !(e.Finish? && e.id == id)
    ensures Collecting(Apply(s, e), id, fingerprint, collected + AddedBy(e, id, fingerprint))
  {
    match e
    case Emit(k, frame) => EmitCollects(s, k, frame, id, fingerprint, collected);
    case Deliver(k, other, action) => DeliverCollects(s, k, other, action, id, fingerprint, collected);
    case RefuseNotConnected(k, action) => RefusalCollects(s, k, action, id, fingerprint, collected);
    case _ => OtherCallCollects(s, e, id, fingerprint, collected);
  }

  // ----- from the end of the execution to the answer -----

  /** The call has executed and not answered yet, and this is its receipt. */
  predicate Owing(s: State, id: RequestId, answer: Sent) {
    && id in s.flights && s.flights[id].phase.Settling?
    && s.cache.Some? && id in s.cache.value && s.cache.value[id].status == Complete
    && Tagged(id, s.cache.value[id].frames) == answer
  }

  lemma FinishOwes(s: State, id: RequestId, now: int, fingerprint: Fingerprint, collected: Sent)
    requires Enabled(s, Finish(id, now)) && Collecting(s, id, fingerprint, collected)
    ensures Owing(FinishStep(s, id, now), id, collected)
  {
  }

  lemma ReplyAnswers(s: State, id: RequestId, answer: Sent)
    requires Owing(s, id, answer) && Enabled(s, Reply(id))
    ensures Apply(s, Reply(id)).sent == s.sent + answer
  {
  }

  lemma OwingStep(s: State, e: Event, id: RequestId, answer: Sent)
    requires Inv(s) && Owing(s, id, answer) && Enabled(s, e) && !e.Crash? && e != Reply(id)
    ensures Owing(Apply(s, e), id, answer)
  {
    var receipt := s.cache.value[id];
    CompletedStep(s, e, id, receipt);
    CompletedIsOver(s, e, id, receipt);
    if e.EndWrite? && s.writes[0] == id {
    } else {
      OthersLeaveFlight(s, e, id);
    }
  }

  lemma {:induction false} OwingRuns(s: State, events: seq<Event>, id: RequestId, answer: Sent)
    requires Inv(s) && Owing(s, id, answer) && Runs(s, events) && CrashFree(events)
    requires id !in After(s, events).flights
    ensures SentBlock(After(s, events).sent, answer, |s.sent|)
    decreases |events|
  {
    var e := events[0];
    var s' := Apply(s, e);
    assert e in events;
    StepInv(s, e);
    SentGrows(s, e);
    if e == Reply(id) {
      ReplyAnswers(s, id, answer);
      SentGrowsOver(s', events[1..]);
      assert BlockAt(s'.sent, answer, |s.sent|);
      BlockStays(s'.sent, After(s, events).sent, answer, |s.sent|);
    } else {
      OwingStep(s, e, id, answer);
      OwingRuns(s', events[1..], id, answer);
    }
  }

  lemma Regroup(a: Sent, b: Sent, c: Sent)
    ensures a + b + c == a + (b + c)
  {
  }

  lemma {:induction false} CollectingRuns(s: State, events: seq<Event>, id: RequestId, fingerprint: Fingerprint,
                                          collected: Sent)
    requires Inv(s) && Collecting(s, id, fingerprint, collected) && Runs(s, events) && CrashFree(events)
    requires id !in After(s, events).flights
    ensures SentBlock(After(s, events).sent, collected + Collected(events, id, fingerprint), |s.sent|)
    decreases |events|
  {
    var e := events[0];
    var s' := Apply(s, e);
    assert e in events;
    StepInv(s, e);
    SentGrows(s, e);
    if e.Finish? && e.id == id {
      FinishOwes(s, id, e.now, fingerprint, collected);
      OwingRuns(s', events[1..], id, collected);
      assert collected + [] == collected;
    } else {
      CollectingStep(s, e, id, fingerprint, collected);
      Regroup(collected, AddedBy(e, id, fingerprint), Collected(events[1..], id, fingerprint));
      CollectingRuns(s', events[1..], id, fingerprint, collected + AddedBy(e, id, fingerprint));
    }
  }

  // ----- from the claim on -----

  /** The call waits for its claim to be stored, behind `ahead` other writes. */
  predicate Claims(s: State, id: RequestId, fingerprint: Fingerprint, action: string, ahead: nat) {
    && id in s.flights && s.flights[id] == Flight(fingerprint, action, Claiming(None))
    && id in s.writes && Position(s.writes, id) == ahead
  }

  predicate Claimed(s: State, id: RequestId, fingerprint: Fingerprint, action: string, ok: bool) {
    id in s.flights && s.flights[id] == Flight(fingerprint, action, Claiming(Some(ok)))
  }

  lemma {:induction false} PositionOfMore(writes: seq<RequestId>, more: seq<RequestId>, id: RequestId)
    requires id in writes
    ensures Position(writes + more, id) == Position(writes, id)
  {
    if writes[0] != id {
      PositionOfMore(writes[1..], more, id);
      assert (writes + more)[1..] == writes[1..] + more;
    }
  }

  lemma {:induction false} PositionOfNew(writes: seq<RequestId>, id: RequestId)
    requires id !in writes
    ensures Position(writes + [id], id) == |writes|
  {
    if writes != [] {
      PositionOfNew(writes[1..], id);
      assert (writes + [id])[1..] == writes[1..] + [id];
    }
  }

  lemma DeliverClaims(s: State, id: RequestId, fingerprint: Fingerprint, action: string)
    requires Inv(s) && s.cache.Some? && id !in s.cache.value && id !in s.flights
    ensures Claims(DeliverStep(s, id, fingerprint, action), id, fingerprint, action, |s.writes|)
  {
    assert IdOk(s, id);
    PositionOfNew(s.writes, id);
  }

  lemma DeliverAppends(s: State, id: RequestId, fingerprint: Fingerprint, action: string)
    requires s.cache.Some?
    ensures s.writes <= DeliverStep(s, id, fingerprint, action).writes
  {
    DeliverSends(s, id, fingerprint, action);
  }

  lemma WritesGrow(s: State, e: Event)
    requires Enabled(s, e) && !e.EndWrite? && !e.Crash?
    ensures s.writes <= Apply(s, e).writes
  {
    match e
    case Deliver(id, fingerprint, action) => DeliverAppends(s, id, fingerprint, action);
    case _ =>
  }

  lemma ClaimsStep(s: State, e: Event, id: RequestId, fingerprint: Fingerprint, action: string, ahead: nat)
    requires Claims(s, id, fingerprint, action, ahead) && Enabled(s, e) && !e.Crash?
    ensures !e.EndWrite? ==> Claims(Apply(s, e), id, fingerprint, action, ahead)
    ensures e.EndWrite? && ahead > 0 ==> Claims(Apply(s, e), id, fingerprint, action, ahead - 1)
    ensures e.EndWrite? && ahead == 0 ==> Claimed(Apply(s, e), id, fingerprint, action, e.ok)
  {
    if !e.EndWrite? {
      OthersLeaveFlight(s, e, id);
      WritesGrow(s, e);
      var more := Apply(s, e).writes[|s.writes|..];
      assert Apply(s, e).writes == s.writes + more;
      PositionOfMore(s.writes, more, id);
    } else if ahead > 0 {
      OthersLeaveFlight(s, e, id);
    }
  }

  lemma ResumeCollects(s: State, id: RequestId, fingerprint: Fingerprint, action: string)
    requires Claimed(s, id, fingerprint, action, true) && Enabled(s, ResumeClaim(id))
    ensures Collecting(ResumeClaimStep(s, id), id, fingerprint, [])
  {
  }

  lemma ResumeRefuses(s: State, id: RequestId, fingerprint: Fingerprint, action: string)
    requires Inv(s) && Claimed(s, id, fingerprint, action, false) && Enabled(s, ResumeClaim(id))
    ensures ResumeClaimStep(s, id).sent == s.sent + [(id, Refusal(StorageUnavailable, action))]
  {
    assert IdOk(s, id);
  }

  lemma ClaimedStep(s: State, e: Event, id: RequestId, fingerprint: Fingerprint, action: string, ok: bool)
    requires Inv(s) && Claimed(s, id, fingerprint, action, ok) && Enabled(s, e) && !e.Crash? && e != ResumeClaim(id)
    ensures Claimed(Apply(s, e), id, fingerprint, action, ok)
  {
    assert IdOk(s, id);
    if e.EndWrite? {
      assert s.writes[0] in s.writes;
    }
    OthersLeaveFlight(s, e, id);
  }

  lemma {:induction false} ClaimedRuns(s: State, events: seq<Event>, id: RequestId, fingerprint: Fingerprint,
                                       action: string, ok: bool)
    requires Inv(s) && Claimed(s, id, fingerprint, action, ok) && Runs(s, events) && CrashFree(events)
    requires id !in After(s, events).flights
    ensures SentBlock(After(s, events).sent,
                      if ok then Executed(events, id, fingerprint) else [(id, Refusal(StorageUnavailable, action))],
                      |s.sent|)
    decreases |events|
  {
    var e := events[0];
    var s' := Apply(s, e);
    assert e in events;
    StepInv(s, e);
    SentGrows(s, e);
    if e != ResumeClaim(id) {
      ClaimedStep(s, e, id, fingerprint, action, ok);
      ClaimedRuns(s', events[1..], id, fingerprint, action, ok);
    } else if ok {
      ResumeCollects(s, id, fingerprint, action);
      CollectingRuns(s', events[1..], id, fingerprint, []);
      assert [] + Collected(events[1..], id, fingerprint) == Collected(events[1..], id, fingerprint);
    } else {
      ResumeRefuses(s, id, fingerprint, action);
      SentGrowsOver(s', events[1..]);
      assert BlockAt(s'.sent, [(id, Refusal(StorageUnavailable, action))], |s.sent|);
      BlockStays(s'.sent, After(s, events).sent, [(id, Refusal(StorageUnavailable, action))], |s.sent|);
    }
  }

  lemma {:induction false} ClaimsRuns(s: State, events: seq<Event>, id: RequestId, fingerprint: Fingerprint,
                                      action: string, ahead: nat)
    requires Inv(s) && Claims(s, id, fingerprint, action, ahead) && Runs(s, events) && CrashFree(events)
    requires id !in After(s, events).flights
    ensures SentBlock(After(s, events).sent, Answered(events, id, fingerprint, action, ahead), |s.sent|)
    decreases |events|
  {
    var e := events[0];
    var s' := Apply(s, e);
    assert e in events;
    StepInv(s, e);
    SentGrows(s, e);
    ClaimsStep(s, e, id, fingerprint, action, ahead);
    if e.EndWrite? && ahead == 0 {
      ClaimedRuns(s', events[1..], id, fingerprint, action, e.ok);
    } else {
      ClaimsRuns(s', events[1..], id, fingerprint, action, if e.EndWrite? then ahead - 1 else ahead);
    }
  }

  // ----- theorems -----

  /**
   * Over every run: a delivery claims its id, other steps follow without a crash, and the call has left. Then it was
   * sent in one piece what the events say. If its own write, the one behind those queued before, failed, that is the
   * refusal; otherwise it is every frame its execution emitted and every refusal addressed to it meanwhile, in order.
   */
  lemma EveryCallIsAnswered(s: State, before: seq<Event>, id: RequestId, fingerprint: Fingerprint, action: string,
                            events: seq<Event>)
    requires Init(s) && Runs(s, before) && After(s, before).cache.Some?
    requires id !in After(s, before).cache.value && id !in After(s, before).flights
    requires Runs(DeliverStep(After(s, before), id, fingerprint, action), events) && CrashFree(events)
    requires id !in After(DeliverStep(After(s, before), id, fingerprint, action), events).flights
    ensures var claiming := After(s, before);
      SentBlock(After(DeliverStep(claiming, id, fingerprint, action), events).sent,
                Answered(events, id, fingerprint, action, |claiming.writes|), |claiming.sent|)
  {
    InitInv(s);
    RunInv(s, before);
    var claiming := After(s, before);
    StepInv(claiming, Deliver(id, fingerprint, action));
    DeliverClaims(claiming, id, fingerprint, action);
    ClaimsRuns(DeliverStep(claiming, id, fingerprint, action), events, id, fingerprint, action, |claiming.writes|);
  }

  lemma CrashFreeBoth(a: seq<Event>, b: seq<Event>)
    requires CrashFree(a) && CrashFree(b)
    ensures CrashFree(a + b)
  {
  }

  /** However far a call has come without a crash, it can go on until it is answered and has left. */
  lemma EveryCallCanBeAnswered(s: State, before: seq<Event>, id: RequestId, fingerprint: Fingerprint, action: string,
                               events: seq<Event>) returns (rest: seq<Event>)
    requires Init(s) && Runs(s, before) && After(s, before).cache.Some?
    requires id !in After(s, before).cache.value && id !in After(s, before).flights
    requires Runs(DeliverStep(After(s, before), id, fingerprint, action), events) && CrashFree(events)
    ensures var claimed := DeliverStep(After(s, before), id, fingerprint, action);
      && CrashFree(rest) && Runs(claimed, events + rest) && id !in After(claimed, events + rest).flights
      && SentBlock(After(claimed, events + rest).sent,
                   Answered(events + rest, id, fingerprint, action, |After(s, before).writes|),
                   |After(s, before).sent|)
  {
    InitInv(s);
    RunInv(s, before);
    var claimed := DeliverStep(After(s, before), id, fingerprint, action);
    StepInv(After(s, before), Deliver(id, fingerprint, action));
    RunInv(claimed, events);
    rest := [];
    if id in After(claimed, events).flights {
      rest := FlightCanFinish(After(claimed, events), id);
    }
    RunsAppend(claimed, events, rest);
    CrashFreeBoth(events, rest);
    EveryCallIsAnswered(s, before, id, fingerprint, action, events + rest);
  }
}
