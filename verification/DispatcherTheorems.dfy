/** The promises of the action dispatcher, over every run from every receipt file. */
module DispatcherTheorems {
  import opened Options
  import opened Frames
  import opened Receipts
  import opened Dispatcher
  import opened DispatcherInvariant
  import opened DispatcherFrames

  // ----- at most once -----

  /**
   * Whatever is delivered, retried, lost or crashed, an id is executed at most once more than the legacy
   * rule erased it from the file, and only recovery ids are ever erased.
   */
  lemma AtMostOnce(s: State, events: seq<Event>, id: RequestId)
    requires Init(s) && Runs(s, events)
    ensures Count(After(s, events).execs, id) <= 1 + Count(After(s, events).prunes, id)
    ensures !IsRecoveryId(id) ==> Count(After(s, events).execs, id) <= 1
  {
    InitInv(s);
    RunInv(s, events);
    assert IdOk(After(s, events), id);
  }

  /** An id executes only under a claim that is already in the file. */
  lemma ClaimIsDurableBeforeExecution(s: State, events: seq<Event>, id: RequestId)
    requires Init(s) && Runs(s, events)
    ensures var s' := After(s, events);
      InPhase(s', id, Executing) ==>
        id in Contents(s'.disk) && Contents(s'.disk)[id] == Claim(s'.flights[id].fingerprint)
  {
    InitInv(s);
    RunInv(s, events);
    var s' := After(s, events);
    assert IdOk(s', id);
    if InPhase(s', id, Executing) {
      assert s'.cache.Some?;
    }
  }

  // ----- a recovery id can execute again, and no other id can -----

  lemma {:induction false} RunsAppend(s: State, first: seq<Event>, second: seq<Event>)
    requires Runs(s, first) && Runs(After(s, first), second)
    ensures Runs(s, first + second) && After(s, first + second) == After(After(s, first), second)
    decreases |first|
  {
    if first == [] {
      assert first + second == second;
    } else {
      assert (first + second)[1..] == first[1..] + second;
      RunsAppend(Apply(s, first[0]), first[1..], second);
    }
  }

  lemma RunsOne(s: State, e: Event)
    requires Enabled(s, e)
    ensures Runs(s, [e]) && After(s, [e]) == Apply(s, e)
  {
    assert [e][1..] == [];
    assert Runs(Apply(s, e), []);
  }

  lemma RunsTwo(s: State, e: Event, f: Event)
    requires Enabled(s, e) && Enabled(Apply(s, e), f)
    ensures Runs(s, [e, f]) && After(s, [e, f]) == Apply(Apply(s, e), f)
  {
    RunsOne(s, e);
    RunsOne(Apply(s, e), f);
    RunsAppend(s, [e], [f]);
    assert [e] + [f] == [e, f];
  }

  function ExecuteEvents(id: RequestId): seq<Event> {
    [Deliver(id, "f", "send_message"), BeginWrite] + [EndWrite(true), ResumeClaim(id)]
  }

  lemma ClaimRuns(s: State, id: RequestId)
    requires s.cache.Some? && s.snapshot == s.cache && s.writes == [id]
    requires s.flights == map[id := Flight("f", "send_message", Claiming(None))]
    ensures Runs(s, [EndWrite(true), ResumeClaim(id)])
    ensures After(s, [EndWrite(true), ResumeClaim(id)]) ==
      s.(disk := Stored(s.cache.value), writes := [], snapshot := None,
         flights := map[id := Flight("f", "send_message", Executing)],
         captures := s.captures[id := []], execs := Bump(s.execs, id))
  {
    RunsTwo(s, EndWrite(true), ResumeClaim(id));
  }

  /** An idle process executes an id it does not know. */
  lemma ExecuteRuns(s: State, id: RequestId)
    requires s.cache.Some? && s.loading.None? && s.snapshot.None? && s.writes == [] && s.flights == map[]
    requires id !in s.cache.value
    ensures Runs(s, ExecuteEvents(id))
    ensures var s' := After(s, ExecuteEvents(id));
      && s'.cache == Some(s.cache.value[id := Claim("f")]) && s'.disk == Stored(s'.cache.value)
      && s'.loading.None? && s'.snapshot.None? && s'.writes == []
      && s'.flights == map[id := Flight("f", "send_message", Executing)]
      && s'.captures == s.captures[id := []]
      && s'.execs == Bump(s.execs, id) && s'.prunes == s.prunes
  {
    var s2 := Apply(Apply(s, Deliver(id, "f", "send_message")), BeginWrite);
    RunsTwo(s, Deliver(id, "f", "send_message"), BeginWrite);
    ClaimRuns(s2, id);
    RunsAppend(s, [Deliver(id, "f", "send_message"), BeginWrite], [EndWrite(true), ResumeClaim(id)]);
  }

  function UnsentFrame(): Frame {
    ActionAck("send_message", false, Free(UNSENT_DETAIL), SendFailed, "")
  }

  function FailEvents(id: RequestId): seq<Event> {
    [Emit(id, UnsentFrame()), Finish(id, 0)] + [BeginWrite, EndWrite(true)]
  }

  function ReloadEvents(): seq<Event> {
    [Crash, StartLoad] + [EndPrune(true), InstallLoad]
  }

  lemma UnsentFrameIsPrunable(id: RequestId)
    requires IsRecoveryId(id)
    ensures Prunable(id, Receipt("f", [UnsentFrame()], 0, Complete))
  {
    assert UNSENT_DETAIL <= UNSENT_DETAIL;
    assert IsUnsentFailure(UnsentFrame());
    assert SomeUnsentFailure([UnsentFrame()]);
  }

  /** Such an execution fails and its receipt is stored. */
  lemma FailRuns(s: State, id: RequestId)
    requires s.cache == Some(map[id := Claim("f")])
    requires s.loading.None? && s.snapshot.None? && s.writes == []
    requires s.flights == map[id := Flight("f", "send_message", Executing)] && s.captures == map[id := []]
    ensures Runs(s, FailEvents(id))
    ensures var s' := After(s, FailEvents(id));
      && s'.disk == Stored(map[id := Receipt("f", [UnsentFrame()], 0, Complete)])
      && s'.execs == s.execs
  {
    var s1 := Apply(s, Emit(id, UnsentFrame()));
    assert s1.captures[id] == [UnsentFrame()];
    var s2 := Apply(s1, Finish(id, 0));
    RunsTwo(s, Emit(id, UnsentFrame()), Finish(id, 0));
    assert s2.cache.value == map[id := Receipt("f", [UnsentFrame()], 0, Complete)];
    RunsTwo(s2, BeginWrite, EndWrite(true));
    RunsAppend(s, [Emit(id, UnsentFrame()), Finish(id, 0)], [BeginWrite, EndWrite(true)]);
  }

  /** The next process forgets such a receipt. */
  lemma ReloadRuns(s: State, id: RequestId)
    requires s.disk == Stored(map[id := Receipt("f", [UnsentFrame()], 0, Complete)]) && IsRecoveryId(id)
    ensures Runs(s, ReloadEvents())
    ensures var s' := After(s, ReloadEvents());
      && s'.cache == Some(map[]) && s'.loading.None? && s'.snapshot.None? && s'.writes == []
      && s'.flights == map[] && s'.execs == s.execs
  {
    UnsentFrameIsPrunable(id);
    var found := map[id := Receipt("f", [UnsentFrame()], 0, Complete)];
    assert Kept(found) == map[];
    assert id in found;
    RunsTwo(s, Crash, StartLoad);
    var s2 := Apply(Apply(s, Crash), StartLoad);
    RunsTwo(s2, EndPrune(true), InstallLoad);
    RunsAppend(s, [Crash, StartLoad], [EndPrune(true), InstallLoad]);
  }

  function Fresh(): State {
    State(Absent, None, None, [], None, map[], map[], [], map[], map[], {})
  }

  lemma RecoveryIdCanRepeat(id: RequestId) returns (events: seq<Event>)
    requires IsRecoveryId(id)
    ensures Runs(Fresh(), events) && Count(After(Fresh(), events).execs, id) == 2
  {
    var s0 := Fresh();
    assert Kept(map[]) == map[];
    RunsOne(s0, StartLoad);
    var s1 := Apply(s0, StartLoad);
    ExecuteRuns(s1, id);
    var s2 := After(s1, ExecuteEvents(id));
    FailRuns(s2, id);
    var s3 := After(s2, FailEvents(id));
    ReloadRuns(s3, id);
    var s4 := After(s3, ReloadEvents());
    ExecuteRuns(s4, id);
    RunsAppend(s3, ReloadEvents(), ExecuteEvents(id));
    RunsAppend(s2, FailEvents(id), ReloadEvents() + ExecuteEvents(id));
    RunsAppend(s1, ExecuteEvents(id), FailEvents(id) + (ReloadEvents() + ExecuteEvents(id)));
    var rest := ExecuteEvents(id) + (FailEvents(id) + (ReloadEvents() + ExecuteEvents(id)));
    RunsAppend(s0, [StartLoad], rest);
    events := [StartLoad] + rest;
  }

  /** Exactly the ids with the recovery prefix can be executed a second time. */
  lemma RepeatsExactlyRecoveryIds(id: RequestId)
    ensures (exists events :: Runs(Fresh(), events) && Count(After(Fresh(), events).execs, id) >= 2)
       <==> IsRecoveryId(id)
  {
    if IsRecoveryId(id) {
      var events := RecoveryIdCanRepeat(id);
    }
    forall events | Runs(Fresh(), events) && Count(After(Fresh(), events).execs, id) >= 2
      ensures IsRecoveryId(id)
    {
      AtMostOnce(Fresh(), events, id);
    }
  }

  // ----- success is never invented -----

  lemma DeliverKeepsHistory(s: State, id: RequestId, fingerprint: Fingerprint, action: string)
    requires s.cache.Some?
    ensures var s' := DeliverStep(s, id, fingerprint, action);
      s'.execs == s.execs && s'.prunes == s.prunes && s'.produced == s.produced
  {
  }

  lemma ResumeKeepsHistory(s: State, id: RequestId)
    requires Enabled(s, ResumeClaim(id))
    ensures var s' := ResumeClaimStep(s, id);
      s'.prunes == s.prunes && s'.produced == s.produced
      && forall k | k != id :: Count(s'.execs, k) == Count(s.execs, k)
  {
  }

  lemma ExecsOnlyByResume(s: State, e: Event, id: RequestId)
    requires Enabled(s, e) && e != ResumeClaim(id)
    ensures Count(Apply(s, e).execs, id) == Count(s.execs, id)
  {
    match e
    case Deliver(k, fingerprint, action) => DeliverKeepsHistory(s, k, fingerprint, action);
    case ResumeClaim(k) => ResumeKeepsHistory(s, k);
    case _ =>
  }

  /** A success frame sent for an id was emitted by an execution of that id, in this run or before it. */
  lemma SuccessMeansExecuted(s: State, events: seq<Event>, id: RequestId, frame: Frame)
    requires Init(s) && Runs(s, events)
    requires (id, frame) in After(s, events).sent && IsSuccess(frame)
    ensures (id, frame) in After(s, events).produced
    ensures (id, frame) in s.produced || Count(After(s, events).execs, id) >= 1
  {
    InitInv(s);
    InitFrames(s);
    RunFrames(s, events, s.produced);
  }

  /** An execution of `id`, in this run or before it, failed with the text of the legacy rule. */
  ghost predicate FailedUnsent(s: State, id: RequestId) {
    exists f :: IsUnsentFailure(f) && (id, f) in s.produced
  }

  /**
   * For an id with no earlier success, a client that sees success knows the action ran; every execution but one
   * was erased by the legacy rule, and it ran exactly once when no execution of it failed in that rule's words.
   */
  lemma SuccessMeansExactlyOnce(s: State, events: seq<Event>, id: RequestId, frame: Frame)
    requires Init(s) && (id, frame) !in s.produced && Runs(s, events)
    requires (id, frame) in After(s, events).sent && IsSuccess(frame)
    ensures 1 <= Count(After(s, events).execs, id) <= 1 + Count(After(s, events).prunes, id)
    ensures !IsRecoveryId(id) || !FailedUnsent(After(s, events), id) ==> Count(After(s, events).execs, id) == 1
  {
    SuccessMeansExecuted(s, events, id, frame);
    RunsAtMostOnceUnlessFailed(s, events, id);
  }

  lemma PrunesOnlyByLoading(s: State, e: Event, id: RequestId)
    requires Enabled(s, e) && Count(Apply(s, e).prunes, id) > Count(s.prunes, id)
    ensures e == EndPrune(true)
  {
    match e
    case Deliver(k, fingerprint, action) => DeliverKeepsHistory(s, k, fingerprint, action);
    case ResumeClaim(k) => ResumeKeepsHistory(s, k);
    case _ =>
  }

  lemma ErasingStep(s: State, e: Event, id: RequestId)
    requires Inv(s) && (forall k :: IdGenuine(s, k)) && Enabled(s, e)
    requires Count(Apply(s, e).prunes, id) > Count(s.prunes, id)
    ensures FailedUnsent(s, id)
  {
    PrunesOnlyByLoading(s, e, id);
    assert IdGenuine(s, id) && Prunable(id, Contents(s.disk)[id]);
    var f := UnsentWitness(Contents(s.disk)[id].frames);
    assert (id, f) in s.produced;
  }

  lemma ProducedOnlyByEmit(s: State, e: Event)
    requires Enabled(s, e) && !e.Emit?
    ensures Apply(s, e).produced == s.produced
  {
    match e
    case Deliver(id, fingerprint, action) => DeliverKeepsHistory(s, id, fingerprint, action);
    case ResumeClaim(id) => ResumeKeepsHistory(s, id);
    case _ =>
  }

  lemma ProducedGrows(s: State, e: Event)
    requires Enabled(s, e)
    ensures s.produced <= Apply(s, e).produced
  {
    if !e.Emit? {
      ProducedOnlyByEmit(s, e);
    }
  }

  lemma {:induction false} ErasedOnlyAfterFailure(s: State, events: seq<Event>, before: set<(RequestId, Frame)>,
                                                  id: RequestId)
    requires Inv(s) && FramesOk(s, before) && Runs(s, events) && (Count(s.prunes, id) > 0 ==> FailedUnsent(s, id))
    ensures Count(After(s, events).prunes, id) > 0 ==> FailedUnsent(After(s, events), id)
    decreases |events|
  {
    if events != [] {
      var e := events[0];
      StepInv(s, e);
      StepFrames(s, e, before);
      if Count(Apply(s, e).prunes, id) > Count(s.prunes, id) {
        ErasingStep(s, e, id);
      }
      ProducedGrows(s, e);
      ErasedOnlyAfterFailure(Apply(s, e), events[1..], before, id);
    }
  }

  /** An id is executed at most once unless an execution of it failed with the text of the legacy rule. */
  lemma RunsAtMostOnceUnlessFailed(s: State, events: seq<Event>, id: RequestId)
    requires Init(s) && Runs(s, events)
    ensures Count(After(s, events).execs, id) <= 1 + Count(After(s, events).prunes, id)
    ensures Count(After(s, events).prunes, id) > 0 ==> IsRecoveryId(id) && FailedUnsent(After(s, events), id)
  {
    InitInv(s);
    InitFrames(s);
    ErasedOnlyAfterFailure(s, events, s.produced, id);
    RunInv(s, events);
    assert IdOk(After(s, events), id);
  }

  /** A receipt is forgotten only for a failure its execution emitted, never for a refusal it recorded. */
  lemma ForgottenForOwnFailure(s: State, events: seq<Event>, id: RequestId)
    requires Init(s) && Runs(s, events)
    requires id in Contents(After(s, events).disk) && Prunable(id, Contents(After(s, events).disk)[id])
    ensures exists f :: IsUnsentFailure(f) && (id, f) in After(s, events).produced
  {
    InitInv(s);
    InitFrames(s);
    RunFrames(s, events, s.produced);
    var s' := After(s, events);
    assert IdGenuine(s', id);
    var f := UnsentWitness(Contents(s'.disk)[id].frames);
  }

  lemma {:induction false} UnsentWitness(frames: seq<Frame>) returns (f: Frame)
    requires SomeUnsentFailure(frames)
    ensures f in frames && IsUnsentFailure(f)
  {
    if IsUnsentFailure(frames[0]) {
      f := frames[0];
    } else {
      f := UnsentWitness(frames[1..]);
    }
  }

  // ----- receipts are final -----

  /** The file holds `receipt` for `id`, memory agrees, and nothing is left to do for `id`. */
  predicate Settled(s: State, id: RequestId, receipt: Receipt) {
    && id in Contents(s.disk) && Contents(s.disk)[id] == receipt
    && (s.cache.Some? ==> id in s.cache.value && s.cache.value[id] == receipt)
    && (s.snapshot.Some? ==> id in s.snapshot.value && s.snapshot.value[id] == receipt)
    && (id in s.flights ==> receipt.status == Complete)
  }

  /** `id` is complete in memory, as `receipt`; the file may still hold the claim it grew from. */
  predicate Completed(s: State, id: RequestId, receipt: Receipt) {
    && receipt.status == Complete
    && s.cache.Some? && id in s.cache.value && s.cache.value[id] == receipt
  }

  /** What a delivery for `id` is answered with while the cache holds `receipt`. */
  function Answer(id: RequestId, receipt: Receipt, fingerprint: Fingerprint, action: string): seq<(RequestId, Frame)> {
    if receipt.fingerprint != fingerprint then [(id, Refusal(BoundToOtherPayload, action))]
    else if receipt.status == Running then [(id, Refusal(MayHaveCompleted, action))]
    else Tagged(id, receipt.frames)
  }

  /** The step in which the legacy rule erases `id` from the file. */
  predicate Erases(s: State, e: Event, id: RequestId)
    requires Enabled(s, e)
  {
    e == EndPrune(true) && id !in s.loading.value.result
  }

  lemma ErasesIsCounted(s: State, e: Event, id: RequestId)
    requires Enabled(s, e) && Erases(s, e, id) && id in Contents(s.disk)
    ensures Count(Apply(s, e).prunes, id) == Count(s.prunes, id) + 1
  {
  }

  lemma SettledLoad(s: State, e: Event, id: RequestId, receipt: Receipt)
    requires MemoryOk(s) && Settled(s, id, receipt) && Enabled(s, e) && !Erases(s, e, id)
    requires e.StartLoad? || e.EndPrune? || e.InstallLoad?
    ensures Settled(Apply(s, e), id, receipt)
  {
    KeptIsPart(Contents(s.disk), id);
  }

  lemma SettledEndWrite(s: State, ok: bool, id: RequestId, receipt: Receipt)
    requires Inv(s) && Settled(s, id, receipt) && Enabled(s, EndWrite(ok))
    ensures Settled(EndWriteStep(s, ok), id, receipt)
  {
    assert IdOk(s, id);
    assert s.writes[0] in s.writes;
    assert IdOk(s, s.writes[0]);
  }

  lemma SettledResumeClaim(s: State, k: RequestId, id: RequestId, receipt: Receipt)
    requires Inv(s) && Settled(s, id, receipt) && Enabled(s, ResumeClaim(k))
    ensures k != id && Settled(ResumeClaimStep(s, k), id, receipt)
  {
    assert IdOk(s, id);
  }

  lemma SettledFinish(s: State, k: RequestId, now: int, id: RequestId, receipt: Receipt)
    requires Inv(s) && Settled(s, id, receipt) && Enabled(s, Finish(k, now))
    ensures k != id && Settled(FinishStep(s, k, now), id, receipt)
  {
    assert IdOk(s, id);
  }

  lemma SettledDeliver(s: State, k: RequestId, fingerprint: Fingerprint, action: string,
                       id: RequestId, receipt: Receipt)
    requires Settled(s, id, receipt) && s.cache.Some?
    ensures Settled(DeliverStep(s, k, fingerprint, action), id, receipt)
  {
    var s' := DeliverStep(s, k, fingerprint, action);
    if k in s.cache.value || k in s.flights {
      assert s' == s.(captures := s'.captures, sent := s'.sent);
    } else {
      assert k != id;
    }
  }

  lemma SettledRest(s: State, e: Event, id: RequestId, receipt: Receipt)
    requires Settled(s, id, receipt) && Enabled(s, e)
    requires
      || e.RefuseNotConnected? || e.RefuseUnreadable? || e.BeginWrite?
      || e.Emit? || e.Reply? || e.Leave? || e.Crash?
    ensures Settled(Apply(s, e), id, receipt)
  {
  }

  lemma SettledStep(s: State, e: Event, id: RequestId, receipt: Receipt)
    requires Inv(s) && Settled(s, id, receipt) && Enabled(s, e) && !Erases(s, e, id)
    ensures Settled(Apply(s, e), id, receipt)
  {
    match e
    case StartLoad => SettledLoad(s, e, id, receipt);
    case EndPrune(_) => SettledLoad(s, e, id, receipt);
    case InstallLoad => SettledLoad(s, e, id, receipt);
    case EndWrite(ok) => SettledEndWrite(s, ok, id, receipt);
    case ResumeClaim(k) => SettledResumeClaim(s, k, id, receipt);
    case Finish(k, now) => SettledFinish(s, k, now, id, receipt);
    case Deliver(k, fingerprint, action) => SettledDeliver(s, k, fingerprint, action, id, receipt);
    case _ => SettledRest(s, e, id, receipt);
  }

  lemma SettledNotResumed(s: State, e: Event, id: RequestId, receipt: Receipt)
    requires Inv(s) && Settled(s, id, receipt) && Enabled(s, e)
    ensures e != ResumeClaim(id)
  {
    assert IdOk(s, id);
  }

  /**
   * As long as the legacy rule does not erase it, a settled receipt stays what it is through every retry,
   * failed write, crash and reload, and its id never executes again.
   */
  lemma {:induction false} SettledForever(s: State, events: seq<Event>, id: RequestId, receipt: Receipt)
    requires Inv(s) && Settled(s, id, receipt) && Runs(s, events)
    requires Count(After(s, events).prunes, id) == Count(s.prunes, id)
    ensures Settled(After(s, events), id, receipt)
    ensures Count(After(s, events).execs, id) == Count(s.execs, id)
    decreases |events|
  {
    if events != [] {
      var s1 := Apply(s, events[0]);
      StepInv(s, events[0]);
      PrunesGrow(s, [events[0]], id);
      PrunesGrow(s1, events[1..], id);
      if Erases(s, events[0], id) {
        ErasesIsCounted(s, events[0], id);
      }
      SettledStep(s, events[0], id, receipt);
      SettledNotResumed(s, events[0], id, receipt);
      ExecsOnlyByResume(s, events[0], id);
      SettledForever(s1, events[1..], id, receipt);
    }
  }

  lemma {:induction false} PrunesGrow(s: State, events: seq<Event>, id: RequestId)
    requires Runs(s, events)
    ensures Count(s.prunes, id) <= Count(After(s, events).prunes, id)
    decreases |events|
  {
    if events != [] {
      var s1 := Apply(s, events[0]);
      assert Count(s.prunes, id) <= Count(s1.prunes, id);
      PrunesGrow(s1, events[1..], id);
    }
  }

  /** Deliveries for a settled id are answered from the receipt and change nothing. */
  lemma SettledAnswer(s: State, id: RequestId, receipt: Receipt, fingerprint: Fingerprint, action: string)
    requires Inv(s) && Settled(s, id, receipt) && s.cache.Some?
    ensures DeliverStep(s, id, fingerprint, action) == s.(sent := s.sent + Answer(id, receipt, fingerprint, action))
  {
    assert IdOk(s, id);
  }

  /** A crash settles every id in the file: with its receipt when that was written, else with its claim. */
  lemma CrashSettles(s: State, id: RequestId)
    requires Inv(s) && id in Contents(s.disk)
    ensures Settled(CrashStep(s), id, Contents(s.disk)[id])
  {
  }

  /** What a crash finds in the file for a completed id is its receipt or the claim of the same payload. */
  lemma CompletedOnDisk(s: State, id: RequestId, receipt: Receipt)
    requires Inv(s) && Completed(s, id, receipt)
    ensures id in Contents(s.disk) && Matches(Contents(s.disk)[id], receipt)
  {
    assert IdOk(s, id);
  }

  /** A completed id has no claim to resume and no execution to finish. */
  lemma CompletedIsOver(s: State, e: Event, id: RequestId, receipt: Receipt)
    requires Inv(s) && Completed(s, id, receipt) && Enabled(s, e)
    ensures e != ResumeClaim(id) && !(e.Finish? && e.id == id) && s.loading.None?
  {
    assert IdOk(s, id);
  }

  lemma CompletedStep(s: State, e: Event, id: RequestId, receipt: Receipt)
    requires Inv(s) && Completed(s, id, receipt) && Enabled(s, e) && !e.Crash?
    ensures Completed(Apply(s, e), id, receipt)
    ensures Count(Apply(s, e).execs, id) == Count(s.execs, id)
  {
    CompletedIsOver(s, e, id, receipt);
    ExecsOnlyByResume(s, e, id);
  }

  lemma CompletedAnswer(s: State, id: RequestId, receipt: Receipt, fingerprint: Fingerprint, action: string)
    requires Inv(s) && Completed(s, id, receipt)
    ensures DeliverStep(s, id, fingerprint, action) == s.(sent := s.sent + Answer(id, receipt, fingerprint, action))
  {
    assert IdOk(s, id);
  }

  predicate CrashFree(events: seq<Event>) {
    forall e | e in events :: !e.Crash?
  }

  /** Within one process a completed receipt never changes, whether or not its write succeeds. */
  lemma {:induction false} CompletedWithinProcess(s: State, events: seq<Event>, id: RequestId, receipt: Receipt)
    requires Inv(s) && Completed(s, id, receipt) && Runs(s, events) && CrashFree(events)
    ensures Completed(After(s, events), id, receipt)
    ensures Count(After(s, events).execs, id) == Count(s.execs, id)
    decreases |events|
  {
    if events != [] {
      assert events[0] in events;
      StepInv(s, events[0]);
      CompletedStep(s, events[0], id, receipt);
      CompletedWithinProcess(Apply(s, events[0]), events[1..], id, receipt);
    }
  }

  /**
   * A completed id, then a crash, then anything: the id never executes again, and from the crash on every
   * delivery is answered by what the file held then, the receipt itself or its claim.
   */
  lemma CompletedThroughCrash(s: State, events: seq<Event>, id: RequestId, receipt: Receipt,
                              fingerprint: Fingerprint, action: string)
    requires Inv(s) && Completed(s, id, receipt) && Runs(CrashStep(s), events)
    requires Count(After(CrashStep(s), events).prunes, id) == Count(s.prunes, id)
    ensures var s' := After(CrashStep(s), events);
      && Count(s'.execs, id) == Count(s.execs, id)
      && id in Contents(s.disk) && Matches(Contents(s.disk)[id], receipt)
      && Settled(s', id, Contents(s.disk)[id])
      && (s'.cache.Some? ==>
            DeliverStep(s', id, fingerprint, action)
              == s'.(sent := s'.sent + Answer(id, Contents(s.disk)[id], fingerprint, action)))
  {
    CompletedOnDisk(s, id, receipt);
    CrashSettles(s, id);
    CrashKeeps(s);
    SettledForever(CrashStep(s), events, id, Contents(s.disk)[id]);
    RunInv(CrashStep(s), events);
    var s' := After(CrashStep(s), events);
    if s'.cache.Some? {
      SettledAnswer(s', id, Contents(s.disk)[id], fingerprint, action);
    }
  }

  // ----- the join branch -----

  /** A delivery joins a running call only when that call's claim failed and it is about to leave. */
  lemma JoinOnlyAfterFailedClaim(s: State, id: RequestId)
    requires Inv(s) && s.cache.Some? && id in s.flights && id !in s.cache.value
    ensures s.flights[id].phase == Leaving
  {
    assert IdOk(s, id);
  }
}
