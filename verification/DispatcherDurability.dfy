/** What became of a completed receipt: which writes put it into the file, and what a crash then leaves. */
module DispatcherDurability {
  import opened Options
  import opened Frames
  import opened Receipts
  import opened Dispatcher
  import opened DispatcherInvariant
  import opened DispatcherTheorems

  // ----- the second persist of a call -----

  /** What the write of a completed call has serialized is its receipt. */
  predicate OwnSnapshotOk(s: State) {
    s.snapshot.Some? && s.writes != [] && InPhase(s, s.writes[0], Settling(None)) && s.cache.Some? ==>
      && s.writes[0] in s.cache.value && s.writes[0] in s.snapshot.value
      && s.snapshot.value[s.writes[0]] == s.cache.value[s.writes[0]]
  }

  lemma OwnSnapshotWrites(s: State, e: Event)
    requires Inv(s) && Enabled(s, e) && (e.BeginWrite? || e.EndWrite?)
    ensures OwnSnapshotOk(Apply(s, e))
  {
    if e.BeginWrite? {
      assert IdOk(s, s.writes[0]);
    }
  }

  lemma OwnSnapshotFinish(s: State, id: RequestId, now: int)
    requires Inv(s) && OwnSnapshotOk(s) && Enabled(s, Finish(id, now))
    ensures OwnSnapshotOk(FinishStep(s, id, now))
  {
    assert IdOk(s, id);
  }

  lemma OwnSnapshotResume(s: State, id: RequestId)
    requires Inv(s) && OwnSnapshotOk(s) && Enabled(s, ResumeClaim(id))
    ensures OwnSnapshotOk(ResumeClaimStep(s, id))
  {
    assert IdOk(s, id);
  }

  lemma OwnSnapshotClaim(s: State, id: RequestId, fingerprint: Fingerprint, action: string)
    requires OwnSnapshotOk(s) && s.cache.Some? && id !in s.cache.value && id !in s.flights
    requires s.snapshot.Some? ==> s.writes != []
    ensures OwnSnapshotOk(DeliverStep(s, id, fingerprint, action))
  {
  }

  /** A delivery that makes no claim only sends. */
  lemma DeliverOnlySends(s: State, id: RequestId, fingerprint: Fingerprint, action: string)
    requires s.cache.Some? && (id in s.cache.value || id in s.flights)
    ensures var s' := DeliverStep(s, id, fingerprint, action);
      s' == s.(captures := s'.captures, sent := s'.sent)
  {
  }

  lemma OwnSnapshotDeliver(s: State, id: RequestId, fingerprint: Fingerprint, action: string)
    requires OwnSnapshotOk(s) && s.cache.Some? && (s.snapshot.Some? ==> s.writes != [])
    ensures OwnSnapshotOk(DeliverStep(s, id, fingerprint, action))
  {
    if id !in s.cache.value && id !in s.flights {
      OwnSnapshotClaim(s, id, fingerprint, action);
    } else {
      DeliverOnlySends(s, id, fingerprint, action);
    }
  }

  /** Calls that answer or leave await no write. */
  lemma OwnSnapshotAnswer(s: State, e: Event)
    requires OwnSnapshotOk(s) && Enabled(s, e) && (e.Reply? || e.Leave?)
    ensures OwnSnapshotOk(Apply(s, e))
  {
  }

  lemma OwnSnapshotRest(s: State, e: Event)
    requires MemoryOk(s) && OwnSnapshotOk(s) && Enabled(s, e)
    requires e.RefuseNotConnected? || e.RefuseUnreadable? || e.StartLoad? || e.EndPrune? || e.InstallLoad?
      || e.Emit? || e.Crash?
    ensures OwnSnapshotOk(Apply(s, e))
  {
  }

  lemma {:induction false} OwnSnapshotRuns(s: State, events: seq<Event>)
    requires Inv(s) && OwnSnapshotOk(s) && Runs(s, events)
    ensures OwnSnapshotOk(After(s, events))
    decreases |events|
  {
    if events != [] {
      StepInv(s, events[0]);
      match events[0] {
        case BeginWrite => OwnSnapshotWrites(s, events[0]);
        case EndWrite(_) => OwnSnapshotWrites(s, events[0]);
        case Finish(id, now) => OwnSnapshotFinish(s, id, now);
        case ResumeClaim(id) => OwnSnapshotResume(s, id);
        case Deliver(id, fingerprint, action) => OwnSnapshotDeliver(s, id, fingerprint, action);
        case Reply(_) => OwnSnapshotAnswer(s, events[0]);
        case Leave(_) => OwnSnapshotAnswer(s, events[0]);
        case _ => OwnSnapshotRest(s, events[0]);
      }
      OwnSnapshotRuns(Apply(s, events[0]), events[1..]);
    }
  }

  /** Over every run: when the second persist of a call succeeds, its receipt is settled. */
  lemma OwnWriteSettles(s: State, events: seq<Event>, id: RequestId)
    requires Init(s) && Runs(s, events) && Enabled(After(s, events), EndWrite(true))
    requires After(s, events).writes[0] == id && InPhase(After(s, events), id, Settling(None))
    ensures var s' := After(s, events);
      && s'.cache.Some? && id in s'.cache.value && s'.cache.value[id].status == Complete
      && Settled(EndWriteStep(s', true), id, s'.cache.value[id])
  {
    InitInv(s);
    RunInv(s, events);
    OwnSnapshotRuns(s, events);
    assert IdOk(After(s, events), id);
  }

  // ----- which writes stored a receipt -----

  /**
   * A write that serialized the cache within `events` also ends there with success. `begun`: the write under way
   * at the start is such a write.
   */
  predicate SomeWriteSucceeds(events: seq<Event>, begun: bool) {
    events != [] &&
    match events[0]
    case BeginWrite => SomeWriteSucceeds(events[1..], true)
    case EndWrite(ok) => (ok && begun) || SomeWriteSucceeds(events[1..], false)
    case _ => SomeWriteSucceeds(events[1..], begun)
  }

  /**
   * `id` completed as `receipt`. The file holds the receipt when `stored`, else its claim; the write under way
   * serialized the receipt when `begun`, and otherwise its claim and is some other call's.
   */
  predicate Tracked(s: State, id: RequestId, receipt: Receipt, begun: bool, stored: bool) {
    && Completed(s, id, receipt)
    && id in Contents(s.disk)
    && Contents(s.disk)[id] == (if stored then receipt else Claim(receipt.fingerprint))
    && (s.snapshot.Some? ==>
          && id in s.snapshot.value
          && s.snapshot.value[id] == (if begun then receipt else Claim(receipt.fingerprint))
          && (begun || (!stored && s.writes != [] && s.writes[0] != id)))
  }

  lemma TrackedFinish(s: State, id: RequestId, now: int)
    requires Inv(s) && Enabled(s, Finish(id, now))
    ensures Tracked(FinishStep(s, id, now), id,
                    Receipt(s.flights[id].fingerprint, s.captures[id], now, Complete), false, false)
  {
    assert IdOk(s, id);
  }

  function BegunAfter(e: Event, begun: bool): bool {
    match e
    case BeginWrite => true
    case EndWrite(_) => false
    case _ => begun
  }

  function StoredAfter(e: Event, begun: bool, stored: bool): bool {
    stored || (e == EndWrite(true) && begun)
  }

  lemma TrackedWrites(s: State, e: Event, id: RequestId, receipt: Receipt, begun: bool, stored: bool)
    requires Inv(s) && Tracked(s, id, receipt, begun, stored) && Enabled(s, e) && (e.BeginWrite? || e.EndWrite?)
    ensures Tracked(Apply(s, e), id, receipt, BegunAfter(e, begun), StoredAfter(e, begun, stored))
  {
  }

  /** The file and what the write under way has serialized are as before, and it is still the oldest. */
  predicate FileUntouched(s: State, s': State) {
    s'.disk == s.disk && s'.snapshot == s.snapshot && s.writes <= s'.writes
  }

  lemma DeliverLeavesFile(s: State, id: RequestId, fingerprint: Fingerprint, action: string)
    requires s.cache.Some?
    ensures FileUntouched(s, DeliverStep(s, id, fingerprint, action))
  {
  }

  lemma CallLeavesFile(s: State, e: Event)
    requires Enabled(s, e) && (e.ResumeClaim? || e.Finish? || e.Reply? || e.Leave?)
    ensures FileUntouched(s, Apply(s, e))
  {
  }

  /** Only writes touch the file of a loaded process. */
  lemma OnlyWritesWrite(s: State, e: Event)
    requires s.cache.Some? && s.loading.None? && Enabled(s, e) && !e.BeginWrite? && !e.EndWrite? && !e.Crash?
    ensures FileUntouched(s, Apply(s, e))
  {
    match e
    case Deliver(id, fingerprint, action) => DeliverLeavesFile(s, id, fingerprint, action);
    case ResumeClaim(_) => CallLeavesFile(s, e);
    case Finish(_, _) => CallLeavesFile(s, e);
    case Reply(_) => CallLeavesFile(s, e);
    case Leave(_) => CallLeavesFile(s, e);
    case _ =>
  }

  lemma TrackedStep(s: State, e: Event, id: RequestId, receipt: Receipt, begun: bool, stored: bool)
    requires Inv(s) && Tracked(s, id, receipt, begun, stored) && Enabled(s, e) && !e.Crash?
    ensures Tracked(Apply(s, e), id, receipt, BegunAfter(e, begun), StoredAfter(e, begun, stored))
  {
    if e.BeginWrite? || e.EndWrite? {
      TrackedWrites(s, e, id, receipt, begun, stored);
    } else {
      CompletedStep(s, e, id, receipt);
      OnlyWritesWrite(s, e);
    }
  }

  lemma {:induction false} TrackedRuns(s: State, events: seq<Event>, id: RequestId, receipt: Receipt,
                                       begun: bool, stored: bool)
    requires Inv(s) && Tracked(s, id, receipt, begun, stored) && Runs(s, events) && CrashFree(events)
    ensures Completed(After(s, events), id, receipt)
    ensures id in Contents(After(s, events).disk)
    ensures Contents(After(s, events).disk)[id] ==
      if stored || SomeWriteSucceeds(events, begun) then receipt else Claim(receipt.fingerprint)
    decreases |events|
  {
    if events != [] {
      var e := events[0];
      assert e in events;
      StepInv(s, e);
      TrackedStep(s, e, id, receipt, begun, stored);
      TrackedRuns(Apply(s, e), events[1..], id, receipt, BegunAfter(e, begun), StoredAfter(e, begun, stored));
    }
  }

  /** The receipt of an execution that ends now. */
  function ReceiptOf(s: State, id: RequestId, now: int): Receipt
    requires Enabled(s, Finish(id, now))
  {
    Receipt(s.flights[id].fingerprint, s.captures[id], now, Complete)
  }

  /**
   * After an execution ended, and whatever steps are in between, the file holds its receipt exactly when a write
   * that began since, for this call or any other, has succeeded; until then it holds the claim.
   */
  lemma FileHoldsReceiptExactlyWhenStored(s: State, before: seq<Event>, id: RequestId, now: int, since: seq<Event>)
    requires Init(s) && Runs(s, before) && Enabled(After(s, before), Finish(id, now))
    requires Runs(FinishStep(After(s, before), id, now), since) && CrashFree(since)
    ensures var receipt := ReceiptOf(After(s, before), id, now);
      var s' := After(FinishStep(After(s, before), id, now), since);
      && Completed(s', id, receipt) && id in Contents(s'.disk)
      && Contents(s'.disk)[id] == if SomeWriteSucceeds(since, false) then receipt else Claim(receipt.fingerprint)
  {
    InitInv(s);
    RunInv(s, before);
    var done := After(s, before);
    StepInv(done, Finish(id, now));
    TrackedFinish(done, id, now);
    TrackedRuns(FinishStep(done, id, now), since, id, ReceiptOf(done, id, now), false, false);
  }

  /** The write of the call itself succeeds within `events`. */
  predicate OwnWriteSucceeds(s: State, events: seq<Event>, id: RequestId)
    requires Runs(s, events)
    decreases |events|
  {
    events != [] &&
    ((events[0] == EndWrite(true) && s.writes[0] == id) || OwnWriteSucceeds(Apply(s, events[0]), events[1..], id))
  }

  lemma {:induction false} OwnWriteStores(s: State, events: seq<Event>, id: RequestId, receipt: Receipt,
                                          begun: bool, stored: bool)
    requires Inv(s) && Tracked(s, id, receipt, begun, stored) && Runs(s, events) && CrashFree(events)
    requires OwnWriteSucceeds(s, events, id)
    ensures SomeWriteSucceeds(events, begun)
    decreases |events|
  {
    var e := events[0];
    assert e in events;
    if !(e == EndWrite(true) && s.writes[0] == id) {
      StepInv(s, e);
      TrackedStep(s, e, id, receipt, begun, stored);
      OwnWriteStores(Apply(s, e), events[1..], id, receipt, BegunAfter(e, begun), StoredAfter(e, begun, stored));
    }
  }

  /** When the second persist of the call succeeds, its receipt is stored. */
  lemma SecondPersistStores(s: State, before: seq<Event>, id: RequestId, now: int, since: seq<Event>)
    requires Init(s) && Runs(s, before) && Enabled(After(s, before), Finish(id, now))
    requires Runs(FinishStep(After(s, before), id, now), since) && CrashFree(since)
    requires OwnWriteSucceeds(FinishStep(After(s, before), id, now), since, id)
    ensures SomeWriteSucceeds(since, false)
  {
    InitInv(s);
    RunInv(s, before);
    var done := After(s, before);
    StepInv(done, Finish(id, now));
    TrackedFinish(done, id, now);
    OwnWriteStores(FinishStep(done, id, now), since, id, ReceiptOf(done, id, now), false, false);
  }

  /** A successful write that serialized a completed receipt settles it. */
  lemma BegunWriteSettles(s: State, id: RequestId, receipt: Receipt)
    requires Inv(s) && Completed(s, id, receipt) && Enabled(s, EndWrite(true))
    requires id in s.snapshot.value && s.snapshot.value[id] == receipt
    ensures Settled(EndWriteStep(s, true), id, receipt)
  {
    assert IdOk(s, id);
  }

  /**
   * From any moment at which a call is complete in memory: a write that begins from then on, for any call, and
   * ends with success, whatever steps are in between, settles its receipt.
   */
  lemma {:induction false} LaterWriteStoresReceipt(s: State, events: seq<Event>, id: RequestId, receipt: Receipt,
                                                   begun: bool)
    requires Inv(s) && Completed(s, id, receipt) && Runs(s, events) && CrashFree(events)
    requires SomeWriteSucceeds(events, begun)
    requires begun && s.snapshot.Some? ==> id in s.snapshot.value && s.snapshot.value[id] == receipt
    ensures Settled(After(s, events), id, receipt)
    decreases |events|
  {
    var e := events[0];
    var s' := Apply(s, e);
    assert e in events;
    StepInv(s, e);
    CompletedStep(s, e, id, receipt);
    CompletedIsOver(s, e, id, receipt);
    if e == EndWrite(true) && begun {
      BegunWriteSettles(s, id, receipt);
      CompletedIsNotErased(s', events[1..], id, receipt);
      SettledForever(s', events[1..], id, receipt);
    } else {
      if !e.BeginWrite? && !e.EndWrite? {
        OnlyWritesWrite(s, e);
      }
      LaterWriteStoresReceipt(s', events[1..], id, receipt, BegunAfter(e, begun));
    }
  }

  // ----- and what a crash leaves -----

  /** A receipt that the legacy rule does not name is never erased. */
  lemma NotErased(s: State, e: Event, id: RequestId, receipt: Receipt)
    requires Inv(s) && Settled(s, id, receipt) && !Prunable(id, receipt) && Enabled(s, e)
    ensures !Erases(s, e, id) && Count(Apply(s, e).prunes, id) == Count(s.prunes, id)
  {
  }

  lemma {:induction false} NeverErased(s: State, events: seq<Event>, id: RequestId, receipt: Receipt)
    requires Inv(s) && Settled(s, id, receipt) && !Prunable(id, receipt) && Runs(s, events)
    ensures Count(After(s, events).prunes, id) == Count(s.prunes, id)
    decreases |events|
  {
    if events != [] {
      NotErased(s, events[0], id, receipt);
      StepInv(s, events[0]);
      SettledStep(s, events[0], id, receipt);
      NeverErased(Apply(s, events[0]), events[1..], id, receipt);
    }
  }

  lemma LoadedErasesNothing(s: State, e: Event, id: RequestId)
    requires s.loading.None? && Enabled(s, e)
    ensures Count(Apply(s, e).prunes, id) == Count(s.prunes, id)
  {
    if Count(Apply(s, e).prunes, id) > Count(s.prunes, id) {
      PrunesOnlyByLoading(s, e, id);
    }
    PrunesGrow(s, [e], id);
    RunsOne(s, e);
  }

  /** A process that has loaded its file erases nothing. */
  lemma {:induction false} CompletedIsNotErased(s: State, events: seq<Event>, id: RequestId, receipt: Receipt)
    requires Inv(s) && Completed(s, id, receipt) && Runs(s, events) && CrashFree(events)
    ensures Count(After(s, events).prunes, id) == Count(s.prunes, id)
    decreases |events|
  {
    if events != [] {
      assert events[0] in events;
      StepInv(s, events[0]);
      CompletedStep(s, events[0], id, receipt);
      CompletedIsOver(s, events[0], id, receipt);
      LoadedErasesNothing(s, events[0], id);
      CompletedIsNotErased(Apply(s, events[0]), events[1..], id, receipt);
    }
  }

  /** What a retry of the same payload is sent when its receipt is stored, and when only its claim is. */
  function RetryAnswer(id: RequestId, receipt: Receipt, stored: bool, action: string): seq<(RequestId, Frame)> {
    if stored then Tagged(id, receipt.frames) else [(id, Refusal(MayHaveCompleted, action))]
  }

  /**
   * An execution ends, other steps follow, the process crashes, and anything follows: the id never executes again,
   * and whenever a process has loaded the file a retry is answered with the receipt's frames exactly when a write
   * begun since the execution ended had succeeded, and refused otherwise. The one exception is a stored failure
   * that the legacy rule names, once it has been erased.
   */
  lemma CrashReplaysExactlyWhenStored(s: State, before: seq<Event>, id: RequestId, now: int, since: seq<Event>,
                                      later: seq<Event>, action: string)
    requires Init(s) && Runs(s, before) && Enabled(After(s, before), Finish(id, now))
    requires Runs(FinishStep(After(s, before), id, now), since) && CrashFree(since)
    requires Runs(CrashStep(After(FinishStep(After(s, before), id, now), since)), later)
    requires SomeWriteSucceeds(since, false) && Prunable(id, ReceiptOf(After(s, before), id, now)) ==>
      Count(After(CrashStep(After(FinishStep(After(s, before), id, now), since)), later).prunes, id)
        == Count(After(s, before).prunes, id)
    ensures var receipt := ReceiptOf(After(s, before), id, now);
      var s' := After(CrashStep(After(FinishStep(After(s, before), id, now), since)), later);
      && Count(s'.execs, id) == Count(After(s, before).execs, id)
      && (s'.cache.Some? ==>
            DeliverStep(s', id, receipt.fingerprint, action) ==
              s'.(sent := s'.sent + RetryAnswer(id, receipt, SomeWriteSucceeds(since, false), action)))
  {
    var done := After(s, before);
    var receipt := ReceiptOf(done, id, now);
    var settling := FinishStep(done, id, now);
    var crashed := CrashStep(After(settling, since));
    FileHoldsReceiptExactlyWhenStored(s, before, id, now, since);
    InitInv(s);
    RunInv(s, before);
    StepInv(done, Finish(id, now));
    RunInv(settling, since);
    CompletedWithinProcess(settling, since, id, receipt);
    CompletedIsNotErased(settling, since, id, receipt);
    CrashSettles(After(settling, since), id);
    CrashKeeps(After(settling, since));
    if !(SomeWriteSucceeds(since, false) && Prunable(id, receipt)) {
      NeverErased(crashed, later, id, Contents(crashed.disk)[id]);
    }
    CompletedThroughCrash(After(settling, since), later, id, receipt, receipt.fingerprint, action);
  }

  /** The same in the words of the program: a successful second persist means that retries are answered. */
  lemma PersistedIsReplayed(s: State, before: seq<Event>, id: RequestId, now: int, since: seq<Event>,
                            later: seq<Event>, action: string)
    requires Init(s) && Runs(s, before) && Enabled(After(s, before), Finish(id, now))
    requires Runs(FinishStep(After(s, before), id, now), since) && CrashFree(since)
    requires Runs(CrashStep(After(FinishStep(After(s, before), id, now), since)), later)
    requires OwnWriteSucceeds(FinishStep(After(s, before), id, now), since, id)
    requires !Prunable(id, ReceiptOf(After(s, before), id, now))
    ensures var receipt := ReceiptOf(After(s, before), id, now);
      var s' := After(CrashStep(After(FinishStep(After(s, before), id, now), since)), later);
      && Count(s'.execs, id) == Count(After(s, before).execs, id)
      && (s'.cache.Some? ==>
            DeliverStep(s', id, receipt.fingerprint, action) == s'.(sent := s'.sent + Tagged(id, receipt.frames)))
  {
    SecondPersistStores(s, before, id, now, since);
    CrashReplaysExactlyWhenStored(s, before, id, now, since, later, action);
  }
}
