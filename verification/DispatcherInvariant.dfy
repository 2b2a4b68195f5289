/** What every step of the dispatcher keeps. */
module DispatcherInvariant {
  import opened Options
  import opened Frames
  import opened Receipts
  import opened Dispatcher

  /** The claim of `id` is not durable: it is still being written, or that write failed. */
  predicate Unsettled(s: State, id: RequestId) {
    InPhase(s, id, Claiming(None)) || InPhase(s, id, Claiming(Some(false)))
  }

  predicate IsClaiming(s: State, id: RequestId) {
    id in s.flights && s.flights[id].phase.Claiming?
  }

  /** A stored receipt matches a cached one when it is that receipt or the claim it grew from. */
  predicate Matches(stored: Receipt, cached: Receipt) {
    || stored == cached
    || (cached.status == Complete && stored.status == Running && stored.fingerprint == cached.fingerprint)
  }

  predicate Holds(receipts: Cache, id: RequestId, cached: Receipt) {
    id in receipts && Matches(receipts[id], cached)
  }

  predicate Awaiting(phase: Phase) {
    phase == Claiming(None) || phase == Settling(None)
  }

  predicate FlightOk(flight: Flight, id: RequestId, cache: Cache) {
    match flight.phase
    case Claiming(_) => id in cache && cache[id] == Claim(flight.fingerprint)
    case Executing => id in cache && cache[id] == Claim(flight.fingerprint)
    case Settling(_) => id in cache && cache[id].status == Complete && cache[id].fingerprint == flight.fingerprint
    case Leaving => id in cache ==> cache[id].status == Complete
  }

  /** An id that may still be executed has been erased from the file as often as it was executed. */
  predicate Unspent(s: State, id: RequestId) {
    Count(s.execs, id) <= Count(s.prunes, id)
  }

  /** The owner of a call awaits exactly one queued write, and captures frames exactly while executing. */
  predicate FlightsOk(s: State, id: RequestId) {
    && (id in s.writes <==> id in s.flights && Awaiting(s.flights[id].phase))
    && (id in s.captures <==> InPhase(s, id, Executing))
    && (s.cache.Some? && id in s.flights ==> FlightOk(s.flights[id], id, s.cache.value))
  }

  /** A settled receipt in memory is also in the file, and in the next version of the file. */
  predicate DurableOk(s: State, id: RequestId) {
    s.cache.Some? && id in s.cache.value ==>
      && (Unsettled(s, id) || Holds(Contents(s.disk), id, s.cache.value[id]))
      && (s.snapshot.Some? && s.writes != [] && !(Unsettled(s, id) && id != s.writes[0]) ==>
            Holds(s.snapshot.value, id, s.cache.value[id]))
  }

  predicate SpendingOk(s: State, id: RequestId) {
    && Count(s.execs, id) <= Count(s.prunes, id) + 1
    && (id !in Contents(s.disk) ==> Unspent(s, id))
    && (s.cache.Some? && (id !in s.cache.value || IsClaiming(s, id)) ==> Unspent(s, id))
    && (Count(s.prunes, id) > 0 ==> IsRecoveryId(id))
  }

  predicate IdOk(s: State, id: RequestId) {
    FlightsOk(s, id) && DurableOk(s, id) && SpendingOk(s, id)
  }

  /** Only a process that has loaded its cache has anything in memory, and each id awaits one write. */
  ghost predicate MemoryOk(s: State) {
    && (s.cache.None? ==> s.writes == [] && s.flights == map[] && s.captures == map[] && s.snapshot.None?)
    && (s.cache.Some? ==> s.loading.None?)
    && (s.snapshot.Some? ==> s.writes != [])
    && (s.loading.Some? && s.loading.value.written ==> s.disk == Stored(s.loading.value.result))
    && (s.loading.Some? && !s.loading.value.written ==> s.loading.value.result == Kept(Contents(s.disk)))
    && (forall i, j | 0 <= i < j < |s.writes| :: s.writes[i] != s.writes[j])
  }

  ghost predicate Inv(s: State) {
    MemoryOk(s) && forall id :: IdOk(s, id)
  }

  lemma InitInv(s: State)
    requires Init(s)
    ensures Inv(s)
  {
    forall k ensures IdOk(s, k) {}
  }

  /** The invariant does not look at frames. */
  lemma FramesDoNotMatter(s: State, s': State)
    requires Inv(s)
    requires s' == s.(captures := s'.captures, sent := s'.sent, produced := s'.produced)
    requires s'.captures.Keys == s.captures.Keys
    ensures Inv(s')
  {
    assert s.captures == map[] ==> s'.captures == map[];
    forall k ensures IdOk(s', k) {
      assert IdOk(s, k);
      assert k in s'.captures <==> k in s.captures;
    }
  }

  lemma SendKeeps(s: State, id: RequestId, frame: Frame)
    requires Inv(s)
    ensures Inv(SendActionFrame(s, id, frame))
  {
    var s' := SendActionFrame(s, id, frame);
    assert s'.captures.Keys == s.captures.Keys;
    FramesDoNotMatter(s, s');
  }

  lemma KeptIsPart(receipts: Cache, id: RequestId)
    ensures id in Kept(receipts) ==> id in receipts && receipts[id] == Kept(receipts)[id]
    ensures id in receipts && id !in Kept(receipts) ==> IsRecoveryId(id)
  {
  }

  lemma LoadKeeps(s: State)
    requires Inv(s) && Enabled(s, StartLoad)
    ensures Inv(StartLoadStep(s))
  {
    var s' := StartLoadStep(s);
    forall k ensures IdOk(s', k) {
      assert IdOk(s, k);
    }
  }

  lemma EndPruneKeeps(s: State, ok: bool)
    requires Inv(s) && Enabled(s, EndPrune(ok))
    ensures Inv(EndPruneStep(s, ok))
  {
    var s' := EndPruneStep(s, ok);
    forall k ensures IdOk(s', k) {
      assert IdOk(s, k);
      KeptIsPart(Contents(s.disk), k);
    }
  }

  lemma InstallLoadKeeps(s: State)
    requires Inv(s) && Enabled(s, InstallLoad)
    ensures Inv(Apply(s, InstallLoad))
  {
    var s' := Apply(s, InstallLoad);
    forall k ensures IdOk(s', k) {
      assert IdOk(s, k);
    }
  }

  lemma ClaimKeeps(s: State, id: RequestId, fingerprint: Fingerprint, action: string)
    requires Inv(s) && s.cache.Some? && id !in s.cache.value && id !in s.flights
    ensures Inv(DeliverStep(s, id, fingerprint, action))
  {
    var s' := DeliverStep(s, id, fingerprint, action);
    assert IdOk(s, id);
    forall k ensures IdOk(s', k) {
      assert IdOk(s, k);
    }
  }

  lemma DeliverKeeps(s: State, id: RequestId, fingerprint: Fingerprint, action: string)
    requires Inv(s) && s.cache.Some?
    ensures Inv(DeliverStep(s, id, fingerprint, action))
  {
    if id in s.cache.value {
      if s.cache.value[id].fingerprint != fingerprint {
        SendKeeps(s, id, Refusal(BoundToOtherPayload, action));
      } else if s.cache.value[id].status == Running {
        SendKeeps(s, id, Refusal(MayHaveCompleted, action));
      } else {
        var s' := DeliverStep(s, id, fingerprint, action);
        forall k ensures IdOk(s', k) {
          assert IdOk(s, k);
        }
      }
    } else if id in s.flights {
      if s.flights[id].fingerprint != fingerprint {
        SendKeeps(s, id, Refusal(ExecutingOtherPayload, action));
      }
    } else {
      ClaimKeeps(s, id, fingerprint, action);
    }
  }

  lemma BeginWriteKeeps(s: State)
    requires Inv(s) && Enabled(s, BeginWrite)
    ensures Inv(Apply(s, BeginWrite))
  {
    var s' := Apply(s, BeginWrite);
    forall k ensures IdOk(s', k) {
      assert IdOk(s, k);
    }
  }

  lemma EndWriteKeeps(s: State, ok: bool)
    requires Inv(s) && Enabled(s, EndWrite(ok))
    ensures Inv(EndWriteStep(s, ok))
  {
    var s' := EndWriteStep(s, ok);
    var owner := s.writes[0];
    assert owner in s.writes;
    assert IdOk(s, owner);
    forall k ensures IdOk(s', k) {
      assert IdOk(s, k);
      assert k in s.writes <==> k == owner || k in s'.writes;
    }
  }

  lemma StartExecutingKeeps(s: State, id: RequestId)
    requires Inv(s) && Enabled(s, ResumeClaim(id)) && s.flights[id].phase.persisted.value
    ensures Inv(ResumeClaimStep(s, id))
  {
    var s' := ResumeClaimStep(s, id);
    forall k ensures IdOk(s', k) {
      assert IdOk(s, k);
    }
  }

  lemma DropClaimKeeps(s: State, id: RequestId)
    requires Inv(s) && Enabled(s, ResumeClaim(id)) && !s.flights[id].phase.persisted.value
    ensures Inv(ResumeClaimStep(s, id))
  {
    var s' := WithPhase(s, id, Leaving).(cache := Some(s.cache.value - {id}));
    forall k ensures IdOk(s', k) {
      assert IdOk(s, k);
    }
    SendKeeps(s', id, Refusal(StorageUnavailable, s.flights[id].action));
  }

  lemma FinishKeeps(s: State, id: RequestId, now: int)
    requires Inv(s) && Enabled(s, Finish(id, now))
    ensures Inv(FinishStep(s, id, now))
  {
    var s' := FinishStep(s, id, now);
    assert IdOk(s, id);
    forall k ensures IdOk(s', k) {
      assert IdOk(s, k);
    }
  }

  lemma ReplyKeeps(s: State, id: RequestId)
    requires Inv(s) && Enabled(s, Reply(id))
    ensures Inv(Apply(s, Reply(id)))
  {
    var s' := Apply(s, Reply(id));
    forall k ensures IdOk(s', k) {
      assert IdOk(s, k);
    }
  }

  lemma LeaveKeeps(s: State, id: RequestId)
    requires Inv(s) && Enabled(s, Leave(id))
    ensures Inv(Apply(s, Leave(id)))
  {
    var s' := Apply(s, Leave(id));
    forall k ensures IdOk(s', k) {
      assert IdOk(s, k);
    }
  }

  lemma CrashKeeps(s: State)
    requires Inv(s)
    ensures Inv(CrashStep(s))
  {
    forall k ensures IdOk(CrashStep(s), k) {
      assert IdOk(s, k);
    }
  }

  lemma EmitKeeps(s: State, id: RequestId, frame: Frame)
    requires Inv(s) && Enabled(s, Emit(id, frame))
    ensures Inv(Apply(s, Emit(id, frame)))
  {
    SendKeeps(s, id, frame);
    FramesDoNotMatter(SendActionFrame(s, id, frame), Apply(s, Emit(id, frame)));
  }

  /** Every step keeps the invariant. */
  lemma StepInv(s: State, e: Event)
    requires Inv(s) && Enabled(s, e)
    ensures Inv(Apply(s, e))
  {
    match e
    case RefuseNotConnected(id, action) =>
      SendKeeps(s, id, Refusal(NotConnected, action));
      SendKeeps(SendActionFrame(s, id, Refusal(NotConnected, action)), id, RefusalError(NotConnected, action));
    case RefuseUnreadable(id, action) => SendKeeps(s, id, Refusal(StorageUnreadable, action));
    case StartLoad => LoadKeeps(s);
    case EndPrune(ok) => EndPruneKeeps(s, ok);
    case InstallLoad => InstallLoadKeeps(s);
    case Deliver(id, fingerprint, action) => DeliverKeeps(s, id, fingerprint, action);
    case BeginWrite => BeginWriteKeeps(s);
    case EndWrite(ok) => EndWriteKeeps(s, ok);
    case ResumeClaim(id) =>
      if s.flights[id].phase.persisted.value {
        StartExecutingKeeps(s, id);
      } else {
        DropClaimKeeps(s, id);
      }
    case Emit(id, frame) => EmitKeeps(s, id, frame);
    case Finish(id, now) => FinishKeeps(s, id, now);
    case Reply(id) => ReplyKeeps(s, id);
    case Leave(id) => LeaveKeeps(s, id);
    case Crash => CrashKeeps(s);
  }

  /** The invariant holds after every run. */
  lemma {:induction false} RunInv(s: State, events: seq<Event>)
    requires Inv(s) && Runs(s, events)
    ensures Inv(After(s, events))
    decreases |events|
  {
    if events != [] {
      StepInv(s, events[0]);
      RunInv(Apply(s, events[0]), events[1..]);
    }
  }
}
