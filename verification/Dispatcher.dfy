/**
 * The action dispatcher of one account as a step system. A step is what runs between two awaits of
 * `dispatchAction`, `loadReceiptCache` or `persistReceiptCache`; any interleaving of steps is a run.
 */
module Dispatcher {
  import opened Options
  import opened Frames
  import opened Receipts

  // ----- state -----

  /** The receipt file as the dispatcher sees it. */
  datatype Disk = Absent | Unreadable | Stored(receipts: Cache)

  /** Where the call that owns an in-flight id stands; `persisted` is the outcome of the awaited write. */
  datatype Phase =
    | Claiming(persisted: Option<bool>)
    | Executing
    | Settling(persisted: Option<bool>)
    | Leaving

  datatype Flight = Flight(fingerprint: Fingerprint, action: string, phase: Phase)

  /** A load that found receipts to discard and rewrites the file before it installs its result. */
  datatype Loading = Loading(result: Cache, written: bool)

  datatype State = State(
    disk: Disk,
    cache: Option<Cache>,                      // receiptCaches
    loading: Option<Loading>,                  // receiptLoads
    writes: seq<RequestId>,                    // receiptWrites: whose persist is queued, oldest first
    snapshot: Option<Cache>,                   // what the oldest persist has already serialized
    flights: map<RequestId, Flight>,           // inFlightActions
    captures: map<RequestId, seq<Frame>>,      // actionCaptures
    sent: seq<(RequestId, Frame)>,             // frames handed to sendReliableToClient
    // history, read by no step
    execs: map<RequestId, nat>,                // how often each id started to execute
    prunes: map<RequestId, nat>,               // how often the legacy rule erased each id from the file
    produced: set<(RequestId, Frame)>)         // frames emitted by executions, in this run or before it

  function Count(counts: map<RequestId, nat>, id: RequestId): nat {
    if id in counts then counts[id] else 0
  }

  function Bump(counts: map<RequestId, nat>, id: RequestId): map<RequestId, nat> {
    counts[id := Count(counts, id) + 1]
  }

  function BumpAll(counts: map<RequestId, nat>, ids: set<RequestId>): map<RequestId, nat> {
    map id | id in counts.Keys + ids :: Count(counts, id) + if id in ids then 1 else 0
  }

  function Contents(disk: Disk): Cache {
    if disk.Stored? then disk.receipts else map[]
  }

  ghost predicate FramesOf(receipts: Cache, produced: set<(RequestId, Frame)>) {
    forall id, i | id in receipts && 0 <= i < |receipts[id].frames| :: (id, receipts[id].frames[i]) in produced
  }

  /** A process starts on any file; the frames of its receipts were produced by earlier processes. */
  ghost predicate Init(s: State) {
    && s.cache.None? && s.loading.None? && s.snapshot.None?
    && s.writes == [] && s.flights == map[] && s.captures == map[] && s.sent == []
    && s.execs == map[] && s.prunes == map[]
    && FramesOf(Contents(s.disk), s.produced)
  }

  // ----- steps -----

  datatype Event =
    | RefuseNotConnected(id: RequestId, action: string)
    | RefuseUnreadable(id: RequestId, action: string)
    | StartLoad
    | EndPrune(ok: bool)
    | InstallLoad
    | Deliver(id: RequestId, fingerprint: Fingerprint, action: string)
    | BeginWrite
    | EndWrite(ok: bool)
    | ResumeClaim(id: RequestId)
    | Emit(id: RequestId, frame: Frame)
    | Finish(id: RequestId, now: int)
    | Reply(id: RequestId)
    | Leave(id: RequestId)
    | Crash

  /** `sendActionFrame`: into the capture of this id when one is open, otherwise to the client. */
  function SendActionFrame(s: State, id: RequestId, frame: Frame): State {
    if id in s.captures then s.(captures := s.captures[id := s.captures[id] + [frame]])
    else s.(sent := s.sent + [(id, frame)])
  }

  function Tagged(id: RequestId, frames: seq<Frame>): seq<(RequestId, Frame)> {
    seq(|frames|, i requires 0 <= i < |frames| => (id, frames[i]))
  }

  function Claim(fingerprint: Fingerprint): Receipt {
    Receipt(fingerprint, [], 0, Running)
  }

  function InPhase(s: State, id: RequestId, phase: Phase): bool {
    id in s.flights && s.flights[id].phase == phase
  }

  function WithPhase(s: State, id: RequestId, phase: Phase): State
    requires id in s.flights
  {
    s.(flights := s.flights[id := s.flights[id].(phase := phase)])
  }

  function StartLoadStep(s: State): State {
    var found := Contents(s.disk);
    if Kept(found) == found then s.(cache := Some(found))
    else s.(loading := Some(Loading(Kept(found), false)))
  }

  function EndPruneStep(s: State, ok: bool): State
    requires s.loading.Some?
  {
    if ok then
      var result := s.loading.value.result;
      s.(disk := Stored(result), loading := Some(Loading(result, true)),
         prunes := BumpAll(s.prunes, Contents(s.disk).Keys - result.Keys))
    else s.(loading := None)
  }

  function DeliverStep(s: State, id: RequestId, fingerprint: Fingerprint, action: string): State
    requires s.cache.Some?
  {
    var cache := s.cache.value;
    if id in cache then
      var receipt := cache[id];
      if receipt.fingerprint != fingerprint then SendActionFrame(s, id, Refusal(BoundToOtherPayload, action))
      else if receipt.status == Running then SendActionFrame(s, id, Refusal(MayHaveCompleted, action))
      else s.(sent := s.sent + Tagged(id, receipt.frames))
    else if id in s.flights then
      if s.flights[id].fingerprint != fingerprint
      then SendActionFrame(s, id, Refusal(ExecutingOtherPayload, action))
      else s
    else
      s.(cache := Some(cache[id := Claim(fingerprint)]),
         writes := s.writes + [id],
         flights := s.flights[id := Flight(fingerprint, action, Claiming(None))])
  }

  /** The owner of a finished write learns its outcome. */
  function Told(flight: Flight, ok: bool): Flight {
    match flight.phase
    case Claiming(_) => flight.(phase := Claiming(Some(ok)))
    case Settling(_) => flight.(phase := Settling(Some(ok)))
    case _ => flight
  }

  function EndWriteStep(s: State, ok: bool): State
    requires s.writes != [] && (ok ==> s.snapshot.Some?)
  {
    var owner := s.writes[0];
    s.(disk := if ok then Stored(s.snapshot.value) else s.disk,
       writes := s.writes[1..],
       snapshot := None,
       flights := if owner in s.flights then s.flights[owner := Told(s.flights[owner], ok)] else s.flights)
  }

  function ResumeClaimStep(s: State, id: RequestId): State
    requires s.cache.Some? && id in s.flights
    requires s.flights[id].phase.Claiming? && s.flights[id].phase.persisted.Some?
  {
    if s.flights[id].phase.persisted.value then
      WithPhase(s, id, Executing).(captures := s.captures[id := []], execs := Bump(s.execs, id))
    else
      SendActionFrame(
        WithPhase(s, id, Leaving).(cache := Some(s.cache.value - {id})),
        id, Refusal(StorageUnavailable, s.flights[id].action))
  }

  function FinishStep(s: State, id: RequestId, now: int): State
    requires s.cache.Some? && id in s.flights && id in s.captures
  {
    var receipt := Receipt(s.flights[id].fingerprint, s.captures[id], now, Complete);
    WithPhase(s, id, Settling(None)).(
      captures := s.captures - {id},
      cache := Some(s.cache.value[id := receipt]),
      writes := s.writes + [id])
  }

  /** A crash loses the memory of the process and nothing else. */
  function CrashStep(s: State): State {
    s.(cache := None, loading := None, writes := [], snapshot := None, flights := map[], captures := map[])
  }

  predicate Enabled(s: State, e: Event) {
    match e
    case RefuseNotConnected(_, _) => true
    case RefuseUnreadable(_, _) => s.cache.None?
    case StartLoad => s.cache.None? && s.loading.None? && !s.disk.Unreadable?
    case EndPrune(_) => s.loading.Some? && !s.loading.value.written
    case InstallLoad => s.loading.Some? && s.loading.value.written
    case Deliver(_, _, _) => s.cache.Some?
    case BeginWrite => s.cache.Some? && s.writes != [] && s.snapshot.None?
    case EndWrite(ok) => s.writes != [] && (ok ==> s.snapshot.Some?)
    case ResumeClaim(id) =>
      && s.cache.Some? && id in s.flights
      && s.flights[id].phase.Claiming? && s.flights[id].phase.persisted.Some?
    case Emit(id, _) => InPhase(s, id, Executing)
    case Finish(id, _) => s.cache.Some? && InPhase(s, id, Executing) && id in s.captures
    case Reply(id) =>
      && s.cache.Some? && id in s.cache.value && id in s.flights
      && s.flights[id].phase.Settling? && s.flights[id].phase.persisted.Some?
    case Leave(id) => InPhase(s, id, Leaving)
    case Crash => true
  }

  function Apply(s: State, e: Event): State
    requires Enabled(s, e)
  {
    match e
    case RefuseNotConnected(id, action) =>
      SendActionFrame(SendActionFrame(s, id, Refusal(NotConnected, action)), id, RefusalError(NotConnected, action))
    case RefuseUnreadable(id, action) => SendActionFrame(s, id, Refusal(StorageUnreadable, action))
    case StartLoad => StartLoadStep(s)
    case EndPrune(ok) => EndPruneStep(s, ok)
    case InstallLoad => s.(cache := Some(s.loading.value.result), loading := None)
    case Deliver(id, fingerprint, action) => DeliverStep(s, id, fingerprint, action)
    case BeginWrite => s.(snapshot := s.cache)
    case EndWrite(ok) => EndWriteStep(s, ok)
    case ResumeClaim(id) => ResumeClaimStep(s, id)
    case Emit(id, frame) => SendActionFrame(s, id, frame).(produced := s.produced + {(id, frame)})
    case Finish(id, now) => FinishStep(s, id, now)
    case Reply(id) =>
      WithPhase(s, id, Leaving).(sent := s.sent + Tagged(id, s.cache.value[id].frames))
    case Leave(id) => s.(flights := s.flights - {id})
    case Crash => CrashStep(s)
  }

  // ----- runs -----

  predicate Runs(s: State, events: seq<Event>)
    decreases |events|
  {
    events == [] || (Enabled(s, events[0]) && Runs(Apply(s, events[0]), events[1..]))
  }

  function After(s: State, events: seq<Event>): State
    requires Runs(s, events)
    decreases |events|
  {
    if events == [] then s else After(Apply(s, events[0]), events[1..])
  }
}
