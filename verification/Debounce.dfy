/**
 * The debounce of one chat as a timed step system. A step is what runs between two awaits of `dispatch_incoming`,
 * `flush_pending` or the hybrid interrupt; the chat's lock is never held across an await. Time passes only while no
 * task of the chat is ready to run.
 */
module Debounce {
  import opened Options

  datatype ChatMode = Auto | Prefix | Hybrid

  /** `hits` are the prefix triggers the text would match. */
  datatype Payload = Payload(body: string, isPrivate: bool, hits: set<string>)

  datatype Timing = Timing(debounce: real, burstMax: real)

  datatype Worker =
    | Idle                                        // no task, or a finished one
    | Ready                                       // about to look at the pending payloads
    | Waiting(deadline: real, skipped: bool)      // `skipped`: told not to debounce
    | Processing(batch: seq<Payload>, routing: bool)

  /** A batch taken by the worker: when its burst started, when a worker was last free, when it was taken. */
  datatype Take = Take(start: Option<real>, free: real, at: real, batch: seq<Payload>)

  datatype State = State(
    clock: real,
    payloads: seq<Payload>,
    burstStartedAt: Option<real>,
    lastEventAt: Option<real>,
    wake: bool,
    interrupt: bool,
    worker: Worker,
    // history, read by no step
    freeAt: real,                       // when a worker last became available
    raised: bool,                       // processing raised, and nothing arrived since
    accepted: seq<Payload>,
    handled: seq<seq<Payload>>,         // the batches processed so far
    takes: seq<Take>)

  predicate Init(s: State) {
    && s.clock >= 0.0 && s.payloads == [] && s.burstStartedAt.None? && s.lastEventAt.None?
    && s.worker == Idle && !s.raised && s.accepted == [] && s.handled == [] && s.takes == []
  }

  datatype Event =
    | Arrive(payload: Payload, mode: ChatMode, triggers: set<string>)
    | Arm(mode: ChatMode, triggers: set<string>)
    | Wake
    | Expire
    | StartRouting
    | Drain
    | EndRouting
    | Finish
    | Raise
    | Tick(until: real)

  predicate Matches(p: Payload, triggers: set<string>) {
    p.hits * triggers != {}
  }

  predicate SomeMatches(payloads: seq<Payload>, triggers: set<string>) {
    payloads != [] && (Matches(payloads[0], triggers) || SomeMatches(payloads[1..], triggers))
  }

  predicate SkipsDebounce(payloads: seq<Payload>, mode: ChatMode, triggers: set<string>)
    requires payloads != []
  {
    payloads[|payloads| - 1].isPrivate || (!mode.Auto? && SomeMatches(payloads, triggers))
  }

  /** Python's `reading or now`: a clock reading of zero counts as no reading. */
  function Or(reading: Option<real>, now: real): real {
    if reading.None? || reading.value == 0.0 then now else reading.value
  }

  function Max(a: real, b: real): real {
    if a < b then b else a
  }

  function Min(a: real, b: real): real {
    if a < b then a else b
  }

  function Deadline(s: State, t: Timing): real {
    Max(s.clock, Min(Or(s.lastEventAt, s.clock) + t.debounce, Or(s.burstStartedAt, s.clock) + t.burstMax))
  }

  function ArriveStep(s: State, p: Payload, mode: ChatMode, triggers: set<string>): State {
    var unserved := s.worker.Idle?;
    s.(payloads := s.payloads + [p],
       burstStartedAt := if s.burstStartedAt.None? then Some(s.clock) else s.burstStartedAt,
       lastEventAt := Some(s.clock),
       interrupt := s.interrupt || (mode.Hybrid? && Matches(p, triggers)),
       worker := if unserved then Ready else s.worker,
       wake := s.wake || !unserved,
       freeAt := if unserved then s.clock else s.freeAt,
       raised := false,
       accepted := s.accepted + [p])
  }

  function ArmStep(s: State, mode: ChatMode, triggers: set<string>, t: Timing): State {
    if s.payloads == [] then s.(worker := Idle)
    else if SkipsDebounce(s.payloads, mode, triggers) then s.(worker := Waiting(s.clock, true), wake := false)
    else s.(worker := Waiting(Deadline(s, t), false), wake := false)
  }

  function Emptied(s: State): State {
    s.(payloads := [], burstStartedAt := None, lastEventAt := None)
  }

  function ExpireStep(s: State): State {
    if s.payloads == [] then Emptied(s).(worker := Ready)
    else Emptied(s).(
      worker := Processing(s.payloads, false),
      takes := s.takes + [Take(s.burstStartedAt, s.freeAt, s.clock, s.payloads)])
  }

  function DrainStep(s: State): State
    requires s.worker.Processing?
  {
    Emptied(s).(interrupt := false, worker := Processing(s.worker.batch + s.payloads, false))
  }

  predicate Enabled(s: State, e: Event) {
    match e
    case Arrive(_, _, _) => true
    case Arm(_, _) => s.worker.Ready?
    case Wake => s.worker.Waiting? && s.wake
    case Expire => s.worker.Waiting? && s.clock >= s.worker.deadline
    case StartRouting => s.worker.Processing? && !s.worker.routing
    case Drain => s.worker.Processing? && s.worker.routing && s.interrupt
    case EndRouting => s.worker.Processing? && s.worker.routing
    case Finish => s.worker.Processing?
    case Raise => s.worker.Processing?
    case Tick(until) =>
      && s.clock <= until
      && match s.worker
         case Idle => true
         case Ready => false
         case Waiting(deadline, _) => !s.wake && until <= deadline
         case Processing(_, _) => true
  }

  function Apply(s: State, e: Event, t: Timing): State
    requires Enabled(s, e)
  {
    match e
    case Arrive(p, mode, triggers) => ArriveStep(s, p, mode, triggers)
    case Arm(mode, triggers) => ArmStep(s, mode, triggers, t)
    case Wake => s.(worker := Ready)
    case Expire => ExpireStep(s)
    case StartRouting => s.(interrupt := false, worker := s.worker.(routing := true))
    case Drain => DrainStep(s)
    case EndRouting => s.(worker := s.worker.(routing := false))
    case Finish => s.(worker := Ready, freeAt := s.clock, handled := s.handled + [s.worker.batch])
    case Raise => s.(worker := Idle, raised := true, handled := s.handled + [s.worker.batch])
    case Tick(until) => s.(clock := until)
  }

  predicate Runs(s: State, events: seq<Event>, t: Timing)
    decreases |events|
  {
    events == [] || (Enabled(s, events[0]) && Runs(Apply(s, events[0], t), events[1..], t))
  }

  function After(s: State, events: seq<Event>, t: Timing): State
    requires Runs(s, events, t)
    decreases |events|
  {
    if events == [] then s else After(Apply(s, events[0], t), events[1..], t)
  }

  // ----- what every step keeps -----

  function Concat(batches: seq<seq<Payload>>): seq<Payload> {
    if batches == [] then [] else Concat(batches[..|batches| - 1]) + batches[|batches| - 1]
  }

  function InHand(s: State): seq<Payload> {
    if s.worker.Processing? then s.worker.batch else []
  }

  /** Every accepted payload is in one processed batch, in the batch in hand, or pending, in order of arrival. */
  predicate Conserved(s: State) {
    s.accepted == Concat(s.handled) + InHand(s) + s.payloads
  }

  predicate BurstOk(s: State) {
    && s.clock >= 0.0
    && (s.burstStartedAt.Some? <==> s.payloads != [])
    && (s.lastEventAt.Some? <==> s.payloads != [])
    && (s.payloads != [] ==> 0.0 <= s.burstStartedAt.value <= s.lastEventAt.value <= s.clock)
  }

  /** Pending payloads have a worker, unless processing raised and nothing has arrived since. */
  predicate WorkerOk(s: State) {
    && (s.worker.Idle? && s.payloads != [] ==> s.raised)
    && (s.worker.Waiting? ==> s.payloads != [])
    && (s.worker.Processing? ==> s.worker.batch != [])
    && (s.worker.Processing? && s.worker.routing && s.interrupt ==> s.payloads != [])
  }

  /** The latest a burst may be taken. */
  function Latest(start: real, free: real, t: Timing): real {
    Max(free, start + t.burstMax)
  }

  predicate Overdue(s: State, t: Timing, time: real)
    requires s.burstStartedAt.Some?
  {
    s.burstStartedAt.value != 0.0 && time > Latest(s.burstStartedAt.value, s.freeAt, t)
  }

  predicate TimeOk(s: State, t: Timing) {
    && ((s.worker.Ready? || s.worker.Waiting?) && s.burstStartedAt.Some? ==> !Overdue(s, t, s.clock))
    && (s.worker.Waiting? && s.burstStartedAt.Some? ==> !Overdue(s, t, s.worker.deadline))
    && (s.worker.Waiting? && !s.wake ==> s.clock <= s.worker.deadline)
    && (s.worker.Waiting? && !s.worker.skipped && !s.wake && s.lastEventAt.Some? && s.burstStartedAt.Some? ==>
          s.worker.deadline >= Min(s.lastEventAt.value + t.debounce, s.burstStartedAt.value + t.burstMax))
  }

  predicate Inv(s: State, t: Timing) {
    BurstOk(s) && WorkerOk(s) && TimeOk(s, t) && Conserved(s)
  }

  lemma ConcatSnoc(batches: seq<seq<Payload>>, batch: seq<Payload>)
    ensures Concat(batches + [batch]) == Concat(batches) + batch
  {
    assert (batches + [batch])[..|batches|] == batches;
  }

  lemma Regroup(a: seq<Payload>, b: seq<Payload>, c: seq<Payload>)
    ensures a + b + c == a + (b + c) && a + [] + c == a + c && a + c + [] == a + c
  {
  }

  lemma ArriveConserves(s: State, p: Payload, mode: ChatMode, triggers: set<string>)
    requires Conserved(s)
    ensures Conserved(ArriveStep(s, p, mode, triggers))
  {
    assert InHand(ArriveStep(s, p, mode, triggers)) == InHand(s);
    Regroup(Concat(s.handled) + InHand(s), s.payloads, [p]);
  }

  lemma ExpireConserves(s: State)
    requires Conserved(s) && s.worker.Waiting?
    ensures Conserved(ExpireStep(s))
  {
    Regroup(Concat(s.handled), [], s.payloads);
  }

  lemma DrainConserves(s: State)
    requires Conserved(s) && s.worker.Processing?
    ensures Conserved(DrainStep(s))
  {
    Regroup(Concat(s.handled), s.worker.batch, s.payloads);
    Regroup(Concat(s.handled), [], s.worker.batch + s.payloads);
  }

  lemma EndConserves(s: State, e: Event, t: Timing)
    requires Conserved(s) && Enabled(s, e) && (e.Finish? || e.Raise?)
    ensures Conserved(Apply(s, e, t))
  {
    ConcatSnoc(s.handled, s.worker.batch);
    Regroup(Concat(s.handled) + s.worker.batch, [], s.payloads);
  }

  lemma ConservedKeeps(s: State, e: Event, t: Timing)
    requires Conserved(s) && Enabled(s, e)
    ensures Conserved(Apply(s, e, t))
  {
    match e
    case Arrive(p, mode, triggers) => ArriveConserves(s, p, mode, triggers);
    case Expire => ExpireConserves(s);
    case Drain => DrainConserves(s);
    case Finish => EndConserves(s, e, t);
    case Raise => EndConserves(s, e, t);
    case _ => QuietConserves(s, e, t);
  }

  lemma QuietConserves(s: State, e: Event, t: Timing)
    requires Conserved(s) && Enabled(s, e) && (e.Arm? || e.Wake? || e.StartRouting? || e.EndRouting? || e.Tick?)
    ensures Conserved(Apply(s, e, t))
  {
    var s' := Apply(s, e, t);
    assert InHand(s') == InHand(s) && s'.payloads == s.payloads && s'.handled == s.handled && s'.accepted == s.accepted;
  }

  lemma TimeKeeps(s: State, e: Event, t: Timing)
    requires BurstOk(s) && WorkerOk(s) && TimeOk(s, t) && Enabled(s, e) && t.debounce > 0.0 && t.burstMax > 0.0
    ensures TimeOk(Apply(s, e, t), t)
  {
  }

  lemma BurstKeeps(s: State, e: Event, t: Timing)
    requires BurstOk(s) && Enabled(s, e)
    ensures BurstOk(Apply(s, e, t))
  {
  }

  lemma WorkerKeeps(s: State, e: Event, t: Timing)
    requires WorkerOk(s) && Enabled(s, e)
    ensures WorkerOk(Apply(s, e, t))
  {
  }

  lemma StepInv(s: State, e: Event, t: Timing)
    requires Inv(s, t) && Enabled(s, e) && t.debounce > 0.0 && t.burstMax > 0.0
    ensures Inv(Apply(s, e, t), t)
  {
    BurstKeeps(s, e, t);
    WorkerKeeps(s, e, t);
    ConservedKeeps(s, e, t);
    TimeKeeps(s, e, t);
  }

  // ----- theorems over every run -----

  /** Each batch was non-empty and taken by the time its burst or the worker allowed, unless its burst began at 0. */
  predicate TakesOk(takes: seq<Take>, t: Timing) {
    forall i | 0 <= i < |takes| ::
      && takes[i].batch != [] && takes[i].start.Some?
      && (takes[i].start.value != 0.0 ==> takes[i].at <= Latest(takes[i].start.value, takes[i].free, t))
  }

  predicate Sound(s: State, t: Timing) {
    Inv(s, t) && TakesOk(s.takes, t)
  }

  lemma StepSound(s: State, e: Event, t: Timing)
    requires Sound(s, t) && Enabled(s, e) && t.debounce > 0.0 && t.burstMax > 0.0
    ensures Sound(Apply(s, e, t), t)
  {
    StepInv(s, e, t);
  }

  lemma {:induction false} RunSound(s: State, events: seq<Event>, t: Timing)
    requires Sound(s, t) && Runs(s, events, t) && t.debounce > 0.0 && t.burstMax > 0.0
    ensures Sound(After(s, events, t), t)
    decreases |events|
  {
    if events != [] {
      StepSound(s, events[0], t);
      RunSound(Apply(s, events[0], t), events[1..], t);
    }
  }

  function Arrivals(events: seq<Event>): seq<Payload> {
    if events == [] then []
    else (if events[0].Arrive? then [events[0].payload] else []) + Arrivals(events[1..])
  }

  lemma {:induction false} AcceptedAreArrivals(s: State, events: seq<Event>, t: Timing)
    requires Runs(s, events, t)
    ensures After(s, events, t).accepted == s.accepted + Arrivals(events)
    decreases |events|
  {
    if events != [] {
      var s' := Apply(s, events[0], t);
      AcceptedAreArrivals(s', events[1..], t);
      assert s'.accepted == s.accepted + if events[0].Arrive? then [events[0].payload] else [];
    }
  }

  lemma AcceptedFromStart(s: State, events: seq<Event>, t: Timing)
    requires Init(s) && Runs(s, events, t)
    ensures After(s, events, t).accepted == Arrivals(events)
  {
    AcceptedAreArrivals(s, events, t);
    var arrivals := Arrivals(events);
    assert [] + arrivals == arrivals;
  }

  lemma ConservedAfter(s: State, events: seq<Event>, t: Timing)
    requires Init(s) && Runs(s, events, t) && t.debounce > 0.0 && t.burstMax > 0.0
    ensures Conserved(After(s, events, t))
  {
    RunSound(s, events, t);
  }

  /**
   * The processed batches, the batch in hand and the pending payloads, one after the other, are the arrivals in
   * order: none lost, none twice, none moved, whether a payload was taken or drained.
   */
  lemma NothingLostOrReordered(s: State, events: seq<Event>, t: Timing)
    requires Init(s) && Runs(s, events, t) && t.debounce > 0.0 && t.burstMax > 0.0
    ensures var s' := After(s, events, t);
      Arrivals(events) == Concat(s'.handled) + InHand(s') + s'.payloads
  {
    ConservedAfter(s, events, t);
    AcceptedFromStart(s, events, t);
  }

  /** However the messages keep arriving, a batch is taken by the later of its hard deadline and a free worker. */
  lemma TakenInTime(s: State, events: seq<Event>, t: Timing, i: nat)
    requires Init(s) && Runs(s, events, t) && t.debounce > 0.0 && t.burstMax > 0.0
    requires i < |After(s, events, t).takes|
    ensures var take := After(s, events, t).takes[i];
      take.batch != [] && take.start.Some?
      && (take.start.value != 0.0 ==> take.at <= Latest(take.start.value, take.free, t))
  {
    RunSound(s, events, t);
  }

  predicate TakesNothing(events: seq<Event>) {
    forall e | e in events :: !e.Expire? && !e.Drain?
  }

  lemma OpenBurstStep(s: State, e: Event, t: Timing)
    requires s.burstStartedAt.Some? && Enabled(s, e) && !e.Expire? && !e.Drain?
    ensures Apply(s, e, t).burstStartedAt == s.burstStartedAt
    ensures Apply(s, e, t).payloads == s.payloads + if e.Arrive? then [e.payload] else []
  {
  }

  /** Until it is taken or drained, an open burst keeps its start, and so its hard deadline, and only grows. */
  lemma {:induction false} OpenBurstOnlyGrows(s: State, events: seq<Event>, t: Timing)
    requires s.burstStartedAt.Some? && Runs(s, events, t) && TakesNothing(events)
    ensures After(s, events, t).burstStartedAt == s.burstStartedAt
    ensures After(s, events, t).payloads == s.payloads + Arrivals(events)
    decreases |events|
  {
    if events != [] {
      var first := if events[0].Arrive? then [events[0].payload] else [];
      assert events[0] in events;
      OpenBurstStep(s, events[0], t);
      OpenBurstOnlyGrows(Apply(s, events[0], t), events[1..], t);
      assert Arrivals(events) == first + Arrivals(events[1..]);
      Regroup(s.payloads, first, Arrivals(events[1..]));
    }
  }

  /** Unless told to skip the debounce or overtaken by a new arrival, a batch is not taken before its deadlines. */
  lemma NotTakenEarly(s: State, events: seq<Event>, t: Timing)
    requires Init(s) && Runs(s, events, t) && t.debounce > 0.0 && t.burstMax > 0.0
    requires var s' := After(s, events, t); Enabled(s', Expire) && !s'.worker.skipped && !s'.wake
    ensures var s' := After(s, events, t);
      s'.lastEventAt.Some? && s'.burstStartedAt.Some?
      && s'.clock >= Min(s'.lastEventAt.value + t.debounce, s'.burstStartedAt.value + t.burstMax)
  {
    RunSound(s, events, t);
  }

  /** A waiting worker told of a message that skips the debounce can take it at once. */
  lemma SkipCanBeTaken(s: State, p: Payload, mode: ChatMode, triggers: set<string>, t: Timing)
    requires Inv(s, t) && s.worker.Waiting?
    requires p.isPrivate || (!mode.Auto? && Matches(p, triggers))
    ensures var events := [Arrive(p, mode, triggers), Wake, Arm(mode, triggers), Expire];
      Runs(s, events, t)
      && After(s, events, t).clock == s.clock && InHand(After(s, events, t)) == s.payloads + [p]
  {
    LastMatches(s.payloads, p, triggers);
    assert SkipsDebounce(s.payloads + [p], mode, triggers);
    RunsFour(s, Arrive(p, mode, triggers), Wake, Arm(mode, triggers), Expire, t);
  }

  /** The pending payloads skip the debounce, and whatever these events bring does not change that. */
  predicate SkipsThroughout(s: State, events: seq<Event>, mode: ChatMode, triggers: set<string>) {
    && s.payloads != []
    && (forall e | e in events && e.Arm? :: e.mode == mode && e.triggers == triggers)
    && if !mode.Auto? && SomeMatches(s.payloads, triggers) then true
       else s.payloads[|s.payloads| - 1].isPrivate && forall e | e in events && e.Arrive? :: e.payload.isPrivate
  }

  /** The worker is about to look, was woken, or is due. */
  predicate Urgent(s: State) {
    s.worker.Ready? || (s.worker.Waiting? && (s.wake || s.worker.deadline <= s.clock))
  }

  lemma UrgentStep(s: State, e: Event, events: seq<Event>, mode: ChatMode, triggers: set<string>, t: Timing)
    requires Urgent(s) && SkipsThroughout(s, [e] + events, mode, triggers) && Enabled(s, e) && !e.Expire?
    ensures var s' := Apply(s, e, t);
      Urgent(s') && SkipsThroughout(s', events, mode, triggers) && s'.clock == s.clock
  {
    assert e in [e] + events;
    forall k | k in events ensures k in [e] + events {
    }
    if e.Arrive? {
      LastMatches(s.payloads, e.payload, triggers);
    }
  }

  /**
   * Until it takes a batch that skips the debounce, a worker that was told of it leaves no time to pass: over every
   * run, the clock stands still.
   */
  lemma {:induction false} NoTimeBeforeSkip(s: State, events: seq<Event>, mode: ChatMode, triggers: set<string>,
                                            t: Timing)
    requires Urgent(s) && SkipsThroughout(s, events, mode, triggers) && Runs(s, events, t)
    requires forall e | e in events :: !e.Expire?
    ensures After(s, events, t).clock == s.clock
    decreases |events|
  {
    if events != [] {
      assert events == [events[0]] + events[1..];
      assert events[0] in events;
      UrgentStep(s, events[0], events[1..], mode, triggers, t);
      NoTimeBeforeSkip(Apply(s, events[0], t), events[1..], mode, triggers, t);
    }
  }

  /**
   * A message that skips the debounce arrives while no batch is in hand: over every run from there, and whatever
   * else arrives, no time passes before the worker takes the pending payloads.
   */
  lemma SkipIsImmediate(s: State, p: Payload, events: seq<Event>, mode: ChatMode, triggers: set<string>, t: Timing)
    requires Inv(s, t) && !s.worker.Processing?
    requires (!mode.Auto? && Matches(p, triggers))
      || (p.isPrivate && forall e | e in events && e.Arrive? :: e.payload.isPrivate)
    requires Runs(ArriveStep(s, p, mode, triggers), events, t)
    requires forall e | e in events :: !e.Expire? && (e.Arm? ==> e.mode == mode && e.triggers == triggers)
    ensures After(ArriveStep(s, p, mode, triggers), events, t).clock == s.clock
  {
    LastMatches(s.payloads, p, triggers);
    NoTimeBeforeSkip(ArriveStep(s, p, mode, triggers), events, mode, triggers, t);
  }

  lemma {:induction false} LastMatches(payloads: seq<Payload>, p: Payload, triggers: set<string>)
    ensures SomeMatches(payloads + [p], triggers) <==> SomeMatches(payloads, triggers) || Matches(p, triggers)
  {
    if payloads != [] {
      LastMatches(payloads[1..], p, triggers);
      assert (payloads + [p])[1..] == payloads[1..] + [p];
    }
  }

  lemma RunsFour(s: State, a: Event, b: Event, c: Event, d: Event, t: Timing)
    requires Enabled(s, a) && Enabled(Apply(s, a, t), b) && Enabled(Apply(Apply(s, a, t), b, t), c)
    requires Enabled(Apply(Apply(Apply(s, a, t), b, t), c, t), d)
    ensures Runs(s, [a, b, c, d], t)
    ensures After(s, [a, b, c, d], t) == Apply(Apply(Apply(Apply(s, a, t), b, t), c, t), d, t)
  {
    var s1, s2, s3 := Apply(s, a, t), Apply(Apply(s, a, t), b, t), Apply(Apply(Apply(s, a, t), b, t), c, t);
    var s4 := Apply(s3, d, t);
    assert [a, b, c, d][1..] == [b, c, d] && [b, c, d][1..] == [c, d] && [c, d][1..] == [d] && [d][1..] == [];
    assert Runs(s4, [], t) && After(s4, [], t) == s4;
    assert Runs(s3, [d], t) && After(s3, [d], t) == s4;
    assert Runs(s2, [c, d], t) && After(s2, [c, d], t) == s4;
    assert Runs(s1, [b, c, d], t) && After(s1, [b, c, d], t) == s4;
  }

  /** From the moment the worker looks at the pending payloads, it can take them all. */
  lemma ArmThenTake(s: State, before: Event, t: Timing)
    requires Inv(s, t) && s.payloads != [] && t.debounce > 0.0 && t.burstMax > 0.0
    requires (before == Wake || before == Finish) && Enabled(s, before)
    ensures exists events :: Runs(s, events, t) && InHand(After(s, events, t)) == s.payloads
  {
    var armed := Apply(Apply(s, before, t), Arm(Auto, {}), t);
    RunsFour(s, before, Arm(Auto, {}), Tick(armed.worker.deadline), Expire, t);
  }

  /**
   * Pending payloads always have a worker, unless processing raised; and whatever that worker is doing, it can go on
   * to take all of them.
   */
  lemma PendingIsServed(s: State, t: Timing)
    requires Inv(s, t) && s.payloads != [] && !s.raised && t.debounce > 0.0 && t.burstMax > 0.0
    ensures !s.worker.Idle?
    ensures exists events :: Runs(s, events, t) && InHand(After(s, events, t)) == s.payloads
  {
    match s.worker
    case Idle =>
    case Ready =>
      var armed := Apply(s, Arm(Auto, {}), t);
      var tick := Tick(armed.worker.deadline);
      RunsFour(s, Arm(Auto, {}), tick, tick, Expire, t);
    case Waiting(deadline, _) =>
      if s.wake {
        ArmThenTake(s, Wake, t);
      } else {
        RunsFour(s, Tick(deadline), Tick(deadline), Tick(deadline), Expire, t);
      }
    case Processing(_, _) => ArmThenTake(s, Finish, t);
  }

  /** What is left pending without a worker, as when processing raised, stays so over any run without an arrival. */
  lemma {:induction false} StrandedUntilArrival(s: State, events: seq<Event>, t: Timing)
    requires s.worker.Idle? && Runs(s, events, t) && Arrivals(events) == []
    ensures After(s, events, t).worker.Idle? && After(s, events, t).payloads == s.payloads
    decreases |events|
  {
    if events != [] {
      assert !events[0].Arrive?;
      StrandedUntilArrival(Apply(s, events[0], t), events[1..], t);
    }
  }

  /** Processing that raises strands what is pending; the next arrival, whenever it comes, starts a worker for all. */
  lemma RaiseStrandsUntilArrival(s: State, events: seq<Event>, t: Timing, p: Payload, mode: ChatMode,
                                 triggers: set<string>)
    requires Inv(s, t) && s.worker.Processing? && t.debounce > 0.0 && t.burstMax > 0.0
    requires Runs(Apply(s, Raise, t), events, t) && Arrivals(events) == []
    ensures var stranded := After(Apply(s, Raise, t), events, t);
      && stranded.worker.Idle? && stranded.payloads == s.payloads
      && var revived := ArriveStep(stranded, p, mode, triggers);
         && revived.worker.Ready? && revived.payloads == s.payloads + [p]
  {
    StrandedUntilArrival(Apply(s, Raise, t), events, t);
  }

  /** The hybrid interrupt always brings at least one payload into the batch in hand. */
  lemma DrainBringsPayloads(s: State, events: seq<Event>, t: Timing)
    requires Init(s) && Runs(s, events, t) && t.debounce > 0.0 && t.burstMax > 0.0
    requires Enabled(After(s, events, t), Drain)
    ensures var s' := After(s, events, t);
      s'.payloads != [] && InHand(DrainStep(s')) == InHand(s') + s'.payloads
  {
    RunSound(s, events, t);
  }

  /** A message came that interrupts a routing: in hybrid mode, with one of the chat's triggers. */
  predicate IsHit(e: Event) {
    e.Arrive? && e.mode == Hybrid && exists trigger :: trigger in e.triggers && trigger in e.payload.hits
  }

  /** Such a message came since the last routing started; `hit`: one came before these events. */
  predicate HitSince(events: seq<Event>, hit: bool) {
    if events == [] then hit else HitSince(events[1..], !events[0].StartRouting? && (hit || IsHit(events[0])))
  }

  predicate Routing(s: State) {
    s.worker.Processing? && s.worker.routing
  }

  lemma HitStep(s: State, e: Event, t: Timing, hit: bool)
    requires Enabled(s, e) && (Routing(s) ==> s.interrupt == hit)
    ensures var s' := Apply(s, e, t);
      Routing(s') ==> s'.interrupt == (!e.StartRouting? && (hit || IsHit(e)))
  {
    if e.Arrive? {
      var both := e.payload.hits * e.triggers;
      assert forall trigger :: trigger in e.triggers && trigger in e.payload.hits <==> trigger in both;
      assert IsHit(e) <==> e.mode.Hybrid? && Matches(e.payload, e.triggers);
    }
  }

  lemma {:induction false} HitRuns(s: State, events: seq<Event>, t: Timing, hit: bool)
    requires Runs(s, events, t) && (Routing(s) ==> s.interrupt == hit)
    ensures var s' := After(s, events, t);
      Routing(s') ==> s'.interrupt == HitSince(events, hit)
    decreases |events|
  {
    if events != [] {
      HitStep(s, events[0], t, hit);
      HitRuns(Apply(s, events[0], t), events[1..], t, !events[0].StartRouting? && (hit || IsHit(events[0])));
    }
  }

  /**
   * Over every run: a routing can be interrupted if and only if a hybrid message that matches its triggers came since
   * the routing started.
   */
  lemma InterruptedExactlyOnHit(s: State, events: seq<Event>, t: Timing)
    requires Init(s) && Runs(s, events, t) && Routing(After(s, events, t))
    ensures Enabled(After(s, events, t), Drain) <==> HitSince(events, false)
  {
    HitRuns(s, events, t, false);
  }

  /** A hybrid message that matches interrupts a routing at once, and joins the batch in hand with all that waits. */
  lemma HitJoinsBatch(s: State, p: Payload, triggers: set<string>, t: Timing)
    requires Routing(s) && IsHit(Arrive(p, Hybrid, triggers))
    ensures var s' := Apply(s, Arrive(p, Hybrid, triggers), t);
      Enabled(s', Drain)
      && InHand(Apply(s', Drain, t)) == InHand(s) + s.payloads + [p] && Apply(s', Drain, t).payloads == []
  {
    var trigger :| trigger in triggers && trigger in p.hits;
    assert trigger in p.hits * triggers;
    Regroup(InHand(s), s.payloads, [p]);
  }

  // ----- a burst that starts at clock reading zero -----

  /** A worker waits, with time left, on a burst that started at reading zero. */
  predicate ZeroStart(s: State, left: real) {
    && s.worker.Waiting? && !s.wake && s.worker.deadline == s.clock + left
    && s.burstStartedAt == Some(0.0) && s.payloads != [] && s.clock >= 0.0
  }

  lemma {:induction false} RunsAppend(s: State, first: seq<Event>, second: seq<Event>, t: Timing)
    requires Runs(s, first, t) && Runs(After(s, first, t), second, t)
    ensures Runs(s, first + second, t) && After(s, first + second, t) == After(After(s, first, t), second, t)
    decreases |first|
  {
    if first == [] {
      assert first + second == second;
    } else {
      RunsAppend(Apply(s, first[0], t), first[1..], second, t);
      assert (first + second)[1..] == first[1..] + second;
    }
  }

  function ZeroRound(s: State, t: Timing, p: Payload): seq<Event> {
    [Tick(s.clock + Min(t.debounce, t.burstMax)), Arrive(p, Auto, {}), Wake, Arm(Auto, {})]
  }

  /** One more message puts it off once more. */
  lemma ZeroRoundRuns(s: State, t: Timing, p: Payload)
    requires t.debounce > 0.0 && t.burstMax > 0.0 && !p.isPrivate && ZeroStart(s, Min(t.debounce, t.burstMax))
    ensures Runs(s, ZeroRound(s, t, p), t)
    ensures var s' := After(s, ZeroRound(s, t, p), t);
      && s'.takes == s.takes && ZeroStart(s', Min(t.debounce, t.burstMax))
      && s'.clock == s.clock + Min(t.debounce, t.burstMax)
  {
    RunsFour(s, Tick(s.clock + Min(t.debounce, t.burstMax)), Arrive(p, Auto, {}), Wake, Arm(Auto, {}), t);
  }

  /** Such a burst has no hard deadline: while messages come it is put off for as long as one likes. */
  lemma {:induction false} ZeroStartIsNeverDue(s: State, t: Timing, p: Payload, n: nat) returns (events: seq<Event>)
    requires t.debounce > 0.0 && t.burstMax > 0.0 && !p.isPrivate && ZeroStart(s, Min(t.debounce, t.burstMax))
    ensures Runs(s, events, t) && After(s, events, t).takes == s.takes
    ensures ZeroStart(After(s, events, t), Min(t.debounce, t.burstMax))
    ensures After(s, events, t).clock == s.clock + n as real * Min(t.debounce, t.burstMax)
    decreases n
  {
    if n == 0 {
      events := [];
    } else {
      ZeroRoundRuns(s, t, p);
      var round := ZeroRound(s, t, p);
      var rest := ZeroStartIsNeverDue(After(s, round, t), t, p, n - 1);
      RunsAppend(s, round, rest, t);
      events := round + rest;
    }
  }

  /** A first message at reading zero opens such a burst. */
  lemma HardDeadlineFailsAtZero(s: State, t: Timing, p: Payload, n: nat) returns (events: seq<Event>)
    requires Init(s) && s.clock == 0.0 && t.debounce > 0.0 && t.burstMax > 0.0 && !p.isPrivate
    ensures Runs(s, events, t) && After(s, events, t).takes == [] && After(s, events, t).payloads != []
    ensures After(s, events, t).clock == n as real * Min(t.debounce, t.burstMax)
  {
    var opening := [Tick(0.0), Tick(0.0), Arrive(p, Auto, {}), Arm(Auto, {})];
    RunsFour(s, opening[0], opening[1], opening[2], opening[3], t);
    var rest := ZeroStartIsNeverDue(After(s, opening, t), t, p, n);
    RunsAppend(s, opening, rest, t);
    events := opening + rest;
  }
}
