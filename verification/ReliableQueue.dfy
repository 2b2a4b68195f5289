/** The bounded queue of reliable frames in the Python transport, with one delivery waiter per frame. */
module ReliableQueue {
  import opened Options

  type Frame = string
  type Waiter = nat

  const MAX_RELIABLE_QUEUE: nat := 1000

  /** One submission. `id` numbers submissions in the order in which they got the queue lock. */
  datatype Entry = Entry(id: nat, frame: Frame, waiter: Option<Waiter>)

  /** How a delivery future was settled. */
  datatype Outcome = Delivered | Displaced | TransportClosed | Cancelled

  /** Why a submission will never be written. */
  datatype Loss = DroppedAsOldest | RemovedByCaller | DroppedAtClose | InterruptedWrite

  /** How the direct write of a submission ended; an interrupted write may have reached the socket. */
  datatype Write = Written | Failed | Interrupted(reached: bool)

  datatype State = State(
    queue: seq<Entry>,
    wire: seq<Entry>,                   // what was written to a socket, in order
    outcomes: map<Waiter, Outcome>,     // settled delivery futures
    lost: map<nat, Loss>,
    log: seq<Entry>,                    // every submission the queue accepted, in order
    known: set<Waiter>)                 // every delivery future handed out

  predicate Init(s: State) {
    s == State([], [], map[], map[], [], {})
  }

  datatype Op =
    | Send(frame: Frame, waiter: Option<Waiter>, dropOldest: bool, connected: bool, write: Write)
    | FlushOne
    | Cancel(target: Waiter)
    | Remove(target: Waiter)
    | Clear

  /** Settle a future unless it is done already. */
  function Settle(outcomes: map<Waiter, Outcome>, waiter: Option<Waiter>, outcome: Outcome): map<Waiter, Outcome> {
    if waiter.Some? && waiter.value !in outcomes then outcomes[waiter.value := outcome] else outcomes
  }

  /** An entry leaves the queue unwritten; its future is settled when there is someone to tell. */
  function Lose(s: State, i: nat, outcome: Option<Outcome>, loss: Loss): State
    requires i < |s.queue|
  {
    s.(queue := s.queue[..i] + s.queue[i + 1..],
       outcomes := if outcome.Some? then Settle(s.outcomes, s.queue[i].waiter, outcome.value) else s.outcomes,
       lost := s.lost[s.queue[i].id := loss])
  }

  function Enqueue(s: State, e: Entry): State {
    var room := if |s.queue| >= MAX_RELIABLE_QUEUE then Lose(s, 0, Some(Displaced), DroppedAsOldest) else s;
    room.(queue := room.queue + [e])
  }

  /** The submission is counted, and its future is known. */
  function Accept(s: State, e: Entry): State {
    s.(log := s.log + [e], known := if e.waiter.Some? then s.known + {e.waiter.value} else s.known)
  }

  function WriteDirectly(s: State, e: Entry, write: Write): State {
    match write
    case Written => s.(wire := s.wire + [e], outcomes := Settle(s.outcomes, e.waiter, Delivered))
    case Failed => Enqueue(s, e)
    case Interrupted(reached) =>
      var abandoned := s.(outcomes := Settle(s.outcomes, e.waiter, Cancelled));
      if reached then abandoned.(wire := s.wire + [e]) else abandoned.(lost := s.lost[e.id := InterruptedWrite])
  }

  predicate Writes(s: State, connected: bool) {
    connected && s.queue == []
  }

  /** A full queue refuses a submission that may not displace the oldest. */
  predicate Refuses(s: State, dropOldest: bool, connected: bool) {
    !Writes(s, connected) && |s.queue| >= MAX_RELIABLE_QUEUE && !dropOldest
  }

  function SendStep(s: State, frame: Frame, waiter: Option<Waiter>, dropOldest: bool, connected: bool,
                    write: Write): State
  {
    if Refuses(s, dropOldest, connected) then s
    else
      var e := Entry(|s.log|, frame, waiter);
      if Writes(s, connected) then WriteDirectly(Accept(s, e), e, write) else Enqueue(Accept(s, e), e)
  }

  /** The oldest frame was written. */
  function FlushStep(s: State): State
    requires s.queue != []
  {
    s.(queue := s.queue[1..],
       wire := s.wire + [s.queue[0]],
       outcomes := Settle(s.outcomes, s.queue[0].waiter, Delivered))
  }

  function IndexOf(queue: seq<Entry>, waiter: Waiter): (i: nat)
    ensures i <= |queue|
    ensures i < |queue| ==> queue[i].waiter == Some(waiter)
    ensures forall j | 0 <= j < i :: queue[j].waiter != Some(waiter)
  {
    if queue == [] || queue[0].waiter == Some(waiter) then 0 else 1 + IndexOf(queue[1..], waiter)
  }

  function RemoveStep(s: State, waiter: Waiter): State {
    var i := IndexOf(s.queue, waiter);
    if i == |s.queue| then s
    else Lose(s, i, None, RemovedByCaller)
  }

  function ClearStep(s: State): State
    decreases |s.queue|
  {
    if s.queue == [] then s
    else ClearStep(Lose(s, 0, Some(TransportClosed), DroppedAtClose))
  }

  predicate Enabled(s: State, op: Op) {
    match op
    case Send(_, waiter, _, _, _) => waiter.Some? ==> waiter.value !in s.known
    case FlushOne => s.queue != []
    case Cancel(waiter) => waiter in s.known
    case Remove(waiter) => waiter in s.outcomes && s.outcomes[waiter] == Cancelled
    case Clear => true
  }

  function Apply(s: State, op: Op): State
    requires Enabled(s, op)
  {
    match op
    case Send(frame, waiter, dropOldest, connected, write) => SendStep(s, frame, waiter, dropOldest, connected, write)
    case FlushOne => FlushStep(s)
    case Cancel(waiter) => s.(outcomes := Settle(s.outcomes, Some(waiter), Cancelled))
    case Remove(waiter) => RemoveStep(s, waiter)
    case Clear => ClearStep(s)
  }

  // ----- what every operation keeps -----

  ghost predicate Increasing(entries: seq<Entry>) {
    forall i, j | 0 <= i < j < |entries| :: entries[i].id < entries[j].id
  }

  ghost predicate DistinctWaiters(entries: seq<Entry>) {
    forall i, j | 0 <= i < j < |entries| && entries[i].waiter.Some? :: entries[i].waiter != entries[j].waiter
  }

  ghost predicate HasId(entries: seq<Entry>, id: nat) {
    exists e :: e in entries && e.id == id
  }

  /** The entry is, number, frame and future, what was submitted. */
  predicate Logged(s: State, e: Entry) {
    e.id < |s.log| && s.log[e.id] == e
  }

  /** A queued frame's future is open or was cancelled by its caller. */
  predicate QueuedOk(s: State, e: Entry) {
    && Logged(s, e) && e.id !in s.lost
    && (e.waiter.Some? ==>
          && e.waiter.value in s.known
          && (e.waiter.value in s.outcomes ==> s.outcomes[e.waiter.value] == Cancelled))
  }

  /** A written frame's future was told so, unless its caller had cancelled it. */
  predicate WrittenOk(s: State, e: Entry) {
    && Logged(s, e) && e.id !in s.lost
    && (e.waiter.Some? ==>
          && e.waiter.value in s.known && e.waiter.value in s.outcomes
          && (s.outcomes[e.waiter.value] == Delivered || s.outcomes[e.waiter.value] == Cancelled))
  }

  /** A submission is queued, written or lost. */
  ghost predicate Accounted(s: State, id: nat) {
    id in s.lost || HasId(s.wire, id) || HasId(s.queue, id)
  }

  ghost predicate OnWire(s: State, waiter: Waiter) {
    exists e :: e in s.wire && e.waiter == Some(waiter)
  }

  ghost predicate Inv(s: State) {
    && |s.queue| <= MAX_RELIABLE_QUEUE
    && Increasing(s.wire + s.queue)
    && DistinctWaiters(s.wire + s.queue)
    && (forall e | e in s.queue :: QueuedOk(s, e))
    && (forall e | e in s.wire :: WrittenOk(s, e))
    && (forall w | w in s.outcomes :: w in s.known)
    && (forall w | w in s.outcomes && s.outcomes[w] == Delivered :: OnWire(s, w))
    && (forall id | id in s.lost :: id < |s.log|)
    && (forall id: nat | id < |s.log| :: Accounted(s, id))
  }

  lemma HasIdTail(entries: seq<Entry>, id: nat)
    requires entries != [] && HasId(entries, id)
    ensures entries[0].id == id || HasId(entries[1..], id)
  {
    var e :| e in entries && e.id == id;
    if e != entries[0] {
      assert e in entries[1..];
    }
  }

  lemma HasIdAppend(entries: seq<Entry>, e: Entry, id: nat)
    requires HasId(entries, id) || e.id == id
    ensures HasId(entries + [e], id)
  {
    if HasId(entries, id) {
      var f :| f in entries && f.id == id;
      assert f in entries + [e];
    } else {
      assert e in entries + [e];
    }
  }

  lemma FlushKeeps(s: State)
    requires Inv(s) && s.queue != []
    ensures Inv(FlushStep(s))
  {
    var s' := FlushStep(s);
    var e := s.queue[0];
    assert s'.wire + s'.queue == s.wire + s.queue;
    assert e in s.queue && e in s'.wire;
    forall f | f in s'.queue ensures QueuedOk(s', f) {
      assert f in s.queue;
      var j :| 0 <= j < |s'.queue| && s'.queue[j] == f;
      assert (s.wire + s.queue)[|s.wire|] == e && (s.wire + s.queue)[|s.wire| + j + 1] == f;
    }
    forall w | w in s'.outcomes && s'.outcomes[w] == Delivered ensures OnWire(s', w) {
      if w in s.outcomes && s.outcomes[w] == Delivered {
        var f :| f in s.wire && f.waiter == Some(w);
        assert f in s'.wire;
      }
    }
    forall id: nat | id < |s'.log| ensures Accounted(s', id) {
      assert Accounted(s, id);
      if HasId(s.queue, id) {
        HasIdTail(s.queue, id);
      }
      if HasId(s.wire, id) || e.id == id {
        HasIdAppend(s.wire, e, id);
      }
    }
  }

  function Without(entries: seq<Entry>, k: nat): seq<Entry>
    requires k < |entries|
  {
    entries[..k] + entries[k + 1..]
  }

  /** Where the entries behind the one taken out come from. */
  lemma WithoutAt(entries: seq<Entry>, k: nat)
    requires k < |entries|
    ensures var rest := Without(entries, k);
      && |rest| == |entries| - 1
      && (forall j | 0 <= j < k :: rest[j] == entries[j])
      && (forall j | k <= j < |rest| :: rest[j] == entries[j + 1])
  {
  }

  lemma StaysWithout(entries: seq<Entry>, k: nat, j: nat)
    requires k < |entries| && j < |entries| && j != k
    ensures entries[j] in Without(entries, k)
  {
    WithoutAt(entries, k);
    assert entries[j] == Without(entries, k)[if j < k then j else j - 1];
  }

  lemma CameFrom(entries: seq<Entry>, k: nat, j: nat)
    requires k < |entries| && Increasing(entries) && j < |entries| - 1
    ensures var e := Without(entries, k)[j];
      e in entries && e.id != entries[k].id
  {
    WithoutAt(entries, k);
    assert Without(entries, k)[j] == entries[if j < k then j else j + 1];
  }

  lemma WithoutMembers(entries: seq<Entry>, k: nat)
    requires k < |entries| && Increasing(entries)
    ensures forall e :: e in Without(entries, k) <==> e in entries && e.id != entries[k].id
  {
    var rest := Without(entries, k);
    forall e | e in rest ensures e in entries && e.id != entries[k].id {
      var j :| 0 <= j < |rest| && rest[j] == e;
      CameFrom(entries, k, j);
    }
    forall e | e in entries && e.id != entries[k].id ensures e in rest {
      var j :| 0 <= j < |entries| && entries[j] == e;
      StaysWithout(entries, k, j);
    }
  }

  lemma WithoutOrder(entries: seq<Entry>, k: nat)
    requires k < |entries| && Increasing(entries) && DistinctWaiters(entries)
    ensures Increasing(Without(entries, k)) && DistinctWaiters(Without(entries, k))
    ensures forall e | e in Without(entries, k) && entries[k].waiter.Some? :: e.waiter != entries[k].waiter
  {
    var rest := Without(entries, k);
    WithoutAt(entries, k);
    forall i, j | 0 <= i < j < |rest|
      ensures rest[i].id < rest[j].id && (rest[i].waiter.Some? ==> rest[i].waiter != rest[j].waiter)
    {
      var p, q := if i < k then i else i + 1, if j < k then j else j + 1;
      assert rest[i] == entries[p] && rest[j] == entries[q] && p < q;
    }
    forall e | e in rest && entries[k].waiter.Some? ensures e.waiter != entries[k].waiter {
      var j :| 0 <= j < |rest| && rest[j] == e;
      assert e == entries[if j < k then j else j + 1];
    }
  }

  /** One entry leaves the queue for another reason than being written. */
  lemma LoseKeeps(s: State, i: nat, outcome: Option<Outcome>, loss: Loss)
    requires Inv(s) && i < |s.queue| && outcome != Some(Delivered)
    ensures Inv(Lose(s, i, outcome, loss))
  {
    var s' := Lose(s, i, outcome, loss);
    var all, k := s.wire + s.queue, |s.wire| + i;
    assert all[k] == s.queue[i] && s.queue[i] in s.queue;
    assert s'.wire + s'.queue == Without(all, k);
    WithoutOrder(all, k);
    WithoutMembers(all, k);
    forall f | f in s'.queue ensures QueuedOk(s', f) {
      assert f in Without(all, k) && f in s.queue;
    }
    forall f | f in s'.wire ensures WrittenOk(s', f) {
      assert f in s'.wire + s'.queue;
    }
    forall w | w in s'.outcomes && s'.outcomes[w] == Delivered ensures OnWire(s', w) {
      assert OnWire(s, w);
    }
    forall id: nat | id < |s'.log| ensures Accounted(s', id) {
      LoseAccounts(s, i, outcome, loss, id);
    }
  }

  lemma LoseAccounts(s: State, i: nat, outcome: Option<Outcome>, loss: Loss, id: nat)
    requires Inv(s) && i < |s.queue| && id < |s.log|
    ensures Accounted(Lose(s, i, outcome, loss), id)
  {
    var s' := Lose(s, i, outcome, loss);
    assert Accounted(s, id);
    if HasId(s.queue, id) && id != s.queue[i].id {
      var e :| e in s.queue && e.id == id;
      var j :| 0 <= j < |s.queue| && s.queue[j] == e;
      assert e == s'.queue[if j < i then j else j - 1];
    }
  }

  lemma {:induction false} ClearKeeps(s: State)
    requires Inv(s)
    ensures Inv(ClearStep(s)) && ClearStep(s).queue == []
    decreases |s.queue|
  {
    if s.queue != [] {
      LoseKeeps(s, 0, Some(TransportClosed), DroppedAtClose);
      ClearKeeps(Lose(s, 0, Some(TransportClosed), DroppedAtClose));
    }
  }

  lemma RemoveKeeps(s: State, waiter: Waiter)
    requires Inv(s)
    ensures Inv(RemoveStep(s, waiter))
  {
    var i := IndexOf(s.queue, waiter);
    if i < |s.queue| {
      LoseKeeps(s, i, None, RemovedByCaller);
    }
  }

  lemma CancelKeeps(s: State, waiter: Waiter)
    requires Inv(s) && waiter in s.known
    ensures Inv(s.(outcomes := Settle(s.outcomes, Some(waiter), Cancelled)))
  {
    var s' := s.(outcomes := Settle(s.outcomes, Some(waiter), Cancelled));
    forall w | w in s'.outcomes && s'.outcomes[w] == Delivered ensures OnWire(s', w) {
      assert OnWire(s, w);
    }
    forall id: nat | id < |s'.log| ensures Accounted(s', id) {
      assert Accounted(s, id);
    }
  }

  lemma AppendOrder(entries: seq<Entry>, e: Entry)
    requires Increasing(entries) && DistinctWaiters(entries)
    requires forall f | f in entries :: f.id < e.id && (e.waiter.Some? ==> f.waiter != e.waiter)
    ensures Increasing(entries + [e]) && DistinctWaiters(entries + [e])
  {
    var all := entries + [e];
    forall i, j | 0 <= i < j < |all|
      ensures all[i].id < all[j].id && (all[i].waiter.Some? ==> all[i].waiter != all[j].waiter)
    {
      assert all[i] in entries;
    }
  }

  /** A new submission may be placed last: it is the newest, and its future is its own. */
  ghost predicate Fresh(s: State, e: Entry) {
    && e.id == |s.log|
    && (e.waiter.Some? ==> e.waiter.value !in s.known)
  }

  lemma FreshIsLast(s: State, e: Entry)
    requires Inv(s) && Fresh(s, e)
    ensures Increasing(s.wire + s.queue + [e]) && DistinctWaiters(s.wire + s.queue + [e])
  {
    forall f | f in s.wire + s.queue ensures f.id < e.id && (e.waiter.Some? ==> f.waiter != e.waiter) {
      assert f in s.wire || f in s.queue;
    }
    AppendOrder(s.wire + s.queue, e);
  }

  /** The state after a submission joined the queue, the wire or the lost ones, all else unchanged. */
  lemma QueueFreshKeeps(s: State, e: Entry)
    requires Inv(s) && Fresh(s, e) && |s.queue| < MAX_RELIABLE_QUEUE
    ensures Inv(Accept(s, e).(queue := s.queue + [e]))
  {
    var s' := Accept(s, e).(queue := s.queue + [e]);
    FreshIsLast(s, e);
    assert s'.wire + s'.queue == s.wire + s.queue + [e];
    forall w | w in s'.outcomes && s'.outcomes[w] == Delivered ensures OnWire(s', w) {
      assert OnWire(s, w);
    }
    forall id: nat | id < |s'.log| ensures Accounted(s', id) {
      assert id < |s.log| ==> Accounted(s, id);
      if HasId(s.queue, id) || e.id == id {
        HasIdAppend(s.queue, e, id);
      }
    }
  }

  lemma WriteFreshKeeps(s: State, e: Entry, outcome: Outcome)
    requires Inv(s) && Fresh(s, e) && s.queue == [] && (outcome == Delivered || outcome == Cancelled)
    ensures Inv(Accept(s, e).(wire := s.wire + [e], outcomes := Settle(s.outcomes, e.waiter, outcome)))
  {
    var s' := Accept(s, e).(wire := s.wire + [e], outcomes := Settle(s.outcomes, e.waiter, outcome));
    FreshIsLast(s, e);
    assert s'.wire + s'.queue == s.wire + s.queue + [e];
    forall w | w in s'.outcomes && s'.outcomes[w] == Delivered ensures OnWire(s', w) {
      if w in s.outcomes {
        var f :| f in s.wire && f.waiter == Some(w);
        assert f in s'.wire;
      } else {
        assert e in s'.wire;
      }
    }
    forall id: nat | id < |s'.log| ensures Accounted(s', id) {
      assert id < |s.log| ==> Accounted(s, id);
      if HasId(s.wire, id) || e.id == id {
        HasIdAppend(s.wire, e, id);
      }
    }
  }

  lemma LoseFreshKeeps(s: State, e: Entry)
    requires Inv(s) && Fresh(s, e)
    ensures Inv(Accept(s, e).(outcomes := Settle(s.outcomes, e.waiter, Cancelled),
                                     lost := s.lost[e.id := InterruptedWrite]))
  {
    var s' := Accept(s, e).(outcomes := Settle(s.outcomes, e.waiter, Cancelled),
                                   lost := s.lost[e.id := InterruptedWrite]);
    forall w | w in s'.outcomes && s'.outcomes[w] == Delivered ensures OnWire(s', w) {
      assert OnWire(s, w);
    }
    forall id: nat | id < |s'.log| ensures Accounted(s', id) {
      assert id < |s.log| ==> Accounted(s, id);
    }
  }

  lemma EnqueueKeeps(s: State, e: Entry)
    requires Inv(s) && Fresh(s, e)
    ensures Inv(Enqueue(Accept(s, e), e))
  {
    if |s.queue| >= MAX_RELIABLE_QUEUE {
      LoseKeeps(s, 0, Some(Displaced), DroppedAsOldest);
      var room := Lose(s, 0, Some(Displaced), DroppedAsOldest);
      QueueFreshKeeps(room, e);
      assert Enqueue(Accept(s, e), e) == Accept(room, e).(queue := room.queue + [e]);
    } else {
      QueueFreshKeeps(s, e);
    }
  }

  lemma SendKeeps(s: State, frame: Frame, waiter: Option<Waiter>, dropOldest: bool, connected: bool, write: Write)
    requires Inv(s) && (waiter.Some? ==> waiter.value !in s.known)
    ensures Inv(SendStep(s, frame, waiter, dropOldest, connected, write))
  {
    if !Refuses(s, dropOldest, connected) {
      var e := Entry(|s.log|, frame, waiter);
      if Writes(s, connected) && write.Written? {
        WriteFreshKeeps(s, e, Delivered);
      } else if Writes(s, connected) && write.Interrupted? {
        if write.reached {
          WriteFreshKeeps(s, e, Cancelled);
        } else {
          LoseFreshKeeps(s, e);
        }
      } else {
        EnqueueKeeps(s, e);
      }
    }
  }

  lemma OpKeeps(s: State, op: Op)
    requires Inv(s) && Enabled(s, op)
    ensures Inv(Apply(s, op))
  {
    match op
    case Send(frame, waiter, dropOldest, connected, write) => SendKeeps(s, frame, waiter, dropOldest, connected, write);
    case FlushOne => FlushKeeps(s);
    case Cancel(waiter) => CancelKeeps(s, waiter);
    case Remove(waiter) => RemoveKeeps(s, waiter);
    case Clear => ClearKeeps(s);
  }

  // ----- over every run -----

  predicate Runs(s: State, ops: seq<Op>)
    decreases |ops|
  {
    ops == [] || (Enabled(s, ops[0]) && Runs(Apply(s, ops[0]), ops[1..]))
  }

  function After(s: State, ops: seq<Op>): State
    requires Runs(s, ops)
    decreases |ops|
  {
    if ops == [] then s else After(Apply(s, ops[0]), ops[1..])
  }

  lemma {:induction false} RunKeeps(s: State, ops: seq<Op>)
    requires Inv(s) && Runs(s, ops)
    ensures Inv(After(s, ops))
    decreases |ops|
  {
    if ops != [] {
      OpKeeps(s, ops[0]);
      RunKeeps(Apply(s, ops[0]), ops[1..]);
    }
  }

  /**
   * Frames reach the socket in the order of their submission, each at most once; every submission is
   * written, queued or lost for a recorded reason; and a future is told of a delivery exactly when its
   * frame was written before its caller gave up.
   */
  lemma DeliveredInOrder(s: State, ops: seq<Op>)
    requires Init(s) && Runs(s, ops)
    ensures var s' := After(s, ops);
      && Increasing(s'.wire + s'.queue) && |s'.queue| <= MAX_RELIABLE_QUEUE
      && (forall e | e in s'.wire + s'.queue :: Logged(s', e))
      && (forall id: nat | id < |s'.log| :: Accounted(s', id))
      && (forall id | id in s'.lost :: !HasId(s'.wire, id) && !HasId(s'.queue, id))
      && (forall w | w in s'.outcomes && s'.outcomes[w] == Delivered :: OnWire(s', w))
      && (forall w | OnWire(s', w) ::
            w in s'.outcomes && (s'.outcomes[w] == Delivered || s'.outcomes[w] == Cancelled))
  {
    assert s.wire + s.queue == [];
    RunKeeps(s, ops);
    var s' := After(s, ops);
    forall w | OnWire(s', w)
      ensures w in s'.outcomes && (s'.outcomes[w] == Delivered || s'.outcomes[w] == Cancelled)
    {
      var e :| e in s'.wire && e.waiter == Some(w);
      assert WrittenOk(s', e);
    }
    forall e | e in s'.wire + s'.queue ensures Logged(s', e) {
      assert e in s'.wire || e in s'.queue;
    }
    forall id | id in s'.lost ensures !HasId(s'.wire, id) && !HasId(s'.queue, id) {
      forall e | e in s'.wire ensures e.id != id {
        assert WrittenOk(s', e);
      }
      forall e | e in s'.queue ensures e.id != id {
        assert QueuedOk(s', e);
      }
    }
  }

  /**
   * Closing tells every caller that still waits that the transport is closed, changes no other future, writes nothing,
   * and records each queued frame as dropped.
   */
  lemma {:induction false} ClearTellsEveryone(s: State)
    ensures var s' := ClearStep(s);
      && s'.queue == [] && s'.wire == s.wire
      && (forall e | e in s.queue && e.waiter.Some? && e.waiter.value !in s.outcomes ::
            e.waiter.value in s'.outcomes && s'.outcomes[e.waiter.value] == TransportClosed)
      && (forall w | w in s.outcomes :: w in s'.outcomes && s'.outcomes[w] == s.outcomes[w])
      && (forall w | w in s'.outcomes && w !in s.outcomes :: exists e :: e in s.queue && e.waiter == Some(w))
      && (forall e | e in s.queue :: e.id in s'.lost && s'.lost[e.id] == DroppedAtClose)
      && (forall id | id in s.lost && s.lost[id] == DroppedAtClose :: id in s'.lost && s'.lost[id] == DroppedAtClose)
    decreases |s.queue|
  {
    if s.queue != [] {
      var next := Lose(s, 0, Some(TransportClosed), DroppedAtClose);
      assert next.queue == s.queue[1..];
      ClearTellsEveryone(next);
      forall e | e in s.queue ensures e == s.queue[0] || e in next.queue {
      }
    }
  }

  lemma {:induction false} ClearLost(s: State, id: nat)
    requires Inv(s) && id in s.lost
    ensures id in ClearStep(s).lost && ClearStep(s).lost[id] == s.lost[id]
    decreases |s.queue|
  {
    if s.queue != [] {
      assert s.queue[0] in s.queue;
      LoseKeeps(s, 0, Some(TransportClosed), DroppedAtClose);
      ClearLost(Lose(s, 0, Some(TransportClosed), DroppedAtClose), id);
    }
  }

  lemma LostStep(s: State, op: Op, id: nat)
    requires Inv(s) && Enabled(s, op) && id in s.lost
    ensures id in Apply(s, op).lost && Apply(s, op).lost[id] == s.lost[id]
  {
    forall i | 0 <= i < |s.queue| ensures s.queue[i].id != id {
      assert s.queue[i] in s.queue;
    }
    if op.Clear? {
      ClearLost(s, id);
    }
  }

  lemma {:induction false} LostForever(s: State, ops: seq<Op>, id: nat)
    requires Inv(s) && Runs(s, ops) && id in s.lost
    ensures id in After(s, ops).lost && !HasId(After(s, ops).wire, id)
    decreases |ops|
  {
    if ops == [] {
      forall e | e in s.wire ensures e.id != id {
        assert WrittenOk(s, e);
      }
    } else {
      OpKeeps(s, ops[0]);
      LostStep(s, ops[0], id);
      LostForever(Apply(s, ops[0]), ops[1..], id);
    }
  }

  /** A cancelled caller whose frame is still queued takes out that frame only, and it is never written. */
  lemma RemovedIsNeverWritten(s: State, i: nat, waiter: Waiter, ops: seq<Op>)
    requires Inv(s) && i < |s.queue| && s.queue[i].waiter == Some(waiter)
    requires Runs(RemoveStep(s, waiter), ops)
    ensures RemoveStep(s, waiter).queue == s.queue[..i] + s.queue[i + 1..]
    ensures !HasId(After(RemoveStep(s, waiter), ops).wire, s.queue[i].id)
  {
    var k := IndexOf(s.queue, waiter);
    var all := s.wire + s.queue;
    assert all[|s.wire| + k] == s.queue[k] && all[|s.wire| + i] == s.queue[i];
    assert k == i;
    RemoveKeeps(s, waiter);
    LostForever(RemoveStep(s, waiter), ops, s.queue[i].id);
  }

  predicate LostAsOldest(s: State, id: nat) {
    id in s.lost && s.lost[id] == DroppedAsOldest
  }

  lemma {:induction false} ClearDisplacesNothing(s: State, id: nat)
    requires LostAsOldest(ClearStep(s), id)
    ensures LostAsOldest(s, id)
    decreases |s.queue|
  {
    if s.queue != [] {
      ClearDisplacesNothing(Lose(s, 0, Some(TransportClosed), DroppedAtClose), id);
    }
  }

  lemma OnlySendDisplaces(s: State, op: Op, id: nat)
    requires Enabled(s, op) && LostAsOldest(Apply(s, op), id) && !LostAsOldest(s, id)
    ensures op.Send?
  {
    if op.Clear? {
      ClearDisplacesNothing(s, id);
    }
  }

  /**
   * After any run, the only operation that displaces a frame is a submission that may, and finds a full queue of a
   * thousand: it loses exactly the oldest frame, tells its caller, and takes the last place itself.
   */
  lemma DisplacedOnlyWhenFull(s: State, ops: seq<Op>, op: Op, id: nat)
    requires Init(s) && Runs(s, ops) && Enabled(After(s, ops), op)
    requires LostAsOldest(Apply(After(s, ops), op), id) && !LostAsOldest(After(s, ops), id)
    ensures var full, s' := After(s, ops), Apply(After(s, ops), op);
      && op.Send? && op.dropOldest && |full.queue| == MAX_RELIABLE_QUEUE && id == full.queue[0].id
      && s'.lost == full.lost[id := DroppedAsOldest]
      && s'.outcomes == Settle(full.outcomes, full.queue[0].waiter, Displaced)
      && s'.queue == full.queue[1..] + [Entry(|full.log|, op.frame, op.waiter)] && s'.wire == full.wire
  {
    RunKeeps(s, ops);
    OnlySendDisplaces(After(s, ops), op, id);
  }
}
