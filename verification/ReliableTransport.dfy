/** The reliable queue as the transport keeps it: two parallel deques under one lock. */
module ReliableTransport {
  import opened Options
  import opened ReliableQueue

  datatype SendError = NoError | IsClosed | QueueIsFull

  /** One turn of the flush loop: the connection check, the callers that gave up during the write, its end. */
  datatype Turn = Turn(connected: bool, cancelled: seq<Waiter>, written: bool)

  /** Only futures that were handed out can be cancelled. */
  predicate AllKnown(waiters: seq<Waiter>, known: set<Waiter>) {
    forall w | w in waiters :: w in known
  }

  predicate TurnsKnown(turns: seq<Turn>, known: set<Waiter>) {
    forall turn | turn in turns :: AllKnown(turn.cancelled, known)
  }

  function CancelAll(s: State, waiters: seq<Waiter>): (r: State)
    ensures r == s.(outcomes := r.outcomes)
    decreases |waiters|
  {
    if waiters == [] then s
    else CancelAll(s.(outcomes := Settle(s.outcomes, Some(waiters[0]), Cancelled)), waiters[1..])
  }

  /** The flush loop: it stops when the queue is empty, the connection is gone, or a write fails. */
  function FlushAll(s: State, turns: seq<Turn>): State
    decreases |turns|
  {
    if turns == [] || s.queue == [] || !turns[0].connected then s
    else
      var waited := CancelAll(s, turns[0].cancelled);
      if turns[0].written then FlushAll(FlushStep(waited), turns[1..]) else waited
  }

  lemma {:induction false} CancelAllKeeps(s: State, waiters: seq<Waiter>)
    requires Inv(s) && AllKnown(waiters, s.known)
    ensures Inv(CancelAll(s, waiters))
    decreases |waiters|
  {
    if waiters != [] {
      CancelKeeps(s, waiters[0]);
      CancelAllKeeps(s.(outcomes := Settle(s.outcomes, Some(waiters[0]), Cancelled)), waiters[1..]);
    }
  }

  lemma {:induction false} FlushAllKeeps(s: State, turns: seq<Turn>)
    requires Inv(s) && TurnsKnown(turns, s.known)
    ensures Inv(FlushAll(s, turns))
    decreases |turns|
  {
    if turns != [] && s.queue != [] && turns[0].connected {
      assert turns[0] in turns;
      CancelAllKeeps(s, turns[0].cancelled);
      if turns[0].written {
        var waited := CancelAll(s, turns[0].cancelled);
        FlushKeeps(waited);
        FlushAllKeeps(FlushStep(waited), turns[1..]);
      }
    }
  }

  /** A flush moves a prefix of the queue to the wire and keeps the rest, whatever fails meanwhile. */
  lemma {:induction false} FlushWritesPrefix(s: State, turns: seq<Turn>)
    ensures var s' := FlushAll(s, turns);
      && s'.wire + s'.queue == s.wire + s.queue
      && s.wire <= s'.wire
      && s'.lost == s.lost && s'.log == s.log
    decreases |turns|
  {
    if turns != [] && s.queue != [] && turns[0].connected {
      var waited := CancelAll(s, turns[0].cancelled);
      if turns[0].written {
        FlushWritesPrefix(FlushStep(waited), turns[1..]);
      }
    }
  }

  /** The first `n` turns each find the connection open and write a frame, and there are as many frames. */
  predicate CanWrite(waiting: nat, turns: seq<Turn>, n: nat) {
    n <= waiting && n <= |turns| && forall i | 0 <= i < n :: turns[i].connected && turns[i].written
  }

  /** As many as can be written one after the other. */
  ghost predicate IsReach(waiting: nat, turns: seq<Turn>, n: nat) {
    CanWrite(waiting, turns, n) && forall m: nat | CanWrite(waiting, turns, m) :: m <= n
  }

  lemma NothingToWrite(waiting: nat, turns: seq<Turn>)
    requires turns == [] || waiting == 0 || !turns[0].connected || !turns[0].written
    ensures IsReach(waiting, turns, 0)
  {
  }

  lemma OneMoreReached(waiting: nat, turns: seq<Turn>, n: nat)
    requires turns != [] && waiting > 0 && turns[0].connected && turns[0].written
    requires IsReach(waiting - 1, turns[1..], n)
    ensures IsReach(waiting, turns, n + 1)
  {
    forall i | 0 <= i < n + 1 ensures turns[i].connected && turns[i].written {
      assert i > 0 ==> turns[i] == turns[1..][i - 1];
    }
    forall m: nat | CanWrite(waiting, turns, m) ensures m <= n + 1 {
      if m > 0 {
        assert CanWrite(waiting - 1, turns[1..], m - 1);
      }
    }
  }

  /** A flush writes exactly as many frames as its turns allow, from the front, and keeps the others. */
  lemma {:induction false} FlushWritesItsReach(s: State, turns: seq<Turn>) returns (n: nat)
    ensures IsReach(|s.queue|, turns, n)
    ensures FlushAll(s, turns).wire == s.wire + s.queue[..n] && FlushAll(s, turns).queue == s.queue[n..]
    decreases |turns|
  {
    if turns != [] && s.queue != [] && turns[0].connected && turns[0].written {
      var next := FlushStep(CancelAll(s, turns[0].cancelled));
      n := FlushWritesItsReach(next, turns[1..]);
      OneMoreReached(|s.queue|, turns, n);
      n := n + 1;
      assert s.queue[..n] == [s.queue[0]] + next.queue[..n - 1];
    } else {
      NothingToWrite(|s.queue|, turns);
      n := 0;
    }
  }

  lemma {:induction false} CancelAllCancels(s: State, waiters: seq<Waiter>, w: Waiter)
    ensures var after := CancelAll(s, waiters).outcomes;
      w in after && after[w] == Cancelled ==> (w in s.outcomes && s.outcomes[w] == Cancelled) || w in waiters
    decreases |waiters|
  {
    if waiters != [] {
      CancelAllCancels(s.(outcomes := Settle(s.outcomes, Some(waiters[0]), Cancelled)), waiters[1..], w);
    }
  }

  predicate GivesUp(turns: seq<Turn>, w: Waiter) {
    exists turn :: turn in turns && w in turn.cancelled
  }

  /** During a flush, a caller's future is cancelled only by that caller. */
  lemma {:induction false} FlushCancelsNobody(s: State, turns: seq<Turn>, w: Waiter)
    requires w in FlushAll(s, turns).outcomes && FlushAll(s, turns).outcomes[w] == Cancelled
    ensures (w in s.outcomes && s.outcomes[w] == Cancelled) || GivesUp(turns, w)
    decreases |turns|
  {
    if turns != [] && s.queue != [] && turns[0].connected {
      CancelAllCancels(s, turns[0].cancelled, w);
      var waited := CancelAll(s, turns[0].cancelled);
      assert turns[0] in turns;
      if turns[0].written {
        FlushCancelsNobody(FlushStep(waited), turns[1..], w);
        if GivesUp(turns[1..], w) {
          var turn :| turn in turns[1..] && w in turn.cancelled;
          assert turn in turns;
        }
      }
    }
  }

  /** A flush with enough good turns empties the queue and tells every caller that did not give up of its delivery. */
  lemma GoodFlushDeliversAll(s: State, turns: seq<Turn>)
    requires Inv(s) && TurnsKnown(turns, s.known) && CanWrite(|s.queue|, turns, |s.queue|)
    ensures var s' := FlushAll(s, turns);
      && s'.queue == [] && s'.wire == s.wire + s.queue
      && forall e |
           e in s.queue && e.waiter.Some? && e.waiter.value !in s.outcomes && !GivesUp(turns, e.waiter.value) ::
             e.waiter.value in s'.outcomes && s'.outcomes[e.waiter.value] == Delivered
  {
    var s' := FlushAll(s, turns);
    var n := FlushWritesItsReach(s, turns);
    FlushAllKeeps(s, turns);
    assert s.queue[..|s.queue|] == s.queue;
    forall e | e in s.queue && e.waiter.Some? && e.waiter.value !in s.outcomes && !GivesUp(turns, e.waiter.value)
      ensures e.waiter.value in s'.outcomes && s'.outcomes[e.waiter.value] == Delivered
    {
      assert e in s'.wire && WrittenOk(s', e);
      if s'.outcomes[e.waiter.value] == Cancelled {
        FlushCancelsNobody(s, turns, e.waiter.value);
      }
    }
  }

  /** The two deques side by side. */
  function Zip(ids: seq<nat>, frames: seq<Frame>, waiters: seq<Option<Waiter>>): (r: seq<Entry>)
    requires |ids| == |frames| == |waiters|
    ensures |r| == |ids|
    ensures forall i | 0 <= i < |r| :: r[i] == Entry(ids[i], frames[i], waiters[i])
  {
    seq(|ids|, i requires 0 <= i < |ids| => Entry(ids[i], frames[i], waiters[i]))
  }

  /** The first `i` items without the one at `at`. */
  function Cut<T>(items: seq<T>, at: nat, i: nat): seq<T>
    requires i <= |items|
  {
    if i <= at then items[..i] else items[..at] + items[at + 1..i]
  }

  lemma CutStep<T>(items: seq<T>, at: nat, i: nat)
    requires i < |items|
    ensures Cut(items, at, i + 1) == if i == at then Cut(items, at, i) else Cut(items, at, i) + [items[i]]
  {
  }

  lemma CutAll<T>(items: seq<T>, at: nat)
    requires at <= |items|
    ensures Cut(items, at, |items|) == if at == |items| then items else items[..at] + items[at + 1..]
  {
  }

  lemma ZipWithout(ids: seq<nat>, frames: seq<Frame>, waiters: seq<Option<Waiter>>, at: nat)
    requires |ids| == |frames| == |waiters| && at < |ids|
    ensures var all := Zip(ids, frames, waiters);
      Zip(ids[..at] + ids[at + 1..], frames[..at] + frames[at + 1..], waiters[..at] + waiters[at + 1..])
        == all[..at] + all[at + 1..]
  {
  }

  class WSClientTransport {
    var reliableQueue: seq<Frame>
    var reliableWaiters: seq<Option<Waiter>>
    var outcomes: map<Waiter, Outcome>
    var closed: bool
    ghost var ids: seq<nat>
    ghost var wire: seq<Entry>
    ghost var lost: map<nat, Loss>
    ghost var log: seq<Entry>
    ghost var known: set<Waiter>

    ghost predicate Aligned()
      reads this
    {
      |reliableQueue| == |reliableWaiters| == |ids|
    }

    ghost function Now(): State
      reads this
      requires Aligned()
    {
      State(Zip(ids, reliableQueue, reliableWaiters), wire, outcomes, lost, log, known)
    }

    ghost predicate Valid()
      reads this
    {
      Aligned() && Inv(Now())
    }

    constructor ()
      ensures Valid() && Init(Now()) && !closed
    {
      reliableQueue, reliableWaiters, outcomes, closed := [], [], map[], false;
      ids, wire, lost, log, known := [], [], map[], [], {};
    }

    method SettleWaiter(waiter: Option<Waiter>, outcome: Outcome)
      modifies this`outcomes
      ensures outcomes == Settle(old(outcomes), waiter, outcome)
    {
      if waiter.Some? && waiter.value !in outcomes {
        outcomes := outcomes[waiter.value := outcome];
      }
    }

    method PopLeft() returns (frame: Frame, waiter: Option<Waiter>)
      requires Aligned() && reliableQueue != []
      modifies this`reliableQueue, this`reliableWaiters, this`ids
      ensures Aligned() && |reliableQueue| == old(|reliableQueue|) - 1
      ensures Entry(old(ids[0]), frame, waiter) == old(Now().queue[0])
      ensures Now() == old(Now()).(queue := old(Now()).queue[1..])
    {
      frame, waiter := reliableQueue[0], reliableWaiters[0];
      reliableQueue, reliableWaiters, ids := reliableQueue[1..], reliableWaiters[1..], ids[1..];
      assert Zip(ids, reliableQueue, reliableWaiters) == old(Now()).queue[1..];
    }

    /** Append one frame with its waiter, displacing the oldest from a full queue. */
    method Append(frame: Frame, waiter: Option<Waiter>, ghost id: nat)
      requires Aligned() && |reliableQueue| <= MAX_RELIABLE_QUEUE
      modifies this`reliableQueue, this`reliableWaiters, this`ids, this`outcomes, this`lost
      ensures Aligned() && Now() == Enqueue(old(Now()), Entry(id, frame, waiter))
    {
      if |reliableQueue| >= MAX_RELIABLE_QUEUE {
        LoseOldest(Displaced, DroppedAsOldest);
      }
      ghost var room := Now();
      reliableQueue, reliableWaiters, ids := reliableQueue + [frame], reliableWaiters + [waiter], ids + [id];
      assert Zip(ids, reliableQueue, reliableWaiters) == room.queue + [Entry(id, frame, waiter)];
    }

    method LoseOldest(outcome: Outcome, ghost loss: Loss)
      requires Aligned() && reliableQueue != []
      modifies this`reliableQueue, this`reliableWaiters, this`ids, this`outcomes, this`lost
      ensures Aligned() && |reliableQueue| == old(|reliableQueue|) - 1
      ensures Now() == Lose(old(Now()), 0, Some(outcome), loss)
    {
      ghost var full := Now();
      ghost var oldest := ids[0];
      var _, waiter := PopLeft();
      SettleWaiter(waiter, outcome);
      lost := lost[oldest := loss];
      assert full.queue[..0] + full.queue[1..] == full.queue[1..];
    }

    /** The socket is open and nothing is waiting: write at once, and queue the frame if that fails. */
    method WriteOrQueue(frame: Frame, waiter: Option<Waiter>, write: Write, ghost id: nat)
      requires Aligned() && |reliableQueue| <= MAX_RELIABLE_QUEUE
      modifies this`reliableQueue, this`reliableWaiters, this`ids, this`outcomes, this`lost, this`wire
      ensures Aligned() && Now() == WriteDirectly(old(Now()), Entry(id, frame, waiter), write)
    {
      match write
      case Written =>
        SettleWaiter(waiter, Delivered);
        wire := wire + [Entry(id, frame, waiter)];
      case Failed =>
        Append(frame, waiter, id);
      case Interrupted(reached) =>
        SettleWaiter(waiter, Cancelled);
        if reached {
          wire := wire + [Entry(id, frame, waiter)];
        } else {
          lost := lost[id := InterruptedWrite];
        }
    }

    /**
     * What a submission does once it has the lock: send when the socket is open and nothing is waiting, otherwise
     * queue, displacing the oldest if allowed. A call that waited for the lock gets here after a close as well.
     */
    method SendLocked(frame: Frame, waiter: Option<Waiter>, dropOldest: bool, connected: bool, write: Write)
      returns (error: SendError)
      requires Valid() && (waiter.Some? ==> waiter.value !in known)
      modifies this
      ensures Valid() && closed == old(closed)
      ensures Now() == SendStep(old(Now()), frame, waiter, dropOldest, connected, write)
      ensures error == if Refuses(old(Now()), dropOldest, connected) then QueueIsFull else NoError
    {
      SendKeeps(Now(), frame, waiter, dropOldest, connected, write);
      var direct := connected && reliableQueue == [];
      if !direct && |reliableQueue| >= MAX_RELIABLE_QUEUE && !dropOldest {
        return QueueIsFull;
      }
      ghost var id := |log|;
      log := log + [Entry(id, frame, waiter)];
      if waiter.Some? {
        known := known + {waiter.value};
      }
      if direct {
        WriteOrQueue(frame, waiter, write, id);
      } else {
        Append(frame, waiter, id);
      }
      error := NoError;
    }

    /** A call that finds the lock free: a closed transport refuses it. */
    method SendReliable(frame: Frame, waiter: Option<Waiter>, dropOldest: bool, connected: bool, write: Write)
      returns (error: SendError)
      requires Valid() && (waiter.Some? ==> waiter.value !in known)
      modifies this
      ensures Valid() && closed == old(closed)
      ensures error == IsClosed <==> old(closed)
      ensures error == IsClosed ==> Now() == old(Now())
      ensures error != IsClosed ==> Now() == SendStep(old(Now()), frame, waiter, dropOldest, connected, write)
      ensures error == QueueIsFull <==> !old(closed) && Refuses(old(Now()), dropOldest, connected)
    {
      if closed {
        return IsClosed;
      }
      error := SendLocked(frame, waiter, dropOldest, connected, write);
    }

    /** The oldest frame was written: pop it and tell its caller. */
    method FrontWritten()
      requires Aligned() && reliableQueue != []
      modifies this`reliableQueue, this`reliableWaiters, this`ids, this`outcomes, this`wire
      ensures Aligned() && Now() == FlushStep(old(Now()))
      ensures |reliableQueue| == old(|reliableQueue|) - 1
    {
      ghost var front := Now().queue[0];
      var _, waiter := PopLeft();
      wire := wire + [front];
      SettleWaiter(waiter, Delivered);
    }

    /** Callers give up while the lock is held elsewhere: only their futures change. */
    method GiveUp(waiters: seq<Waiter>)
      requires Aligned()
      modifies this`outcomes
      ensures Now() == CancelAll(old(Now()), waiters)
    {
      for i := 0 to |waiters|
        invariant Now() == old(Now()).(outcomes := outcomes)
        invariant CancelAll(Now(), waiters[i..]) == CancelAll(old(Now()), waiters)
      {
        assert waiters[i..][1..] == waiters[i + 1..];
        SettleWaiter(Some(waiters[i]), Cancelled);
      }
    }

    /** The loop: each frame is popped only after its write succeeded. */
    method WriteQueued(turns: seq<Turn>) returns (sent: nat)
      requires Aligned()
      modifies this`reliableQueue, this`reliableWaiters, this`ids, this`outcomes, this`wire
      ensures Aligned() && Now() == FlushAll(old(Now()), turns)
      ensures sent == |old(reliableQueue)| - |reliableQueue|
    {
      sent := 0;
      var i := 0;
      while i < |turns| && reliableQueue != [] && turns[i].connected
        invariant i <= |turns| && Aligned()
        invariant FlushAll(Now(), turns[i..]) == FlushAll(old(Now()), turns)
        invariant sent == |old(reliableQueue)| - |reliableQueue|
        decreases |turns| - i
      {
        assert turns[i..][1..] == turns[i + 1..];
        GiveUp(turns[i].cancelled);
        if !turns[i].written {
          return;
        }
        FrontWritten();
        sent := sent + 1;
        i := i + 1;
      }
    }

    /** Write as many queued frames as the connection takes. */
    method FlushReliable(turns: seq<Turn>) returns (sent: nat)
      requires Valid() && TurnsKnown(turns, known)
      modifies this`reliableQueue, this`reliableWaiters, this`ids, this`outcomes, this`wire
      ensures Valid() && Now() == FlushAll(old(Now()), turns)
      ensures IsReach(|old(reliableQueue)|, turns, sent)
      ensures wire == old(wire) + old(Now()).queue[..sent] && Now().queue == old(Now()).queue[sent..]
    {
      FlushAllKeeps(Now(), turns);
      ghost var n := FlushWritesItsReach(Now(), turns);
      ghost var queue := Now().queue;
      sent := WriteQueued(turns);
      assert |queue[n..]| == |queue| - n;
    }

    /** Take out the queued frame of one cancelled caller, rebuilding both deques. */
    method RemoveReliableWaiter(target: Waiter)
      requires Valid() && target in outcomes && outcomes[target] == Cancelled
      modifies this`reliableQueue, this`reliableWaiters, this`ids, this`lost
      ensures Valid() && Now() == RemoveStep(old(Now()), target)
    {
      ghost var s := Now();
      RemoveKeeps(s, target);
      var at := Rebuild(target);
      CutAll(old(reliableQueue), at);
      CutAll(old(reliableWaiters), at);
      CutAll(old(ids), at);
      if at < |s.queue| {
        ZipWithout(old(ids), old(reliableQueue), old(reliableWaiters), at);
      }
    }

    /** The loop that takes the entries over, all but the first of the target's. */
    method CutOut(target: Waiter, ghost at: nat)
      returns (frames: seq<Frame>, waiters: seq<Option<Waiter>>, ghost kept: seq<nat>)
      requires Aligned() && at <= |ids|
      requires at < |ids| ==> reliableWaiters[at] == Some(target)
      requires forall j | 0 <= j < at :: reliableWaiters[j] != Some(target)
      ensures frames == Cut(reliableQueue, at, |ids|)
      ensures waiters == Cut(reliableWaiters, at, |ids|) && kept == Cut(ids, at, |ids|)
    {
      frames, waiters, kept := [], [], [];
      var removed := false;
      for i := 0 to |reliableQueue|
        invariant removed <==> i > at
        invariant frames == Cut(reliableQueue, at, i)
        invariant waiters == Cut(reliableWaiters, at, i)
        invariant kept == Cut(ids, at, i)
      {
        CutStep(reliableQueue, at, i);
        CutStep(reliableWaiters, at, i);
        CutStep(ids, at, i);
        if !removed && reliableWaiters[i] == Some(target) {
          removed := true;
          continue;
        }
        frames, waiters, kept := frames + [reliableQueue[i]], waiters + [reliableWaiters[i]], kept + [ids[i]];
      }
    }

    method Rebuild(target: Waiter) returns (ghost at: nat)
      requires Aligned()
      modifies this`reliableQueue, this`reliableWaiters, this`ids, this`lost
      ensures at == IndexOf(old(Now()).queue, target) <= |old(ids)|
      ensures reliableQueue == Cut(old(reliableQueue), at, |old(ids)|)
      ensures reliableWaiters == Cut(old(reliableWaiters), at, |old(ids)|) && ids == Cut(old(ids), at, |old(ids)|)
      ensures lost == if at < |old(ids)| then old(lost)[old(ids)[at] := RemovedByCaller] else old(lost)
    {
      at := IndexOf(Now().queue, target);
      assert forall j | 0 <= j < |ids| :: Now().queue[j].waiter == reliableWaiters[j];
      var frames, waiters, kept := CutOut(target, at);
      if at < |ids| {
        lost := lost[ids[at] := RemovedByCaller];
      }
      reliableQueue, reliableWaiters, ids := frames, waiters, kept;
    }

    /** After the best-effort flush, what is left is dropped and its callers are told. */
    method Close(turns: seq<Turn>)
      requires Valid() && TurnsKnown(turns, known)
      modifies this
      ensures Valid() && closed && reliableQueue == []
      ensures Now() == ClearStep(FlushAll(old(Now()), turns))
    {
      closed := true;
      var _ := FlushReliable(turns);
      ghost var s := Now();
      ClearKeeps(s);
      while reliableWaiters != []
        invariant Aligned() && closed && Inv(Now())
        invariant ClearStep(Now()) == ClearStep(s)
        decreases |reliableWaiters|
      {
        LoseKeeps(Now(), 0, Some(TransportClosed), DroppedAtClose);
        LoseOldest(TransportClosed, DroppedAtClose);
      }
    }
  }
}
