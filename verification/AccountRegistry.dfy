/** One account of the gateway's registry: its bound client and the reliable frames that wait for one. */
module AccountRegistry {
  import opened Options
  import Frames

  type Client = nat

  /** What the gateway sends to the bridge: an answer to a request, or anything else. */
  datatype Frame = Answer(id: Frames.RequestId, answer: Frames.Frame) | Event(body: string)

  const MAX_RELIABLE_QUEUE: nat := 1000

  /** One reliable frame, numbered in the order of `sendReliableToClient` calls. */
  datatype Entry = Entry(id: nat, frame: Frame)

  datatype State = State(
    client: Option<Client>,
    down: set<Client>,           // sockets that are no longer OPEN; a socket never opens again
    queue: seq<Entry>,
    handed: seq<Entry>,          // handed to some client's socket, in order
    dropped: seq<Entry>,         // displaced by overflow, in order
    discarded: set<nat>,         // dropped with the account itself
    log: seq<Entry>)             // every frame sent, in order

  predicate Init(s: State) {
    s.client == None && s.queue == [] && s.handed == [] && s.dropped == [] && s.discarded == {} && s.log == []
  }

  predicate IsOpen(s: State) {
    s.client.Some? && s.client.value !in s.down
  }

  datatype Op =
    | Bind(client: Client, accepts: nat)       // flushes; the socket accepts that many sends
    | Unbind(only: Option<Client>)
    | GoDown(client: Client)                   // the environment: a socket leaves OPEN
    | Send(frame: Frame, accepted: bool)
    | Flush(accepts: nat)
    | Discard

  function Enqueue(s: State, e: Entry): State {
    var queue := s.queue + [e];
    if |queue| > MAX_RELIABLE_QUEUE then s.(queue := queue[1..], dropped := s.dropped + [queue[0]])
    else s.(queue := queue)
  }

  /** The socket takes `accepts` frames; the next one fails, unbinds the client and stays first in the queue. */
  function FlushStep(s: State, accepts: nat): State {
    if !IsOpen(s) || s.queue == [] then s
    else if accepts >= |s.queue| then s.(handed := s.handed + s.queue, queue := [])
    else s.(handed := s.handed + s.queue[..accepts], queue := s.queue[accepts..], client := None)
  }

  function SendStep(s: State, frame: Frame, accepted: bool): State {
    var e := Entry(|s.log|, frame);
    var counted := s.(log := s.log + [e]);
    if !IsOpen(s) then Enqueue(counted, e)
    else if accepted then counted.(handed := s.handed + [e])
    else Enqueue(counted.(client := None), e)
  }

  function Ids(entries: seq<Entry>): set<nat> {
    set e | e in entries :: e.id
  }

  function Apply(s: State, op: Op): State {
    match op
    case Bind(client, accepts) => FlushStep(s.(client := Some(client)), accepts)
    case Unbind(only) => if only.Some? && s.client != only then s else s.(client := None)
    case GoDown(client) => s.(down := s.down + {client})
    case Send(frame, accepted) => SendStep(s, frame, accepted)
    case Flush(accepts) => FlushStep(s, accepts)
    case Discard => s.(client := None, queue := [], discarded := s.discarded + Ids(s.queue))
  }

  // ----- what every operation keeps -----

  ghost predicate Increasing(entries: seq<Entry>) {
    forall i, j | 0 <= i < j < |entries| :: entries[i].id < entries[j].id
  }

  /** The entry is, number and content, what was sent. */
  predicate Logged(s: State, e: Entry) {
    e.id < |s.log| && s.log[e.id] == e
  }

  ghost predicate Accounted(s: State, id: nat) {
    id in Ids(s.handed) || id in Ids(s.queue) || id in Ids(s.dropped) || id in s.discarded
  }

  /** Each frame is in one place, and in every place frames keep the order in which they were sent. */
  ghost predicate Ordered(s: State) {
    && Increasing(s.handed + s.queue)
    && Increasing(s.dropped + s.queue)
    && (forall e | e in s.handed + s.queue + s.dropped :: Logged(s, e) && e.id !in s.discarded)
    && (forall id | id in s.discarded :: id < |s.log|)
    && (forall e, f | e in s.handed && f in s.dropped :: e.id != f.id)
    && (forall id: nat | id < |s.log| :: Accounted(s, id))
  }

  ghost predicate Inv(s: State) {
    && (IsOpen(s) ==> s.queue == [])
    && |s.queue| <= MAX_RELIABLE_QUEUE
    && Ordered(s)
  }

  lemma AppendIncreasing(entries: seq<Entry>, e: Entry)
    requires Increasing(entries) && forall f | f in entries :: f.id < e.id
    ensures Increasing(entries + [e])
  {
    var all := entries + [e];
    forall i, j | 0 <= i < j < |all| ensures all[i].id < all[j].id {
      assert all[i] in entries;
    }
  }

  lemma TailIncreasing(first: seq<Entry>, k: nat, rest: seq<Entry>)
    requires k <= |rest| && Increasing(first + rest)
    ensures Increasing(first + rest[k..])
    ensures forall e, f | e in first && f in rest :: e.id < f.id
    ensures forall e, f | e in rest[..k] && f in rest[k..] :: e.id < f.id
  {
    var all, cut := first + rest, first + rest[k..];
    forall i | 0 <= i < |cut| ensures cut[i] == all[if i < |first| then i else i + k] {}
    forall e, f | e in first && f in rest ensures e.id < f.id {
      var i :| 0 <= i < |first| && first[i] == e;
      var j :| 0 <= j < |rest| && rest[j] == f;
      assert all[i] == e && all[|first| + j] == f;
    }
    forall e, f | e in rest[..k] && f in rest[k..] ensures e.id < f.id {
      var i :| 0 <= i < k && rest[i] == e;
      var j :| k <= j < |rest| && rest[j] == f;
      assert all[|first| + i] == e && all[|first| + j] == f;
    }
  }

  lemma SplitIds(a: seq<Entry>, b: seq<Entry>)
    ensures Ids(a + b) == Ids(a) + Ids(b)
  {
    assert forall e :: e in a + b <==> e in a || e in b;
  }

  lemma FlushKeeps(s: State, accepts: nat)
    requires Inv(s.(client := None)) && (s.queue == [] || IsOpen(s) || s.client == None || s.client.value in s.down)
    ensures Inv(FlushStep(s, accepts))
  {
    var s' := FlushStep(s, accepts);
    if IsOpen(s) && s.queue != [] {
      var k := if accepts >= |s.queue| then |s.queue| else accepts;
      var moved := s.queue[..k];
      assert s.queue == moved + s.queue[k..];
      assert s'.handed == s.handed + moved && s'.queue == s.queue[k..];
      assert s'.handed + s'.queue == s.handed + s.queue;
      TailIncreasing(s.dropped, k, s.queue);
      TailIncreasing(s.handed, k, s.queue);
      SplitIds(s.handed, moved);
      SplitIds(moved, s.queue[k..]);
      forall e | e in s'.handed + s'.queue + s'.dropped ensures Logged(s', e) && e.id !in s'.discarded {
        assert e in s.handed + s.queue + s.dropped;
      }
      forall e, f | e in s'.handed && f in s'.dropped ensures e.id != f.id {
        assert e in s.handed || e in s.queue;
      }
      forall id: nat | id < |s'.log| ensures Accounted(s', id) {
        assert Accounted(s.(client := None), id);
      }
    } else {
      forall id: nat | id < |s'.log| ensures Accounted(s', id) {
        assert Accounted(s.(client := None), id);
      }
    }
  }

  lemma NewestIsLast(s: State, e: Entry)
    requires Ordered(s) && e.id == |s.log|
    ensures Increasing(s.handed + s.queue + [e]) && Increasing(s.dropped + s.queue + [e])
  {
    forall f | f in s.handed + s.queue ensures f.id < e.id {
      assert f in s.handed + s.queue + s.dropped;
    }
    forall f | f in s.dropped + s.queue ensures f.id < e.id {
      assert f in s.handed + s.queue + s.dropped;
    }
    AppendIncreasing(s.handed + s.queue, e);
    AppendIncreasing(s.dropped + s.queue, e);
  }

  lemma JoinAccounts(s: State, e: Entry)
    requires Ordered(s) && e.id == |s.log|
    ensures var s' := s.(log := s.log + [e], queue := s.queue + [e]);
      forall id: nat | id < |s'.log| :: Accounted(s', id)
  {
    var s' := s.(log := s.log + [e], queue := s.queue + [e]);
    SplitIds(s.queue, [e]);
    forall id: nat | id < |s'.log| ensures Accounted(s', id) {
      if id < |s.log| {
        assert Accounted(s, id);
      } else {
        assert e in [e];
      }
    }
  }

  lemma JoinKeeps(s: State, e: Entry)
    requires Ordered(s) && e.id == |s.log|
    ensures Ordered(s.(log := s.log + [e], queue := s.queue + [e]))
  {
    var s' := s.(log := s.log + [e], queue := s.queue + [e]);
    NewestIsLast(s, e);
    assert s.handed + s'.queue == s.handed + s.queue + [e] && s.dropped + s'.queue == s.dropped + s.queue + [e];
    JoinAccounts(s, e);
    forall f | f in s'.handed + s'.queue + s'.dropped ensures Logged(s', f) && f.id !in s'.discarded {
      if f != e {
        assert f in s.handed + s.queue + s.dropped;
        assert Logged(s, f);
      }
    }
  }

  lemma DropKeeps(s: State)
    requires Ordered(s) && s.queue != []
    ensures Ordered(s.(queue := s.queue[1..], dropped := s.dropped + [s.queue[0]]))
  {
    var s' := s.(queue := s.queue[1..], dropped := s.dropped + [s.queue[0]]);
    var out := s.queue[..1];
    assert s.queue == out + s'.queue && s'.dropped == s.dropped + out;
    assert s'.dropped + s'.queue == s.dropped + s.queue;
    TailIncreasing(s.handed, 1, s.queue);
    SplitIds(out, s'.queue);
    SplitIds(s.dropped, out);
    forall f | f in s'.handed + s'.queue + s'.dropped ensures Logged(s', f) && f.id !in s'.discarded {
      assert f in s.handed + s.queue + s.dropped;
    }
    forall id: nat | id < |s'.log| ensures Accounted(s', id) {
      assert Accounted(s, id);
    }
  }

  lemma EnqueueKeeps(s: State, frame: Frame)
    requires Inv(s) && !IsOpen(s)
    ensures Inv(Enqueue(s.(log := s.log + [Entry(|s.log|, frame)]), Entry(|s.log|, frame)))
  {
    var e := Entry(|s.log|, frame);
    JoinKeeps(s, e);
    var joined := s.(log := s.log + [e], queue := s.queue + [e]);
    if |joined.queue| > MAX_RELIABLE_QUEUE {
      DropKeeps(joined);
    }
  }

  lemma HandAccounts(s: State, frame: Frame)
    requires Ordered(s) && IsOpen(s)
    ensures var s' := SendStep(s, frame, true);
      forall id: nat | id < |s'.log| :: Accounted(s', id)
  {
    var e := Entry(|s.log|, frame);
    SplitIds(s.handed, [e]);
    forall id: nat | id < |s.log| + 1 ensures Accounted(SendStep(s, frame, true), id) {
      if id < |s.log| {
        assert Accounted(s, id);
      } else {
        assert e in [e];
      }
    }
  }

  lemma HandKeeps(s: State, frame: Frame)
    requires Inv(s) && IsOpen(s)
    ensures Inv(SendStep(s, frame, true))
  {
    var e := Entry(|s.log|, frame);
    var s' := SendStep(s, frame, true);
    assert forall f | f in s.handed :: f in s.handed + s.queue + s.dropped;
    assert s.handed + s.queue == s.handed && s'.handed + s'.queue == s.handed + [e];
    AppendIncreasing(s.handed, e);
    HandAccounts(s, frame);
    forall f | f in s'.handed + s'.queue + s'.dropped ensures Logged(s', f) && f.id !in s'.discarded {
      assert f == e || f in s.handed + s.queue + s.dropped;
    }
    forall f | f in s'.dropped ensures f.id != e.id {
      assert f in s.handed + s.queue + s.dropped;
    }
  }

  lemma DiscardKeeps(s: State)
    requires Inv(s)
    ensures Inv(Apply(s, Discard))
  {
    var s' := Apply(s, Discard);
    TailIncreasing(s.handed, |s.queue|, s.queue);
    TailIncreasing(s.dropped, |s.queue|, s.queue);
    assert s'.handed + s'.queue == s.handed + s.queue[|s.queue|..];
    assert s'.dropped + s'.queue == s.dropped + s.queue[|s.queue|..];
    forall e | e in s'.handed + s'.queue + s'.dropped ensures Logged(s', e) && e.id !in s'.discarded {
      assert e in s.handed + s.queue + s.dropped;
    }
    forall id: nat | id in s'.discarded ensures id < |s'.log| {
      if id in Ids(s.queue) {
        var e :| e in s.queue && e.id == id;
        assert e in s.handed + s.queue + s.dropped;
      }
    }
    forall id: nat | id < |s'.log| ensures Accounted(s', id) {
      assert Accounted(s, id);
    }
  }

  lemma RebindKeeps(s: State, client: Option<Client>, down: set<Client>)
    requires Inv(s) && (client == None || (client == s.client && s.down <= down))
    ensures Inv(s.(client := client, down := down))
  {
    var s' := s.(client := client, down := down);
    forall id: nat | id < |s'.log| ensures Accounted(s', id) {
      assert Accounted(s, id);
    }
  }

  /** Every operation keeps an open bound client's queue empty, and all frames in order and accounted for. */
  lemma OpKeeps(s: State, op: Op)
    requires Inv(s)
    ensures Inv(Apply(s, op))
  {
    match op
    case Bind(client, accepts) =>
      RebindKeeps(s, None, s.down);
      assert s.(client := Some(client)).(client := None) == s.(client := None);
      FlushKeeps(s.(client := Some(client)), accepts);
    case Unbind(_) => RebindKeeps(s, None, s.down);
    case GoDown(client) => RebindKeeps(s, s.client, s.down + {client});
    case Send(frame, accepted) =>
      if !IsOpen(s) {
        EnqueueKeeps(s, frame);
      } else if accepted {
        HandKeeps(s, frame);
      } else {
        RebindKeeps(s, None, s.down);
        EnqueueKeeps(s.(client := None), frame);
      }
    case Flush(accepts) =>
      RebindKeeps(s, None, s.down);
      FlushKeeps(s, accepts);
    case Discard => DiscardKeeps(s);
  }

  // ----- over every interleaving -----

  function After(s: State, ops: seq<Op>): State
    decreases |ops|
  {
    if ops == [] then s else After(Apply(s, ops[0]), ops[1..])
  }

  lemma {:induction false} RunKeeps(s: State, ops: seq<Op>)
    requires Inv(s)
    ensures Inv(After(s, ops))
    decreases |ops|
  {
    if ops != [] {
      OpKeeps(s, ops[0]);
      RunKeeps(Apply(s, ops[0]), ops[1..]);
    }
  }

  /**
   * Whatever binds, unbinds, fails or closes: frames are handed over in the order they were sent, before all
   * that wait; each frame is handed over, waiting, or one of the oldest-first overflow drops.
   */
  lemma FirstInFirstOut(s: State, ops: seq<Op>)
    requires Init(s)
    ensures var s' := After(s, ops);
      && (IsOpen(s') ==> s'.queue == [])
      && |s'.queue| <= MAX_RELIABLE_QUEUE
      && Increasing(s'.handed + s'.queue) && Increasing(s'.dropped + s'.queue)
      && (forall e | e in s'.handed + s'.queue + s'.dropped :: Logged(s', e))
      && (forall id: nat | id < |s'.log| :: Accounted(s', id))
      && (forall e, f | e in s'.handed && f in s'.dropped :: e.id != f.id)
  {
    assert s.handed + s.queue == [] && s.dropped + s.queue == [] && s.handed + s.queue + s.dropped == [];
    RunKeeps(s, ops);
  }

  /** A frame is displaced only by a send that finds a thousand frames waiting, and it is the oldest of them. */
  lemma DropsOnlyOldestWhenFull(s: State, ops: seq<Op>, op: Op)
    requires Init(s) && Apply(After(s, ops), op).dropped != After(s, ops).dropped
    ensures var s' := After(s, ops);
      && op.Send? && |s'.queue| == MAX_RELIABLE_QUEUE && Apply(s', op).dropped == s'.dropped + [s'.queue[0]]
      && !IsOpen(s')
  {
    assert s.handed + s.queue == [] && s.dropped + s.queue == [] && s.handed + s.queue + s.dropped == [];
    RunKeeps(s, ops);
  }

  // ----- which client is bound -----

  /** What can be told from the operations alone: the bound client, the closed sockets, how many frames wait. */
  datatype View = View(bound: Option<Client>, down: set<Client>, waiting: nat)

  function Seen(s: State): View {
    View(s.client, s.down, |s.queue|)
  }

  predicate Reaches(v: View) {
    v.bound.Some? && v.bound.value !in v.down
  }

  /** A bound client is lost by its own unbind or one for whoever is bound, with the entry, or by a send that fails. */
  predicate Loses(v: View, op: Op, client: Client) {
    || op == Unbind(None) || op == Unbind(Some(client)) || op.Discard?
    || (client !in v.down && ((op.Send? && !op.accepted) || (op.Flush? && op.accepts < v.waiting)))
  }

  function BoundAfter(v: View, op: Op): Option<Client> {
    if op.Bind? then (if op.client !in v.down && op.accepts < v.waiting then None else Some(op.client))
    else if v.bound.Some? && Loses(v, op, v.bound.value) then None
    else v.bound
  }

  function Less(waiting: nat, taken: nat): nat {
    if taken < waiting then waiting - taken else 0
  }

  function WaitingAfter(v: View, op: Op): nat {
    match op
    case Bind(client, accepts) => if client in v.down then v.waiting else Less(v.waiting, accepts)
    case Flush(accepts) => if Reaches(v) then Less(v.waiting, accepts) else v.waiting
    case Send(_, accepted) =>
      if (Reaches(v) && accepted) || v.waiting == MAX_RELIABLE_QUEUE then v.waiting else v.waiting + 1
    case Discard => 0
    case _ => v.waiting
  }

  function Watch(v: View, ops: seq<Op>): View
    decreases |ops|
  {
    if ops == [] then v
    else
      var down := if ops[0].GoDown? then v.down + {ops[0].client} else v.down;
      Watch(View(BoundAfter(v, ops[0]), down, WaitingAfter(v, ops[0])), ops[1..])
  }

  lemma WatchStep(s: State, op: Op)
    requires Inv(s)
    ensures Seen(Apply(s, op)) == Watch(Seen(s), [op])
  {
    assert Watch(Seen(s), [op]) ==
      View(BoundAfter(Seen(s), op), if op.GoDown? then s.down + {op.client} else s.down, WaitingAfter(Seen(s), op));
  }

  lemma {:induction false} WatchRuns(s: State, ops: seq<Op>)
    requires Inv(s)
    ensures Seen(After(s, ops)) == Watch(Seen(s), ops)
    decreases |ops|
  {
    if ops != [] {
      OpKeeps(s, ops[0]);
      WatchStep(s, ops[0]);
      WatchRuns(Apply(s, ops[0]), ops[1..]);
    }
  }

  lemma InitInv(s: State)
    requires Init(s)
    ensures Inv(s)
  {
    assert s.handed + s.queue == [] && s.dropped + s.queue == [] && s.handed + s.queue + s.dropped == [];
  }

  /**
   * After any run the bound client is that of the last bind, unless that bind could not hand over all that waited or
   * the client was lost since.
   */
  lemma BoundClientIs(s: State, ops: seq<Op>)
    requires Init(s)
    ensures After(s, ops).client == Watch(View(None, s.down, 0), ops).bound
    ensures |After(s, ops).queue| == Watch(View(None, s.down, 0), ops).waiting
  {
    InitInv(s);
    WatchRuns(s, ops);
  }

  /** Nothing here concerns the client, or it takes what it is sent. */
  predicate LeavesAlone(op: Op, client: Client) {
    match op
    case Bind(_, _) => false
    case Unbind(only) => only.Some? && only.value != client
    case GoDown(other) => other != client
    case Send(_, accepted) => accepted
    case Flush(_) => true
    case Discard => false
  }

  function Submitted(ops: seq<Op>, id: nat): seq<Entry> {
    if ops == [] then []
    else if ops[0].Send? then [Entry(id, ops[0].frame)] + Submitted(ops[1..], id + 1)
    else Submitted(ops[1..], id)
  }

  function SubmittedBy(op: Op, id: nat): seq<Entry> {
    if op.Send? then [Entry(id, op.frame)] else []
  }

  lemma ServedStep(s: State, client: Client, op: Op)
    requires Inv(s) && s.client == Some(client) && client !in s.down && LeavesAlone(op, client)
    ensures var s' := Apply(s, op);
      && s'.client == Some(client) && client !in s'.down && s'.queue == []
      && s'.handed == s.handed + SubmittedBy(op, |s.log|) && |s'.log| == |s.log| + |SubmittedBy(op, |s.log|)|
  {
  }

  lemma Regroup(a: seq<Entry>, b: seq<Entry>, c: seq<Entry>)
    ensures a + b + c == a + (b + c) && a + [] == a && [] + c == c
  {
  }

  /**
   * An open bound client stays bound through the late closes of others, and is handed every frame that is sent, in
   * order and at once.
   */
  lemma {:induction false} BoundClientIsServed(s: State, client: Client, ops: seq<Op>)
    requires Inv(s) && s.client == Some(client) && client !in s.down
    requires forall op | op in ops :: LeavesAlone(op, client)
    ensures After(s, ops).client == Some(client) && client !in After(s, ops).down && After(s, ops).queue == []
    ensures After(s, ops).handed == s.handed + Submitted(ops, |s.log|)
    decreases |ops|
  {
    if ops == [] {
      Regroup(s.handed, [], []);
    } else {
      assert ops[0] in ops;
      OpKeeps(s, ops[0]);
      ServedStep(s, client, ops[0]);
      var own := SubmittedBy(ops[0], |s.log|);
      var rest := Submitted(ops[1..], |s.log| + |own|);
      BoundClientIsServed(Apply(s, ops[0]), client, ops[1..]);
      Regroup(s.handed, own, rest);
      assert Submitted(ops, |s.log|) == own + rest;
    }
  }

  /** After any run, binding a client whose socket takes all that waits binds it and hands over exactly that. */
  lemma BindServes(s: State, ops: seq<Op>, client: Client, accepts: nat)
    requires Init(s) && client !in After(s, ops).down && accepts >= |After(s, ops).queue|
    ensures var before, s' := After(s, ops), Apply(After(s, ops), Bind(client, accepts));
      && s'.client == Some(client) && s'.queue == [] && s'.handed == before.handed + before.queue
      && s'.dropped == before.dropped
  {
    InitInv(s);
    RunKeeps(s, ops);
    var before := After(s, ops);
    assert before.handed + [] == before.handed;
  }

  // ----- the registry entry as the program keeps it -----

  class AccountEntry {
    var client: Option<Client>
    var reliableQueue: seq<Frame>
    var down: set<Client>
    ghost var ids: seq<nat>
    ghost var handed: seq<Entry>
    ghost var dropped: seq<Entry>
    ghost var discarded: set<nat>
    ghost var log: seq<Entry>

    ghost predicate Aligned()
      reads this
    {
      |ids| == |reliableQueue|
    }

    ghost function Now(): State
      reads this
      requires Aligned()
    {
      State(client, down, Zip(ids, reliableQueue), handed, dropped, discarded, log)
    }

    ghost predicate Valid()
      reads this
    {
      Aligned() && Inv(Now())
    }

    constructor (gone: set<Client>)
      ensures Valid() && Init(Now()) && down == gone
    {
      client, reliableQueue, down := None, [], gone;
      ids, handed, dropped, discarded, log := [], [], [], {}, [];
    }

    predicate ClientIsOpen()
      reads this
    {
      client.Some? && client.value !in down
    }

    method BindClient(newClient: Client, accepts: nat)
      requires Valid()
      modifies this
      ensures Valid() && Now() == Apply(old(Now()), Bind(newClient, accepts))
    {
      OpKeeps(Now(), Bind(newClient, accepts));
      client := Some(newClient);
      DrainQueue(accepts);
    }

    method UnbindClient(only: Option<Client>)
      requires Valid()
      modifies this`client
      ensures Valid() && Now() == Apply(old(Now()), Unbind(only))
    {
      OpKeeps(Now(), Unbind(only));
      if only.Some? && client != only {
        return;
      }
      client := None;
    }

    method SendReliableToClient(frame: Frame, accepted: bool)
      requires Valid()
      modifies this
      ensures Valid() && Now() == Apply(old(Now()), Send(frame, accepted))
    {
      OpKeeps(Now(), Send(frame, accepted));
      ghost var e := Entry(|log|, frame);
      log := log + [e];
      if ClientIsOpen() {
        if accepted {
          handed := handed + [e];
          return;
        }
        client := None;
      }
      EnqueueReliable(frame, e.id);
    }

    method EnqueueReliable(frame: Frame, ghost id: nat)
      requires Aligned()
      modifies this`reliableQueue, this`ids, this`dropped
      ensures Aligned() && Now() == Enqueue(old(Now()), Entry(id, frame))
    {
      ghost var before := Now().queue;
      reliableQueue, ids := reliableQueue + [frame], ids + [id];
      assert Zip(ids, reliableQueue) == before + [Entry(id, frame)];
      if |reliableQueue| > MAX_RELIABLE_QUEUE {
        ghost var full := Zip(ids, reliableQueue);
        dropped := dropped + [full[0]];
        reliableQueue, ids := reliableQueue[1..], ids[1..];
        assert Zip(ids, reliableQueue) == full[1..];
      }
    }

    method FlushReliableQueue(accepts: nat)
      requires Valid()
      modifies this
      ensures Valid() && Now() == Apply(old(Now()), Flush(accepts))
    {
      OpKeeps(Now(), Flush(accepts));
      DrainQueue(accepts);
    }

    /** Take the whole queue, send it frame by frame, and put the rest back when a send fails. */
    method DrainQueue(accepts: nat)
      requires Aligned()
      modifies this`client, this`reliableQueue, this`ids, this`handed
      ensures Aligned() && Now() == FlushStep(old(Now()), accepts)
    {
      if !ClientIsOpen() || reliableQueue == [] {
        return;
      }
      var queued := reliableQueue;
      ghost var queuedIds := ids;
      ghost var entries := Zip(ids, reliableQueue);
      reliableQueue, ids := [], [];
      for index := 0 to |queued|
        invariant index <= accepts
        invariant reliableQueue == [] && ids == [] && client == old(client)
        invariant handed == old(handed) + entries[..index]
      {
        if index == accepts {
          client := None;
          reliableQueue, ids := queued[index..] + reliableQueue, queuedIds[index..] + ids;
          assert Zip(ids, reliableQueue) == entries[index..];
          return;
        }
        handed := handed + [entries[index]];
      }
      assert entries[..|queued|] == entries;
    }
  }

  function Zip(ids: seq<nat>, frames: seq<Frame>): (r: seq<Entry>)
    requires |ids| == |frames|
    ensures |r| == |ids| && forall i | 0 <= i < |r| :: r[i] == Entry(ids[i], frames[i])
  {
    seq(|ids|, i requires 0 <= i < |ids| => Entry(ids[i], frames[i]))
  }
}
