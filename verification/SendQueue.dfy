/**
 * The per-JID mutex of one account, built as a chain of promises. A call is known by its number, and so is the slot
 * promise it creates; the slot resolves when the call is over, whether its function succeeded or rejected.
 */
module SendQueue {
  import opened Options

  type Jid = string

  datatype Stage = Waiting | Running | Over(ok: bool)

  /** `prev` is the slot the call found in the map. */
  datatype Call = Call(jid: Jid, prev: Option<nat>, stage: Stage)

  datatype State = State(
    queues: map<Jid, nat>,       // jidQueues: the slot of the newest call
    calls: seq<Call>,
    starts: seq<nat>)            // history: the calls whose function started, in that order

  predicate Init(s: State) {
    s == State(map[], [], [])
  }

  datatype Event = Invoke(jid: Jid) | Start(k: nat) | End(k: nat, ok: bool)

  predicate Resolved(s: State, slot: nat) {
    slot < |s.calls| && s.calls[slot].stage.Over?
  }

  predicate Enabled(s: State, e: Event) {
    match e
    case Invoke(_) => true
    case Start(k) =>
      k < |s.calls| && s.calls[k].stage == Waiting && (s.calls[k].prev.Some? ==> Resolved(s, s.calls[k].prev.value))
    case End(k, _) => k < |s.calls| && s.calls[k].stage == Running
  }

  function InvokeStep(s: State, jid: Jid): State {
    var prev := if jid in s.queues then Some(s.queues[jid]) else None;
    s.(queues := s.queues[jid := |s.calls|], calls := s.calls + [Call(jid, prev, Waiting)])
  }

  function EndStep(s: State, k: nat, ok: bool): State
    requires k < |s.calls|
  {
    var jid := s.calls[k].jid;
    s.(calls := s.calls[k := s.calls[k].(stage := Over(ok))],
       queues := if jid in s.queues && s.queues[jid] == k then s.queues - {jid} else s.queues)
  }

  function Apply(s: State, e: Event): State
    requires Enabled(s, e)
  {
    match e
    case Invoke(jid) => InvokeStep(s, jid)
    case Start(k) => s.(calls := s.calls[k := s.calls[k].(stage := Running)], starts := s.starts + [k])
    case End(k, ok) => EndStep(s, k, ok)
  }

  predicate Runs(s: State, events: seq<Event>)
    decreases |events|
  {
    events == [] || (Enabled(s, events[0]) && Runs(Apply(s, events[0]), events[1..]))
  }

  function After(s: State, events: seq<Event>): State
    requires Runs(s, events)
    decreases |events|
  {
    if events == [] then s else After(Apply(s, events[0]), events[1..])
  }

  // ----- what every step keeps -----

  /** Call `j` came before call `k` and was for the same JID. */
  predicate Before(s: State, j: nat, k: nat) {
    j < k < |s.calls| && s.calls[j].jid == s.calls[k].jid
  }

  /** Each call waits for the call of its JID right before it; once it starts, all earlier ones are over. */
  ghost predicate CallOk(s: State, k: nat)
    requires k < |s.calls|
  {
    var c := s.calls[k];
    && (c.prev.Some? ==> Before(s, c.prev.value, k))
    && (forall j | 0 <= j < k && s.calls[j].jid == c.jid ::
          s.calls[j].stage.Over? || (c.stage == Waiting && c.prev.Some? && j <= c.prev.value))
  }

  /** The map holds a JID exactly while a call for it is not over, and then its newest call. */
  ghost predicate EntryOk(s: State, jid: Jid) {
    if jid in s.queues then
      && s.queues[jid] < |s.calls| && s.calls[s.queues[jid]].jid == jid && !s.calls[s.queues[jid]].stage.Over?
      && forall k | s.queues[jid] < k < |s.calls| :: s.calls[k].jid != jid
    else forall k | 0 <= k < |s.calls| :: s.calls[k].jid == jid ==> s.calls[k].stage.Over?
  }

  ghost predicate StartsOk(s: State) {
    && (forall i | 0 <= i < |s.starts| :: s.starts[i] < |s.calls| && s.calls[s.starts[i]].stage != Waiting)
    && (forall i, j | 0 <= i < j < |s.starts| && s.calls[s.starts[i]].jid == s.calls[s.starts[j]].jid ::
          s.starts[i] < s.starts[j])
  }

  ghost predicate Inv(s: State) {
    && (forall k | 0 <= k < |s.calls| :: CallOk(s, k))
    && (forall jid :: EntryOk(s, jid))
    && StartsOk(s)
  }

  lemma InvokeKeeps(s: State, jid: Jid)
    requires Inv(s)
    ensures Inv(InvokeStep(s, jid))
  {
    var s' := InvokeStep(s, jid);
    assert EntryOk(s, jid);
    forall k | 0 <= k < |s'.calls| ensures CallOk(s', k) {
      if k < |s.calls| {
        assert CallOk(s, k);
      }
    }
    forall other ensures EntryOk(s', other) {
      assert EntryOk(s, other);
    }
  }

  lemma StartKeeps(s: State, k: nat)
    requires Inv(s) && Enabled(s, Start(k))
    ensures Inv(Apply(s, Start(k)))
  {
    var s' := Apply(s, Start(k));
    assert CallOk(s, k);
    if s.calls[k].prev.Some? {
      assert CallOk(s, s.calls[k].prev.value);
    }
    forall m | 0 <= m < |s'.calls| ensures CallOk(s', m) {
      assert CallOk(s, m);
    }
    forall jid ensures EntryOk(s', jid) {
      assert EntryOk(s, jid);
    }
    forall i | 0 <= i < |s.starts| && s.calls[s.starts[i]].jid == s.calls[k].jid ensures s.starts[i] < k {
      assert CallOk(s, s.starts[i]);
      assert !Before(s, k, s.starts[i]);
    }
  }

  lemma EndKeeps(s: State, k: nat, ok: bool)
    requires Inv(s) && Enabled(s, End(k, ok))
    ensures Inv(EndStep(s, k, ok))
  {
    var s' := EndStep(s, k, ok);
    assert CallOk(s, k);
    assert EntryOk(s, s.calls[k].jid);
    forall m | 0 <= m < |s'.calls| ensures CallOk(s', m) {
      assert CallOk(s, m);
    }
    forall jid ensures EntryOk(s', jid) {
      assert EntryOk(s, jid);
    }
  }

  lemma {:induction false} RunInv(s: State, events: seq<Event>)
    requires Inv(s) && Runs(s, events)
    ensures Inv(After(s, events))
    decreases |events|
  {
    if events != [] {
      match events[0] {
        case Invoke(jid) => InvokeKeeps(s, jid);
        case Start(k) => StartKeeps(s, k);
        case End(k, ok) => EndKeeps(s, k, ok);
      }
      RunInv(Apply(s, events[0]), events[1..]);
    }
  }

  // ----- theorems over every run -----

  /** At most one function runs per JID, and all earlier calls for it are over, rejected ones included. */
  lemma OneAtATime(s: State, events: seq<Event>, j: nat, k: nat)
    requires Init(s) && Runs(s, events)
    requires Before(After(s, events), j, k) && After(s, events).calls[k].stage != Waiting
    ensures After(s, events).calls[j].stage.Over?
  {
    RunInv(s, events);
    assert CallOk(After(s, events), k);
  }

  /** The functions of a JID start in the order of their calls, each at most once. */
  lemma StartInCallOrder(s: State, events: seq<Event>, i: nat, j: nat)
    requires Init(s) && Runs(s, events)
    ensures var s' := After(s, events);
      i < j < |s'.starts| && s'.starts[i] < |s'.calls| && s'.starts[j] < |s'.calls|
      && s'.calls[s'.starts[i]].jid == s'.calls[s'.starts[j]].jid
      ==> s'.starts[i] < s'.starts[j]
  {
    RunInv(s, events);
  }

  /** The map holds a JID exactly while some call for it is not over: nothing is left behind. */
  lemma MapHoldsUnfinished(s: State, events: seq<Event>, jid: Jid)
    requires Init(s) && Runs(s, events)
    ensures var s' := After(s, events);
      jid in s'.queues <==> exists k | 0 <= k < |s'.calls| :: s'.calls[k].jid == jid && !s'.calls[k].stage.Over?
  {
    RunInv(s, events);
    assert EntryOk(After(s, events), jid);
  }

  /**
   * Whatever the calls for other JIDs are doing, the oldest unfinished call of a JID is running or can start at
   * once: no JID blocks another, and no chain is ever stuck.
   */
  lemma OldestCanProceed(s: State, events: seq<Event>, k: nat)
    requires Init(s) && Runs(s, events)
    requires k < |After(s, events).calls| && !After(s, events).calls[k].stage.Over?
    requires forall j: nat | Before(After(s, events), j, k) :: After(s, events).calls[j].stage.Over?
    ensures After(s, events).calls[k].stage == Running || Enabled(After(s, events), Start(k))
  {
    RunInv(s, events);
    var s' := After(s, events);
    assert CallOk(s', k);
    if s'.calls[k].prev.Some? {
      assert Before(s', s'.calls[k].prev.value, k);
    }
  }

  // ----- the program -----

  class AccountContext {
    var jidQueues: map<Jid, nat>
    var calls: seq<Call>
    ghost var starts: seq<nat>

    ghost function Now(): State
      reads this
    {
      State(jidQueues, calls, starts)
    }

    ghost predicate Valid()
      reads this
    {
      Inv(Now())
    }

    constructor ()
      ensures Valid() && Init(Now())
    {
      jidQueues, calls, starts := map[], [], [];
    }

    method WithJidQueue(jid: Jid) returns (slot: nat)
      requires Valid()
      modifies this
      ensures Valid() && Now() == Apply(old(Now()), Invoke(jid)) && slot == |old(calls)|
    {
      InvokeKeeps(Now(), jid);
      var prev := if jid in jidQueues then Some(jidQueues[jid]) else None;
      slot := |calls|;
      jidQueues := jidQueues[jid := slot];
      calls := calls + [Call(jid, prev, Waiting)];
    }

    /** `prev` has resolved: the function starts. */
    method RunFunction(k: nat)
      requires Valid() && Enabled(Now(), Start(k))
      modifies this
      ensures Valid() && Now() == Apply(old(Now()), Start(k))
    {
      StartKeeps(Now(), k);
      calls := calls[k := calls[k].(stage := Running)];
      starts := starts + [k];
    }

    /** The function settled: the entry goes unless a newer call replaced it, and the slot resolves. */
    method Finally(k: nat, ok: bool)
      requires Valid() && Enabled(Now(), End(k, ok))
      modifies this
      ensures Valid() && Now() == Apply(old(Now()), End(k, ok))
    {
      EndKeeps(Now(), k, ok);
      var jid := calls[k].jid;
      if jid in jidQueues && jidQueues[jid] == k {
        jidQueues := jidQueues - {jid};
      }
      calls := calls[k := calls[k].(stage := Over(ok))];
    }
  }
}
