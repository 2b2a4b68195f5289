/**
 * The WhatsApp socket of one tenant as a step system. Entries, builds and sockets are known by their numbers; a
 * tenant that is stopped and started again gets a new entry. A step is what runs between two awaits.
 */
module SocketBuilds {
  import opened Options

  datatype Status = Connecting | Open | Close

  /** `ctxSock` is the socket the entry's context sends through. */
  datatype Entry = Entry(sock: Option<nat>, ctxSock: Option<nat>, status: Status)

  datatype Build = Build(entry: nat, over: bool)

  datatype State = State(
    current: Option<nat>,      // the tenant's entry in the registry
    entries: seq<Entry>,
    slot: Option<nat>,         // the tenant's build in socketBuilds
    builds: seq<Build>,
    owners: seq<nat>)          // for every socket, the entry its listeners belong to

  predicate Init(s: State) {
    s == State(None, [], None, [], [])
  }

  datatype Event =
    | Resume(cooling: bool)                                        // createOrResumeAccount
    | Bind(b: nat)                                                 // a build ends with a socket
    | Fail(b: nat)
    | Clear(b: nat)                                                // the coordinator forgets a build that is over
    | Update(sock: nat, status: Status, rebuild: bool, cooling: bool)
    | Detach                                                       // reconnect and disconnect start with this
    | Stop

  function NewEntry(): Entry {
    Entry(None, None, Connecting)
  }

  /** `getOrCreate`. */
  function WithEntry(s: State): (s': State)
    ensures s'.current.Some?
  {
    if s.current.Some? then s else s.(current := Some(|s.entries|), entries := s.entries + [NewEntry()])
  }

  /** `ensureSocketBuilt`, up to its first await. */
  function EnsureStep(s: State, g: nat, cooling: bool): State
    requires g < |s.entries|
  {
    if s.entries[g].sock.Some? || s.slot.Some? || cooling then s
    else s.(builds := s.builds + [Build(g, false)], slot := Some(|s.builds|))
  }

  /** The socket goes to the entry that is now in the registry, and to the context the build started from. */
  function BindStep(s: State, b: nat): State
    requires b < |s.builds| && s.builds[b].entry < |s.entries| && (s.current.Some? ==> s.current.value < |s.entries|)
  {
    var sock := |s.owners|;
    var s1 := WithEntry(s);
    var bound := s1.entries[s1.current.value := s1.entries[s1.current.value].(sock := Some(sock))];
    var g := s.builds[b].entry;
    s1.(entries := bound[g := bound[g].(ctxSock := Some(sock))],
        builds := s.builds[b := s.builds[b].(over := true)],
        owners := s.owners + [g])
  }

  /** The listener of a socket ignores whatever comes once its entry has another socket, or none. */
  function UpdateStep(s: State, sock: nat, status: Status, rebuild: bool, cooling: bool): State
    requires sock < |s.owners| && s.owners[sock] < |s.entries|
  {
    var g := s.owners[sock];
    var entry := s.entries[g];
    if entry.sock != Some(sock) then s
    else if status != Close then s.(entries := s.entries[g := entry.(status := status)])
    else
      var closed := Entry(None, if entry.ctxSock == Some(sock) then None else entry.ctxSock, Close);
      var s1 := s.(entries := s.entries[g := closed]);
      if rebuild then EnsureStep(s1, g, cooling) else s1
  }

  function DetachStep(s: State, g: nat): State
    requires g < |s.entries|
  {
    var entry := s.entries[g];
    var ctxSock := if entry.ctxSock == entry.sock then None else entry.ctxSock;
    s.(entries := s.entries[g := Entry(None, ctxSock, Close)])
  }

  predicate InRange(s: State) {
    && (s.current.Some? ==> s.current.value < |s.entries|)
    && (forall b | 0 <= b < |s.builds| :: s.builds[b].entry < |s.entries|)
    && (forall k | 0 <= k < |s.owners| :: s.owners[k] < |s.entries|)
  }

  predicate Enabled(s: State, e: Event)
    requires InRange(s)
  {
    match e
    case Resume(_) => true
    case Bind(b) => b < |s.builds| && !s.builds[b].over
    case Fail(b) => b < |s.builds| && !s.builds[b].over
    case Clear(b) => b < |s.builds| && s.builds[b].over
    case Update(sock, _, _, _) => sock < |s.owners|
    case Detach => s.current.Some?
    case Stop => s.current.Some?
  }

  function Apply(s: State, e: Event): (s': State)
    requires InRange(s) && Enabled(s, e)
    ensures InRange(s')
  {
    match e
    case Resume(cooling) => EnsureStep(WithEntry(s), WithEntry(s).current.value, cooling)
    case Bind(b) => BindStep(s, b)
    case Fail(b) => s.(builds := s.builds[b := s.builds[b].(over := true)])
    case Clear(b) => if s.slot == Some(b) then s.(slot := None) else s
    case Update(sock, status, rebuild, cooling) => UpdateStep(s, sock, status, rebuild, cooling)
    case Detach => DetachStep(s, s.current.value)
    case Stop => DetachStep(s, s.current.value).(current := None)
  }

  predicate BuildInFlight(s: State) {
    exists b | 0 <= b < |s.builds| :: !s.builds[b].over
  }

  /** The tenant is not stopped in the middle of a build. */
  predicate Calm(s: State, e: Event) {
    e.Stop? ==> !BuildInFlight(s)
  }

  predicate Runs(s: State, events: seq<Event>)
    requires InRange(s)
    decreases |events|
  {
    events == [] || (Enabled(s, events[0]) && Runs(Apply(s, events[0]), events[1..]))
  }

  predicate CalmRun(s: State, events: seq<Event>)
    requires InRange(s)
    decreases |events|
  {
    events == []
    || (Enabled(s, events[0]) && Calm(s, events[0]) && CalmRun(Apply(s, events[0]), events[1..]))
  }

  function After(s: State, events: seq<Event>): (s': State)
    requires InRange(s) && Runs(s, events)
    ensures InRange(s')
    decreases |events|
  {
    if events == [] then s else After(Apply(s, events[0]), events[1..])
  }

  // ----- what every step keeps -----

  /** The two references to the live socket agree, and an entry that left the registry has none. */
  predicate EntryOk(s: State, g: nat)
    requires g < |s.entries|
  {
    && s.entries[g].sock == s.entries[g].ctxSock
    && (s.current != Some(g) ==> s.entries[g].sock.None?)
    && (s.entries[g].sock.Some? ==>
          s.entries[g].sock.value < |s.owners| && s.owners[s.entries[g].sock.value] == g)
  }

  /** A build in flight is the one in the slot, and works for an entry of the registry that has no socket. */
  predicate BuildOk(s: State, b: nat)
    requires InRange(s) && b < |s.builds|
  {
    !s.builds[b].over ==>
      s.slot == Some(b) && s.current == Some(s.builds[b].entry) && s.entries[s.builds[b].entry].sock.None?
  }

  predicate Inv(s: State) {
    && InRange(s)
    && (forall g | 0 <= g < |s.entries| :: EntryOk(s, g))
    && (forall b | 0 <= b < |s.builds| :: BuildOk(s, b))
    && (s.slot.Some? ==> s.slot.value < |s.builds|)
  }

  lemma EnsureKeeps(s: State, g: nat, cooling: bool)
    requires Inv(s) && s.current == Some(g)
    ensures Inv(EnsureStep(s, g, cooling))
  {
    var s' := EnsureStep(s, g, cooling);
    forall b | 0 <= b < |s'.builds| ensures BuildOk(s', b) {
      if b < |s.builds| {
        assert BuildOk(s, b);
      }
    }
    forall h | 0 <= h < |s'.entries| ensures EntryOk(s', h) {
      assert EntryOk(s, h);
    }
  }

  lemma WithEntryKeeps(s: State)
    requires Inv(s)
    ensures Inv(WithEntry(s))
  {
    var s' := WithEntry(s);
    forall b | 0 <= b < |s'.builds| ensures BuildOk(s', b) {
      assert BuildOk(s, b);
    }
    forall h | 0 <= h < |s'.entries| ensures EntryOk(s', h) {
      if h < |s.entries| {
        assert EntryOk(s, h);
      }
    }
  }

  lemma BindKeeps(s: State, b: nat)
    requires Inv(s) && Enabled(s, Bind(b))
    ensures Inv(BindStep(s, b))
  {
    var s' := BindStep(s, b);
    assert BuildOk(s, b);
    forall c | 0 <= c < |s'.builds| ensures BuildOk(s', c) {
      assert BuildOk(s, c);
    }
    forall h | 0 <= h < |s'.entries| ensures EntryOk(s', h) {
      assert EntryOk(s, h);
    }
  }

  /** The entry loses its socket, in both places. */
  lemma UnboundKeeps(s: State, g: nat, status: Status)
    requires Inv(s) && g < |s.entries|
    ensures Inv(s.(entries := s.entries[g := Entry(None, None, status)]))
  {
    var s' := s.(entries := s.entries[g := Entry(None, None, status)]);
    forall b | 0 <= b < |s'.builds| ensures BuildOk(s', b) {
      assert BuildOk(s, b);
    }
    forall h | 0 <= h < |s'.entries| ensures EntryOk(s', h) {
      assert EntryOk(s, h);
    }
  }

  lemma UpdateKeeps(s: State, sock: nat, status: Status, rebuild: bool, cooling: bool)
    requires Inv(s) && sock < |s.owners|
    ensures Inv(UpdateStep(s, sock, status, rebuild, cooling))
  {
    var g := s.owners[sock];
    assert EntryOk(s, g);
    if s.entries[g].sock == Some(sock) {
      if status == Close {
        UnboundKeeps(s, g, Close);
        if rebuild {
          EnsureKeeps(s.(entries := s.entries[g := Entry(None, None, Close)]), g, cooling);
        }
      } else {
        var s' := UpdateStep(s, sock, status, rebuild, cooling);
        forall b | 0 <= b < |s'.builds| ensures BuildOk(s', b) {
          assert BuildOk(s, b);
        }
        forall h | 0 <= h < |s'.entries| ensures EntryOk(s', h) {
          assert EntryOk(s, h);
        }
      }
    }
  }

  lemma SettleKeeps(s: State, e: Event)
    requires Inv(s) && Enabled(s, e) && (e.Fail? || e.Clear?)
    ensures Inv(Apply(s, e))
  {
    var s' := Apply(s, e);
    assert BuildOk(s, e.b);
    forall b | 0 <= b < |s'.builds| ensures BuildOk(s', b) {
      assert BuildOk(s, b);
    }
    forall h | 0 <= h < |s'.entries| ensures EntryOk(s', h) {
      assert EntryOk(s, h);
    }
  }

  lemma DetachKeeps(s: State, e: Event)
    requires Inv(s) && Enabled(s, e) && (e.Detach? || e.Stop?) && Calm(s, e)
    ensures Inv(Apply(s, e))
  {
    var g := s.current.value;
    assert EntryOk(s, g);
    UnboundKeeps(s, g, Close);
    var s' := Apply(s, e);
    forall b | 0 <= b < |s'.builds| ensures BuildOk(s', b) {
      assert BuildOk(s, b);
    }
    forall h | 0 <= h < |s'.entries| ensures EntryOk(s', h) {
      assert EntryOk(s, h);
    }
  }

  lemma StepInv(s: State, e: Event)
    requires Inv(s) && Enabled(s, e) && Calm(s, e)
    ensures Inv(Apply(s, e))
  {
    match e
    case Resume(cooling) =>
      WithEntryKeeps(s);
      EnsureKeeps(WithEntry(s), WithEntry(s).current.value, cooling);
    case Bind(b) => BindKeeps(s, b);
    case Update(sock, status, rebuild, cooling) => UpdateKeeps(s, sock, status, rebuild, cooling);
    case Fail(_) => SettleKeeps(s, e);
    case Clear(_) => SettleKeeps(s, e);
    case _ => DetachKeeps(s, e);
  }

  lemma {:induction false} RunInv(s: State, events: seq<Event>)
    requires Inv(s) && CalmRun(s, events)
    ensures Runs(s, events) && Inv(After(s, events))
    decreases |events|
  {
    if events != [] {
      StepInv(s, events[0]);
      RunInv(Apply(s, events[0]), events[1..]);
    }
  }

  // ----- theorems -----

  /**
   * While the tenant is not stopped in the middle of a build: at most one build is in flight, it never overwrites a
   * socket, and the entry and its context always agree on the live socket.
   */
  lemma BuildsAreSingleFlight(s: State, events: seq<Event>)
    requires Init(s) && CalmRun(s, events)
    ensures Runs(s, events)
    ensures var s' := After(s, events);
      && (forall a, b | 0 <= a < |s'.builds| && 0 <= b < |s'.builds| && !s'.builds[a].over && !s'.builds[b].over ::
            a == b)
      && (forall b | 0 <= b < |s'.builds| && !s'.builds[b].over ::
            s'.current.Some? && s'.entries[s'.current.value].sock.None?)
      && (forall g | 0 <= g < |s'.entries| :: s'.entries[g].sock == s'.entries[g].ctxSock)
  {
    RunInv(s, events);
    var s' := After(s, events);
    forall b | 0 <= b < |s'.builds| && !s'.builds[b].over
      ensures s'.slot == Some(b) && s'.current.Some? && s'.entries[s'.current.value].sock.None?
    {
      assert BuildOk(s', b);
    }
    forall g | 0 <= g < |s'.entries| ensures s'.entries[g].sock == s'.entries[g].ctxSock {
      assert EntryOk(s', g);
    }
  }

  /** The socket is no longer, and never again, that of the entry its listeners belong to. */
  predicate Replaced(s: State, sock: nat)
    requires InRange(s)
  {
    sock < |s.owners| && s.entries[s.owners[sock]].sock != Some(sock)
  }

  lemma ReplacedStays(s: State, e: Event, sock: nat)
    requires InRange(s) && Replaced(s, sock) && Enabled(s, e)
    ensures Replaced(Apply(s, e), sock)
  {
  }

  /** Whatever a replaced socket still delivers, at any later time, changes nothing; stopping included. */
  lemma {:induction false} ReplacedSocketIsInert(s: State, events: seq<Event>, sock: nat, status: Status, rebuild: bool,
                                                 cooling: bool)
    requires InRange(s) && Replaced(s, sock) && Runs(s, events)
    ensures Enabled(After(s, events), Update(sock, status, rebuild, cooling))
    ensures Apply(After(s, events), Update(sock, status, rebuild, cooling)) == After(s, events)
    decreases |events|
  {
    if events != [] {
      ReplacedStays(s, events[0], sock);
      ReplacedSocketIsInert(Apply(s, events[0]), events[1..], sock, status, rebuild, cooling);
    }
  }

  /** A socket that another build replaced, or that closed, is replaced for good. */
  lemma BindReplacesOlder(s: State, b: nat, sock: nat)
    requires Inv(s) && Enabled(s, Bind(b)) && sock < |s.owners| && s.owners[sock] == s.builds[b].entry
    ensures Replaced(BindStep(s, b), sock)
  {
    assert BuildOk(s, b);
  }

  /** The tenant is registered and has a socket. */
  predicate Connected(s: State)
    requires InRange(s)
  {
    s.current.Some? && s.entries[s.current.value].sock.Some?
  }

  /** Resuming an account leaves it with a socket or a build, unless pairing cools down, and never starts a second. */
  lemma ResumeBuildsWhenNeeded(s: State, cooling: bool)
    requires Inv(s)
    ensures var s' := Apply(s, Resume(cooling));
      && s'.current.Some? && (s.current.Some? ==> s'.current == s.current)
      && (!cooling ==> Connected(s') || s'.slot.Some?)
      && (s'.builds == s.builds <==> Connected(s) || s.slot.Some? || cooling)
      && (s'.builds != s.builds ==> s'.builds == s.builds + [Build(s'.current.value, false)])
  {
  }

  lemma OneEvent(s: State, e: Event)
    requires Inv(s) && Enabled(s, e) && !e.Stop?
    ensures CalmRun(s, [e]) && Runs(s, [e]) && After(s, [e]) == Apply(s, e)
  {
    var s' := Apply(s, e);
    assert [e][1..] == [];
    assert CalmRun(s', []) && Runs(s', []) && After(s', []) == s';
  }

  lemma OneMore(s: State, e: Event, events: seq<Event>)
    requires Inv(s) && Enabled(s, e) && !e.Stop? && CalmRun(Apply(s, e), events) && Runs(Apply(s, e), events)
    ensures CalmRun(s, [e] + events) && Runs(s, [e] + events)
    ensures After(s, [e] + events) == After(Apply(s, e), events)
  {
    assert ([e] + events)[1..] == events;
  }

  /** Without a build in the slot, one can start and bind. */
  lemma CanBuild(s: State) returns (events: seq<Event>)
    requires Inv(s) && s.slot.None? && !Connected(s)
    ensures CalmRun(s, events) && Runs(s, events) && Connected(After(s, events))
  {
    var resumed := Apply(s, Resume(false));
    StepInv(s, Resume(false));
    OneEvent(resumed, Bind(|s.builds|));
    OneMore(s, Resume(false), [Bind(|s.builds|)]);
    events := [Resume(false)] + [Bind(|s.builds|)];
  }

  /** Whatever happened before, the tenant is never stuck: it can still come to have a socket. */
  lemma CanAlwaysConnect(s: State) returns (events: seq<Event>)
    requires Inv(s)
    ensures CalmRun(s, events) && Runs(s, events) && Connected(After(s, events))
  {
    if Connected(s) {
      events := [];
    } else if s.slot.None? {
      events := CanBuild(s);
    } else {
      var b := s.slot.value;
      assert BuildOk(s, b);
      if s.builds[b].over {
        StepInv(s, Clear(b));
        var rest := CanBuild(Apply(s, Clear(b)));
        OneMore(s, Clear(b), rest);
        events := [Clear(b)] + rest;
      } else {
        OneEvent(s, Bind(b));
        events := [Bind(b)];
      }
    }
  }

  /** The bound socket's update gives its entry the status; a close takes the socket away and may build another. */
  lemma BoundSocketReports(s: State, sock: nat, status: Status, rebuild: bool, cooling: bool)
    requires Inv(s) && sock < |s.owners| && s.entries[s.owners[sock]].sock == Some(sock)
    ensures var g, s' := s.owners[sock], Apply(s, Update(sock, status, rebuild, cooling));
      && s'.entries[g].status == status && s'.current == Some(g)
      && (status != Close ==> s'.entries[g].sock == Some(sock) && s'.builds == s.builds)
      && (status == Close ==> s'.entries[g].sock.None? && s'.entries[g].ctxSock.None?)
      && (status == Close && rebuild && !cooling ==> s'.slot.Some?)
      && (status == Close && !rebuild ==> s'.builds == s.builds)
      && forall h | 0 <= h < |s.entries| && h != g :: s'.entries[h] == s.entries[h]
  {
    assert EntryOk(s, s.owners[sock]);
  }

  predicate Numbered(sock: Option<nat>, sockets: nat) {
    sock.Some? ==> sock.value < sockets
  }

  /** Build `b` is under way for an entry that has left the registry, and every known socket has a number. */
  predicate Orphaned(s: State, b: nat) {
    && InRange(s)
    && b < |s.builds| && !s.builds[b].over && s.current != Some(s.builds[b].entry)
    && (forall g | 0 <= g < |s.entries| ::
          Numbered(s.entries[g].sock, |s.owners|) && Numbered(s.entries[g].ctxSock, |s.owners|))
  }

  lemma StopOrphans(s: State, b: nat)
    requires Inv(s) && b < |s.builds| && !s.builds[b].over
    ensures !Calm(s, Stop) && Enabled(s, Stop) && Orphaned(Apply(s, Stop), b)
  {
    assert BuildOk(s, b);
    forall g | 0 <= g < |s.entries|
      ensures Numbered(s.entries[g].sock, |s.owners|) && Numbered(s.entries[g].ctxSock, |s.owners|)
    {
      assert EntryOk(s, g);
    }
  }

  lemma OrphanedStays(s: State, e: Event, b: nat)
    requires Orphaned(s, b) && Enabled(s, e) && e != Bind(b) && e != Fail(b)
    ensures Orphaned(Apply(s, e), b)
  {
  }

  lemma {:induction false} OrphanedRuns(s: State, events: seq<Event>, b: nat)
    requires Orphaned(s, b) && Runs(s, events) && Bind(b) !in events && Fail(b) !in events
    ensures Orphaned(After(s, events), b)
    decreases |events|
  {
    if events != [] {
      OrphanedStays(s, events[0], b);
      OrphanedRuns(Apply(s, events[0]), events[1..], b);
    }
  }

  /**
   * Stopping a tenant in the middle of a build splits the references, whatever happens before the build ends with a
   * socket: the socket goes to the entry that is registered by then, whose context never learns of it, and its
   * listeners stay with the entry that is gone.
   */
  lemma StopDuringBuildSplits(s: State, b: nat, events: seq<Event>)
    requires Inv(s) && b < |s.builds| && !s.builds[b].over
    requires Enabled(s, Stop) && Runs(Apply(s, Stop), events) && Bind(b) !in events && Fail(b) !in events
    ensures !Calm(s, Stop) && Enabled(After(Apply(s, Stop), events), Bind(b))
    ensures var before := After(Apply(s, Stop), events);
      var s' := Apply(before, Bind(b));
      && s'.current.Some? && s'.entries[s'.current.value].sock == Some(|before.owners|)
      && s'.entries[s'.current.value].ctxSock != Some(|before.owners|)
      && Replaced(s', |before.owners|)
  {
    StopOrphans(s, b);
    OrphanedRuns(Apply(s, Stop), events, b);
  }

  /** Every entry and its context agree on the live socket. */
  predicate Agree(s: State) {
    forall g | 0 <= g < |s.entries| :: s.entries[g].sock == s.entries[g].ctxSock
  }

  /** Some continuation, in which no further stop hits a build, breaks the agreement. */
  ghost predicate CanDisagree(s: State)
    requires InRange(s)
  {
    exists events :: CalmRun(s, events) && Runs(s, events) && !Agree(After(s, events))
  }

  lemma CalmStopAgrees(s: State, events: seq<Event>)
    requires Inv(s) && Enabled(s, Stop) && !BuildInFlight(s) && CalmRun(Apply(s, Stop), events)
    ensures Runs(Apply(s, Stop), events) && Agree(After(Apply(s, Stop), events))
  {
    StepInv(s, Stop);
    RunInv(Apply(s, Stop), events);
    var s' := After(Apply(s, Stop), events);
    forall g | 0 <= g < |s'.entries| ensures s'.entries[g].sock == s'.entries[g].ctxSock {
      assert EntryOk(s', g);
    }
  }

  lemma StopInBuildDisagrees(s: State, b: nat)
    requires Inv(s) && Enabled(s, Stop) && b < |s.builds| && !s.builds[b].over
    ensures CanDisagree(Apply(s, Stop))
  {
    StopDuringBuildSplits(s, b, []);
    var stopped := Apply(s, Stop);
    assert After(stopped, []) == stopped;
    var s' := Apply(stopped, Bind(b));
    assert [Bind(b)][1..] == [];
    assert CalmRun(s', []) && Runs(s', []) && After(s', []) == s';
    assert CalmRun(stopped, [Bind(b)]) && Runs(stopped, [Bind(b)]) && After(stopped, [Bind(b)]) == s';
    assert s'.entries[s'.current.value].sock != s'.entries[s'.current.value].ctxSock;
  }

  /** Stopping a tenant can break the agreement of entry and context if and only if a build is in flight. */
  lemma StopBreaksExactlyDuringBuild(s: State)
    requires Inv(s) && Enabled(s, Stop)
    ensures CanDisagree(Apply(s, Stop)) <==> BuildInFlight(s)
  {
    if BuildInFlight(s) {
      var b :| 0 <= b < |s.builds| && !s.builds[b].over;
      StopInBuildDisagrees(s, b);
    }
    forall events | CalmRun(Apply(s, Stop), events) && !BuildInFlight(s)
      ensures Runs(Apply(s, Stop), events) && Agree(After(Apply(s, Stop), events))
    {
      CalmStopAgrees(s, events);
    }
  }

  // ----- the program -----

  class Tenant {
    var registered: Option<nat>
    var entries: seq<Entry>
    var socketBuild: Option<nat>
    var builds: seq<Build>
    var owners: seq<nat>

    ghost function Now(): State
      reads this
    {
      State(registered, entries, socketBuild, builds, owners)
    }

    ghost predicate Valid()
      reads this
    {
      InRange(Now())
    }

    constructor ()
      ensures Valid() && Init(Now())
    {
      registered, entries, socketBuild, builds, owners := None, [], None, [], [];
    }

    method GetOrCreate() returns (g: nat)
      requires Valid()
      modifies this`registered, this`entries
      ensures Valid() && Now() == WithEntry(old(Now())) && registered == Some(g) && g < |entries|
    {
      if registered.Some? {
        return registered.value;
      }
      g := |entries|;
      registered, entries := Some(g), entries + [NewEntry()];
    }

    method EnsureSocketBuilt(g: nat, cooling: bool)
      requires Valid() && g < |entries|
      modifies this`builds, this`socketBuild
      ensures Valid() && Now() == EnsureStep(old(Now()), g, cooling)
    {
      if entries[g].sock.Some? || socketBuild.Some? || cooling {
        return;
      }
      socketBuild := Some(|builds|);
      builds := builds + [Build(g, false)];
    }

    method CreateOrResume(cooling: bool)
      requires Valid()
      modifies this
      ensures Valid() && Now() == Apply(old(Now()), Resume(cooling))
    {
      var g := GetOrCreate();
      EnsureSocketBuilt(g, cooling);
    }

    /** The end of `buildSocket`. */
    method FinishBuild(b: nat)
      requires Valid() && Enabled(Now(), Bind(b))
      modifies this
      ensures Valid() && Now() == Apply(old(Now()), Bind(b))
    {
      var sock := |owners|;
      var g := GetOrCreate();
      entries := entries[g := entries[g].(sock := Some(sock))];
      var account := builds[b].entry;
      entries := entries[account := entries[account].(ctxSock := Some(sock))];
      builds := builds[b := builds[b].(over := true)];
      owners := owners + [account];
    }

    /** The identity guard: an older build never clears a newer one. */
    method ClearBuild(b: nat)
      requires Valid() && Enabled(Now(), Clear(b))
      modifies this`socketBuild
      ensures Valid() && Now() == Apply(old(Now()), Clear(b))
    {
      if socketBuild == Some(b) {
        socketBuild := None;
      }
    }

    method OnConnectionUpdate(sock: nat, status: Status, rebuild: bool, cooling: bool)
      requires Valid() && sock < |owners|
      modifies this
      ensures Valid() && Now() == Apply(old(Now()), Update(sock, status, rebuild, cooling))
    {
      var g := owners[sock];
      if entries[g].sock != Some(sock) {
        return;
      }
      entries := entries[g := entries[g].(status := status)];
      if status == Close {
        entries := entries[g := entries[g].(sock := None)];
        if entries[g].ctxSock == Some(sock) {
          entries := entries[g := entries[g].(ctxSock := None)];
        }
        if rebuild {
          EnsureSocketBuilt(g, cooling);
        }
      }
    }

    method DetachSocket()
      requires Valid() && registered.Some?
      modifies this`entries
      ensures Valid() && Now() == Apply(old(Now()), Event.Detach)
    {
      var g := registered.value;
      var sock := entries[g].sock;
      entries := entries[g := entries[g].(sock := None)];
      if entries[g].ctxSock == sock {
        entries := entries[g := entries[g].(ctxSock := None)];
      }
      entries := entries[g := entries[g].(status := Close)];
    }

    method StopAccount()
      requires Valid() && registered.Some?
      modifies this`entries, this`registered
      ensures Valid() && Now() == Apply(old(Now()), Stop)
    {
      DetachSocket();
      registered := None;
    }
  }
}
