/**
 * The reconciliation of live sessions with the account catalog, as a step system. A step is what runs between two
 * awaits of `reconcile`, `_stop` or `_start`; sessions may end by themselves at any time.
 */
module Supervisor {
  import opened Options
  import opened Slots

  datatype Session = Session(nodeUrl: string, slot: Slot, done: bool)

  type Sessions = map<string, Session>

  datatype Phase =
    | Resting
    | Stopping(accounts: seq<Account>, slots: seq<Slot>, left: set<string>)   // `left`: still to be stopped
    | Starting(accounts: seq<Account>, slots: seq<Slot>, k: nat)              // accounts before `k` are done

  datatype State = State(
    running: Sessions,
    closing: Sessions,          // taken from the map, but not yet shut down
    starting: Option<Slot>,     // its listener is being opened, and it is not yet in the map
    phase: Phase)

  predicate Init(s: State) {
    s == State(map[], map[], None, Resting)
  }

  datatype Event =
    | Reconcile(accounts: seq<Account>)
    | Stop(folder: string)
    | Stopped(folder: string)
    | BeginStarts
    | Skip
    | Start
    | Started
    | StartFailed
    | Return
    | SessionEnds(folder: string)

  predicate FoldersDistinct(accounts: seq<Account>) {
    forall i, j | 0 <= i < j < |accounts| :: accounts[i].folder != accounts[j].folder
  }

  function SlotsOf(running: Sessions): Running {
    map f | f in running :: running[f].slot
  }

  predicate UrlsDistinct(slots: seq<Slot>, url: Slot -> string) {
    forall i, j | 0 <= i < j < |slots| :: url(slots[i]) != url(slots[j])
  }

  /** `_plan`: the slots of the accounts, unless they cannot be assigned or two callbacks would share a URL. */
  function Plan(accounts: seq<Account>, running: Sessions, url: Slot -> string): Option<seq<Slot>> {
    match Assign(accounts, SlotsOf(running))
    case None => None
    case Some(slots) => if UrlsDistinct(slots, url) then Some(slots) else None
  }

  /** The plan has this session as it is. */
  predicate Planned(accounts: seq<Account>, slots: seq<Slot>, folder: string, session: Session)
    requires |slots| == |accounts|
  {
    exists i | 0 <= i < |accounts| ::
      accounts[i].folder == folder && slots[i] == session.slot && accounts[i].nodeUrl == session.nodeUrl
  }

  function StopPaths(accounts: seq<Account>, slots: seq<Slot>, running: Sessions): set<string>
    requires |slots| == |accounts|
  {
    set f | f in running && (running[f].done || !Planned(accounts, slots, f, running[f]))
  }

  function ReconcileStep(s: State, accounts: seq<Account>, url: Slot -> string): State {
    match Plan(accounts, s.running, url)
    case None => s
    case Some(slots) => s.(phase := Stopping(accounts, slots, StopPaths(accounts, slots, s.running)))
  }

  predicate Enabled(s: State, e: Event) {
    match e
    case Reconcile(accounts) => s.phase.Resting? && FoldersDistinct(accounts)
    case Stop(f) => s.phase.Stopping? && f in s.phase.left && f in s.running
    case Stopped(f) => f in s.closing
    case BeginStarts => s.phase.Stopping? && s.phase.left == {} && s.closing == map[]
    case Skip =>
      && s.phase.Starting? && s.starting.None? && s.phase.k < |s.phase.accounts|
      && s.phase.accounts[s.phase.k].folder in s.running
    case Start =>
      && s.phase.Starting? && s.starting.None? && s.phase.k < |s.phase.accounts| == |s.phase.slots|
      && s.phase.accounts[s.phase.k].folder !in s.running
    case Started => s.phase.Starting? && s.starting.Some? && s.phase.k < |s.phase.accounts|
    case StartFailed => s.phase.Starting? && s.starting.Some?
    case Return => s.phase.Starting? && s.starting.None? && s.phase.k == |s.phase.accounts|
    case SessionEnds(f) => f in s.running
  }

  function Apply(s: State, e: Event, url: Slot -> string): State
    requires Enabled(s, e)
  {
    match e
    case Reconcile(accounts) => ReconcileStep(s, accounts, url)
    case Stop(f) =>
      s.(running := s.running - {f}, closing := s.closing[f := s.running[f]],
         phase := s.phase.(left := s.phase.left - {f}))
    case Stopped(f) => s.(closing := s.closing - {f})
    case BeginStarts => s.(phase := Starting(s.phase.accounts, s.phase.slots, 0))
    case Skip => s.(phase := s.phase.(k := s.phase.k + 1))
    case Start => s.(starting := Some(s.phase.slots[s.phase.k]))
    case Started =>
      var account := s.phase.accounts[s.phase.k];
      s.(running := s.running[account.folder := Session(account.nodeUrl, s.starting.value, false)],
         starting := None, phase := s.phase.(k := s.phase.k + 1))
    case StartFailed => s.(starting := None, phase := Resting)
    case Return => s.(phase := Resting)
    case SessionEnds(f) => s.(running := s.running[f := s.running[f].(done := true)])
  }

  predicate Runs(s: State, events: seq<Event>, url: Slot -> string)
    decreases |events|
  {
    events == [] || (Enabled(s, events[0]) && Runs(Apply(s, events[0], url), events[1..], url))
  }

  function After(s: State, events: seq<Event>, url: Slot -> string): State
    requires Runs(s, events, url)
    decreases |events|
  {
    if events == [] then s else After(Apply(s, events[0], url), events[1..], url)
  }

  // ----- what every step keeps -----

  /** No two listeners that are open, opening or closing have the same slot. */
  ghost predicate LiveDistinct(s: State) {
    && (forall f, g | f in s.running && g in s.running && f != g :: s.running[f].slot != s.running[g].slot)
    && (forall f, g | f in s.closing && g in s.closing && f != g :: s.closing[f].slot != s.closing[g].slot)
    && (forall f, g | f in s.running && g in s.closing :: f != g && s.running[f].slot != s.closing[g].slot)
    && (s.starting.Some? ==>
          && (forall f | f in s.running :: s.running[f].slot != s.starting.value)
          && (forall f | f in s.closing :: s.closing[f].slot != s.starting.value))
  }

  ghost predicate PlanOk(accounts: seq<Account>, slots: seq<Slot>) {
    |slots| == |accounts| && FoldersDistinct(accounts) && Distinct(slots)
  }

  ghost predicate PhaseOk(s: State) {
    match s.phase
    case Resting => s.closing == map[] && s.starting.None?
    case Stopping(accounts, slots, left) =>
      && PlanOk(accounts, slots) && s.starting.None? && left <= s.running.Keys
      && (forall f | f in s.running && f !in left :: Planned(accounts, slots, f, s.running[f]))
    case Starting(accounts, slots, k) =>
      && PlanOk(accounts, slots) && s.closing == map[] && k <= |accounts|
      && (forall f | f in s.running :: Planned(accounts, slots, f, s.running[f]))
      && (forall i | 0 <= i < k :: accounts[i].folder in s.running)
      && (s.starting.Some? ==>
            k < |accounts| && s.starting.value == slots[k] && accounts[k].folder !in s.running)
  }

  ghost predicate Inv(s: State) {
    LiveDistinct(s) && PhaseOk(s)
  }

  lemma StartKeeps(s: State, url: Slot -> string)
    requires Inv(s) && Enabled(s, Start)
    ensures Inv(Apply(s, Start, url))
  {
    var accounts, slots, k := s.phase.accounts, s.phase.slots, s.phase.k;
    forall f | f in s.running ensures s.running[f].slot != slots[k] {
      assert Planned(accounts, slots, f, s.running[f]);
      var i :| 0 <= i < |accounts| && accounts[i].folder == f && slots[i] == s.running[f].slot;
      assert i != k;
    }
  }

  lemma StartedKeeps(s: State, url: Slot -> string)
    requires Inv(s) && Enabled(s, Started)
    ensures Inv(Apply(s, Started, url))
  {
    var s' := Apply(s, Started, url);
    var accounts, slots, k := s.phase.accounts, s.phase.slots, s.phase.k;
    forall f | f in s'.running ensures Planned(accounts, slots, f, s'.running[f]) {
      if f == accounts[k].folder {
        assert slots[k] == s'.running[f].slot && accounts[k].nodeUrl == s'.running[f].nodeUrl;
      } else {
        assert Planned(accounts, slots, f, s.running[f]);
      }
    }
  }

  lemma ReconcileKeeps(s: State, accounts: seq<Account>, url: Slot -> string)
    requires Inv(s) && Enabled(s, Reconcile(accounts))
    ensures Inv(ReconcileStep(s, accounts, url))
  {
    if Plan(accounts, s.running, url).Some? {
      AssignedDistinct(accounts, SlotsOf(s.running));
    }
  }

  lemma EndedStaysPlanned(accounts: seq<Account>, slots: seq<Slot>, folder: string, session: Session)
    requires |slots| == |accounts| && Planned(accounts, slots, folder, session)
    ensures Planned(accounts, slots, folder, session.(done := true))
  {
    var i :| 0 <= i < |accounts|
      && accounts[i].folder == folder && slots[i] == session.slot && accounts[i].nodeUrl == session.nodeUrl;
    assert slots[i] == session.(done := true).slot;
  }

  lemma SessionEndsLive(s: State, f: string, url: Slot -> string)
    requires LiveDistinct(s) && f in s.running
    ensures LiveDistinct(Apply(s, SessionEnds(f), url))
  {
    var s' := Apply(s, SessionEnds(f), url);
    assert forall g | g in s.running :: g in s'.running && s'.running[g].slot == s.running[g].slot;
  }

  lemma SessionEndsKeeps(s: State, f: string, url: Slot -> string)
    requires Inv(s) && f in s.running
    ensures Inv(Apply(s, SessionEnds(f), url))
  {
    SessionEndsLive(s, f, url);
    var s' := Apply(s, SessionEnds(f), url);
    assert s'.running.Keys == s.running.Keys;
    if !s.phase.Resting? && Planned(s.phase.accounts, s.phase.slots, f, s.running[f]) {
      EndedStaysPlanned(s.phase.accounts, s.phase.slots, f, s.running[f]);
    }
  }

  lemma StopKeeps(s: State, e: Event, url: Slot -> string)
    requires Inv(s) && Enabled(s, e) && (e.Stop? || e.Stopped?)
    ensures Inv(Apply(s, e, url))
  {
  }

  lemma StepInv(s: State, e: Event, url: Slot -> string)
    requires Inv(s) && Enabled(s, e)
    ensures Inv(Apply(s, e, url))
  {
    match e
    case Reconcile(accounts) => ReconcileKeeps(s, accounts, url);
    case Start => StartKeeps(s, url);
    case Started => StartedKeeps(s, url);
    case SessionEnds(f) => SessionEndsKeeps(s, f, url);
    case Stop(_) => StopKeeps(s, e, url);
    case Stopped(_) => StopKeeps(s, e, url);
    case _ =>
  }

  // ----- theorems -----

  /** Over every run, failed starts included, no two live listeners ever share a slot. */
  lemma {:induction false} SlotsNeverCollide(s: State, events: seq<Event>, url: Slot -> string)
    requires Inv(s) && Runs(s, events, url)
    ensures Inv(After(s, events, url))
    decreases |events|
  {
    if events != [] {
      StepInv(s, events[0], url);
      SlotsNeverCollide(Apply(s, events[0], url), events[1..], url);
    }
  }

  /** A normal return leaves exactly the desired accounts, each at its planned slot and node URL. */
  lemma ReturnMeansDesired(s: State, events: seq<Event>, url: Slot -> string)
    requires Init(s) && Runs(s, events, url) && Enabled(After(s, events, url), Return)
    ensures var s' := After(s, events, url);
      && |s'.phase.slots| == |s'.phase.accounts|
      && (forall f :: f in s'.running <==> exists i | 0 <= i < |s'.phase.accounts| :: s'.phase.accounts[i].folder == f)
      && (forall i | 0 <= i < |s'.phase.accounts| ::
            s'.running[s'.phase.accounts[i].folder].slot == s'.phase.slots[i]
            && s'.running[s'.phase.accounts[i].folder].nodeUrl == s'.phase.accounts[i].nodeUrl)
  {
    SlotsNeverCollide(s, events, url);
    var s' := After(s, events, url);
    DesiredAt(s');
  }

  lemma DesiredAt(s: State)
    requires Inv(s) && Enabled(s, Return)
    ensures forall f :: f in s.running <==> exists i | 0 <= i < |s.phase.accounts| :: s.phase.accounts[i].folder == f
    ensures forall i | 0 <= i < |s.phase.accounts| ::
      s.running[s.phase.accounts[i].folder].slot == s.phase.slots[i]
      && s.running[s.phase.accounts[i].folder].nodeUrl == s.phase.accounts[i].nodeUrl
  {
    var accounts, slots := s.phase.accounts, s.phase.slots;
    forall i | 0 <= i < |accounts|
      ensures s.running[accounts[i].folder].slot == slots[i]
      ensures s.running[accounts[i].folder].nodeUrl == accounts[i].nodeUrl
    {
      var f := accounts[i].folder;
      assert Planned(accounts, slots, f, s.running[f]);
      var j :| 0 <= j < |accounts| && accounts[j].folder == f
        && slots[j] == s.running[f].slot && accounts[j].nodeUrl == s.running[f].nodeUrl;
      assert i == j;
    }
    forall f | f in s.running ensures exists i | 0 <= i < |accounts| :: accounts[i].folder == f {
      assert Planned(accounts, slots, f, s.running[f]);
    }
  }

  /** A plan is rejected, and nothing changes, exactly when pins repeat, slots run out or callbacks collide. */
  lemma RejectedExactlyWhen(s: State, accounts: seq<Account>, url: Slot -> string)
    requires Enabled(s, Reconcile(accounts))
    ensures Apply(s, Reconcile(accounts), url) == s <==>
      || !PinsDistinct(accounts) || |accounts| > SLOTS
      || exists slots :: Assign(accounts, SlotsOf(s.running)) == Some(slots) && !UrlsDistinct(slots, url)
  {
    FailsExactlyWhen(accounts, SlotsOf(s.running));
  }

  /** The sessions that run are those of a plan. */
  predicate RunsAsPlanned(accounts: seq<Account>, slots: seq<Slot>, running: Running)
    requires |slots| == |accounts|
  {
    forall j | 0 <= j < |accounts| :: accounts[j].folder in running && running[accounts[j].folder] == slots[j]
  }

  lemma ChooseAgain(accounts: seq<Account>, running: Running, slots: seq<Slot>, again: Running, i: nat)
    requires Assign(accounts, running) == Some(slots) && RunsAsPlanned(accounts, slots, again) && i < |accounts|
    ensures Choose(accounts[i], again, Pins(accounts) + Elements(slots[..i])) == Some(slots[i])
  {
    EachInTurn(accounts, running, i);
  }

  lemma AgainNext(accounts: seq<Account>, running: Running, slots: seq<Slot>, again: Running, i: nat)
    requires Assign(accounts, running) == Some(slots) && RunsAsPlanned(accounts, slots, again) && i < |accounts|
    requires Allocate(accounts[..i], again, Pins(accounts)) == Some(slots[..i])
    ensures Allocate(accounts[..i + 1], again, Pins(accounts)) == Some(slots[..i + 1])
  {
    ChooseAgain(accounts, running, slots, again, i);
    AllocateNext(accounts, again, Pins(accounts), i, slots[..i]);
    assert slots[..i + 1] == slots[..i] + [slots[i]];
  }

  /** Planning again with the assigned slots running gives the same plan. */
  lemma PlanAgain(accounts: seq<Account>, slots: seq<Slot>, before: Sessions, running: Sessions, url: Slot -> string)
    requires Plan(accounts, before, url) == Some(slots) && RunsAsPlanned(accounts, slots, SlotsOf(running))
    ensures Plan(accounts, running, url) == Some(slots)
  {
    for i := 0 to |accounts|
      invariant Allocate(accounts[..i], SlotsOf(running), Pins(accounts)) == Some(slots[..i])
    {
      AgainNext(accounts, SlotsOf(before), slots, SlotsOf(running), i);
    }
    assert accounts[..|accounts|] == accounts && slots[..|slots|] == slots;
  }

  /** Reconciling with an unchanged catalog stops nothing while every session is alive. */
  lemma ReconcileAgainStopsNothing(s: State, url: Slot -> string, before: Sessions)
    requires Inv(s) && Enabled(s, Return) && (forall f | f in s.running :: !s.running[f].done)
    requires Plan(s.phase.accounts, before, url) == Some(s.phase.slots)
    ensures Plan(s.phase.accounts, s.running, url) == Some(s.phase.slots)
    ensures StopPaths(s.phase.accounts, s.phase.slots, s.running) == {}
  {
    DesiredAt(s);
    PlanAgain(s.phase.accounts, s.phase.slots, before, s.running, url);
  }

  /** The events of one reconciliation, in which this session does not end by itself. */
  predicate WithinOne(events: seq<Event>, folder: string) {
    forall e | e in events :: !e.Reconcile? && e != SessionEnds(folder)
  }

  /** Once the stops are over, the session is alive if there is one. */
  predicate AliveOrStopped(s: State, folder: string) {
    folder in s.running && s.running[folder].done ==> s.phase.Stopping? && folder in s.phase.left
  }

  lemma {:induction false} EndedIsStopped(s: State, events: seq<Event>, url: Slot -> string, folder: string)
    requires Runs(s, events, url) && WithinOne(events, folder) && AliveOrStopped(s, folder)
    ensures AliveOrStopped(After(s, events, url), folder)
    decreases |events|
  {
    if events != [] {
      assert events[0] in events;
      EndedIsStopped(Apply(s, events[0], url), events[1..], url, folder);
    }
  }

  /** A session that had ended before a reconciliation was started anew when it returns. */
  lemma EndedIsRestarted(s: State, accounts: seq<Account>, events: seq<Event>, url: Slot -> string, i: nat)
    requires Inv(s) && Enabled(s, Reconcile(accounts)) && Plan(accounts, s.running, url).Some? && i < |accounts|
    requires Runs(ReconcileStep(s, accounts, url), events, url) && WithinOne(events, accounts[i].folder)
    requires Enabled(After(ReconcileStep(s, accounts, url), events, url), Return)
    ensures var s' := After(ReconcileStep(s, accounts, url), events, url);
      && accounts[i].folder in s'.running && !s'.running[accounts[i].folder].done
  {
    var started := ReconcileStep(s, accounts, url);
    EndedIsStopped(started, events, url, accounts[i].folder);
    ReconcileKeeps(s, accounts, url);
    SlotsNeverCollide(started, events, url);
    AccountsStay(started, events, url, accounts);
    var s' := After(started, events, url);
    DesiredAt(s');
    assert s'.phase.accounts[i].folder == accounts[i].folder;
  }

  predicate Pursues(s: State, accounts: seq<Account>) {
    !s.phase.Resting? ==> s.phase.accounts == accounts
  }

  lemma {:induction false} AccountsStay(s: State, events: seq<Event>, url: Slot -> string, accounts: seq<Account>)
    requires Runs(s, events, url) && Pursues(s, accounts) && forall e | e in events :: !e.Reconcile?
    ensures Pursues(After(s, events, url), accounts)
    decreases |events|
  {
    if events != [] {
      assert events[0] in events;
      AccountsStay(Apply(s, events[0], url), events[1..], url, accounts);
    }
  }

  /** A step of the reconciliation itself that can be taken now, when all listeners open. */
  ghost function NextStep(s: State): (e: Event)
    requires Inv(s) && !s.phase.Resting?
    ensures Enabled(s, e) && !e.Reconcile? && !e.SessionEnds?
  {
    if s.phase.Stopping? then
      if s.phase.left != {} then
        var f :| f in s.phase.left;
        Stop(f)
      else if s.closing != map[] then
        var f :| f in s.closing;
        Stopped(f)
      else BeginStarts
    else if s.starting.Some? then Started
    else if s.phase.k == |s.phase.accounts| then Return
    else if s.phase.accounts[s.phase.k].folder in s.running then Skip
    else Start
  }

  /** A reconciliation under way can always come to its return, whatever failed or ended before. */
  lemma ReconcileCanReturn(s: State, url: Slot -> string) returns (events: seq<Event>)
    requires Inv(s) && !s.phase.Resting?
    ensures Runs(s, events, url) && Enabled(After(s, events, url), Return)
    ensures forall e | e in events :: !e.Reconcile? && !e.SessionEnds?
    decreases s.phase.Stopping?, if s.phase.Stopping? then |s.phase.left| else |s.phase.accounts| - s.phase.k,
      |s.closing|, s.starting.None?
  {
    var next := NextStep(s);
    if next == Return {
      events := [];
    } else {
      StepInv(s, next, url);
      if next.Stopped? {
        assert Apply(s, next, url).closing.Keys == s.closing.Keys - {next.folder};
      }
      var rest := ReconcileCanReturn(Apply(s, next, url), url);
      events := [next] + rest;
    }
  }

  /** The session runs and is not to be stopped. */
  predicate Stays(s: State, folder: string, session: Session) {
    folder in s.running && s.running[folder] == session && (s.phase.Stopping? ==> folder !in s.phase.left)
  }

  lemma StaysStep(s: State, e: Event, url: Slot -> string, folder: string, session: Session)
    requires Inv(s) && Enabled(s, e) && !e.Reconcile? && e != SessionEnds(folder) && Stays(s, folder, session)
    ensures Stays(Apply(s, e, url), folder, session)
  {
  }

  lemma {:induction false} StaysThroughout(s: State, events: seq<Event>, url: Slot -> string, folder: string,
                                           session: Session)
    requires Inv(s) && Runs(s, events, url) && WithinOne(events, folder) && Stays(s, folder, session)
    ensures Stays(After(s, events, url), folder, session)
    decreases |events|
  {
    if events != [] {
      assert events[0] in events;
      StaysStep(s, events[0], url, folder, session);
      StepInv(s, events[0], url);
      StaysThroughout(Apply(s, events[0], url), events[1..], url, folder, session);
    }
  }

  /** A live session that the plan has as it is runs through a reconciliation untouched, whatever happens to others. */
  lemma PlannedIsUndisturbed(s: State, accounts: seq<Account>, events: seq<Event>, url: Slot -> string, i: nat)
    requires Inv(s) && Enabled(s, Reconcile(accounts)) && i < |accounts|
    requires var plan, folder := Plan(accounts, s.running, url), accounts[i].folder;
      plan.Some? && folder in s.running && s.running[folder] == Session(accounts[i].nodeUrl, plan.value[i], false)
    requires Runs(ReconcileStep(s, accounts, url), events, url) && WithinOne(events, accounts[i].folder)
    ensures var s' := After(ReconcileStep(s, accounts, url), events, url);
      accounts[i].folder in s'.running && s'.running[accounts[i].folder] == s.running[accounts[i].folder]
  {
    var folder, slots := accounts[i].folder, Plan(accounts, s.running, url).value;
    ReconcileKeeps(s, accounts, url);
    assert slots[i] == s.running[folder].slot && accounts[i].nodeUrl == s.running[folder].nodeUrl;
    assert Planned(accounts, slots, folder, s.running[folder]);
    StaysThroughout(ReconcileStep(s, accounts, url), events, url, folder, s.running[folder]);
  }

  // ----- the program -----

  class AccountSupervisor {
    const callbackUrl: Slot -> string
    var running: Sessions
    var closing: Sessions
    var starting: Option<Slot>
    var phase: Phase

    ghost function Now(): State
      reads this
    {
      State(running, closing, starting, phase)
    }

    ghost predicate Valid()
      reads this
    {
      Inv(Now())
    }

    constructor (url: Slot -> string)
      ensures Valid() && Init(Now()) && callbackUrl == url
    {
      callbackUrl := url;
      running, closing, starting, phase := map[], map[], None, Resting;
    }

    /** Raise, and change nothing, when callbacks would share a URL. */
    method MakePlan(accounts: seq<Account>) returns (plan: Option<seq<Slot>>)
      ensures plan == Plan(accounts, running, callbackUrl)
    {
      plan := AssignAccountSlots(accounts, SlotsOf(running));
      if plan.None? {
        return;
      }
      var slots := plan.value;
      for i := 0 to |slots|
        invariant UrlsDistinct(slots[..i], callbackUrl)
      {
        for j := 0 to i
          invariant forall k | 0 <= k < j :: callbackUrl(slots[k]) != callbackUrl(slots[i])
        {
          if callbackUrl(slots[j]) == callbackUrl(slots[i]) {
            return None;
          }
        }
      }
      assert slots[..|slots|] == slots;
    }

    method BeginReconcile(accounts: seq<Account>) returns (ok: bool)
      requires Valid() && Enabled(Now(), Reconcile(accounts))
      modifies this
      ensures Valid() && Now() == Apply(old(Now()), Reconcile(accounts), callbackUrl)
      ensures ok == Plan(accounts, old(running), callbackUrl).Some?
    {
      ReconcileKeeps(Now(), accounts, callbackUrl);
      var plan := MakePlan(accounts);
      if plan.None? {
        return false;
      }
      phase := Stopping(accounts, plan.value, StopPaths(accounts, plan.value, running));
      return true;
    }

    /** `_stop` takes the session out of the map before it waits for it to end. */
    method BeginStop(folder: string)
      requires Valid() && Enabled(Now(), Stop(folder))
      modifies this
      ensures Valid() && Now() == Apply(old(Now()), Stop(folder), callbackUrl)
    {
      StopKeeps(Now(), Stop(folder), callbackUrl);
      closing := closing[folder := running[folder]];
      running := running - {folder};
      phase := phase.(left := phase.left - {folder});
    }

    method EndStop(folder: string)
      requires Valid() && Enabled(Now(), Stopped(folder))
      modifies this`closing
      ensures Valid() && Now() == Apply(old(Now()), Stopped(folder), callbackUrl)
    {
      StopKeeps(Now(), Stopped(folder), callbackUrl);
      closing := closing - {folder};
    }

    method BeginStarting()
      requires Valid() && Enabled(Now(), BeginStarts)
      modifies this`phase
      ensures Valid() && Now() == Apply(old(Now()), BeginStarts, callbackUrl)
    {
      StepInv(Now(), BeginStarts, callbackUrl);
      phase := Starting(phase.accounts, phase.slots, 0);
    }

    /** The loop over the plan, up to the next account that needs a session. */
    method NextAccount() returns (more: bool)
      requires Valid() && phase.Starting? && starting.None?
      modifies this`phase, this`starting
      ensures Valid() && phase.Starting? && running == old(running) && closing == old(closing)
      ensures phase.accounts == old(phase).accounts && phase.slots == old(phase).slots && old(phase).k <= phase.k
      ensures forall i | old(phase).k <= i < phase.k :: phase.accounts[i].folder in running
      ensures !more ==> starting.None? && Enabled(Now(), Return)
      ensures more ==> phase.k < |phase.accounts| && phase.accounts[phase.k].folder !in running
      ensures more ==> starting == Some(phase.slots[phase.k])
    {
      while phase.k < |phase.accounts| && phase.accounts[phase.k].folder in running
        invariant Valid() && phase.Starting? && starting.None?
        invariant phase.accounts == old(phase).accounts && phase.slots == old(phase).slots && old(phase).k <= phase.k
        invariant forall i | old(phase).k <= i < phase.k :: phase.accounts[i].folder in running
        decreases |phase.accounts| - phase.k
      {
        phase := phase.(k := phase.k + 1);
      }
      more := phase.k < |phase.accounts|;
      if more {
        StartKeeps(Now(), callbackUrl);
        starting := Some(phase.slots[phase.k]);
      }
    }

    /** The listener is open, or failed to open: then the reconciliation ends with the error. */
    method ListenerOpened(ok: bool)
      requires Valid() && phase.Starting? && starting.Some?
      modifies this
      ensures Valid() && Now() == Apply(old(Now()), if ok then Started else StartFailed, callbackUrl)
    {
      if ok {
        StartedKeeps(Now(), callbackUrl);
        var account := phase.accounts[phase.k];
        running := running[account.folder := Session(account.nodeUrl, starting.value, false)];
        phase := phase.(k := phase.k + 1);
      } else {
        phase := Resting;
      }
      starting := None;
    }
  }
}
