/** Runtime slots of the configured accounts: how the Python bridge and the Node catalog assign them. */
module Slots {
  import opened Options

  const SLOTS: nat := 1000

  type Slot = n: int | 0 <= n < SLOTS

  /** An account of the catalog; a pinned account names its slot. */
  datatype Account = Account(folder: string, nodeUrl: string, slot: Option<Slot>)

  type Running = map<string, Slot>

  function Elements(slots: seq<Slot>): set<Slot> {
    set s | s in slots
  }

  function Pins(accounts: seq<Account>): set<Slot> {
    set a | a in accounts && a.slot.Some? :: a.slot.value
  }

  predicate PinsDistinct(accounts: seq<Account>) {
    forall i, j | 0 <= i < j < |accounts| && accounts[i].slot.Some? && accounts[j].slot.Some? ::
      accounts[i].slot != accounts[j].slot
  }

  predicate Distinct(slots: seq<Slot>) {
    forall i, j | 0 <= i < j < |slots| :: slots[i] != slots[j]
  }

  /** The first slot from `k` on that is not used. */
  function LeastFree(used: set<Slot>, k: nat): (r: Option<Slot>)
    requires k <= SLOTS
    ensures r.Some? ==> k <= r.value && r.value !in used && forall s: Slot | k <= s < r.value :: s in used
    ensures r.None? ==> forall s: Slot | k <= s :: s in used
    decreases SLOTS - k
  {
    if k == SLOTS then None else if k !in used then Some(k) else LeastFree(used, k + 1)
  }

  function Choose(a: Account, running: Running, used: set<Slot>): Option<Slot> {
    if a.slot.Some? then a.slot
    else if a.folder in running && running[a.folder] !in used then Some(running[a.folder])
    else LeastFree(used, 0)
  }

  /** The slots of the accounts in turn, each chosen among what pins and earlier accounts leave. */
  function Allocate(accounts: seq<Account>, running: Running, pins: set<Slot>): (r: Option<seq<Slot>>)
    ensures r.Some? ==> |r.value| == |accounts|
  {
    if accounts == [] then Some([])
    else
      match Allocate(accounts[..|accounts| - 1], running, pins)
      case None => None
      case Some(slots) =>
        match Choose(accounts[|accounts| - 1], running, pins + Elements(slots))
        case None => None
        case Some(slot) => Some(slots + [slot])
  }

  /** `assign_account_slots`. */
  function Assign(accounts: seq<Account>, running: Running): (r: Option<seq<Slot>>)
    ensures r.Some? ==> |r.value| == |accounts|
  {
    if PinsDistinct(accounts) then Allocate(accounts, running, Pins(accounts)) else None
  }

  /** The first pass of `normalizeAccounts`: a repeated pin is an error. */
  function CollectPins(accounts: seq<Account>): Option<set<Slot>> {
    if accounts == [] then Some({})
    else
      var last := accounts[|accounts| - 1];
      match CollectPins(accounts[..|accounts| - 1])
      case None => None
      case Some(used) =>
        if last.slot.None? then Some(used)
        else if last.slot.value in used then None
        else Some(used + {last.slot.value})
  }

  /** The second pass of `normalizeAccounts`: an account without a slot gets the first that is not used yet. */
  function Fill(accounts: seq<Account>, used: set<Slot>): Option<seq<Slot>> {
    if accounts == [] then Some([])
    else
      var slot := if accounts[0].slot.Some? then accounts[0].slot else LeastFree(used, 0);
      if slot.None? then None
      else Prepend([slot.value], Fill(accounts[1..], used + {slot.value}))
  }

  function Prepend(slots: seq<Slot>, rest: Option<seq<Slot>>): Option<seq<Slot>> {
    if rest.None? then None else Some(slots + rest.value)
  }

  /** `normalizeAccounts`, as far as slots go. */
  function Normalize(accounts: seq<Account>): Option<seq<Slot>> {
    match CollectPins(accounts)
    case None => None
    case Some(used) => Fill(accounts, used)
  }

  // ----- repeated pins -----

  lemma PinsSnoc(accounts: seq<Account>, a: Account)
    ensures Pins(accounts + [a]) == Pins(accounts) + if a.slot.Some? then {a.slot.value} else {}
    ensures PinsDistinct(accounts + [a]) <==>
      PinsDistinct(accounts) && (a.slot.Some? ==> a.slot.value !in Pins(accounts))
  {
    var all := accounts + [a];
    forall s | s in Pins(accounts) + (if a.slot.Some? then {a.slot.value} else {}) ensures s in Pins(all) {
      if s in Pins(accounts) {
        var b :| b in accounts && b.slot == Some(s);
        assert b in all;
      } else {
        assert a in all;
      }
    }
    if PinsDistinct(all) {
      assert forall i | 0 <= i < |accounts| :: all[i] == accounts[i];
      forall b | b in accounts && b.slot.Some? ensures b.slot != a.slot {
        var i :| 0 <= i < |accounts| && accounts[i] == b;
        assert all[i] == b && all[|accounts|] == a;
      }
    }
    if PinsDistinct(accounts) && (a.slot.Some? ==> a.slot.value !in Pins(accounts)) {
      forall i | 0 <= i < |accounts| && accounts[i].slot.Some? ensures accounts[i].slot != a.slot {
        assert accounts[i].slot.value in Pins(accounts);
      }
    }
  }

  lemma {:induction false} CollectPinsFindsRepeats(accounts: seq<Account>)
    ensures CollectPins(accounts) == if PinsDistinct(accounts) then Some(Pins(accounts)) else None
  {
    if accounts == [] {
      assert Pins(accounts) == {};
    } else {
      var front, last := accounts[..|accounts| - 1], accounts[|accounts| - 1];
      CollectPinsFindsRepeats(front);
      assert accounts == front + [last];
      PinsSnoc(front, last);
      assert last.slot.None? ==> Pins(accounts) == Pins(front);
    }
  }

  // ----- what an assignment is -----

  /** One more account. */
  lemma AllocateNext(accounts: seq<Account>, running: Running, pins: set<Slot>, i: nat, slots: seq<Slot>)
    requires i < |accounts| && Allocate(accounts[..i], running, pins) == Some(slots)
    ensures Allocate(accounts[..i + 1], running, pins) ==
      match Choose(accounts[i], running, pins + Elements(slots))
      case None => None
      case Some(slot) => Some(slots + [slot])
  {
    assert accounts[..i + 1][..i] == accounts[..i];
  }

  lemma {:induction false} AllocateInTurn(accounts: seq<Account>, running: Running, pins: set<Slot>, i: nat)
    requires Allocate(accounts, running, pins).Some? && i < |accounts|
    ensures var slots := Allocate(accounts, running, pins).value;
      Choose(accounts[i], running, pins + Elements(slots[..i])) == Some(slots[i])
  {
    var front := accounts[..|accounts| - 1];
    var slots := Allocate(accounts, running, pins).value;
    assert slots[..|slots| - 1] == Allocate(front, running, pins).value;
    if i < |front| {
      AllocateInTurn(front, running, pins, i);
      assert slots[..|slots| - 1][..i] == slots[..i];
    }
  }

  /** Pins are kept, and an unpinned account keeps its running slot if it can or gets the least free one. */
  lemma EachInTurn(accounts: seq<Account>, running: Running, i: nat)
    requires Assign(accounts, running).Some? && i < |accounts|
    ensures var slots := Assign(accounts, running).value;
      var a := accounts[i];
      var used := Pins(accounts) + Elements(slots[..i]);
      if a.slot.Some? then slots[i] == a.slot.value
      else
        && slots[i] !in used
        && if a.folder in running && running[a.folder] !in used then slots[i] == running[a.folder]
           else forall s: Slot | s < slots[i] :: s in used
  {
    AllocateInTurn(accounts, running, Pins(accounts), i);
  }

  lemma AssignedDistinct(accounts: seq<Account>, running: Running)
    requires Assign(accounts, running).Some?
    ensures Distinct(Assign(accounts, running).value)
  {
    var slots := Assign(accounts, running).value;
    forall i, j | 0 <= i < j < |slots| ensures slots[i] != slots[j] {
      EachInTurn(accounts, running, i);
      EachInTurn(accounts, running, j);
      assert accounts[i] in accounts && accounts[j] in accounts;
      assert slots[i] in slots[..j];
    }
  }

  // ----- when an assignment fails -----

  lemma {:induction false} ElementsBound(slots: seq<Slot>)
    ensures |Elements(slots)| <= |slots|
    ensures Distinct(slots) ==> |Elements(slots)| == |slots|
  {
    if slots != [] {
      var front, last := slots[..|slots| - 1], slots[|slots| - 1];
      ElementsBound(front);
      assert slots == front + [last];
      assert Elements(slots) == Elements(front) + {last};
    }
  }

  lemma {:induction false} PinsBound(accounts: seq<Account>)
    ensures |Pins(accounts)| <= |accounts|
  {
    if accounts != [] {
      var front, last := accounts[..|accounts| - 1], accounts[|accounts| - 1];
      PinsBound(front);
      PinsSnoc(front, last);
      assert accounts == front + [last];
    }
  }

  lemma {:induction false} AllSlots(n: nat) returns (all: set<Slot>)
    requires n <= SLOTS
    ensures |all| == n && forall s: Slot :: s in all <==> s < n
  {
    if n == 0 {
      all := {};
    } else {
      var rest := AllSlots(n - 1);
      all := rest + {n - 1};
    }
  }

  lemma SubsetBound(a: set<Slot>, b: set<Slot>)
    requires a <= b
    ensures |a| <= |b|
  {
    assert b == a + (b - a);
    assert |a + (b - a)| == |a| + |b - a|;
  }

  lemma SlotCount(used: set<Slot>)
    ensures |used| <= SLOTS
    ensures |used| < SLOTS ==> LeastFree(used, 0).Some?
  {
    var all := AllSlots(SLOTS);
    assert used <= all;
    SubsetBound(used, all);
    if LeastFree(used, 0).None? {
      assert all <= used;
      SubsetBound(all, used);
    }
  }

  /** The slots in use when the turn of an unpinned account comes are fewer than the accounts. */
  lemma UsedBound(accounts: seq<Account>, slots: seq<Slot>, i: nat)
    requires |slots| == i < |accounts| && accounts[i].slot.None?
    requires forall j | 0 <= j < i && accounts[j].slot.Some? :: slots[j] == accounts[j].slot.value
    ensures |Pins(accounts) + Elements(slots)| < |accounts|
  {
    var later := Pins(accounts[i + 1..]);
    PinsBound(accounts[i + 1..]);
    ElementsBound(slots);
    forall s | s in Pins(accounts) ensures s in later + Elements(slots) {
      var a :| a in accounts && a.slot == Some(s);
      var j :| 0 <= j < |accounts| && accounts[j] == a;
      if j < i {
        assert slots[j] == s;
      } else {
        assert accounts[i + 1..][j - i - 1] == a;
      }
    }
    SubsetBound(Pins(accounts) + Elements(slots), later + Elements(slots));
    assert |later + Elements(slots)| <= |later| + |Elements(slots)|;
  }

  lemma TurnSucceeds(accounts: seq<Account>, running: Running, i: nat, slots: seq<Slot>)
    requires i < |accounts| <= SLOTS && Allocate(accounts[..i], running, Pins(accounts)) == Some(slots)
    ensures Choose(accounts[i], running, Pins(accounts) + Elements(slots)).Some?
  {
    if accounts[i].slot.None? {
      forall j | 0 <= j < i && accounts[j].slot.Some? ensures slots[j] == accounts[j].slot.value {
        AllocateInTurn(accounts[..i], running, Pins(accounts), j);
      }
      UsedBound(accounts, slots, i);
      SlotCount(Pins(accounts) + Elements(slots));
    }
  }

  lemma {:induction false} AllocateSucceeds(accounts: seq<Account>, running: Running, i: nat)
    requires |accounts| <= SLOTS && i <= |accounts|
    ensures Allocate(accounts[..i], running, Pins(accounts)).Some?
  {
    if i > 0 {
      AllocateSucceeds(accounts, running, i - 1);
      var slots := Allocate(accounts[..i - 1], running, Pins(accounts)).value;
      TurnSucceeds(accounts, running, i - 1, slots);
      AllocateNext(accounts, running, Pins(accounts), i - 1, slots);
    }
  }

  /** An assignment fails exactly when a pin is repeated or there are more accounts than slots. */
  lemma FailsExactlyWhen(accounts: seq<Account>, running: Running)
    ensures Assign(accounts, running).None? <==> !PinsDistinct(accounts) || |accounts| > SLOTS
  {
    if PinsDistinct(accounts) && |accounts| <= SLOTS {
      AllocateSucceeds(accounts, running, |accounts|);
      assert accounts[..|accounts|] == accounts;
    } else if PinsDistinct(accounts) && Assign(accounts, running).Some? {
      var slots := Assign(accounts, running).value;
      AssignedDistinct(accounts, running);
      ElementsBound(slots);
      SlotCount(Elements(slots));
    }
  }

  // ----- the two programs agree -----

  lemma PrependTwice(a: seq<Slot>, b: seq<Slot>, rest: Option<seq<Slot>>)
    ensures Prepend(a, Prepend(b, rest)) == Prepend(a + b, rest)
  {
    if rest.Some? {
      assert a + (b + rest.value) == a + b + rest.value;
    }
  }

  /** From any point on, filling in what is left completes the allocation. */
  lemma {:induction false} FillCompletes(accounts: seq<Account>, pins: set<Slot>, i: nat, slots: seq<Slot>)
    requires i <= |accounts| && Allocate(accounts[..i], map[], pins) == Some(slots)
    ensures Allocate(accounts, map[], pins) == Prepend(slots, Fill(accounts[i..], pins + Elements(slots)))
    decreases |accounts| - i
  {
    if i == |accounts| {
      assert accounts[..i] == accounts && slots + [] == slots;
    } else {
      AllocateNext(accounts, map[], pins, i, slots);
      var slot := Choose(accounts[i], map[], pins + Elements(slots));
      assert accounts[i..][0] == accounts[i] && accounts[i..][1..] == accounts[i + 1..];
      if slot.None? {
        AllocateFailsEarly(accounts, map[], pins, i + 1);
      } else {
        FillCompletes(accounts, pins, i + 1, slots + [slot.value]);
        assert pins + Elements(slots + [slot.value]) == pins + Elements(slots) + {slot.value};
        PrependTwice(slots, [slot.value], Fill(accounts[i + 1..], pins + Elements(slots) + {slot.value}));
      }
    }
  }

  /** With no session running, both programs assign the same slots, and fail on the same lists. */
  lemma BothAssignTheSame(accounts: seq<Account>)
    ensures Normalize(accounts) == Assign(accounts, map[])
  {
    CollectPinsFindsRepeats(accounts);
    var none: seq<Slot> := [];
    FillCompletes(accounts, Pins(accounts), 0, none);
    assert accounts[0..] == accounts && Pins(accounts) + Elements(none) == Pins(accounts);
    NothingPrepended(Fill(accounts, Pins(accounts)));
  }

  // ----- which running accounts keep their slots -----

  /** A running unpinned account keeps its slot exactly when no pin and no earlier account has it. */
  lemma KeepsSlotExactlyWhen(accounts: seq<Account>, running: Running, i: nat)
    requires Assign(accounts, running).Some? && i < |accounts|
    requires accounts[i].slot.None? && accounts[i].folder in running
    ensures var slots := Assign(accounts, running).value;
      var slot := running[accounts[i].folder];
      slots[i] == slot <==> slot !in Pins(accounts) && slot !in slots[..i]
  {
    EachInTurn(accounts, running, i);
  }

  /** Accounts added behind the running ones disturb none of them, short of pinning their slots. */
  lemma {:induction false} AppendedAccountsDisturbNobody(accounts: seq<Account>, running: Running, m: nat, i: nat)
    requires Assign(accounts, running).Some? && i < m <= |accounts|
    requires forall j | 0 <= j < m ::
      accounts[j].folder in running
      && (accounts[j].slot.None? ==> running[accounts[j].folder] !in Pins(accounts))
    requires forall j, k | 0 <= j < k < m :: running[accounts[j].folder] != running[accounts[k].folder]
    ensures accounts[i].slot.None? ==> Assign(accounts, running).value[i] == running[accounts[i].folder]
    decreases i
  {
    if accounts[i].slot.None? {
      var slots := Assign(accounts, running).value;
      KeepsSlotExactlyWhen(accounts, running, i);
      forall j | 0 <= j < i ensures slots[j] != running[accounts[i].folder] {
        AppendedAccountsDisturbNobody(accounts, running, m, j);
        EachInTurn(accounts, running, j);
        assert accounts[j] in accounts;
      }
    }
  }

  /** A new account listed before a running one takes its slot. */
  lemma EarlierAccountTakesSlot(running: Running)
    requires running == map["b" := 0]
    ensures Assign([Account("a", "ws://n", None), Account("b", "ws://n", None)], running) == Some([0, 1])
  {
    var a, b := Account("a", "ws://n", None), Account("b", "ws://n", None);
    assert Pins([a, b]) == {};
    assert LeastFree({}, 0) == Some(0);
    assert Elements([0]) == {0};
    assert LeastFree({0}, 0) == LeastFree({0}, 1) == Some(1);
    var none: seq<Slot> := [];
    assert none + [0] == [0];
    AllocateNext([a, b], running, {}, 0, none);
    assert {} + Elements([]) == {} && {} + Elements([0]) == {0};
    assert "a"[0] != "b"[0];
    assert Choose(a, running, {}) == Some(0);
    AllocateNext([a, b], running, {}, 1, [0]);
    assert [a, b][..2] == [a, b] && [0] + [1] == [0, 1];
  }

  // ----- the programs -----

  method AllocateSlot(used: set<Slot>) returns (slot: Option<Slot>)
    ensures slot == LeastFree(used, 0)
  {
    for candidate := 0 to SLOTS
      invariant LeastFree(used, candidate) == LeastFree(used, 0)
    {
      if candidate !in used {
        return Some(candidate);
      }
    }
    return None;
  }

  /** How many accounts are pinned. */
  function PinCount(accounts: seq<Account>): nat {
    if accounts == [] then 0
    else PinCount(accounts[..|accounts| - 1]) + if accounts[|accounts| - 1].slot.Some? then 1 else 0
  }

  /** The Python test for repeated pins. */
  lemma {:induction false} CountFindsRepeats(accounts: seq<Account>)
    ensures |Pins(accounts)| <= PinCount(accounts)
    ensures |Pins(accounts)| == PinCount(accounts) <==> PinsDistinct(accounts)
  {
    if accounts == [] {
      assert Pins(accounts) == {};
    } else {
      var front, last := accounts[..|accounts| - 1], accounts[|accounts| - 1];
      CountFindsRepeats(front);
      assert accounts == front + [last];
      PinsSnoc(front, last);
      if last.slot.None? {
        assert Pins(accounts) == Pins(front);
      } else {
        OneMore(Pins(front), last.slot.value);
      }
    }
  }

  lemma OneMore(used: set<Slot>, slot: Slot)
    ensures |used + {slot}| == |used| + if slot in used then 0 else 1
  {
    if slot in used {
      assert used + {slot} == used;
    }
  }

  method ChooseSlot(account: Account, running: Running, used: set<Slot>) returns (slot: Option<Slot>)
    ensures slot == Choose(account, running, used)
  {
    if account.slot.Some? {
      return account.slot;
    }
    if account.folder in running && running[account.folder] !in used {
      return Some(running[account.folder]);
    }
    slot := AllocateSlot(used);
  }

  /** The Python loop over the accounts once the pins are known. */
  method AllocateAll(accounts: seq<Account>, running: Running, pins: set<Slot>) returns (plan: Option<seq<Slot>>)
    ensures plan == Allocate(accounts, running, pins)
  {
    var used, slots := pins, [];
    for i := 0 to |accounts|
      invariant Allocate(accounts[..i], running, pins) == Some(slots)
      invariant used == pins + Elements(slots)
    {
      AllocateNext(accounts, running, pins, i, slots);
      var slot := ChooseSlot(accounts[i], running, used);
      if slot.None? {
        AllocateFailsEarly(accounts, running, pins, i + 1);
        return None;
      }
      assert Elements(slots + [slot.value]) == Elements(slots) + {slot.value};
      used, slots := used + {slot.value}, slots + [slot.value];
    }
    assert accounts[..|accounts|] == accounts;
    return Some(slots);
  }

  method AssignAccountSlots(accounts: seq<Account>, running: Running) returns (plan: Option<seq<Slot>>)
    ensures plan == Assign(accounts, running)
  {
    CountFindsRepeats(accounts);
    var used := Pins(accounts);
    if |used| != PinCount(accounts) {
      return None;
    }
    plan := AllocateAll(accounts, running, used);
  }

  lemma {:induction false} AllocateFailsEarly(accounts: seq<Account>, running: Running, pins: set<Slot>, i: nat)
    requires i <= |accounts| && Allocate(accounts[..i], running, pins).None?
    ensures Allocate(accounts, running, pins).None?
    decreases |accounts| - i
  {
    if i == |accounts| {
      assert accounts[..i] == accounts;
    } else {
      assert accounts[..i + 1][..i] == accounts[..i];
      AllocateFailsEarly(accounts, running, pins, i + 1);
    }
  }

  lemma {:induction false} CollectFailsEarly(accounts: seq<Account>, i: nat)
    requires i <= |accounts| && CollectPins(accounts[..i]).None?
    ensures CollectPins(accounts).None?
    decreases |accounts| - i
  {
    if i == |accounts| {
      assert accounts[..i] == accounts;
    } else {
      assert accounts[..i + 1][..i] == accounts[..i];
      CollectFailsEarly(accounts, i + 1);
    }
  }

  method NormalizeAccounts(accounts: seq<Account>) returns (plan: Option<seq<Slot>>)
    ensures plan == Normalize(accounts)
  {
    var usedSlots: set<Slot> := {};
    for i := 0 to |accounts|
      invariant CollectPins(accounts[..i]) == Some(usedSlots)
    {
      assert accounts[..i + 1][..i] == accounts[..i];
      if accounts[i].slot.Some? {
        if accounts[i].slot.value in usedSlots {
          CollectFailsEarly(accounts, i + 1);
          return None;
        }
        usedSlots := usedSlots + {accounts[i].slot.value};
      }
    }
    assert accounts[..|accounts|] == accounts;
    plan := FillSlots(accounts, usedSlots);
  }

  /** The second Node pass. */
  method FillSlots(accounts: seq<Account>, pins: set<Slot>) returns (plan: Option<seq<Slot>>)
    ensures plan == Fill(accounts, pins)
  {
    var usedSlots, slots := pins, [];
    assert accounts[0..] == accounts;
    NothingPrepended(Fill(accounts, pins));
    for i := 0 to |accounts|
      invariant Fill(accounts, pins) == Prepend(slots, Fill(accounts[i..], usedSlots))
    {
      assert accounts[i..][0] == accounts[i] && accounts[i..][1..] == accounts[i + 1..];
      var slot := accounts[i].slot;
      if slot.None? {
        slot := AllocateSlot(usedSlots);
        if slot.None? {
          return None;
        }
      }
      PrependTwice(slots, [slot.value], Fill(accounts[i + 1..], usedSlots + {slot.value}));
      usedSlots, slots := usedSlots + {slot.value}, slots + [slot.value];
    }
    assert slots + [] == slots;
    return Some(slots);
  }

  lemma NothingPrepended(rest: Option<seq<Slot>>)
    ensures Prepend([], rest) == rest
  {
    if rest.Some? {
      assert [] + rest.value == rest.value;
    }
  }
}
