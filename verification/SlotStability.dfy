/** When a new assignment moves no running session: a condition on the account list alone. */
module SlotStability {
  import opened Options
  import opened Slots

  /** Unpinned and running. */
  predicate IsRunner(a: Account, running: Running) {
    a.slot.None? && a.folder in running
  }

  /** Unpinned and not running. */
  predicate IsNewcomer(a: Account, running: Running) {
    a.slot.None? && a.folder !in running
  }

  function RunnerSlots(accounts: seq<Account>, running: Running): set<Slot> {
    set a | a in accounts && IsRunner(a, running) :: running[a.folder]
  }

  /** How many newcomers are among the first `i` accounts. */
  function Newcomers(accounts: seq<Account>, running: Running, i: nat): nat
    requires i <= |accounts|
  {
    if i == 0 then 0
    else Newcomers(accounts, running, i - 1) + if IsNewcomer(accounts[i - 1], running) then 1 else 0
  }

  /** The slots below `slot` that neither a pin nor a runner has. */
  function FreeBelow(accounts: seq<Account>, running: Running, slot: Slot): set<Slot> {
    set x: Slot | 0 <= x < slot && x !in Pins(accounts) && x !in RunnerSlots(accounts, running)
  }

  /** The slot of runner `i` is its own, is no pin, and there is room below it for the newcomers listed before. */
  predicate HasRoom(accounts: seq<Account>, running: Running, i: nat)
    requires i < |accounts| && IsRunner(accounts[i], running)
  {
    var slot := running[accounts[i].folder];
    && slot !in Pins(accounts)
    && (forall j | 0 <= j < i && IsRunner(accounts[j], running) :: running[accounts[j].folder] != slot)
    && Newcomers(accounts, running, i) <= |FreeBelow(accounts, running, slot)|
  }

  predicate RoomForAll(accounts: seq<Account>, running: Running) {
    forall i | 0 <= i < |accounts| && IsRunner(accounts[i], running) :: HasRoom(accounts, running, i)
  }

  /** Every listed running unpinned account keeps its slot. */
  predicate AllKeep(accounts: seq<Account>, running: Running, slots: seq<Slot>)
    requires |slots| == |accounts|
  {
    forall i | 0 <= i < |accounts| && IsRunner(accounts[i], running) :: slots[i] == running[accounts[i].folder]
  }

  /** The slots of the newcomers among the first `i` accounts. */
  function NewcomerSlots(accounts: seq<Account>, running: Running, slots: seq<Slot>, i: nat): set<Slot>
    requires |slots| == |accounts| && i <= |accounts|
  {
    if i == 0 then {}
    else
      var front := NewcomerSlots(accounts, running, slots, i - 1);
      if IsNewcomer(accounts[i - 1], running) then front + {slots[i - 1]} else front
  }

  lemma {:induction false} NewcomerSlotsAre(accounts: seq<Account>, running: Running, slots: seq<Slot>, i: nat)
    requires |slots| == |accounts| && i <= |accounts|
    ensures forall x :: x in NewcomerSlots(accounts, running, slots, i) <==>
      exists j | 0 <= j < i :: IsNewcomer(accounts[j], running) && slots[j] == x
  {
    if i > 0 {
      NewcomerSlotsAre(accounts, running, slots, i - 1);
    }
  }

  lemma {:induction false} NewcomerCount(accounts: seq<Account>, running: Running, slots: seq<Slot>, i: nat)
    requires |slots| == |accounts| && i <= |accounts| && Distinct(slots)
    ensures |NewcomerSlots(accounts, running, slots, i)| == Newcomers(accounts, running, i)
  {
    if i > 0 {
      NewcomerCount(accounts, running, slots, i - 1);
      var front := NewcomerSlots(accounts, running, slots, i - 1);
      if IsNewcomer(accounts[i - 1], running) {
        NextIsNew(accounts, running, slots, i - 1);
        OneMore(front, slots[i - 1]);
      }
    }
  }

  lemma NextIsNew(accounts: seq<Account>, running: Running, slots: seq<Slot>, i: nat)
    requires |slots| == |accounts| && i < |accounts| && Distinct(slots)
    ensures slots[i] !in NewcomerSlots(accounts, running, slots, i)
  {
    NewcomerSlotsAre(accounts, running, slots, i);
  }

  lemma {:induction false} NewcomersGrow(accounts: seq<Account>, running: Running, i: nat, j: nat)
    requires i <= j <= |accounts|
    ensures Newcomers(accounts, running, i) <= Newcomers(accounts, running, j)
    decreases j
  {
    if i < j {
      NewcomersGrow(accounts, running, i, j - 1);
    }
  }

  // ----- room means that all keep their slots -----

  /** So far, runners have kept their slots and newcomers have taken nobody else's. */
  predicate PeacefulUpTo(accounts: seq<Account>, running: Running, slots: seq<Slot>, i: nat)
    requires |slots| == |accounts| && i <= |accounts|
  {
    forall j | 0 <= j < i ::
      && (IsRunner(accounts[j], running) ==> slots[j] == running[accounts[j].folder])
      && (IsNewcomer(accounts[j], running) ==> slots[j] !in RunnerSlots(accounts, running))
  }

  /** Of more slots than newcomers, one is not taken by a newcomer. */
  lemma OneIsLeft(free: set<Slot>, taken: set<Slot>) returns (x: Slot)
    requires |taken| < |free|
    ensures x in free && x !in taken
  {
    if free <= taken {
      SubsetBound(free, taken);
      assert false;
    }
    x :| x in free && x !in taken;
  }

  /** A slot that is free, and not a newcomer's, is not in use yet. */
  lemma FreeIsUnused(accounts: seq<Account>, running: Running, slots: seq<Slot>, i: nat, x: Slot)
    requires Assign(accounts, running) == Some(slots) && i <= |accounts|
    requires PeacefulUpTo(accounts, running, slots, i)
    requires x !in Pins(accounts) && x !in RunnerSlots(accounts, running)
    requires x !in NewcomerSlots(accounts, running, slots, i)
    ensures x !in Pins(accounts) + Elements(slots[..i])
  {
    NewcomerSlotsAre(accounts, running, slots, i);
    forall j | 0 <= j < i ensures slots[j] != x {
      EachInTurn(accounts, running, j);
      assert accounts[j] in accounts;
      assert accounts[j].slot.Some? || IsRunner(accounts[j], running) || IsNewcomer(accounts[j], running);
    }
  }

  /** When a newcomer's turn comes, a slot below that of any runner listed behind it is not in use. */
  lemma RoomBelowRunner(accounts: seq<Account>, running: Running, slots: seq<Slot>, i: nat, k: nat) returns (x: Slot)
    requires Assign(accounts, running) == Some(slots) && i < k < |accounts|
    requires PeacefulUpTo(accounts, running, slots, i) && IsNewcomer(accounts[i], running)
    requires IsRunner(accounts[k], running) && HasRoom(accounts, running, k)
    ensures x < running[accounts[k].folder] && x !in Pins(accounts) + Elements(slots[..i])
  {
    NewcomersGrow(accounts, running, i + 1, k);
    AssignedDistinct(accounts, running);
    NewcomerCount(accounts, running, slots, i);
    x := OneIsLeft(FreeBelow(accounts, running, running[accounts[k].folder]),
                   NewcomerSlots(accounts, running, slots, i));
    FreeIsUnused(accounts, running, slots, i, x);
  }

  /** The next newcomer takes no runner's slot. */
  lemma NewcomerIsPeaceful(accounts: seq<Account>, running: Running, slots: seq<Slot>, i: nat)
    requires Assign(accounts, running) == Some(slots) && RoomForAll(accounts, running) && i < |accounts|
    requires PeacefulUpTo(accounts, running, slots, i) && IsNewcomer(accounts[i], running)
    ensures slots[i] !in RunnerSlots(accounts, running)
  {
    EachInTurn(accounts, running, i);
    forall a | a in accounts && IsRunner(a, running) ensures running[a.folder] != slots[i] {
      var k :| 0 <= k < |accounts| && accounts[k] == a;
      assert HasRoom(accounts, running, k);
      if k < i {
        assert slots[k] in slots[..i];
      } else {
        var x := RoomBelowRunner(accounts, running, slots, i, k);
      }
    }
  }

  /** The next runner keeps its slot. */
  lemma RunnerKeeps(accounts: seq<Account>, running: Running, slots: seq<Slot>, i: nat)
    requires Assign(accounts, running) == Some(slots) && RoomForAll(accounts, running) && i < |accounts|
    requires PeacefulUpTo(accounts, running, slots, i) && IsRunner(accounts[i], running)
    ensures slots[i] == running[accounts[i].folder]
  {
    var slot := running[accounts[i].folder];
    assert HasRoom(accounts, running, i);
    assert accounts[i] in accounts;
    forall j | 0 <= j < i ensures slots[j] != slot {
      EachInTurn(accounts, running, j);
      assert accounts[j] in accounts;
      assert accounts[j].slot.Some? || IsRunner(accounts[j], running) || IsNewcomer(accounts[j], running);
    }
    EachInTurn(accounts, running, i);
  }

  lemma RoomMeansPeace(accounts: seq<Account>, running: Running, slots: seq<Slot>)
    requires Assign(accounts, running) == Some(slots) && RoomForAll(accounts, running)
    ensures PeacefulUpTo(accounts, running, slots, |accounts|)
  {
    for i := 0 to |accounts|
      invariant PeacefulUpTo(accounts, running, slots, i)
    {
      if IsRunner(accounts[i], running) {
        RunnerKeeps(accounts, running, slots, i);
      }
      if IsNewcomer(accounts[i], running) {
        NewcomerIsPeaceful(accounts, running, slots, i);
      }
    }
  }

  // ----- and only room does -----

  /** When all keep their slots, the newcomers listed before a runner have found slots below its own. */
  lemma NewcomersAreBelow(accounts: seq<Account>, running: Running, slots: seq<Slot>, i: nat)
    requires Assign(accounts, running) == Some(slots) && AllKeep(accounts, running, slots)
    requires i < |accounts| && IsRunner(accounts[i], running)
    ensures NewcomerSlots(accounts, running, slots, i) <= FreeBelow(accounts, running, slots[i])
  {
    NewcomerSlotsAre(accounts, running, slots, i);
    AssignedDistinct(accounts, running);
    EachInTurn(accounts, running, i);
    forall x | x in NewcomerSlots(accounts, running, slots, i) ensures x in FreeBelow(accounts, running, slots[i]) {
      var j :| 0 <= j < i && IsNewcomer(accounts[j], running) && slots[j] == x;
      EachInTurn(accounts, running, j);
      forall a | a in accounts && IsRunner(a, running) ensures running[a.folder] != x {
        var k :| 0 <= k < |accounts| && accounts[k] == a;
        assert k != j;
      }
      assert slots[i] !in slots[..j];
      assert slots[i] !in Pins(accounts) + Elements(slots[..j]);
      assert x !in Pins(accounts);
    }
  }

  lemma KeepingMeansRoom(accounts: seq<Account>, running: Running, slots: seq<Slot>, i: nat)
    requires Assign(accounts, running) == Some(slots) && AllKeep(accounts, running, slots)
    requires i < |accounts| && IsRunner(accounts[i], running)
    ensures HasRoom(accounts, running, i)
  {
    EachInTurn(accounts, running, i);
    AssignedDistinct(accounts, running);
    NewcomersAreBelow(accounts, running, slots, i);
    NewcomerCount(accounts, running, slots, i);
    SubsetBound(NewcomerSlots(accounts, running, slots, i), FreeBelow(accounts, running, slots[i]));
  }

  /**
   * A successful assignment moves no running session exactly when, for each running unpinned account: no pin and no
   * earlier running account has its slot, and the newcomers listed before it are no more than the slots below its
   * own that no pin and no running account has.
   */
  lemma AllKeepExactlyWhen(accounts: seq<Account>, running: Running, slots: seq<Slot>)
    requires Assign(accounts, running) == Some(slots)
    ensures AllKeep(accounts, running, slots) <==> RoomForAll(accounts, running)
  {
    if AllKeep(accounts, running, slots) {
      forall i | 0 <= i < |accounts| && IsRunner(accounts[i], running) ensures HasRoom(accounts, running, i) {
        KeepingMeansRoom(accounts, running, slots, i);
      }
    }
    if RoomForAll(accounts, running) {
      RoomMeansPeace(accounts, running, slots);
    }
  }
}
