/** Suppression of near-duplicate replies: per chat, the signatures of the latest accepted replies. */
module ReplyDedup {
  datatype Item = Item(at: int, signature: string)

  datatype Limits = Limits(windowMs: int, minChars: int, maxEntries: nat)

  /** The deque of a chat, and as history the replies accepted so far that were subject to suppression. */
  datatype Chat = Chat(items: seq<Item>, accepted: seq<Item>)

  /** Old items leave at the front. */
  function Purge(items: seq<Item>, cutoff: int): (r: seq<Item>)
    ensures |r| <= |items|
  {
    if items != [] && items[0].at < cutoff then Purge(items[1..], cutoff) else items
  }

  /** What leaves is older than the cutoff, and what then stands first is not. */
  lemma {:induction false} PurgeCuts(items: seq<Item>, cutoff: int)
    ensures var r := Purge(items, cutoff);
      && IsEnd(r, items)
      && (r != [] ==> r[0].at >= cutoff)
      && (forall i | 0 <= i < |items| - |r| :: items[i].at < cutoff)
  {
    if items != [] && items[0].at < cutoff {
      PurgeCuts(items[1..], cutoff);
      forall i | 0 < i < |items| - |Purge(items, cutoff)| ensures items[i].at < cutoff {
        assert items[1..][i - 1].at < cutoff;
      }
    }
  }

  lemma FirstIsRecent(items: seq<Item>, cutoff: int)
    requires Purge(items, cutoff) != []
    ensures Purge(items, cutoff)[0].at >= cutoff
  {
    PurgeCuts(items, cutoff);
  }

  predicate Has(items: seq<Item>, signature: string) {
    exists i | 0 <= i < |items| :: items[i].signature == signature
  }

  function Cap(items: seq<Item>, n: nat): seq<Item> {
    if |items| > n then items[|items| - n..] else items
  }

  predicate Subject(signature: string, l: Limits) {
    l.windowMs > 0 && |signature| >= l.minChars
  }

  predicate Duplicate(items: seq<Item>, signature: string, now: int, l: Limits) {
    Subject(signature, l) && Has(Purge(items, now - l.windowMs), signature)
  }

  /** The deque after a reply. */
  function Next(items: seq<Item>, signature: string, now: int, l: Limits): seq<Item> {
    if !Subject(signature, l) then items
    else
      var kept := Purge(items, now - l.windowMs);
      if Has(kept, signature) then kept else Cap(kept + [Item(now, signature)], l.maxEntries)
  }

  function Step(c: Chat, signature: string, now: int, l: Limits): Chat {
    Chat(Next(c.items, signature, now, l),
         if Subject(signature, l) && !Duplicate(c.items, signature, now, l) then c.accepted + [Item(now, signature)]
         else c.accepted)
  }

  function Kept(c: Chat, now: int, l: Limits): seq<Item> {
    Purge(c.items, now - l.windowMs)
  }

  datatype Reply = Reply(signature: string, now: int)

  predicate ClockOk(replies: seq<Reply>) {
    forall i, j | 0 <= i < j < |replies| :: replies[i].now <= replies[j].now
  }

  function After(replies: seq<Reply>, l: Limits): Chat {
    if replies == [] then Chat([], [])
    else
      var last := replies[|replies| - 1];
      Step(After(replies[..|replies| - 1], l), last.signature, last.now, l)
  }

  // ----- what every reply keeps -----

  predicate Sorted(items: seq<Item>) {
    forall i, j | 0 <= i < j < |items| :: items[i].at <= items[j].at
  }

  /** No two items have the same signature. */
  predicate Distinct(items: seq<Item>) {
    forall i, j | 0 <= i < j < |items| :: items[i].signature != items[j].signature
  }

  predicate IsEnd(items: seq<Item>, all: seq<Item>) {
    |items| <= |all| && forall k | 0 <= k < |items| :: items[k] == all[|all| - |items| + k]
  }

  /** Accepted reply `i` can no longer suppress: it is out of the window, or enough others came after it. */
  predicate Forgotten(accepted: seq<Item>, i: nat, now: int, l: Limits)
    requires i < |accepted|
  {
    accepted[i].at < now - l.windowMs || |accepted| - i > l.maxEntries
  }

  /** The deque has lost only what is forgotten. */
  predicate LostOk(c: Chat, now: int, l: Limits) {
    forall i | 0 <= i < |c.accepted| - |c.items| :: Forgotten(c.accepted, i, now, l)
  }

  /** Replies of one signature are further apart than the window, or have at least `maxEntries` others between. */
  predicate Spaced(accepted: seq<Item>, l: Limits) {
    forall i, j | 0 <= i < j < |accepted| && accepted[i].signature == accepted[j].signature ::
      accepted[j].at - accepted[i].at > l.windowMs || j - i - 1 >= l.maxEntries
  }

  predicate Inv(c: Chat, now: int, l: Limits) {
    && |c.items| <= l.maxEntries && IsEnd(c.items, c.accepted) && Distinct(c.items) && LostOk(c, now, l)
    && Sorted(c.accepted) && (c.accepted != [] ==> c.accepted[|c.accepted| - 1].at <= now)
    && Spaced(c.accepted, l)
  }

  lemma KeptIsEnd(c: Chat, now: int, l: Limits)
    requires IsEnd(c.items, c.accepted)
    ensures IsEnd(Kept(c, now, l), c.accepted) && |Kept(c, now, l)| <= |c.items|
    ensures Distinct(c.items) ==> Distinct(Kept(c, now, l))
  {
    PurgeCuts(c.items, now - l.windowMs);
  }

  lemma PurgedAreOld(c: Chat, now: int, l: Limits, i: nat)
    requires IsEnd(c.items, c.accepted) && |c.accepted| - |c.items| <= i < |c.accepted| - |Kept(c, now, l)|
    ensures c.accepted[i].at < now - l.windowMs
  {
    PurgeCuts(c.items, now - l.windowMs);
    assert c.accepted[i] == c.items[i - (|c.accepted| - |c.items|)];
  }

  /** At a later time, purging loses only what is forgotten. */
  lemma PurgeLosesForgotten(c: Chat, before: int, now: int, l: Limits)
    requires IsEnd(c.items, c.accepted) && LostOk(c, before, l) && before <= now
    ensures LostOk(c.(items := Kept(c, now, l)), now, l)
  {
    forall i | 0 <= i < |c.accepted| - |Kept(c, now, l)| ensures Forgotten(c.accepted, i, now, l) {
      if i < |c.accepted| - |c.items| {
        assert Forgotten(c.accepted, i, before, l);
      } else {
        PurgedAreOld(c, now, l, i);
      }
    }
  }

  lemma EndAt(items: seq<Item>, all: seq<Item>, k: nat)
    requires IsEnd(items, all) && k < |items|
    ensures items[k] == all[|all| - |items| + k]
  {
  }

  /** What purging leaves is not forgotten. */
  lemma RecentIsRemembered(kept: seq<Item>, accepted: seq<Item>, now: int, l: Limits, k: nat)
    requires IsEnd(kept, accepted) && Sorted(accepted) && |kept| <= l.maxEntries
    requires k < |kept| && kept[0].at >= now - l.windowMs
    ensures !Forgotten(accepted, |accepted| - |kept| + k, now, l)
    ensures accepted[|accepted| - |kept| + k] == kept[k]
  {
    EndAt(kept, accepted, 0);
    EndAt(kept, accepted, k);
  }

  predicate Remembers(accepted: seq<Item>, signature: string, now: int, l: Limits) {
    exists i | 0 <= i < |accepted| :: accepted[i].signature == signature && !Forgotten(accepted, i, now, l)
  }

  lemma HasThenRemembers(c: Chat, before: int, signature: string, now: int, l: Limits)
    requires Inv(c, before, l) && before <= now && Has(Kept(c, now, l), signature)
    ensures Remembers(c.accepted, signature, now, l)
  {
    var k :| 0 <= k < |Kept(c, now, l)| && Kept(c, now, l)[k].signature == signature;
    KeptIsEnd(c, now, l);
    FirstIsRecent(c.items, now - l.windowMs);
    RecentIsRemembered(Kept(c, now, l), c.accepted, now, l, k);
  }

  lemma RemembersThenHas(c: Chat, before: int, signature: string, now: int, l: Limits)
    requires Inv(c, before, l) && before <= now && Remembers(c.accepted, signature, now, l)
    ensures Has(Kept(c, now, l), signature)
  {
    var kept, n := Kept(c, now, l), |c.accepted|;
    var i: nat :| i < n && c.accepted[i].signature == signature && !Forgotten(c.accepted, i, now, l);
    KeptIsEnd(c, now, l);
    PurgeLosesForgotten(c, before, now, l);
    EndAt(kept, c.accepted, i - (n - |kept|));
  }

  lemma HasIsRemembers(c: Chat, before: int, signature: string, now: int, l: Limits)
    requires Inv(c, before, l) && before <= now
    ensures Has(Kept(c, now, l), signature) <==> Remembers(c.accepted, signature, now, l)
  {
    if Has(Kept(c, now, l), signature) {
      HasThenRemembers(c, before, signature, now, l);
    }
    if Remembers(c.accepted, signature, now, l) {
      RemembersThenHas(c, before, signature, now, l);
    }
  }

  lemma SuppressKeeps(c: Chat, before: int, now: int, l: Limits)
    requires Inv(c, before, l) && before <= now
    ensures Inv(c.(items := Kept(c, now, l)), now, l)
  {
    KeptIsEnd(c, now, l);
    PurgeLosesForgotten(c, before, now, l);
  }

  lemma AcceptedSpaced(c: Chat, before: int, signature: string, now: int, l: Limits)
    requires Inv(c, before, l) && before <= now && !Has(Kept(c, now, l), signature)
    ensures Spaced(c.accepted + [Item(now, signature)], l)
  {
    HasIsRemembers(c, before, signature, now, l);
    forall i | 0 <= i < |c.accepted| && c.accepted[i].signature == signature
      ensures now - c.accepted[i].at > l.windowMs || |c.accepted| - i - 1 >= l.maxEntries
    {
      assert Forgotten(c.accepted, i, now, l);
    }
  }

  lemma EndCap(items: seq<Item>, all: seq<Item>, n: nat)
    requires IsEnd(items, all)
    ensures IsEnd(Cap(items, n), all)
  {
  }

  lemma EndSnoc(items: seq<Item>, all: seq<Item>, item: Item, n: nat)
    requires IsEnd(items, all)
    ensures IsEnd(Cap(items + [item], n), all + [item])
  {
    assert IsEnd(items + [item], all + [item]);
    EndCap(items + [item], all + [item], n);
  }

  lemma DistinctSnoc(items: seq<Item>, item: Item, n: nat)
    requires Distinct(items) && !Has(items, item.signature)
    ensures Distinct(Cap(items + [item], n))
  {
    assert Distinct(items + [item]);
  }

  /** Appending and capping: what leaves has at least `maxEntries` after it. */
  lemma PushKeeps(c: Chat, signature: string, now: int, l: Limits)
    requires |c.items| <= l.maxEntries && IsEnd(c.items, c.accepted) && Distinct(c.items) && LostOk(c, now, l)
    requires !Has(c.items, signature)
    ensures var c' := Chat(Cap(c.items + [Item(now, signature)], l.maxEntries), c.accepted + [Item(now, signature)]);
      |c'.items| <= l.maxEntries && IsEnd(c'.items, c'.accepted) && Distinct(c'.items) && LostOk(c', now, l)
  {
    var item := Item(now, signature);
    EndSnoc(c.items, c.accepted, item, l.maxEntries);
    DistinctSnoc(c.items, item, l.maxEntries);
    PushLoses(c, item, now, l);
  }

  lemma PushLoses(c: Chat, item: Item, now: int, l: Limits)
    requires |c.items| <= l.maxEntries && |c.items| <= |c.accepted| && LostOk(c, now, l)
    ensures LostOk(Chat(Cap(c.items + [item], l.maxEntries), c.accepted + [item]), now, l)
  {
    var all := c.accepted + [item];
    forall i | 0 <= i < |all| - |Cap(c.items + [item], l.maxEntries)| ensures Forgotten(all, i, now, l) {
      if i < |c.accepted| - |c.items| {
        assert Forgotten(c.accepted, i, now, l);
      }
    }
  }

  lemma AcceptKeeps(c: Chat, signature: string, now: int, l: Limits)
    requires Inv(c, now, l) && !Has(c.items, signature) && Spaced(c.accepted + [Item(now, signature)], l)
    ensures Inv(Chat(Cap(c.items + [Item(now, signature)], l.maxEntries), c.accepted + [Item(now, signature)]), now, l)
  {
    PushKeeps(c, signature, now, l);
    assert Sorted(c.accepted + [Item(now, signature)]);
  }

  lemma StepKeeps(c: Chat, before: int, signature: string, now: int, l: Limits)
    requires Inv(c, before, l) && before <= now
    ensures Inv(Step(c, signature, now, l), now, l)
  {
    if !Subject(signature, l) {
      LaterKeeps(c, before, now, l);
    } else {
      SuppressKeeps(c, before, now, l);
      if !Duplicate(c.items, signature, now, l) {
        AcceptedSpaced(c, before, signature, now, l);
        AcceptKeeps(c.(items := Kept(c, now, l)), signature, now, l);
      }
    }
  }

  lemma LaterKeeps(c: Chat, before: int, now: int, l: Limits)
    requires Inv(c, before, l) && before <= now
    ensures Inv(c, now, l)
  {
    forall i | 0 <= i < |c.accepted| - |c.items| ensures Forgotten(c.accepted, i, now, l) {
      assert Forgotten(c.accepted, i, before, l);
    }
  }

  lemma {:induction false} RunKeeps(replies: seq<Reply>, l: Limits, now: int)
    requires ClockOk(replies) && (replies != [] ==> replies[|replies| - 1].now <= now)
    ensures Inv(After(replies, l), now, l)
  {
    if replies != [] {
      var front, last := replies[..|replies| - 1], replies[|replies| - 1];
      RunKeeps(front, l, last.now);
      StepKeeps(After(front, l), last.now, last.signature, last.now, l);
      LaterKeeps(After(replies, l), last.now, now, l);
    }
  }

  // ----- theorems over every run with a clock that never goes back -----

  /** A reply is suppressed exactly when one of the last `maxEntries` accepted replies is the same and in the window. */
  lemma SuppressedExactlyWhen(replies: seq<Reply>, l: Limits, signature: string, now: int)
    requires ClockOk(replies) && (replies != [] ==> replies[|replies| - 1].now <= now)
    ensures var accepted := After(replies, l).accepted;
      Duplicate(After(replies, l).items, signature, now, l) <==>
        && Subject(signature, l)
        && exists i | 0 <= i < |accepted| ::
             accepted[i].signature == signature && now - accepted[i].at <= l.windowMs
             && |accepted| - i <= l.maxEntries
  {
    RunKeeps(replies, l, now);
    var c := After(replies, l);
    HasIsRemembers(c, now, signature, now, l);
    forall i | 0 <= i < |c.accepted|
      ensures !Forgotten(c.accepted, i, now, l) <==>
        now - c.accepted[i].at <= l.windowMs && |c.accepted| - i <= l.maxEntries
    {
    }
  }

  /** The deque stays bounded, sorted and free of repeats, and accepted repeats are well apart. */
  lemma WindowIsSound(replies: seq<Reply>, l: Limits)
    requires ClockOk(replies)
    ensures var c := After(replies, l);
      |c.items| <= l.maxEntries && Distinct(c.items) && Spaced(c.accepted, l)
      && Sorted(c.items)
  {
    RunKeeps(replies, l, if replies == [] then 0 else replies[|replies| - 1].now);
  }

  // ----- the program -----

  class ReplyDedup {
    const limits: Limits
    var signaturesByChat: map<string, seq<Item>>

    constructor (l: Limits)
      ensures limits == l && signaturesByChat == map[]
    {
      limits, signaturesByChat := l, map[];
    }

    function Items(chat: string): seq<Item>
      reads this
    {
      if chat in signaturesByChat then signaturesByChat[chat] else []
    }

    method IsDuplicate(chat: string, signature: string, now: int) returns (duplicate: bool)
      modifies this
      ensures duplicate == Duplicate(old(Items(chat)), signature, now, limits)
      ensures Items(chat) == Next(old(Items(chat)), signature, now, limits)
      ensures forall other | other != chat :: Items(other) == old(Items(other))
    {
      if limits.windowMs <= 0 || |signature| < limits.minChars {
        return false;
      }
      var items := PurgeOld(Items(chat), now - limits.windowMs);
      signaturesByChat := signaturesByChat[chat := items];
      duplicate := Contains(items, signature);
      if duplicate {
        return;
      }
      items := Trim(items + [Item(now, signature)]);
      signaturesByChat := signaturesByChat[chat := items];
    }

    method PurgeOld(all: seq<Item>, cutoff: int) returns (items: seq<Item>)
      ensures items == Purge(all, cutoff)
    {
      items := all;
      while items != [] && items[0].at < cutoff
        invariant Purge(items, cutoff) == Purge(all, cutoff)
      {
        items := items[1..];
      }
    }

    method Contains(items: seq<Item>, signature: string) returns (found: bool)
      ensures found == Has(items, signature)
    {
      for i := 0 to |items|
        invariant forall k | 0 <= k < i :: items[k].signature != signature
      {
        if items[i].signature == signature {
          return true;
        }
      }
      return false;
    }

    method Trim(all: seq<Item>) returns (items: seq<Item>)
      ensures items == Cap(all, limits.maxEntries)
    {
      items := all;
      while |items| > limits.maxEntries
        invariant Cap(items, limits.maxEntries) == Cap(all, limits.maxEntries)
      {
        items := items[1..];
      }
    }
  }
}
