/** Durable action receipts: what a receipt is, the rule that discards one, and the receipt file. */
module Receipts {
  import opened Options
  import opened Frames

  datatype Status = Running | Complete

  datatype Receipt = Receipt(fingerprint: Fingerprint, frames: seq<Frame>, completedAt: int, status: Status)

  type Cache = map<RequestId, Receipt>

  // ----- the legacy rule: receipts that are forgotten when the file is loaded -----

  const RECOVERY_PREFIX := "subrec-"
  const UNSENT_DETAIL := "Cannot read properties of undefined (reading 'id')"

  predicate Includes(text: string, part: string) {
    part <= text || (text != "" && Includes(text[1..], part))
  }

  predicate IsRecoveryId(id: RequestId) {
    RECOVERY_PREFIX <= id
  }

  predicate IsUnsentFailure(f: Frame) {
    && f.ActionAck?
    && f.action == "send_message"
    && !f.ok
    && f.code == SendFailed
    && Includes(Text(f.detail), UNSENT_DETAIL)
  }

  predicate SomeUnsentFailure(frames: seq<Frame>) {
    frames != [] && (IsUnsentFailure(frames[0]) || SomeUnsentFailure(frames[1..]))
  }

  predicate IsLegacyUnsentRecoveryFailure(id: RequestId, frames: seq<Frame>) {
    IsRecoveryId(id) && SomeUnsentFailure(frames)
  }

  predicate Prunable(id: RequestId, receipt: Receipt) {
    receipt.status == Complete && IsLegacyUnsentRecoveryFailure(id, receipt.frames)
  }

  function Kept(receipts: Cache): Cache {
    map id | id in receipts && !Prunable(id, receipts[id]) :: receipts[id]
  }

  function Dropped(receipts: Cache): set<RequestId> {
    set id | id in receipts && Prunable(id, receipts[id])
  }

  // ----- the receipt file -----

  /** The state of a record: absent, a text, or a value of another type, null included. */
  datatype StateField = NoState | StateText(text: string) | NotText

  /** One JSON object of the file; the other fields are None when they are absent or have the wrong type. */
  datatype Record = Record(
    requestId: Option<RequestId>,
    fingerprint: Option<Fingerprint>,
    frames: Option<seq<Frame>>,
    completedAt: int,
    state: StateField)

  /** `Parsed` items are None when an array item is not an object. */
  datatype File = Missing | Unparsable | Parsed(items: seq<Option<Record>>)

  datatype LoadResult = Unreadable | Loaded(receipts: Cache, pruned: nat)

  function StatusText(status: Status): string {
    match status
    case Running => "running"
    case Complete => "complete"
  }

  /** A record without a state was written before running claims existed and is complete. */
  function DecodeStatus(state: StateField): Option<Status> {
    match state
    case NoState => Some(Complete)
    case StateText(text) =>
      if text == "running" then Some(Running)
      else if text == "complete" then Some(Complete)
      else None
    case NotText => None
  }

  function Decode(item: Option<Record>): Option<(RequestId, Receipt)> {
    if item.None? then None
    else
      var record := item.value;
      if record.requestId.None? || record.fingerprint.None? || record.frames.None? then None
      else
        match DecodeStatus(record.state)
        case None => None
        case Some(status) =>
          Some((record.requestId.value,
                Receipt(record.fingerprint.value, record.frames.value, record.completedAt, status)))
  }

  function LoadItems(items: seq<Option<Record>>): LoadResult {
    if items == [] then Loaded(map[], 0)
    else
      var last := |items| - 1;
      match LoadItems(items[..last])
      case Unreadable => Unreadable
      case Loaded(receipts, pruned) =>
        match Decode(items[last])
        case None => Unreadable
        case Some((id, receipt)) =>
          if Prunable(id, receipt) then Loaded(receipts, pruned + 1)
          else Loaded(receipts[id := receipt], pruned)
  }

  function Load(file: File): LoadResult {
    match file
    case Missing => Loaded(map[], 0)
    case Unparsable => Unreadable
    case Parsed(items) => LoadItems(items)
  }

  lemma {:induction false} UnreadablePrefix(items: seq<Option<Record>>, i: nat)
    requires i <= |items| && LoadItems(items[..i]).Unreadable?
    ensures LoadItems(items).Unreadable?
    decreases |items|
  {
    if i < |items| {
      assert items[..|items| - 1][..i] == items[..i];
      UnreadablePrefix(items[..|items| - 1], i);
    } else {
      assert items[..i] == items;
    }
  }

  // ----- what a load makes of any file -----

  /** A record with an id, a fingerprint and frames, whose state is known or, as in old files, absent. */
  predicate WellFormed(item: Option<Record>) {
    && item.Some? && item.value.requestId.Some? && item.value.fingerprint.Some? && item.value.frames.Some?
    && item.value.state in {NoState, StateText("running"), StateText("complete")}
  }

  /** The record of an id that the load does not forget. */
  predicate Holds(item: Option<Record>, id: RequestId) {
    && WellFormed(item) && item.value.requestId.value == id
    && (item.value.state == StateText("running") || !IsLegacyUnsentRecoveryFailure(id, item.value.frames.value))
  }

  /** The last such record of an id. */
  predicate IsLastOf(items: seq<Option<Record>>, i: int, id: RequestId) {
    0 <= i < |items| && Holds(items[i], id) && forall j | i < j < |items| :: !Holds(items[j], id)
  }

  /** The receipt a record stands for: complete unless it says that it is running. */
  predicate Stands(receipt: Receipt, item: Option<Record>) {
    && WellFormed(item) && item.value.fingerprint == Some(receipt.fingerprint)
    && item.value.frames == Some(receipt.frames) && item.value.completedAt == receipt.completedAt
    && (receipt.status == Running <==> item.value.state == StateText("running"))
  }

  /** A complete record that the legacy rule names. */
  predicate IsForgotten(item: Option<Record>) {
    WellFormed(item) && !Holds(item, item.value.requestId.value)
  }

  function Forgotten(items: seq<Option<Record>>): set<nat> {
    set i: nat | i < |items| && IsForgotten(items[i])
  }

  lemma DecodesExactlyWhen(item: Option<Record>)
    ensures Decode(item).Some? <==> WellFormed(item)
    ensures WellFormed(item) ==>
      var (id, receipt) := Decode(item).value;
      item.value.requestId == Some(id) && Stands(receipt, item) && (Prunable(id, receipt) <==> !Holds(item, id))
  {
    assert "running" != "complete" by {
      assert |"running"| != |"complete"|;
    }
  }

  /** A file is readable if and only if it is missing, or parses and every item of it is well formed. */
  lemma {:induction false} ItemsReadableExactlyWhen(items: seq<Option<Record>>)
    ensures LoadItems(items).Loaded? <==> forall i | 0 <= i < |items| :: WellFormed(items[i])
  {
    if items != [] {
      var last := |items| - 1;
      ItemsReadableExactlyWhen(items[..last]);
      DecodesExactlyWhen(items[last]);
      assert forall i | 0 <= i < last :: items[..last][i] == items[i];
    }
  }

  lemma LastOfNext(items: seq<Option<Record>>, i: int, id: RequestId)
    requires items != []
    ensures IsLastOf(items, i, id) <==>
      if Holds(items[|items| - 1], id) then i == |items| - 1 else IsLastOf(items[..|items| - 1], i, id)
  {
    var last := |items| - 1;
    assert forall j | 0 <= j < last :: items[..last][j] == items[j];
    if IsLastOf(items, i, id) && Holds(items[last], id) && i < last {
      assert false;
    }
  }

  /** Each id that is loaded comes from the last record of it that is not forgotten, and every such id is loaded. */
  lemma {:induction false} LoadedIsLast(items: seq<Option<Record>>, id: RequestId)
    requires LoadItems(items).Loaded?
    ensures id in LoadItems(items).receipts <==> exists i :: IsLastOf(items, i, id)
    ensures forall i | IsLastOf(items, i, id) :: Stands(LoadItems(items).receipts[id], items[i])
  {
    if items != [] {
      var last := |items| - 1;
      LoadedIsLast(items[..last], id);
      DecodesExactlyWhen(items[last]);
      forall i ensures IsLastOf(items, i, id) <==>
          if Holds(items[last], id) then i == last else IsLastOf(items[..last], i, id)
      {
        LastOfNext(items, i, id);
      }
      if Holds(items[last], id) {
        assert IsLastOf(items, last, id);
      }
    }
  }

  lemma ForgottenNext(items: seq<Option<Record>>)
    requires items != []
    ensures var last := |items| - 1;
      |Forgotten(items)| == |Forgotten(items[..last])| + if IsForgotten(items[last]) then 1 else 0
  {
    var last := |items| - 1;
    var front := Forgotten(items[..last]);
    forall i: nat ensures i in Forgotten(items) <==> i in front || (i == last && IsForgotten(items[last])) {
      if i < last {
        assert items[..last][i] == items[i];
      }
    }
    if IsForgotten(items[last]) {
      assert Forgotten(items) == front + {last};
    } else {
      assert Forgotten(items) == front;
    }
  }

  lemma {:induction false} PrunedAreForgotten(items: seq<Option<Record>>)
    requires LoadItems(items).Loaded?
    ensures LoadItems(items).pruned == |Forgotten(items)|
  {
    if items != [] {
      var last := |items| - 1;
      PrunedAreForgotten(items[..last]);
      ForgottenNext(items);
      var decoded := Decode(items[last]).value;
      DecodesExactlyWhen(items[last]);
      assert IsForgotten(items[last]) <==> Prunable(decoded.0, decoded.1);
    }
  }

  /**
   * Every file: it is readable exactly when it is missing, or parses with every record well formed; then it gives
   * each id the last of its records that the legacy rule spares, and counts the records that the rule discards.
   */
  lemma LoadMeans(file: File, id: RequestId)
    ensures Load(file).Loaded? <==>
      file.Missing? || (file.Parsed? && forall i | 0 <= i < |file.items| :: WellFormed(file.items[i]))
    ensures file.Missing? ==> Load(file).receipts == map[] && Load(file).pruned == 0
    ensures file.Parsed? && Load(file).Loaded? ==>
      && (id in Load(file).receipts <==> exists i :: IsLastOf(file.items, i, id))
      && (forall i | IsLastOf(file.items, i, id) :: Stands(Load(file).receipts[id], file.items[i]))
      && Load(file).pruned == |Forgotten(file.items)|
  {
    if file.Parsed? {
      ItemsReadableExactlyWhen(file.items);
      if Load(file).Loaded? {
        LoadedIsLast(file.items, id);
        PrunedAreForgotten(file.items);
      }
    }
  }

  /** The loop that fills the cache from the file, stopping at the first malformed entry. */
  method LoadReceipts(file: File) returns (r: LoadResult)
    ensures r == Load(file)
  {
    if file.Missing? {
      return Loaded(map[], 0);
    }
    if file.Unparsable? {
      return Unreadable;
    }
    var receipts: Cache := map[];
    var pruned := 0;
    for i := 0 to |file.items|
      invariant LoadItems(file.items[..i]) == Loaded(receipts, pruned)
    {
      assert file.items[..i + 1][..i] == file.items[..i];
      var decoded := Decode(file.items[i]);
      if decoded.None? {
        UnreadablePrefix(file.items, i + 1);
        return Unreadable;
      }
      var (id, receipt) := decoded.value;
      if Prunable(id, receipt) {
        pruned := pruned + 1;
        continue;
      }
      receipts := receipts[id := receipt];
    }
    assert file.items[..|file.items|] == file.items;
    r := Loaded(receipts, pruned);
  }

  function Encode(id: RequestId, receipt: Receipt): Option<Record> {
    Some(Record(Some(id), Some(receipt.fingerprint), Some(receipt.frames), receipt.completedAt,
                StateText(StatusText(receipt.status))))
  }

  /** `order` lists the keys of `receipts`, each once: the iteration order of the JavaScript Map. */
  ghost predicate Enumerates(order: seq<RequestId>, receipts: Cache) {
    && (forall id :: id in order <==> id in receipts)
    && (forall i, j | 0 <= i < j < |order| :: order[i] != order[j])
  }

  function Serialize(order: seq<RequestId>, receipts: Cache): File
    requires forall id | id in order :: id in receipts
  {
    Parsed(seq(|order|, i requires 0 <= i < |order| => Encode(order[i], receipts[order[i]])))
  }

  lemma EncodeDecodes(id: RequestId, receipt: Receipt)
    ensures Decode(Encode(id, receipt)) == Some((id, receipt))
  {
  }

  lemma EnumeratesInit(order: seq<RequestId>, receipts: Cache)
    requires Enumerates(order, receipts) && order != []
    ensures Enumerates(order[..|order| - 1], receipts - {order[|order| - 1]})
  {
    var last := |order| - 1;
    var init, rest := order[..last], receipts - {order[last]};
    forall id ensures id in init <==> id in rest {
      if id in rest {
        assert id in order;
        var i :| 0 <= i < |order| && order[i] == id;
        assert init[i] == id;
      }
      if id in init {
        var i :| 0 <= i < |init| && init[i] == id;
        assert order[i] == id && id in order;
      }
    }
  }

  lemma KeptExtends(rest: Cache, id: RequestId, receipt: Receipt)
    requires id !in rest
    ensures Kept(rest[id := receipt]) == if Prunable(id, receipt) then Kept(rest) else Kept(rest)[id := receipt]
  {
    var more := rest[id := receipt];
    forall k | k in more && k != id ensures k in rest && more[k] == rest[k] {}
    if Prunable(id, receipt) {
      assert forall k :: k in Kept(more) <==> k in Kept(rest);
    } else {
      assert forall k :: k in Kept(more) <==> k in Kept(rest)[id := receipt];
    }
  }

  lemma DroppedExtends(rest: Cache, id: RequestId, receipt: Receipt)
    requires id !in rest
    ensures |Dropped(rest[id := receipt])| == |Dropped(rest)| + if Prunable(id, receipt) then 1 else 0
  {
    if Prunable(id, receipt) {
      assert Dropped(rest[id := receipt]) == Dropped(rest) + {id};
    } else {
      assert Dropped(rest[id := receipt]) == Dropped(rest);
    }
  }

  lemma LoadItemsStep(items: seq<Option<Record>>, id: RequestId, receipt: Receipt, rest: Cache)
    requires LoadItems(items) == Loaded(Kept(rest), |Dropped(rest)|)
    requires id !in rest
    ensures LoadItems(items + [Encode(id, receipt)])
         == Loaded(Kept(rest[id := receipt]), |Dropped(rest[id := receipt])|)
  {
    var more := items + [Encode(id, receipt)];
    assert more[..|more| - 1] == items;
    EncodeDecodes(id, receipt);
    KeptExtends(rest, id, receipt);
    DroppedExtends(rest, id, receipt);
  }

  lemma SerializeSnoc(order: seq<RequestId>, receipts: Cache)
    requires Enumerates(order, receipts) && order != []
    ensures var id := order[|order| - 1];
      && id in receipts && (forall k | k in order[..|order| - 1] :: k in receipts - {id})
      && Serialize(order, receipts).items ==
           Serialize(order[..|order| - 1], receipts - {id}).items + [Encode(id, receipts[id])]
  {
    EnumeratesInit(order, receipts);
    assert order[|order| - 1] in order;
  }

  lemma PutBack(receipts: Cache, id: RequestId)
    requires id in receipts
    ensures receipts == (receipts - {id})[id := receipts[id]]
  {
  }

  /** What a persist writes, a load reads back in full, less exactly the receipts of the legacy rule. */
  lemma {:induction false} LoadOfSerialized(order: seq<RequestId>, receipts: Cache)
    requires Enumerates(order, receipts)
    ensures Load(Serialize(order, receipts)) == Loaded(Kept(receipts), |Dropped(receipts)|)
    decreases |order|
  {
    if order == [] {
      assert receipts == map[];
    } else {
      var last := |order| - 1;
      var id := order[last];
      SerializeSnoc(order, receipts);
      PutBack(receipts, id);
      EnumeratesInit(order, receipts);
      LoadOfSerialized(order[..last], receipts - {id});
      LoadItemsStep(Serialize(order[..last], receipts - {id}).items, id, receipts[id], receipts - {id});
    }
  }
}
