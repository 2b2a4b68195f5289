/** The canonical form of an action frame, whose hash is the fingerprint that a receipt is bound to. */
module Canonical {

  datatype Json =
    | Null
    | Bool(value: bool)
    | Number(literal: string)
    | Text(text: string)
    | Array(items: seq<Json>)
    | Object(members: seq<Member>)

  datatype Member = Member(key: string, value: Json)

  /**
   * The order in which a canonical object lists its keys: array-index keys first, as JavaScript objects do,
   * then the other keys as `localeCompare` sorts them. Distinct keys may tie: `localeCompare` answers 0 for
   * canonically equivalent spellings of one text.
   */
  type Order = (string, string) -> bool

  ghost predicate TotalPreorder(before: Order) {
    && (forall a, b :: before(a, b) || before(b, a))
    && (forall a, b, c :: before(a, b) && before(b, c) ==> before(a, c))
  }

  predicate Tied(before: Order, a: string, b: string) {
    before(a, b) && before(b, a)
  }

  // ----- the stable sort of Array.prototype.sort -----

  function Insert(before: Order, m: Member, sorted: seq<Member>): seq<Member> {
    if sorted == [] || before(m.key, sorted[0].key) then [m] + sorted
    else [sorted[0]] + Insert(before, m, sorted[1..])
  }

  function Sort(before: Order, members: seq<Member>): seq<Member> {
    if members == [] then [] else Insert(before, members[0], Sort(before, members[1..]))
  }

  function Canon(before: Order, x: Json): Json
    decreases x, 0
  {
    match x
    case Array(items) => Array(CanonItems(before, items))
    case Object(members) => Object(Sort(before, CanonMembers(before, members)))
    case _ => x
  }

  function CanonItems(before: Order, items: seq<Json>): (r: seq<Json>)
    ensures |r| == |items|
    ensures forall i | 0 <= i < |items| :: r[i] == Canon(before, items[i])
    decreases items, 1
  {
    if items == [] then [] else [Canon(before, items[0])] + CanonItems(before, items[1..])
  }

  function CanonMembers(before: Order, members: seq<Member>): (r: seq<Member>)
    ensures |r| == |members|
    ensures forall i | 0 <= i < |members| :: r[i] == Member(members[i].key, Canon(before, members[i].value))
    decreases members, 1
  {
    if members == [] then []
    else [Member(members[0].key, Canon(before, members[0].value))] + CanonMembers(before, members[1..])
  }

  // ----- equality up to key order -----

  ghost predicate DistinctKeys(members: seq<Member>) {
    forall i, j | 0 <= i < j < |members| :: members[i].key != members[j].key
  }

  /** Keys are distinct within each object, as in every parsed JSON object. */
  ghost predicate WellFormed(x: Json)
    decreases x
  {
    match x
    case Array(items) => forall i | 0 <= i < |items| :: WellFormed(items[i])
    case Object(members) =>
      && DistinctKeys(members)
      && (forall i | 0 <= i < |members| :: WellFormed(members[i].value))
    case _ => true
  }

  /** Equal up to the order of keys, at every depth. */
  ghost predicate Same(x: Json, y: Json)
    decreases x
  {
    match x
    case Array(items) =>
      && y.Array? && |items| == |y.items|
      && (forall i | 0 <= i < |items| :: Same(items[i], y.items[i]))
    case Object(members) =>
      && y.Object? && |members| == |y.members|
      && (forall i | 0 <= i < |members| :: SameIn(members[i], y.members))
    case _ => x == y
  }

  ghost predicate SameIn(m: Member, others: seq<Member>)
    decreases m
  {
    exists j | 0 <= j < |others| :: m.key == others[j].key && Same(m.value, others[j].value)
  }

  ghost predicate HasKey(members: seq<Member>, key: string) {
    exists i | 0 <= i < |members| :: members[i].key == key
  }

  /** No object, at any depth, has two keys that tie. */
  ghost predicate TieFree(before: Order, x: Json)
    decreases x
  {
    match x
    case Array(items) => forall i | 0 <= i < |items| :: TieFree(before, items[i])
    case Object(members) =>
      && (forall i, j | 0 <= i < j < |members| :: !Tied(before, members[i].key, members[j].key))
      && (forall i | 0 <= i < |members| :: TieFree(before, members[i].value))
    case _ => true
  }

  // ----- the sort -----

  lemma {:induction false} InsertMembers(before: Order, m: Member, sorted: seq<Member>)
    ensures |Insert(before, m, sorted)| == |sorted| + 1
    ensures forall k :: k in Insert(before, m, sorted) <==> k == m || k in sorted
  {
    if sorted == [] || before(m.key, sorted[0].key) {
    } else {
      InsertMembers(before, m, sorted[1..]);
      assert sorted == [sorted[0]] + sorted[1..];
    }
  }

  lemma {:induction false} SortMembers(before: Order, members: seq<Member>)
    ensures |Sort(before, members)| == |members|
    ensures forall k :: k in Sort(before, members) <==> k in members
  {
    if members != [] {
      SortMembers(before, members[1..]);
      InsertMembers(before, members[0], Sort(before, members[1..]));
      assert members == [members[0]] + members[1..];
    }
  }

  ghost predicate Ordered(before: Order, s: seq<Member>) {
    forall i, j | 0 <= i < j < |s| :: before(s[i].key, s[j].key)
  }

  lemma {:induction false} InsertOrdered(before: Order, m: Member, sorted: seq<Member>)
    requires TotalPreorder(before) && Ordered(before, sorted)
    ensures Ordered(before, Insert(before, m, sorted))
  {
    if sorted == [] || before(m.key, sorted[0].key) {
    } else {
      InsertOrdered(before, m, sorted[1..]);
      InsertMembers(before, m, sorted[1..]);
      var tail := Insert(before, m, sorted[1..]);
      forall j | 0 <= j < |tail| ensures before(sorted[0].key, tail[j].key) {
        assert tail[j] in tail;
      }
    }
  }

  lemma {:induction false} SortOrdered(before: Order, members: seq<Member>)
    requires TotalPreorder(before)
    ensures Ordered(before, Sort(before, members))
  {
    if members != [] {
      SortOrdered(before, members[1..]);
      InsertOrdered(before, members[0], Sort(before, members[1..]));
    }
  }

  lemma {:induction false} SortOfOrdered(before: Order, s: seq<Member>)
    requires Ordered(before, s)
    ensures Sort(before, s) == s
  {
    if s != [] {
      SortOfOrdered(before, s[1..]);
    }
  }

  /** Strictly ordered lists with the same members are equal. */
  ghost predicate Strict(before: Order, s: seq<Member>) {
    forall i, j | 0 <= i < j < |s| :: before(s[i].key, s[j].key) && !before(s[j].key, s[i].key)
  }

  lemma HeadOnlyFirst(before: Order, s: seq<Member>)
    requires Strict(before, s) && s != []
    ensures forall m :: m in s[1..] <==> m in s && m != s[0]
  {
    forall m ensures m in s[1..] <==> m in s && m != s[0] {
      if m in s[1..] {
        var k :| 0 <= k < |s[1..]| && s[1..][k] == m;
        assert s[k + 1] == m;
      }
      if m in s && m != s[0] {
        var k :| 0 <= k < |s| && s[k] == m;
        assert s[1..][k - 1] == m;
      }
    }
  }

  lemma {:induction false} StrictUnique(before: Order, s: seq<Member>, t: seq<Member>)
    requires Strict(before, s) && Strict(before, t) && |s| == |t|
    requires forall m :: m in s <==> m in t
    ensures s == t
  {
    if s != [] {
      assert s[0] in t;
      assert t[0] in s;
      assert s[0] == t[0];
      HeadOnlyFirst(before, s);
      HeadOnlyFirst(before, t);
      forall m ensures m in s[1..] <==> m in t[1..] {
        assert m in s <==> m in t;
      }
      StrictUnique(before, s[1..], t[1..]);
    }
  }

  lemma {:induction false} InsertStrict(before: Order, m: Member, sorted: seq<Member>)
    requires TotalPreorder(before) && Strict(before, sorted)
    requires forall k | k in sorted :: !Tied(before, m.key, k.key)
    ensures Strict(before, Insert(before, m, sorted))
  {
    if sorted == [] {
    } else if before(m.key, sorted[0].key) {
      assert sorted[0] in sorted;
      var all := [m] + sorted;
      forall i, j | 0 <= i < j < |all|
        ensures before(all[i].key, all[j].key) && !before(all[j].key, all[i].key)
      {
        if i == 0 {
          assert all[j] == sorted[j - 1] && sorted[j - 1] in sorted;
        }
      }
    } else {
      InsertStrict(before, m, sorted[1..]);
      InsertMembers(before, m, sorted[1..]);
      var tail := Insert(before, m, sorted[1..]);
      forall j | 0 <= j < |tail|
        ensures before(sorted[0].key, tail[j].key) && !before(tail[j].key, sorted[0].key)
      {
        assert tail[j] in tail;
        if tail[j] != m {
          var k :| 0 <= k < |sorted[1..]| && sorted[1..][k] == tail[j];
        }
      }
    }
  }

  lemma {:induction false} SortStrict(before: Order, members: seq<Member>)
    requires TotalPreorder(before)
    requires forall i, j | 0 <= i < j < |members| :: !Tied(before, members[i].key, members[j].key)
    ensures Strict(before, Sort(before, members))
  {
    if members != [] {
      SortStrict(before, members[1..]);
      SortMembers(before, members[1..]);
      forall k | k in Sort(before, members[1..]) ensures !Tied(before, members[0].key, k.key) {
        assert k in members[1..];
        var i :| 0 <= i < |members[1..]| && members[1..][i] == k;
        assert members[i + 1] == k;
      }
      InsertStrict(before, members[0], Sort(before, members[1..]));
    }
  }

  function CanonMember(before: Order, m: Member): Member {
    Member(m.key, Canon(before, m.value))
  }

  lemma {:induction false} InsertThenCanon(before: Order, m: Member, sorted: seq<Member>)
    ensures CanonMembers(before, Insert(before, m, sorted))
         == Insert(before, CanonMember(before, m), CanonMembers(before, sorted))
  {
    if sorted == [] || before(m.key, sorted[0].key) {
      assert ([m] + sorted)[1..] == sorted;
    } else {
      InsertThenCanon(before, m, sorted[1..]);
      var inserted := Insert(before, m, sorted[1..]);
      assert ([sorted[0]] + inserted)[1..] == inserted;
    }
  }

  /** Sorting the entries and then canonicalizing their values, as the program does, is the same. */
  lemma {:induction false} SortThenCanon(before: Order, members: seq<Member>)
    ensures CanonMembers(before, Sort(before, members)) == Sort(before, CanonMembers(before, members))
  {
    if members != [] {
      SortThenCanon(before, members[1..]);
      InsertThenCanon(before, members[0], Sort(before, members[1..]));
    }
  }

  // ----- equal canonical forms mean equal payloads -----

  /** Two values with one canonical form are equal up to key order, whatever the key order is. */
  lemma {:induction false} EqualCanonMeansSame(before: Order, x: Json, y: Json)
    requires Canon(before, x) == Canon(before, y)
    ensures Same(x, y)
    decreases x
  {
    match x
    case Array(items) =>
      forall i | 0 <= i < |items| ensures Same(items[i], y.items[i]) {
        assert Canon(before, x).items[i] == Canon(before, y).items[i];
        EqualCanonMeansSame(before, items[i], y.items[i]);
      }
    case Object(members) =>
      var cs, ds := CanonMembers(before, members), CanonMembers(before, y.members);
      SortMembers(before, cs);
      SortMembers(before, ds);
      forall i | 0 <= i < |members| ensures SameIn(members[i], y.members) {
        assert cs[i] in Sort(before, cs);
        assert cs[i] in ds;
        var j :| 0 <= j < |ds| && ds[j] == cs[i];
        EqualCanonMeansSame(before, members[i].value, y.members[j].value);
      }
    case _ =>
  }

  lemma KeysCovered(members: seq<Member>, others: seq<Member>)
    requires |members| == |others| && DistinctKeys(members) && DistinctKeys(others)
    requires forall i | 0 <= i < |members| :: HasKey(others, members[i].key)
    ensures forall j | 0 <= j < |others| :: HasKey(members, others[j].key)
  {
    KeyCount(members);
    KeyCount(others);
    forall k | k in Keys(members) ensures k in Keys(others) {
      var i :| 0 <= i < |members| && members[i].key == k;
      assert HasKey(others, members[i].key);
    }
    SubsetOfEqualSize(Keys(members), Keys(others));
    forall j | 0 <= j < |others| ensures HasKey(members, others[j].key) {
      assert others[j].key in Keys(members);
    }
  }

  ghost function Keys(members: seq<Member>): set<string> {
    set i | 0 <= i < |members| :: members[i].key
  }

  lemma SubsetOfEqualSize(a: set<string>, b: set<string>)
    requires a <= b && |a| == |b|
    ensures a == b
  {
    if b - a != {} {
      var c :| c in b - a;
      assert |b - {c}| == |b| - 1;
      SubsetSize(a, b - {c});
    }
  }

  lemma {:induction false} SubsetSize(a: set<string>, b: set<string>)
    requires a <= b
    ensures |a| <= |b|
    decreases a
  {
    if c :| c in a {
      SubsetSize(a - {c}, b - {c});
    }
  }

  lemma {:induction false} KeyCount(members: seq<Member>)
    requires DistinctKeys(members)
    ensures |Keys(members)| == |members|
    decreases |members|
  {
    if members != [] {
      var last := |members| - 1;
      KeyCount(members[..last]);
      assert Keys(members) == Keys(members[..last]) + {members[last].key};
    }
  }

  /** Without ties, values that are equal up to key order have one canonical form. */
  lemma {:induction false} SameMeansEqualCanon(before: Order, x: Json, y: Json)
    requires TotalPreorder(before) && WellFormed(x) && WellFormed(y) && TieFree(before, x) && Same(x, y)
    ensures Canon(before, x) == Canon(before, y)
    decreases x
  {
    match x
    case Array(items) =>
      forall i | 0 <= i < |items| ensures Canon(before, items[i]) == Canon(before, y.items[i]) {
        SameMeansEqualCanon(before, items[i], y.items[i]);
      }
      assert CanonItems(before, items) == CanonItems(before, y.items);
    case Object(members) =>
      var cs, ds := CanonMembers(before, members), CanonMembers(before, y.members);
      forall i | 0 <= i < |members| ensures cs[i] in ds {
        assert SameIn(members[i], y.members);
        var j :| 0 <= j < |y.members| && members[i].key == y.members[j].key
          && Same(members[i].value, y.members[j].value);
        SameMeansEqualCanon(before, members[i].value, y.members[j].value);
        assert cs[i] == ds[j];
      }
      SameSort(before, cs, ds);
    case _ =>
  }

  lemma SameSort(before: Order, cs: seq<Member>, ds: seq<Member>)
    requires TotalPreorder(before) && |cs| == |ds| && DistinctKeys(cs) && DistinctKeys(ds)
    requires forall i, j | 0 <= i < j < |cs| :: !Tied(before, cs[i].key, cs[j].key)
    requires forall i | 0 <= i < |cs| :: cs[i] in ds
    ensures Sort(before, cs) == Sort(before, ds)
  {
    SameMembers(cs, ds);
    SortMembers(before, cs);
    SortMembers(before, ds);
    SortStrict(before, cs);
    forall i, j | 0 <= i < j < |ds| ensures !Tied(before, ds[i].key, ds[j].key) {
      assert ds[i] in cs && ds[j] in cs;
      var a :| 0 <= a < |cs| && cs[a] == ds[i];
      var b :| 0 <= b < |cs| && cs[b] == ds[j];
    }
    SortStrict(before, ds);
    StrictUnique(before, Sort(before, cs), Sort(before, ds));
  }

  lemma SameMembers(cs: seq<Member>, ds: seq<Member>)
    requires |cs| == |ds| && DistinctKeys(cs) && DistinctKeys(ds)
    requires forall i | 0 <= i < |cs| :: cs[i] in ds
    ensures forall m :: m in cs <==> m in ds
  {
    forall i | 0 <= i < |cs| ensures HasKey(ds, cs[i].key) {
      assert cs[i] in ds;
    }
    KeysCovered(cs, ds);
    forall j | 0 <= j < |ds| ensures ds[j] in cs {
      assert HasKey(cs, ds[j].key);
      var i :| 0 <= i < |cs| && cs[i].key == ds[j].key;
      assert cs[i] in ds;
      var k :| 0 <= k < |ds| && ds[k] == cs[i];
      assert k == j;
    }
  }

  /** The receipt check compares payloads, not their spelling: without ties, canonical forms decide equality. */
  lemma CanonDecides(before: Order, x: Json, y: Json)
    requires TotalPreorder(before) && WellFormed(x) && WellFormed(y) && TieFree(before, x)
    ensures Canon(before, x) == Canon(before, y) <==> Same(x, y)
  {
    if Same(x, y) {
      SameMeansEqualCanon(before, x, y);
    }
    if Canon(before, x) == Canon(before, y) {
      EqualCanonMeansSame(before, x, y);
    }
  }

  // ----- canonical forms are canonical -----

  lemma {:induction false} CanonIdempotent(before: Order, x: Json)
    requires TotalPreorder(before)
    ensures Canon(before, Canon(before, x)) == Canon(before, x)
    decreases x
  {
    match x
    case Array(items) =>
      var cs := CanonItems(before, items);
      forall i | 0 <= i < |items| ensures Canon(before, cs[i]) == cs[i] {
        CanonIdempotent(before, items[i]);
      }
      assert CanonItems(before, cs) == cs;
    case Object(members) =>
      var cs := CanonMembers(before, members);
      var sorted := Sort(before, cs);
      SortMembers(before, cs);
      SortOrdered(before, cs);
      forall i | 0 <= i < |sorted| ensures Canon(before, sorted[i].value) == sorted[i].value {
        assert sorted[i] in sorted;
        var j :| 0 <= j < |cs| && cs[j] == sorted[i];
        CanonIdempotent(before, members[j].value);
      }
      assert CanonMembers(before, sorted) == sorted;
      SortOfOrdered(before, sorted);
    case _ =>
  }

  // ----- ties are exactly what makes the form depend on key order -----

  ghost predicate Precedes(s: seq<Member>, a: Member, b: Member) {
    exists p, q :: 0 <= p < q < |s| && s[p] == a && s[q] == b
  }

  lemma PrecedesAfter(x: Member, s: seq<Member>, a: Member, b: Member)
    requires Precedes(s, a, b)
    ensures Precedes([x] + s, a, b)
  {
    var p, q :| 0 <= p < q < |s| && s[p] == a && s[q] == b;
    assert ([x] + s)[p + 1] == a && ([x] + s)[q + 1] == b;
  }

  lemma PrecedesFirst(x: Member, s: seq<Member>, b: Member)
    requires b in s
    ensures Precedes([x] + s, x, b)
  {
    var q :| 0 <= q < |s| && s[q] == b;
    assert ([x] + s)[0] == x && ([x] + s)[q + 1] == b;
  }

  lemma {:induction false} InsertBefore(before: Order, m: Member, sorted: seq<Member>, b: Member)
    requires b in sorted && before(m.key, b.key)
    ensures Precedes(Insert(before, m, sorted), m, b)
  {
    if before(m.key, sorted[0].key) {
      PrecedesFirst(m, sorted, b);
    } else {
      assert b in sorted[1..];
      InsertBefore(before, m, sorted[1..], b);
      PrecedesAfter(sorted[0], Insert(before, m, sorted[1..]), m, b);
    }
  }

  lemma {:induction false} InsertKeepsOrder(before: Order, m: Member, sorted: seq<Member>, a: Member, b: Member)
    requires Precedes(sorted, a, b)
    ensures Precedes(Insert(before, m, sorted), a, b)
  {
    if before(m.key, sorted[0].key) {
      PrecedesAfter(m, sorted, a, b);
    } else {
      var p, q :| 0 <= p < q < |sorted| && sorted[p] == a && sorted[q] == b;
      var tail := Insert(before, m, sorted[1..]);
      assert sorted[1..][q - 1] == b;
      if p == 0 {
        InsertMembers(before, m, sorted[1..]);
        PrecedesFirst(a, tail, b);
      } else {
        assert sorted[1..][p - 1] == a;
        InsertKeepsOrder(before, m, sorted[1..], a, b);
        PrecedesAfter(sorted[0], tail, a, b);
      }
    }
  }

  /** The sort is stable: an earlier member that does not belong after a later one stays ahead of it. */
  lemma {:induction false} SortStable(before: Order, members: seq<Member>, i: nat, j: nat)
    requires i < j < |members| && before(members[i].key, members[j].key)
    ensures Precedes(Sort(before, members), members[i], members[j])
  {
    var rest := members[1..];
    assert rest[j - 1] == members[j];
    if i == 0 {
      SortMembers(before, rest);
      InsertBefore(before, members[0], Sort(before, rest), members[j]);
    } else {
      assert rest[i - 1] == members[i];
      SortStable(before, rest, i - 1, j - 1);
      InsertKeepsOrder(before, members[0], Sort(before, rest), members[i], members[j]);
    }
  }

  lemma {:induction false} InsertDistinct(before: Order, m: Member, sorted: seq<Member>)
    requires DistinctKeys(sorted) && forall k | k in sorted :: k.key != m.key
    ensures DistinctKeys(Insert(before, m, sorted))
  {
    if sorted == [] || before(m.key, sorted[0].key) {
    } else {
      InsertDistinct(before, m, sorted[1..]);
      InsertMembers(before, m, sorted[1..]);
      var tail := Insert(before, m, sorted[1..]);
      forall j | 0 <= j < |tail| ensures sorted[0].key != tail[j].key {
        assert tail[j] in tail;
      }
    }
  }

  lemma {:induction false} SortDistinct(before: Order, members: seq<Member>)
    requires DistinctKeys(members)
    ensures DistinctKeys(Sort(before, members))
  {
    if members != [] {
      SortDistinct(before, members[1..]);
      SortMembers(before, members[1..]);
      InsertDistinct(before, members[0], Sort(before, members[1..]));
    }
  }

  function Reverse(members: seq<Member>): (r: seq<Member>)
    ensures |r| == |members|
    ensures forall i | 0 <= i < |members| :: r[i] == members[|members| - 1 - i]
  {
    seq(|members|, i requires 0 <= i < |members| => members[|members| - 1 - i])
  }

  lemma {:induction false} SameReflexive(x: Json)
    ensures Same(x, x)
    decreases x
  {
    match x
    case Array(items) =>
      forall i | 0 <= i < |items| ensures Same(items[i], items[i]) {
        SameReflexive(items[i]);
      }
    case Object(members) =>
      forall i | 0 <= i < |members| ensures SameIn(members[i], members) {
        SameReflexive(members[i].value);
      }
    case _ =>
  }

  lemma ReverseSame(members: seq<Member>)
    requires WellFormed(Object(members))
    ensures WellFormed(Object(Reverse(members))) && Same(Object(members), Object(Reverse(members)))
  {
    var n, reversed := |members|, Reverse(members);
    forall k | 0 <= k < n ensures SameIn(members[k], reversed) {
      SameReflexive(members[k].value);
      assert reversed[n - 1 - k] == members[k];
    }
  }

  /** Reversing members with tied keys leaves them in another order after sorting. */
  lemma ReverseSorts(before: Order, cs: seq<Member>, i: nat, j: nat)
    requires DistinctKeys(cs) && i < j < |cs| && Tied(before, cs[i].key, cs[j].key)
    ensures Sort(before, cs) != Sort(before, Reverse(cs))
  {
    SortStable(before, cs, i, j);
    ReverseStable(before, cs, i, j);
    SortDistinct(before, cs);
    OrdersDiffer(Sort(before, cs), Sort(before, Reverse(cs)), cs[i], cs[j]);
  }

  lemma ReverseStable(before: Order, cs: seq<Member>, i: nat, j: nat)
    requires i < j < |cs| && before(cs[j].key, cs[i].key)
    ensures Precedes(Sort(before, Reverse(cs)), cs[j], cs[i])
  {
    var n := |cs|;
    SortStable(before, Reverse(cs), n - 1 - j, n - 1 - i);
  }

  lemma OrdersDiffer(s: seq<Member>, t: seq<Member>, a: Member, b: Member)
    requires DistinctKeys(s) && Precedes(s, a, b) && Precedes(t, b, a)
    ensures s != t
  {
    NotBoth(s, a, b);
  }

  /** Reversing an object with tied keys gives the same payload another canonical form. */
  lemma ReversalShows(before: Order, members: seq<Member>, i: nat, j: nat)
    requires DistinctKeys(members)
    requires i < j < |members| && Tied(before, members[i].key, members[j].key)
    ensures Canon(before, Object(members)) != Canon(before, Object(Reverse(members)))
  {
    var cs := CanonMembers(before, members);
    var ds := CanonMembers(before, Reverse(members));
    assert ds == Reverse(cs);
    ReverseSorts(before, cs, i, j);
    assert Canon(before, Object(members)) == Object(Sort(before, cs));
    assert Canon(before, Object(Reverse(members))) == Object(Sort(before, ds));
  }

  lemma NotBoth(s: seq<Member>, a: Member, b: Member)
    requires DistinctKeys(s) && Precedes(s, a, b)
    ensures !Precedes(s, b, a)
  {
    var p, q :| 0 <= p < q < |s| && s[p] == a && s[q] == b;
    forall r, t | 0 <= r < t < |s| && s[r] == b ensures s[t] != a {
      assert r == q;
    }
  }

  lemma NestedWellFormed(members: seq<Member>, i: nat, other: Json)
    requires WellFormed(Object(members)) && i < |members| && WellFormed(other)
    ensures WellFormed(Object(members[i := Member(members[i].key, other)]))
  {
    var others := members[i := Member(members[i].key, other)];
    assert forall k | 0 <= k < |members| :: others[k].key == members[k].key;
    forall k | 0 <= k < |others| ensures WellFormed(others[k].value) {
      assert k != i ==> others[k] == members[k];
    }
  }

  lemma NestedSame(members: seq<Member>, i: nat, other: Json)
    requires i < |members| && Same(members[i].value, other)
    ensures Same(Object(members), Object(members[i := Member(members[i].key, other)]))
  {
    var others := members[i := Member(members[i].key, other)];
    forall k | 0 <= k < |members| ensures SameIn(members[k], others) {
      SameReflexive(members[k].value);
      assert members[k].key == others[k].key && Same(members[k].value, others[k].value);
    }
  }

  lemma MemberShows(before: Order, members: seq<Member>, i: nat, other: Json)
    requires DistinctKeys(members) && i < |members| && Canon(before, members[i].value) != Canon(before, other)
    ensures Canon(before, Object(members)) != Canon(before, Object(members[i := Member(members[i].key, other)]))
  {
    var cs := CanonMembers(before, members);
    var ds := CanonMembers(before, members[i := Member(members[i].key, other)]);
    SortMembers(before, cs);
    SortMembers(before, ds);
    forall k | 0 <= k < |ds| ensures ds[k] != cs[i] {
      assert k == i || members[k].key != members[i].key;
    }
    assert cs[i] in Sort(before, cs) && cs[i] !in Sort(before, ds);
  }

  lemma ItemShows(before: Order, items: seq<Json>, i: nat, other: Json)
    requires WellFormed(Array(items)) && i < |items| && WellFormed(other)
    requires Same(items[i], other) && Canon(before, items[i]) != Canon(before, other)
    ensures var y := Array(items[i := other]);
      WellFormed(y) && Same(Array(items), y) && Canon(before, Array(items)) != Canon(before, y)
  {
    var y := Array(items[i := other]);
    forall k | 0 <= k < |items| ensures Same(items[k], y.items[k]) {
      SameReflexive(items[k]);
    }
    assert Canon(before, Array(items)).items[i] != Canon(before, y).items[i];
  }

  /** With a tie somewhere, some reordering of the payload has another canonical form. */
  lemma {:induction false} TieShows(before: Order, x: Json) returns (y: Json)
    requires WellFormed(x) && !TieFree(before, x)
    ensures WellFormed(y) && Same(x, y) && Canon(before, x) != Canon(before, y)
    decreases x
  {
    if x.Array? {
      var i :| 0 <= i < |x.items| && !TieFree(before, x.items[i]);
      var other := TieShows(before, x.items[i]);
      ItemShows(before, x.items, i, other);
      y := Array(x.items[i := other]);
    } else if exists i, j :: 0 <= i < j < |x.members| && Tied(before, x.members[i].key, x.members[j].key) {
      var i, j :| 0 <= i < j < |x.members| && Tied(before, x.members[i].key, x.members[j].key);
      ReverseSame(x.members);
      ReversalShows(before, x.members, i, j);
      y := Object(Reverse(x.members));
    } else {
      var i :| 0 <= i < |x.members| && !TieFree(before, x.members[i].value);
      var other := TieShows(before, x.members[i].value);
      NestedWellFormed(x.members, i, other);
      NestedSame(x.members, i, other);
      MemberShows(before, x.members, i, other);
      y := Object(x.members[i := Member(x.members[i].key, other)]);
    }
  }

  /** The canonical form of a payload is independent of its key order exactly when no two of its keys tie. */
  lemma OrderInsensitiveExactlyWithoutTies(before: Order, x: Json)
    requires TotalPreorder(before) && WellFormed(x)
    ensures (forall y | WellFormed(y) && Same(x, y) :: Canon(before, x) == Canon(before, y))
       <==> TieFree(before, x)
  {
    if TieFree(before, x) {
      forall y | WellFormed(y) && Same(x, y) ensures Canon(before, x) == Canon(before, y) {
        SameMeansEqualCanon(before, x, y);
      }
    } else {
      var y := TieShows(before, x);
    }
  }
}
