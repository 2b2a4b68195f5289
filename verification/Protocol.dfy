/** Encoding and decoding of frames. A JSON text is represented by the value it parses to. */
module Protocol {
  import opened Options
  import opened Names

  // ----- values -----

  /** A Python value that can be dumped as JSON; parsing gives no tuples. */
  datatype Value =
    | Null
    | Bool(b: bool)
    | Num(n: int)
    | Str(s: string)
    | List(items: seq<Value>)
    | Tuple(items: seq<Value>)
    | Dict(entries: Entries)

  datatype Entry = Entry(key: string, value: Value)

  type Entries = seq<Entry>

  /** What dumping and parsing makes of a value: every tuple becomes a list. */
  function Dumped(v: Value): Value
    decreases v
  {
    match v
    case List(items) => List(DumpedAll(items))
    case Tuple(items) => List(DumpedAll(items))
    case Dict(entries) => Dict(DumpedEntries(entries))
    case _ => v
  }

  function DumpedAll(items: seq<Value>): seq<Value>
    decreases items
  {
    if items == [] then [] else [Dumped(items[0])] + DumpedAll(items[1..])
  }

  function DumpedEntries(entries: Entries): Entries
    decreases entries
  {
    if entries == [] then [] else [Entry(entries[0].key, Dumped(entries[0].value))] + DumpedEntries(entries[1..])
  }

  /** No tuple at any depth. */
  predicate Pure(v: Value)
    decreases v
  {
    match v
    case List(items) => PureAll(items)
    case Tuple(_) => false
    case Dict(entries) => PureEntries(entries)
    case _ => true
  }

  predicate PureAll(items: seq<Value>)
    decreases items
  {
    items == [] || (Pure(items[0]) && PureAll(items[1..]))
  }

  predicate PureEntries(entries: Entries)
    decreases entries
  {
    entries == [] || (Pure(entries[0].value) && PureEntries(entries[1..]))
  }

  lemma {:induction false} UnchangedExactlyWhenPure(v: Value)
    ensures Dumped(v) == v <==> Pure(v)
    decreases v
  {
    match v
    case List(items) => UnchangedAll(items);
    case Tuple(_) =>
    case Dict(entries) => UnchangedEntries(entries);
    case _ =>
  }

  lemma {:induction false} UnchangedAll(items: seq<Value>)
    ensures DumpedAll(items) == items <==> PureAll(items)
    decreases items
  {
    if items != [] {
      UnchangedExactlyWhenPure(items[0]);
      UnchangedAll(items[1..]);
      assert items == [items[0]] + items[1..];
      assert DumpedAll(items)[1..] == DumpedAll(items[1..]);
    }
  }

  lemma {:induction false} UnchangedEntries(entries: Entries)
    ensures DumpedEntries(entries) == entries <==> PureEntries(entries)
    decreases entries
  {
    if entries != [] {
      UnchangedExactlyWhenPure(entries[0].value);
      UnchangedEntries(entries[1..]);
      assert entries == [entries[0]] + entries[1..];
      assert DumpedEntries(entries)[1..] == DumpedEntries(entries[1..]);
    }
  }

  // ----- dictionaries, in the order of insertion -----

  predicate HasKey(entries: Entries, key: string) {
    entries != [] && (entries[0].key == key || HasKey(entries[1..], key))
  }

  function Put(entries: Entries, key: string, v: Value): Entries {
    if entries == [] then [Entry(key, v)]
    else if entries[0].key == key then [Entry(key, v)] + entries[1..]
    else [entries[0]] + Put(entries[1..], key, v)
  }

  function PutAll(entries: Entries, more: Entries): Entries
    decreases more
  {
    if more == [] then entries else PutAll(Put(entries, more[0].key, more[0].value), more[1..])
  }

  /** A missing key reads as null. */
  function Get(entries: Entries, key: string): Value {
    if entries == [] then Null else if entries[0].key == key then entries[0].value else Get(entries[1..], key)
  }

  function Without(entries: Entries, key: string): Entries {
    if entries == [] then []
    else (if entries[0].key == key then [] else [entries[0]]) + Without(entries[1..], key)
  }

  predicate Truthy(v: Value) {
    match v
    case Null => false
    case Bool(b) => b
    case Num(n) => n != 0
    case Str(s) => s != ""
    case List(items) => items != []
    case Tuple(items) => items != []
    case Dict(entries) => entries != []
  }

  // ----- frames -----

  datatype Field = Field(name: FieldName, isTuple: bool, default: Option<Value>)

  datatype Schema = Schema(wireType: string, control: bool, fields: seq<Field>)

  /** An instance of the frame class at place `kind` of the table. */
  datatype Frame = Frame(kind: nat, values: map<string, Value>)

  function FieldNames(fields: seq<Field>): set<string> {
    set f | f in fields :: f.name
  }

  function TupleNames(fields: seq<Field>): set<string> {
    set f | f in fields && f.isTuple :: f.name
  }

  predicate NamesDistinct(fields: seq<Field>) {
    forall i, j | 0 <= i < j < |fields| :: fields[i].name != fields[j].name
  }

  predicate SchemaOk(schema: Schema) {
    && NamesDistinct(schema.fields)
    && (schema.control ==> forall i | 0 <= i < |schema.fields| :: schema.fields[i].name != "type")
  }

  predicate TableOk(table: seq<Schema>) {
    && (forall k | 0 <= k < |table| :: SchemaOk(table[k]))
    && (forall j, k | 0 <= j < k < |table| :: table[j].wireType != table[k].wireType)
  }

  predicate FrameOk(table: seq<Schema>, frame: Frame) {
    frame.kind < |table| && frame.values.Keys == FieldNames(table[frame.kind].fields)
  }

  function ToWire(v: Value): Value {
    if v.Tuple? then List(v.items) else v
  }

  /** `_to_wire_body`. */
  function WireBody(fields: seq<Field>, values: map<string, Value>): Entries
    requires forall f | f in fields :: f.name in values
  {
    if fields == [] then []
    else
      var last := fields[|fields| - 1];
      Put(WireBody(fields[..|fields| - 1], values), SnakeToCamel(last.name), ToWire(values[last.name]))
  }

  /** `encode`, followed by what the receiver's parser makes of the text. */
  function Encode(table: seq<Schema>, frame: Frame): Value
    requires FrameOk(table, frame)
  {
    var schema := table[frame.kind];
    NamesInValues(schema.fields, frame.values);
    var body := WireBody(schema.fields, frame.values);
    Dumped(
      if schema.control then Dict(PutAll([Entry("type", Str(schema.wireType))], body))
      else Dict([Entry("type", Str(schema.wireType)), Entry("payload", Dict(body))]))
  }

  lemma NamesInValues(fields: seq<Field>, values: map<string, Value>)
    requires values.Keys == FieldNames(fields)
    ensures forall f | f in fields :: f.name in values
  {
    forall f | f in fields ensures f.name in values {
      assert f.name in FieldNames(fields);
    }
  }

  function Find(table: seq<Schema>, wireType: string): (k: Option<nat>)
    ensures k.Some? ==> k.value < |table| && table[k.value].wireType == wireType
    ensures k.None? ==> forall i | 0 <= i < |table| :: table[i].wireType != wireType
  {
    if table == [] then None
    else if table[|table| - 1].wireType == wireType then Some(|table| - 1)
    else Find(table[..|table| - 1], wireType)
  }

  /** The keyword arguments read from a wire body: unknown names are skipped, the last of two spellings wins. */
  function Kwargs(fields: seq<Field>, body: Entries): map<string, Value> {
    if body == [] then map[]
    else
      var front := Kwargs(fields, body[..|body| - 1]);
      var Entry(key, v) := body[|body| - 1];
      var name := CamelToSnake(key);
      if name !in FieldNames(fields) then front
      else front[name := if name in TupleNames(fields) && v.List? then Tuple(v.items) else v]
  }

  predicate Complete(fields: seq<Field>, kwargs: map<string, Value>) {
    forall f | f in fields :: f.name in kwargs || f.default.Some?
  }

  function WithDefaults(fields: seq<Field>, kwargs: map<string, Value>): map<string, Value> {
    if fields == [] then kwargs
    else
      var last := fields[|fields| - 1];
      var front := WithDefaults(fields[..|fields| - 1], kwargs);
      if last.name in front || last.default.None? then front else front[last.name := last.default.value]
  }

  datatype Decoded =
    | Known(wireType: string, frame: Frame)
    | Unknown(typ: Value, raw: Value)
    | Raises

  /** Where the fields are: beside the type, or in a payload that may be missing. */
  function BodyOf(schema: Schema, entries: Entries): Option<Entries> {
    if schema.control then Some(Without(entries, "type"))
    else
      var payload := Get(entries, "payload");
      if !Truthy(payload) then Some([]) else if payload.Dict? then Some(payload.entries) else None
  }

  function Decode(table: seq<Schema>, raw: Value): Decoded {
    if !raw.Dict? then Raises
    else
      var typ := Get(raw.entries, "type");
      if typ.List? || typ.Dict? then Raises
      else if !typ.Str? || Find(table, typ.s).None? then Unknown(typ, raw)
      else
        var kind := Find(table, typ.s).value;
        var fields := table[kind].fields;
        match BodyOf(table[kind], raw.entries)
        case None => Raises
        case Some(body) =>
          var kwargs := Kwargs(fields, body);
          if Complete(fields, kwargs) then Known(typ.s, Frame(kind, WithDefaults(fields, kwargs))) else Raises
  }

  // ----- the round trip -----

  lemma {:induction false} PutAppends(entries: Entries, key: string, v: Value)
    requires !HasKey(entries, key)
    ensures Put(entries, key, v) == entries + [Entry(key, v)]
  {
    if entries != [] {
      PutAppends(entries[1..], key, v);
      assert entries == [entries[0]] + entries[1..];
    }
  }

  lemma {:induction false} KeyIsThere(entries: Entries, key: string) returns (i: nat)
    requires HasKey(entries, key)
    ensures i < |entries| && entries[i].key == key
  {
    if entries[0].key == key {
      i := 0;
    } else {
      i := KeyIsThere(entries[1..], key);
      i := i + 1;
    }
  }

  lemma CamelIsInjective(a: string, b: string)
    requires Regular(a) && Regular(b) && SnakeToCamel(a) == SnakeToCamel(b)
    ensures a == b
  {
    InverseExactlyWhen(a);
    InverseExactlyWhen(b);
  }

  /** The body, entry by entry, when no two names collide. */
  function Written(fields: seq<Field>, values: map<string, Value>): (body: Entries)
    requires forall f | f in fields :: f.name in values
    ensures |body| == |fields|
    ensures forall i | 0 <= i < |body| :: body[i] == Entry(SnakeToCamel(fields[i].name), ToWire(values[fields[i].name]))
  {
    seq(|fields|, i requires 0 <= i < |fields| => Entry(SnakeToCamel(fields[i].name), ToWire(values[fields[i].name])))
  }

  lemma FreshKey(schema: Schema, n: nat, values: map<string, Value>)
    requires SchemaOk(schema) && n < |schema.fields| && forall f | f in schema.fields :: f.name in values
    ensures !HasKey(Written(schema.fields[..n], values), SnakeToCamel(schema.fields[n].name))
  {
    var front, key := Written(schema.fields[..n], values), SnakeToCamel(schema.fields[n].name);
    if HasKey(front, key) {
      var i := KeyIsThere(front, key);
      CamelIsInjective(schema.fields[i].name, schema.fields[n].name);
      assert false;
    }
  }

  lemma WrittenNext(fields: seq<Field>, n: nat, values: map<string, Value>)
    requires n < |fields| && forall f | f in fields :: f.name in values
    ensures Written(fields[..n + 1], values) ==
      Written(fields[..n], values) + [Entry(SnakeToCamel(fields[n].name), ToWire(values[fields[n].name]))]
  {
  }

  lemma BodyNext(schema: Schema, n: nat, values: map<string, Value>)
    requires SchemaOk(schema) && n < |schema.fields| && forall f | f in schema.fields :: f.name in values
    requires WireBody(schema.fields[..n], values) == Written(schema.fields[..n], values)
    ensures WireBody(schema.fields[..n + 1], values) == Written(schema.fields[..n + 1], values)
  {
    var last := schema.fields[n];
    FreshKey(schema, n, values);
    WrittenNext(schema.fields, n, values);
    PutAppends(Written(schema.fields[..n], values), SnakeToCamel(last.name), ToWire(values[last.name]));
    assert schema.fields[..n + 1][..n] == schema.fields[..n];
  }

  lemma BodyIsWritten(schema: Schema, values: map<string, Value>)
    requires SchemaOk(schema) && forall f | f in schema.fields :: f.name in values
    ensures WireBody(schema.fields, values) == Written(schema.fields, values)
  {
    for n := 0 to |schema.fields|
      invariant WireBody(schema.fields[..n], values) == Written(schema.fields[..n], values)
    {
      BodyNext(schema, n, values);
    }
    assert schema.fields[..|schema.fields|] == schema.fields;
  }

  lemma {:induction false} DumpedAt(entries: Entries)
    ensures |DumpedEntries(entries)| == |entries|
    ensures forall i | 0 <= i < |entries| ::
      DumpedEntries(entries)[i] == Entry(entries[i].key, Dumped(entries[i].value))
  {
    if entries != [] {
      DumpedAt(entries[1..]);
      forall i | 0 < i < |entries|
        ensures DumpedEntries(entries)[i] == Entry(entries[i].key, Dumped(entries[i].value))
      {
        assert DumpedEntries(entries)[i] == DumpedEntries(entries[1..])[i - 1];
      }
    }
  }

  predicate KeysDistinct(entries: Entries) {
    forall i, j | 0 <= i < j < |entries| :: entries[i].key != entries[j].key
  }

  predicate NoKey(entries: Entries, key: string) {
    forall i | 0 <= i < |entries| :: entries[i].key != key
  }

  lemma {:induction false} PutAllAppends(entries: Entries, more: Entries)
    requires KeysDistinct(more) && forall i | 0 <= i < |more| :: NoKey(entries, more[i].key)
    ensures PutAll(entries, more) == entries + more
    decreases |more|
  {
    if more != [] {
      var Entry(key, v) := more[0];
      if HasKey(entries, key) {
        var i := KeyIsThere(entries, key);
      }
      PutAppends(entries, key, v);
      PutAllAppends(entries + [Entry(key, v)], more[1..]);
      assert entries + [Entry(key, v)] + more[1..] == entries + more;
    }
  }

  lemma {:induction false} WithoutMissing(entries: Entries, key: string)
    requires NoKey(entries, key)
    ensures Without(entries, key) == entries
  {
    if entries != [] {
      WithoutMissing(entries[1..], key);
    }
  }

  /** The value a field comes back with. */
  function Returned(f: Field, v: Value): Value {
    var w := Dumped(ToWire(v));
    if f.isTuple && w.List? then Tuple(w.items) else w
  }

  lemma TupleFieldIs(schema: Schema, i: nat)
    requires SchemaOk(schema) && i < |schema.fields|
    ensures schema.fields[i].name in FieldNames(schema.fields)
    ensures schema.fields[i].name in TupleNames(schema.fields) <==> schema.fields[i].isTuple
  {
    var f := schema.fields[i];
    assert f in schema.fields;
    if f.name in TupleNames(schema.fields) {
      var g :| g in schema.fields && g.isTuple && g.name == f.name;
      var j :| 0 <= j < |schema.fields| && schema.fields[j] == g;
      assert i == j;
    }
  }

  /** The body on the wire is that of these values. */
  predicate Carries(body: Entries, fields: seq<Field>, values: map<string, Value>) {
    && |body| == |fields| && (forall f | f in fields :: f.name in values)
    && forall i | 0 <= i < |body| ::
         body[i] == Entry(SnakeToCamel(fields[i].name), Dumped(ToWire(values[fields[i].name])))
  }

  lemma KwargsNext(schema: Schema, values: map<string, Value>, body: Entries, n: nat)
    requires SchemaOk(schema) && Carries(body, schema.fields, values) && n < |body|
    ensures var f := schema.fields[n];
      Kwargs(schema.fields, body[..n + 1]) == Kwargs(schema.fields, body[..n])[f.name := Returned(f, values[f.name])]
      && f.name in FieldNames(schema.fields)
  {
    assert body[..n + 1][..n] == body[..n];
    InverseExactlyWhen(schema.fields[n].name);
    TupleFieldIs(schema, n);
  }

  lemma {:induction false} KwargsNamed(fields: seq<Field>, body: Entries)
    ensures Kwargs(fields, body).Keys <= FieldNames(fields)
  {
    if body != [] {
      KwargsNamed(fields, body[..|body| - 1]);
    }
  }

  /** Field `i` has come back under its own name. */
  predicate IsBack(kwargs: map<string, Value>, fields: seq<Field>, values: map<string, Value>, i: nat)
    requires i < |fields| && fields[i].name in values
  {
    fields[i].name in kwargs && kwargs[fields[i].name] == Returned(fields[i], values[fields[i].name])
  }

  /** Reading another field leaves the ones that are back alone. */
  lemma StaysBack(schema: Schema, values: map<string, Value>, kwargs: map<string, Value>, n: nat, i: nat)
    requires SchemaOk(schema) && i <= n < |schema.fields| && (forall f | f in schema.fields :: f.name in values)
    requires i < n ==> IsBack(kwargs, schema.fields, values, i)
    ensures var f := schema.fields[n];
      IsBack(kwargs[f.name := Returned(f, values[f.name])], schema.fields, values, i)
  {
  }

  /** Each field of the body comes back under its own name. */
  lemma KwargsAt(schema: Schema, values: map<string, Value>, body: Entries, i: nat)
    requires SchemaOk(schema) && Carries(body, schema.fields, values) && i < |body|
    ensures IsBack(Kwargs(schema.fields, body), schema.fields, values, i)
  {
    for n := i to |body|
      invariant i < n ==> IsBack(Kwargs(schema.fields, body[..n]), schema.fields, values, i)
    {
      KwargsNext(schema, values, body, n);
      StaysBack(schema, values, Kwargs(schema.fields, body[..n]), n, i);
    }
    assert body[..|body|] == body;
  }

  lemma {:induction false} NoDefaultsNeeded(fields: seq<Field>, kwargs: map<string, Value>)
    requires forall f | f in fields :: f.name in kwargs
    ensures WithDefaults(fields, kwargs) == kwargs
  {
    if fields != [] {
      NoDefaultsNeeded(fields[..|fields| - 1], kwargs);
    }
  }

  /** The body that `decode` finds is the one that `encode` wrote. */
  lemma BodyArrives(table: seq<Schema>, frame: Frame) returns (body: Entries)
    requires TableOk(table) && FrameOk(table, frame)
    ensures var schema := table[frame.kind];
      && Encode(table, frame).Dict?
      && Get(Encode(table, frame).entries, "type") == Str(schema.wireType)
      && BodyOf(schema, Encode(table, frame).entries) == Some(body)
      && Carries(body, schema.fields, frame.values)
  {
    var schema := table[frame.kind];
    NamesInValues(schema.fields, frame.values);
    var written := Written(schema.fields, frame.values);
    BodyIsWritten(schema, frame.values);
    DumpedAt(written);
    body := DumpedEntries(written);
    if schema.control {
      ControlBody(schema, written);
    } else {
      PayloadBody(schema, written);
    }
  }

  lemma PayloadBody(schema: Schema, written: Entries)
    requires !schema.control
    ensures var raw := Dumped(Dict([Entry("type", Str(schema.wireType)), Entry("payload", Dict(written))]));
      raw.Dict? && Get(raw.entries, "type") == Str(schema.wireType)
      && BodyOf(schema, raw.entries) == Some(DumpedEntries(written))
  {
    var first, second := Entry("type", Str(schema.wireType)), Entry("payload", Dict(written));
    DumpedTwo(first, second);
    var arrived := [first, Entry("payload", Dict(DumpedEntries(written)))];
    assert DumpedEntries([first, second]) == arrived;
    assert arrived[1..] == [arrived[1]];
    assert "type"[0] != "payload"[0];
    assert Get(arrived, "payload") == Dict(DumpedEntries(written));
  }

  lemma DumpedTwo(a: Entry, b: Entry)
    ensures DumpedEntries([a, b]) == [Entry(a.key, Dumped(a.value)), Entry(b.key, Dumped(b.value))]
  {
    assert [a, b][1..] == [b] && [b][1..] == [];
    assert DumpedEntries([b]) == [Entry(b.key, Dumped(b.value))] + DumpedEntries([]);
  }

  lemma WrittenDistinct(schema: Schema, written: Entries)
    requires SchemaOk(schema) && |written| == |schema.fields|
    requires forall i | 0 <= i < |written| :: written[i].key == SnakeToCamel(schema.fields[i].name)
    ensures KeysDistinct(written)
  {
    forall i, j | 0 <= i < j < |written| ensures written[i].key != written[j].key {
      if SnakeToCamel(schema.fields[i].name) == SnakeToCamel(schema.fields[j].name) {
        CamelIsInjective(schema.fields[i].name, schema.fields[j].name);
      }
    }
  }

  lemma TypeIsFree(schema: Schema, written: Entries)
    requires schema.control && SchemaOk(schema) && |written| == |schema.fields|
    requires forall i | 0 <= i < |written| :: written[i].key == SnakeToCamel(schema.fields[i].name)
    ensures NoKey(written, "type")
  {
    CamelIsSnakeToCamel("type");
    assert SnakeToCamel("type") == "type";
    forall i | 0 <= i < |written| ensures written[i].key != "type" {
      if SnakeToCamel(schema.fields[i].name) == "type" {
        CamelIsInjective(schema.fields[i].name, "type");
      }
    }
  }

  lemma ControlBody(schema: Schema, written: Entries)
    requires schema.control && SchemaOk(schema) && |written| == |schema.fields|
    requires forall i | 0 <= i < |written| :: written[i].key == SnakeToCamel(schema.fields[i].name)
    ensures var raw := Dumped(Dict(PutAll([Entry("type", Str(schema.wireType))], written)));
      raw.Dict? && Get(raw.entries, "type") == Str(schema.wireType)
      && BodyOf(schema, raw.entries) == Some(DumpedEntries(written))
  {
    var head: Entries := [Entry("type", Str(schema.wireType))];
    WrittenDistinct(schema, written);
    TypeIsFree(schema, written);
    PutAllAppends(head, written);
    DumpedAt(written);
    WithoutMissing(DumpedEntries(written), "type");
    var arrived := DumpedEntries(head + written);
    assert (head + written)[0] == head[0] && Dumped(head[0].value) == head[0].value;
    assert arrived[1..] == DumpedEntries(written) && arrived[0] == Entry("type", Str(schema.wireType));
    assert Without(arrived, "type") == [] + Without(arrived[1..], "type");
  }

  /** All fields are read back, and nothing else. */
  lemma KwargsBack(schema: Schema, values: map<string, Value>, body: Entries)
    requires SchemaOk(schema) && Carries(body, schema.fields, values)
    ensures var kwargs := Kwargs(schema.fields, body);
      && kwargs.Keys == FieldNames(schema.fields)
      && forall f | f in schema.fields :: kwargs[f.name] == Returned(f, values[f.name])
  {
    var kwargs := Kwargs(schema.fields, body);
    KwargsNamed(schema.fields, body);
    forall f | f in schema.fields
      ensures f.name in kwargs && kwargs[f.name] == Returned(f, values[f.name])
    {
      var i :| 0 <= i < |schema.fields| && schema.fields[i] == f;
      KwargsAt(schema, values, body, i);
    }
  }

  /** Decoding what was encoded gives the type and the frame, each field as it returns from the wire. */
  lemma DecodeOfEncode(table: seq<Schema>, frame: Frame) returns (back: Frame)
    requires TableOk(table) && FrameOk(table, frame)
    ensures Decode(table, Encode(table, frame)) == Known(table[frame.kind].wireType, back)
    ensures back.kind == frame.kind && back.values.Keys == frame.values.Keys
    ensures forall f | f in table[frame.kind].fields ::
      f.name in frame.values && f.name in back.values && back.values[f.name] == Returned(f, frame.values[f.name])
  {
    var schema := table[frame.kind];
    var body := BodyArrives(table, frame);
    assert Find(table, schema.wireType) == Some(frame.kind);
    KwargsBack(schema, frame.values, body);
    var kwargs := Kwargs(schema.fields, body);
    NamesInValues(schema.fields, kwargs);
    NoDefaultsNeeded(schema.fields, kwargs);
    back := Frame(frame.kind, kwargs);
  }

  /** The values a field keeps: tuples of tuple-free values where tuples are declared, tuple-free values elsewhere. */
  predicate Survives(f: Field, v: Value) {
    if f.isTuple then (v.Tuple? && PureAll(v.items)) || (!v.List? && Pure(v)) else Pure(v)
  }

  lemma SurvivesExactlyWhen(f: Field, v: Value)
    ensures Returned(f, v) == v <==> Survives(f, v)
  {
    UnchangedExactlyWhenPure(v);
    if v.Tuple? {
      UnchangedAll(v.items);
    }
  }

  lemma SameValues(fields: seq<Field>, a: map<string, Value>, b: map<string, Value>)
    requires a.Keys == FieldNames(fields) && b.Keys == FieldNames(fields)
    ensures a == b <==> forall f | f in fields :: f.name in a && f.name in b && a[f.name] == b[f.name]
  {
    NamesInValues(fields, a);
    if forall f | f in fields :: f.name in b && a[f.name] == b[f.name] {
      assert forall name | name in a :: a[name] == b[name];
    }
  }

  /** A frame comes back as it was exactly when each of its values is of the declared kind. */
  lemma RoundTripExactlyWhen(table: seq<Schema>, frame: Frame)
    requires TableOk(table) && FrameOk(table, frame)
    ensures Decode(table, Encode(table, frame)) == Known(table[frame.kind].wireType, frame) <==>
      forall f | f in table[frame.kind].fields :: f.name in frame.values && Survives(f, frame.values[f.name])
  {
    var fields := table[frame.kind].fields;
    var back := DecodeOfEncode(table, frame);
    NamesInValues(fields, frame.values);
    SameValues(fields, back.values, frame.values);
    forall f | f in fields
      ensures Returned(f, frame.values[f.name]) == frame.values[f.name] <==> Survives(f, frame.values[f.name])
    {
      SurvivesExactlyWhen(f, frame.values[f.name]);
    }
  }

  // ----- what decoding makes of any frame -----

  /** Entry `i` is the last of the body whose key spells this name. */
  predicate LastSpelling(body: Entries, name: string, i: int) {
    && 0 <= i < |body| && CamelToSnake(body[i].key) == name
    && forall j | i < j < |body| :: CamelToSnake(body[j].key) != name
  }

  lemma LastSpellingNext(body: Entries, name: string, i: int)
    requires body != []
    ensures LastSpelling(body, name, i) <==>
      if CamelToSnake(body[|body| - 1].key) == name then i == |body| - 1
      else LastSpelling(body[..|body| - 1], name, i)
  {
    var last := |body| - 1;
    assert forall j | 0 <= j < last :: body[..last][j] == body[j];
    if i < last && CamelToSnake(body[last].key) == name && LastSpelling(body, name, i) {
      assert false;
    }
  }

  /** A list becomes a tuple exactly where a tuple is declared. */
  function Repaired(fields: seq<Field>, name: string, v: Value): Value {
    if v.List? && exists f :: f in fields && f.name == name && f.isTuple then Tuple(v.items) else v
  }

  lemma RepairedIs(fields: seq<Field>, name: string, v: Value)
    ensures Repaired(fields, name, v) == if name in TupleNames(fields) && v.List? then Tuple(v.items) else v
  {
    if name in TupleNames(fields) {
      var f :| f in fields && f.isTuple && f.name == name;
    }
    if f :| f in fields && f.name == name && f.isTuple {
      assert f.name in TupleNames(fields);
    }
  }

  /** Exactly the declared names that the body spells are read, each from its last spelling; others are ignored. */
  lemma {:induction false} KwargsAreLastSpellings(fields: seq<Field>, body: Entries, name: string)
    ensures name in Kwargs(fields, body) <==> name in FieldNames(fields) && exists i :: LastSpelling(body, name, i)
    ensures forall i | name in FieldNames(fields) && LastSpelling(body, name, i) ::
      Kwargs(fields, body)[name] == Repaired(fields, name, body[i].value)
  {
    if body != [] {
      var last := |body| - 1;
      KwargsAreLastSpellings(fields, body[..last], name);
      RepairedIs(fields, name, body[last].value);
      forall i ensures LastSpelling(body, name, i) <==>
          if CamelToSnake(body[last].key) == name then i == last else LastSpelling(body[..last], name, i)
      {
        LastSpellingNext(body, name, i);
      }
      if CamelToSnake(body[last].key) == name {
        assert LastSpelling(body, name, last);
      }
    }
  }

  /** Fields that were read keep their values, the others get their defaults, and no name is added beyond those. */
  lemma {:induction false} MissingGetDefaults(fields: seq<Field>, kwargs: map<string, Value>)
    requires NamesDistinct(fields)
    ensures forall name | name in kwargs ::
      name in WithDefaults(fields, kwargs) && WithDefaults(fields, kwargs)[name] == kwargs[name]
    ensures forall f | f in fields && f.name !in kwargs && f.default.Some? ::
      f.name in WithDefaults(fields, kwargs) && WithDefaults(fields, kwargs)[f.name] == f.default.value
    ensures WithDefaults(fields, kwargs).Keys <= kwargs.Keys + FieldNames(fields)
    ensures forall f | f in fields && f.name !in kwargs && f.default.None? :: f.name !in WithDefaults(fields, kwargs)
  {
    if fields != [] {
      var last := |fields| - 1;
      var front := fields[..last];
      MissingGetDefaults(front, kwargs);
      assert fields[last].name !in FieldNames(front);
      assert forall f :: f in fields <==> f in front || f == fields[last];
    }
  }

  /** The field has the value of its last spelling, else its default. */
  ghost predicate IsRead(body: Entries, fields: seq<Field>, f: Field, values: map<string, Value>) {
    && f.name in values
    && (forall i | LastSpelling(body, f.name, i) :: values[f.name] == Repaired(fields, f.name, body[i].value))
    && ((forall i :: !LastSpelling(body, f.name, i)) ==> f.default == Some(values[f.name]))
  }

  lemma FieldsAreRead(fields: seq<Field>, body: Entries)
    requires NamesDistinct(fields) && Complete(fields, Kwargs(fields, body))
    ensures var values := WithDefaults(fields, Kwargs(fields, body));
      values.Keys == FieldNames(fields) && forall f | f in fields :: IsRead(body, fields, f, values)
  {
    var kwargs := Kwargs(fields, body);
    var values := WithDefaults(fields, kwargs);
    KwargsNamed(fields, body);
    MissingGetDefaults(fields, kwargs);
    forall f | f in fields ensures IsRead(body, fields, f, values) {
      assert f.name in FieldNames(fields);
      KwargsAreLastSpellings(fields, body, f.name);
    }
  }

  /**
   * A frame of a registered type is decoded if and only if its body is there and spells every field that has no
   * default; then each field has the value of its last spelling, else its default, and nothing else is kept.
   */
  lemma DecodeMeans(table: seq<Schema>, entries: Entries, kind: nat)
    requires TableOk(table) && kind < |table| && Get(entries, "type") == Str(table[kind].wireType)
    ensures var fields, body, r := table[kind].fields, BodyOf(table[kind], entries), Decode(table, Dict(entries));
      && (r.Known? || r.Raises?)
      && (r.Known? <==>
            body.Some?
            && forall f | f in fields :: f.default.Some? || exists i :: LastSpelling(body.value, f.name, i))
      && (r.Known? ==>
            && r.wireType == table[kind].wireType && r.frame.kind == kind && r.frame.values.Keys == FieldNames(fields)
            && forall f | f in fields :: IsRead(body.value, fields, f, r.frame.values))
  {
    var fields, body := table[kind].fields, BodyOf(table[kind], entries);
    assert Find(table, table[kind].wireType) == Some(kind);
    if body.Some? {
      var kwargs := Kwargs(fields, body.value);
      forall name
        ensures name in kwargs <==> name in FieldNames(fields) && exists i :: LastSpelling(body.value, name, i)
      {
        KwargsAreLastSpellings(fields, body.value, name);
      }
      if Complete(fields, kwargs) {
        FieldsAreRead(fields, body.value);
      }
    }
  }

  /** A frame of any other type is passed on as it is; only a type that is no text may raise. */
  lemma OthersPassThrough(table: seq<Schema>, entries: Entries)
    requires forall k | 0 <= k < |table| :: Get(entries, "type") != Str(table[k].wireType)
    ensures var typ := Get(entries, "type");
      Decode(table, Dict(entries)) == if typ.List? || typ.Dict? then Raises else Unknown(typ, Dict(entries))
  {
  }

  // ----- the loops -----

  method ToWireBody(fields: seq<Field>, values: map<string, Value>) returns (body: Entries)
    requires forall f | f in fields :: f.name in values
    ensures body == WireBody(fields, values)
  {
    body := [];
    for i := 0 to |fields|
      invariant body == WireBody(fields[..i], values)
    {
      assert fields[..i + 1][..i] == fields[..i];
      var value := values[fields[i].name];
      if value.Tuple? {
        value := List(value.items);
      }
      body := Put(body, SnakeToCamel(fields[i].name), value);
    }
    assert fields[..|fields|] == fields;
  }

  method ReadKwargs(fields: seq<Field>, body: Entries) returns (kwargs: map<string, Value>)
    ensures kwargs == Kwargs(fields, body)
  {
    kwargs := map[];
    for i := 0 to |body|
      invariant kwargs == Kwargs(fields, body[..i])
    {
      assert body[..i + 1][..i] == body[..i];
      var Entry(key, value) := body[i];
      var name := CamelToSnake(key);
      if name !in FieldNames(fields) {
        continue;
      }
      if name in TupleNames(fields) && value.List? {
        value := Tuple(value.items);
      }
      kwargs := kwargs[name := value];
    }
    assert body[..|body|] == body;
  }
}
