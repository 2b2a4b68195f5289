/** The control panel's audit log: a bounded list in memory, and a file that is appended to and compacted. */
module AuditLog {
  const MAX_ENTRIES: nat := 400

  type Entry = string

  /** A line of the file. */
  datatype Line = Good(entry: Entry) | Junk | Blank

  /** The file: its lines that are ended by a newline, and what stands behind the last newline, if not blank. */
  datatype File = File(lines: seq<Line>, rest: Line)

  function WellFormed(found: seq<Entry>): File {
    File(Lines(found), Blank)
  }

  /** What splitting the text at its newlines gives: there is always something behind the last, if only a blank. */
  function Split(file: File): seq<Line> {
    file.lines + [file.rest]
  }

  /** An entry appended behind a partial line only makes that line longer, and no JSON. */
  function AppendTo(file: File, entry: Entry): File {
    File(file.lines + [if file.rest.Blank? then Good(entry) else Junk], Blank)
  }

  function Last<T>(items: seq<T>, n: nat): (r: seq<T>)
    ensures |r| == if |items| < n then |items| else n
  {
    if |items| <= n then items else items[|items| - n..]
  }

  function Lines(entries: seq<Entry>): (lines: seq<Line>)
    ensures |lines| == |entries| && forall i | 0 <= i < |lines| :: lines[i] == Good(entries[i])
  {
    seq(|entries|, i requires 0 <= i < |entries| => Good(entries[i]))
  }

  function Entries(lines: seq<Line>): seq<Entry> {
    if lines == [] then []
    else Entries(lines[..|lines| - 1]) + if lines[|lines| - 1].Good? then [lines[|lines| - 1].entry] else []
  }

  function NonBlank(lines: seq<Line>): nat {
    if lines == [] then 0
    else NonBlank(lines[..|lines| - 1]) + if lines[|lines| - 1].Blank? then 0 else 1
  }

  /** What a start of the process reads. */
  function Load(file: File): seq<Entry> {
    Entries(Last(Split(file), MAX_ENTRIES))
  }

  /** A queued write: the entry to append, and the list to compact to. */
  datatype Job = Job(entry: Entry, snapshot: seq<Entry>)

  datatype State = State(
    file: File,
    lineCount: nat,              // persistedLineCount
    entries: seq<Entry>,
    queue: seq<Job>,             // writeQueue, oldest first
    compacting: bool,            // the oldest job has appended its entry and is rewriting the file
    // history, read by no step
    base: nat,                   // how many entries the file held at the start
    log: seq<Entry>,             // those, and all that were recorded since
    written: nat,                // how many of them are on file
    failed: bool)                // some write failed

  /** A new process on any file. */
  function Started(file: File): State {
    var found := Entries(Split(file));
    State(file, NonBlank(Split(file)), Load(file), [], false, |found|, found, |found|, false)
  }

  datatype Event = Record(entry: Entry) | Append | Replace | WriteFails

  predicate Enabled(s: State, e: Event) {
    match e
    case Record(_) => true
    case Append => s.queue != [] && !s.compacting
    case Replace => s.queue != [] && s.compacting
    case WriteFails => s.queue != []
  }

  function RecordStep(s: State, entry: Entry): State {
    var pushed := s.entries + [entry];
    var entries := if |pushed| > MAX_ENTRIES then pushed[1..] else pushed;
    s.(entries := entries, queue := s.queue + [Job(entry, entries)], log := s.log + [entry])
  }

  function AppendStep(s: State): State
    requires Enabled(s, Append)
  {
    var s' := s.(file := AppendTo(s.file, s.queue[0].entry), lineCount := s.lineCount + 1);
    if s'.lineCount > 2 * MAX_ENTRIES then s'.(compacting := true)
    else s'.(queue := s.queue[1..], written := s.written + 1)
  }

  function ReplaceStep(s: State): State
    requires Enabled(s, Replace)
  {
    var snapshot := s.queue[0].snapshot;
    s.(file := WellFormed(snapshot), lineCount := |snapshot|, queue := s.queue[1..], compacting := false,
       written := s.written + 1)
  }

  function Apply(s: State, e: Event): State
    requires Enabled(s, e)
  {
    match e
    case Record(entry) => RecordStep(s, entry)
    case Append => AppendStep(s)
    case Replace => ReplaceStep(s)
    case WriteFails => s.(queue := s.queue[1..], compacting := false, failed := true)
  }

  predicate Runs(s: State, events: seq<Event>)
    decreases |events|
  {
    events == [] || (Enabled(s, events[0]) && Runs(Apply(s, events[0]), events[1..]))
  }

  function After(s: State, events: seq<Event>): State
    requires Runs(s, events)
    decreases |events|
  {
    if events == [] then s else After(Apply(s, events[0]), events[1..])
  }

  // ----- loading -----

  lemma {:induction false} EntriesOfLines(entries: seq<Entry>)
    ensures Entries(Lines(entries)) == entries && NonBlank(Lines(entries)) == |entries|
  {
    if entries != [] {
      var front := entries[..|entries| - 1];
      EntriesOfLines(front);
      assert Lines(entries)[..|entries| - 1] == Lines(front);
      assert front + [entries[|entries| - 1]] == entries;
    }
  }

  /** A load keeps one entry less than the list may hold. */
  lemma LoadIsLast(entries: seq<Entry>)
    ensures Load(WellFormed(entries)) == Last(entries, MAX_ENTRIES - 1)
  {
    var kept := Last(entries, MAX_ENTRIES - 1);
    var read := Last(Lines(entries) + [Blank], MAX_ENTRIES);
    assert read == Lines(kept) + [Blank];
    assert read[..|read| - 1] == Lines(kept);
    EntriesOfLines(kept);
  }

  /** Behind a partial last line the next entry is lost to the file, and so is an entry that only lacked its newline. */
  lemma PartialLineSwallowsNext(file: File, entry: Entry)
    requires !file.rest.Blank?
    ensures Entries(Split(AppendTo(file, entry))) == Entries(file.lines)
  {
    var lines := AppendTo(file, entry).lines;
    assert Split(AppendTo(file, entry))[..|lines|] == lines && lines[..|lines| - 1] == file.lines;
  }

  // ----- what every step keeps -----

  /** How many entries are in memory once the log has `n`. */
  function Held(base: nat, n: nat): nat
    requires base <= n
  {
    var loaded := if base < MAX_ENTRIES then base else MAX_ENTRIES - 1;
    if loaded + (n - base) < MAX_ENTRIES then loaded + (n - base) else MAX_ENTRIES
  }

  /** The list in memory when the log had `n` entries. */
  function Snapshot(base: nat, log: seq<Entry>, n: nat): seq<Entry>
    requires base <= n <= |log|
  {
    Last(log[..n], Held(base, n))
  }

  /** The list in memory is the end of the log, whatever happens to the file. */
  predicate MemoryOk(s: State) {
    s.base <= |s.log| && s.entries == Snapshot(s.base, s.log, |s.log|)
  }

  predicate JobOk(base: nat, log: seq<Entry>, job: Job, n: nat)
    requires base <= n < |log|
  {
    job.entry == log[n] && job.snapshot == Snapshot(base, log, n + 1)
  }

  predicate QueueOk(s: State) {
    && s.base <= s.written && s.written + |s.queue| == |s.log|
    && forall i | 0 <= i < |s.queue| :: JobOk(s.base, s.log, s.queue[i], s.written + i)
  }

  /** How many entries of the log have been appended. */
  function Appended(s: State): nat {
    s.written + if s.compacting then 1 else 0
  }

  /** The file is the end of the first `n` entries, and has at least the last 400 of them. */
  predicate EndsAt(file: seq<Line>, log: seq<Entry>, n: nat) {
    && |file| <= n <= |log| && file == Lines(Last(log[..n], |file|))
    && (|file| >= MAX_ENTRIES || |file| == n)
  }

  /** The file is the end of what was appended, and has more than 800 lines only for a moment. */
  predicate FileOk(s: State) {
    && s.file.rest == Blank && EndsAt(s.file.lines, s.log, Appended(s)) && s.lineCount == |s.file.lines|
    && (s.compacting ==> s.queue != [] && |s.file.lines| > 2 * MAX_ENTRIES)
    && (!s.compacting && s.written > s.base ==> |s.file.lines| <= 2 * MAX_ENTRIES)
  }

  predicate Inv(s: State) {
    MemoryOk(s) && (!s.failed ==> QueueOk(s) && FileOk(s))
  }

  lemma StartedInv(found: seq<Entry>)
    ensures Inv(Started(WellFormed(found))) && Started(WellFormed(found)).log == found
  {
    LoadIsLast(found);
    EntriesOfLines(found);
    assert Split(WellFormed(found))[..|found|] == Lines(found);
    assert found[..|found|] == found;
  }

  lemma LastOfMore<T>(items: seq<T>, n: nat, item: T)
    ensures Last(items + [item], n + 1) == Last(items, n) + [item]
  {
  }

  lemma LastOfLast<T>(items: seq<T>, n: nat, m: nat)
    requires n <= m
    ensures Last(Last(items, m), n) == Last(items, n)
  {
  }

  /** A push that shifts when the list is full keeps the end of the log. */
  lemma PushShift(log: seq<Entry>, held: nat, entry: Entry)
    requires held <= |log| && held <= MAX_ENTRIES
    ensures var pushed := Last(log, held) + [entry];
      (if |pushed| > MAX_ENTRIES then pushed[1..] else pushed)
      == Last(log + [entry], if held < MAX_ENTRIES then held + 1 else MAX_ENTRIES)
  {
    LastOfMore(log, held, entry);
  }

  lemma SnapshotOfAll(base: nat, log: seq<Entry>)
    requires base <= |log|
    ensures Snapshot(base, log, |log|) == Last(log, Held(base, |log|))
  {
    assert log[..|log|] == log;
  }

  lemma RecordMemory(s: State, entry: Entry)
    requires MemoryOk(s)
    ensures MemoryOk(RecordStep(s, entry))
  {
    SnapshotOfAll(s.base, s.log);
    SnapshotOfAll(s.base, s.log + [entry]);
    PushShift(s.log, Held(s.base, |s.log|), entry);
  }

  /** The jobs already queued do not notice what is recorded behind them. */
  lemma JobFixed(base: nat, log: seq<Entry>, entry: Entry, job: Job, n: nat)
    requires base <= n < |log| && JobOk(base, log, job, n)
    ensures JobOk(base, log + [entry], job, n)
  {
    assert (log + [entry])[..n + 1] == log[..n + 1];
  }

  lemma NewJobOk(s: State, entry: Entry)
    requires MemoryOk(s)
    ensures var s' := RecordStep(s, entry);
      JobOk(s'.base, s'.log, Job(entry, s'.entries), |s.log|)
  {
    RecordMemory(s, entry);
  }

  lemma RecordQueue(s: State, entry: Entry)
    requires MemoryOk(s) && QueueOk(s)
    ensures QueueOk(RecordStep(s, entry))
  {
    var s' := RecordStep(s, entry);
    NewJobOk(s, entry);
    forall i | 0 <= i < |s'.queue| ensures JobOk(s'.base, s'.log, s'.queue[i], s'.written + i) {
      if i < |s.queue| {
        JobFixed(s.base, s.log, entry, s.queue[i], s.written + i);
      }
    }
  }

  lemma RecordKeeps(s: State, entry: Entry)
    requires Inv(s)
    ensures Inv(RecordStep(s, entry))
  {
    RecordMemory(s, entry);
    if !s.failed {
      RecordQueue(s, entry);
      assert (s.log + [entry])[..Appended(s)] == s.log[..Appended(s)];
    }
  }

  lemma LinesSnoc(entries: seq<Entry>, entry: Entry)
    ensures Lines(entries) + [Good(entry)] == Lines(entries + [entry])
  {
  }

  lemma LastOfPrefix(log: seq<Entry>, n: nat, k: nat)
    requires n < |log|
    ensures Last(log[..n + 1], k + 1) == Last(log[..n], k) + [log[n]]
  {
    assert log[..n + 1] == log[..n] + [log[n]];
    LastOfMore(log[..n], k, log[n]);
  }

  /** The appended line is the next entry of the log. */
  lemma AppendEndsNext(file: seq<Line>, log: seq<Entry>, n: nat)
    requires EndsAt(file, log, n) && n < |log|
    ensures EndsAt(file + [Good(log[n])], log, n + 1)
  {
    LastOfPrefix(log, n, |file|);
    LinesSnoc(Last(log[..n], |file|), log[n]);
  }

  lemma PopKeepsQueue(s: State, s': State)
    requires QueueOk(s) && s.queue != [] && s'.queue == s.queue[1..] && s'.written == s.written + 1
    requires s'.log == s.log && s'.base == s.base
    ensures QueueOk(s')
  {
    forall i | 0 <= i < |s'.queue| ensures JobOk(s'.base, s'.log, s'.queue[i], s'.written + i) {
      assert JobOk(s.base, s.log, s.queue[i + 1], s.written + (i + 1));
    }
  }

  lemma AppendQueue(s: State)
    requires QueueOk(s) && Enabled(s, Append)
    ensures QueueOk(AppendStep(s))
  {
    var s' := AppendStep(s);
    if !s'.compacting {
      PopKeepsQueue(s, s');
    }
  }

  lemma AppendCounts(s: State)
    requires FileOk(s) && Enabled(s, Append) && s.written < |s.log| && s.queue[0].entry == s.log[s.written]
    ensures var s' := AppendStep(s);
      && s'.file == File(s.file.lines + [Good(s.log[s.written])], Blank) && s'.lineCount == s.lineCount + 1
      && Appended(s') == s.written + 1 && s'.log == s.log && s'.base == s.base
      && (s'.compacting <==> s.lineCount + 1 > 2 * MAX_ENTRIES) && (s'.compacting ==> s'.queue == s.queue)
  {
  }

  lemma AppendFileOk(s: State)
    requires FileOk(s) && Enabled(s, Append) && s.written < |s.log| && s.queue[0].entry == s.log[s.written]
    ensures FileOk(AppendStep(s))
  {
    AppendCounts(s);
    AppendEndsNext(s.file.lines, s.log, s.written);
  }

  lemma AppendKeeps(s: State)
    requires Inv(s) && Enabled(s, Append)
    ensures Inv(AppendStep(s))
  {
    if !s.failed {
      assert JobOk(s.base, s.log, s.queue[0], s.written + 0);
      AppendFileOk(s);
      AppendQueue(s);
    }
  }

  lemma ReplaceKeeps(s: State)
    requires Inv(s) && Enabled(s, Replace)
    ensures Inv(ReplaceStep(s))
  {
    if !s.failed {
      assert JobOk(s.base, s.log, s.queue[0], s.written + 0);
      PopKeepsQueue(s, ReplaceStep(s));
    }
  }

  lemma {:induction false} RunInv(s: State, events: seq<Event>)
    requires Inv(s) && Runs(s, events)
    ensures Inv(After(s, events))
    decreases |events|
  {
    if events != [] {
      match events[0] {
        case Record(entry) => RecordKeeps(s, entry);
        case Append => AppendKeeps(s);
        case Replace => ReplaceKeeps(s);
        case WriteFails =>
      }
      RunInv(Apply(s, events[0]), events[1..]);
    }
  }

  // ----- theorems over every run -----

  /**
   * While no write has failed, after every completed write the file has at most 800 lines and ends with the last
   * 400 entries written, in order, however compactions and later records interleave.
   */
  lemma FileIsEndOfLog(found: seq<Entry>, events: seq<Event>)
    requires Runs(Started(WellFormed(found)), events)
    ensures var s := After(Started(WellFormed(found)), events);
      !s.failed && !s.compacting && s.written > |found| ==>
        && s.log == found + Recorded(events)
        && s.written <= |s.log| && |s.file.lines| <= 2 * MAX_ENTRIES && s.file.rest == Blank
        && Last(s.file.lines, MAX_ENTRIES) == Lines(Last(s.log[..s.written], MAX_ENTRIES))
  {
    var start := Started(WellFormed(found));
    StartedInv(found);
    RunInv(start, events);
    LogIsRecorded(start, events);
    var s := After(start, events);
    if !s.failed && !s.compacting {
      FileEnds(s);
    }
  }

  lemma FileEnds(s: State)
    requires Inv(s) && !s.failed && !s.compacting
    ensures Last(s.file.lines, MAX_ENTRIES) == Lines(Last(s.log[..s.written], MAX_ENTRIES))
  {
    var n := s.log[..s.written];
    assert Last(s.file.lines, MAX_ENTRIES) == Lines(Last(Last(n, |s.file.lines|), MAX_ENTRIES));
    if |s.file.lines| >= MAX_ENTRIES {
      LastOfLast(n, MAX_ENTRIES, |s.file.lines|);
    }
  }

  function Recorded(events: seq<Event>): seq<Entry> {
    if events == [] then []
    else (if events[0].Record? then [events[0].entry] else []) + Recorded(events[1..])
  }

  lemma {:induction false} LogIsRecorded(s: State, events: seq<Event>)
    requires Runs(s, events)
    ensures After(s, events).base == s.base && After(s, events).log == s.log + Recorded(events)
    decreases |events|
  {
    if events == [] {
      assert s.log + [] == s.log;
    } else {
      LogIsRecorded(Apply(s, events[0]), events[1..]);
      Regroup(s.log, if events[0].Record? then [events[0].entry] else [], Recorded(events[1..]));
    }
  }

  lemma Regroup(a: seq<Entry>, b: seq<Entry>, c: seq<Entry>)
    ensures a + (b + c) == a + b + c && a + [] == a
  {
  }

  lemma ReloadReadsAppended(s: State)
    requires Inv(s) && !s.failed
    ensures Load(s.file) == Last(s.log[..Appended(s)], MAX_ENTRIES - 1)
  {
    var appended := s.log[..Appended(s)];
    LoadIsLast(Last(appended, |s.file.lines|));
    if |s.file.lines| >= MAX_ENTRIES {
      LastOfLast(appended, MAX_ENTRIES - 1, |s.file.lines|);
    }
  }

  /**
   * A crash at any moment, whatever writes are queued or under way, loses only what was not appended yet: a reload
   * brings back the last 399 of the entries that were.
   */
  lemma ReloadAtAnyMoment(found: seq<Entry>, events: seq<Event>)
    requires Runs(Started(WellFormed(found)), events) && !After(Started(WellFormed(found)), events).failed
    ensures var s := After(Started(WellFormed(found)), events);
      && |found| <= Appended(s) <= |found + Recorded(events)|
      && Load(s.file) == Last((found + Recorded(events))[..Appended(s)], MAX_ENTRIES - 1)
  {
    StartedInv(found);
    RunInv(Started(WellFormed(found)), events);
    LogIsRecorded(Started(WellFormed(found)), events);
    ReloadReadsAppended(After(Started(WellFormed(found)), events));
  }

  /** Once all writes are done, a restart brings the list back, less its oldest entry if it was full. */
  lemma ReloadKeepsAllButOne(s: State)
    requires Inv(s) && !s.failed && s.queue == []
    ensures Load(s.file) == if |s.entries| < MAX_ENTRIES then s.entries else s.entries[1..]
  {
    ReloadReadsAppended(s);
    SnapshotOfAll(s.base, s.log);
    assert s.log[..|s.log|] == s.log;
  }

  lemma LastThenMore(items: seq<Entry>, more: seq<Entry>, n: nat)
    ensures Last(Last(items, n) + more, n) == Last(items + more, n)
  {
  }

  lemma {:induction false} MemoryRuns(s: State, events: seq<Event>)
    requires Runs(s, events) && |s.entries| <= MAX_ENTRIES
    ensures After(s, events).entries == Last(s.entries + Recorded(events), MAX_ENTRIES)
    decreases |events|
  {
    if events == [] {
      assert s.entries + [] == s.entries;
    } else {
      var s' := Apply(s, events[0]);
      var first := if events[0].Record? then [events[0].entry] else [];
      assert s'.entries == Last(s.entries + first, MAX_ENTRIES) by {
        Regroup(s.entries, first, []);
      }
      MemoryRuns(s', events[1..]);
      LastThenMore(s.entries + first, Recorded(events[1..]), MAX_ENTRIES);
      Regroup(s.entries, first, Recorded(events[1..]));
    }
  }

  /**
   * Whatever the file was and whichever writes fail, the list in memory is exactly the last 400 of the entries that
   * were loaded and those recorded since, in order.
   */
  lemma MemorySurvivesFailures(file: File, events: seq<Event>)
    requires Runs(Started(file), events)
    ensures After(Started(file), events).entries == Last(Load(file) + Recorded(events), MAX_ENTRIES)
  {
    LoadIsBounded(Last(Split(file), MAX_ENTRIES));
    MemoryRuns(Started(file), events);
  }

  lemma {:induction false} LoadIsBounded(lines: seq<Line>)
    ensures |Entries(lines)| <= |lines|
  {
    if lines != [] {
      LoadIsBounded(lines[..|lines| - 1]);
    }
  }

  // ----- the program -----

  class ControlPanelAuditLog {
    var file: File
    var persistedLineCount: nat
    var entries: seq<Entry>
    var writeQueue: seq<Job>
    var compacting: bool
    ghost var base: nat
    ghost var log: seq<Entry>
    ghost var written: nat
    ghost var failed: bool

    ghost function Now(): State
      reads this
    {
      State(file, persistedLineCount, entries, writeQueue, compacting, base, log, written, failed)
    }

    /** A new process on any file: blank lines and lines that are no JSON, a partial last one included, are skipped. */
    constructor (onDisk: File)
      ensures Now() == Started(onDisk)
    {
      var lines := Split(onDisk);
      file, writeQueue, compacting := onDisk, [], false;
      base, log, written, failed := |Entries(lines)|, Entries(lines), |Entries(lines)|, false;
      var count := CountLines(lines);
      var loaded := ReadEntries(Last(lines, MAX_ENTRIES));
      persistedLineCount, entries := count, loaded;
    }

    static method CountLines(lines: seq<Line>) returns (count: nat)
      ensures count == NonBlank(lines)
    {
      count := 0;
      for i := 0 to |lines|
        invariant count == NonBlank(lines[..i])
      {
        assert lines[..i + 1][..i] == lines[..i];
        count := if lines[i].Blank? then count else count + 1;
      }
      assert lines[..|lines|] == lines;
    }

    static method ReadEntries(lines: seq<Line>) returns (loaded: seq<Entry>)
      ensures loaded == Entries(lines)
    {
      loaded := [];
      for i := 0 to |lines|
        invariant loaded == Entries(lines[..i])
      {
        assert lines[..i + 1][..i] == lines[..i];
        if lines[i].Good? {
          loaded := loaded + [lines[i].entry];
        }
      }
      assert lines[..|lines|] == lines;
    }

    method RecordEntry(entry: Entry)
      modifies this
      ensures Now() == Apply(old(Now()), Record(entry))
    {
      entries := entries + [entry];
      if |entries| > MAX_ENTRIES {
        entries := entries[1..];
      }
      writeQueue := writeQueue + [Job(entry, entries)];
      log := log + [entry];
    }

    /** The oldest write appends its entry; it is over unless the file has grown too long. */
    method AppendLine()
      requires Enabled(Now(), Append)
      modifies this
      ensures Now() == Apply(old(Now()), Append)
    {
      file := AppendTo(file, writeQueue[0].entry);
      persistedLineCount := persistedLineCount + 1;
      if persistedLineCount > 2 * MAX_ENTRIES {
        compacting := true;
      } else {
        writeQueue := writeQueue[1..];
        written := written + 1;
      }
    }

    /** The compacted file replaces the old one. */
    method ReplaceFile()
      requires Enabled(Now(), Replace)
      modifies this
      ensures Now() == Apply(old(Now()), Replace)
    {
      var snapshot := writeQueue[0].snapshot;
      file, persistedLineCount := WellFormed(snapshot), |snapshot|;
      writeQueue, compacting, written := writeQueue[1..], false, written + 1;
    }
  }
}
