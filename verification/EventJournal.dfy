/** The event bus of src/herder-events.ts as bytes on a disk and fields in a process. */
module EventJournal {
  // The disk holds an atomically replaced snapshot and an append-only journal.  A flush may stop after
  // any byte, a compaction may stop between any two of its steps, and the process may restart at any
  // point.  The reference definition is `Ideal`: what the bus should know after a plain list of events.

  import opened Common

  type byte = x: int | 0 <= x < 256

  /** A sequence number that is about to be given out. */
  type Count1 = x: int | 1 <= x witness 1

  const NEWLINE: byte := 10
  const MAX_SAFE_INTEGER: int := 0x1F_FFFF_FFFF_FFFF
  const COMPACT_BYTES: nat := 8 * 1024 * 1024

  /** What a publisher supplies; `body` stands for the fields the journal copies without reading. */
  datatype Draft = Draft(uri: string, body: string)

  /** An event as it stands in memory or in a parsed row. */
  datatype Event = Event(draft: Draft, sequence: int, revision: int)

  datatype Snapshot = Snapshot(latestSequence: nat, revisions: map<string, nat>, events: seq<Event>)

  datatype Disk = Disk(snapshot: Option<Snapshot>, journal: seq<byte>)

  datatype Memory = Memory(
    events: seq<Event>, revisions: map<string, nat>, pending: seq<Event>,
    nextSequence: Count1, needsSeparator: bool, journalBytes: nat)

  // ---------------------------------------------------------------------------------------------
  // Row text
  // ---------------------------------------------------------------------------------------------

  /** JSON.stringify of an event and JSON.parse of a row; a row that does not parse gives None. */
  datatype Codec = Codec(encode: Event -> seq<byte>, decode: seq<byte> -> Option<Event>)

  /** What RFC 8259 gives: an object text is nonempty and parses back, holds no raw newline
      (section 7), and no proper prefix of it is a JSON text (section 4). */
  ghost predicate JsonLaws(c: Codec) {
    && (forall e :: c.decode(c.encode(e)) == Some(e))
    && (forall e :: c.encode(e) != [] && NEWLINE !in c.encode(e))
    && (forall e, k :: 0 <= k < |c.encode(e)| ==> c.decode(c.encode(e)[..k]) == None)
  }

  /** `contents.split("\n")` */
  function Lines(s: seq<byte>): (r: seq<seq<byte>>)
    ensures r != []
  {
    if s == [] then [[]]
    else
      var rest := Lines(s[1..]);
      if s[0] == NEWLINE then [[]] + rest else [[s[0]] + rest[0]] + rest[1..]
  }

  /** The events of the nonempty lines that parse, in order. */
  function Parsed(c: Codec, lines: seq<seq<byte>>): seq<Event> {
    if lines == [] then []
    else
      var rest := Parsed(c, lines[1..]);
      if lines[0] == [] then rest
      else match c.decode(lines[0])
        case None => rest
        case Some(e) => [e] + rest
  }

  function Rows(c: Codec, contents: seq<byte>): seq<Event> {
    Parsed(c, Lines(contents))
  }

  predicate Terminated(contents: seq<byte>) {
    contents == [] || contents[|contents| - 1] == NEWLINE
  }

  /** One row per event, each closed by a newline: `map(stringify).join("\n") + "\n"` of a nonempty list. */
  function RowText(c: Codec, events: seq<Event>): seq<byte> {
    if events == [] then [] else c.encode(events[0]) + [NEWLINE] + RowText(c, events[1..])
  }

  function Payload(c: Codec, m: Memory): seq<byte> {
    (if m.needsSeparator then [NEWLINE] else []) + RowText(c, m.pending)
  }

  lemma LinesOfPlain(a: seq<byte>)
    requires NEWLINE !in a
    ensures Lines(a) == [a]
  {
    if a != [] {
      LinesOfPlain(a[1..]);
      assert [a[0]] + a[1..] == a;
    }
  }

  lemma {:induction false} LinesSplit(a: seq<byte>, b: seq<byte>)
    ensures Lines(a + [NEWLINE] + b) == Lines(a) + Lines(b)
  {
    var whole := a + [NEWLINE] + b;
    if a == [] {
      assert whole[0] == NEWLINE && whole[1..] == b;
    } else {
      assert whole[0] == a[0] && whole[1..] == a[1..] + [NEWLINE] + b;
      LinesSplit(a[1..], b);
      LinesCons(a[0], Lines(a[1..]), Lines(b));
    }
  }

  /** Prefixing a character to the first line does not touch the lines after it. */
  lemma LinesCons(x: byte, first: seq<seq<byte>>, second: seq<seq<byte>>)
    requires first != []
    ensures [[x] + (first + second)[0]] + (first + second)[1..] == ([[x] + first[0]] + first[1..]) + second
    ensures [[]] + (first + second) == ([[]] + first) + second
  {
    assert (first + second)[1..] == first[1..] + second;
  }

  lemma {:induction false} ParsedAppend(c: Codec, a: seq<seq<byte>>, b: seq<seq<byte>>)
    ensures Parsed(c, a + b) == Parsed(c, a) + Parsed(c, b)
  {
    if a == [] {
      assert a + b == b;
    } else {
      assert (a + b)[1..] == a[1..] + b;
      ParsedAppend(c, a[1..], b);
    }
  }

  lemma ParsedOne(c: Codec, line: seq<byte>)
    ensures Parsed(c, [line]) == if line == [] then [] else match c.decode(line) case None => [] case Some(e) => [e]
  {
    var lines := [line];
    assert lines[1..] == [] && Parsed(c, lines[1..]) == [];
    assert Parsed(c, lines) == if lines[0] == [] then [] else match c.decode(lines[0]) case None => [] case Some(e) => [e] + [];
  }

  /** A stretch without a newline is one line. */
  lemma RowsOfPlain(c: Codec, line: seq<byte>)
    requires NEWLINE !in line
    ensures Rows(c, line) == if line == [] then [] else match c.decode(line) case None => [] case Some(e) => [e]
  {
    LinesOfPlain(line);
    ParsedOne(c, line);
  }

  /** A newline between two stretches of bytes keeps their rows apart, whatever the first one ends with. */
  lemma RowsSeparated(c: Codec, a: seq<byte>, b: seq<byte>)
    ensures Rows(c, a + [NEWLINE] + b) == Rows(c, a) + Rows(c, b)
  {
    LinesSplit(a, b);
    ParsedAppend(c, Lines(a), Lines(b));
  }

  lemma RowsAfterTerminated(c: Codec, a: seq<byte>, b: seq<byte>)
    requires Terminated(a)
    ensures Rows(c, a + b) == Rows(c, a) + Rows(c, b)
  {
    if a == [] {
      assert a + b == b;
      RowsOfPlain(c, []);
    } else {
      var head := a[..|a| - 1];
      assert a == head + [NEWLINE] + [];
      assert a + b == head + [NEWLINE] + b;
      RowsSeparated(c, head, b);
      RowsSeparated(c, head, []);
      RowsOfPlain(c, []);
      assert Rows(c, a) == Rows(c, head);
    }
  }

  /** However a write of rows is cut, what parses is a prefix of those rows; uncut, all of them. */
  lemma {:induction false} TornRows(c: Codec, events: seq<Event>, k: nat) returns (j: nat)
    requires JsonLaws(c)
    requires k <= |RowText(c, events)|
    ensures j <= |events| && Rows(c, RowText(c, events)[..k]) == events[..j]
    ensures k == |RowText(c, events)| ==> j == |events|
    ensures k == 0 ==> j == 0
  {
    var text := RowText(c, events);
    if events == [] || k == 0 {
      assert text[..k] == [];
      RowsOfPlain(c, []);
      return 0;
    }
    var row := c.encode(events[0]);
    if k <= |row| {
      assert text[..k] == row[..k];
      RowsOfPlain(c, row[..k]);
      if k == |row| {
        assert row[..k] == row;
        return 1;
      }
      return 0;
    }
    var rest := RowText(c, events[1..]);
    assert text[..k] == row + [NEWLINE] + rest[..k - |row| - 1];
    var i := TornRows(c, events[1..], k - |row| - 1);
    RowsSeparated(c, row, rest[..k - |row| - 1]);
    RowsOfPlain(c, row);
    assert [events[0]] + events[1..][..i] == events[..i + 1];
    return i + 1;
  }

  // ---------------------------------------------------------------------------------------------
  // The bus, one step at a time
  // ---------------------------------------------------------------------------------------------

  function RevisionOf(revisions: map<string, nat>, uri: string): nat {
    if uri in revisions then revisions[uri] else 0
  }

  function Publish(max: nat, m: Memory, d: Draft): Memory {
    var revision := RevisionOf(m.revisions, d.uri) + 1;
    var event := Event(d, m.nextSequence, revision);
    m.(events := Last(max, m.events + [event]), revisions := m.revisions[d.uri := revision],
       pending := m.pending + [event], nextSequence := m.nextSequence + 1)
  }

  /** The largest of `base` and the sequences of `events`. */
  function MaxSequence(base: int, events: seq<Event>): (r: int)
    ensures base <= r
  {
    if events == [] then base else Max(MaxSequence(base, events[..|events| - 1]), events[|events| - 1].sequence)
  }

  lemma {:induction false} MaxSequenceAt(base: int, events: seq<Event>, i: nat)
    requires i < |events|
    ensures events[i].sequence <= MaxSequence(base, events)
  {
    if i < |events| - 1 { MaxSequenceAt(base, events[..|events| - 1], i); }
  }

  datatype Replayed = Replayed(events: seq<Event>, revisions: map<string, nat>, sequence: int)

  predicate Acceptable(e: Event, sequence: int) {
    && sequence < e.sequence <= MAX_SAFE_INTEGER
    && 1 <= e.revision <= MAX_SAFE_INTEGER
    && e.draft.uri != ""
  }

  function ReplayRow(r: Replayed, e: Event): Replayed {
    if Acceptable(e, r.sequence) then
      Replayed(r.events + [e], r.revisions[e.draft.uri := Max(RevisionOf(r.revisions, e.draft.uri), e.revision)], e.sequence)
    else r
  }

  function Replay(r: Replayed, rows: seq<Event>): Replayed {
    if rows == [] then r else ReplayRow(Replay(r, rows[..|rows| - 1]), rows[|rows| - 1])
  }

  lemma ReplayOne(r: Replayed, rows: seq<Event>, e: Event)
    ensures Replay(r, rows + [e]) == ReplayRow(Replay(r, rows), e)
  {
    assert (rows + [e])[..|rows|] == rows;
  }

  /** One turn of the replay loop. */
  lemma ReplayLine(c: Codec, r: Replayed, lines: seq<seq<byte>>, i: nat)
    requires i < |lines|
    ensures var before := Replay(r, Parsed(c, lines[..i]));
      Replay(r, Parsed(c, lines[..i + 1])) ==
        if lines[i] == [] then before else match c.decode(lines[i]) case None => before case Some(e) => ReplayRow(before, e)
  {
    var rows := Parsed(c, lines[..i]);
    assert lines[..i + 1] == lines[..i] + [lines[i]];
    ParsedAppend(c, lines[..i], [lines[i]]);
    ParsedOne(c, lines[i]);
    assert rows + [] == rows;
    if lines[i] != [] && c.decode(lines[i]).Some? { ReplayOne(r, rows, c.decode(lines[i]).value); }
  }

  function LoadSnapshot(max: nat, snapshot: Option<Snapshot>): Replayed {
    match snapshot
    case None => Replayed([], map[], 0)
    case Some(s) => Replayed(Last(max, s.events), s.revisions, MaxSequence(s.latestSequence, Last(max, s.events)))
  }

  function Restore(c: Codec, max: nat, d: Disk): Memory {
    var r := Replay(LoadSnapshot(max, d.snapshot), Rows(c, d.journal));
    Memory(Last(max, r.events), r.revisions, [], Max(0, r.sequence) + 1, !Terminated(d.journal), |d.journal|)
  }

  /** Where a compaction stopped. `AfterTruncate` is an error between the truncation and the bookkeeping. */
  datatype CompactCut = BeforeRename | BeforeTruncate | AfterTruncate | Finished

  /** How a flush ended: complete, or stopped with `written` bytes of the payload on the disk. */
  datatype FlushOutcome = Flushed(cut: CompactCut) | Stopped(written: nat)

  function Compact(m: Memory, d: Disk, cut: CompactCut): (Memory, Disk) {
    var renamed := Some(Snapshot(m.nextSequence - 1, m.revisions, m.events));
    match cut
    case BeforeRename => (m, d)
    case BeforeTruncate => (m, d.(snapshot := renamed))
    case AfterTruncate => (m, Disk(renamed, []))
    case Finished => (m.(journalBytes := 0, needsSeparator := false), Disk(renamed, []))
  }

  function CompactIfLarge(m: Memory, d: Disk, cut: CompactCut): (Memory, Disk) {
    if m.journalBytes >= COMPACT_BYTES then Compact(m, d, cut) else (m, d)
  }

  function Persist(c: Codec, m: Memory, d: Disk, outcome: FlushOutcome): (Memory, Disk) {
    if m.pending == [] then
      match outcome
      case Flushed(cut) => CompactIfLarge(m, d, cut)
      case Stopped(_) => (m, d)
    else
      var payload := Payload(c, m);
      match outcome
      case Stopped(written) =>
        (m.(needsSeparator := true), d.(journal := d.journal + payload[..Min(written, |payload|)]))
      case Flushed(cut) =>
        var journal := d.journal + payload;
        CompactIfLarge(m.(journalBytes := |journal|, needsSeparator := false, pending := []), d.(journal := journal), cut)
  }

  // ---------------------------------------------------------------------------------------------
  // Runs and the ideal history
  // ---------------------------------------------------------------------------------------------

  /** The bus with the history it stands for: every event published since the last restart kept it,
      and how many of them a completed flush has acknowledged. */
  datatype World = World(mem: Memory, disk: Disk, history: seq<Event>, acknowledged: nat)

  datatype Action = DoPublish(draft: Draft) | DoPersist(outcome: FlushOutcome) | DoRestart

  function Step(c: Codec, max: nat, w: World, a: Action): World {
    match a
    case DoPublish(d) =>
      var m := Publish(max, w.mem, d);
      w.(mem := m, history := w.history + [Event(d, w.mem.nextSequence, m.revisions[d.uri])])
    case DoPersist(outcome) =>
      var (m, d) := Persist(c, w.mem, w.disk, outcome);
      w.(mem := m, disk := d, acknowledged := if outcome.Flushed? then |w.history| else w.acknowledged)
    case DoRestart =>
      var m := Restore(c, max, w.disk);
      var kept := Min(m.nextSequence - 1, |w.history|);
      World(m, w.disk, w.history[..kept], kept)
  }

  function Run(c: Codec, max: nat, actions: seq<Action>): World
  {
    if actions == [] then
      var disk := Disk(None, []);
      World(Restore(c, max, disk), disk, [], 0)
    else Step(c, max, Run(c, max, actions[..|actions| - 1]), actions[|actions| - 1])
  }

  /** How often each uri occurs. */
  function Counts(history: seq<Event>): map<string, nat> {
    if history == [] then map[]
    else
      var before := Counts(history[..|history| - 1]);
      var uri := history[|history| - 1].draft.uri;
      before[uri := RevisionOf(before, uri) + 1]
  }

  /** A history is numbered from 1 without gaps, and a revision is the count of its uri so far. */
  predicate Numbered(history: seq<Event>) {
    forall i :: 0 <= i < |history| ==> NumberedAt(history, i)
  }

  predicate NumberedAt(history: seq<Event>, i: nat)
    requires i < |history|
  {
    && history[i].sequence == i + 1
    && history[i].revision == RevisionOf(Counts(history[..i]), history[i].draft.uri) + 1
    && history[i].draft.uri != ""
  }

  /** What a bus that loses nothing knows after `history`. */
  predicate Ideal(m: Memory, max: nat, history: seq<Event>) {
    && m.events == Last(max, history)
    && m.revisions == Counts(history)
    && m.nextSequence == |history| + 1
  }

  function SnapshotSequence(d: Disk): nat {
    match d.snapshot case None => 0 case Some(s) => s.latestSequence
  }

  /** Every row copies an event of the history, and no row is further ahead than the next missing event. */
  predicate RowsFit(base: nat, rows: seq<Event>, history: seq<Event>) {
    forall i :: 0 <= i < |rows| ==> RowFits(base, rows, history, i)
  }

  predicate RowFits(base: nat, rows: seq<Event>, history: seq<Event>, i: nat)
    requires i < |rows|
  {
    && 1 <= rows[i].sequence <= |history|
    && rows[i] == history[rows[i].sequence - 1]
    && rows[i].sequence <= MaxSequence(base, rows[..i]) + 1
  }

  predicate SnapshotFits(d: Disk, max: nat, history: seq<Event>) {
    match d.snapshot
    case None => true
    case Some(s) => s.latestSequence <= |history| && s.events == Last(max, history[..s.latestSequence])
                    && s.revisions == Counts(history[..s.latestSequence])
  }

  ghost predicate Inv(c: Codec, max: nat, w: World) {
    && Numbered(w.history)
    && |w.history| <= MAX_SAFE_INTEGER
    && Ideal(w.mem, max, w.history)
    && w.acknowledged <= |w.history|
    && w.mem.pending == w.history[w.acknowledged..]
    && (!Terminated(w.disk.journal) ==> w.mem.needsSeparator)
    && DiskFits(c, max, w.disk, w.history, w.acknowledged)
  }

  /** The disk describes a prefix of the history that covers the acknowledged part. */
  ghost predicate DiskFits(c: Codec, max: nat, d: Disk, history: seq<Event>, acknowledged: nat) {
    && SnapshotFits(d, max, history)
    && RowsFit(SnapshotSequence(d), Rows(c, d.journal), history)
    && acknowledged <= Durable(c, d)
  }

  /** The number of events a restart will find. */
  function Durable(c: Codec, d: Disk): int {
    MaxSequence(SnapshotSequence(d), Rows(c, d.journal))
  }

  // ---------------------------------------------------------------------------------------------
  // Every step keeps the invariant
  // ---------------------------------------------------------------------------------------------

  lemma {:induction false} MaxSequenceAppend(base: int, a: seq<Event>, b: seq<Event>)
    ensures MaxSequence(base, a + b) == MaxSequence(MaxSequence(base, a), b)
  {
    if b == [] {
      assert a + b == a;
    } else {
      assert (a + b)[..|a + b| - 1] == a + b[..|b| - 1];
      MaxSequenceAppend(base, a, b[..|b| - 1]);
    }
  }

  lemma NumberedPrefix(history: seq<Event>, k: nat)
    requires Numbered(history) && k <= |history|
    ensures Numbered(history[..k])
  {
    forall i | 0 <= i < k ensures NumberedAt(history[..k], i) {
      assert NumberedAt(history, i);
      assert history[..k][..i] == history[..i];
    }
  }

  lemma NumberedGrows(history: seq<Event>, e: Event)
    requires Numbered(history)
    requires e.sequence == |history| + 1 && e.draft.uri != ""
    requires e.revision == RevisionOf(Counts(history), e.draft.uri) + 1
    ensures Numbered(history + [e])
  {
    var grown := history + [e];
    forall i | 0 <= i < |grown| ensures NumberedAt(grown, i) {
      assert grown[..i] == history[..i];
      if i < |history| {
        assert NumberedAt(history, i);
      } else {
        assert history[..i] == history;
      }
    }
  }

  /** The part of a longer row list that was there before still fits, against a longer base or history. */
  lemma RowsFitAppend(base: nat, rows: seq<Event>, history: seq<Event>, from: nat, to: nat)
    requires RowsFit(base, rows, history) && Numbered(history)
    requires from <= to <= |history| && from <= MaxSequence(base, rows)
    ensures RowsFit(base, rows + history[from..to], history)
    ensures MaxSequence(base, rows + history[from..to]) >= Max(to, MaxSequence(base, rows))
  {
    var all := rows + history[from..to];
    MaxSequenceAppend(base, rows, history[from..to]);
    if from < to {
      assert NumberedAt(history, to - 1);
      MaxSequenceAt(MaxSequence(base, rows), history[from..to], to - 1 - from);
    }
    forall i | 0 <= i < |all| ensures RowFits(base, all, history, i) {
      if i < |rows| {
        assert RowFits(base, rows, history, i);
        assert all[..i] == rows[..i];
      } else {
        ContinuedRowFits(base, rows, history, from, to, i);
      }
    }
  }

  lemma ContinuedRowFits(base: nat, rows: seq<Event>, history: seq<Event>, from: nat, to: nat, i: nat)
    requires Numbered(history)
    requires from <= to <= |history| && from <= MaxSequence(base, rows)
    requires |rows| <= i < |rows| + to - from
    ensures RowFits(base, rows + history[from..to], history, i)
  {
    var all, j := rows + history[from..to], from + i - |rows|;
    assert all[i] == history[j];
    assert NumberedAt(history, j);
    assert all[..i] == rows + history[from..j];
    MaxSequenceAppend(base, rows, history[from..j]);
    if from < j {
      assert NumberedAt(history, j - 1);
      MaxSequenceAt(MaxSequence(base, rows), history[from..j], j - 1 - from);
    }
  }

  lemma RowsFitGrows(base: nat, rows: seq<Event>, history: seq<Event>, e: Event)
    requires RowsFit(base, rows, history)
    ensures RowsFit(base, rows, history + [e])
  {
    forall i | 0 <= i < |rows| ensures RowFits(base, rows, history + [e], i) {
      assert RowFits(base, rows, history, i);
    }
  }

  /** Raising the snapshot to the end of the history leaves only rows it already covers. */
  lemma RowsFitRebased(base: nat, rows: seq<Event>, history: seq<Event>)
    requires RowsFit(base, rows, history)
    ensures RowsFit(|history|, rows, history)
    ensures MaxSequence(|history|, rows) == |history|
  {
    forall i | 0 <= i < |rows| ensures RowFits(|history|, rows, history, i) {
      assert RowFits(base, rows, history, i);
    }
    forall i | 0 <= i < |rows| ensures rows[i].sequence <= |history| {
      assert RowFits(base, rows, history, i);
    }
    MaxSequenceBounded(|history|, rows, |history|);
  }

  lemma CountsGrow(history: seq<Event>, e: Event)
    ensures Counts(history + [e]) == Counts(history)[e.draft.uri := RevisionOf(Counts(history), e.draft.uri) + 1]
  {
    assert (history + [e])[..|history|] == history;
  }

  lemma PublishLeaves(max: nat, m: Memory, d: Draft)
    ensures var m' := Publish(max, m, d);
      var e := Event(d, m.nextSequence, RevisionOf(m.revisions, d.uri) + 1);
      && m'.events == Last(max, m.events + [e]) && m'.revisions == m.revisions[d.uri := e.revision]
      && m'.pending == m.pending + [e] && m'.nextSequence == m.nextSequence + 1
  {
  }

  lemma IdealGrows(max: nat, m: Memory, m': Memory, history: seq<Event>, e: Event)
    requires Ideal(m, max, history)
    requires m'.events == Last(max, m.events + [e]) && m'.nextSequence == m.nextSequence + 1
    requires m'.revisions == m.revisions[e.draft.uri := RevisionOf(m.revisions, e.draft.uri) + 1]
    ensures Ideal(m', max, history + [e])
  {
    CountsGrow(history, e);
    LastAppend(max, history, [e]);
  }

  lemma PublishKeepsIdeal(max: nat, m: Memory, d: Draft, history: seq<Event>)
    requires Ideal(m, max, history)
    ensures var m' := Publish(max, m, d);
      var e := Event(d, m.nextSequence, m'.revisions[d.uri]);
      Ideal(m', max, history + [e]) && m'.pending == m.pending + [e]
  {
    PublishLeaves(max, m, d);
    IdealGrows(max, m, Publish(max, m, d), history, Event(d, m.nextSequence, RevisionOf(m.revisions, d.uri) + 1));
  }

  lemma PublishKeepsInv(c: Codec, max: nat, w: World, d: Draft)
    requires Inv(c, max, w) && d.uri != "" && |w.history| < MAX_SAFE_INTEGER
    ensures Inv(c, max, Step(c, max, w, DoPublish(d)))
  {
    var e := Event(d, w.mem.nextSequence, Publish(max, w.mem, d).revisions[d.uri]);
    PublishKeepsIdeal(max, w.mem, d, w.history);
    NumberedGrows(w.history, e);
    RowsFitGrows(SnapshotSequence(w.disk), Rows(c, w.disk.journal), w.history, e);
    SnapshotFitsGrows(w.disk, max, w.history, [e]);
    assert w.history[w.acknowledged..] + [e] == (w.history + [e])[w.acknowledged..];
  }

  lemma SnapshotFitsGrows(d: Disk, max: nat, history: seq<Event>, more: seq<Event>)
    requires SnapshotFits(d, max, history)
    ensures SnapshotFits(d, max, history + more)
  {
    if d.snapshot.Some? {
      var latest := d.snapshot.value.latestSequence;
      assert (history + more)[..latest] == history[..latest];
    }
  }

  lemma SnapshotFitsCut(d: Disk, max: nat, history: seq<Event>, n: nat)
    requires SnapshotFits(d, max, history) && SnapshotSequence(d) <= n <= |history|
    ensures SnapshotFits(d, max, history[..n])
  {
    if d.snapshot.Some? {
      var latest := d.snapshot.value.latestSequence;
      assert history[..n][..latest] == history[..latest];
    }
  }

  /** A compaction, however far it gets, leaves a disk that still fits the same history. */
  lemma CompactKeepsInv(c: Codec, max: nat, w: World, cut: CompactCut)
    requires Inv(c, max, w) && w.mem.pending == []
    ensures var (m, d) := Compact(w.mem, w.disk, cut); Inv(c, max, w.(mem := m, disk := d))
  {
    assert w.history[..|w.history|] == w.history;
    if !cut.BeforeRename? {
      RowsFitRebased(SnapshotSequence(w.disk), Rows(c, w.disk.journal), w.history);
      RowsOfPlain(c, []);
    }
  }

  /** A flush that stops anywhere adds a prefix of the pending rows; only a complete one adds them all. */
  lemma AppendTorn(c: Codec, journal: seq<byte>, m: Memory, written: nat) returns (j: nat)
    requires JsonLaws(c) && (!Terminated(journal) ==> m.needsSeparator)
    requires written <= |Payload(c, m)|
    ensures j <= |m.pending|
    ensures Rows(c, journal + Payload(c, m)[..written]) == Rows(c, journal) + m.pending[..j]
    ensures written == |Payload(c, m)| ==> j == |m.pending|
  {
    var text := RowText(c, m.pending);
    if m.needsSeparator {
      if written == 0 {
        assert journal + Payload(c, m)[..0] == journal;
        assert Rows(c, journal) + m.pending[..0] == Rows(c, journal);
        return 0;
      }
      j := TornRows(c, m.pending, written - 1);
      assert journal + Payload(c, m)[..written] == journal + [NEWLINE] + text[..written - 1];
      RowsSeparated(c, journal, text[..written - 1]);
    } else {
      j := TornRows(c, m.pending, written);
      assert Payload(c, m) == text;
      RowsAfterTerminated(c, journal, text[..written]);
    }
  }

  lemma {:induction false} RowTextTerminated(c: Codec, events: seq<Event>)
    requires events != []
    ensures RowText(c, events) != [] && Terminated(RowText(c, events))
  {
    if |events| == 1 {
      assert RowText(c, events[1..]) == [];
    } else {
      RowTextTerminated(c, events[1..]);
    }
  }

  lemma FlushedRows(c: Codec, journal: seq<byte>, m: Memory)
    requires JsonLaws(c) && (!Terminated(journal) ==> m.needsSeparator) && m.pending != []
    ensures Terminated(journal + Payload(c, m))
    ensures Rows(c, journal + Payload(c, m)) == Rows(c, journal) + m.pending
  {
    var payload := Payload(c, m);
    assert payload[..|payload|] == payload && m.pending[..|m.pending|] == m.pending;
    var j := AppendTorn(c, journal, m, |payload|);
    RowTextTerminated(c, m.pending);
    var text := RowText(c, m.pending);
    assert (journal + payload)[|journal + payload| - 1] == text[|text| - 1];
  }

  /** Pending rows, or a prefix of them, continue what the disk already describes. */
  lemma AppendKeepsDisk(c: Codec, max: nat, d: Disk, history: seq<Event>, acknowledged: nat, journal: seq<byte>, to: nat)
    requires DiskFits(c, max, d, history, acknowledged) && Numbered(history)
    requires acknowledged <= to <= |history|
    requires Rows(c, journal) == Rows(c, d.journal) + history[acknowledged..to]
    ensures DiskFits(c, max, d.(journal := journal), history, to)
  {
    RowsFitAppend(SnapshotSequence(d), Rows(c, d.journal), history, acknowledged, to);
  }

  lemma FlushKeepsInv(c: Codec, max: nat, w: World)
    requires JsonLaws(c) && Inv(c, max, w) && w.mem.pending != []
    ensures var journal := w.disk.journal + Payload(c, w.mem);
      Inv(c, max, World(w.mem.(journalBytes := |journal|, needsSeparator := false, pending := []),
                        w.disk.(journal := journal), w.history, |w.history|))
  {
    FlushedRows(c, w.disk.journal, w.mem);
    assert w.history[w.acknowledged..|w.history|] == w.mem.pending;
    AppendKeepsDisk(c, max, w.disk, w.history, w.acknowledged, w.disk.journal + Payload(c, w.mem), |w.history|);
  }

  lemma StoppedKeepsInv(c: Codec, max: nat, w: World, written: nat)
    requires JsonLaws(c) && Inv(c, max, w) && written <= |Payload(c, w.mem)|
    ensures Inv(c, max, w.(mem := w.mem.(needsSeparator := true),
                           disk := w.disk.(journal := w.disk.journal + Payload(c, w.mem)[..written])))
  {
    var j := AppendTorn(c, w.disk.journal, w.mem, written);
    var to := w.acknowledged + j;
    assert w.mem.pending[..j] == w.history[w.acknowledged..to];
    AppendKeepsDisk(c, max, w.disk, w.history, w.acknowledged, w.disk.journal + Payload(c, w.mem)[..written], to);
  }

  lemma PersistKeepsInv(c: Codec, max: nat, w: World, outcome: FlushOutcome)
    requires JsonLaws(c) && Inv(c, max, w)
    ensures Inv(c, max, Step(c, max, w, DoPersist(outcome)))
  {
    if w.mem.pending == [] {
      assert w.acknowledged == |w.history|;
      if outcome.Flushed? { CompactKeepsInv(c, max, w, outcome.cut); }
    } else if outcome.Flushed? {
      FlushKeepsInv(c, max, w);
      var journal := w.disk.journal + Payload(c, w.mem);
      CompactKeepsInv(c, max, World(w.mem.(journalBytes := |journal|, needsSeparator := false, pending := []),
                                    w.disk.(journal := journal), w.history, |w.history|), outcome.cut);
    } else {
      StoppedKeepsInv(c, max, w, Min(outcome.written, |Payload(c, w.mem)|));
    }
  }

  /** Replaying fitting rows over a fitting snapshot rebuilds the history up to the furthest row. */
  lemma {:induction false} ReplayRebuilds(c: Codec, max: nat, d: Disk, rows: seq<Event>, history: seq<Event>)
    requires Numbered(history) && |history| <= MAX_SAFE_INTEGER
    requires SnapshotFits(d, max, history)
    requires RowsFit(SnapshotSequence(d), rows, history)
    ensures var base := SnapshotSequence(d);
      var r := Replay(LoadSnapshot(max, d.snapshot), rows);
      && base <= r.sequence == MaxSequence(base, rows) <= |history|
      && r.events == Last(max, history[..base]) + history[base..r.sequence]
      && r.revisions == Counts(history[..r.sequence])
  {
    var base := SnapshotSequence(d);
    if rows == [] {
      LoadSnapshotFits(max, d, history);
    } else {
      var init, e := rows[..|rows| - 1], rows[|rows| - 1];
      forall i | 0 <= i < |init| ensures RowFits(base, init, history, i) {
        assert RowFits(base, rows, history, i);
        assert init[..i] == rows[..i];
      }
      ReplayRebuilds(c, max, d, init, history);
      assert RowFits(base, rows, history, |rows| - 1);
      ReplayRowExtends(Last(max, history[..base]), base, Replay(LoadSnapshot(max, d.snapshot), init), e, history);
    }
  }

  lemma ReplayRowExtends(head: seq<Event>, base: nat, r: Replayed, e: Event, history: seq<Event>)
    requires Numbered(history) && base <= r.sequence <= |history| <= MAX_SAFE_INTEGER
    requires r.events == head + history[base..r.sequence]
    requires r.revisions == Counts(history[..r.sequence])
    requires 1 <= e.sequence <= Min(|history|, r.sequence + 1) && e == history[e.sequence - 1]
    ensures var r' := ReplayRow(r, e);
      && r'.sequence == Max(r.sequence, e.sequence)
      && r'.events == head + history[base..r'.sequence]
      && r'.revisions == Counts(history[..r'.sequence])
  {
    if r.sequence < e.sequence {
      var slice := history[base..r.sequence];
      assert NumberedAt(history, r.sequence);
      CountsBound(history[..r.sequence], e.draft.uri);
      PrefixStep(history, r.sequence);
      SliceStep(history, base, r.sequence);
      assert head + slice + [e] == head + (slice + [e]);
      CountsGrow(history[..r.sequence], e);
    }
  }

  lemma LoadSnapshotFits(max: nat, d: Disk, history: seq<Event>)
    requires Numbered(history) && SnapshotFits(d, max, history)
    ensures var base := SnapshotSequence(d);
      LoadSnapshot(max, d.snapshot) == Replayed(Last(max, history[..base]), Counts(history[..base]), base)
  {
    match d.snapshot
    case None =>
      assert history[..0] == [];
    case Some(s) =>
      forall i | 0 <= i < s.latestSequence ensures history[i].sequence <= s.latestSequence {
        assert NumberedAt(history, i);
      }
      MaxSequenceBounded(s.latestSequence, s.events, s.latestSequence);
  }

  lemma {:induction false} MaxSequenceBounded(base: int, events: seq<Event>, bound: int)
    requires base <= bound && forall i :: 0 <= i < |events| ==> events[i].sequence <= bound
    ensures MaxSequence(base, events) <= bound
  {
    if events != [] { MaxSequenceBounded(base, events[..|events| - 1], bound); }
  }

  lemma {:induction false} CountsBound(history: seq<Event>, uri: string)
    ensures RevisionOf(Counts(history), uri) <= |history|
  {
    if history != [] { CountsBound(history[..|history| - 1], uri); }
  }

  /** Restarting on a fitting disk gives exactly what an ideal bus would know after the durable events. */
  lemma RestoreIsIdeal(c: Codec, max: nat, d: Disk, history: seq<Event>)
    requires Numbered(history) && |history| <= MAX_SAFE_INTEGER
    requires SnapshotFits(d, max, history)
    requires RowsFit(SnapshotSequence(d), Rows(c, d.journal), history)
    ensures 0 <= Durable(c, d) <= |history|
    ensures Ideal(Restore(c, max, d), max, history[..Durable(c, d)])
  {
    ReplayRebuilds(c, max, d, Rows(c, d.journal), history);
    var base, n := SnapshotSequence(d), Durable(c, d);
    assert history[..base] + history[base..n] == history[..n];
    LastAppend(max, history[..base], history[base..n]);
  }

  lemma CutKeepsDisk(c: Codec, max: nat, d: Disk, history: seq<Event>, acknowledged: nat)
    requires DiskFits(c, max, d, history, acknowledged) && Durable(c, d) <= |history|
    ensures DiskFits(c, max, d, history[..Durable(c, d)], Durable(c, d))
  {
    var n, base, rows := Durable(c, d), SnapshotSequence(d), Rows(c, d.journal);
    SnapshotFitsCut(d, max, history, n);
    forall i | 0 <= i < |rows| ensures RowFits(base, rows, history[..n], i) {
      assert RowFits(base, rows, history, i);
      MaxSequenceAt(base, rows, i);
    }
  }

  lemma RestartKeepsInv(c: Codec, max: nat, w: World)
    requires Inv(c, max, w)
    ensures Inv(c, max, Step(c, max, w, DoRestart))
    ensures var w' := Step(c, max, w, DoRestart);
      w.acknowledged <= |w'.history| == Durable(c, w.disk) <= |w.history| && w'.history == w.history[..|w'.history|]
  {
    RestoreIsIdeal(c, max, w.disk, w.history);
    NumberedPrefix(w.history, Durable(c, w.disk));
    CutKeepsDisk(c, max, w.disk, w.history, w.acknowledged);
  }

  /** The actions of a run publish only events that have a uri, and fewer than the numbers allow. */
  predicate Admissible(actions: seq<Action>) {
    && |actions| <= MAX_SAFE_INTEGER
    && forall i :: 0 <= i < |actions| && actions[i].DoPublish? ==> actions[i].draft.uri != ""
  }

  lemma {:induction false} RunKeepsInv(c: Codec, max: nat, actions: seq<Action>)
    requires JsonLaws(c) && Admissible(actions)
    ensures Inv(c, max, Run(c, max, actions)) && |Run(c, max, actions).history| <= |actions|
  {
    if actions == [] {
      RowsOfPlain(c, []);
    } else {
      var init, a := actions[..|actions| - 1], actions[|actions| - 1];
      RunKeepsInv(c, max, init);
      match a
      case DoPublish(d) => PublishKeepsInv(c, max, Run(c, max, init), d);
      case DoPersist(outcome) => PersistKeepsInv(c, max, Run(c, max, init), outcome);
      case DoRestart => RestartKeepsInv(c, max, Run(c, max, init));
    }
  }

  /** Main result.  After any run, a restart yields an ideal bus over the first `n` published events,
      where `n` is at least what the last completed flush acknowledged. */
  lemma RestoreRefinesHistory(c: Codec, max: nat, actions: seq<Action>) returns (n: nat)
    requires JsonLaws(c) && Admissible(actions)
    ensures var w := Run(c, max, actions);
      && w.acknowledged <= n <= |w.history|
      && Numbered(w.history[..n])
      && Ideal(Restore(c, max, w.disk), max, w.history[..n])
      && Restore(c, max, w.disk).pending == []
  {
    RunKeepsInv(c, max, actions);
    var w := Run(c, max, actions);
    RestoreIsIdeal(c, max, w.disk, w.history);
    n := Durable(c, w.disk);
    NumberedPrefix(w.history, n);
  }

  /** What a completed flush acknowledged survives the rest of every run unchanged. */
  lemma {:induction false} AcknowledgedIsForever(c: Codec, max: nat, actions: seq<Action>, k: nat)
    requires JsonLaws(c) && Admissible(actions) && k <= |actions|
    ensures var w, w' := Run(c, max, actions[..k]), Run(c, max, actions);
      && w.acknowledged <= |w.history| && w.acknowledged <= w'.acknowledged <= |w'.history|
      && w'.history[..w.acknowledged] == w.history[..w.acknowledged]
  {
    if k == |actions| {
      assert actions[..k] == actions;
      RunKeepsInv(c, max, actions);
    } else {
      var init := actions[..|actions| - 1];
      assert init[..k] == actions[..k];
      AcknowledgedIsForever(c, max, init, k);
      RunKeepsInv(c, max, init);
      StepKeepsAcknowledged(c, max, Run(c, max, init), actions[|actions| - 1]);
    }
  }

  lemma StepKeepsAcknowledged(c: Codec, max: nat, w: World, a: Action)
    requires Inv(c, max, w)
    ensures var w' := Step(c, max, w, a);
      && w.acknowledged <= w'.acknowledged <= |w'.history|
      && w'.history[..w.acknowledged] == w.history[..w.acknowledged]
  {
    match a
    case DoPublish(d) =>
      PrefixOfAppend(w.history, [Event(d, w.mem.nextSequence, Publish(max, w.mem, d).revisions[d.uri])], w.acknowledged);
    case DoPersist(_) =>
    case DoRestart =>
      RestartKeepsInv(c, max, w);
      PrefixOfPrefix(w.history, Durable(c, w.disk), w.acknowledged);
  }

  // ---------------------------------------------------------------------------------------------
  // Events without a uri
  // ---------------------------------------------------------------------------------------------

  lemma {:induction false} ReplayCovered(r: Replayed, rows: seq<Event>)
    requires forall i :: 0 <= i < |rows| ==> rows[i].sequence <= r.sequence
    ensures Replay(r, rows) == r
  {
    if rows != [] { ReplayCovered(r, rows[..|rows| - 1]); }
  }

  /** A snapshot of an ideal memory is read back as it was, whatever covered rows follow it. */
  lemma SnapshotReadsBack(c: Codec, max: nat, m: Memory, history: seq<Event>, journal: seq<byte>)
    requires Ideal(m, max, history)
    requires forall i :: 0 <= i < |history| ==> history[i].sequence <= |history|
    requires forall i :: 0 <= i < |Rows(c, journal)| ==> Rows(c, journal)[i].sequence <= |history|
    ensures Ideal(Restore(c, max, Disk(Some(Snapshot(|history|, m.revisions, m.events)), journal)), max, history)
  {
    var d := Disk(Some(Snapshot(|history|, m.revisions, m.events)), journal);
    forall i | 0 <= i < |m.events| ensures m.events[i].sequence <= |history| {
      assert m.events[i] == history[|history| - |m.events| + i];
    }
    MaxSequenceBounded(|history|, m.events, |history|);
    assert LoadSnapshot(max, d.snapshot) == Replayed(m.events, m.revisions, |history|);
    ReplayCovered(LoadSnapshot(max, d.snapshot), Rows(c, journal));
  }

  /** The rows on the disk and those pending replay to the whole history. */
  lemma PendingReplays(c: Codec, max: nat, w: World)
    requires Inv(c, max, w)
    ensures var r := Replay(LoadSnapshot(max, w.disk.snapshot), Rows(c, w.disk.journal) + w.mem.pending);
      r.sequence == |w.history| && Last(max, r.events) == Last(max, w.history) && r.revisions == Counts(w.history)
  {
    var base, rows := SnapshotSequence(w.disk), Rows(c, w.disk.journal) + w.mem.pending;
    assert w.history[w.acknowledged..|w.history|] == w.mem.pending;
    RowsFitAppend(base, Rows(c, w.disk.journal), w.history, w.acknowledged, |w.history|);
    ReplayRebuilds(c, max, w.disk, rows, w.history);
    TailOfWhole(max, w.history, base);
  }

  lemma TailOfWhole(max: nat, history: seq<Event>, base: nat)
    requires base <= |history|
    ensures history[..|history|] == history
    ensures Last(max, Last(max, history[..base]) + history[base..|history|]) == Last(max, history)
  {
    assert history[..base] + history[base..|history|] == history;
    LastAppend(max, history[..base], history[base..|history|]);
  }

  /** A row without a uri at the end of the journal is passed over. */
  lemma LastRowIsPassedOver(c: Codec, max: nat, w: World, d: Disk, e: Event)
    requires Inv(c, max, w) && d.snapshot == w.disk.snapshot && e.draft.uri == ""
    requires Rows(c, d.journal) == Rows(c, w.disk.journal) + w.mem.pending + [e]
    ensures Ideal(Restore(c, max, d), max, w.history)
  {
    PendingReplays(c, max, w);
    ReplayOne(LoadSnapshot(max, d.snapshot), Rows(c, w.disk.journal) + w.mem.pending, e);
  }

  /** The bytes of the journal once the event and all before it are flushed. */
  function FlushedJournal(c: Codec, max: nat, w: World, d: Draft): seq<byte> {
    w.disk.journal + Payload(c, Publish(max, w.mem, d))
  }

  predicate SnapshotTaken(journal: seq<byte>, cut: CompactCut) {
    |journal| >= COMPACT_BYTES && cut != BeforeRename
  }

  lemma RunPublishFlush(c: Codec, max: nat, actions: seq<Action>, d: Draft, cut: CompactCut)
    ensures Run(c, max, actions + [DoPublish(d), DoPersist(Flushed(cut))])
         == Step(c, max, Step(c, max, Run(c, max, actions), DoPublish(d)), DoPersist(Flushed(cut)))
  {
    var all := actions + [DoPublish(d), DoPersist(Flushed(cut))];
    assert all[..|all| - 1] == actions + [DoPublish(d)];
    assert (actions + [DoPublish(d)])[..|actions|] == actions;
  }

  lemma NamedEventSurvives(c: Codec, max: nat, actions: seq<Action>, d: Draft, cut: CompactCut)
    requires JsonLaws(c) && Admissible(actions) && |actions| + 2 <= MAX_SAFE_INTEGER && d.uri != ""
    ensures var w := Run(c, max, actions + [DoPublish(d), DoPersist(Flushed(cut))]);
      Ideal(Restore(c, max, w.disk), max, w.history)
  {
    var all := actions + [DoPublish(d), DoPersist(Flushed(cut))];
    assert all[..|all| - 1] == actions + [DoPublish(d)];
    var n := RestoreRefinesHistory(c, max, all);
    var w := Run(c, max, all);
    assert w.acknowledged == |w.history|;
    assert w.history[..n] == w.history;
  }

  /** What an event without a uri leaves behind in memory and in the rows of the journal. */
  lemma BlankFlushed(c: Codec, max: nat, w: World, d: Draft) returns (e: Event)
    requires JsonLaws(c) && Inv(c, max, w)
    ensures e.draft == d && e.sequence == |w.history| + 1
    ensures Step(c, max, w, DoPublish(d)).history == w.history + [e]
    ensures Ideal(Publish(max, w.mem, d), max, w.history + [e])
    ensures Rows(c, FlushedJournal(c, max, w, d)) == Rows(c, w.disk.journal) + w.mem.pending + [e]
    ensures forall i :: 0 <= i <= |w.history| ==> (w.history + [e])[i].sequence <= |w.history| + 1
    ensures forall i :: 0 <= i < |Rows(c, FlushedJournal(c, max, w, d))|
              ==> Rows(c, FlushedJournal(c, max, w, d))[i].sequence <= |w.history| + 1
  {
    var m := Publish(max, w.mem, d);
    e := Event(d, w.mem.nextSequence, m.revisions[d.uri]);
    PublishKeepsIdeal(max, w.mem, d, w.history);
    FlushedRows(c, w.disk.journal, m);
    var earlier := Rows(c, w.disk.journal);
    assert earlier + (w.mem.pending + [e]) == earlier + w.mem.pending + [e];
    forall i | 0 <= i < |w.history| ensures w.history[i].sequence <= |w.history| { assert NumberedAt(w.history, i); }
    forall i | 0 <= i < |earlier| ensures earlier[i].sequence <= |w.history| {
      assert RowFits(SnapshotSequence(w.disk), earlier, w.history, i);
    }
  }

  /** The disk after a flush that follows one publish. */
  function FlushedDisk(c: Codec, max: nat, w: World, d: Draft, cut: CompactCut): Disk {
    var m, journal := Publish(max, w.mem, d), FlushedJournal(c, max, w, d);
    if !SnapshotTaken(journal, cut) then w.disk.(journal := journal)
    else Disk(Some(Snapshot(m.nextSequence - 1, m.revisions, m.events)), if cut == BeforeTruncate then journal else [])
  }

  lemma FlushLeaves(c: Codec, max: nat, w: World, d: Draft, cut: CompactCut)
    ensures var w' := Step(c, max, Step(c, max, w, DoPublish(d)), DoPersist(Flushed(cut)));
      && w'.disk == FlushedDisk(c, max, w, d, cut)
      && w'.history == Step(c, max, w, DoPublish(d)).history && w'.acknowledged == |w'.history|
  {
    assert Step(c, max, w, DoPublish(d)).mem.pending != [];
  }

  lemma BlankOutcome(c: Codec, max: nat, w: World, d: Draft, cut: CompactCut)
    requires JsonLaws(c) && Inv(c, max, w) && d.uri == ""
    ensures Ideal(Restore(c, max, FlushedDisk(c, max, w, d, cut)), max,
                  if SnapshotTaken(FlushedJournal(c, max, w, d), cut) then Step(c, max, w, DoPublish(d)).history else w.history)
  {
    var e := BlankFlushed(c, max, w, d);
    var journal := FlushedJournal(c, max, w, d);
    if SnapshotTaken(journal, cut) {
      RowsOfPlain(c, []);
      SnapshotReadsBack(c, max, Publish(max, w.mem, d), w.history + [e], if cut == BeforeTruncate then journal else []);
    } else {
      LastRowIsPassedOver(c, max, w, w.disk.(journal := journal), e);
    }
  }

  /** Why the uri must not be empty.  After any run in which events have one, a further event is flushed and
      acknowledged.  The next restore has it exactly when it has a uri, or this flush went on to a compaction
      that got as far as its snapshot; otherwise the restore is as if it had never been published. */
  lemma FlushedEventSurvivesIff(c: Codec, max: nat, actions: seq<Action>, d: Draft, cut: CompactCut)
    requires JsonLaws(c) && Admissible(actions) && |actions| + 2 <= MAX_SAFE_INTEGER
    ensures var w := Run(c, max, actions);
      var w' := Run(c, max, actions + [DoPublish(d), DoPersist(Flushed(cut))]);
      var survives := d.uri != "" || SnapshotTaken(FlushedJournal(c, max, w, d), cut);
      && w'.acknowledged == |w'.history| == |w.history| + 1
      && (Ideal(Restore(c, max, w'.disk), max, w'.history) <==> survives)
      && (!survives ==> Ideal(Restore(c, max, w'.disk), max, w.history))
  {
    RunPublishFlush(c, max, actions, d, cut);
    FlushLeaves(c, max, Run(c, max, actions), d, cut);
    if d.uri != "" {
      NamedEventSurvives(c, max, actions, d, cut);
    } else {
      RunKeepsInv(c, max, actions);
      BlankOutcome(c, max, Run(c, max, actions), d, cut);
    }
  }

  lemma FirstJournal(c: Codec, max: nat, d: Draft)
    ensures Run(c, max, []).history == []
    ensures FlushedJournal(c, max, Run(c, max, []), d) == RowText(c, [Event(d, 1, 1)])
  {
    var w := Run(c, max, []);
    RowsOfPlain(c, []);
    assert Publish(max, w.mem, d).pending == [Event(d, 1, 1)];
  }

  /** The shortest such run: one event, acknowledged, and lost by the next restore if it has no uri. */
  lemma EmptyUriIsLost(c: Codec, max: nat, d: Draft, cut: CompactCut)
    requires JsonLaws(c)
    ensures var w := Run(c, max, [DoPublish(d), DoPersist(Flushed(cut))]);
      && w.acknowledged == 1
      && (Restore(c, max, w.disk).nextSequence == 2
          <==> d.uri != "" || SnapshotTaken(RowText(c, [Event(d, 1, 1)]), cut))
  {
    FlushedEventSurvivesIff(c, max, [], d, cut);
    FirstJournal(c, max, d);
    assert [] + [DoPublish(d), DoPersist(Flushed(cut))] == [DoPublish(d), DoPersist(Flushed(cut))];
  }

  // ---------------------------------------------------------------------------------------------
  // Reading
  // ---------------------------------------------------------------------------------------------

  const MAX_PAGE: int := 2_000

  function Selected(events: seq<Event>, after: int, prefix: string): seq<Event> {
    if events == [] then []
    else
      var rest := Selected(events[1..], after, prefix);
      if events[0].sequence > Max(0, after) && prefix <= events[0].draft.uri then [events[0]] + rest else rest
  }

  function ListAfter(events: seq<Event>, after: int, limit: int, prefix: string): seq<Event> {
    var found := Selected(events, after, prefix);
    found[..Min(|found|, Max(1, Min(limit, MAX_PAGE)))]
  }

  lemma {:induction false} SelectedTail(history: seq<Event>, from: nat, after: nat)
    requires Numbered(history) && from <= after <= |history|
    ensures Selected(history[from..], after, "") == history[after..]
    decreases |history| - from
  {
    if from < |history| {
      assert NumberedAt(history, from);
      assert history[from..][1..] == history[from + 1..];
      if from < after {
        SelectedTail(history, from + 1, after);
      } else {
        SelectedAll(history, from, after);
      }
    }
  }

  lemma {:induction false} SelectedAll(history: seq<Event>, from: nat, after: nat)
    requires Numbered(history) && after <= from <= |history|
    ensures Selected(history[from..], after, "") == history[from..]
    decreases |history| - from
  {
    if from < |history| {
      assert NumberedAt(history, from);
      assert history[from..][1..] == history[from + 1..];
      SelectedAll(history, from + 1, after);
    }
  }

  /** A reader that is not behind the retained tail gets the next events of the history, without gap or repeat. */
  lemma PollingReaderMissesNothing(m: Memory, max: nat, history: seq<Event>, after: nat, limit: int)
    requires Numbered(history) && Ideal(m, max, history)
    requires |history| - |m.events| <= after <= |history|
    ensures ListAfter(m.events, after, limit, "")
         == history[after..Min(|history|, after + Max(1, Min(limit, MAX_PAGE)))]
  {
    var from := |history| - |m.events|;
    assert m.events == history[from..];
    SelectedTail(history, from, after);
    var n := Min(|history| - after, Max(1, Min(limit, MAX_PAGE)));
    assert history[after..][..n] == history[after..after + n];
  }

  // ---------------------------------------------------------------------------------------------
  // The bus as an object
  // ---------------------------------------------------------------------------------------------

  /** The two files; they outlive the process. */
  class EventFiles {
    var snapshot: Option<Snapshot>
    var journal: seq<byte>

    constructor ()
      ensures View() == Disk(None, [])
    {
      snapshot, journal := None, [];
    }

    function View(): Disk
      reads this
    {
      Disk(snapshot, journal)
    }
  }

  class HerderEventBus {
    const codec: Codec
    const maxRetained: nat
    const files: EventFiles
    var events: seq<Event>
    var revisions: map<string, nat>
    var pendingEvents: seq<Event>
    var journalBytes: nat
    var journalNeedsSeparator: bool
    var nextSequence: Count1

    function View(): Memory
      reads this
    {
      Memory(events, revisions, pendingEvents, nextSequence, journalNeedsSeparator, journalBytes)
    }

    constructor (codec: Codec, files: EventFiles, maxRetained: nat)
      ensures this.codec == codec && this.files == files && this.maxRetained == Max(100, maxRetained)
      ensures View() == Restore(codec, this.maxRetained, files.View())
    {
      this.codec, this.files, this.maxRetained := codec, files, Max(100, maxRetained);
      events, revisions, pendingEvents := [], map[], [];
      journalBytes, journalNeedsSeparator, nextSequence := 0, false, 1;
      new;
      LoadFiles();
    }

    method LoadFiles()
      requires pendingEvents == [] && events == [] && revisions == map[]
      modifies this
      ensures View() == Restore(codec, maxRetained, files.View())
    {
      var snapshotSequence: int := 0;
      if files.snapshot.Some? {
        var s := files.snapshot.value;
        events, revisions := Last(maxRetained, s.events), s.revisions;
        snapshotSequence := MaxSequence(s.latestSequence, events);
        forall i | 0 <= i < |events| ensures events[i].sequence <= snapshotSequence {
          MaxSequenceAt(s.latestSequence, events, i);
        }
      }
      snapshotSequence := ReplayJournal(snapshotSequence);
      journalBytes := |files.journal|;
      journalNeedsSeparator := !Terminated(files.journal);
      events := Last(maxRetained, events);
      nextSequence := Max(0, snapshotSequence) + 1;
    }

    /** The loop over the journal's lines. */
    method ReplayJournal(from: int) returns (snapshotSequence: int)
      requires forall i :: 0 <= i < |events| ==> events[i].sequence <= from
      modifies `events, `revisions
      ensures Replayed(events, revisions, snapshotSequence)
           == Replay(old(Replayed(events, revisions, from)), Rows(codec, files.journal))
    {
      snapshotSequence := from;
      ghost var base := Replayed(events, revisions, from);
      var replayed := set e | e in events :: e.sequence;
      var lines := Lines(files.journal);
      var i := 0;
      while i < |lines|
        invariant 0 <= i <= |lines|
        invariant Replay(base, Parsed(codec, lines[..i])) == Replayed(events, revisions, snapshotSequence)
        invariant forall s :: s in replayed ==> s <= snapshotSequence
      {
        var line := lines[i];
        ReplayLine(codec, base, lines, i);
        i := i + 1;
        if line == [] { continue; }
        match codec.decode(line) {
          case None => continue;
          case Some(event) =>
            if !Acceptable(event, snapshotSequence) || event.sequence in replayed { continue; }
            replayed := replayed + {event.sequence};
            events := events + [event];
            revisions := revisions[event.draft.uri := Max(RevisionOf(revisions, event.draft.uri), event.revision)];
            snapshotSequence := Max(snapshotSequence, event.sequence);
        }
      }
      assert lines[..i] == lines;
    }

    method PublishEvent(d: Draft) returns (event: Event)
      modifies this
      ensures View() == Publish(maxRetained, old(View()), d)
      ensures event == Event(d, old(nextSequence), RevisionOf(old(revisions), d.uri) + 1)
    {
      var revision := RevisionOf(revisions, d.uri) + 1;
      revisions := revisions[d.uri := revision];
      event := Event(d, nextSequence, revision);
      nextSequence := nextSequence + 1;
      events := events + [event];
      pendingEvents := pendingEvents + [event];
      if |events| > maxRetained { events := events[|events| - maxRetained..]; }
    }

    /** `outcome` is the file system's answer to this flush. */
    method PersistPending(outcome: FlushOutcome)
      modifies this, files
      ensures (View(), files.View()) == Persist(codec, old(View()), old(files.View()), outcome)
    {
      if pendingEvents != [] {
        var payload := Payload(codec, View());
        journalNeedsSeparator := true;
        if outcome.Stopped? {
          files.journal := files.journal + payload[..Min(outcome.written, |payload|)];
          return;
        }
        files.journal := files.journal + payload;
        journalBytes := |files.journal|;
        journalNeedsSeparator := false;
        pendingEvents := [];
      }
      if outcome.Flushed? && journalBytes >= COMPACT_BYTES { CompactJournal(outcome.cut); }
    }

    method CompactJournal(cut: CompactCut)
      modifies this, files
      ensures (View(), files.View()) == Compact(old(View()), old(files.View()), cut)
    {
      var file := Snapshot(nextSequence - 1, revisions, events);
      if cut == BeforeRename { return; }
      files.snapshot := Some(file);
      if cut == BeforeTruncate { return; }
      files.journal := [];
      if cut == AfterTruncate { return; }
      journalBytes := 0;
      journalNeedsSeparator := false;
    }
  }
}
