/**
 The frozen pager of src/chatgpt-transcript-reader.ts: cursors into complete exports, held in one table
 that drops what has expired and what does not fit.

 Opening a transcript waits for the export, so other calls may come between its first and second part.
 Random cursors are fresh.
 */
module TranscriptReader {
  import opened Common

  const Ttl: nat := 1_800_000
  const MaxCursors: nat := 2048
  const MaxSnapshots: nat := 4

  /** A message of the export, or a node without one, or something that is neither. */
  datatype Node = Empty | Message(id: string, known: bool) | Malformed

  datatype Event = Event(sequence: nat, id: string)

  datatype Snapshot = Snapshot(events: seq<Event>, expires: int)

  datatype Entry = Entry(cursor: nat, snapshot: nat, offset: nat)

  /** `snapshot` names the frozen export the page is from. */
  datatype Page = Page(snapshot: nat, start: nat, events: seq<Event>, next: Option<nat>, total: nat)

  /** `snapshots` and `issued` remember what every snapshot and cursor ever stood for. */
  datatype World = World(
    cursors: seq<Entry>, snapshots: seq<Snapshot>, issued: map<nat, Entry>, nextCursor: nat, pages: seq<Option<Page>>)

  // ---------------------------------------------------------------------------------------------
  // Freezing an export
  // ---------------------------------------------------------------------------------------------

  predicate GoodId(s: string) {
    0 < |s| <= 1024 && forall i :: 0 <= i < |s| ==> s[i] as int > 31 && s[i] as int != 127
  }

  predicate HasEvent(events: seq<Event>, id: string) {
    exists i :: 0 <= i < |events| && events[i].id == id
  }

  /** The events of a mapping in its order, or nothing when a node is rejected. */
  function Events(nodes: seq<Node>): Option<seq<Event>> {
    if nodes == [] then Some([])
    else
      match (Events(nodes[..|nodes| - 1]), nodes[|nodes| - 1])
      case (Some(events), Empty) => Some(events)
      case (Some(events), Message(id, known)) =>
        if !GoodId(id) || HasEvent(events, id) || !known then None else Some(events + [Event(|events|, id)])
      case _ => None
  }

  predicate Rejected(node: Node) {
    node.Malformed? || (node.Message? && (!GoodId(node.id) || !node.known))
  }

  predicate SameId(nodes: seq<Node>, i: nat, j: nat)
    requires i < j < |nodes|
  {
    nodes[i].Message? && nodes[j].Message? && nodes[i].id == nodes[j].id
  }

  ghost predicate NoRepeat(nodes: seq<Node>) {
    forall i: nat, j: nat :: i < j < |nodes| ==> !SameId(nodes, i, j)
  }

  lemma NoRepeatLast(nodes: seq<Node>)
    requires nodes != []
    ensures var n := |nodes| - 1;
            NoRepeat(nodes) <==> NoRepeat(nodes[..n]) && !(nodes[n].Message? && HasMessage(nodes[..n], nodes[n].id))
  {
    var n := |nodes| - 1;
    var init := nodes[..n];
    assert forall i: nat, j: nat :: i < j < n ==> SameId(nodes, i, j) == SameId(init, i, j);
    if nodes[n].Message? && HasMessage(init, nodes[n].id) {
      var i :| 0 <= i < n && init[i].Message? && init[i].id == nodes[n].id;
      assert SameId(nodes, i, n);
    }
    if NoRepeat(init) && !(nodes[n].Message? && HasMessage(init, nodes[n].id)) {
      forall i: nat, j: nat | i < j < |nodes| ensures !SameId(nodes, i, j) {
        assert init[i] == nodes[i];
        if j < n { assert !SameId(init, i, j); }
      }
    }
  }

  /** An export is accepted exactly when every node is, and no id occurs twice; the events are then numbered
      from zero without a gap and hold exactly the messages. */
  lemma {:induction false} EventsIff(nodes: seq<Node>)
    ensures Events(nodes).Some? <==> (forall i :: 0 <= i < |nodes| ==> !Rejected(nodes[i])) && NoRepeat(nodes)
    ensures Events(nodes).Some? ==> Numbered(Events(nodes).value)
    ensures Events(nodes).Some? ==> forall id :: HasEvent(Events(nodes).value, id) <==> HasMessage(nodes, id)
  {
    if nodes != [] {
      var n := |nodes| - 1;
      var init := nodes[..n];
      EventsIff(init);
      NoRepeatLast(nodes);
      assert forall i :: 0 <= i < n ==> init[i] == nodes[i];
      forall id ensures HasMessage(nodes, id) <==> HasMessage(init, id) || (nodes[n].Message? && nodes[n].id == id) {
        MessageIn(nodes, id);
      }
      if Events(init).Some? && nodes[n].Message? {
        EventsGrow(Events(init).value, Event(|Events(init).value|, nodes[n].id));
      }
    }
  }

  predicate HasMessage(nodes: seq<Node>, id: string) {
    exists i :: 0 <= i < |nodes| && nodes[i].Message? && nodes[i].id == id
  }

  lemma MessageIn(nodes: seq<Node>, id: string)
    requires nodes != []
    ensures var n := |nodes| - 1;
            HasMessage(nodes, id) <==> HasMessage(nodes[..n], id) || (nodes[n].Message? && nodes[n].id == id)
  {
    var n := |nodes| - 1;
    var init := nodes[..n];
    if HasMessage(init, id) {
      var i :| 0 <= i < |init| && init[i].Message? && init[i].id == id;
      assert nodes[i] == init[i];
    }
    if HasMessage(nodes, id) && !(nodes[n].Message? && nodes[n].id == id) {
      var i :| 0 <= i < |nodes| && nodes[i].Message? && nodes[i].id == id;
      assert init[i] == nodes[i];
    }
  }

  ghost predicate Numbered(events: seq<Event>) {
    forall i :: 0 <= i < |events| ==> events[i].sequence == i
  }

  lemma EventsGrow(events: seq<Event>, e: Event)
    ensures forall id :: HasEvent(events + [e], id) <==> HasEvent(events, id) || id == e.id
  {
    forall id ensures HasEvent(events + [e], id) <==> HasEvent(events, id) || id == e.id {
      if HasEvent(events, id) {
        var i :| 0 <= i < |events| && events[i].id == id;
        assert (events + [e])[i].id == id;
      }
      assert (events + [e])[|events|] == e;
    }
  }

  // ---------------------------------------------------------------------------------------------
  // The cursor table
  // ---------------------------------------------------------------------------------------------

  /** The entries that keep, in their order. */
  function Keep(cursors: seq<Entry>, keeps: Entry -> bool): seq<Entry> {
    if cursors == [] then []
    else
      var rest := Keep(cursors[..|cursors| - 1], keeps);
      if keeps(cursors[|cursors| - 1]) then rest + [cursors[|cursors| - 1]] else rest
  }

  function Unexpired(snapshots: seq<Snapshot>, now: int): Entry -> bool {
    (e: Entry) => e.snapshot < |snapshots| && snapshots[e.snapshot].expires > now
  }

  /** The first cursor of this name. */
  function Lookup(cursors: seq<Entry>, cursor: nat): Option<Entry> {
    if cursors == [] then None
    else
      var before := Lookup(cursors[..|cursors| - 1], cursor);
      if before.Some? then before
      else if cursors[|cursors| - 1].cursor == cursor then Some(cursors[|cursors| - 1])
      else None
  }

  /** The snapshots with live cursors, in the order of their first cursor. */
  function LiveSnapshots(cursors: seq<Entry>): seq<nat> {
    if cursors == [] then []
    else
      var rest := LiveSnapshots(cursors[..|cursors| - 1]);
      var last := cursors[|cursors| - 1].snapshot;
      if last in rest then rest else rest + [last]
  }

  function Without(snapshot: nat): Entry -> bool {
    (e: Entry) => e.snapshot != snapshot
  }

  /** Drops whole snapshots, oldest first, until one more fits. */
  function MakeRoom(cursors: seq<Entry>, live: seq<nat>): seq<Entry>
    decreases |live|
  {
    if |live| < MaxSnapshots then cursors
    else MakeRoom(Keep(cursors, Without(live[0])), live[1..])
  }

  /** What stays when a new snapshot comes. */
  function Room(w: World): seq<Entry> {
    MakeRoom(w.cursors, LiveSnapshots(w.cursors))
  }

  /** Adds a cursor, dropping the oldest ones while the table is full. */
  function Insert(cursors: seq<Entry>, e: Entry): seq<Entry> {
    (if |cursors| >= MaxCursors then cursors[|cursors| - MaxCursors + 1..] else cursors) + [e]
  }

  /** `events.slice(offset, offset + limit)`. */
  function Slice(events: seq<Event>, offset: nat, limit: nat): seq<Event> {
    var from, to := Min(offset, |events|), Min(offset + limit, |events|);
    events[from..to]
  }

  /** The common end of a call: the page, and a cursor for what follows it. */
  function Serve(w: World, cursors: seq<Entry>, snapshot: nat, offset: nat, limit: nat): World
    requires snapshot < |w.snapshots|
  {
    var events := w.snapshots[snapshot].events;
    var page := Slice(events, offset, limit);
    var next := offset + |page|;
    if next < |events| then
      var e := Entry(w.nextCursor, snapshot, next);
      w.(cursors := Insert(cursors, e), issued := w.issued[w.nextCursor := e], nextCursor := w.nextCursor + 1,
         pages := w.pages + [Some(Page(snapshot, offset, page, Some(w.nextCursor), |events|))])
    else
      w.(cursors := cursors, pages := w.pages + [Some(Page(snapshot, offset, page, None, |events|))])
  }

  function Frozen(w: World, events: seq<Event>, began: int): World {
    w.(snapshots := w.snapshots + [Snapshot(events, began + Ttl)])
  }

  datatype Action =
    | Next(cursor: nat, limit: nat, now: int)
    | Open(now: int)
    | Freeze(events: seq<Event>, limit: nat, began: int)

  /** Every action adds one page, or the absence of one. */
  function Step(w: World, a: Action): World {
    match a
    case Next(cursor, limit, now) =>
      var kept := Keep(w.cursors, Unexpired(w.snapshots, now));
      (match Lookup(kept, cursor)
       case Some(e) => if e.snapshot < |w.snapshots| then Serve(w, kept, e.snapshot, e.offset, limit)
                       else w.(cursors := kept, pages := w.pages + [None])
       case None => w.(cursors := kept, pages := w.pages + [None]))
    case Open(now) => w.(cursors := Keep(w.cursors, Unexpired(w.snapshots, now)), pages := w.pages + [None])
    case Freeze(events, limit, began) =>
      Serve(Frozen(w, events, began), Room(w), |w.snapshots|, 0, limit)
  }

  function AfterAll(actions: seq<Action>): World {
    if actions == [] then World([], [], map[], 0, [])
    else Step(AfterAll(actions[..|actions| - 1]), actions[|actions| - 1])
  }

  // ---------------------------------------------------------------------------------------------
  // Invariant
  // ---------------------------------------------------------------------------------------------

  /** A cursor in the table stands for what it was issued for. */
  predicate EntryFits(e: Entry, issued: map<nat, Entry>) {
    e.cursor in issued && issued[e.cursor] == e
  }

  ghost predicate TableFits(cursors: seq<Entry>, issued: map<nat, Entry>) {
    forall i :: 0 <= i < |cursors| ==> EntryFits(cursors[i], issued)
  }

  predicate IssuedFits(cursor: nat, e: Entry, snapshots: seq<Snapshot>, nextCursor: nat) {
    cursor < nextCursor && e.cursor == cursor && e.snapshot < |snapshots| && e.offset < |snapshots[e.snapshot].events|
  }

  ghost predicate AllIssuedFit(issued: map<nat, Entry>, snapshots: seq<Snapshot>, nextCursor: nat) {
    forall c :: c in issued ==> IssuedFits(c, issued[c], snapshots, nextCursor)
  }

  ghost function LiveSet(cursors: seq<Entry>): set<nat> {
    set e | e in cursors :: e.snapshot
  }

  ghost predicate Bounded(cursors: seq<Entry>) {
    |cursors| <= MaxCursors && |LiveSet(cursors)| <= MaxSnapshots
  }

  ghost predicate Inv(w: World) {
    TableFits(w.cursors, w.issued) && AllIssuedFit(w.issued, w.snapshots, w.nextCursor) && Bounded(w.cursors)
  }

  lemma {:induction false} KeepIn(cursors: seq<Entry>, keeps: Entry -> bool)
    ensures |Keep(cursors, keeps)| <= |cursors|
    ensures forall e :: e in Keep(cursors, keeps) <==> e in cursors && keeps(e)
  {
    if cursors != [] {
      KeepIn(cursors[..|cursors| - 1], keeps);
      assert cursors == cursors[..|cursors| - 1] + [cursors[|cursors| - 1]];
    }
  }

  lemma OneMore(a: set<nat>, x: nat)
    ensures |a + {x}| <= |a| + 1
  {
  }

  /** A part of the table is as good as the table. */
  lemma PartFits(part: seq<Entry>, cursors: seq<Entry>, issued: map<nat, Entry>)
    requires TableFits(cursors, issued) && forall e :: e in part ==> e in cursors
    ensures TableFits(part, issued) && |LiveSet(part)| <= |LiveSet(cursors)|
  {
    forall i | 0 <= i < |part| ensures EntryFits(part[i], issued) {
      assert part[i] in part;
      var j :| 0 <= j < |cursors| && cursors[j] == part[i];
      assert EntryFits(cursors[j], issued);
    }
    SubsetSize(LiveSet(part), LiveSet(cursors));
  }

  lemma KeepBounded(cursors: seq<Entry>, keeps: Entry -> bool, issued: map<nat, Entry>)
    requires TableFits(cursors, issued) && Bounded(cursors)
    ensures TableFits(Keep(cursors, keeps), issued) && Bounded(Keep(cursors, keeps))
  {
    KeepIn(cursors, keeps);
    PartFits(Keep(cursors, keeps), cursors, issued);
  }

  lemma {:induction false} ListSize(list: seq<nat>, s: set<nat>)
    requires forall x :: x in s ==> x in list
    ensures |s| <= |list|
  {
    if list == [] {
      assert s == {};
    } else {
      var last, rest := list[|list| - 1], list[..|list| - 1];
      assert list == rest + [last];
      ListSize(rest, s - {last});
      SubsetSize(s, (s - {last}) + {last});
    }
  }

  lemma {:induction false} LiveListed(cursors: seq<Entry>)
    ensures forall x :: x in LiveSet(cursors) <==> x in LiveSnapshots(cursors)
  {
    if cursors != [] {
      var init, last := cursors[..|cursors| - 1], cursors[|cursors| - 1];
      LiveListed(init);
      assert cursors == init + [last];
      assert LiveSet(cursors) == LiveSet(init) + {last.snapshot};
    }
  }

  /** Making room leaves at most three snapshots. */
  lemma {:induction false} RoomFits(cursors: seq<Entry>, live: seq<nat>, issued: map<nat, Entry>)
    requires TableFits(cursors, issued) && forall x :: x in LiveSet(cursors) ==> x in live
    ensures TableFits(MakeRoom(cursors, live), issued) && |MakeRoom(cursors, live)| <= |cursors|
    ensures |LiveSet(MakeRoom(cursors, live))| < MaxSnapshots
    decreases |live|
  {
    if |live| < MaxSnapshots {
      ListSize(live, LiveSet(cursors));
    } else {
      var keeps := Without(live[0]);
      KeepIn(cursors, keeps);
      PartFits(Keep(cursors, keeps), cursors, issued);
      forall x | x in LiveSet(Keep(cursors, keeps)) ensures x in live[1..] {
        var e :| e in Keep(cursors, keeps) && e.snapshot == x;
        assert x in LiveSet(cursors) && x != live[0];
        assert live == [live[0]] + live[1..];
      }
      RoomFits(Keep(cursors, keeps), live[1..], issued);
    }
  }

  lemma InsertFits(cursors: seq<Entry>, e: Entry, issued: map<nat, Entry>)
    requires TableFits(cursors, issued) && EntryFits(e, issued) && |cursors| <= MaxCursors
    requires |LiveSet(cursors) + {e.snapshot}| <= MaxSnapshots
    ensures TableFits(Insert(cursors, e), issued) && Bounded(Insert(cursors, e))
  {
    var k := if |cursors| >= MaxCursors then |cursors| - MaxCursors + 1 else 0;
    var kept := cursors[k..];
    assert Insert(cursors, e) == kept + [e];
    assert forall x :: x in kept ==> x in cursors;
    PartFits(kept, cursors, issued);
    SubsetSize(LiveSet(kept + [e]), LiveSet(cursors) + {e.snapshot});
  }

  /** A fresh cursor leaves what the others stand for. */
  lemma IssueKeepsTable(w: World, cursors: seq<Entry>, e: Entry)
    requires TableFits(cursors, w.issued) && AllIssuedFit(w.issued, w.snapshots, w.nextCursor) && e.cursor == w.nextCursor
    requires e.snapshot < |w.snapshots| && e.offset < |w.snapshots[e.snapshot].events|
    ensures TableFits(cursors, w.issued[e.cursor := e]) && AllIssuedFit(w.issued[e.cursor := e], w.snapshots, w.nextCursor + 1)
  {
    var issued, next := w.issued[e.cursor := e], w.nextCursor + 1;
    forall c | c in issued ensures IssuedFits(c, issued[c], w.snapshots, next) {
      if c != e.cursor { assert IssuedFits(c, w.issued[c], w.snapshots, w.nextCursor); }
    }
    forall i | 0 <= i < |cursors| ensures EntryFits(cursors[i], w.issued[e.cursor := e]) {
      assert EntryFits(cursors[i], w.issued);
      assert IssuedFits(cursors[i].cursor, w.issued[cursors[i].cursor], w.snapshots, w.nextCursor);
    }
  }

  lemma IssueKeepsInv(w: World, cursors: seq<Entry>, e: Entry, pages: seq<Option<Page>>)
    requires AllIssuedFit(w.issued, w.snapshots, w.nextCursor) && TableFits(cursors, w.issued) && Bounded(cursors)
    requires |LiveSet(cursors) + {e.snapshot}| <= MaxSnapshots && e.cursor == w.nextCursor
    requires e.snapshot < |w.snapshots| && e.offset < |w.snapshots[e.snapshot].events|
    ensures Inv(World(Insert(cursors, e), w.snapshots, w.issued[e.cursor := e], w.nextCursor + 1, pages))
  {
    IssueKeepsTable(w, cursors, e);
    InsertFits(cursors, e, w.issued[e.cursor := e]);
  }

  /** What a page leaves: the table as it was given, or with one more cursor. */
  lemma ServeLeaves(w: World, cursors: seq<Entry>, snapshot: nat, offset: nat, limit: nat)
    requires snapshot < |w.snapshots|
    ensures var w' := Serve(w, cursors, snapshot, offset, limit);
      var next := offset + |Slice(w.snapshots[snapshot].events, offset, limit)|;
      var e := Entry(w.nextCursor, snapshot, next);
      w' == if next < |w.snapshots[snapshot].events|
            then World(Insert(cursors, e), w.snapshots, w.issued[e.cursor := e], w.nextCursor + 1, w'.pages)
            else w.(cursors := cursors, pages := w'.pages)
  {
  }

  lemma ServeKeepsInv(w: World, cursors: seq<Entry>, snapshot: nat, offset: nat, limit: nat)
    requires snapshot < |w.snapshots| && AllIssuedFit(w.issued, w.snapshots, w.nextCursor)
    requires TableFits(cursors, w.issued) && Bounded(cursors) && |LiveSet(cursors) + {snapshot}| <= MaxSnapshots
    ensures Inv(Serve(w, cursors, snapshot, offset, limit))
  {
    ServeLeaves(w, cursors, snapshot, offset, limit);
    var next := offset + |Slice(w.snapshots[snapshot].events, offset, limit)|;
    if next < |w.snapshots[snapshot].events| {
      IssueKeepsInv(w, cursors, Entry(w.nextCursor, snapshot, next), Serve(w, cursors, snapshot, offset, limit).pages);
    }
  }

  lemma {:induction false} LookupIn(cursors: seq<Entry>, cursor: nat)
    ensures Lookup(cursors, cursor).Some? ==>
              Lookup(cursors, cursor).value in cursors && Lookup(cursors, cursor).value.cursor == cursor
  {
    if cursors != [] {
      LookupIn(cursors[..|cursors| - 1], cursor);
      assert cursors == cursors[..|cursors| - 1] + [cursors[|cursors| - 1]];
    }
  }

  lemma NextKeepsInv(w: World, cursor: nat, limit: nat, now: int)
    requires Inv(w)
    ensures Inv(Step(w, Next(cursor, limit, now)))
  {
    var kept := Keep(w.cursors, Unexpired(w.snapshots, now));
    KeepBounded(w.cursors, Unexpired(w.snapshots, now), w.issued);
    LookupIn(kept, cursor);
    if Lookup(kept, cursor).Some? && Lookup(kept, cursor).value.snapshot < |w.snapshots| {
      var e := Lookup(kept, cursor).value;
      assert LiveSet(kept) + {e.snapshot} == LiveSet(kept);
      ServeKeepsInv(w, kept, e.snapshot, e.offset, limit);
    }
  }

  lemma IssuedStayFit(issued: map<nat, Entry>, snapshots: seq<Snapshot>, more: seq<Snapshot>, next: nat)
    requires AllIssuedFit(issued, snapshots, next)
    ensures AllIssuedFit(issued, snapshots + more, next)
  {
    var all := snapshots + more;
    forall c | c in issued ensures IssuedFits(c, issued[c], all, next) { assert IssuedFits(c, issued[c], snapshots, next); }
  }

  lemma RoomKeepsTable(w: World)
    requires Inv(w)
    ensures TableFits(Room(w), w.issued) && |Room(w)| <= |w.cursors| && |LiveSet(Room(w))| < MaxSnapshots
  {
    LiveListed(w.cursors);
    RoomFits(w.cursors, LiveSnapshots(w.cursors), w.issued);
  }

  lemma FrozenKeepsIssued(w: World, events: seq<Event>, began: int)
    requires AllIssuedFit(w.issued, w.snapshots, w.nextCursor)
    ensures AllIssuedFit(w.issued, Frozen(w, events, began).snapshots, w.nextCursor)
  {
    IssuedStayFit(w.issued, w.snapshots, [Snapshot(events, began + Ttl)], w.nextCursor);
  }

  lemma RoomForOneMore(w: World)
    requires Inv(w)
    ensures TableFits(Room(w), w.issued) && Bounded(Room(w)) && |LiveSet(Room(w)) + {|w.snapshots|}| <= MaxSnapshots
  {
    RoomKeepsTable(w);
    OneMore(LiveSet(Room(w)), |w.snapshots|);
  }

  lemma FreezeKeepsInv(w: World, events: seq<Event>, limit: nat, began: int)
    requires Inv(w)
    ensures Inv(Step(w, Freeze(events, limit, began)))
  {
    RoomForOneMore(w);
    FrozenKeepsIssued(w, events, began);
    ServeKeepsInv(Frozen(w, events, began), Room(w), |w.snapshots|, 0, limit);
  }

  lemma StepKeepsInv(w: World, a: Action)
    requires Inv(w)
    ensures Inv(Step(w, a))
  {
    match a
    case Next(cursor, limit, now) => NextKeepsInv(w, cursor, limit, now);
    case Open(now) => KeepBounded(w.cursors, Unexpired(w.snapshots, now), w.issued);
    case Freeze(events, limit, began) => FreezeKeepsInv(w, events, limit, began);
  }

  lemma {:induction false} RunKeepsInv(actions: seq<Action>)
    ensures Inv(AfterAll(actions))
  {
    if actions != [] {
      RunKeepsInv(actions[..|actions| - 1]);
      StepKeepsInv(AfterAll(actions[..|actions| - 1]), actions[|actions| - 1]);
    }
  }

  /** At most 2048 cursors and 4 snapshots are live at any time. */
  lemma TableIsBounded(actions: seq<Action>)
    ensures |AfterAll(actions).cursors| <= 2048 && |LiveSet(AfterAll(actions).cursors)| <= 4
  {
    RunKeepsInv(actions);
  }

  // ---------------------------------------------------------------------------------------------
  // When a cursor is served
  // ---------------------------------------------------------------------------------------------

  /** Cursors are in the order in which they were issued. */
  ghost predicate Ascends(cursors: seq<Entry>, bound: nat) {
    (forall i, j :: 0 <= i < j < |cursors| ==> cursors[i].cursor < cursors[j].cursor)
    && forall i :: 0 <= i < |cursors| ==> cursors[i].cursor < bound
  }

  lemma {:induction false} KeepAscends(cursors: seq<Entry>, keeps: Entry -> bool, bound: nat)
    requires Ascends(cursors, bound)
    ensures Ascends(Keep(cursors, keeps), bound)
    ensures cursors != [] && Keep(cursors, keeps) != [] ==>
              Keep(cursors, keeps)[|Keep(cursors, keeps)| - 1].cursor <= cursors[|cursors| - 1].cursor
  {
    if cursors != [] {
      var init := cursors[..|cursors| - 1];
      KeepAscends(init, keeps, bound);
      var rest := Keep(init, keeps);
      if rest != [] { assert rest[|rest| - 1].cursor <= init[|init| - 1].cursor by { KeepIn(init, keeps); LastOfKeep(init, keeps); } }
    }
  }

  lemma LastOfKeep(cursors: seq<Entry>, keeps: Entry -> bool)
    requires Keep(cursors, keeps) != []
    ensures cursors != []
  {
  }

  lemma {:induction false} RoomAscends(cursors: seq<Entry>, live: seq<nat>, bound: nat)
    requires Ascends(cursors, bound)
    ensures Ascends(MakeRoom(cursors, live), bound)
    decreases |live|
  {
    if |live| >= MaxSnapshots {
      var keeps := Without(live[0]);
      KeepAscends(cursors, keeps, bound);
      RoomAscends(Keep(cursors, keeps), live[1..], bound);
    }
  }

  /** The table that a call goes on with: what has expired is gone, or what has to make room. */
  function Left(w: World, a: Action): seq<Entry> {
    match a
    case Next(_, _, now) => Keep(w.cursors, Unexpired(w.snapshots, now))
    case Open(now) => Keep(w.cursors, Unexpired(w.snapshots, now))
    case Freeze(_, _, _) => Room(w)
  }

  /** The call gives out a new cursor. */
  predicate Issues(w: World, a: Action) {
    Step(w, a).nextCursor == w.nextCursor + 1
  }

  lemma StepLeaves(w: World, a: Action)
    ensures Step(w, a).nextCursor == w.nextCursor || Issues(w, a)
    ensures !Issues(w, a) ==> Step(w, a).cursors == Left(w, a)
    ensures Issues(w, a) ==> exists e: Entry :: e.cursor == w.nextCursor && Step(w, a).cursors == Insert(Left(w, a), e)
  {
    match a
    case Next(cursor, limit, now) =>
      var kept := Left(w, a);
      if Lookup(kept, cursor).Some? && Lookup(kept, cursor).value.snapshot < |w.snapshots| {
        ServeLeaves(w, kept, Lookup(kept, cursor).value.snapshot, Lookup(kept, cursor).value.offset, limit);
      }
    case Open(_) =>
    case Freeze(events, limit, began) => ServeLeaves(Frozen(w, events, began), Room(w), |w.snapshots|, 0, limit);
  }

  lemma LeftAscends(w: World, a: Action)
    requires Ascends(w.cursors, w.nextCursor)
    ensures Ascends(Left(w, a), w.nextCursor)
  {
    match a
    case Next(_, _, now) => KeepAscends(w.cursors, Unexpired(w.snapshots, now), w.nextCursor);
    case Open(now) => KeepAscends(w.cursors, Unexpired(w.snapshots, now), w.nextCursor);
    case Freeze(_, _, _) => RoomAscends(w.cursors, LiveSnapshots(w.cursors), w.nextCursor);
  }

  lemma InsertAscends(cursors: seq<Entry>, e: Entry)
    requires Ascends(cursors, e.cursor)
    ensures Ascends(Insert(cursors, e), e.cursor + 1)
  {
  }

  lemma {:induction false} RunAscends(actions: seq<Action>)
    ensures Ascends(AfterAll(actions).cursors, AfterAll(actions).nextCursor)
  {
    if actions != [] {
      var w, a := AfterAll(actions[..|actions| - 1]), actions[|actions| - 1];
      RunAscends(actions[..|actions| - 1]);
      LeftAscends(w, a);
      StepLeaves(w, a);
      if Issues(w, a) {
        var e: Entry :| e.cursor == w.nextCursor && Step(w, a).cursors == Insert(Left(w, a), e);
        InsertAscends(Left(w, a), e);
      }
    }
  }

  predicate Has(cursors: seq<Entry>, c: nat) {
    exists i :: 0 <= i < |cursors| && cursors[i].cursor == c
  }

  /** The export of the cursor was frozen half an hour before, or earlier. */
  predicate ExpiredAt(w: World, c: nat, now: int) {
    c in w.issued && w.issued[c].snapshot < |w.snapshots| && w.snapshots[w.issued[c].snapshot].expires <= now
  }

  /** Four exports have live cursors, and this is the one of the oldest of them. */
  predicate Displaced(w: World, c: nat) {
    && |LiveSnapshots(w.cursors)| == MaxSnapshots && w.cursors != []
    && c in w.issued && w.issued[c].snapshot == w.cursors[0].snapshot
  }

  /** The call takes the cursor out of the table: its export has expired or has to make room for a new one, or
      a new cursor is issued while this is the oldest of 2048. */
  predicate Loses(w: World, a: Action, c: nat) {
    || (a.Next? && ExpiredAt(w, c, a.now)) || (a.Open? && ExpiredAt(w, c, a.now)) || (a.Freeze? && Displaced(w, c))
    || (Issues(w, a) && |Left(w, a)| == MaxCursors && Left(w, a)[0].cursor == c)
  }

  lemma {:induction false} KeepHas(cursors: seq<Entry>, keeps: Entry -> bool, issued: map<nat, Entry>, c: nat)
    requires TableFits(cursors, issued)
    ensures Has(Keep(cursors, keeps), c) <==> Has(cursors, c) && c in issued && keeps(issued[c])
  {
    var kept := Keep(cursors, keeps);
    KeepIn(cursors, keeps);
    if Has(kept, c) {
      var i :| 0 <= i < |kept| && kept[i].cursor == c;
      assert kept[i] in kept;
      var j :| 0 <= j < |cursors| && cursors[j] == kept[i];
      assert EntryFits(cursors[j], issued);
    }
    if Has(cursors, c) && c in issued && keeps(issued[c]) {
      var j :| 0 <= j < |cursors| && cursors[j].cursor == c;
      assert EntryFits(cursors[j], issued) && cursors[j] in kept;
      var i :| 0 <= i < |kept| && kept[i] == cursors[j];
    }
  }

  lemma {:induction false} LiveIsDistinct(cursors: seq<Entry>)
    ensures forall i, j :: 0 <= i < j < |LiveSnapshots(cursors)| ==> LiveSnapshots(cursors)[i] != LiveSnapshots(cursors)[j]
    ensures cursors != [] ==> LiveSnapshots(cursors) != [] && LiveSnapshots(cursors)[0] == cursors[0].snapshot
  {
    if cursors != [] { LiveIsDistinct(cursors[..|cursors| - 1]); }
  }

  lemma {:induction false} DistinctSize(list: seq<nat>, s: set<nat>)
    requires forall i, j :: 0 <= i < j < |list| ==> list[i] != list[j]
    requires forall i :: 0 <= i < |list| ==> list[i] in s
    ensures |list| <= |s|
  {
    if list != [] {
      var n := |list| - 1;
      DistinctSize(list[..n], s - {list[n]});
    }
  }

  lemma LiveAtMostFour(w: World)
    requires Inv(w)
    ensures |LiveSnapshots(w.cursors)| <= MaxSnapshots
  {
    LiveIsDistinct(w.cursors);
    LiveListed(w.cursors);
    var live := LiveSnapshots(w.cursors);
    forall i | 0 <= i < |live| ensures live[i] in LiveSet(w.cursors) { assert live[i] in live; }
    DistinctSize(live, LiveSet(w.cursors));
  }

  lemma RoomDropsOldest(cursors: seq<Entry>, live: seq<nat>)
    requires |live| == MaxSnapshots
    ensures MakeRoom(cursors, live) == Keep(cursors, Without(live[0]))
  {
  }

  lemma RoomHas(w: World, c: nat)
    requires Inv(w) && c in w.issued
    ensures Has(Room(w), c) <==> Has(w.cursors, c) && !Displaced(w, c)
  {
    var live := LiveSnapshots(w.cursors);
    LiveAtMostFour(w);
    LiveIsDistinct(w.cursors);
    if |live| == MaxSnapshots {
      RoomDropsOldest(w.cursors, live);
      KeepHas(w.cursors, Without(live[0]), w.issued, c);
    }
  }

  lemma PurgeHas(w: World, now: int, c: nat)
    requires Inv(w) && c in w.issued
    ensures Has(Keep(w.cursors, Unexpired(w.snapshots, now)), c) <==> Has(w.cursors, c) && !ExpiredAt(w, c, now)
  {
    KeepHas(w.cursors, Unexpired(w.snapshots, now), w.issued, c);
    assert IssuedFits(c, w.issued[c], w.snapshots, w.nextCursor);
  }

  lemma InsertHas(cursors: seq<Entry>, e: Entry, c: nat)
    requires Ascends(cursors, e.cursor) && |cursors| <= MaxCursors
    ensures Has(Insert(cursors, e), c) <==>
              c == e.cursor || (Has(cursors, c) && !(|cursors| == MaxCursors && cursors[0].cursor == c))
  {
    var k := if |cursors| == MaxCursors then 1 else 0;
    var all := Insert(cursors, e);
    assert all == cursors[k..] + [e];
    assert all[|cursors| - k] == e;
    forall i | k <= i < |cursors| ensures all[i - k] == cursors[i] {}
  }

  lemma LeftHas(w: World, a: Action, c: nat)
    requires Inv(w) && c in w.issued
    ensures |Left(w, a)| <= MaxCursors
    ensures Has(Left(w, a), c) <==>
              Has(w.cursors, c) && !((a.Next? || a.Open?) && ExpiredAt(w, c, a.now)) && !(a.Freeze? && Displaced(w, c))
  {
    match a
    case Next(_, _, now) => PurgeHas(w, now, c); KeepIn(w.cursors, Unexpired(w.snapshots, now));
    case Open(now) => PurgeHas(w, now, c); KeepIn(w.cursors, Unexpired(w.snapshots, now));
    case Freeze(_, _, _) => RoomHas(w, c); RoomKeepsTable(w);
  }

  /** Exactly the calls that lose a cursor take it out of the table. */
  lemma StepHas(w: World, a: Action, c: nat)
    requires Inv(w) && Ascends(w.cursors, w.nextCursor) && c in w.issued
    ensures Has(Step(w, a).cursors, c) <==> Has(w.cursors, c) && !Loses(w, a, c)
  {
    LeftHas(w, a, c);
    LeftAscends(w, a);
    StepLeaves(w, a);
    assert IssuedFits(c, w.issued[c], w.snapshots, w.nextCursor);
    if Issues(w, a) {
      var e: Entry :| e.cursor == w.nextCursor && Step(w, a).cursors == Insert(Left(w, a), e);
      InsertHas(Left(w, a), e, c);
    }
  }

  lemma {:induction false} LookupHas(cursors: seq<Entry>, c: nat)
    ensures Lookup(cursors, c).Some? <==> Has(cursors, c)
  {
    if cursors != [] {
      var init := cursors[..|cursors| - 1];
      LookupHas(init, c);
      if Has(cursors, c) && cursors[|init|].cursor != c {
        var i :| 0 <= i < |cursors| && cursors[i].cursor == c;
        assert init[i].cursor == c;
      }
    }
  }

  /** The call with the cursor gets a page. */
  predicate ServedNow(w: World, c: nat, limit: nat, now: int) {
    var w' := Step(w, Next(c, limit, now));
    |w'.pages| > 0 && w'.pages[|w'.pages| - 1].Some?
  }

  lemma ServedIffHeld(w: World, c: nat, limit: nat, now: int)
    requires Inv(w) && c in w.issued
    ensures ServedNow(w, c, limit, now) <==> Has(w.cursors, c) && !ExpiredAt(w, c, now)
  {
    var kept := Keep(w.cursors, Unexpired(w.snapshots, now));
    PurgeHas(w, now, c);
    LookupHas(kept, c);
    if Lookup(kept, c).Some? { CursorFits(w, c, now); }
  }

  /** A cursor is in the table as it is issued. */
  lemma IssuedIsHeld(w: World, a: Action)
    requires Inv(w) && Ascends(w.cursors, w.nextCursor) && Issues(w, a)
    ensures Has(Step(w, a).cursors, w.nextCursor) && w.nextCursor in Step(w, a).issued
  {
    StepLeaves(w, a);
    var e: Entry :| e.cursor == w.nextCursor && Step(w, a).cursors == Insert(Left(w, a), e);
    var all := Insert(Left(w, a), e);
    assert all[|all| - 1] == e;
    StepKeepsInv(w, a);
    assert EntryFits(all[|all| - 1], Step(w, a).issued);
  }

  /** No call since the one at `i` has lost the cursor. */
  predicate KeptSince(actions: seq<Action>, i: nat, c: nat) {
    |actions| <= i + 1
    || (KeptSince(actions[..|actions| - 1], i, c) && !Loses(AfterAll(actions[..|actions| - 1]), actions[|actions| - 1], c))
  }

  lemma StepHolds(w: World, a: Action, c: nat)
    requires Inv(w) && Ascends(w.cursors, w.nextCursor) && c in w.issued
    ensures c in Step(w, a).issued && (Has(Step(w, a).cursors, c) <==> Has(w.cursors, c) && !Loses(w, a, c))
  {
    StepHas(w, a, c);
    StepGrows(w, a);
  }

  ghost predicate HeldAs(w: World, c: nat, held: bool) {
    c in w.issued && (Has(w.cursors, c) <==> held)
  }

  lemma AfterSnoc(init: seq<Action>, a: Action)
    ensures AfterAll(init + [a]) == Step(AfterAll(init), a)
  {
    assert (init + [a])[..|init|] == init;
  }

  lemma HeldFirst(init: seq<Action>, a: Action)
    requires Issues(AfterAll(init), a)
    ensures HeldAs(AfterAll(init + [a]), AfterAll(init).nextCursor, true)
  {
    RunKeepsInv(init);
    RunAscends(init);
    IssuedIsHeld(AfterAll(init), a);
    AfterSnoc(init, a);
  }

  lemma HeldNext(init: seq<Action>, a: Action, c: nat, held: bool)
    requires HeldAs(AfterAll(init), c, held)
    ensures HeldAs(AfterAll(init + [a]), c, held && !Loses(AfterAll(init), a, c))
  {
    RunKeepsInv(init);
    RunAscends(init);
    StepHolds(AfterAll(init), a, c);
    AfterSnoc(init, a);
  }

  lemma KeptSinceSnoc(init: seq<Action>, a: Action, i: nat, c: nat)
    requires i < |init|
    ensures KeptSince(init + [a], i, c) <==> KeptSince(init, i, c) && !Loses(AfterAll(init), a, c)
  {
    assert (init + [a])[..|init|] == init;
  }

  /** What was issued after `first` is in the table after `more` exactly if it was kept since. */
  lemma {:induction false} HeldSince(first: seq<Action>, a: Action, more: seq<Action>)
    requires Issues(AfterAll(first), a)
    ensures var c := AfterAll(first).nextCursor;
      HeldAs(AfterAll(first + [a] + more), c, KeptSince(first + [a] + more, |first|, c))
    decreases |more|
  {
    var c := AfterAll(first).nextCursor;
    if more == [] {
      assert first + [a] + more == first + [a];
      HeldFirst(first, a);
    } else {
      var init, last := more[..|more| - 1], more[|more| - 1];
      HeldSince(first, a, init);
      assert first + [a] + more == first + [a] + init + [last];
      HeldNext(first + [a] + init, last, c, KeptSince(first + [a] + init, |first|, c));
      KeptSinceSnoc(first + [a] + init, last, |first|, c);
    }
  }

  /** Exactly when a cursor is served.  After `first` the call `a` issued it and `more` followed: its export has
      not expired now, and no call of `more` expired it, displaced its export, or issued a further cursor while
      it was the oldest of 2048. */
  lemma CursorServedIff(first: seq<Action>, a: Action, more: seq<Action>, limit: nat, now: int)
    requires Issues(AfterAll(first), a)
    ensures var c, w := AfterAll(first).nextCursor, AfterAll(first + [a] + more);
      ServedNow(w, c, limit, now) <==> !ExpiredAt(w, c, now) && KeptSince(first + [a] + more, |first|, c)
  {
    HeldSince(first, a, more);
    RunKeepsInv(first + [a] + more);
    ServedIffHeld(AfterAll(first + [a] + more), AfterAll(first).nextCursor, limit, now);
  }

  // ---------------------------------------------------------------------------------------------
  // Chains of pages
  // ---------------------------------------------------------------------------------------------

  /** A page is a piece of its snapshot, and its cursor stands for where it ends. */
  predicate PageFits(p: Page, snapshots: seq<Snapshot>, issued: map<nat, Entry>) {
    && p.snapshot < |snapshots|
    && var events := snapshots[p.snapshot].events;
       var end := p.start + |p.events|;
       && end <= |events| == p.total && p.events == events[p.start..end]
       && (p.next.None? ==> end == |events|)
       && (p.next.Some? ==> p.next.value in issued && issued[p.next.value] == Entry(p.next.value, p.snapshot, end))
  }

  /** What the page of an action answers. */
  predicate Answers(p: Page, a: Action, snapshots: seq<Snapshot>, issued: map<nat, Entry>) {
    && PageFits(p, snapshots, issued)
    && match a
       case Next(cursor, limit, _) =>
         && cursor in issued && p.snapshot == issued[cursor].snapshot && p.start == issued[cursor].offset
         && (limit > 0 ==> p.events != [])
       case Open(_) => false
       case Freeze(events, _, _) => p.start == 0 && snapshots[p.snapshot].events == events
  }

  /** Snapshots and cursors never change their meaning. */
  ghost predicate Grows(w: World, w': World) {
    && w.snapshots <= w'.snapshots
    && forall c :: c in w.issued ==> c in w'.issued && w'.issued[c] == w.issued[c]
  }

  lemma StepGrows(w: World, a: Action)
    requires Inv(w)
    ensures Grows(w, Step(w, a))
  {
    forall c | c in w.issued ensures c < w.nextCursor {
      assert IssuedFits(c, w.issued[c], w.snapshots, w.nextCursor);
    }
  }

  lemma AnswersStay(p: Page, a: Action, w: World, w': World)
    requires Answers(p, a, w.snapshots, w.issued) && Grows(w, w')
    ensures Answers(p, a, w'.snapshots, w'.issued)
  {
    assert w'.snapshots[p.snapshot] == w.snapshots[p.snapshot];
  }

  lemma ServeAnswers(w: World, cursors: seq<Entry>, snapshot: nat, offset: nat, limit: nat)
    requires snapshot < |w.snapshots| && offset <= |w.snapshots[snapshot].events|
    ensures var w' := Serve(w, cursors, snapshot, offset, limit);
            && |w'.pages| == |w.pages| + 1 && w'.pages[..|w.pages|] == w.pages
            && w'.pages[|w.pages|].Some? && var p := w'.pages[|w.pages|].value;
            && PageFits(p, w'.snapshots, w'.issued) && p.start == offset && p.snapshot == snapshot
            && (limit > 0 && offset < |w.snapshots[snapshot].events| ==> p.events != [])
  {
  }

  lemma NextAnswers(w: World, cursor: nat, limit: nat, now: int)
    requires Inv(w)
    ensures var w' := Step(w, Next(cursor, limit, now));
            && |w'.pages| == |w.pages| + 1 && w'.pages[..|w.pages|] == w.pages
            && (w'.pages[|w.pages|].Some? ==> Answers(w'.pages[|w.pages|].value, Next(cursor, limit, now), w'.snapshots, w'.issued))
  {
    var kept := Keep(w.cursors, Unexpired(w.snapshots, now));
    KeepBounded(w.cursors, Unexpired(w.snapshots, now), w.issued);
    LookupIn(kept, cursor);
    if Lookup(kept, cursor).Some? && Lookup(kept, cursor).value.snapshot < |w.snapshots| {
      var e := Lookup(kept, cursor).value;
      var i :| 0 <= i < |kept| && kept[i] == e;
      assert EntryFits(kept[i], w.issued);
      assert IssuedFits(cursor, w.issued[cursor], w.snapshots, w.nextCursor);
      StepGrows(w, Next(cursor, limit, now));
      ServeAnswers(w, kept, e.snapshot, e.offset, limit);
    }
  }

  lemma FreezeAnswers(w: World, events: seq<Event>, limit: nat, began: int)
    requires Inv(w)
    ensures var w' := Step(w, Freeze(events, limit, began));
            && |w'.pages| == |w.pages| + 1 && w'.pages[..|w.pages|] == w.pages
            && w'.pages[|w.pages|].Some? && Answers(w'.pages[|w.pages|].value, Freeze(events, limit, began), w'.snapshots, w'.issued)
  {
    ServeAnswers(Frozen(w, events, began), Room(w), |w.snapshots|, 0, limit);
  }

  lemma StepAnswers(w: World, a: Action)
    requires Inv(w)
    ensures var w' := Step(w, a);
            && |w'.pages| == |w.pages| + 1 && w'.pages[..|w.pages|] == w.pages
            && (w'.pages[|w.pages|].Some? ==> Answers(w'.pages[|w.pages|].value, a, w'.snapshots, w'.issued))
  {
    match a
    case Next(cursor, limit, now) => NextAnswers(w, cursor, limit, now);
    case Open(_) =>
    case Freeze(events, limit, began) => FreezeAnswers(w, events, limit, began);
  }

  /** The page of a call answers it. */
  predicate AnsweredAt(actions: seq<Action>, w: World, k: nat) {
    k < |actions| && k < |w.pages| && (w.pages[k].Some? ==> Answers(w.pages[k].value, actions[k], w.snapshots, w.issued))
  }

  ghost predicate Answered(actions: seq<Action>, w: World) {
    |w.pages| == |actions| && forall k: nat :: k < |actions| ==> AnsweredAt(actions, w, k)
  }

  lemma StepKeepsAnswered(actions: seq<Action>, w: World, a: Action)
    requires Inv(w) && Answered(actions, w)
    ensures Answered(actions + [a], Step(w, a))
  {
    StepAnswers(w, a);
    StepGrows(w, a);
    var n, all, w' := |actions|, actions + [a], Step(w, a);
    forall k: nat | k < n + 1 ensures AnsweredAt(all, w', k) {
      if k < n {
        assert AnsweredAt(actions, w, k);
        assert w'.pages[k] == w'.pages[..n][k];
        if w.pages[k].Some? { AnswersStay(w.pages[k].value, actions[k], w, w'); }
      }
    }
  }

  /** Every page ever given out answers its call. */
  lemma {:induction false} PagesAnswer(actions: seq<Action>)
    ensures Answered(actions, AfterAll(actions))
  {
    if actions != [] {
      var init := actions[..|actions| - 1];
      PagesAnswer(init);
      RunKeepsInv(init);
      StepKeepsAnswered(init, AfterAll(init), actions[|actions| - 1]);
      assert init + [actions[|actions| - 1]] == actions;
    }
  }

  /** The calls at these positions form a chain: an opening one, then each with the cursor of the one before. */
  predicate Chain(actions: seq<Action>, pages: seq<Option<Page>>, ks: seq<nat>) {
    && |pages| == |actions| && ks != []
    && (forall i :: 0 <= i < |ks| ==> Served(actions, pages, ks[i]))
    && actions[ks[0]].Freeze?
    && forall i: nat :: i < |ks| - 1 ==> Follows(actions, pages, ks, i)
  }

  predicate Served(actions: seq<Action>, pages: seq<Option<Page>>, k: nat) {
    k < |actions| && k < |pages| && pages[k].Some?
  }

  predicate Follows(actions: seq<Action>, pages: seq<Option<Page>>, ks: seq<nat>, i: nat)
    requires i < |ks| - 1
  {
    && Served(actions, pages, ks[i]) && Served(actions, pages, ks[i + 1])
    && actions[ks[i + 1]].Next? && pages[ks[i]].value.next == Some(actions[ks[i + 1]].cursor)
  }

  function Joined(pages: seq<Option<Page>>, ks: seq<nat>): seq<Event> {
    if ks == [] then []
    else
      var k := ks[|ks| - 1];
      Joined(pages, ks[..|ks| - 1]) + if k < |pages| && pages[k].Some? then pages[k].value.events else []
  }

  /** The pages joined so far are the snapshot up to where the last one ends. */
  predicate JoinedTo(w: World, ks: seq<nat>)
    requires ks != [] && forall i :: 0 <= i < |ks| ==> ks[i] < |w.pages| && w.pages[ks[i]].Some?
  {
    var first, last := w.pages[ks[0]].value, w.pages[ks[|ks| - 1]].value;
    && last.snapshot == first.snapshot && first.snapshot < |w.snapshots|
    && last.start + |last.events| <= |w.snapshots[first.snapshot].events|
    && Joined(w.pages, ks) == w.snapshots[first.snapshot].events[..last.start + |last.events|]
  }

  lemma OnePageJoined(actions: seq<Action>, w: World, k: nat)
    requires AnsweredAt(actions, w, k) && Served(actions, w.pages, k) && actions[k].Freeze?
    ensures JoinedTo(w, [k])
  {
    assert [k][..0] == [] && Joined(w.pages, []) == [];
    var p := w.pages[k].value;
    assert w.snapshots[p.snapshot].events[0..|p.events|] == w.snapshots[p.snapshot].events[..|p.events|];
  }

  /** A page that starts where the one before ends continues the snapshot. */
  lemma NextPageJoined(actions: seq<Action>, w: World, ks: seq<nat>, before: Page, p: Page)
    requires |ks| > 1 && forall i :: 0 <= i < |ks| ==> ks[i] < |w.pages| && w.pages[ks[i]].Some?
    requires JoinedTo(w, ks[..|ks| - 1]) && w.pages[ks[|ks| - 2]] == Some(before) && w.pages[ks[|ks| - 1]] == Some(p)
    requires p.snapshot == before.snapshot && p.start == before.start + |before.events| && PageFits(p, w.snapshots, w.issued)
    ensures JoinedTo(w, ks)
  {
    SliceJoin(w.snapshots[p.snapshot].events, p.start, p.start + |p.events|);
  }

  lemma {:induction false} ChainIsPrefix(actions: seq<Action>, w: World, ks: seq<nat>)
    requires Answered(actions, w) && Chain(actions, w.pages, ks)
    ensures (forall i :: 0 <= i < |ks| ==> ks[i] < |w.pages| && w.pages[ks[i]].Some?) && JoinedTo(w, ks)
  {
    var n := |ks| - 1;
    assert forall i :: 0 <= i < |ks| ==> Served(actions, w.pages, ks[i]);
    assert AnsweredAt(actions, w, ks[n]);
    if n > 0 {
      var init := ks[..n];
      forall i: nat | i < n - 1 ensures Follows(actions, w.pages, init, i) { assert Follows(actions, w.pages, ks, i); }
      ChainIsPrefix(actions, w, init);
      assert Follows(actions, w.pages, ks, n - 1) && AnsweredAt(actions, w, ks[n - 1]);
      NextPageJoined(actions, w, ks, w.pages[ks[n - 1]].value, w.pages[ks[n]].value);
    } else {
      assert ks == [ks[0]];
      OnePageJoined(actions, w, ks[0]);
    }
  }

  /** Whatever other consumers do, and however many cursors expire or are evicted: the pages along a chain of
      cursors join to a prefix of the events frozen at page one, to all of them when the chain ends without a
      cursor; and with limits of at least one every further page brings events. */
  lemma ChainReadsTheFrozenExport(actions: seq<Action>, ks: seq<nat>)
    requires Chain(actions, AfterAll(actions).pages, ks)
    ensures var pages := AfterAll(actions).pages; var last := ks[|ks| - 1];
            && Joined(pages, ks) <= actions[ks[0]].events
            && (pages[last].value.next.None? ==> Joined(pages, ks) == actions[ks[0]].events)
            && (|ks| > 1 && actions[last].Next? && actions[last].limit > 0 ==> pages[last].value.events != [])
  {
    PagesAnswer(actions);
    FrozenChain(actions, AfterAll(actions), ks);
  }

  lemma FrozenChain(actions: seq<Action>, w: World, ks: seq<nat>)
    requires Answered(actions, w) && Chain(actions, w.pages, ks)
    ensures var last := ks[|ks| - 1];
            && Joined(w.pages, ks) <= actions[ks[0]].events
            && (w.pages[last].value.next.None? ==> Joined(w.pages, ks) == actions[ks[0]].events)
            && (|ks| > 1 && actions[last].Next? && actions[last].limit > 0 ==> w.pages[last].value.events != [])
  {
    ChainIsPrefix(actions, w, ks);
    assert Served(actions, w.pages, ks[0]) && Served(actions, w.pages, ks[|ks| - 1]);
    assert AnsweredAt(actions, w, ks[0]) && AnsweredAt(actions, w, ks[|ks| - 1]);
  }

  // ---------------------------------------------------------------------------------------------
  // The reader, in place
  // ---------------------------------------------------------------------------------------------

  lemma CursorFits(w: World, cursor: nat, now: int)
    requires Inv(w) && Lookup(Keep(w.cursors, Unexpired(w.snapshots, now)), cursor).Some?
    ensures Lookup(Keep(w.cursors, Unexpired(w.snapshots, now)), cursor).value.snapshot < |w.snapshots|
  {
    var kept := Keep(w.cursors, Unexpired(w.snapshots, now));
    KeepBounded(w.cursors, Unexpired(w.snapshots, now), w.issued);
    LookupIn(kept, cursor);
    var k :| 0 <= k < |kept| && kept[k] == Lookup(kept, cursor).value;
    assert EntryFits(kept[k], w.issued);
    assert IssuedFits(cursor, w.issued[cursor], w.snapshots, w.nextCursor);
  }

  class ChatgptTranscriptReader {
    var cursors: seq<Entry>
    var snapshots: seq<Snapshot>
    ghost var issued: map<nat, Entry>
    var nextCursor: nat
    ghost var pages: seq<Option<Page>>

    ghost function View(): World
      reads this
    {
      World(cursors, snapshots, issued, nextCursor, pages)
    }

    constructor ()
      ensures View() == AfterAll([])
    {
      cursors, snapshots, nextCursor := [], [], 0;
      issued, pages := map[], [];
    }

    /** Deletes the entries that do not keep. */
    method DropEntries(keeps: Entry -> bool)
      modifies this`cursors
      ensures cursors == Keep(old(cursors), keeps)
    {
      var entries, kept, i := cursors, [], 0;
      while i < |entries|
        invariant i <= |entries| && kept == Keep(entries[..i], keeps)
      {
        assert entries[..i + 1][..i] == entries[..i];
        if keeps(entries[i]) { kept := kept + [entries[i]]; }
        i := i + 1;
      }
      assert entries[..i] == entries;
      cursors := kept;
    }

    method FindCursor(cursor: nat) returns (state: Option<Entry>)
      ensures state == Lookup(cursors, cursor)
    {
      state := None;
      var i := 0;
      while i < |cursors| && state.None?
        invariant i <= |cursors| && state == Lookup(cursors[..i], cursor)
      {
        assert cursors[..i + 1][..i] == cursors[..i];
        if cursors[i].cursor == cursor { state := Some(cursors[i]); }
        i := i + 1;
      }
      LookupFirst(cursors, cursor, i);
    }

    /** A call with a cursor. */
    method ReadNext(cursor: nat, limit: nat, now: int) returns (page: Option<Page>)
      requires Inv(View())
      modifies this
      ensures View() == Step(old(View()), Next(cursor, limit, now)) && pages == old(pages) + [page]
    {
      ghost var w := View();
      DropEntries(Unexpired(snapshots, now));
      var state := FindCursor(cursor);
      if state.None? {
        pages := pages + [None];
        return None;
      }
      CursorFits(w, cursor, now);
      page := ServePage(state.value.snapshot, state.value.offset, limit);
    }

    /** The first part of a call without a cursor, before the export arrives. */
    method BeginOpen(now: int)
      modifies this
      ensures View() == Step(old(View()), Open(now))
    {
      DropEntries(Unexpired(snapshots, now));
      pages := pages + [None];
    }

    /** The rest of it. */
    method FinishOpen(events: seq<Event>, limit: nat, began: int) returns (page: Option<Page>)
      modifies this
      ensures View() == Step(old(View()), Freeze(events, limit, began)) && pages == old(pages) + [page]
    {
      var live := CollectSnapshots();
      while |live| >= MaxSnapshots
        invariant MakeRoom(cursors, live) == MakeRoom(old(cursors), LiveSnapshots(old(cursors)))
        invariant snapshots == old(snapshots) && issued == old(issued) && nextCursor == old(nextCursor) && pages == old(pages)
        decreases |live|
      {
        var oldest := live[0];
        DropEntries(Without(oldest));
        live := live[1..];
      }
      snapshots := snapshots + [Snapshot(events, began + Ttl)];
      page := ServePage(|snapshots| - 1, 0, limit);
    }

    method CollectSnapshots() returns (live: seq<nat>)
      ensures live == LiveSnapshots(cursors)
    {
      live := [];
      var i := 0;
      while i < |cursors|
        invariant i <= |cursors| && live == LiveSnapshots(cursors[..i])
      {
        assert cursors[..i + 1][..i] == cursors[..i];
        if cursors[i].snapshot !in live { live := live + [cursors[i].snapshot]; }
        i := i + 1;
      }
      assert cursors[..i] == cursors;
    }

    /** Makes room for one more cursor. */
    method DropOldest()
      modifies this`cursors
      ensures cursors == if |old(cursors)| >= MaxCursors then old(cursors)[|old(cursors)| - MaxCursors + 1..] else old(cursors)
    {
      ghost var full, k := cursors, 0;
      while |cursors| >= MaxCursors
        invariant k <= |full| && cursors == full[k..]
        invariant k > 0 ==> |cursors| >= MaxCursors - 1
        decreases |cursors|
      {
        cursors := cursors[1..];
        k := k + 1;
      }
    }

    method ServePage(snapshot: nat, offset: nat, limit: nat) returns (page: Option<Page>)
      requires snapshot < |snapshots|
      modifies this
      ensures View() == Serve(old(View()), old(cursors), snapshot, offset, limit) && pages == old(pages) + [page]
    {
      var events := snapshots[snapshot].events;
      var slice := Slice(events, offset, limit);
      var next := offset + |slice|;
      var nextName := None;
      if next < |events| {
        DropOldest();
        var e := Entry(nextCursor, snapshot, next);
        cursors := cursors + [e];
        issued := issued[nextCursor := e];
        nextName := Some(nextCursor);
        nextCursor := nextCursor + 1;
      }
      page := Some(Page(snapshot, offset, slice, nextName, |events|));
      pages := pages + [page];
    }
  }

  lemma {:induction false} LookupFirst(cursors: seq<Entry>, cursor: nat, i: nat)
    requires i <= |cursors| && (i < |cursors| ==> Lookup(cursors[..i], cursor).Some?)
    ensures Lookup(cursors, cursor) == Lookup(cursors[..i], cursor)
  {
    if i < |cursors| {
      var init := cursors[..|cursors| - 1];
      assert init[..i] == cursors[..i];
      LookupFirst(init, cursor, i);
    } else {
      assert cursors[..i] == cursors;
    }
  }

  /** The loop over the nodes of an export. */
  method FreezeEvents(nodes: seq<Node>) returns (events: Option<seq<Event>>)
    ensures events == Events(nodes)
  {
    var seen: set<string>, list: seq<Event>, i := {}, [], 0;
    while i < |nodes|
      invariant i <= |nodes| && Events(nodes[..i]) == Some(list)
      invariant forall id :: id in seen <==> HasEvent(list, id)
    {
      assert nodes[..i + 1][..i] == nodes[..i];
      match nodes[i] {
        case Malformed => EventsStop(nodes, i); return None;
        case Empty =>
        case Message(id, known) =>
          if !GoodId(id) || id in seen || !known { EventsStop(nodes, i); return None; }
          EventsGrow(list, Event(|list|, id));
          seen := seen + {id};
          list := list + [Event(|list|, id)];
      }
      i := i + 1;
    }
    assert nodes[..i] == nodes;
    events := Some(list);
  }

  lemma {:induction false} EventsStop(nodes: seq<Node>, i: nat)
    requires i < |nodes| && Events(nodes[..i + 1]) == None
    ensures Events(nodes) == None
  {
    if i + 1 == |nodes| {
      assert nodes[..i + 1] == nodes;
    } else {
      var init := nodes[..|nodes| - 1];
      assert init[..i + 1] == nodes[..i + 1];
      EventsStop(init, i);
    }
  }
}
