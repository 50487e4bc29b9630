/**
 The note and lease board of src/coordination-notes.ts.

 Every call runs under the store's lock: it reads the file, prunes what has expired, changes it and writes it.
 Hosts, workspaces and paths are taken as already normalised; ids are fresh.
 */
module CoordinationNotes {
  import opened Common
  import opened Text

  const MinTtl: int := 60
  const MaxTtl: int := 604_800

  /** The key of an automatic lease, and any key a caller may choose for a note of its own. */
  datatype Key = HookKey(hookHost: string, hookSession: string, hookCwd: string, hookPath: string) | OwnKey(text: string)

  datatype Note = Note(
    id: nat, kind: string, message: string, author: string, harness: string, host: string, cwd: string, paths: seq<string>,
    hook: bool, key: Option<Key>, updatedAt: int, expiresAt: int)

  datatype Conflict = Conflict(path: string, noteId: nat)

  // ---------------------------------------------------------------------------------------------
  // Paths
  // ---------------------------------------------------------------------------------------------

  /** Drops one leading "./". */
  function Strip(path: string): string {
    if "./" <= path then path[2..] else path
  }

  predicate PathMatches(candidate: string, target: string) {
    var c, t := Strip(candidate), Strip(target);
    t == c || c + "/" <= t || t + "/" <= c
  }

  /** Two paths overlap exactly when the components of one are a prefix of the components of the other. */
  lemma PathMatchesIff(candidate: string, target: string)
    ensures PathMatches(candidate, target) <==>
              Components(Strip(candidate)) <= Components(Strip(target)) || Components(Strip(target)) <= Components(Strip(candidate))
  {
    var c, t := Strip(candidate), Strip(target);
    ContinuesIff(c, t);
    ContinuesIff(t, c);
    ComponentsJoin(c);
    ComponentsJoin(t);
    var cs, ts := Components(c), Components(t);
    assert cs <= ts && |cs| == |ts| ==> cs == ts;
    assert ts <= cs && |cs| == |ts| ==> cs == ts;
  }

  predicate Digits(s: string) {
    s != "" && forall i :: 0 <= i < |s| ==> '0' <= s[i] <= '9'
  }

  predicate IsDeviceSink(path: string) {
    || path == "/dev/null" || path == "/dev/zero" || path == "/dev/full" || path == "/dev/random" || path == "/dev/urandom"
    || path == "/dev/stdin" || path == "/dev/stdout" || path == "/dev/stderr"
    || ("/dev/fd/" <= path && Digits(path[8..])) || ("/proc/self/fd/" <= path && Digits(path[14..]))
  }

  // ---------------------------------------------------------------------------------------------
  // The board
  // ---------------------------------------------------------------------------------------------

  predicate SinkLease(n: Note) {
    n.hook && n.paths != [] && forall i :: 0 <= i < |n.paths| ==> IsDeviceSink(n.paths[i])
  }

  predicate Kept(n: Note, now: int) {
    n.expiresAt > now && !SinkLease(n)
  }

  function Filter(notes: seq<Note>, keeps: Note -> bool): seq<Note> {
    if notes == [] then []
    else
      var rest := Filter(notes[..|notes| - 1], keeps);
      if keeps(notes[|notes| - 1]) then rest + [notes[|notes| - 1]] else rest
  }

  /** `readAndPrune`. */
  function Prune(notes: seq<Note>, now: int): seq<Note> {
    Filter(notes, (n: Note) => Kept(n, now))
  }

  /** Where the id is, or the length. */
  function IndexOfId(notes: seq<Note>, id: nat): (i: nat)
    ensures i <= |notes| && (i < |notes| ==> notes[i].id == id)
    decreases notes
  {
    if notes == [] then 0
    else if IndexOfId(notes[..|notes| - 1], id) < |notes| - 1 then IndexOfId(notes[..|notes| - 1], id)
    else if notes[|notes| - 1].id == id then |notes| - 1 else |notes|
  }

  function IndexOfKey(notes: seq<Note>, key: Key): (i: nat)
    ensures i <= |notes| && (i < |notes| ==> notes[i].key == Some(key))
    decreases notes
  {
    if notes == [] then 0
    else if IndexOfKey(notes[..|notes| - 1], key) < |notes| - 1 then IndexOfKey(notes[..|notes| - 1], key)
    else if notes[|notes| - 1].key == Some(key) then |notes| - 1 else |notes|
  }

  datatype Caller = Caller(session: string, harness: string, host: string, cwd: string)

  predicate GoodTtl(ttl: int) {
    MinTtl <= ttl <= MaxTtl
  }

  predicate GoodSession(session: string) {
    0 < |Trim(session)| <= 256
  }

  function LeaseKey(q: Caller, path: string): Key {
    HookKey(q.host, q.session, q.cwd, path)
  }

  function NewLease(q: Caller, path: string, id: nat, ttl: int, now: int): Note {
    Note(id, "working", "Auto-reserved after file activity: " + path, Trim(q.session), q.harness, q.host, q.cwd, [path],
         true, Some(LeaseKey(q, path)), now, now + ttl * 1000)
  }

  /** The notes of other sessions on the caller's board that overlap a path, in the order of the file. */
  function Overlapping(notes: seq<Note>, q: Caller, path: string): seq<Conflict> {
    if notes == [] then []
    else
      var rest := Overlapping(notes[..|notes| - 1], q, path);
      if Overlaps(notes[|notes| - 1], q, path) then rest + [Conflict(path, notes[|notes| - 1].id)] else rest
  }

  predicate Overlaps(n: Note, q: Caller, path: string) {
    n.author != q.session && n.host == q.host && n.cwd == q.cwd && exists i :: 0 <= i < |n.paths| && PathMatches(n.paths[i], path)
  }

  /** Leases so far: the notes, the next fresh id, what overlaps, and the ids of the leases. */
  datatype Leases = Leases(notes: seq<Note>, nextId: nat, conflicts: seq<Conflict>, ids: seq<nat>)

  /** One round of the loop of `reservePaths`; it fails when a new lease has no acceptable author. */
  function Lease(l: Leases, q: Caller, path: string, ttl: int, now: int): Option<Leases> {
    var i := IndexOfKey(l.notes, LeaseKey(q, path));
    var conflicts := l.conflicts + Overlapping(l.notes, q, path);
    if i < |l.notes| then
      var n := l.notes[i];
      Some(Leases(l.notes[i := n.(updatedAt := now, expiresAt := now + ttl * 1000, harness := q.harness)], l.nextId, conflicts, l.ids + [n.id]))
    else if !GoodSession(q.session) then None
    else Some(Leases(l.notes + [NewLease(q, path, l.nextId, ttl, now)], l.nextId + 1, conflicts, l.ids + [l.nextId]))
  }

  function LeaseAll(start: Leases, q: Caller, paths: seq<string>, ttl: int, now: int): Option<Leases> {
    if paths == [] then Some(start)
    else
      match LeaseAll(start, q, paths[..|paths| - 1], ttl, now)
      case None => None
      case Some(l) => Lease(l, q, paths[|paths| - 1], ttl, now)
  }

  /** `dedupeConflicts`: the first of equal ones stays. */
  function Dedupe(conflicts: seq<Conflict>): seq<Conflict> {
    if conflicts == [] then []
    else
      var rest := Dedupe(conflicts[..|conflicts| - 1]);
      var last := conflicts[|conflicts| - 1];
      if last in rest then rest else rest + [last]
  }

  function RealPaths(paths: seq<string>): seq<string> {
    if paths == [] then []
    else
      var rest := RealPaths(paths[..|paths| - 1]);
      if IsDeviceSink(paths[|paths| - 1]) then rest else rest + [paths[|paths| - 1]]
  }

  // ---------------------------------------------------------------------------------------------
  // What a reservation reports
  // ---------------------------------------------------------------------------------------------

  /** An own lease, new or renewed, changes nothing about the notes of others. */
  lemma {:induction false} RenewKeepsOverlaps(notes: seq<Note>, i: nat, n: Note, q: Caller, path: string)
    requires i < |notes| && n.id == notes[i].id && n.author == notes[i].author && n.host == notes[i].host
    requires n.cwd == notes[i].cwd && n.paths == notes[i].paths
    ensures Overlapping(notes[i := n], q, path) == Overlapping(notes, q, path)
  {
    var last := |notes| - 1;
    var init := notes[..last];
    if i < last {
      assert notes[i := n][..last] == init[i := n];
      RenewKeepsOverlaps(init, i, n, q, path);
    } else {
      assert notes[i := n][..last] == init;
      assert Overlaps(n, q, path) == Overlaps(notes[last], q, path);
    }
  }

  lemma LeaseKeepsOverlaps(l: Leases, q: Caller, path: string, ttl: int, now: int, other: string)
    requires Trim(q.session) == q.session && Lease(l, q, path, ttl, now).Some?
    ensures Overlapping(Lease(l, q, path, ttl, now).value.notes, q, other) == Overlapping(l.notes, q, other)
  {
    var i := IndexOfKey(l.notes, LeaseKey(q, path));
    if i < |l.notes| {
      RenewKeepsOverlaps(l.notes, i, l.notes[i].(updatedAt := now, expiresAt := now + ttl * 1000, harness := q.harness), q, other);
    } else {
      var n := NewLease(q, path, l.nextId, ttl, now);
      assert (l.notes + [n])[..|l.notes|] == l.notes;
    }
  }

  /** All overlaps of all paths with the notes as they were. */
  function AllOverlapping(notes: seq<Note>, q: Caller, paths: seq<string>): seq<Conflict> {
    if paths == [] then []
    else AllOverlapping(notes, q, paths[..|paths| - 1]) + Overlapping(notes, q, paths[|paths| - 1])
  }

  lemma {:induction false} LeaseAllKeeps(start: Leases, q: Caller, paths: seq<string>, ttl: int, now: int, other: string)
    requires Trim(q.session) == q.session && LeaseAll(start, q, paths, ttl, now).Some?
    ensures Overlapping(LeaseAll(start, q, paths, ttl, now).value.notes, q, other) == Overlapping(start.notes, q, other)
  {
    if paths != [] {
      var init := paths[..|paths| - 1];
      LeaseAllKeeps(start, q, init, ttl, now, other);
      LeaseKeepsOverlaps(LeaseAll(start, q, init, ttl, now).value, q, paths[|paths| - 1], ttl, now, other);
    }
  }

  lemma LeaseConflicts(l: Leases, q: Caller, path: string, ttl: int, now: int)
    requires Lease(l, q, path, ttl, now).Some?
    ensures Lease(l, q, path, ttl, now).value.conflicts == l.conflicts + Overlapping(l.notes, q, path)
  {
  }

  lemma {:induction false} LeaseAllReports(start: Leases, q: Caller, paths: seq<string>, ttl: int, now: int)
    requires Trim(q.session) == q.session && LeaseAll(start, q, paths, ttl, now).Some?
    ensures LeaseAll(start, q, paths, ttl, now).value.conflicts == start.conflicts + AllOverlapping(start.notes, q, paths)
  {
    if paths != [] {
      var init, last := paths[..|paths| - 1], paths[|paths| - 1];
      LeaseAllReports(start, q, init, ttl, now);
      LeaseAllKeeps(start, q, init, ttl, now, last);
      LeaseConflicts(LeaseAll(start, q, init, ttl, now).value, q, last, ttl, now);
    }
  }

  lemma OverlapLast(notes: seq<Note>, q: Caller, path: string, c: Conflict)
    requires notes != []
    ensures var n := |notes| - 1;
            HasOverlap(notes, q, path, c) <==> HasOverlap(notes[..n], q, path, c) || OverlapAt(notes, n, q, path, c)
  {
    var n := |notes| - 1;
    var init := notes[..n];
    forall i | 0 <= i < n ensures OverlapAt(notes, i, q, path, c) == OverlapAt(init, i, q, path, c) {
      assert init[i] == notes[i];
    }
  }

  lemma {:induction false} OverlappingIff(notes: seq<Note>, q: Caller, path: string, c: Conflict)
    ensures c in Overlapping(notes, q, path) <==> c.path == path && HasOverlap(notes, q, path, c)
  {
    if notes != [] {
      OverlappingIff(notes[..|notes| - 1], q, path, c);
      OverlapLast(notes, q, path, c);
    }
  }

  predicate HasOverlap(notes: seq<Note>, q: Caller, path: string, c: Conflict) {
    exists i :: 0 <= i < |notes| && OverlapAt(notes, i, q, path, c)
  }

  predicate OverlapAt(notes: seq<Note>, i: nat, q: Caller, path: string, c: Conflict)
    requires i < |notes|
  {
    Overlaps(notes[i], q, path) && c.noteId == notes[i].id
  }

  lemma {:induction false} AllOverlappingIff(notes: seq<Note>, q: Caller, paths: seq<string>, c: Conflict)
    ensures c in AllOverlapping(notes, q, paths) <==>
              c.path in paths && HasOverlap(notes, q, c.path, c)
  {
    if paths != [] {
      AllOverlappingIff(notes, q, paths[..|paths| - 1], c);
      OverlappingIff(notes, q, paths[|paths| - 1], c);
      assert paths == paths[..|paths| - 1] + [paths[|paths| - 1]];
    }
  }

  ghost predicate DistinctConflicts(conflicts: seq<Conflict>) {
    forall i, j :: 0 <= i < j < |conflicts| ==> conflicts[i] != conflicts[j]
  }

  lemma {:induction false} DedupeKeeps(conflicts: seq<Conflict>)
    ensures DistinctConflicts(Dedupe(conflicts))
    ensures forall c :: c in Dedupe(conflicts) <==> c in conflicts
  {
    if conflicts != [] {
      DedupeKeeps(conflicts[..|conflicts| - 1]);
      assert conflicts == conflicts[..|conflicts| - 1] + [conflicts[|conflicts| - 1]];
    }
  }

  /** A reservation by a session whose id has no blanks around it reports exactly the live notes of other
      sessions on the same host and workspace whose paths overlap, once per path and note. */
  lemma ReportsExactly(notes: seq<Note>, nextId: nat, q: Caller, paths: seq<string>, ttl: int, now: int, c: Conflict)
    requires Trim(q.session) == q.session && LeaseAll(Leases(notes, nextId, [], []), q, paths, ttl, now).Some?
    ensures var reported := Dedupe(LeaseAll(Leases(notes, nextId, [], []), q, paths, ttl, now).value.conflicts);
            && DistinctConflicts(reported)
            && (c in reported <==> c.path in paths && HasOverlap(notes, q, c.path, c))
  {
    var l := LeaseAll(Leases(notes, nextId, [], []), q, paths, ttl, now).value;
    LeaseAllReports(Leases(notes, nextId, [], []), q, paths, ttl, now);
    assert l.conflicts == AllOverlapping(notes, q, paths);
    DedupeKeeps(l.conflicts);
    AllOverlappingIff(notes, q, paths, c);
  }

  // ---------------------------------------------------------------------------------------------
  // Runs
  // ---------------------------------------------------------------------------------------------

  datatype World = World(notes: seq<Note>, nextId: nat)

  /** Whether the write that follows pruning fails, or the one that follows the change. */
  datatype Disk = Disk(pruneFails: bool, writeFails: bool)

  /** `seen` is the time at which the file is pruned, `now` the time of the change. */
  datatype Action =
    | Create(q: Caller, kind: string, message: string, paths: seq<string>, hook: bool, key: Option<Key>, ttl: int, seen: int, now: int, disk: Disk)
    | Revise(id: nat, q: Caller, newKind: Option<string>, newMessage: Option<string>, newPaths: Option<seq<string>>, newTtl: Option<int>,
             seen: int, now: int, disk: Disk)
    | Delete(id: nat, q: Caller, seen: int, disk: Disk)
    | Reserve(q: Caller, paths: seq<string>, ttl: int, seen: int, now: int, disk: Disk)
    | Heartbeat(q: Caller, ttl: int, seen: int, now: int, disk: Disk)
    | EndSession(q: Caller, seen: int, disk: Disk)
    | Look(q: Caller, seen: int, disk: Disk)

  predicate GoodMessage(message: string) {
    0 < |Trim(message)| <= 4000
  }

  predicate Beats(n: Note, q: Caller) {
    n.hook && n.author == q.session && n.host == q.host && n.cwd == q.cwd
  }

  function Refresh(notes: seq<Note>, q: Caller, ttl: int, now: int): seq<Note> {
    if notes == [] then []
    else
      Refresh(notes[..|notes| - 1], q, ttl, now) + [Beat(notes[|notes| - 1], q, ttl, now)]
  }

  function Beat(n: Note, q: Caller, ttl: int, now: int): Note {
    if Beats(n, q) then n.(updatedAt := now, expiresAt := now + ttl * 1000) else n
  }

  function Revised(n: Note, a: Action): Option<Note>
    requires a.Revise?
  {
    if n.author != Trim(a.q.session) || (a.newMessage.Some? && !GoodMessage(a.newMessage.value)) || (a.newTtl.Some? && !GoodTtl(a.newTtl.value)) then None
    else Some(n.(
      kind := if a.newKind.Some? then a.newKind.value else n.kind,
      message := if a.newMessage.Some? then Trim(a.newMessage.value) else n.message,
      paths := if a.newPaths.Some? then a.newPaths.value else n.paths,
      expiresAt := if a.newTtl.Some? then a.now + a.newTtl.value * 1000 else n.expiresAt,
      updatedAt := a.now))
  }

  /** The change a call makes to the pruned notes; `None` when it throws. */
  function Change(notes: seq<Note>, nextId: nat, a: Action): Option<World> {
    match a
    case Create(q, kind, message, paths, hook, key, ttl, _, now, _) =>
      if !GoodTtl(ttl) || !GoodMessage(message) || !GoodSession(q.session) then None
      else Some(World(notes + [Note(nextId, kind, Trim(message), Trim(q.session), q.harness, q.host, q.cwd, paths, hook, key, now, now + ttl * 1000)], nextId + 1))
    case Revise(id, _, _, _, _, _, _, _, _) =>
      var i := IndexOfId(notes, id);
      if i < |notes| && Revised(notes[i], a).Some? then Some(World(notes[i := Revised(notes[i], a).value], nextId)) else None
    case Delete(id, q, _, _) =>
      var i := IndexOfId(notes, id);
      if i < |notes| && notes[i].author == Trim(q.session) then Some(World(notes[..i] + notes[i + 1..], nextId)) else None
    case Reserve(q, paths, ttl, _, now, _) =>
      (match if GoodTtl(ttl) then LeaseAll(Leases(notes, nextId, [], []), q, RealPaths(paths), ttl, now) else None
       case Some(l) => Some(World(l.notes, l.nextId))
       case None => None)
    case Heartbeat(q, ttl, _, now, _) => if GoodTtl(ttl) then Some(World(Refresh(notes, q, ttl, now), nextId)) else None
    case EndSession(q, _, _) => Some(World(Filter(notes, (n: Note) => !(n.author == q.session && n.hook)), nextId))
    case Look(_, _, _) => Some(World(notes, nextId))
  }

  function Step(w: World, a: Action): World {
    var pruned := Prune(w.notes, a.seen);
    if |pruned| != |w.notes| && a.disk.pruneFails then w
    else
      match Change(pruned, w.nextId, a)
      case Some(w') => if a.disk.writeFails then World(pruned, w'.nextId) else w'
      case None => w.(notes := pruned)
  }

  function AfterAll(actions: seq<Action>): World {
    if actions == [] then World([], 0) else Step(AfterAll(actions[..|actions| - 1]), actions[|actions| - 1])
  }

  // ---------------------------------------------------------------------------------------------
  // One lease per key, held by its own session
  // ---------------------------------------------------------------------------------------------

  /** No caller passes off a note of its own as an automatic lease.  `create` would copy the key of one, but the
      note tool, the way in for agents, has no field for a key (src/mcp/control-plane-tools.ts:86-91). */
  predicate Honest(a: Action) {
    a.Create? && a.key.Some? ==> a.key.value.OwnKey?
  }

  ghost predicate AllHonest(actions: seq<Action>) {
    forall k :: 0 <= k < |actions| ==> Honest(actions[k])
  }

  predicate IsLease(n: Note) {
    n.key.Some? && n.key.value.HookKey?
  }

  predicate OwnLease(n: Note) {
    IsLease(n) ==>
      n.author == Trim(n.key.value.hookSession) && n.host == n.key.value.hookHost && n.cwd == n.key.value.hookCwd && n.hook
  }

  predicate HasLease(notes: seq<Note>, key: Key) {
    notes != [] && ((IsLease(notes[|notes| - 1]) && notes[|notes| - 1].key.value == key) || HasLease(notes[..|notes| - 1], key))
  }

  predicate LeasesFit(notes: seq<Note>) {
    notes != [] ==>
      var n := notes[|notes| - 1];
      && LeasesFit(notes[..|notes| - 1]) && OwnLease(n)
      && (IsLease(n) ==> !HasLease(notes[..|notes| - 1], n.key.value))
  }

  lemma Snoc(notes: seq<Note>, n: Note)
    ensures (notes + [n])[..|notes + [n]| - 1] == notes && (notes + [n])[|notes + [n]| - 1] == n
  {
  }

  lemma {:induction false} FilterFits(notes: seq<Note>, keeps: Note -> bool)
    requires LeasesFit(notes)
    ensures LeasesFit(Filter(notes, keeps))
    ensures forall key :: HasLease(Filter(notes, keeps), key) ==> HasLease(notes, key)
  {
    if notes != [] {
      FilterFits(notes[..|notes| - 1], keeps);
      Snoc(Filter(notes[..|notes| - 1], keeps), notes[|notes| - 1]);
    }
  }

  /** Replacing a note by one with the same owner, place and key. */
  lemma {:induction false} ReplaceFits(notes: seq<Note>, i: nat, n: Note)
    requires LeasesFit(notes) && i < |notes| && n.key == notes[i].key && n.author == notes[i].author
    requires n.host == notes[i].host && n.cwd == notes[i].cwd && n.hook == notes[i].hook
    ensures LeasesFit(notes[i := n]) && forall key :: HasLease(notes[i := n], key) <==> HasLease(notes, key)
  {
    var last := |notes| - 1;
    if i < last {
      assert notes[i := n][..last] == notes[..last][i := n];
      ReplaceFits(notes[..last], i, n);
    } else {
      assert notes[i := n][..last] == notes[..last];
    }
  }

  lemma {:induction false} RemoveFits(notes: seq<Note>, i: nat)
    requires LeasesFit(notes) && i < |notes|
    ensures LeasesFit(notes[..i] + notes[i + 1..])
    ensures forall key :: HasLease(notes[..i] + notes[i + 1..], key) ==> HasLease(notes, key)
  {
    var last := |notes| - 1;
    if i < last {
      RemoveFits(notes[..last], i);
      assert notes[..i] + notes[i + 1..] == (notes[..last][..i] + notes[..last][i + 1..]) + [notes[last]];
      Snoc(notes[..last][..i] + notes[..last][i + 1..], notes[last]);
    } else {
      assert notes[..i] + notes[i + 1..] == notes[..last];
    }
  }

  /** A heartbeat changes times only. */
  lemma BeatKeepsLease(n: Note, q: Caller, ttl: int, now: int)
    ensures var m := Beat(n, q, ttl, now);
      m.key == n.key && IsLease(m) == IsLease(n) && OwnLease(m) == OwnLease(n)
  {
  }

  lemma {:induction false} RefreshHasLease(notes: seq<Note>, q: Caller, ttl: int, now: int, key: Key)
    ensures HasLease(Refresh(notes, q, ttl, now), key) <==> HasLease(notes, key)
  {
    if notes != [] {
      var init, last := notes[..|notes| - 1], notes[|notes| - 1];
      RefreshHasLease(init, q, ttl, now, key);
      BeatKeepsLease(last, q, ttl, now);
      Snoc(Refresh(init, q, ttl, now), Beat(last, q, ttl, now));
    }
  }

  lemma LeasesFitSnoc(notes: seq<Note>, n: Note)
    requires LeasesFit(notes) && OwnLease(n) && (IsLease(n) ==> !HasLease(notes, n.key.value))
    ensures LeasesFit(notes + [n])
  {
    Snoc(notes, n);
  }

  lemma {:induction false} RefreshFits(notes: seq<Note>, q: Caller, ttl: int, now: int)
    requires LeasesFit(notes)
    ensures LeasesFit(Refresh(notes, q, ttl, now))
  {
    if notes != [] {
      var init, last := notes[..|notes| - 1], notes[|notes| - 1];
      RefreshFits(init, q, ttl, now);
      BeatKeepsLease(last, q, ttl, now);
      if IsLease(last) { RefreshHasLease(init, q, ttl, now, last.key.value); }
      LeasesFitSnoc(Refresh(init, q, ttl, now), Beat(last, q, ttl, now));
    }
  }

  lemma {:induction false} NoIndexNoLease(notes: seq<Note>, key: Key)
    requires key.HookKey?
    ensures IndexOfKey(notes, key) == |notes| <==> !HasLease(notes, key)
  {
    if notes != [] { NoIndexNoLease(notes[..|notes| - 1], key); }
  }

  lemma LeaseFits(l: Leases, q: Caller, path: string, ttl: int, now: int)
    requires LeasesFit(l.notes) && Lease(l, q, path, ttl, now).Some?
    ensures LeasesFit(Lease(l, q, path, ttl, now).value.notes)
  {
    var i := IndexOfKey(l.notes, LeaseKey(q, path));
    if i < |l.notes| {
      ReplaceFits(l.notes, i, l.notes[i].(updatedAt := now, expiresAt := now + ttl * 1000, harness := q.harness));
    } else {
      NoIndexNoLease(l.notes, LeaseKey(q, path));
      Snoc(l.notes, NewLease(q, path, l.nextId, ttl, now));
    }
  }

  lemma {:induction false} LeaseAllFits(start: Leases, q: Caller, paths: seq<string>, ttl: int, now: int)
    requires LeasesFit(start.notes) && LeaseAll(start, q, paths, ttl, now).Some?
    ensures LeasesFit(LeaseAll(start, q, paths, ttl, now).value.notes)
  {
    if paths != [] {
      LeaseAllFits(start, q, paths[..|paths| - 1], ttl, now);
      LeaseFits(LeaseAll(start, q, paths[..|paths| - 1], ttl, now).value, q, paths[|paths| - 1], ttl, now);
    }
  }

  lemma ChangeFits(notes: seq<Note>, nextId: nat, a: Action)
    requires LeasesFit(notes) && Honest(a) && Change(notes, nextId, a).Some?
    ensures LeasesFit(Change(notes, nextId, a).value.notes)
  {
    match a
    case Create(_, _, _, _, _, _, _, _, _, _) => Snoc(notes, Change(notes, nextId, a).value.notes[|notes|]);
    case Revise(id, _, _, _, _, _, _, _, _) => ReplaceFits(notes, IndexOfId(notes, id), Revised(notes[IndexOfId(notes, id)], a).value);
    case Delete(id, _, _, _) => RemoveFits(notes, IndexOfId(notes, id));
    case Reserve(q, paths, ttl, _, now, _) => LeaseAllFits(Leases(notes, nextId, [], []), q, RealPaths(paths), ttl, now);
    case Heartbeat(q, ttl, _, now, _) => RefreshFits(notes, q, ttl, now);
    case EndSession(q, _, _) => FilterFits(notes, (n: Note) => !(n.author == q.session && n.hook));
    case Look(_, _, _) =>
  }

  lemma StepFits(w: World, a: Action)
    requires LeasesFit(w.notes) && Honest(a)
    ensures LeasesFit(Step(w, a).notes)
  {
    var pruned := Prune(w.notes, a.seen);
    FilterFits(w.notes, (n: Note) => Kept(n, a.seen));
    if Change(pruned, w.nextId, a).Some? { ChangeFits(pruned, w.nextId, a); }
  }

  /** At most one automatic lease exists for a host, session, workspace and path, and it belongs to that
      session, over every run in which callers do not forge the key of a lease. */
  lemma {:induction false} OneLeasePerKey(actions: seq<Action>)
    requires AllHonest(actions)
    ensures LeasesFit(AfterAll(actions).notes)
  {
    if actions != [] {
      var init := actions[..|actions| - 1];
      assert AllHonest(init);
      OneLeasePerKey(init);
      assert Honest(actions[|actions| - 1]);
      StepFits(AfterAll(init), actions[|actions| - 1]);
    }
  }

  lemma {:induction false} LeasesAreApart(notes: seq<Note>, i: nat, j: nat)
    requires LeasesFit(notes) && i < j < |notes| && IsLease(notes[i]) && IsLease(notes[j])
    ensures notes[i].key != notes[j].key && OwnLease(notes[i]) && OwnLease(notes[j])
  {
    var last := |notes| - 1;
    LeaseAt(notes, i);
    LeaseAt(notes[..j], i);
    if j < last {
      assert notes[..last][..j] == notes[..j];
      LeasesAreApart(notes[..last], i, j);
    } else {
      assert notes[..j] == notes[..last];
    }
  }

  lemma {:induction false} LeaseAt(notes: seq<Note>, i: nat)
    requires i < |notes| && IsLease(notes[i])
    ensures HasLease(notes, notes[i].key.value) && (LeasesFit(notes) ==> OwnLease(notes[i]))
  {
    if i < |notes| - 1 { LeaseAt(notes[..|notes| - 1], i); }
  }

  // ---------------------------------------------------------------------------------------------
  // No foreign writes
  // ---------------------------------------------------------------------------------------------

  /** A call of a session other than the author. */
  predicate Foreign(a: Action, author: string) {
    a.q.session != author && Trim(a.q.session) != author
  }

  lemma {:induction false} FilterHas(notes: seq<Note>, keeps: Note -> bool, n: Note)
    requires n in notes && keeps(n)
    ensures n in Filter(notes, keeps)
  {
    var last := |notes| - 1;
    assert notes == notes[..last] + [notes[last]];
    if n in notes[..last] { FilterHas(notes[..last], keeps, n); }
  }

  lemma ReplaceHas(notes: seq<Note>, i: nat, m: Note, n: Note)
    requires n in notes && i < |notes| && notes[i] != n
    ensures n in notes[i := m]
  {
    var j :| 0 <= j < |notes| && notes[j] == n;
    assert notes[i := m][j] == n;
  }

  lemma RemoveHas(notes: seq<Note>, i: nat, n: Note)
    requires n in notes && i < |notes| && notes[i] != n
    ensures n in notes[..i] + notes[i + 1..]
  {
    var j :| 0 <= j < |notes| && notes[j] == n;
    if j < i { assert notes[..i][j] == n; } else { assert notes[i + 1..][j - i - 1] == n; }
  }

  lemma {:induction false} RefreshHas(notes: seq<Note>, q: Caller, ttl: int, now: int, n: Note)
    requires n in notes && n.author != q.session
    ensures n in Refresh(notes, q, ttl, now)
  {
    var last := |notes| - 1;
    assert notes == notes[..last] + [notes[last]];
    if n in notes[..last] { RefreshHas(notes[..last], q, ttl, now, n); }
  }

  lemma LeaseHas(l: Leases, q: Caller, path: string, ttl: int, now: int, n: Note)
    requires LeasesFit(l.notes) && n in l.notes && n.author != Trim(q.session) && Lease(l, q, path, ttl, now).Some?
    ensures n in Lease(l, q, path, ttl, now).value.notes
  {
    var i := IndexOfKey(l.notes, LeaseKey(q, path));
    if i < |l.notes| {
      LeaseAt(l.notes, i);
      ReplaceHas(l.notes, i, l.notes[i].(updatedAt := now, expiresAt := now + ttl * 1000, harness := q.harness), n);
    }
  }

  lemma {:induction false} LeaseAllHas(start: Leases, q: Caller, paths: seq<string>, ttl: int, now: int, n: Note)
    requires LeasesFit(start.notes) && n in start.notes && n.author != Trim(q.session) && LeaseAll(start, q, paths, ttl, now).Some?
    ensures n in LeaseAll(start, q, paths, ttl, now).value.notes
  {
    if paths != [] {
      LeaseAllFits(start, q, paths[..|paths| - 1], ttl, now);
      LeaseAllHas(start, q, paths[..|paths| - 1], ttl, now, n);
      LeaseHas(LeaseAll(start, q, paths[..|paths| - 1], ttl, now).value, q, paths[|paths| - 1], ttl, now, n);
    }
  }

  lemma ChangeHas(notes: seq<Note>, nextId: nat, a: Action, n: Note)
    requires LeasesFit(notes) && n in notes && Foreign(a, n.author) && Change(notes, nextId, a).Some?
    ensures n in Change(notes, nextId, a).value.notes
  {
    match a
    case Create(_, _, _, _, _, _, _, _, _, _) =>
    case Revise(id, _, _, _, _, _, _, _, _) => ReplaceHas(notes, IndexOfId(notes, id), Revised(notes[IndexOfId(notes, id)], a).value, n);
    case Delete(id, _, _, _) => RemoveHas(notes, IndexOfId(notes, id), n);
    case Reserve(q, paths, ttl, _, now, _) => LeaseAllHas(Leases(notes, nextId, [], []), q, RealPaths(paths), ttl, now, n);
    case Heartbeat(q, ttl, _, now, _) => RefreshHas(notes, q, ttl, now, n);
    case EndSession(q, _, _) => FilterHas(notes, (m: Note) => !(m.author == q.session && m.hook), n);
    case Look(_, _, _) =>
  }

  lemma StepHas(w: World, a: Action, n: Note)
    requires LeasesFit(w.notes) && n in w.notes && Foreign(a, n.author) && Kept(n, a.seen)
    ensures n in Step(w, a).notes
  {
    var pruned := Prune(w.notes, a.seen);
    FilterHas(w.notes, (m: Note) => Kept(m, a.seen), n);
    FilterFits(w.notes, (m: Note) => Kept(m, a.seen));
    if Change(pruned, w.nextId, a).Some? { ChangeHas(pruned, w.nextId, a, n); }
  }

  /** No call of another session changes or drops a note before it expires, leases on device sinks excepted. */
  lemma {:induction false} NoForeignWrites(actions: seq<Action>, i: nat, n: Note)
    requires AllHonest(actions) && i <= |actions| && n in AfterAll(actions[..i]).notes
    requires forall k :: i <= k < |actions| ==> Foreign(actions[k], n.author) && Kept(n, actions[k].seen)
    ensures n in AfterAll(actions).notes
  {
    if i == |actions| {
      assert actions[..i] == actions;
    } else {
      var init, a := actions[..|actions| - 1], actions[|actions| - 1];
      assert init[..i] == actions[..i] && AllHonest(init);
      forall k | i <= k < |init| ensures Foreign(init[k], n.author) && Kept(n, init[k].seen) { assert init[k] == actions[k]; }
      NoForeignWrites(init, i, n);
      OneLeasePerKey(init);
      StepHas(AfterAll(init), a, n);
    }
  }

  /** What a reservation that does not throw reports. */
  function Report(w: World, a: Action): Option<seq<Conflict>>
    requires a.Reserve?
  {
    var pruned := Prune(w.notes, a.seen);
    if !GoodTtl(a.ttl) || (|pruned| != |w.notes| && a.disk.pruneFails) || a.disk.writeFails then None
    else
      match LeaseAll(Leases(pruned, w.nextId, [], []), a.q, RealPaths(a.paths), a.ttl, a.now)
      case Some(l) => Some(Dedupe(l.conflicts))
      case None => None
  }

  /** No silent overlap: a note stands until it expires, whatever others do, and any reservation of an
      overlapping path by another session in that time reports it. */
  lemma NoSilentOverlap(actions: seq<Action>, i: nat, n: Note, a: Action, path: string)
    requires AllHonest(actions) && i <= |actions| && n in AfterAll(actions[..i]).notes
    requires forall k :: i <= k < |actions| ==> Foreign(actions[k], n.author) && Kept(n, actions[k].seen)
    requires a.Reserve? && Trim(a.q.session) == a.q.session && Kept(n, a.seen) && Overlaps(n, a.q, path) && path in RealPaths(a.paths)
    requires Report(AfterAll(actions), a).Some?
    ensures Conflict(path, n.id) in Report(AfterAll(actions), a).value
  {
    var w := AfterAll(actions);
    var pruned := Prune(w.notes, a.seen);
    NoForeignWrites(actions, i, n);
    FilterHas(w.notes, (m: Note) => Kept(m, a.seen), n);
    ReportsExactly(pruned, w.nextId, a.q, RealPaths(a.paths), a.ttl, a.now, Conflict(path, n.id));
    var j :| 0 <= j < |pruned| && pruned[j] == n;
    assert OverlapAt(pruned, j, a.q, path, Conflict(path, n.id));
  }

  // ---------------------------------------------------------------------------------------------
  // A session's own lease
  // ---------------------------------------------------------------------------------------------

  predicate Below(notes: seq<Note>, bound: nat) {
    forall i :: 0 <= i < |notes| ==> notes[i].id < bound
  }

  lemma {:induction false} FilterBelow(notes: seq<Note>, keeps: Note -> bool, bound: nat)
    requires Below(notes, bound)
    ensures Below(Filter(notes, keeps), bound)
  {
    if notes != [] { FilterBelow(notes[..|notes| - 1], keeps, bound); }
  }

  lemma {:induction false} RefreshBelow(notes: seq<Note>, q: Caller, ttl: int, now: int, bound: nat)
    requires Below(notes, bound)
    ensures Below(Refresh(notes, q, ttl, now), bound)
  {
    if notes != [] { RefreshBelow(notes[..|notes| - 1], q, ttl, now, bound); }
  }

  lemma {:induction false} LeaseAllBelow(start: Leases, q: Caller, paths: seq<string>, ttl: int, now: int)
    requires Below(start.notes, start.nextId) && LeaseAll(start, q, paths, ttl, now).Some?
    ensures var l := LeaseAll(start, q, paths, ttl, now).value; Below(l.notes, l.nextId) && start.nextId <= l.nextId
  {
    if paths != [] { LeaseAllBelow(start, q, paths[..|paths| - 1], ttl, now); }
  }

  lemma ChangeBelow(notes: seq<Note>, nextId: nat, a: Action)
    requires Below(notes, nextId) && Change(notes, nextId, a).Some?
    ensures var w := Change(notes, nextId, a).value; Below(w.notes, w.nextId) && nextId <= w.nextId
  {
    match a
    case Reserve(q, paths, ttl, _, now, _) => LeaseAllBelow(Leases(notes, nextId, [], []), q, RealPaths(paths), ttl, now);
    case Heartbeat(q, ttl, _, now, _) => RefreshBelow(notes, q, ttl, now, nextId);
    case EndSession(q, _, _) => FilterBelow(notes, (n: Note) => !(n.author == q.session && n.hook), nextId);
    case _ =>
  }

  /** Ids are given out once: every note has one that was. */
  lemma {:induction false} IdsAreBelow(actions: seq<Action>)
    ensures Below(AfterAll(actions).notes, AfterAll(actions).nextId)
  {
    if actions != [] {
      var w, a := AfterAll(actions[..|actions| - 1]), actions[|actions| - 1];
      IdsAreBelow(actions[..|actions| - 1]);
      FilterBelow(w.notes, (n: Note) => Kept(n, a.seen), w.nextId);
      if Change(Prune(w.notes, a.seen), w.nextId, a).Some? { ChangeBelow(Prune(w.notes, a.seen), w.nextId, a); }
    }
  }

  /** On any board that has no such lease: the lease just made is among what its own session would be told of,
      exactly if there are blanks around the session's id. */
  lemma NewLeaseOverlapsIff(notes: seq<Note>, q: Caller, path: string, id: nat, ttl: int, now: int)
    requires Below(notes, id)
    ensures Conflict(path, id) in Overlapping(notes + [NewLease(q, path, id, ttl, now)], q, path) <==> Trim(q.session) != q.session
  {
    var n, c := NewLease(q, path, id, ttl, now), Conflict(path, id);
    var all := notes + [n];
    OverlappingIff(all, q, path, c);
    OverlapLast(all, q, path, c);
    assert all[..|all| - 1] == notes;
    assert n.paths[0] == path && PathMatches(path, path);
  }

  /** Reserving one real path that has no lease yet appends one. */
  lemma FirstReservation(w: World, a: Action, path: string)
    requires a.Reserve? && a.paths == [path] && !IsDeviceSink(path) && Report(w, a).Some?
    requires IndexOfKey(Prune(w.notes, a.seen), LeaseKey(a.q, path)) == |Prune(w.notes, a.seen)|
    ensures Step(w, a) == World(Prune(w.notes, a.seen) + [NewLease(a.q, path, w.nextId, a.ttl, a.now)], w.nextId + 1)
  {
    OneRealPath(path);
    OneLease(Leases(Prune(w.notes, a.seen), w.nextId, [], []), a.q, path, a.ttl, a.now);
  }

  lemma OneRealPath(path: string)
    requires !IsDeviceSink(path)
    ensures RealPaths([path]) == [path]
  {
    assert [path][..0] == [];
  }

  lemma OneLease(start: Leases, q: Caller, path: string, ttl: int, now: int)
    ensures LeaseAll(start, q, [path], ttl, now) == Lease(start, q, path, ttl, now)
  {
    assert [path][..0] == [];
  }

  /** A session that reserves a path again while its lease stands is told of its own lease exactly if there are
      blanks around its id: the author is trimmed, and the comparison is not. */
  lemma OwnLeaseReportedIff(actions: seq<Action>, a: Action, b: Action, path: string)
    requires a.Reserve? && b.Reserve? && a.q == b.q && a.paths == b.paths == [path] && !IsDeviceSink(path)
    requires var pruned := Prune(AfterAll(actions).notes, a.seen); IndexOfKey(pruned, LeaseKey(a.q, path)) == |pruned|
    requires Report(AfterAll(actions), a).Some? && Report(Step(AfterAll(actions), a), b).Some?
    requires b.seen < a.now + a.ttl * 1000
    ensures Conflict(path, AfterAll(actions).nextId) in Report(Step(AfterAll(actions), a), b).value <==> Trim(a.q.session) != a.q.session
  {
    var w := AfterAll(actions);
    IdsAreBelow(actions);
    FirstReservation(w, a, path);
    var pruned, n := Prune(w.notes, a.seen), NewLease(a.q, path, w.nextId, a.ttl, a.now);
    FilterBelow(w.notes, (m: Note) => Kept(m, a.seen), w.nextId);
    FilterBelow(pruned, (m: Note) => Kept(m, b.seen), w.nextId);
    assert n.paths[0] == path;
    Snoc(pruned, n);
    var board := Prune(Step(w, a).notes, b.seen);
    assert board == Prune(pruned, b.seen) + [n];
    OneRealPath(path);
    OneLease(Leases(board, w.nextId + 1, [], []), b.q, path, b.ttl, b.now);
    LeaseConflicts(Leases(board, w.nextId + 1, [], []), b.q, path, b.ttl, b.now);
    DedupeKeeps(Overlapping(board, b.q, path));
    NewLeaseOverlapsIff(Prune(pruned, b.seen), a.q, path, w.nextId, a.ttl, a.now);
    assert [] + Overlapping(board, b.q, path) == Overlapping(board, b.q, path);
  }

  // ---------------------------------------------------------------------------------------------
  // The opened file, changed in place
  // ---------------------------------------------------------------------------------------------

  class NoteFile {
    var notes: seq<Note>
    var nextId: nat

    constructor (notes: seq<Note>, nextId: nat)
      ensures this.notes == notes && this.nextId == nextId
    {
      this.notes := notes;
      this.nextId := nextId;
    }

    /** `filter`, as pruning and the end of a session use it. */
    method FilterNotes(keeps: Note -> bool)
      modifies this`notes
      ensures notes == Filter(old(notes), keeps)
    {
      var kept: seq<Note>, i := [], 0;
      while i < |notes|
        invariant i <= |notes| && notes == old(notes) && kept == Filter(notes[..i], keeps)
      {
        assert notes[..i + 1][..i] == notes[..i];
        if keeps(notes[i]) { kept := kept + [notes[i]]; }
        i := i + 1;
      }
      assert notes[..i] == notes;
      notes := kept;
    }

    method FindKey(key: Key) returns (i: nat)
      ensures i == IndexOfKey(notes, key)
    {
      i := 0;
      while i < |notes| && notes[i].key != Some(key)
        invariant i <= |notes| && IndexOfKey(notes[..i], key) == i
      {
        assert notes[..i + 1][..i] == notes[..i];
        i := i + 1;
      }
      FirstKey(notes, key, i);
    }

    /** The inner loop of `reservePaths` over the notes. */
    method CollectConflicts(q: Caller, path: string) returns (conflicts: seq<Conflict>)
      ensures conflicts == Overlapping(notes, q, path)
    {
      conflicts := [];
      var i := 0;
      while i < |notes|
        invariant i <= |notes| && conflicts == Overlapping(notes[..i], q, path)
      {
        assert notes[..i + 1][..i] == notes[..i];
        if Overlaps(notes[i], q, path) { conflicts := conflicts + [Conflict(path, notes[i].id)]; }
        i := i + 1;
      }
      assert notes[..i] == notes;
    }

    /** `reservePaths`, once the file is pruned: leases and reported conflicts, or an exception. */
    method ReservePaths(q: Caller, paths: seq<string>, ttl: int, now: int) returns (ok: bool, leases: seq<nat>, reported: seq<Conflict>)
      modifies this
      ensures var all := if GoodTtl(ttl) then LeaseAll(Leases(old(notes), old(nextId), [], []), q, RealPaths(paths), ttl, now) else None;
              && ok == all.Some?
              && (ok ==> notes == all.value.notes && nextId == all.value.nextId && leases == all.value.ids
                         && reported == Dedupe(all.value.conflicts))
    {
      leases, reported := [], [];
      if !GoodTtl(ttl) { return false, [], []; }
      var wanted := RealPaths(paths);
      var conflicts, k := [], 0;
      ghost var start := Leases(notes, nextId, [], []);
      while k < |wanted|
        invariant k <= |wanted| && LeaseAll(start, q, wanted[..k], ttl, now) == Some(Leases(notes, nextId, conflicts, leases))
      {
        LeaseGoesOn(start, q, wanted, ttl, now, k);
        var lease, more;
        ok, lease, more := LeasePath(q, wanted[k], ttl, now, conflicts, leases);
        if !ok {
          LeaseStops(start, q, wanted, ttl, now, k);
          return false, [], [];
        }
        conflicts, leases := conflicts + more, leases + [lease];
        k := k + 1;
      }
      assert wanted[..k] == wanted;
      reported := DedupeConflicts(conflicts);
      ok := true;
    }

    /** The body of the loop over the paths. */
    method LeasePath(q: Caller, path: string, ttl: int, now: int, ghost conflicts: seq<Conflict>, ghost ids: seq<nat>)
      returns (ok: bool, lease: nat, more: seq<Conflict>)
      modifies this
      ensures var l := Lease(Leases(old(notes), old(nextId), conflicts, ids), q, path, ttl, now);
              ok == l.Some? && (ok ==> l.value == Leases(notes, nextId, conflicts + more, ids + [lease]))
    {
      more := CollectConflicts(q, path);
      var i := FindKey(LeaseKey(q, path));
      if i < |notes| {
        lease := notes[i].id;
        notes := notes[i := notes[i].(updatedAt := now, expiresAt := now + ttl * 1000, harness := q.harness)];
      } else {
        if !GoodSession(q.session) { return false, 0, []; }
        lease := nextId;
        notes := notes + [NewLease(q, path, nextId, ttl, now)];
        nextId := nextId + 1;
      }
      ok := true;
    }

    method DedupeConflicts(conflicts: seq<Conflict>) returns (kept: seq<Conflict>)
      ensures kept == Dedupe(conflicts)
    {
      kept := [];
      var seen: set<Conflict>, i := {}, 0;
      while i < |conflicts|
        invariant i <= |conflicts| && kept == Dedupe(conflicts[..i]) && forall c :: c in seen <==> c in kept
      {
        assert conflicts[..i + 1][..i] == conflicts[..i];
        if conflicts[i] !in seen {
          seen := seen + {conflicts[i]};
          kept := kept + [conflicts[i]];
        }
        i := i + 1;
      }
      assert conflicts[..i] == conflicts;
    }

    /** `heartbeatSession`. */
    method HeartbeatNotes(q: Caller, ttl: int, now: int)
      modifies this`notes
      ensures notes == Refresh(old(notes), q, ttl, now)
    {
      ghost var before := notes;
      var i := 0;
      while i < |notes|
        invariant i <= |notes| == |before| && notes[..i] == Refresh(before[..i], q, ttl, now) && notes[i..] == before[i..]
      {
        assert before[..i + 1][..i] == before[..i] && notes[i] == notes[i..][0] == before[i];
        notes := notes[i := Beat(notes[i], q, ttl, now)];
        i := i + 1;
      }
      assert before[..i] == before && notes[..i] == notes;
    }
  }

  lemma {:induction false} FirstKey(notes: seq<Note>, key: Key, i: nat)
    requires i <= |notes| && IndexOfKey(notes[..i], key) == i && (i < |notes| ==> notes[i].key == Some(key))
    ensures IndexOfKey(notes, key) == i
  {
    if i == |notes| {
      assert notes[..i] == notes;
    } else if i < |notes| - 1 {
      var init := notes[..|notes| - 1];
      assert init[..i] == notes[..i];
      FirstKey(init, key, i);
    }
  }

  lemma LeaseGoesOn(start: Leases, q: Caller, paths: seq<string>, ttl: int, now: int, k: nat)
    requires k < |paths| && LeaseAll(start, q, paths[..k], ttl, now).Some?
    ensures LeaseAll(start, q, paths[..k + 1], ttl, now) == Lease(LeaseAll(start, q, paths[..k], ttl, now).value, q, paths[k], ttl, now)
  {
    assert paths[..k + 1][..k] == paths[..k];
  }

  lemma {:induction false} LeaseStops(start: Leases, q: Caller, paths: seq<string>, ttl: int, now: int, k: nat)
    requires k < |paths| && LeaseAll(start, q, paths[..k], ttl, now).Some?
    requires Lease(LeaseAll(start, q, paths[..k], ttl, now).value, q, paths[k], ttl, now) == None
    ensures LeaseAll(start, q, paths, ttl, now) == None
  {
    var init := paths[..|paths| - 1];
    if k < |paths| - 1 {
      assert init[..k] == paths[..k];
      LeaseStops(start, q, init, ttl, now, k);
    }
  }
}
