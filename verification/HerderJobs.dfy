/** The job registry of src/herder-jobs.ts with its persisted history. */
module HerderJobs {
  // Runners report progress and finish at any time, even late; a history write may fail; the process may
  // restart; and the file may be found damaged.  SHA-256 ids are injective and UUIDs are fresh.

  import opened Common

  datatype JobId = Keyed(key: string) | Random(n: nat)

  datatype State = Queued | Running | Waiting | Cancelling | Completed | Failed | Cancelled | Interrupted

  datatype Record = Record(
    state: State, createdAt: int, updatedAt: int, fingerprint: Option<string>, durableOnce: bool)

  /** Where the runner of a job stands; `Absent` after a restart. */
  datatype Runner = NotEntered | Entered | Ended | Absent

  /** A job of this process; `serial` tells two jobs apart that had the same id at different times. */
  datatype Job = Job(record: Record, aborted: bool, runner: Runner, serial: nat)

  type Jobs = map<JobId, Job>

  datatype History = NoFile | Damaged | Stored(records: map<JobId, Record>)

  predicate Terminal(s: State) {
    s == Completed || s == Failed || s == Cancelled || s == Interrupted
  }

  predicate Stopping(s: State) {
    s == Cancelling || s == Cancelled
  }

  // ---------------------------------------------------------------------------------------------
  // Writing, trimming and restoring
  // ---------------------------------------------------------------------------------------------

  /** The file body: every durable record, and the ordinary ones the retention bounds keep. */
  function Body(jobs: Jobs, kept: set<JobId>): map<JobId, Record> {
    map id | id in jobs && (jobs[id].record.durableOnce || id in kept) :: jobs[id].record
  }

  /** `persist`: an unreadable history is never replaced, and a failing write leaves the old file. */
  function Persist(jobs: Jobs, unreadable: bool, file: History, writes: bool, kept: set<JobId>): History {
    if unreadable || !writes then file else Stored(Body(jobs, kept))
  }

  predicate Removable(j: Job) {
    Terminal(j.record.state) && !j.record.durableOnce
  }

  /** What `trim` may have removed: nothing within the bound; else removable jobs, oldest first, until
      the bound is met or none is left. */
  predicate Trimmed(jobs: Jobs, left: Jobs, max: nat) {
    && left.Keys <= jobs.Keys
    && (forall id :: id in left ==> left[id] == jobs[id])
    && (forall id :: id in jobs && id !in left ==> Removable(jobs[id]))
    && (|jobs| <= max ==> left == jobs)
    && (|jobs| > max ==> |left| == max || forall id :: id in left ==> !Removable(left[id]))
    && (forall a, b :: a in jobs && a !in left && b in left && Removable(left[b]) ==>
          jobs[a].record.updatedAt <= jobs[b].record.updatedAt)
  }

  /** `left` where `trim` may leave it. */
  function TrimTo(jobs: Jobs, left: Jobs, max: nat): Jobs {
    if Trimmed(jobs, left, max) then left else jobs
  }

  predicate ValidHistory(records: map<JobId, Record>) {
    forall id :: id in records && records[id].durableOnce ==> id.Keyed?
  }

  function Interrupt(r: Record, now: int): Record {
    if Terminal(r.state) then r else r.(state := Interrupted, updatedAt := now)
  }

  /** `restore`: all durable records and the ordinary ones the bound keeps, nothing when unreadable. */
  function Restore(file: History, readable: bool, kept: set<JobId>, now: int, serial: nat): (Jobs, bool) {
    if !readable && !file.NoFile? then (map[], true)
    else match file
    case NoFile => (map[], false)
    case Damaged => (map[], true)
    case Stored(records) =>
      if !ValidHistory(records) then (map[], true)
      else
        (map id | id in records && (records[id].durableOnce || id in kept) ::
           Job(Interrupt(records[id], now), false, Absent, serial), false)
  }

  /** `restore` writes the history back when it interrupted a job. */
  predicate RestoreWrites(file: History, kept: set<JobId>) {
    file.Stored? && ValidHistory(file.records)
    && exists id :: id in file.records && (file.records[id].durableOnce || id in kept) && !Terminal(file.records[id].state)
  }

  // ---------------------------------------------------------------------------------------------
  // The registry, one event at a time
  // ---------------------------------------------------------------------------------------------

  /** `entries` counts how often the runner of a durable-once job was entered. */
  datatype World = World(jobs: Jobs, unreadable: bool, file: History, entries: map<JobId, nat>, serial: nat)

  /** The disk's part in an event: whether a write succeeds, and which ordinary jobs it keeps. */
  datatype Disk = Disk(writes: bool, kept: set<JobId>)

  datatype Action =
    | DoStart(id: JobId, fingerprint: Option<string>, durable: bool, now: int, left: Jobs, disk: Disk)
    | DoEnter(id: JobId, now: int, disk: Disk)
    | DoReport(id: JobId, state: State, now: int, disk: Disk)
    | DoReturn(id: JobId, ok: bool, now: int, disk: Disk)
    | DoCancel(id: JobId, now: int, disk: Disk)
    | DoWrite(disk: Disk)
    | DoRestart(readable: bool, now: int, kept: set<JobId>, disk: Disk)
    | DoDamage

  function Entries(entries: map<JobId, nat>, id: JobId): nat {
    if id in entries then entries[id] else 0
  }

  /** `patch` followed by a write that may fail silently. */
  function Patched(w: World, id: JobId, j: Job, disk: Disk): World {
    var jobs := w.jobs[id := j];
    w.(jobs := jobs, file := Persist(jobs, w.unreadable, w.file, disk.writes, disk.kept))
  }

  datatype Started = Refused | Existing | Begun

  /** Whether `start` begins a job, before its own write. */
  function Admit(jobs: Jobs, unreadable: bool, id: JobId, fingerprint: Option<string>, durable: bool): Started {
    if durable && (unreadable || !id.Keyed?) then Refused
    else if id in jobs then (if jobs[id].record.fingerprint != fingerprint then Refused else Existing)
    else Begun
  }

  function NewJob(fingerprint: Option<string>, durable: bool, now: int, serial: nat): Job {
    Job(Record(Queued, now, now, fingerprint, durable), false, NotEntered, serial)
  }

  function AfterStart(w: World, id: JobId, fingerprint: Option<string>, durable: bool, now: int, left: Jobs, max: nat, disk: Disk): World {
    if !Admit(w.jobs, w.unreadable, id, fingerprint, durable).Begun? then w
    else
      var added := w.jobs[id := NewJob(fingerprint, durable, now, w.serial)];
      var trimmed := TrimTo(added, left, max);
      var strict := id.Keyed?;
      if strict && (w.unreadable || !disk.writes) then w.(jobs := trimmed - {id}, serial := w.serial + 1)
      else w.(jobs := trimmed, file := Persist(trimmed, w.unreadable, w.file, disk.writes, disk.kept), serial := w.serial + 1)
  }

  /** The beginning of `run`: an aborted job is left alone, any other one enters its runner. */
  function Enter(w: World, id: JobId, now: int, disk: Disk): World
    requires id in w.jobs
  {
    var j := w.jobs[id];
    if j.aborted then w.(jobs := w.jobs[id := j.(runner := Ended)])
    else
      var entered := Patched(w, id, j.(runner := Entered, record := j.record.(state := Running, updatedAt := now)), disk);
      if j.record.durableOnce then entered.(entries := w.entries[id := Entries(w.entries, id) + 1]) else entered
  }

  function Return(w: World, id: JobId, ok: bool, now: int, disk: Disk): World
    requires id in w.jobs
  {
    var j := w.jobs[id];
    var state := if j.aborted || Stopping(j.record.state) then Cancelled else if ok then Completed else Failed;
    Patched(w, id, j.(runner := Ended, record := j.record.(state := state, updatedAt := now)), disk)
  }

  function Restarted(
      file: History, entries: map<JobId, nat>, serial: nat, readable: bool, now: int, kept: set<JobId>, disk: Disk): World
  {
    var (jobs, unreadable) := Restore(file, readable, kept, now, serial);
    World(jobs, unreadable, if RestoreWrites(file, kept) then Persist(jobs, unreadable, file, disk.writes, disk.kept) else file,
          entries, serial + 1)
  }

  function Step(max: nat, w: World, a: Action): World {
    match a
    case DoStart(id, fingerprint, durable, now, left, disk) => AfterStart(w, id, fingerprint, durable, now, left, max, disk)
    case DoEnter(id, now, disk) =>
      if id in w.jobs && w.jobs[id].runner == NotEntered then Enter(w, id, now, disk) else w
    case DoReport(id, state, now, disk) =>
      if id in w.jobs && (w.jobs[id].runner == Entered || w.jobs[id].runner == Ended)
         && (state == Running || state == Waiting) && !Stopping(w.jobs[id].record.state) then
        Patched(w, id, w.jobs[id].(record := w.jobs[id].record.(state := state, updatedAt := now)), disk)
      else w
    case DoReturn(id, ok, now, disk) =>
      if id in w.jobs && w.jobs[id].runner == Entered then Return(w, id, ok, now, disk) else w
    case DoCancel(id, now, disk) =>
      if id in w.jobs && !Terminal(w.jobs[id].record.state) then
        Patched(w, id, w.jobs[id].(aborted := true, record := w.jobs[id].record.(state := Cancelling, updatedAt := now)), disk)
      else w
    case DoWrite(disk) => w.(file := Persist(w.jobs, w.unreadable, w.file, disk.writes, disk.kept))
    case DoRestart(readable, now, kept, disk) =>
      Restarted(w.file, w.entries, w.serial, readable, now, kept, disk)
    case DoDamage => w.(file := Damaged)
  }

  predicate StepAt(max: nat, actions: seq<Action>, run: seq<World>, k: nat)
    requires |run| == |actions| + 1 && k < |actions|
  {
    run[k + 1] == Step(max, run[k], actions[k])
  }

  /** The worlds before, between and after the actions, from an empty registry without a file. */
  ghost predicate IsRun(max: nat, actions: seq<Action>, run: seq<World>) {
    && |run| == |actions| + 1
    && run[0] == World(map[], false, NoFile, map[], 0)
    && forall k: nat :: k < |actions| ==> StepAt(max, actions, run, k)
  }

  // ---------------------------------------------------------------------------------------------
  // Invariant
  // ---------------------------------------------------------------------------------------------

  predicate HasDurable(jobs: Jobs, id: JobId) {
    id in jobs && jobs[id].record.durableOnce
  }

  /** The file keeps the durable job, or cannot be read. */
  predicate FileHasDurable(file: History, id: JobId) {
    file.Damaged? || (file.Stored? && (!ValidHistory(file.records) || (id in file.records && file.records[id].durableOnce)))
  }

  predicate JobsFit(jobs: Jobs, serial: nat) {
    forall id :: id in jobs ==>
      && jobs[id].serial < serial
      && (jobs[id].record.durableOnce ==> id.Keyed?)
      && (jobs[id].aborted ==> Stopping(jobs[id].record.state))
  }

  /** A readable registry knows every durable job of its file, and the file every one of the registry. */
  ghost predicate DurableFits(jobs: Jobs, unreadable: bool, file: History) {
    && (forall id :: HasDurable(jobs, id) ==> FileHasDurable(file, id) && !unreadable)
    && (!unreadable && file.Stored? ==>
          forall id :: id in file.records && file.records[id].durableOnce ==> HasDurable(jobs, id))
    && (file.Stored? ==> ValidHistory(file.records))
  }

  /** A runner that was entered belongs to a job that is still on record, and was entered once. */
  predicate EntriesFit(jobs: Jobs, unreadable: bool, file: History, entries: map<JobId, nat>) {
    forall id :: id in entries ==>
      && entries[id] <= 1
      && FileHasDurable(file, id)
      && (unreadable || (HasDurable(jobs, id) && jobs[id].runner != NotEntered))
  }

  ghost predicate Inv(w: World) {
    && JobsFit(w.jobs, w.serial)
    && DurableFits(w.jobs, w.unreadable, w.file)
    && EntriesFit(w.jobs, w.unreadable, w.file, w.entries)
  }

  // ---------------------------------------------------------------------------------------------
  // Every step keeps the invariant
  // ---------------------------------------------------------------------------------------------

  /** A change that neither drops nor invents durable jobs may be written or not. */
  lemma WriteKeepsDurable(jobs: Jobs, jobs': Jobs, unreadable: bool, file: History, writes: bool, kept: set<JobId>)
    requires DurableFits(jobs, unreadable, file) && (forall id :: HasDurable(jobs', id) ==> id.Keyed?)
    requires forall id :: HasDurable(jobs, id) <==> HasDurable(jobs', id)
    ensures DurableFits(jobs', unreadable, Persist(jobs', unreadable, file, writes, kept))
    ensures forall id :: FileHasDurable(file, id) && (unreadable || HasDurable(jobs', id)) ==>
              FileHasDurable(Persist(jobs', unreadable, file, writes, kept), id)
  {
  }

  lemma PatchKeepsInv(w: World, id: JobId, j: Job, disk: Disk)
    requires Inv(w) && id in w.jobs
    requires j.serial == w.jobs[id].serial && j.record.durableOnce == w.jobs[id].record.durableOnce
    requires j.aborted ==> Stopping(j.record.state)
    requires j.runner == NotEntered ==> w.jobs[id].runner == NotEntered
    ensures Inv(Patched(w, id, j, disk))
  {
    var jobs := w.jobs[id := j];
    forall other ensures HasDurable(w.jobs, other) <==> HasDurable(jobs, other) {}
    WriteKeepsDurable(w.jobs, jobs, w.unreadable, w.file, disk.writes, disk.kept);
  }

  lemma StepKeepsInv(max: nat, w: World, a: Action)
    requires Inv(w)
    ensures Inv(Step(max, w, a))
  {
    match a
    case DoStart(id, fingerprint, durable, now, left, disk) => StartKeepsInv(w, id, fingerprint, durable, now, left, max, disk);
    case DoEnter(id, now, disk) => if id in w.jobs && w.jobs[id].runner == NotEntered { EnterKeepsInv(w, id, now, disk); }
    case DoReport(id, state, now, disk) =>
      if id in w.jobs && !Stopping(w.jobs[id].record.state) {
        PatchKeepsInv(w, id, w.jobs[id].(record := w.jobs[id].record.(state := state, updatedAt := now)), disk);
      }
    case DoReturn(id, ok, now, disk) =>
      if id in w.jobs && w.jobs[id].runner == Entered { PatchKeepsInv(w, id, Return(w, id, ok, now, disk).jobs[id], disk); }
    case DoCancel(id, now, disk) =>
      if id in w.jobs && !Terminal(w.jobs[id].record.state) {
        PatchKeepsInv(w, id, Step(max, w, a).jobs[id], disk);
      }
    case DoWrite(disk) => WriteKeepsDurable(w.jobs, w.jobs, w.unreadable, w.file, disk.writes, disk.kept);
    case DoRestart(readable, now, kept, disk) => RestartKeepsInv(max, w, readable, now, kept, disk);
    case DoDamage =>
  }

  /** A new job, and a trim after it, change no other durable job. */
  lemma TrimSparesDurable(jobs: Jobs, id: JobId, j: Job, left: Jobs, max: nat)
    ensures var trimmed := TrimTo(jobs[id := j], left, max);
      && (forall other :: other != id ==> (HasDurable(jobs, other) <==> HasDurable(trimmed, other)))
      && (forall other :: other in trimmed && other != id ==> other in jobs && trimmed[other] == jobs[other])
      && (id in trimmed ==> trimmed[id] == j)
  {
    var added, trimmed := jobs[id := j], TrimTo(jobs[id := j], left, max);
    forall other | other != id ensures HasDurable(jobs, other) <==> HasDurable(trimmed, other) {
      if HasDurable(jobs, other) { assert !Removable(added[other]); }
    }
  }

  lemma BegunIsNew(jobs: Jobs, unreadable: bool, id: JobId, fingerprint: Option<string>, durable: bool)
    requires Admit(jobs, unreadable, id, fingerprint, durable).Begun?
    ensures id !in jobs && (durable ==> id.Keyed?)
  {
  }

  lemma StartKeepsInv(w: World, id: JobId, fingerprint: Option<string>, durable: bool, now: int, left: Jobs, max: nat, disk: Disk)
    requires Inv(w)
    ensures Inv(AfterStart(w, id, fingerprint, durable, now, left, max, disk))
  {
    if Admit(w.jobs, w.unreadable, id, fingerprint, durable).Begun? {
      var j := NewJob(fingerprint, durable, now, w.serial);
      var trimmed := TrimTo(w.jobs[id := j], left, max);
      TrimSparesDurable(w.jobs, id, j, left, max);
      BegunIsNew(w.jobs, w.unreadable, id, fingerprint, durable);
      if id.Keyed? && (w.unreadable || !disk.writes) {
        UnwrittenKeepsDurable(w, id, trimmed);
      } else {
        StartedKeepsDurable(w, id, trimmed, disk);
      }
    }
  }

  predicate NewFits(id: JobId, j: Job, serial: nat) {
    j.serial == serial && !j.aborted && (j.record.durableOnce ==> id.Keyed?)
  }

  /** A job whose strict write failed is forgotten again. */
  lemma UnwrittenKeepsDurable(w: World, id: JobId, jobs: Jobs)
    requires Inv(w) && id !in w.jobs && (id in jobs ==> NewFits(id, jobs[id], w.serial))
    requires forall other :: other != id ==> (HasDurable(w.jobs, other) <==> HasDurable(jobs, other))
    requires forall other :: other in jobs && other != id ==> other in w.jobs && jobs[other] == w.jobs[other]
    ensures Inv(w.(jobs := jobs - {id}, serial := w.serial + 1))
  {
    forall other ensures HasDurable(w.jobs, other) <==> HasDurable(jobs - {id}, other) {}
  }

  /** A new job that made it into the file. */
  lemma StartedKeepsDurable(w: World, id: JobId, jobs: Jobs, disk: Disk)
    requires Inv(w) && id !in w.jobs && (id in jobs ==> NewFits(id, jobs[id], w.serial))
    requires HasDurable(jobs, id) ==> !w.unreadable && disk.writes
    requires forall other :: other != id ==> (HasDurable(w.jobs, other) <==> HasDurable(jobs, other))
    requires forall other :: other in jobs && other != id ==> other in w.jobs && jobs[other] == w.jobs[other]
    ensures Inv(World(jobs, w.unreadable, Persist(jobs, w.unreadable, w.file, disk.writes, disk.kept), w.entries, w.serial + 1))
  {
    if !HasDurable(jobs, id) {
      WriteKeepsDurable(w.jobs, jobs, w.unreadable, w.file, disk.writes, disk.kept);
    }
  }

  lemma EnterKeepsInv(w: World, id: JobId, now: int, disk: Disk)
    requires Inv(w) && id in w.jobs && w.jobs[id].runner == NotEntered
    ensures Inv(Enter(w, id, now, disk))
  {
    var j := w.jobs[id];
    if j.aborted {
      forall other ensures HasDurable(w.jobs, other) <==> HasDurable(w.jobs[id := j.(runner := Ended)], other) {}
    } else {
      PatchKeepsInv(w, id, j.(runner := Entered, record := j.record.(state := Running, updatedAt := now)), disk);
    }
  }

  lemma RestartKeepsInv(max: nat, w: World, readable: bool, now: int, kept: set<JobId>, disk: Disk)
    requires Inv(w)
    ensures Inv(Step(max, w, DoRestart(readable, now, kept, disk)))
  {
    var (jobs, unreadable) := Restore(w.file, readable, kept, now, w.serial);
    if RestoreWrites(w.file, kept) {
      WriteKeepsDurable(jobs, jobs, unreadable, w.file, disk.writes, disk.kept);
    }
  }

  lemma NextKeepsInv(max: nat, actions: seq<Action>, run: seq<World>, k: nat)
    requires IsRun(max, actions, run) && k < |actions| && Inv(run[k])
    ensures Inv(run[k + 1])
  {
    StepKeepsInv(max, run[k], actions[k]);
    assert StepAt(max, actions, run, k);
  }

  lemma {:induction false} RunKeepsInv(max: nat, actions: seq<Action>, run: seq<World>, k: nat)
    requires IsRun(max, actions, run) && k < |run|
    ensures Inv(run[k])
  {
    if k > 0 {
      RunKeepsInv(max, actions, run, k - 1);
      NextKeepsInv(max, actions, run, k - 1);
    }
  }

  // ---------------------------------------------------------------------------------------------
  // Durable-once jobs
  // ---------------------------------------------------------------------------------------------

  /** The runner of a durable-once job is entered at most once, over all restarts, failed writes,
      unreadable files and retention. */
  lemma DurableEnteredOnce(max: nat, actions: seq<Action>, run: seq<World>, k: nat, id: JobId)
    requires IsRun(max, actions, run) && k < |run|
    ensures Entries(run[k].entries, id) <= 1
  {
    RunKeepsInv(max, actions, run, k);
  }

  /** The registry has the durable job, or, being unable to read its history, lets the file keep it. */
  predicate Kept(w: World, id: JobId) {
    if w.unreadable then FileHasDurable(w.file, id) else HasDurable(w.jobs, id)
  }

  /** Whether the action begins a new job under the id. */
  predicate Begins(w: World, a: Action, id: JobId) {
    a.DoStart? && a.id == id && a.durable && Admit(w.jobs, w.unreadable, id, a.fingerprint, a.durable).Begun?
  }

  /** How one action may change a job that is still the same job afterwards. */
  predicate Evolves(j: Job, a: Action, id: JobId, j': Job) {
    && j'.serial == j.serial
    && j'.record.fingerprint == j.record.fingerprint
    && (j.aborted ==> j'.aborted)
    && (j.runner == Ended ==>
          j'.runner == Ended && (j'.record.state == Completed <==> j.record.state == Completed && !Reports(a, id)))
  }

  /** A report that the registry lets through, unless the job was cancelled. */
  predicate Reports(a: Action, id: JobId) {
    a.DoReport? && a.id == id && (a.state == Running || a.state == Waiting)
  }

  /** The job with this serial number, if the registry has it. */
  predicate Holds(jobs: Jobs, id: JobId, serial: nat) {
    id in jobs && jobs[id].serial == serial
  }

  /** What an action does to the job under one id. */
  predicate JobChanges(w: World, a: Action, id: JobId, w': World) {
    && w.serial <= w'.serial
    && (Kept(w, id) ==> Kept(w', id) && !Begins(w, a, id))
    && (id in w'.jobs && w'.jobs[id].serial < w.serial ==>
          !a.DoRestart? && id in w.jobs && Evolves(w.jobs[id], a, id, w'.jobs[id]))
  }

  /** What an action does to a history that could not be read, and to the file. */
  predicate HistoryChanges(w: World, a: Action, w': World) {
    && (w.unreadable && !a.DoRestart? ==> w'.unreadable && (!a.DoDamage? ==> w'.file == w.file))
    && (w.unreadable && w.file.Damaged? ==> w'.unreadable && w'.file.Damaged?)
    && (w.unreadable && a.DoStart? && a.durable ==> w' == w)
    && (w'.file.Damaged? ==> w.file.Damaged? || a.DoDamage?)
  }

  predicate Changes(w: World, a: Action, id: JobId, w': World) {
    JobChanges(w, a, id, w') && HistoryChanges(w, a, w')
  }

  lemma StepChangesHistory(max: nat, w: World, a: Action)
    ensures HistoryChanges(w, a, Step(max, w, a))
  {
  }

  lemma PatchChanges(w: World, a: Action, id: JobId, job: JobId, j: Job, disk: Disk)
    requires Inv(w) && job in w.jobs && Evolves(w.jobs[job], a, job, j)
    requires j.record.durableOnce == w.jobs[job].record.durableOnce && j.serial < w.serial
    requires !a.DoRestart? && !a.DoStart? && !a.DoDamage? && (a.DoReport? ==> a.id == job)
    ensures JobChanges(w, a, id, Patched(w, job, j, disk))
  {
  }

  /** A start leaves every other job as it was, or trims it. */
  lemma StartedChanges(w: World, a: Action, id: JobId, jobs: Jobs, file: History)
    requires Inv(w) && a.DoStart? && Admit(w.jobs, w.unreadable, a.id, a.fingerprint, a.durable).Begun?
    requires forall other :: other in jobs && other != a.id ==> other in w.jobs && jobs[other] == w.jobs[other]
    requires a.id in jobs ==> jobs[a.id].serial == w.serial
    requires HasDurable(w.jobs, id) ==> HasDurable(jobs, id)
    requires w.unreadable ==> file == w.file
    ensures JobChanges(w, a, id, World(jobs, w.unreadable, file, w.entries, w.serial + 1))
  {
  }

  lemma StartChanges(max: nat, w: World, a: Action, id: JobId)
    requires Inv(w) && a.DoStart?
    ensures JobChanges(w, a, id, AfterStart(w, a.id, a.fingerprint, a.durable, a.now, a.left, max, a.disk))
  {
    if Admit(w.jobs, w.unreadable, a.id, a.fingerprint, a.durable).Begun? {
      var j := NewJob(a.fingerprint, a.durable, a.now, w.serial);
      var trimmed := TrimTo(w.jobs[a.id := j], a.left, max);
      TrimSparesDurable(w.jobs, a.id, j, a.left, max);
      BegunIsNew(w.jobs, w.unreadable, a.id, a.fingerprint, a.durable);
      if a.id.Keyed? && (w.unreadable || !a.disk.writes) {
        assert HasDurable(w.jobs, id) ==> HasDurable(trimmed - {a.id}, id);
        StartedChanges(w, a, id, trimmed - {a.id}, w.file);
      } else {
        StartedChanges(w, a, id, trimmed, Persist(trimmed, w.unreadable, w.file, a.disk.writes, a.disk.kept));
      }
    }
  }

  lemma RestartChanges(max: nat, w: World, a: Action, id: JobId)
    requires Inv(w) && a.DoRestart?
    ensures JobChanges(w, a, id, Step(max, w, a))
  {
  }

  /** The steps that change one job and write. */
  lemma RunnerStepChanges(max: nat, w: World, a: Action, id: JobId)
    requires Inv(w) && (a.DoEnter? || a.DoReport? || a.DoReturn? || a.DoCancel?)
    ensures JobChanges(w, a, id, Step(max, w, a))
  {
    match a
    case DoEnter(job, now, disk) =>
      if job in w.jobs && w.jobs[job].runner == NotEntered && !w.jobs[job].aborted {
        PatchChanges(w, a, id, job, Enter(w, job, now, disk).jobs[job], disk);
      }
    case DoReport(job, state, now, disk) =>
      if job in w.jobs && !Stopping(w.jobs[job].record.state) && (state == Running || state == Waiting) {
        PatchChanges(w, a, id, job, w.jobs[job].(record := w.jobs[job].record.(state := state, updatedAt := now)), disk);
      }
    case DoReturn(job, ok, now, disk) =>
      if job in w.jobs && w.jobs[job].runner == Entered {
        PatchChanges(w, a, id, job, Return(w, job, ok, now, disk).jobs[job], disk);
      }
    case DoCancel(job, now, disk) =>
      if job in w.jobs && !Terminal(w.jobs[job].record.state) {
        PatchChanges(w, a, id, job, Step(max, w, a).jobs[job], disk);
      }
  }

  lemma StepChanges(max: nat, w: World, a: Action, id: JobId)
    requires Inv(w)
    ensures Changes(w, a, id, Step(max, w, a))
  {
    StepChangesHistory(max, w, a);
    match a
    case DoStart(_, _, _, _, _, _) => StartChanges(max, w, a, id);
    case DoRestart(_, _, _, _) => RestartChanges(max, w, a, id);
    case DoWrite(_) =>
    case DoDamage =>
    case _ => RunnerStepChanges(max, w, a, id);
  }

  lemma RunChanges(max: nat, actions: seq<Action>, run: seq<World>, k: nat, id: JobId)
    requires IsRun(max, actions, run) && k < |actions|
    ensures Changes(run[k], actions[k], id, run[k + 1])
    ensures Inv(run[k]) && Inv(run[k + 1])
  {
    RunKeepsInv(max, actions, run, k);
    RunKeepsInv(max, actions, run, k + 1);
    assert StepAt(max, actions, run, k);
    StepChanges(max, run[k], actions[k], id);
  }

  predicate OnFile(file: History, id: JobId) {
    file.Stored? && id in file.records && file.records[id].durableOnce
  }

  /** Only damage from outside makes a file damaged. */
  lemma {:induction false} UndamagedFile(max: nat, actions: seq<Action>, run: seq<World>, k: nat)
    requires IsRun(max, actions, run) && k < |run| && forall j :: 0 <= j < k ==> !actions[j].DoDamage?
    ensures !run[k].file.Damaged?
  {
    if k > 0 {
      UndamagedFile(max, actions, run, k - 1);
      RunChanges(max, actions, run, k - 1, Keyed(""));
    }
  }

  /** Once started, a durable-once job is never trimmed, left out of a write or begun anew.  At every later
      point its record is in the file, unless the file was damaged from outside; and the registry has the job,
      unless it could not read its history. */
  lemma {:induction false} DurableForever(max: nat, actions: seq<Action>, run: seq<World>, i: nat, k: nat, id: JobId)
    requires IsRun(max, actions, run) && i <= k < |run| && HasDurable(run[i].jobs, id)
    ensures Kept(run[k], id)
    ensures run[k].unreadable || HasDurable(run[k].jobs, id)
    ensures OnFile(run[k].file, id) || (run[k].file.Damaged? && exists j :: 0 <= j < k && actions[j].DoDamage?)
    ensures k < |actions| ==> !Begins(run[k], actions[k], id)
  {
    RunKeepsInv(max, actions, run, k);
    if i < k {
      DurableForever(max, actions, run, i, k - 1, id);
      RunChanges(max, actions, run, k - 1, id);
    }
    if k < |actions| { RunChanges(max, actions, run, k, id); }
    if forall j :: 0 <= j < k ==> !actions[j].DoDamage? { UndamagedFile(max, actions, run, k); }
  }

  /** A file that was unreadable when the registry started is never overwritten, whatever is asked of
      the registry and however often it restarts, and no durable-once job is ever begun over it. */
  lemma {:induction false} UnreadableHistoryIsHeld(max: nat, actions: seq<Action>, run: seq<World>, i: nat, k: nat)
    requires IsRun(max, actions, run) && i <= k < |run| && run[i].unreadable && run[i].file.Damaged?
    ensures run[k].unreadable && run[k].file.Damaged?
    ensures k < |actions| && actions[k].DoStart? && actions[k].durable ==>
              run[k + 1] == run[k]
  {
    if i < k {
      UnreadableHistoryIsHeld(max, actions, run, i, k - 1);
      RunChanges(max, actions, run, k - 1, Keyed(""));
    }
    if k < |actions| { RunChanges(max, actions, run, k, Keyed("")); }
  }

  /** A history that merely could not be read at startup stays exactly as it was until the next start, and
      until then no durable start has any effect. */
  lemma {:induction false} UnreadHistoryIsUntouched(max: nat, actions: seq<Action>, run: seq<World>, i: nat, k: nat)
    requires IsRun(max, actions, run) && i <= k < |run| && run[i].unreadable
    requires forall j :: i <= j < k ==> !actions[j].DoRestart? && !actions[j].DoDamage?
    ensures run[k].unreadable && run[k].file == run[i].file
    ensures k < |actions| && actions[k].DoStart? && actions[k].durable ==> run[k + 1] == run[k]
  {
    if i < k {
      UnreadHistoryIsUntouched(max, actions, run, i, k - 1);
      RunChanges(max, actions, run, k - 1, Keyed(""));
    }
    if k < |actions| { RunChanges(max, actions, run, k, Keyed("")); }
  }

  // ---------------------------------------------------------------------------------------------
  // Cancellation, and the state of a finished job
  // ---------------------------------------------------------------------------------------------

  /** A job seen at two times was there all the while, in the same life of the process. */
  lemma {:induction false} SameJobThroughout(max: nat, actions: seq<Action>, run: seq<World>, i: nat, k: nat, id: JobId, serial: nat)
    requires IsRun(max, actions, run) && i <= k < |run| && serial < run[i].serial && Holds(run[k].jobs, id, serial)
    ensures Holds(run[i].jobs, id, serial)
    ensures forall j :: i <= j < k ==> !actions[j].DoRestart?
    decreases k - i
  {
    if i < k {
      SerialsGrow(max, actions, run, i, k - 1);
      RunChanges(max, actions, run, k - 1, id);
      SameJobThroughout(max, actions, run, i, k - 1, id, serial);
    }
  }

  lemma {:induction false} SerialsGrow(max: nat, actions: seq<Action>, run: seq<World>, i: nat, k: nat)
    requires IsRun(max, actions, run) && i <= k < |run|
    ensures run[i].serial <= run[k].serial
  {
    if i < k {
      SerialsGrow(max, actions, run, i, k - 1);
      RunChanges(max, actions, run, k - 1, Keyed(""));
    }
  }

  /** Once a live job is cancelled, it is only ever seen cancelling or cancelled, whatever its runner
      reports or returns. */
  lemma {:induction false} CancelledStays(max: nat, actions: seq<Action>, run: seq<World>, i: nat, k: nat, id: JobId, serial: nat)
    requires IsRun(max, actions, run) && i <= k < |run| && Holds(run[i].jobs, id, serial) && run[i].jobs[id].aborted
    requires Holds(run[k].jobs, id, serial)
    ensures run[k].jobs[id].aborted && Stopping(run[k].jobs[id].record.state)
    decreases k - i
  {
    RunKeepsInv(max, actions, run, i);
    RunKeepsInv(max, actions, run, k);
    if i < k {
      SerialsGrow(max, actions, run, i, k - 1);
      RunChanges(max, actions, run, k - 1, id);
      CancelledStays(max, actions, run, i, k - 1, id, serial);
    }
  }

  /** A completed job stays completed exactly as long as its runner reports nothing more: "completed" is
      not final in this registry. */
  lemma {:induction false} CompletedStaysIff(max: nat, actions: seq<Action>, run: seq<World>, i: nat, k: nat, id: JobId, serial: nat)
    requires IsRun(max, actions, run) && i <= k < |run| && Holds(run[i].jobs, id, serial) && Holds(run[k].jobs, id, serial)
    requires run[i].jobs[id].record.state == Completed && run[i].jobs[id].runner == Ended
    ensures run[k].jobs[id].runner == Ended
    ensures run[k].jobs[id].record.state == Completed <==> forall j :: i <= j < k ==> !Reports(actions[j], id)
    decreases k - i
  {
    if i < k {
      RunKeepsInv(max, actions, run, i);
      SerialsGrow(max, actions, run, i, k - 1);
      RunChanges(max, actions, run, k - 1, id);
      CompletedStaysIff(max, actions, run, i, k - 1, id, serial);
    }
  }

  function JustStarted(): Job {
    Job(Record(Queued, 1, 1, None, true), false, NotEntered, 0)
  }

  predicate LateReporter(actions: seq<Action>, id: JobId) {
    actions == [
      DoStart(id, None, true, 1, map[id := JustStarted()], Disk(true, {})), DoEnter(id, 2, Disk(true, {})),
      DoReturn(id, true, 3, Disk(true, {})), DoReport(id, Running, 4, Disk(true, {})), DoRestart(true, 5, {}, Disk(true, {}))]
  }

  lemma LateReporterCompletes(max: nat, actions: seq<Action>, run: seq<World>, id: JobId)
    requires IsRun(max, actions, run) && LateReporter(actions, id) && id.Keyed?
    ensures run[3].jobs == map[id := Job(Record(Completed, 1, 3, None, true), false, Ended, 0)] && !run[3].unreadable
  {
    assert StepAt(max, actions, run, 0);
    assert run[1].jobs == map[id := JustStarted()];
    assert StepAt(max, actions, run, 1);
    assert run[2].jobs == map[id := Job(Record(Running, 1, 2, None, true), false, Entered, 0)];
    assert StepAt(max, actions, run, 2);
  }

  /** A durable-once job that completes, reports late, and is found interrupted after a restart. */
  lemma LateReportUndoesCompletion(max: nat, actions: seq<Action>, run: seq<World>, id: JobId)
    requires IsRun(max, actions, run) && LateReporter(actions, id) && id.Keyed?
    ensures id in run[3].jobs && run[3].jobs[id].record.state == Completed
    ensures id in run[5].jobs && run[5].jobs[id].record.state == Interrupted
  {
    LateReporterCompletes(max, actions, run, id);
    assert StepAt(max, actions, run, 3);
    assert run[4].file == Stored(map[id := Record(Running, 1, 4, None, true)]);
    assert StepAt(max, actions, run, 4);
  }

  // ---------------------------------------------------------------------------------------------
  // The registry, in place
  // ---------------------------------------------------------------------------------------------

  /** What is outside the process: the history file, and the runners, counted as they are entered. */
  class Surroundings {
    var file: History
    var entries: map<JobId, nat>

    constructor ()
      ensures file == NoFile && entries == map[]
    {
      file := NoFile;
      entries := map[];
    }
  }

  class HerderJobRegistry {
    const maxRetained: nat
    const outside: Surroundings
    var jobs: Jobs
    var persistenceRestoreError: bool
    var serial: nat

    function View(): World
      reads this, outside
    {
      World(jobs, persistenceRestoreError, outside.file, outside.entries, serial)
    }

    /** A start of the process. */
    constructor (outside: Surroundings, maxRetained: nat, serial: nat, readable: bool, now: int, kept: set<JobId>, disk: Disk)
      modifies outside
      ensures this.outside == outside && this.maxRetained == maxRetained
      ensures View() == Restarted(old(outside.file), old(outside.entries), serial, readable, now, kept, disk)
    {
      this.outside := outside;
      this.maxRetained := maxRetained;
      this.serial := serial + 1;
      jobs := map[];
      persistenceRestoreError := false;
      new;
      RestoreHistory(serial, readable, now, kept, disk);
    }

    /** `restore`. */
    method RestoreHistory(before: nat, readable: bool, now: int, kept: set<JobId>, disk: Disk)
      requires jobs == map[] && !persistenceRestoreError && serial == before + 1
      modifies this`jobs, this`persistenceRestoreError, outside
      ensures View() == Restarted(old(outside.file), old(outside.entries), before, readable, now, kept, disk)
    {
      if outside.file.NoFile? { return; }
      if !readable || outside.file.Damaged? || !ValidHistory(outside.file.records) {
        persistenceRestoreError := true;
        return;
      }
      var changed := LoadRecords(outside.file.records, before, now, kept);
      if changed {
        WriteHistory(disk);
      }
    }

    /** The loop of `restore` over the records it takes. */
    method LoadRecords(records: map<JobId, Record>, before: nat, now: int, kept: set<JobId>) returns (changed: bool)
      requires jobs == map[]
      modifies this`jobs
      ensures jobs == map id | id in records && (records[id].durableOnce || id in kept) ::
                        Job(Interrupt(records[id], now), false, Absent, before)
      ensures changed <==> exists id :: id in records && (records[id].durableOnce || id in kept) && !Terminal(records[id].state)
    {
      changed := false;
      var todo := set id | id in records && (records[id].durableOnce || id in kept);
      ghost var all := todo;
      while todo != {}
        invariant todo <= all
        invariant jobs == map id | id in all - todo :: Job(Interrupt(records[id], now), false, Absent, before)
        invariant changed <==> exists id :: id in all - todo && !Terminal(records[id].state)
      {
        var id :| id in todo;
        if !Terminal(records[id].state) {
          changed := true;
        }
        jobs := jobs[id := Job(Interrupt(records[id], now), false, Absent, before)];
        todo := todo - {id};
      }
    }

    /** `persist` when nothing depends on it. */
    method WriteHistory(disk: Disk)
      modifies outside
      ensures View() == old(View()).(file := Persist(jobs, persistenceRestoreError, old(outside.file), disk.writes, disk.kept))
    {
      if !persistenceRestoreError && disk.writes {
        outside.file := Stored(Body(jobs, disk.kept));
      }
    }

    method Oldest(ids: set<JobId>) returns (oldest: JobId)
      requires ids != {} && ids <= jobs.Keys
      ensures oldest in ids && forall id :: id in ids ==> jobs[oldest].record.updatedAt <= jobs[id].record.updatedAt
    {
      oldest :| oldest in ids;
      var todo := ids - {oldest};
      while todo != {}
        invariant todo <= ids && oldest in ids
        invariant forall id :: id in ids - todo ==> jobs[oldest].record.updatedAt <= jobs[id].record.updatedAt
      {
        var id :| id in todo;
        if jobs[id].record.updatedAt < jobs[oldest].record.updatedAt { oldest := id; }
        todo := todo - {id};
      }
    }

    /** `trim`: removable jobs go, oldest first, while the registry is over its bound. */
    method Trim()
      modifies this`jobs
      ensures Trimmed(old(jobs), jobs, maxRetained)
    {
      var removable := set id | id in jobs && Removable(jobs[id]);
      while |jobs| > maxRetained && removable != {}
        invariant removable == set id | id in jobs && Removable(jobs[id])
        invariant jobs.Keys <= old(jobs).Keys && forall id :: id in jobs ==> jobs[id] == old(jobs)[id]
        invariant forall id :: id in old(jobs) && id !in jobs ==> Removable(old(jobs)[id])
        invariant |old(jobs)| <= maxRetained ==> jobs == old(jobs)
        invariant |old(jobs)| > maxRetained ==> |jobs| >= maxRetained
        invariant forall a, b :: a in old(jobs) && a !in jobs && b in removable ==>
                    old(jobs)[a].record.updatedAt <= jobs[b].record.updatedAt
        decreases removable
      {
        var id := Oldest(removable);
        assert (jobs - {id}).Keys == jobs.Keys - {id};
        jobs := jobs - {id};
        removable := removable - {id};
      }
    }

    /** `start`. */
    method Start(id: JobId, fingerprint: Option<string>, durable: bool, now: int, disk: Disk)
      returns (started: Started, ghost left: Jobs)
      modifies this`jobs, this`serial, outside
      ensures var admitted := Admit(old(jobs), old(persistenceRestoreError), id, fingerprint, durable);
              started == if admitted == Begun && id.Keyed? && (persistenceRestoreError || !disk.writes) then Refused else admitted
      ensures View() == AfterStart(old(View()), id, fingerprint, durable, now, left, maxRetained, disk)
    {
      left := map[];
      if durable && (persistenceRestoreError || !id.Keyed?) { return Refused, left; }
      if id in jobs {
        return if jobs[id].record.fingerprint != fingerprint then Refused else Existing, left;
      }
      var ok;
      ok, left := Begin(id, Job(Record(Queued, now, now, fingerprint, durable), false, NotEntered, serial), disk);
      started := if ok then Begun else Refused;
    }

    /** The part of `start` that sets the job, trims, and writes; a keyed job that cannot be written is dropped. */
    method Begin(id: JobId, j: Job, disk: Disk) returns (ok: bool, ghost left: Jobs)
      requires id !in jobs && !Terminal(j.record.state)
      modifies this`jobs, this`serial, outside
      ensures ok <==> !(id.Keyed? && (persistenceRestoreError || !disk.writes))
      ensures serial == old(serial) + 1 && outside.entries == old(outside.entries)
      ensures Trimmed(old(jobs)[id := j], left, maxRetained) && id in left
      ensures jobs == if ok then left else left - {id}
      ensures outside.file ==
              if ok then Persist(left, persistenceRestoreError, old(outside.file), disk.writes, disk.kept) else old(outside.file)
    {
      jobs := jobs[id := j];
      serial := serial + 1;
      ghost var added := jobs;
      Trim();
      left := jobs;
      assert !Removable(added[id]);
      if id.Keyed? && (persistenceRestoreError || !disk.writes) {
        jobs := jobs - {id};
        return false, left;
      }
      WriteHistory(disk);
      ok := true;
    }

    method Patch(id: JobId, j: Job, disk: Disk)
      requires id in jobs
      modifies this`jobs, outside
      ensures View() == Patched(old(View()), id, j, disk)
    {
      jobs := jobs[id := j];
      WriteHistory(disk);
    }

    /** `run`, up to the entry of the runner. */
    method Enter(id: JobId, now: int, disk: Disk)
      requires id in jobs && jobs[id].runner == NotEntered
      modifies this`jobs, outside
      ensures View() == Step(maxRetained, old(View()), DoEnter(id, now, disk))
    {
      var j := jobs[id];
      if j.aborted {
        jobs := jobs[id := j.(runner := Ended)];
        return;
      }
      Patch(id, j.(runner := Entered, record := j.record.(state := Running, updatedAt := now)), disk);
      if j.record.durableOnce {
        outside.entries := outside.entries[id := Entries(outside.entries, id) + 1];
      }
    }

    /** `progress` and `waiting`, which a runner may still call after it returned. */
    method Report(id: JobId, state: State, now: int, disk: Disk)
      requires id in jobs && (jobs[id].runner == Entered || jobs[id].runner == Ended) && (state == Running || state == Waiting)
      modifies this`jobs, outside
      ensures View() == Step(maxRetained, old(View()), DoReport(id, state, now, disk))
    {
      var j := jobs[id];
      if Stopping(j.record.state) { return; }
      Patch(id, j.(record := j.record.(state := state, updatedAt := now)), disk);
    }

    /** `run`, once the runner returned or threw. */
    method Return(id: JobId, ok: bool, now: int, disk: Disk)
      requires id in jobs && jobs[id].runner == Entered
      modifies this`jobs, outside
      ensures View() == Step(maxRetained, old(View()), DoReturn(id, ok, now, disk))
    {
      var j := jobs[id];
      var state := Failed;
      if j.aborted || Stopping(j.record.state) { state := Cancelled; }
      else if ok { state := Completed; }
      Patch(id, j.(runner := Ended, record := j.record.(state := state, updatedAt := now)), disk);
    }

    method Cancel(id: JobId, now: int, disk: Disk)
      modifies this`jobs, outside
      ensures View() == Step(maxRetained, old(View()), DoCancel(id, now, disk))
    {
      if id !in jobs || Terminal(jobs[id].record.state) { return; }
      Patch(id, jobs[id].(aborted := true, record := jobs[id].record.(state := Cancelling, updatedAt := now)), disk);
    }
  }
}
