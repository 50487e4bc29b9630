/** The cadence scheduler of src/cadence-scheduler.ts. */
module CadenceScheduler {
  // `Table` is the locked file.  Every function named `...Tx` is the body of one transaction.  A sweep is
  // a program counter that advances one await at a time, so several sweepers, user control and crashes
  // interleave freely.  SHA-256 ids are injective, so an id is the pair it is the digest of.

  import opened Common
  import opened KeyedRows

  const MINUTE: int := 60_000
  const HOUR: int := 60 * MINUTE

  // ---------------------------------------------------------------------------------------------
  // Wake times
  // ---------------------------------------------------------------------------------------------

  function NextCadenceAt(activation: int, after: int): int {
    if after < activation + 60 * MINUTE then Min(after + 15 * MINUTE, activation + 60 * MINUTE)
    else if after < activation + 120 * MINUTE then Min(after + 30 * MINUTE, activation + 120 * MINUTE)
    else
      var next := after / HOUR * HOUR + 45 * MINUTE;
      if next <= after then next + HOUR else next
  }

  /** The number of the :45-to-:45 hour that holds `at`. */
  function Slot(at: int): int {
    (at - 45 * MINUTE) / HOUR
  }

  lemma NextCadenceIsLater(activation: int, after: int)
    ensures after < NextCadenceAt(activation, after) <= after + HOUR
  {
  }

  lemma NextCadenceIsMonotone(activation: int, after: int, later: int)
    requires after <= later
    ensures NextCadenceAt(activation, after) <= NextCadenceAt(activation, later)
  {
    NextCadenceIsLater(activation, later);
    if activation + 120 * MINUTE <= after {
      assert after / HOUR <= later / HOUR;
    }
  }

  /** In the final phase the next wake is the first instant of the next :45-to-:45 hour. */
  lemma NextCadenceOpensSlot(activation: int, after: int)
    requires activation + 120 * MINUTE <= after
    ensures Slot(NextCadenceAt(activation, after)) == Slot(after) + 1
    ensures NextCadenceAt(activation, after) == (Slot(after) + 1) * HOUR + 45 * MINUTE
  {
    var hour, rest := after / HOUR, after % HOUR;
    assert after == hour * HOUR + rest;
    if rest < 45 * MINUTE {
      assert after - 45 * MINUTE == (hour - 1) * HOUR + (rest + 15 * MINUTE);
      SlotOf(after, hour - 1, rest + 15 * MINUTE);
      SlotOf(NextCadenceAt(activation, after), hour, 0);
    } else {
      assert after - 45 * MINUTE == hour * HOUR + (rest - 45 * MINUTE);
      SlotOf(after, hour, rest - 45 * MINUTE);
      SlotOf(NextCadenceAt(activation, after), hour + 1, 0);
    }
  }

  lemma SlotOf(at: int, slot: int, rest: int)
    requires at - 45 * MINUTE == slot * HOUR + rest && 0 <= rest < HOUR
    ensures Slot(at) == slot
  {
  }

  /** Each wake waited for the time computed from the wake before it (or from the activation). */
  predicate Spaced(activation: int, wakes: seq<int>) {
    forall i :: 0 <= i < |wakes| ==> SpacedAt(activation, wakes, i)
  }

  predicate SpacedAt(activation: int, wakes: seq<int>, i: nat)
    requires i < |wakes|
  {
    NextCadenceAt(activation, if i == 0 then activation else wakes[i - 1]) <= wakes[i]
  }

  lemma SpacedGrows(activation: int, wakes: seq<int>, at: int)
    requires Spaced(activation, wakes)
    requires NextCadenceAt(activation, if wakes == [] then activation else wakes[|wakes| - 1]) <= at
    ensures Spaced(activation, wakes + [at])
  {
    forall i | 0 <= i < |wakes| + 1 ensures SpacedAt(activation, wakes + [at], i) {
      if i < |wakes| { assert SpacedAt(activation, wakes, i); }
    }
  }

  /** At most five wakes fall before activation + 120 minutes. */
  lemma AtMostFiveEarlyWakes(activation: int, wakes: seq<int>, i: nat)
    requires Spaced(activation, wakes) && 5 <= i < |wakes|
    ensures activation + 120 * MINUTE <= wakes[i]
  {
    assert SpacedAt(activation, wakes, 0) && SpacedAt(activation, wakes, 1) && SpacedAt(activation, wakes, 2);
    assert SpacedAt(activation, wakes, 3) && SpacedAt(activation, wakes, 4) && SpacedAt(activation, wakes, 5);
    NextCadenceIsMonotone(activation, activation + 15 * MINUTE, wakes[0]);
    NextCadenceIsMonotone(activation, activation + 30 * MINUTE, wakes[1]);
    NextCadenceIsMonotone(activation, activation + 45 * MINUTE, wakes[2]);
    NextCadenceIsMonotone(activation, activation + 60 * MINUTE, wakes[3]);
    NextCadenceIsMonotone(activation, activation + 90 * MINUTE, wakes[4]);
    SpacedIsSorted(activation, wakes, 5, i);
  }

  lemma {:induction false} SpacedIsSorted(activation: int, wakes: seq<int>, i: nat, j: nat)
    requires Spaced(activation, wakes) && i <= j < |wakes|
    ensures wakes[i] <= wakes[j]
    decreases j - i
  {
    if i < j {
      SpacedIsSorted(activation, wakes, i, j - 1);
      assert SpacedAt(activation, wakes, j);
      NextCadenceIsLater(activation, wakes[j - 1]);
    }
  }

  /** From activation + 120 minutes on, no two wakes share a :45-to-:45 hour. */
  lemma OneWakePerSlot(activation: int, wakes: seq<int>, i: nat, j: nat)
    requires Spaced(activation, wakes) && i < j < |wakes|
    requires activation + 120 * MINUTE <= wakes[i]
    ensures Slot(wakes[i]) < Slot(wakes[j])
  {
    NextCadenceOpensSlot(activation, wakes[i]);
    SpacedIsSorted(activation, wakes, i + 1, j);
    assert SpacedAt(activation, wakes, i + 1);
    SlotIsMonotone(NextCadenceAt(activation, wakes[i]), wakes[j]);
  }

  lemma SlotIsMonotone(a: int, b: int)
    requires a <= b
    ensures Slot(a) <= Slot(b)
  {
  }

  // ---------------------------------------------------------------------------------------------
  // Transactions
  // ---------------------------------------------------------------------------------------------

  datatype CadenceId = CadenceId(sessionId: string, requestId: string)

  datatype InputId = InputId(id: CadenceId, sequence: nat)

  datatype State = Scheduled | Dispatching | DeliveryUnknown | Blocked | Paused | Complete

  datatype Row = Row(
    id: CadenceId, message: string, harness: string, activatedAt: int, nextAt: int, state: State,
    sequence: nat, lastWakeAt: Option<int>, inputId: Option<InputId>, result: Option<Status>, reason: string)

  datatype Status = Accepted | Rejected | Unknown

  datatype Observation = Idle | Busy | Held | Unavailable

  datatype Control = Pause | Finish

  datatype Result<+T> = Ok(value: T) | Err(error: string)

  type Table = map<CadenceId, Row>

  predicate Live(r: Row) {
    r.state == Scheduled || r.state == Dispatching || r.state == DeliveryUnknown
  }

  /** States that never lead back to a wake. */
  predicate Resting(r: Row) {
    r.state == DeliveryUnknown || r.state == Blocked || r.state == Paused || r.state == Complete
  }

  function ScheduleTx(t: Table, id: CadenceId, message: string, harness: string, now: int): (Table, Result<Row>) {
    if id in t then
      (t, if t[id].message != message then Err("requestId already belongs to another continuation") else Ok(t[id]))
    else if exists other :: other in t && other.sessionId == id.sessionId && Live(t[other]) then
      (t, Err("Session already has a live or unresolved cadence"))
    else
      var row := Row(id, message, harness, now, NextCadenceAt(now, now), Scheduled, 0, None, None, None, "");
      (t[id := row], Ok(row))
  }

  function ControlTx(t: Table, id: CadenceId, sessionId: string, action: Control): (Table, Result<Row>) {
    if id in t && id.sessionId == sessionId then
      var row := t[id].(state := if action == Pause then Paused else Complete,
                        reason := if action == Pause then "explicit pause" else "explicit complete");
      (t[id := row], Ok(row))
    else (t, Err("Exact cadence owner not found"))
  }

  function HoldTx(t: Table, id: CadenceId): Table {
    if id in t && t[id].state == Scheduled then t[id := t[id].(state := Paused, reason := "HumanStop")] else t
  }

  function SkipTx(t: Table, candidate: Row, observation: Observation, now: int): Table {
    var id := candidate.id;
    if id in t && t[id].state == Scheduled && t[id].nextAt == candidate.nextAt then
      t[id := t[id].(nextAt := NextCadenceAt(t[id].activatedAt, now),
                     reason := if observation == Busy then "busy hourly slot skipped" else "expired hourly slot skipped")]
    else t
  }

  function ClaimTx(t: Table, id: CadenceId, now: int): (Table, Option<Row>) {
    if id !in t || t[id].state != Scheduled || t[id].nextAt > now then (t, None)
    else
      var sequence := t[id].sequence + 1;
      var row := t[id].(state := Dispatching, sequence := sequence, inputId := Some(InputId(id, sequence)));
      (t[id := row], Some(row))
  }

  function RevertTx(t: Table, id: CadenceId, recheck: Observation, hourly: bool, now: int): Table {
    if id in t && t[id].state == Dispatching then
      t[id := t[id].(state := if recheck == Held then Paused else Scheduled,
                     nextAt := if recheck == Busy && hourly then NextCadenceAt(t[id].activatedAt, now) else t[id].nextAt,
                     reason := "preflight")]
    else t
  }

  /** The transaction after `deliver`, and whether it recorded an accepted wake. */
  function FinishTx(t: Table, claim: Row, status: Status, now: int): (Table, bool) {
    var id := claim.id;
    if id !in t || t[id].inputId != claim.inputId then (t, false)
    else
      var row := t[id].(result := Some(status));
      if row.state != Dispatching then (t[id := row], false)
      else if status != Accepted then
        (t[id := row.(state := if status == Unknown then DeliveryUnknown else Blocked)], false)
      else
        (t[id := row.(lastWakeAt := Some(now), nextAt := NextCadenceAt(row.activatedAt, now), state := Scheduled)], true)
  }

  // ---------------------------------------------------------------------------------------------
  // Sweepers, users and crashes
  // ---------------------------------------------------------------------------------------------

  /** What a sweep decided about one candidate before it opened its transaction. */
  datatype Plan = Hold | Skip(observation: Observation) | Claim

  /** Where one sweep stands; `todo` is the rest of the listed candidates. */
  datatype Phase =
    | Looking(todo: seq<Row>)
    | Planned(candidate: Row, plan: Plan, todo: seq<Row>)
    | Claimed(claim: Row, hourly: bool, todo: seq<Row>)
    | Rechecked(claim: Row, hourly: bool, recheck: Observation, todo: seq<Row>)
    | Reverting(claim: Row, hourly: bool, recheck: Observation, todo: seq<Row>)
    | Sending(claim: Row, todo: seq<Row>)
    | Answered(claim: Row, status: Status, todo: seq<Row>)

  predicate Holds(p: Phase) {
    p.Claimed? || p.Rechecked? || p.Reverting? || p.Sending? || p.Answered?
  }

  /** A claim whose prompt has not been handed to the harness. */
  predicate Unsent(p: Phase) {
    p.Claimed? || p.Rechecked? || p.Reverting?
  }

  type Sweeps = map<nat, Phase>

  /** `submitted` lists what reached `deliver`, `wakes` the accepted wake times of each row. */
  datatype World = World(
    table: Table, sweeps: Sweeps, submitted: seq<InputId>, wakes: Wakes, clock: int)

  datatype Action =
    | DoTick(elapsed: nat)
    | DoSchedule(id: CadenceId, message: string, harness: string, observation: Observation)
    | DoControl(id: CadenceId, sessionId: string, control: Control)
    | DoCrash(sweep: nat)
    | DoList(sweep: nat, order: seq<CadenceId>)
    | DoInspect(sweep: nat, observation: Observation)
    | DoTransact(sweep: nat)
    | DoRecheck(sweep: nat, observation: Observation)
    | DoDispatch(sweep: nat)
    | DoRevert(sweep: nat)
    | DoAnswer(sweep: nat, status: Status)
    | DoFinish(sweep: nat)

  type Wakes = map<CadenceId, seq<int>>

  function WakesOf(wakes: Wakes, id: CadenceId): seq<int> {
    if id in wakes then wakes[id] else []
  }

  function ListRows(t: Table, order: seq<CadenceId>): (rows: seq<Row>)
    ensures forall i :: 0 <= i < |rows| ==> rows[i].id in order
  {
    if order == [] then []
    else
      var rest := ListRows(t, order[1..]);
      if order[0] in t && t[order[0]].id == order[0] then [t[order[0]]] + rest else rest
  }

  predicate Hourly(candidate: Row) {
    candidate.nextAt > candidate.activatedAt + 120 * MINUTE
  }

  /** The decision of one loop iteration, made right after `inspect`; None goes on to the next candidate. */
  function Decide(candidate: Row, observation: Observation, now: int): Option<Plan> {
    if candidate.state != Scheduled then None
    else if observation == Held then Some(Hold)
    else if candidate.nextAt <= now && Hourly(candidate) && (observation == Busy || now - candidate.nextAt >= MINUTE) then
      Some(Skip(observation))
    else if observation != Idle || candidate.nextAt > now then None
    else Some(Claim)
  }

  function Inspected(todo: seq<Row>, observation: Observation, now: int): (p: Phase)
    requires todo != []
    ensures !Holds(p)
  {
    match Decide(todo[0], observation, now)
    case None => Looking(todo[1..])
    case Some(plan) => Planned(todo[0], plan, todo[1..])
  }

  function Transact(w: World, s: nat, p: Phase): World
    requires p.Planned?
  {
    match p.plan
    case Hold => w.(table := HoldTx(w.table, p.candidate.id), sweeps := w.sweeps[s := Looking(p.todo)])
    case Skip(o) => w.(table := SkipTx(w.table, p.candidate, o, w.clock), sweeps := w.sweeps[s := Looking(p.todo)])
    case Claim =>
      var (t, claim) := ClaimTx(w.table, p.candidate.id, w.clock);
      w.(table := t, sweeps := w.sweeps[s := if claim.None? then Looking(p.todo)
                                             else Claimed(claim.value, Hourly(p.candidate), p.todo)])
  }

  /** The second `list()`, and the branch on what it and the fresh inspection say. */
  function Dispatch(w: World, s: nat, p: Phase): World
    requires p.Rechecked?
  {
    var id := p.claim.id;
    if id !in w.table || w.table[id].state != Dispatching then w.(sweeps := w.sweeps[s := Looking(p.todo)])
    else if p.recheck != Idle then w.(sweeps := w.sweeps[s := Reverting(p.claim, p.hourly, p.recheck, p.todo)])
    else
      w.(sweeps := w.sweeps[s := Sending(p.claim, p.todo)],
         submitted := w.submitted + [InputId(p.claim.id, p.claim.sequence)])
  }

  function FinishClaim(w: World, s: nat, p: Phase): World
    requires p.Answered?
  {
    var (t, woken) := FinishTx(w.table, p.claim, p.status, w.clock);
    w.(table := t, sweeps := w.sweeps[s := Looking(p.todo)],
       wakes := if woken then w.wakes[p.claim.id := WakesOf(w.wakes, p.claim.id) + [w.clock]] else w.wakes)
  }

  /** One step; an action that is not enabled changes nothing. */
  function Step(w: World, a: Action): World {
    match a
    case DoTick(elapsed) => w.(clock := w.clock + elapsed)
    case DoSchedule(id, message, harness, observation) =>
      if observation == Held || observation == Unavailable then w
      else w.(table := ScheduleTx(w.table, id, message, harness, w.clock).0)
    case DoControl(id, sessionId, control) => w.(table := ControlTx(w.table, id, sessionId, control).0)
    case DoCrash(s) => w.(sweeps := w.sweeps - {s})
    case DoList(s, order) => if s in w.sweeps then w else w.(sweeps := w.sweeps[s := Looking(ListRows(w.table, order))])
    case DoInspect(s, observation) =>
      if s in w.sweeps && w.sweeps[s].Looking? then
        var todo := w.sweeps[s].todo;
        if todo == [] then w.(sweeps := w.sweeps - {s})
        else w.(sweeps := w.sweeps[s := Inspected(todo, observation, w.clock)])
      else w
    case DoTransact(s) => if s in w.sweeps && w.sweeps[s].Planned? then Transact(w, s, w.sweeps[s]) else w
    case DoRecheck(s, observation) =>
      if s in w.sweeps && w.sweeps[s].Claimed? then
        var p := w.sweeps[s];
        w.(sweeps := w.sweeps[s := Rechecked(p.claim, p.hourly, observation, p.todo)])
      else w
    case DoDispatch(s) => if s in w.sweeps && w.sweeps[s].Rechecked? then Dispatch(w, s, w.sweeps[s]) else w
    case DoRevert(s) =>
      if s in w.sweeps && w.sweeps[s].Reverting? then
        var p := w.sweeps[s];
        w.(table := RevertTx(w.table, p.claim.id, p.recheck, p.hourly, w.clock), sweeps := w.sweeps[s := Looking(p.todo)])
      else w
    case DoAnswer(s, status) =>
      if s in w.sweeps && w.sweeps[s].Sending? then
        w.(sweeps := w.sweeps[s := Answered(w.sweeps[s].claim, status, w.sweeps[s].todo)])
      else w
    case DoFinish(s) => if s in w.sweeps && w.sweeps[s].Answered? then FinishClaim(w, s, w.sweeps[s]) else w
  }

  function Run(start: int, actions: seq<Action>): World {
    if actions == [] then World(map[], map[], [], map[], start)
    else Step(Run(start, actions[..|actions| - 1]), actions[|actions| - 1])
  }

  // ---------------------------------------------------------------------------------------------
  // Invariant
  // ---------------------------------------------------------------------------------------------

  function LastWake(activation: int, wakes: seq<int>): int {
    if wakes == [] then activation else wakes[|wakes| - 1]
  }

  predicate RowFits(id: CadenceId, row: Row, wakes: seq<int>, clock: int) {
    && row.id == id
    && row.inputId == (if row.sequence > 0 then Some(InputId(id, row.sequence)) else None)
    && Spaced(row.activatedAt, wakes)
    && LastWake(row.activatedAt, wakes) <= clock
    && NextCadenceAt(row.activatedAt, LastWake(row.activatedAt, wakes)) <= row.nextAt
    && (row.state == Dispatching ==> row.nextAt <= clock && row.sequence > 0)
  }

  predicate TableFits(t: Table, wakes: Wakes, clock: int) {
    && (forall id :: id in t ==> RowFits(id, t[id], WakesOf(wakes, id), clock))
    && wakes.Keys <= t.Keys
  }

  predicate OneLivePerSession(t: Table) {
    forall a, b :: a in t && b in t && Rivals(t, a, b) ==> a == b
  }

  predicate Rivals(t: Table, a: CadenceId, b: CadenceId)
    requires a in t && b in t
  {
    a.sessionId == b.sessionId && Live(t[a]) && Live(t[b])
  }

  /** The claim a sweep holds is the current dispatch of its row, unless the user has ended the row. */
  predicate ClaimFits(t: Table, p: Phase, submitted: seq<InputId>)
    requires Holds(p)
  {
    && p.claim.id in t
    && p.claim.sequence > 0 && p.claim.inputId == Some(InputId(p.claim.id, p.claim.sequence))
    && var row := t[p.claim.id];
    && row.sequence == p.claim.sequence
    && (row.state == Dispatching || row.state == Paused || row.state == Complete)
    && (Unsent(p) ==> InputId(p.claim.id, p.claim.sequence) !in submitted)
  }

  predicate ClaimsFit(t: Table, sweeps: Sweeps, submitted: seq<InputId>) {
    forall s :: s in sweeps && Holds(sweeps[s]) ==> ClaimFits(t, sweeps[s], submitted)
  }

  /** No two sweeps hold a claim on the same row. */
  predicate OneHolder(sweeps: Sweeps) {
    forall s, u :: s in sweeps && u in sweeps && SameRow(sweeps[s], sweeps[u]) ==> s == u
  }

  predicate SameRow(p: Phase, q: Phase) {
    Holds(p) && Holds(q) && p.claim.id == q.claim.id
  }

  predicate SubmittedFits(t: Table, submitted: seq<InputId>) {
    && Distinct(submitted)
    && (forall input :: input in submitted ==> input.id in t && input.sequence <= t[input.id].sequence)
  }

  predicate Inv(w: World) {
    && TableFits(w.table, w.wakes, w.clock)
    && OneLivePerSession(w.table)
    && ClaimsFit(w.table, w.sweeps, w.submitted)
    && OneHolder(w.sweeps)
    && SubmittedFits(w.table, w.submitted)
  }

  /** No element occurs twice. */
  predicate Distinct<T(==)>(s: seq<T>) {
    s == [] || (s[|s| - 1] !in s[..|s| - 1] && Distinct(s[..|s| - 1]))
  }

  lemma {:induction false} DistinctMeans<T>(s: seq<T>, i: nat, j: nat)
    requires Distinct(s) && i < j < |s|
    ensures s[i] != s[j]
  {
    if j < |s| - 1 {
      DistinctMeans(s[..|s| - 1], i, j);
    } else {
      assert s[..|s| - 1][i] == s[i];
    }
  }

  lemma DistinctGrows<T>(s: seq<T>, x: T)
    requires Distinct(s) && x !in s
    ensures Distinct(s + [x])
  {
    assert (s + [x])[..|s|] == s;
  }

  // ---------------------------------------------------------------------------------------------
  // Every step keeps the invariant
  // ---------------------------------------------------------------------------------------------

  predicate SameClaim(row: Row, old_: Row) {
    row.id == old_.id && row.activatedAt == old_.activatedAt && row.sequence == old_.sequence && row.inputId == old_.inputId
  }

  /** A row may rest, or wait longer; it may not come alive or become a dispatch. */
  predicate Settles(row: Row, old_: Row, clock: int) {
    && (old_.nextAt <= row.nextAt || row.nextAt == NextCadenceAt(row.activatedAt, clock))
    && (row.state == Dispatching ==> old_.state == Dispatching && row.nextAt == old_.nextAt)
    && (Live(row) ==> Live(old_))
  }

  predicate NobodyHolds(sweeps: Sweeps, id: CadenceId) {
    forall s :: s in sweeps && Holds(sweeps[s]) ==> sweeps[s].claim.id != id
  }

  lemma ReplaceRowKeepsTable(t: Table, wakes: Wakes, clock: int, id: CadenceId, row: Row)
    requires TableFits(t, wakes, clock) && id in t
    requires SameClaim(row, t[id]) && Settles(row, t[id], clock)
    ensures TableFits(t[id := row], wakes, clock)
  {
    assert RowFits(id, t[id], WakesOf(wakes, id), clock);
    NextCadenceIsMonotone(row.activatedAt, LastWake(row.activatedAt, WakesOf(wakes, id)), clock);
  }

  lemma ReplaceRowKeepsLive(t: Table, id: CadenceId, row: Row)
    requires OneLivePerSession(t) && id in t && (Live(row) ==> Live(t[id]))
    ensures OneLivePerSession(t[id := row])
  {
    var t' := t[id := row];
    forall a, b | a in t' && b in t' && Rivals(t', a, b) ensures a == b {
      assert Rivals(t, a, b);
    }
  }

  lemma ReplaceRowKeepsClaims(t: Table, sweeps: Sweeps, submitted: seq<InputId>, id: CadenceId, row: Row)
    requires ClaimsFit(t, sweeps, submitted) && SubmittedFits(t, submitted) && id in t
    requires row.sequence == t[id].sequence
    requires row.state == t[id].state || row.state == Paused || row.state == Complete || NobodyHolds(sweeps, id)
    ensures ClaimsFit(t[id := row], sweeps, submitted) && SubmittedFits(t[id := row], submitted)
  {
    forall s | s in sweeps && Holds(sweeps[s]) ensures ClaimFits(t[id := row], sweeps[s], submitted) {
      assert ClaimFits(t, sweeps[s], submitted);
    }
  }

  lemma ReplaceRowKeepsInv(w: World, id: CadenceId, row: Row)
    requires Inv(w) && id in w.table
    requires SameClaim(row, w.table[id]) && Settles(row, w.table[id], w.clock)
    requires row.state == w.table[id].state || row.state == Paused || row.state == Complete || NobodyHolds(w.sweeps, id)
    ensures Inv(w.(table := w.table[id := row]))
  {
    ReplaceRowKeepsTable(w.table, w.wakes, w.clock, id, row);
    ReplaceRowKeepsLive(w.table, id, row);
    ReplaceRowKeepsClaims(w.table, w.sweeps, w.submitted, id, row);
  }

  lemma TickKeepsInv(w: World, elapsed: nat)
    requires Inv(w)
    ensures Inv(w.(clock := w.clock + elapsed))
  {
    forall id | id in w.table ensures RowFits(id, w.table[id], WakesOf(w.wakes, id), w.clock + elapsed) {
      assert RowFits(id, w.table[id], WakesOf(w.wakes, id), w.clock);
    }
  }

  lemma AddRowKeepsInv(w: World, id: CadenceId, row: Row)
    requires Inv(w) && id !in w.table
    requires row.id == id && row.sequence == 0 && row.inputId == None && row.state == Scheduled
    requires row.activatedAt == w.clock && row.nextAt == NextCadenceAt(w.clock, w.clock)
    requires forall other :: other in w.table && other.sessionId == id.sessionId ==> !Live(w.table[other])
    ensures Inv(w.(table := w.table[id := row]))
  {
    var t' := w.table[id := row];
    forall a, b | a in t' && b in t' && Rivals(t', a, b) ensures a == b {
      if a != id && b != id { assert Rivals(w.table, a, b); }
    }
    forall s | s in w.sweeps && Holds(w.sweeps[s]) ensures ClaimFits(t', w.sweeps[s], w.submitted) {
      assert ClaimFits(w.table, w.sweeps[s], w.submitted);
    }
  }

  lemma ScheduleKeepsInv(w: World, id: CadenceId, message: string, harness: string)
    requires Inv(w)
    ensures Inv(w.(table := ScheduleTx(w.table, id, message, harness, w.clock).0))
  {
    var t := ScheduleTx(w.table, id, message, harness, w.clock).0;
    if t != w.table {
      assert id !in w.table && t == w.table[id := t[id]];
      AddRowKeepsInv(w, id, t[id]);
    }
  }

  /** A sweep may always move to a phase that holds nothing. */
  lemma LetGoKeepsInv(w: World, s: nat, p: Phase)
    requires Inv(w) && !Holds(p)
    ensures Inv(w.(sweeps := w.sweeps[s := p]))
    ensures s in w.sweeps && Holds(w.sweeps[s]) ==> NobodyHolds(w.sweeps[s := p], w.sweeps[s].claim.id)
  {
    var sweeps := w.sweeps[s := p];
    forall u, v | u in sweeps && v in sweeps && SameRow(sweeps[u], sweeps[v]) ensures u == v {
      assert SameRow(w.sweeps[u], w.sweeps[v]);
    }
    if s in w.sweeps && Holds(w.sweeps[s]) {
      forall u | u in sweeps && Holds(sweeps[u]) ensures sweeps[u].claim.id != w.sweeps[s].claim.id {
        assert SameRow(w.sweeps[s], w.sweeps[u]) ==> s == u;
      }
    }
  }

  lemma CrashKeepsInv(w: World, s: nat)
    requires Inv(w)
    ensures Inv(w.(sweeps := w.sweeps - {s}))
  {
    var sweeps := w.sweeps - {s};
    forall u, v | u in sweeps && v in sweeps && SameRow(sweeps[u], sweeps[v]) ensures u == v {
      assert SameRow(w.sweeps[u], w.sweeps[v]);
    }
  }

  /** A sweep may move on with the claim it holds. */
  lemma CarryOnKeepsInv(w: World, s: nat, p: Phase)
    requires Inv(w) && s in w.sweeps && Holds(w.sweeps[s]) && Holds(p) && p.claim == w.sweeps[s].claim
    requires Unsent(p) ==> Unsent(w.sweeps[s])
    ensures Inv(w.(sweeps := w.sweeps[s := p]))
  {
    var sweeps := w.sweeps[s := p];
    assert ClaimFits(w.table, w.sweeps[s], w.submitted);
    forall u, v | u in sweeps && v in sweeps && SameRow(sweeps[u], sweeps[v]) ensures u == v {
      assert SameRow(w.sweeps[u], w.sweeps[v]);
    }
  }

  /** A fresh claim takes a number nobody has, on a row nobody holds. */
  lemma ClaimKeepsInv(w: World, s: nat, id: CadenceId, p: Phase)
    requires Inv(w) && ClaimTx(w.table, id, w.clock).1.Some?
    requires p.Claimed? && p.claim == ClaimTx(w.table, id, w.clock).1.value
    requires s in w.sweeps && !Holds(w.sweeps[s])
    ensures Inv(w.(table := ClaimTx(w.table, id, w.clock).0, sweeps := w.sweeps[s := p]))
  {
    var t, sweeps := ClaimTx(w.table, id, w.clock).0, w.sweeps[s := p];
    assert t == w.table[id := p.claim];
    assert RowFits(id, w.table[id], WakesOf(w.wakes, id), w.clock);
    ReplaceRowKeepsLive(w.table, id, p.claim);
    forall u | u in sweeps && Holds(sweeps[u])
      ensures ClaimFits(t, sweeps[u], w.submitted)
      ensures u != s ==> sweeps[u].claim.id != id
    {
      if u != s { assert ClaimFits(w.table, w.sweeps[u], w.submitted); }
    }
    forall u, v | u in sweeps && v in sweeps && SameRow(sweeps[u], sweeps[v]) ensures u == v {
      if u != s && v != s { assert SameRow(w.sweeps[u], w.sweeps[v]); }
    }
  }

  lemma TransactKeepsInv(w: World, s: nat)
    requires Inv(w) && s in w.sweeps && w.sweeps[s].Planned?
    ensures Inv(Transact(w, s, w.sweeps[s]))
  {
    var p := w.sweeps[s];
    var id := p.candidate.id;
    match p.plan
    case Claim =>
      if ClaimTx(w.table, id, w.clock).1.Some? {
        ClaimKeepsInv(w, s, id, Transact(w, s, p).sweeps[s]);
      } else {
        LetGoKeepsInv(w, s, Looking(p.todo));
      }
    case Hold =>
      var t := HoldTx(w.table, id);
      if t != w.table { ReplaceRowKeepsInv(w, id, t[id]); }
      LetGoKeepsInv(w.(table := t), s, Looking(p.todo));
    case Skip(o) =>
      var t := SkipTx(w.table, p.candidate, o, w.clock);
      if t != w.table { ReplaceRowKeepsInv(w, id, t[id]); }
      LetGoKeepsInv(w.(table := t), s, Looking(p.todo));
  }

  /** Handing a claim to the harness once uses up its number. */
  lemma SubmitKeepsInv(w: World, s: nat, input: InputId)
    requires Inv(w) && s in w.sweeps && w.sweeps[s].Sending?
    requires input == InputId(w.sweeps[s].claim.id, w.sweeps[s].claim.sequence) && input !in w.submitted
    ensures Inv(w.(submitted := w.submitted + [input]))
  {
    assert ClaimFits(w.table, w.sweeps[s], w.submitted);
    DistinctGrows(w.submitted, input);
    forall u | u in w.sweeps && Holds(w.sweeps[u]) ensures ClaimFits(w.table, w.sweeps[u], w.submitted + [input]) {
      assert ClaimFits(w.table, w.sweeps[u], w.submitted);
      assert SameRow(w.sweeps[u], w.sweeps[s]) ==> u == s;
    }
  }

  lemma DispatchKeepsInv(w: World, s: nat)
    requires Inv(w) && s in w.sweeps && w.sweeps[s].Rechecked?
    ensures Inv(Dispatch(w, s, w.sweeps[s]))
  {
    var p := w.sweeps[s];
    assert ClaimFits(w.table, p, w.submitted);
    if w.table[p.claim.id].state != Dispatching {
      LetGoKeepsInv(w, s, Looking(p.todo));
    } else if p.recheck != Idle {
      CarryOnKeepsInv(w, s, Reverting(p.claim, p.hourly, p.recheck, p.todo));
    } else {
      CarryOnKeepsInv(w, s, Sending(p.claim, p.todo));
      SubmitKeepsInv(w.(sweeps := w.sweeps[s := Sending(p.claim, p.todo)]), s, InputId(p.claim.id, p.claim.sequence));
    }
  }

  lemma RevertKeepsInv(w: World, s: nat)
    requires Inv(w) && s in w.sweeps && w.sweeps[s].Reverting?
    ensures Inv(Step(w, DoRevert(s)))
  {
    var p := w.sweeps[s];
    var id := p.claim.id;
    assert ClaimFits(w.table, p, w.submitted);
    LetGoKeepsInv(w, s, Looking(p.todo));
    if w.table[id].state == Dispatching {
      ReplaceRowKeepsInv(w.(sweeps := w.sweeps[s := Looking(p.todo)]), id,
                         RevertTx(w.table, id, p.recheck, p.hourly, w.clock)[id]);
    }
  }

  /** An accepted wake is recorded no earlier than the time its row was waiting for. */
  lemma WakeKeepsTable(t: Table, wakes: Wakes, clock: int, id: CadenceId, row: Row)
    requires TableFits(t, wakes, clock) && id in t && t[id].state == Dispatching
    requires SameClaim(row, t[id]) && row.state == Scheduled && row.nextAt == NextCadenceAt(row.activatedAt, clock)
    ensures TableFits(t[id := row], wakes[id := WakesOf(wakes, id) + [clock]], clock)
  {
    assert RowFits(id, t[id], WakesOf(wakes, id), clock);
    SpacedGrows(row.activatedAt, WakesOf(wakes, id), clock);
    var wakes' := wakes[id := WakesOf(wakes, id) + [clock]];
    forall other | other in t ensures RowFits(other, t[id := row][other], WakesOf(wakes', other), clock) {
      assert RowFits(other, t[other], WakesOf(wakes, other), clock);
    }
  }

  lemma FinishKeepsInv(w: World, s: nat)
    requires Inv(w) && s in w.sweeps && w.sweeps[s].Answered?
    ensures Inv(FinishClaim(w, s, w.sweeps[s]))
  {
    var p := w.sweeps[s];
    var id := p.claim.id;
    assert ClaimFits(w.table, p, w.submitted);
    assert RowFits(id, w.table[id], WakesOf(w.wakes, id), w.clock);
    LetGoKeepsInv(w, s, Looking(p.todo));
    var sweeps := w.sweeps[s := Looking(p.todo)];
    var (t, woken) := FinishTx(w.table, p.claim, p.status, w.clock);
    if woken {
      WakeKeepsTable(w.table, w.wakes, w.clock, id, t[id]);
      ReplaceRowKeepsLive(w.table, id, t[id]);
      ReplaceRowKeepsClaims(w.table, sweeps, w.submitted, id, t[id]);
    } else {
      ReplaceRowKeepsInv(w.(sweeps := sweeps), id, t[id]);
    }
  }

  lemma InspectKeepsInv(w: World, s: nat, observation: Observation)
    requires Inv(w)
    ensures Inv(Step(w, DoInspect(s, observation)))
  {
    if s in w.sweeps && w.sweeps[s].Looking? {
      var todo := w.sweeps[s].todo;
      if todo == [] { CrashKeepsInv(w, s); } else { LetGoKeepsInv(w, s, Inspected(todo, observation, w.clock)); }
    }
  }

  lemma RecheckKeepsInv(w: World, s: nat, observation: Observation)
    requires Inv(w)
    ensures Inv(Step(w, DoRecheck(s, observation)))
  {
    if s in w.sweeps && w.sweeps[s].Claimed? {
      var p := w.sweeps[s];
      CarryOnKeepsInv(w, s, Rechecked(p.claim, p.hourly, observation, p.todo));
    }
  }

  lemma AnswerKeepsInv(w: World, s: nat, status: Status)
    requires Inv(w)
    ensures Inv(Step(w, DoAnswer(s, status)))
  {
    if s in w.sweeps && w.sweeps[s].Sending? {
      var p := w.sweeps[s];
      CarryOnKeepsInv(w, s, Answered(p.claim, status, p.todo));
    }
  }

  /** The steps of a sweep that change the table or submit, as they are when they are enabled. */
  lemma SweepSteps(w: World, s: nat)
    ensures Step(w, DoTransact(s)) == if s in w.sweeps && w.sweeps[s].Planned? then Transact(w, s, w.sweeps[s]) else w
    ensures Step(w, DoDispatch(s)) == if s in w.sweeps && w.sweeps[s].Rechecked? then Dispatch(w, s, w.sweeps[s]) else w
    ensures Step(w, DoFinish(s)) == if s in w.sweeps && w.sweeps[s].Answered? then FinishClaim(w, s, w.sweeps[s]) else w
    ensures !(s in w.sweeps && w.sweeps[s].Reverting?) ==> Step(w, DoRevert(s)) == w
  {
  }

  lemma SweepStepKeepsInv(w: World, a: Action)
    requires Inv(w) && (a.DoTransact? || a.DoDispatch? || a.DoRevert? || a.DoFinish?)
    ensures Inv(Step(w, a))
  {
    var s := a.sweep;
    SweepSteps(w, s);
    if s in w.sweeps {
      if a.DoTransact? && w.sweeps[s].Planned? { TransactKeepsInv(w, s); }
      else if a.DoDispatch? && w.sweeps[s].Rechecked? { DispatchKeepsInv(w, s); }
      else if a.DoRevert? && w.sweeps[s].Reverting? { RevertKeepsInv(w, s); }
      else if a.DoFinish? && w.sweeps[s].Answered? { FinishKeepsInv(w, s); }
    }
  }

  lemma ControlKeepsInv(w: World, id: CadenceId, sessionId: string, control: Control)
    requires Inv(w)
    ensures Inv(Step(w, DoControl(id, sessionId, control)))
  {
    if id in w.table && id.sessionId == sessionId {
      ReplaceRowKeepsInv(w, id, ControlTx(w.table, id, sessionId, control).0[id]);
    }
  }

  lemma StepKeepsInv(w: World, a: Action)
    requires Inv(w)
    ensures Inv(Step(w, a))
  {
    match a
    case DoTick(elapsed) => TickKeepsInv(w, elapsed);
    case DoSchedule(id, message, harness, _) => ScheduleKeepsInv(w, id, message, harness);
    case DoControl(id, sessionId, control) => ControlKeepsInv(w, id, sessionId, control);
    case DoCrash(s) => CrashKeepsInv(w, s);
    case DoList(s, order) => if s !in w.sweeps { LetGoKeepsInv(w, s, Looking(ListRows(w.table, order))); }
    case DoInspect(s, observation) => InspectKeepsInv(w, s, observation);
    case DoRecheck(s, observation) => RecheckKeepsInv(w, s, observation);
    case DoAnswer(s, status) => AnswerKeepsInv(w, s, status);
    case _ => SweepStepKeepsInv(w, a);
  }

  lemma {:induction false} RunKeepsInv(start: int, actions: seq<Action>)
    ensures Inv(Run(start, actions))
  {
    if actions != [] {
      RunKeepsInv(start, actions[..|actions| - 1]);
      StepKeepsInv(Run(start, actions[..|actions| - 1]), actions[|actions| - 1]);
    }
  }

  // ---------------------------------------------------------------------------------------------
  // What holds of every run
  // ---------------------------------------------------------------------------------------------

  /** No prompt is handed to the harness twice, whatever the sweeps, users and crashes do. */
  lemma EachInputSubmittedOnce(start: int, actions: seq<Action>, i: nat, j: nat)
    requires i < j < |Run(start, actions).submitted|
    ensures Run(start, actions).submitted[i] != Run(start, actions).submitted[j]
  {
    RunKeepsInv(start, actions);
    DistinctMeans(Run(start, actions).submitted, i, j);
  }

  /** A dispatching row has at most one owner, and the owner's claim is the row's current input. */
  lemma DispatchHasOneOwner(start: int, actions: seq<Action>, id: CadenceId, s: nat, u: nat)
    requires var w := Run(start, actions);
      && s in w.sweeps && Holds(w.sweeps[s]) && w.sweeps[s].claim.id == id
      && u in w.sweeps && Holds(w.sweeps[u]) && w.sweeps[u].claim.id == id
    ensures s == u
    ensures var w := Run(start, actions); id in w.table && w.table[id].inputId == w.sweeps[s].claim.inputId
  {
    RunKeepsInv(start, actions);
    var w := Run(start, actions);
    assert SameRow(w.sweeps[s], w.sweeps[u]);
    assert ClaimFits(w.table, w.sweeps[s], w.submitted);
    assert RowFits(id, w.table[id], WakesOf(w.wakes, id), w.clock);
  }

  predicate Rests(t: Table, id: CadenceId) {
    id in t && Resting(t[id])
  }

  lemma TransactKeepsResting(w: World, s: nat, p: Phase, id: CadenceId)
    requires Rests(w.table, id) && p.Planned?
    ensures Rests(Transact(w, s, p).table, id)
  {
  }

  lemma FinishKeepsResting(t: Table, p: Phase, now: int, id: CadenceId)
    requires Rests(t, id) && (p.Reverting? || p.Answered?)
    ensures p.Reverting? ==> Rests(RevertTx(t, p.claim.id, p.recheck, p.hourly, now), id)
    ensures p.Answered? ==> Rests(FinishTx(t, p.claim, p.status, now).0, id)
  {
  }

  lemma StepKeepsResting(w: World, a: Action, id: CadenceId)
    requires Rests(w.table, id)
    ensures Rests(Step(w, a).table, id)
  {
    match a
    case DoTransact(s) => if s in w.sweeps && w.sweeps[s].Planned? { TransactKeepsResting(w, s, w.sweeps[s], id); }
    case DoRevert(s) => if s in w.sweeps && w.sweeps[s].Reverting? { FinishKeepsResting(w.table, w.sweeps[s], w.clock, id); }
    case DoFinish(s) => if s in w.sweeps && w.sweeps[s].Answered? { FinishKeepsResting(w.table, w.sweeps[s], w.clock, id); }
    case _ =>
  }

  /** An unknown, blocked, paused or complete row never returns to scheduled. */
  lemma {:induction false} RestingForever(start: int, actions: seq<Action>, k: nat, id: CadenceId)
    requires k <= |actions|
    requires id in Run(start, actions[..k]).table && Resting(Run(start, actions[..k]).table[id])
    ensures id in Run(start, actions).table && Resting(Run(start, actions).table[id])
  {
    if k == |actions| {
      assert actions[..k] == actions;
    } else {
      var init := actions[..|actions| - 1];
      PrefixOfPrefix(actions, |actions| - 1, k);
      RestingForever(start, init, k, id);
      StepKeepsResting(Run(start, init), actions[|actions| - 1], id);
    }
  }

  lemma OneLiveCadencePerSession(start: int, actions: seq<Action>, a: CadenceId, b: CadenceId)
    requires var t := Run(start, actions).table; a in t && b in t && Live(t[a]) && Live(t[b]) && a.sessionId == b.sessionId
    ensures a == b
  {
    RunKeepsInv(start, actions);
    assert Rivals(Run(start, actions).table, a, b);
  }

  /** A cadence is accepted at most five times before activation + 120 minutes, and from then on
      never twice in one :45-to-:45 hour. */
  lemma WakesStayBounded(start: int, actions: seq<Action>, id: CadenceId, i: nat, j: nat)
    requires id in Run(start, actions).table && i < j < |WakesOf(Run(start, actions).wakes, id)|
    ensures var activation, wakes := Run(start, actions).table[id].activatedAt, WakesOf(Run(start, actions).wakes, id);
      && (5 <= j ==> activation + 120 * MINUTE <= wakes[j])
      && (activation + 120 * MINUTE <= wakes[i] ==> Slot(wakes[i]) < Slot(wakes[j]))
  {
    RunKeepsInv(start, actions);
    var w := Run(start, actions);
    var activation, wakes := w.table[id].activatedAt, WakesOf(w.wakes, id);
    assert RowFits(id, w.table[id], wakes, w.clock);
    if 5 <= j { AtMostFiveEarlyWakes(activation, wakes, j); }
    if activation + 120 * MINUTE <= wakes[i] { OneWakePerSlot(activation, wakes, i, j); }
  }

  // ---------------------------------------------------------------------------------------------
  // The locked file as an object
  // ---------------------------------------------------------------------------------------------

  function RowId(row: Row): CadenceId { row.id }

  class CadenceFile {
    var rows: seq<Row>

    constructor ()
      ensures Valid() && View() == map[]
    {
      rows := [];
    }

    ghost predicate Valid()
      reads this
    {
      DistinctKeys(RowId, rows)
    }

    ghost function View(): Table
      requires Valid()
      reads this
    {
      AsMap(RowId, rows)
    }

    method FindRow(id: CadenceId) returns (i: nat)
      requires Valid()
      ensures i <= |rows|
      ensures i < |rows| ==> rows[i].id == id && id in View() && View()[id] == rows[i]
      ensures i == |rows| ==> id !in View()
    {
      i := 0;
      while i < |rows| && rows[i].id != id
        invariant i <= |rows|
        invariant forall j :: 0 <= j < i ==> rows[j].id != id
      {
        i := i + 1;
      }
      if i < |rows| { AsMapHas(RowId, rows, i); } else { AsMapLacks(RowId, rows, id); }
    }

    method PutRow(i: nat, row: Row)
      requires Valid() && i < |rows| && row.id == rows[i].id
      modifies this
      ensures Valid() && View() == old(View())[row.id := row]
    {
      AsMapUpdate(RowId, rows, i, row);
      rows := rows[i := row];
    }

    method Schedule(id: CadenceId, message: string, harness: string, observation: Observation, now: int)
      returns (result: Result<Row>)
      requires Valid()
      modifies this
      ensures Valid()
      ensures observation == Held || observation == Unavailable ==> View() == old(View()) && result.Err?
      ensures observation == Idle || observation == Busy ==>
        (View(), result) == ScheduleTx(old(View()), id, message, harness, now)
    {
      if observation == Held || observation == Unavailable { return Err("Exact Codex session is stopped or unavailable"); }
      var existing := FindRow(id);
      if existing < |rows| {
        if rows[existing].message != message { return Err("requestId already belongs to another continuation"); }
        return Ok(rows[existing]);
      }
      var i := 0;
      while i < |rows|
        invariant 0 <= i <= |rows|
        invariant forall j :: 0 <= j < i ==> !(rows[j].id.sessionId == id.sessionId && Live(rows[j]))
      {
        if rows[i].id.sessionId == id.sessionId && Live(rows[i]) {
          AsMapHas(RowId, rows, i);
          return Err("Session already has a live or unresolved cadence");
        }
        i := i + 1;
      }
      forall other | other in View() && other.sessionId == id.sessionId ensures !Live(View()[other]) {
        var j := AsMapFind(RowId, rows, other);
        AsMapHas(RowId, rows, j);
      }
      var row := Row(id, message, harness, now, NextCadenceAt(now, now), Scheduled, 0, None, None, None, "");
      AsMapAppend(RowId, rows, row);
      rows := rows + [row];
      return Ok(row);
    }

    method ControlRow(id: CadenceId, sessionId: string, action: Control) returns (result: Result<Row>)
      requires Valid()
      modifies this
      ensures Valid() && (View(), result) == ControlTx(old(View()), id, sessionId, action)
    {
      var i := FindRow(id);
      if i == |rows| || rows[i].id.sessionId != sessionId { return Err("Exact cadence owner not found"); }
      var row := rows[i].(state := if action == Pause then Paused else Complete,
                          reason := if action == Pause then "explicit pause" else "explicit complete");
      PutRow(i, row);
      return Ok(row);
    }

    method HoldRow(id: CadenceId)
      requires Valid()
      modifies this
      ensures Valid() && View() == HoldTx(old(View()), id)
    {
      var i := FindRow(id);
      if i < |rows| && rows[i].state == Scheduled { PutRow(i, rows[i].(state := Paused, reason := "HumanStop")); }
    }

    method SkipSlot(candidate: Row, observation: Observation, now: int)
      requires Valid()
      modifies this
      ensures Valid() && View() == SkipTx(old(View()), candidate, observation, now)
    {
      var i := FindRow(candidate.id);
      if i < |rows| && rows[i].state == Scheduled && rows[i].nextAt == candidate.nextAt {
        PutRow(i, rows[i].(nextAt := NextCadenceAt(rows[i].activatedAt, now),
                           reason := if observation == Busy then "busy hourly slot skipped" else "expired hourly slot skipped"));
      }
    }

    method ClaimRow(id: CadenceId, now: int) returns (claim: Option<Row>)
      requires Valid()
      modifies this
      ensures Valid() && (View(), claim) == ClaimTx(old(View()), id, now)
    {
      var i := FindRow(id);
      if i == |rows| || rows[i].state != Scheduled || rows[i].nextAt > now { return None; }
      var sequence := rows[i].sequence + 1;
      var row := rows[i].(state := Dispatching, sequence := sequence, inputId := Some(InputId(id, sequence)));
      PutRow(i, row);
      return Some(row);
    }

    method RevertRow(id: CadenceId, recheck: Observation, hourly: bool, now: int)
      requires Valid()
      modifies this
      ensures Valid() && View() == RevertTx(old(View()), id, recheck, hourly, now)
    {
      var i := FindRow(id);
      if i < |rows| && rows[i].state == Dispatching {
        var row := rows[i].(state := if recheck == Held then Paused else Scheduled, reason := "preflight");
        if recheck == Busy && hourly { row := row.(nextAt := NextCadenceAt(row.activatedAt, now)); }
        PutRow(i, row);
      }
    }

    method FinishRow(claim: Row, status: Status, now: int) returns (woken: bool)
      requires Valid()
      modifies this
      ensures Valid() && (View(), woken) == FinishTx(old(View()), claim, status, now)
    {
      var i := FindRow(claim.id);
      if i == |rows| || rows[i].inputId != claim.inputId { return false; }
      var row := rows[i].(result := Some(status));
      woken := false;
      if row.state == Dispatching {
        if status != Accepted {
          row := row.(state := if status == Unknown then DeliveryUnknown else Blocked);
        } else {
          row := row.(lastWakeAt := Some(now), nextAt := NextCadenceAt(row.activatedAt, now), state := Scheduled);
          woken := true;
        }
      }
      PutRow(i, row);
    }
  }
}
