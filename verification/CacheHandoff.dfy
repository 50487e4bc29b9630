/** The cache handoff of src/cache-handoff.ts for one source session. */
module CacheHandoff {
  // A call prepares a replacement session, records the exact prompt durably, sends it once and records the
  // answer.  The process may stop between any two awaits; after a restart the durable record is reconciled
  // with what the harness says about the replacement.  A record is set in the memory of the process before
  // it is written, and stays there when the write fails.  Calls for the source are sequential.

  import opened Common

  type SessionId = string
  type OperationId = string

  const WINDOW: nat := 100

  datatype AdmissionState = Prepared | Pending | Failed | Confirmed

  /** A lineage record of role "cache-handoff" whose parent is the source. */
  datatype Record = Record(session: SessionId, state: AdmissionState, operationId: OperationId, prompt: string, updatedAt: int)

  datatype Kind = RolledOver | AdmittedFailed

  /** The part of a handoff result that callers act on. */
  datatype Result = Result(kind: Kind, session: SessionId)

  /** A message of a replacement session; `Human` is user text other than the handoff prompt. */
  datatype Entry = Handoff(prompt: string) | Human | Other

  /** One replacement session as the harness keeps it; `failed` is the fate of the handoff's native turn. */
  datatype Native = Native(entries: seq<Entry>, failed: bool)

  type Natives = map<SessionId, Native>

  /** The reply to `sendMessage`. */
  datatype Reply = Reply(ok: bool, admitted: bool, pending: bool, nonRetryable: bool)

  datatype Answer = NotFound | Admitted | TurnFailed | Unknown

  function KindOf(state: AdmissionState): Kind {
    if state == Failed then AdmittedFailed else RolledOver
  }

  function ResultOf(r: Record): Result {
    Result(KindOf(r.state), r.session)
  }

  // ---------------------------------------------------------------------------------------------
  // The lineage store
  // ---------------------------------------------------------------------------------------------

  /** `record`: the store is a map keyed by session, listed in insertion order. */
  function Upsert(records: seq<Record>, r: Record): seq<Record> {
    if records == [] then [r]
    else if records[0].session == r.session then [r] + records[1..]
    else [records[0]] + Upsert(records[1..], r)
  }

  /** Where the search for a session stops is where its record goes. */
  lemma {:induction false} UpsertAt(records: seq<Record>, i: nat, r: Record)
    requires i <= |records| && (forall j :: 0 <= j < i ==> records[j].session != r.session)
    requires i < |records| ==> records[i].session == r.session
    ensures Upsert(records, r) == if i < |records| then records[i := r] else records + [r]
  {
    if i > 0 { UpsertAt(records[1..], i - 1, r); }
  }

  /** The first record of the list sorted by `updatedAt`, newest first. */
  function Newest(records: seq<Record>): Option<Record> {
    if records == [] then None
    else match Newest(records[1..])
      case None => Some(records[0])
      case Some(r) => Some(if r.updatedAt > records[0].updatedAt then r else records[0])
  }

  lemma NewestOfOne(r: Record)
    ensures Newest([r]) == Some(r)
  {
    var one := [r];
    assert one[1..] == [];
  }

  // ---------------------------------------------------------------------------------------------
  // Reconciliation
  // ---------------------------------------------------------------------------------------------

  predicate SaysUser(entries: seq<Entry>) {
    exists i :: 0 <= i < |entries| && !entries[i].Other?
  }

  /** What the transcript fallback concludes from the most recent messages, or from none. */
  function FromTranscript(visible: Option<seq<Entry>>, prompt: string): Answer {
    match visible
    case None => Unknown
    case Some(entries) =>
      if Handoff(prompt) in entries then Admitted else if !SaysUser(entries) then NotFound else Unknown
  }

  predicate Undecided(oracle: Option<Answer>) {
    oracle == None || oracle == Some(Unknown)
  }

  function Visible(natives: Natives, session: SessionId, transcript: bool): Option<seq<Entry>> {
    if transcript && session in natives then Some(Last(WINDOW, natives[session].entries)) else None
  }

  /** `oracle` is the adapter's own admission answer, when it has one. */
  function Verdict(natives: Natives, r: Record, oracle: Option<Answer>, transcript: bool): Answer {
    if !Undecided(oracle) then oracle.value
    else FromTranscript(Visible(natives, r.session, transcript), r.prompt)
  }

  // ---------------------------------------------------------------------------------------------
  // One call, one await at a time
  // ---------------------------------------------------------------------------------------------

  datatype Call =
    | Creating
    | Created(session: SessionId)
    | Reconciling(record: Record)
    | Ready(record: Record)
    | Sent(record: Record, reply: Reply)

  /** `memory` is the admitted result the service remembers, `records` the store in the process, `disk` its
      file.  `landings` lists each time the harness admitted a handoff prompt, `returned` each result handed out. */
  datatype World = World(
    call: Option<Call>, memory: Option<Result>, records: seq<Record>, disk: seq<Record>, natives: Natives,
    landings: seq<SessionId>, returned: seq<Result>)

  datatype Action =
    | DoCall(held: bool, expired: bool)
    | DoGiveUp
    | DoCreate(session: SessionId)
    | DoPrepare(operationId: OperationId, prompt: string, now: int, fails: bool)
    | DoReconcile(oracle: Option<Answer>, transcript: bool, now: int, fails: bool)
    | DoSend(landed: bool, reply: Reply)
    | DoRecord(now: int, fails: bool)
    | DoStoreWrite
    | DoCrash
    | DoNativeEntry(session: SessionId, entry: Entry)
    | DoNativeFailure(session: SessionId)

  /** `record`: the map is set first, then the whole map is written, unless that fails. */
  function Persist(w: World, r: Record, fails: bool): World {
    var records := Upsert(w.records, r);
    w.(records := records, disk := if fails then w.disk else records)
  }

  function Return(w: World, r: Result): World {
    w.(call := None, memory := Some(r), returned := w.returned + [r])
  }

  function Begin(w: World, held: bool, expired: bool): World {
    if held then w
    else if w.memory.Some? then w.(returned := w.returned + [w.memory.value])
    else if !expired then w
    else match Newest(w.records)
      case None => w.(call := Some(Creating))
      case Some(r) => if r.state == Prepared then w.(call := Some(Reconciling(r))) else Return(w, ResultOf(r))
  }

  function Prepare(w: World, r: Record, fails: bool): World {
    Persist(w, r, fails).(call := if fails then None else Some(Ready(r)))
  }

  function Reconcile(w: World, r: Record, oracle: Option<Answer>, transcript: bool, now: int, fails: bool): World {
    match Verdict(w.natives, r, oracle, transcript)
    case NotFound => w.(call := Some(Ready(r)))
    case Unknown => w.(call := None)
    case answer =>
      var updated := r.(state := if answer == TurnFailed then Failed else Pending, updatedAt := now);
      var w' := Persist(w, updated, fails);
      if fails then w'.(call := None) else Return(w', ResultOf(updated))
  }

  /** The send itself, and the memory of an admission that precedes every later await. */
  function Send(w: World, r: Record, landed: bool, reply: Reply): World {
    var native := if landed && r.session in w.natives
                  then w.natives[r.session := w.natives[r.session].(entries := w.natives[r.session].entries + [Handoff(r.prompt)])]
                  else w.natives;
    var w' := w.(natives := native, landings := if landed then w.landings + [r.session] else w.landings);
    if !reply.ok && !(reply.admitted && reply.nonRetryable) then w'.(call := None)
    else
      w'.(call := Some(Sent(r, reply)),
          memory := if reply.admitted || reply.pending then Some(ResultOf(r.(state := SentState(reply)))) else w.memory)
  }

  function SentState(reply: Reply): AdmissionState {
    if reply.admitted && reply.nonRetryable then Failed else if reply.pending then Pending else Confirmed
  }

  function RecordSent(w: World, r: Record, reply: Reply, now: int, fails: bool): World {
    var updated := r.(state := SentState(reply), updatedAt := now);
    var w' := Persist(w, updated, fails).(call := None);
    if fails then w' else w'.(returned := w.returned + [ResultOf(updated)])
  }

  /** `DoStoreWrite` is a successful write of the store for some other session; it writes the whole map. */
  function Step(w: World, a: Action): World {
    match a
    case DoCall(held, expired) => if w.call.None? then Begin(w, held, expired) else w
    case DoGiveUp => if w.call.Some? && w.call.value.Sent? then w else w.(call := None)
    case DoCreate(session) =>
      if w.call == Some(Creating) && session !in w.natives then
        w.(call := Some(Created(session)), natives := w.natives[session := Native([], false)])
      else w
    case DoPrepare(operationId, prompt, now, fails) =>
      if w.call.Some? && w.call.value.Created? then
        Prepare(w, Record(w.call.value.session, Prepared, operationId, prompt, now), fails)
      else w
    case DoReconcile(oracle, transcript, now, fails) =>
      if w.call.Some? && w.call.value.Reconciling? then
        Reconcile(w, w.call.value.record, oracle, transcript, now, fails)
      else w
    case DoSend(landed, reply) =>
      if w.call.Some? && w.call.value.Ready? then Send(w, w.call.value.record, landed, reply) else w
    case DoRecord(now, fails) =>
      if w.call.Some? && w.call.value.Sent? then RecordSent(w, w.call.value.record, w.call.value.reply, now, fails) else w
    case DoStoreWrite => w.(disk := w.records)
    case DoCrash => w.(call := None, memory := None, records := w.disk)
    case DoNativeEntry(session, entry) =>
      if session in w.natives && !entry.Handoff? then
        w.(natives := w.natives[session := w.natives[session].(entries := w.natives[session].entries + [entry])])
      else w
    case DoNativeFailure(session) =>
      if session in w.natives then w.(natives := w.natives[session := w.natives[session].(failed := true)]) else w
  }

  function Run(actions: seq<Action>): World {
    if actions == [] then World(None, None, [], [], map[], [], [])
    else Step(Run(actions[..|actions| - 1]), actions[|actions| - 1])
  }

  // ---------------------------------------------------------------------------------------------
  // What is assumed of the harness
  // ---------------------------------------------------------------------------------------------

  predicate Landed(w: World, r: Record) {
    r.session in w.landings
  }

  /** A landed prompt still shows in the recent messages, or some other user message does. */
  predicate PromptInWindow(natives: Natives, session: SessionId) {
    session in natives && SaysUser(Last(WINDOW, natives[session].entries))
  }

  /** Answers are true: admission is reported exactly when the prompt landed, and a positive reply to a
      send means that it landed. */
  predicate Truthful(w: World, a: Action) {
    match a
    case DoReconcile(oracle, _, _, _) =>
      w.call.Some? && w.call.value.Reconciling? ==>
        var r := w.call.value.record;
        && (oracle == Some(NotFound) ==> !Landed(w, r))
        && (oracle == Some(Admitted) || oracle == Some(TurnFailed) ==> Landed(w, r))
        && (oracle == Some(TurnFailed) ==> r.session in w.natives && w.natives[r.session].failed)
    case DoSend(landed, reply) => reply.ok || reply.admitted || reply.pending ==> landed
    case _ => true
  }

  /** When the transcript has to decide, it reaches back to the prompt. */
  predicate Covered(w: World, a: Action) {
    (a.DoReconcile? && Undecided(a.oracle) && a.transcript
     && w.call.Some? && w.call.value.Reconciling? && Landed(w, w.call.value.record))
    ==> PromptInWindow(w.natives, w.call.value.record.session)
  }

  predicate Honest(actions: seq<Action>) {
    actions == [] ||
      (Honest(actions[..|actions| - 1]) && Truthful(Run(actions[..|actions| - 1]), actions[|actions| - 1]))
  }

  /** How many reconciliations saw a transcript that does not reach back to the prompt. */
  function Gaps(actions: seq<Action>): nat {
    if actions == [] then 0
    else Gaps(actions[..|actions| - 1])
         + if Covered(Run(actions[..|actions| - 1]), actions[|actions| - 1]) then 0 else 1
  }

  predicate Sound(actions: seq<Action>) {
    Honest(actions) && Gaps(actions) == 0
  }

  lemma SoundStep(actions: seq<Action>)
    requires Sound(actions) && actions != []
    ensures var init, a := actions[..|actions| - 1], actions[|actions| - 1];
      Sound(init) && Truthful(Run(init), a) && Covered(Run(init), a)
  {
  }

  lemma RunSnoc(actions: seq<Action>, a: Action)
    ensures Run(actions + [a]) == Step(Run(actions), a)
    ensures Honest(actions + [a]) == (Honest(actions) && Truthful(Run(actions), a))
    ensures Gaps(actions + [a]) == Gaps(actions) + if Covered(Run(actions), a) then 0 else 1
    ensures SentOnRecord(actions + [a]) == (SentOnRecord(actions) && RecordedAtSend(Run(actions), a))
  {
    assert (actions + [a])[..|actions|] == actions;
  }

  // ---------------------------------------------------------------------------------------------
  // Invariant
  // ---------------------------------------------------------------------------------------------

  /** The source has at most one handoff record, and its session exists. */
  predicate OneRecord(records: seq<Record>, natives: Natives) {
    |records| <= 1 && (records != [] ==> records[0].session in natives)
  }

  /** The file holds the record of the process, an earlier form of it, or none. */
  predicate DiskFits(disk: seq<Record>, records: seq<Record>) {
    || disk == []
    || disk == records
    || (|disk| == 1 && |records| == 1 && disk[0].session == records[0].session
        && disk[0].state == Prepared && records[0].state != Prepared)
  }

  predicate CallFits(call: Option<Call>, memory: Option<Result>, records: seq<Record>, natives: Natives, landings: seq<SessionId>) {
    match call
    case None => true
    case Some(Creating) => records == [] && memory == None
    case Some(Created(session)) => records == [] && memory == None && session in natives && session !in landings
    case Some(Reconciling(r)) => records == [r] && r.state == Prepared && memory == None
    case Some(Ready(r)) => records == [r] && r.state == Prepared && memory == None && r.session !in landings
    case Some(Sent(r, reply)) =>
      && records == [r] && r.state == Prepared && r.session in landings
      && (memory.Some? ==> memory.value == ResultOf(r.(state := SentState(reply))))
  }

  predicate HasHandoff(native: Native) {
    exists i :: 0 <= i < |native.entries| && native.entries[i].Handoff?
  }

  predicate Distinct(landings: seq<SessionId>) {
    forall i, j :: 0 <= i < j < |landings| ==> landings[i] != landings[j]
  }

  /** No session admits a prompt twice, and only where it landed does it show. */
  predicate LandingsFit(natives: Natives, landings: seq<SessionId>) {
    && Distinct(landings)
    && (forall i :: 0 <= i < |landings| ==> landings[i] in natives)
    && forall s :: s in natives && HasHandoff(natives[s]) ==> s in landings
  }

  /** A record that is no longer prepared, and a result, name a session in which the prompt has landed. */
  predicate ResultsFit(returned: seq<Result>, records: seq<Record>, landings: seq<SessionId>) {
    && (records != [] && records[0].state != Prepared ==> records[0].session in landings)
    && forall i :: 0 <= i < |returned| ==> returned[i].session in landings
  }

  predicate Settled(records: seq<Record>, r: Result) {
    records != [] && records[0].state != Prepared && r == ResultOf(records[0])
  }

  /** Once the final record has been attempted, what is remembered is what the store in the process says. */
  predicate MemoryFits(call: Option<Call>, memory: Option<Result>, records: seq<Record>) {
    memory.Some? && !(call.Some? && call.value.Sent?) ==> Settled(records, memory.value)
  }

  predicate Inv(w: World) {
    && OneRecord(w.records, w.natives)
    && DiskFits(w.disk, w.records)
    && CallFits(w.call, w.memory, w.records, w.natives, w.landings)
    && LandingsFit(w.natives, w.landings)
    && ResultsFit(w.returned, w.records, w.landings)
    && MemoryFits(w.call, w.memory, w.records)
  }

  // ---------------------------------------------------------------------------------------------
  // Every step keeps the invariant
  // ---------------------------------------------------------------------------------------------

  lemma NativeEntryKeepsLandings(natives: Natives, landings: seq<SessionId>, session: SessionId, entry: Entry)
    requires LandingsFit(natives, landings) && session in natives && !entry.Handoff?
    ensures LandingsFit(natives[session := natives[session].(entries := natives[session].entries + [entry])], landings)
  {
    var native := natives[session];
    var native' := native.(entries := native.entries + [entry]);
    if HasHandoff(native') {
      var i :| 0 <= i < |native'.entries| && native'.entries[i].Handoff?;
      assert native.entries[i].Handoff?;
    }
  }

  lemma NativeFailureKeepsLandings(natives: Natives, landings: seq<SessionId>, session: SessionId)
    requires LandingsFit(natives, landings) && session in natives
    ensures LandingsFit(natives[session := natives[session].(failed := true)], landings)
  {
    assert HasHandoff(natives[session].(failed := true)) ==> HasHandoff(natives[session]);
  }

  lemma NewSessionKeepsLandings(natives: Natives, landings: seq<SessionId>, session: SessionId)
    requires LandingsFit(natives, landings) && session !in natives
    ensures LandingsFit(natives[session := Native([], false)], landings) && session !in landings
  {
    var natives' := natives[session := Native([], false)];
    forall s | s in natives' && HasHandoff(natives'[s]) ensures s in landings {
      assert s != session;
    }
  }

  /** Reconciliation tells a landed prompt from an unsent one. */
  lemma VerdictIsRight(w: World, r: Record, a: Action)
    requires Inv(w) && w.call == Some(Reconciling(r)) && a.DoReconcile? && Truthful(w, a) && Covered(w, a)
    ensures var v := Verdict(w.natives, r, a.oracle, a.transcript);
      && (v == NotFound ==> !Landed(w, r))
      && (v == Admitted || v == TurnFailed ==> Landed(w, r))
  {
    var window := Last(WINDOW, w.natives[r.session].entries);
    if Handoff(r.prompt) in window {
      var i :| 0 <= i < |window| && window[i] == Handoff(r.prompt);
      var entries := w.natives[r.session].entries;
      assert window[i] == entries[|entries| - |window| + i];
      assert HasHandoff(w.natives[r.session]);
    }
  }

  lemma ReconcileKeepsInv(w: World, r: Record, a: Action)
    requires Inv(w) && w.call == Some(Reconciling(r)) && a.DoReconcile? && Truthful(w, a) && Covered(w, a)
    ensures Inv(Step(w, a))
  {
    VerdictIsRight(w, r, a);
  }

  lemma SendKeepsInv(w: World, r: Record, landed: bool, reply: Reply)
    requires Inv(w) && w.call == Some(Ready(r)) && Truthful(w, DoSend(landed, reply))
    ensures Inv(Send(w, r, landed, reply))
  {
    var w' := Send(w, r, landed, reply);
    forall s | s in w'.natives && HasHandoff(w'.natives[s]) ensures s in w'.landings {
      if s != r.session || !landed { assert HasHandoff(w.natives[s]); }
    }
  }

  lemma BeginKeepsInv(w: World, held: bool, expired: bool)
    requires Inv(w) && w.call.None?
    ensures Inv(Begin(w, held, expired))
  {
    if w.records != [] {
      NewestOfOne(w.records[0]);
      assert w.records == [w.records[0]];
    }
  }

  lemma StepKeepsInv(w: World, a: Action)
    requires Inv(w) && Truthful(w, a) && Covered(w, a)
    ensures Inv(Step(w, a))
  {
    match a
    case DoCall(held, expired) => if w.call.None? { BeginKeepsInv(w, held, expired); }
    case DoCreate(session) => if session !in w.natives { NewSessionKeepsLandings(w.natives, w.landings, session); }
    case DoReconcile(_, _, _, _) => if w.call.Some? && w.call.value.Reconciling? { ReconcileKeepsInv(w, w.call.value.record, a); }
    case DoSend(landed, reply) => if w.call.Some? && w.call.value.Ready? { SendKeepsInv(w, w.call.value.record, landed, reply); }
    case DoNativeEntry(session, entry) =>
      if session in w.natives && !entry.Handoff? { NativeEntryKeepsLandings(w.natives, w.landings, session, entry); }
    case DoNativeFailure(session) => if session in w.natives { NativeFailureKeepsLandings(w.natives, w.landings, session); }
    case _ =>
  }

  lemma {:induction false} RunKeepsInv(actions: seq<Action>)
    requires Sound(actions)
    ensures Inv(Run(actions))
  {
    if actions != [] {
      SoundStep(actions);
      RunKeepsInv(actions[..|actions| - 1]);
      StepKeepsInv(Run(actions[..|actions| - 1]), actions[|actions| - 1]);
    }
  }

  // ---------------------------------------------------------------------------------------------
  // One landing
  // ---------------------------------------------------------------------------------------------

  /** Whatever writes fail, no replacement session admits the prompt twice, and every result a caller ever
      got names a session in which the prompt has landed. */
  lemma LandsOncePerSession(actions: seq<Action>, i: nat)
    requires Sound(actions)
    ensures Distinct(Run(actions).landings)
    ensures i < |Run(actions).returned| ==> Run(actions).returned[i].session in Run(actions).landings
  {
    RunKeepsInv(actions);
  }

  predicate RecordedAtSend(w: World, a: Action) {
    a.DoSend? && a.landed && w.call.Some? && w.call.value.Ready? ==> w.disk != []
  }

  /** Every send that lands finds the prepared record on disk. */
  predicate SentOnRecord(actions: seq<Action>) {
    actions == [] ||
      (SentOnRecord(actions[..|actions| - 1]) && RecordedAtSend(Run(actions[..|actions| - 1]), actions[|actions| - 1]))
  }

  predicate AtMostOne(w: World) {
    w.landings != [] ==> w.disk != [] && w.landings == [w.disk[0].session]
  }

  lemma StepKeepsAtMostOne(w: World, a: Action)
    requires Inv(w) && AtMostOne(w) && Truthful(w, a) && Covered(w, a) && RecordedAtSend(w, a)
    ensures AtMostOne(Step(w, a))
  {
    if a.DoCall? && w.call.None? && w.records != [] {
      NewestOfOne(w.records[0]);
      assert w.records == [w.records[0]];
    }
  }

  lemma {:induction false} RunKeepsAtMostOne(actions: seq<Action>)
    requires Sound(actions) && SentOnRecord(actions)
    ensures AtMostOne(Run(actions))
  {
    if actions != [] {
      SoundStep(actions);
      RunKeepsAtMostOne(actions[..|actions| - 1]);
      RunKeepsInv(actions[..|actions| - 1]);
      StepKeepsAtMostOne(Run(actions[..|actions| - 1]), actions[|actions| - 1]);
    }
  }

  /** When the prepared record has reached the disk before each send, at most one replacement session ever
      admits the prompt, at most once; and every result a caller ever got names that session. */
  lemma HandoffAdmittedOnce(actions: seq<Action>, i: nat)
    requires Sound(actions) && SentOnRecord(actions)
    ensures |Run(actions).landings| <= 1
    ensures i < |Run(actions).returned| ==> Run(actions).landings == [Run(actions).returned[i].session]
  {
    RunKeepsInv(actions);
    RunKeepsAtMostOne(actions);
  }

  /** The record on disk names a session in which the prompt has landed. */
  predicate LandedOnDisk(w: World) {
    w.disk != [] && w.disk[0].session in w.landings
  }

  lemma StepKeepsLanded(w: World, a: Action)
    requires Inv(w) && LandedOnDisk(w) && Truthful(w, a) && Covered(w, a)
    ensures LandedOnDisk(Step(w, a)) && Step(w, a).landings == w.landings
  {
    if a.DoCall? && w.call.None? {
      NewestOfOne(w.records[0]);
      assert w.records == [w.records[0]];
    }
  }

  lemma SoundMore(actions: seq<Action>, more: seq<Action>, a: Action)
    requires Sound(actions + (more + [a]))
    ensures var before := actions + more;
      Sound(before) && Inv(Run(before)) && Truthful(Run(before), a) && Covered(Run(before), a)
      && Run(actions + (more + [a])) == Step(Run(before), a)
  {
    assert actions + (more + [a]) == actions + more + [a];
    RunSnoc(actions + more, a);
    RunKeepsInv(actions + more);
  }

  lemma {:induction false} LandedForGood(actions: seq<Action>, more: seq<Action>)
    requires Sound(actions) && Sound(actions + more) && LandedOnDisk(Run(actions))
    ensures LandedOnDisk(Run(actions + more)) && Run(actions + more).landings == Run(actions).landings
  {
    if more == [] {
      assert actions + more == actions;
    } else {
      var init, a := more[..|more| - 1], more[|more| - 1];
      assert more == init + [a];
      SoundMore(actions, init, a);
      LandedForGood(actions, init);
      StepKeepsLanded(Run(actions + init), a);
    }
  }

  lemma FreshSession(taken: set<SessionId>) returns (s: SessionId)
    ensures forall t :: t in taken ==> |t| < |s|
  {
    if taken == {} {
      s := "s";
    } else {
      var t :| t in taken;
      var rest := FreshSession(taken - {t});
      s := if |t| < |rest| then rest else t + "s";
    }
  }

  const ACCEPTED := Reply(true, true, false, false)

  /** `more` continues the run soundly. */
  predicate Extends(actions: seq<Action>, more: seq<Action>) {
    actions <= more && Sound(more)
  }

  lemma Extend(base: seq<Action>, actions: seq<Action>, a: Action) returns (more: seq<Action>)
    requires Extends(base, actions) && Truthful(Run(actions), a) && Covered(Run(actions), a)
    ensures Extends(base, more) && Run(more) == Step(Run(actions), a) && more == actions + [a]
    ensures SentOnRecord(more) == (SentOnRecord(actions) && RecordedAtSend(Run(actions), a))
  {
    more := actions + [a];
    RunSnoc(actions, a);
  }

  predicate Idle(w: World) {
    w.call.None? && w.memory.None?
  }

  lemma Extend2(base: seq<Action>, actions: seq<Action>, a: Action, b: Action) returns (more: seq<Action>)
    requires Extends(base, actions)
    requires Truthful(Run(actions), a) && Covered(Run(actions), a)
    requires Truthful(Step(Run(actions), a), b) && Covered(Step(Run(actions), a), b)
    ensures Extends(base, more) && Run(more) == Step(Step(Run(actions), a), b) && more == actions + [a, b]
    ensures SentOnRecord(actions) && RecordedAtSend(Run(actions), a) && RecordedAtSend(Step(Run(actions), a), b) ==> SentOnRecord(more)
  {
    var one := Extend(base, actions, a);
    more := Extend(base, one, b);
  }

  lemma NewSessionSteps(w: World, s: SessionId, operationId: OperationId, prompt: string, now: int, fails: bool)
    requires Idle(w) && w.records == [] && s !in w.natives
    ensures var created, r := Step(Step(w, DoCall(false, true)), DoCreate(s)), Record(s, Prepared, operationId, prompt, now);
      && created == w.(call := Some(Created(s)), natives := w.natives[s := Native([], false)])
      && Step(created, DoPrepare(operationId, prompt, now, fails))
         == created.(call := if fails then None else Some(Ready(r)), records := [r], disk := if fails then w.disk else [r])
  {
    assert Step(w, DoCall(false, true)) == w.(call := Some(Creating));
  }

  /** An idle process without a record creates a session and sends to it. */
  lemma SendsNew(base: seq<Action>, idle: seq<Action>, s: SessionId, operationId: OperationId, prompt: string, now: int)
    returns (more: seq<Action>)
    requires Extends(base, idle) && Idle(Run(idle)) && Run(idle).records == [] && s !in Run(idle).natives
    ensures Extends(base, more) && Run(more).landings == Run(idle).landings + [s]
    ensures more == idle + [DoCall(false, true), DoCreate(s), DoPrepare(operationId, prompt, now, false), DoSend(true, ACCEPTED)]
  {
    NewSessionSteps(Run(idle), s, operationId, prompt, now, false);
    var created := Extend2(base, idle, DoCall(false, true), DoCreate(s));
    more := Extend2(base, created, DoPrepare(operationId, prompt, now, false), DoSend(true, ACCEPTED));
  }

  /** An idle process with a prepared record that has not landed sends to its session. */
  lemma SendsRecorded(base: seq<Action>, idle: seq<Action>, r: Record) returns (more: seq<Action>)
    requires Extends(base, idle) && Idle(Run(idle)) && Run(idle).records == [r] && r.state == Prepared && !Landed(Run(idle), r)
    ensures Extends(base, more)
    ensures Run(more).landings == Run(idle).landings + [r.session] && Run(more).disk == Run(idle).disk
    ensures Run(more).natives.Keys == Run(idle).natives.Keys
    ensures more == idle + [DoCall(false, true), DoReconcile(Some(NotFound), true, 0, false), DoSend(true, ACCEPTED)]
  {
    var w := Run(idle);
    NewestOfOne(r);
    var called := Extend(base, idle, DoCall(false, true));
    assert Run(called) == w.(call := Some(Reconciling(r)));
    var ready := Extend(base, called, DoReconcile(Some(NotFound), true, 0, false));
    assert Run(ready) == w.(call := Some(Ready(r)));
    more := Extend(base, ready, DoSend(true, ACCEPTED));
  }

  /** Without that record a restart creates, or goes on with, a session that is sent to. */
  lemma LandsAgain(actions: seq<Action>) returns (more: seq<Action>)
    requires Sound(actions) && !LandedOnDisk(Run(actions))
    ensures Extends(actions, more) && |Run(more).landings| == |Run(actions).landings| + 1
  {
    RunKeepsInv(actions);
    var idle := Extend(actions, actions, DoCrash);
    if Run(actions).disk == [] {
      var s := FreshSession(Run(idle).natives.Keys);
      more := SendsNew(actions, idle, s, "op", "p", 0);
    } else {
      more := SendsRecorded(actions, idle, Run(actions).disk[0]);
    }
  }

  /** The exact condition: after any sound run the prompt can land once more exactly when the record on
      disk does not name a session in which it has landed. */
  lemma CanLandIff(actions: seq<Action>)
    requires Sound(actions)
    ensures (exists more :: Extends(actions, more) && |Run(more).landings| > |Run(actions).landings|)
            <==> !LandedOnDisk(Run(actions))
  {
    if LandedOnDisk(Run(actions)) {
      forall more | Extends(actions, more) ensures |Run(more).landings| == |Run(actions).landings| {
        assert more == actions + more[|actions|..];
        LandedForGood(actions, more[|actions|..]);
      }
    } else {
      var more := LandsAgain(actions);
      assert Extends(actions, more) && |Run(more).landings| > |Run(actions).landings|;
    }
  }

  /** For one send: what has landed can land a second time exactly when the prepared record was not on disk. */
  lemma SendCanRepeatIff(actions: seq<Action>, r: Record, reply: Reply)
    requires Sound(actions) && Run(actions).call == Some(Ready(r))
    ensures var sent := actions + [DoSend(true, reply)];
      (exists more :: Extends(sent, more) && |Run(more).landings| > |Run(sent).landings|) <==> Run(actions).disk == []
  {
    RunKeepsInv(actions);
    RunSnoc(actions, DoSend(true, reply));
    SentToRecord(Run(actions), r, reply);
    CanLandIff(actions + [DoSend(true, reply)]);
  }

  lemma SentToRecord(w: World, r: Record, reply: Reply)
    requires Inv(w) && w.call == Some(Ready(r))
    ensures LandedOnDisk(Step(w, DoSend(true, reply))) <==> w.disk != []
  {
  }

  // ---------------------------------------------------------------------------------------------
  // One answer
  // ---------------------------------------------------------------------------------------------

  lemma StepKeepsSettled(w: World, a: Action)
    requires Inv(w) && w.records != [] && w.records[0].state != Prepared && !a.DoCrash?
    requires Truthful(w, a) && Covered(w, a)
    ensures var w' := Step(w, a);
      && w'.records == w.records
      && (w'.returned == w.returned || w'.returned == w.returned + [ResultOf(w.records[0])])
  {
    if a.DoCall? && w.call.None? {
      NewestOfOne(w.records[0]);
      assert w.records == [w.records[0]];
    }
  }

  /** Until the process stops, every result is the one its store has settled on, even if the store could
      not be written. */
  lemma {:induction false} ResultStaysInProcess(actions: seq<Action>, more: seq<Action>, i: nat)
    requires Sound(actions) && Sound(actions + more)
    requires Run(actions).records != [] && Run(actions).records[0].state != Prepared
    requires forall k :: 0 <= k < |more| ==> !more[k].DoCrash?
    ensures Run(actions + more).records == Run(actions).records
    ensures |Run(actions).returned| <= i < |Run(actions + more).returned|
            ==> Run(actions + more).returned[i] == ResultOf(Run(actions).records[0])
  {
    if more == [] {
      assert actions + more == actions;
    } else {
      var init, a := more[..|more| - 1], more[|more| - 1];
      assert more == init + [a];
      SoundMore(actions, init, a);
      ResultStaysInProcess(actions, init, i);
      StepKeepsSettled(Run(actions + init), a);
    }
  }

  /** When the records after an answer are written, every returned result is what the disk says. */
  predicate Agrees(w: World) {
    && (w.disk != w.records ==> w.records != [] && w.records[0].state == Prepared)
    && forall i :: 0 <= i < |w.returned| ==> Settled(w.disk, w.returned[i])
  }

  predicate RecordsSucceed(actions: seq<Action>) {
    forall i :: 0 <= i < |actions| ==>
      (actions[i].DoRecord? || actions[i].DoReconcile? ==> !actions[i].fails)
  }

  lemma StepKeepsAgrees(w: World, a: Action)
    requires Inv(w) && Agrees(w) && Truthful(w, a) && Covered(w, a)
    requires a.DoRecord? || a.DoReconcile? ==> !a.fails
    ensures Agrees(Step(w, a))
  {
    if a.DoCall? && w.call.None? { BeginKeepsAgrees(w, a.held, a.expired); }
  }

  lemma BeginKeepsAgrees(w: World, held: bool, expired: bool)
    requires Inv(w) && Agrees(w) && w.call.None?
    ensures Agrees(Begin(w, held, expired))
  {
    if w.records != [] {
      NewestOfOne(w.records[0]);
      assert w.records == [w.records[0]];
    }
  }

  lemma {:induction false} RunAgrees(actions: seq<Action>)
    requires Sound(actions) && RecordsSucceed(actions)
    ensures Inv(Run(actions)) && Agrees(Run(actions))
  {
    RunKeepsInv(actions);
    if actions != [] {
      var init := actions[..|actions| - 1];
      SoundStep(actions);
      RunAgrees(init);
      StepKeepsAgrees(Run(init), actions[|actions| - 1]);
    }
  }

  /** Crashes, and failing prepare writes, never change the answer: every result ever returned has the same
      kind and session. */
  lemma ResultSurvivesRestart(actions: seq<Action>, i: nat, j: nat)
    requires Sound(actions) && RecordsSucceed(actions)
    requires i < |Run(actions).returned| && j < |Run(actions).returned|
    ensures Run(actions).returned[i] == Run(actions).returned[j]
  {
    RunAgrees(actions);
    var w := Run(actions);
    assert Settled(w.disk, w.returned[i]) && Settled(w.disk, w.returned[j]);
  }

  // ---------------------------------------------------------------------------------------------
  // Where the promise ends
  // ---------------------------------------------------------------------------------------------

  /** The prepare write fails, the retry of the same process sends, and a restart knows nothing of it. */
  function LostPrepareRun(): seq<Action> {
    [DoCall(false, true), DoCreate("s"), DoPrepare("op", "p", 0, true),
     DoCall(false, true), DoReconcile(Some(NotFound), true, 0, false), DoSend(true, ACCEPTED),
     DoCrash,
     DoCall(false, true), DoCreate("t"), DoPrepare("oq", "q", 1, false), DoSend(true, ACCEPTED)]
  }

  lemma LostPrepare() returns (actions: seq<Action>)
    ensures Extends([], actions) && actions == LostPrepareRun()[..3]
    ensures var w := Run(actions);
      && Idle(w) && w.records == [Record("s", Prepared, "op", "p", 0)] && w.disk == [] && w.landings == []
      && w.natives.Keys == {"s"}
  {
    var w := Run([]);
    NewSessionSteps(w, "s", "op", "p", 0, true);
    var created := Extend2([], [], DoCall(false, true), DoCreate("s"));
    actions := Extend([], created, DoPrepare("op", "p", 0, true));
  }

  lemma LostPrepareLands() returns (actions: seq<Action>)
    ensures Extends([], actions) && actions == LostPrepareRun()[..7]
    ensures Idle(Run(actions)) && Run(actions).records == [] && "t" !in Run(actions).natives.Keys && Run(actions).landings == ["s"]
  {
    var lost := LostPrepare();
    var sent := SendsRecorded([], lost, Record("s", Prepared, "op", "p", 0));
    actions := Extend([], sent, DoCrash);
  }

  lemma LostPrepareLandsTwice()
    ensures Sound(LostPrepareRun()) && Run(LostPrepareRun()).landings == ["s", "t"]
  {
    var stopped := LostPrepareLands();
    var twice := SendsNew([], stopped, "t", "oq", "q", 1);
    assert twice == LostPrepareRun();
  }

  /** When only the transcript can tell, a landed prompt is sent again exactly when none of the last
      100 messages is a user message. */
  lemma LandedPromptIsResentIff(actions: seq<Action>, r: Record, oracle: Option<Answer>, now: int, fails: bool)
    requires Sound(actions) && Run(actions).call == Some(Reconciling(r)) && Landed(Run(actions), r)
    requires Undecided(oracle)
    ensures var w := Run(actions);
      Step(w, DoReconcile(oracle, true, now, fails)).call == Some(Ready(r)) <==> !PromptInWindow(w.natives, r.session)
  {
    RunKeepsInv(actions);
    var window := Last(WINDOW, Run(actions).natives[r.session].entries);
    if Handoff(r.prompt) in window {
      var i :| 0 <= i < |window| && window[i] == Handoff(r.prompt);
      assert SaysUser(window);
    }
  }

  /** The first send of a call, whatever the harness replies. */
  lemma FirstSend(landed: bool, reply: Reply) returns (actions: seq<Action>)
    requires Truthful(Run([]), DoSend(landed, reply))
    ensures var r := Record("s", Prepared, "op", "p", 0);
      var ready := World(Some(Ready(r)), None, [r], [r], map["s" := Native([], false)], [], []);
      Sound(actions) && SentOnRecord(actions) && Run(actions) == Step(ready, DoSend(landed, reply))
  {
    var a1 := Extend([], [], DoCall(false, true));
    var a2 := Extend([], a1, DoCreate("s"));
    var a3 := Extend([], a2, DoPrepare("op", "p", 0, false));
    actions := Extend([], a3, DoSend(landed, reply));
  }

  function Others(n: nat): (s: seq<Entry>)
    ensures |s| == n && forall i :: 0 <= i < n ==> s[i] == Other
  {
    if n == 0 then [] else Others(n - 1) + [Other]
  }

  function Talk(w: World, n: nat): World
    requires "s" in w.natives
  {
    w.(natives := w.natives["s" := w.natives["s"].(entries := w.natives["s"].entries + Others(n))])
  }

  lemma TalkStep(w: World, n: nat)
    requires "s" in w.natives
    ensures Talk(w, 0) == w
    ensures Step(Talk(w, n), DoNativeEntry("s", Other)) == Talk(w, n + 1)
  {
    assert w.natives["s"].entries + Others(0) == w.natives["s"].entries;
    assert w.natives["s"].entries + Others(n) + [Other] == w.natives["s"].entries + Others(n + 1);
  }

  /** `n` further messages of the agent. */
  lemma {:induction false} AgentTalks(actions: seq<Action>, n: nat) returns (more: seq<Action>)
    requires Sound(actions) && SentOnRecord(actions) && "s" in Run(actions).natives
    ensures Sound(more) && SentOnRecord(more) && Run(more) == Talk(Run(actions), n)
  {
    if n == 0 {
      TalkStep(Run(actions), 0);
      return actions;
    }
    TalkStep(Run(actions), n - 1);
    var before := AgentTalks(actions, n - 1);
    more := Extend([], before, DoNativeEntry("s", Other));
  }

  /** Asked again, a process whose transcript shows no user message sends to its session. */
  lemma ResendsUncovered(actions: seq<Action>, r: Record) returns (more: seq<Action>)
    requires Sound(actions) && SentOnRecord(actions) && Idle(Run(actions)) && r.state == Prepared
    requires Run(actions).records == Run(actions).disk == [r]
    requires Landed(Run(actions), r) && r.session in Run(actions).natives && !PromptInWindow(Run(actions).natives, r.session)
    ensures Honest(more) && SentOnRecord(more) && Gaps(more) == 1
    ensures Run(more).landings == Run(actions).landings + [r.session]
  {
    var w := Run(actions);
    NewestOfOne(r);
    var called := Extend([], actions, DoCall(false, true));
    assert Run(called) == w.(call := Some(Reconciling(r)));
    LandedPromptIsResentIff(called, r, None, 0, false);
    RunSnoc(called, DoReconcile(None, true, 0, false));
    var reconciled := called + [DoReconcile(None, true, 0, false)];
    assert Run(reconciled) == w.(call := Some(Ready(r)));
    RunSnoc(reconciled, DoSend(true, ACCEPTED));
    more := reconciled + [DoSend(true, ACCEPTED)];
  }

  /** Such a run exists: a lost reply, then a hundred agent messages, and the prompt lands twice.  Every answer
      in it is true, the record is on disk at both sends, and one reconciliation saw too short a transcript. */
  lemma PromptCanLandTwice() returns (actions: seq<Action>)
    ensures Honest(actions) && SentOnRecord(actions) && Gaps(actions) == 1
    ensures Run(actions).landings == ["s", "s"]
  {
    var lost := FirstSend(true, Reply(false, false, false, false));
    var talked := AgentTalks(lost, WINDOW);
    var entries := Run(talked).natives["s"].entries;
    assert entries == [Handoff("p")] + Others(WINDOW);
    assert Last(WINDOW, entries) == Others(WINDOW);
    actions := ResendsUncovered(talked, Record("s", Prepared, "op", "p", 0));
  }

  /** What a process that starts now and is asked at once does. */
  function Restarted(w: World): World {
    Step(Step(w, DoCrash), DoCall(false, true))
  }

  lemma RestartReads(w: World, r: Record)
    requires w.disk == [r] && r.state == Prepared
    ensures Restarted(w) == w.(call := Some(Reconciling(r)), memory := None, records := [r])
  {
    NewestOfOne(r);
  }

  /** The final record cannot be written, and the result is asked for. */
  function AfterLostRecord(w: World, now: int): World {
    Step(Step(w, DoRecord(now, true)), DoCall(false, true))
  }

  lemma LostRecordAnswers(w: World, r: Record, reply: Reply, now: int)
    requires Inv(w) && w.call == Some(Sent(r, reply))
    ensures var final := r.(state := SentState(reply), updatedAt := now);
      AfterLostRecord(w, now) == w.(call := None, memory := Some(ResultOf(final)), records := [final], returned := w.returned + [ResultOf(final)])
  {
    var final := r.(state := SentState(reply), updatedAt := now);
    NewestOfOne(final);
    var lost := Step(w, DoRecord(now, true));
    assert lost.records == [final] && lost.call.None?;
    assert Newest(lost.records) == Some(final);
  }

  predicate Found(answer: Answer) {
    answer == Admitted || answer == TurnFailed
  }

  function FoundRecord(r: Record, answer: Answer, now: int): Record {
    r.(state := if answer == TurnFailed then Failed else Pending, updatedAt := now)
  }

  /** A restarted process that still finds the prepared record answers what it is told then. */
  lemma RestartAnswers(w: World, r: Record, oracle: Option<Answer>, transcript: bool, at: int)
    requires w.disk == [r] && r.state == Prepared && Found(Verdict(w.natives, r, oracle, transcript))
    ensures Step(Restarted(w), DoReconcile(oracle, transcript, at, false)).returned
            == w.returned + [ResultOf(FoundRecord(r, Verdict(w.natives, r, oracle, transcript), at))]
  {
    RestartReads(w, r);
  }

  /** The exact condition for an answer to survive a lost final record: the turn has failed in the reply
      exactly if it has failed in what the restarted process finds.  In between, the harness goes on alone. */
  lemma KindKeptIff(actions: seq<Action>, r: Record, reply: Reply, now: int, natives: Natives,
                    oracle: Option<Answer>, transcript: bool, at: int)
    requires Sound(actions) && Run(actions).call == Some(Sent(r, reply)) && Run(actions).disk == [r]
    requires Found(Verdict(natives, r, oracle, transcript))
    ensures var before := AfterLostRecord(Run(actions), now);
      var after := Step(Restarted(before.(natives := natives)), DoReconcile(oracle, transcript, at, false));
      exists first, second ::
        && before.returned == Run(actions).returned + [first] && after.returned == before.returned + [second]
        && (first == second <==> ((SentState(reply) == Failed) == (Verdict(natives, r, oracle, transcript) == TurnFailed)))
  {
    RunKeepsInv(actions);
    var w := Run(actions);
    LostRecordAnswers(w, r, reply, now);
    var before := AfterLostRecord(w, now);
    RestartAnswers(before.(natives := natives), r, oracle, transcript, at);
    var first := ResultOf(r.(state := SentState(reply), updatedAt := now));
    assert before.returned == w.returned + [first];
  }

  /** The record of a reconciliation cannot be written, and the result is asked for. */
  function AfterLostReconciliation(w: World, oracle: Option<Answer>, transcript: bool, now: int): World {
    Step(Step(w, DoReconcile(oracle, transcript, now, true)), DoCall(false, true))
  }

  lemma LostReconciliationAnswers(w: World, r: Record, oracle: Option<Answer>, transcript: bool, now: int)
    requires Inv(w) && w.call == Some(Reconciling(r)) && Found(Verdict(w.natives, r, oracle, transcript))
    ensures var found := FoundRecord(r, Verdict(w.natives, r, oracle, transcript), now);
      AfterLostReconciliation(w, oracle, transcript, now)
      == w.(call := None, memory := Some(ResultOf(found)), records := [found], returned := w.returned + [ResultOf(found)])
  {
    var found := FoundRecord(r, Verdict(w.natives, r, oracle, transcript), now);
    NewestOfOne(found);
    var lost := Step(w, DoReconcile(oracle, transcript, now, true));
    assert lost.records == [found] && lost.call.None?;
  }

  /** The same after a lost record of a reconciliation: the answer survives exactly if both reconciliations
      agree on whether the turn has failed. */
  lemma ReconciledKindKeptIff(actions: seq<Action>, r: Record, oracle: Option<Answer>, transcript: bool, now: int,
                              natives: Natives, oracle': Option<Answer>, transcript': bool, at: int)
    requires Sound(actions) && Run(actions).call == Some(Reconciling(r)) && Run(actions).disk == [r]
    requires Found(Verdict(Run(actions).natives, r, oracle, transcript)) && Found(Verdict(natives, r, oracle', transcript'))
    ensures var before := AfterLostReconciliation(Run(actions), oracle, transcript, now);
      var after := Step(Restarted(before.(natives := natives)), DoReconcile(oracle', transcript', at, false));
      exists first, second ::
        && before.returned == Run(actions).returned + [first] && after.returned == before.returned + [second]
        && (first == second
            <==> ((Verdict(Run(actions).natives, r, oracle, transcript) == TurnFailed) == (Verdict(natives, r, oracle', transcript') == TurnFailed)))
  {
    RunKeepsInv(actions);
    var w := Run(actions);
    LostReconciliationAnswers(w, r, oracle, transcript, now);
    var before := AfterLostReconciliation(w, oracle, transcript, now);
    RestartAnswers(before.(natives := natives), r, oracle', transcript', at);
    var first := ResultOf(FoundRecord(r, Verdict(w.natives, r, oracle, transcript), now));
    assert before.returned == w.returned + [first];
  }

  /** A final record that cannot be written, a turn that fails later and a restart change the kind of the result. */
  lemma KindCanChangeWhenRecordFails() returns (actions: seq<Action>)
    ensures Sound(actions) && SentOnRecord(actions)
    ensures Run(actions).returned == [Result(RolledOver, "s"), Result(AdmittedFailed, "s")]
  {
    var r := Record("s", Prepared, "op", "p", 0);
    var sent := FirstSend(true, ACCEPTED);
    RunKeepsInv(sent);
    LostRecordAnswers(Run(sent), r, ACCEPTED, 0);
    var b1 := Extend([], sent, DoRecord(0, true));
    var b2 := Extend([], b1, DoCall(false, true));
    assert Run(b2) == AfterLostRecord(Run(sent), 0);
    assert Run(b2).returned == [Result(RolledOver, "s")] && Run(b2).landings == ["s"] && Run(b2).disk == [r];
    actions := FailedAfterRestart(b2);
  }

  lemma FailedAfterRestart(b2: seq<Action>) returns (actions: seq<Action>)
    requires Sound(b2) && SentOnRecord(b2)
    requires var w := Run(b2);
      && w.returned == [Result(RolledOver, "s")] && w.disk == [Record("s", Prepared, "op", "p", 0)]
      && w.landings == ["s"] && w.call.None? && "s" in w.natives
    ensures Sound(actions) && SentOnRecord(actions)
    ensures Run(actions).returned == [Result(RolledOver, "s"), Result(AdmittedFailed, "s")]
  {
    var b3 := Extend([], b2, DoNativeFailure("s"));
    RestartReads(Run(b3), Record("s", Prepared, "op", "p", 0));
    var b5 := Extend2([], b3, DoCrash, DoCall(false, true));
    actions := FailureIsFound(b5, Record("s", Prepared, "op", "p", 0));
  }

  lemma FailureIsFound(actions: seq<Action>, r: Record) returns (more: seq<Action>)
    requires Sound(actions) && SentOnRecord(actions) && Run(actions).call == Some(Reconciling(r)) && Landed(Run(actions), r)
    requires r.session in Run(actions).natives && Run(actions).natives[r.session].failed
    ensures Sound(more) && SentOnRecord(more)
    ensures Run(more).returned == Run(actions).returned + [Result(AdmittedFailed, r.session)]
  {
    more := Extend([], actions, DoReconcile(Some(TurnFailed), true, 0, false));
  }

  // ---------------------------------------------------------------------------------------------
  // The service as an object
  // ---------------------------------------------------------------------------------------------

  class LineageStore {
    var records: seq<Record>
    var file: seq<Record>

    /** A process loads what the file holds. */
    constructor (file: seq<Record>)
      ensures records == file && this.file == file
    {
      records, this.file := file, file;
    }

    /** `record`: the map is set before the file is written, so a failing write leaves it set. */
    method Put(r: Record, fails: bool) returns (ok: bool)
      modifies this
      ensures records == Upsert(old(records), r)
      ensures file == if fails then old(file) else records
      ensures ok == !fails
    {
      Set(r);
      if !fails { file := records; }
      ok := !fails;
    }

    method Set(r: Record)
      modifies this`records
      ensures records == Upsert(old(records), r)
    {
      var i := 0;
      while i < |records| && records[i].session != r.session
        invariant i <= |records|
        invariant forall j :: 0 <= j < i ==> records[j].session != r.session
      {
        i := i + 1;
      }
      UpsertAt(records, i, r);
      records := if i < |records| then records[i := r] else records + [r];
    }

    /** The head of the children sorted by time, newest first. */
    method NewestRecord() returns (newest: Option<Record>)
      ensures newest == Newest(records)
    {
      newest := None;
      var i := |records|;
      while i > 0
        invariant 0 <= i <= |records|
        invariant newest == Newest(records[i..])
      {
        i := i - 1;
        assert records[i..][1..] == records[i + 1..];
        if newest.None? || !(newest.value.updatedAt > records[i].updatedAt) { newest := Some(records[i]); }
      }
    }
  }

  /** The replacement sessions of the harness, and what the harness was made to do. */
  class Harness {
    var natives: Natives
    var landings: seq<SessionId>

    constructor ()
      ensures natives == map[] && landings == []
    {
      natives, landings := map[], [];
    }

    /** The session takes the prompt in. */
    method Admit(session: SessionId, prompt: string)
      modifies this
      ensures landings == old(landings) + [session]
      ensures natives == if session in old(natives)
                         then old(natives)[session := old(natives)[session].(entries := old(natives)[session].entries + [Handoff(prompt)])]
                         else old(natives)
    {
      landings := landings + [session];
      if session in natives {
        natives := natives[session := natives[session].(entries := natives[session].entries + [Handoff(prompt)])];
      }
    }
  }

  /** Everything one uninterrupted call meets.  `abandons` stands for a hold, a disarm or an error before the send. */
  datatype Env = Env(
    held: bool, expired: bool, oracle: Option<Answer>, transcript: bool, reconciledAt: int, reconcileFails: bool,
    session: SessionId, operationId: OperationId, prompt: string, preparedAt: int, prepareFails: bool, abandons: bool,
    landed: bool, reply: Reply, sentAt: int, recordFails: bool)

  function CreateAndPrepare(w: World, e: Env): World {
    if w.call == Some(Creating) then
      Step(Step(w, DoCreate(e.session)), DoPrepare(e.operationId, e.prompt, e.preparedAt, e.prepareFails))
    else w
  }

  /** The rest of a call once the store has been read. */
  function CreateAndSend(w: World, e: Env): World {
    var ready := CreateAndPrepare(w, e);
    if e.abandons then Step(ready, DoGiveUp)
    else Step(Step(ready, DoSend(e.landed, e.reply)), DoRecord(e.sentAt, e.recordFails))
  }

  /** A whole call without a crash, as the steps it consists of. */
  function UninterruptedCall(w: World, e: Env): World {
    var called := Step(w, DoCall(e.held, e.expired));
    CreateAndSend(Step(called, DoReconcile(e.oracle, e.transcript, e.reconciledAt, e.reconcileFails)), e)
  }

  class CacheHandoffService {
    const lineage: LineageStore
    const harness: Harness
    var admittedResult: Option<Result>
    /** Every result handed out so far. */
    ghost var returned: seq<Result>

    constructor (lineage: LineageStore, harness: Harness)
      ensures this.lineage == lineage && this.harness == harness && admittedResult == None && returned == []
    {
      this.lineage, this.harness, admittedResult, returned := lineage, harness, None, [];
    }

    ghost function View(): World
      reads this, lineage, harness
    {
      World(None, admittedResult, lineage.records, lineage.file, harness.natives, harness.landings, returned)
    }

    /** `restoreDurableAdmission`; `next` says whether the call goes on, and with which record. */
    method RestoreDurableAdmission(e: Env) returns (next: Option<Call>)
      requires admittedResult == None && !e.held && e.expired
      modifies this, lineage
      ensures var w := Step(Step(old(View()), DoCall(false, true)), DoReconcile(e.oracle, e.transcript, e.reconciledAt, e.reconcileFails));
        View() == w.(call := None) && next == w.call
      ensures next.None? || next.value.Creating? || next.value.Ready?
      ensures next.Some? ==> admittedResult == None
    {
      var newest := lineage.NewestRecord();
      if newest.None? { return Some(Creating); }
      var record := newest.value;
      if record.state == Prepared {
        var answer := Verdict(harness.natives, record, e.oracle, e.transcript);
        if answer == NotFound { return Some(Ready(record)); }
        if answer == Unknown { return None; }
        record := record.(state := if answer == TurnFailed then Failed else Pending, updatedAt := e.reconciledAt);
        var ok := lineage.Put(record, e.reconcileFails);
        if !ok { return None; }
      }
      admittedResult := Some(ResultOf(record));
      returned := returned + [ResultOf(record)];
      return None;
    }

    /** Creates the replacement and records the exact operation before anything is sent; the call ends when
        the record cannot be written. */
    method PrepareReplacement(e: Env) returns (prepared: Option<Record>)
      requires e.session !in harness.natives
      modifies lineage, harness
      ensures var w := CreateAndPrepare(old(View()).(call := Some(Creating)), e);
        && View() == w.(call := None)
        && w.call == if prepared.Some? then Some(Ready(prepared.value)) else None
      ensures prepared.Some? ==> lineage.file == lineage.records
    {
      harness.natives := harness.natives[e.session := Native([], false)];
      var record := Record(e.session, Prepared, e.operationId, e.prompt, e.preparedAt);
      var ok := lineage.Put(record, e.prepareFails);
      return if ok then Some(record) else None;
    }

    method MaybeRollover(e: Env)
      requires e.session !in harness.natives
      modifies this, lineage, harness
      ensures View() == UninterruptedCall(old(View()), e)
    {
      if e.held { return; }
      if admittedResult.Some? {
        returned := returned + [admittedResult.value];
        return;
      }
      if !e.expired { return; }
      var next := RestoreDurableAdmission(e);
      if next.Some? { GoOn(next.value, e); }
    }

    method GoOn(next: Call, e: Env)
      requires (next.Creating? || next.Ready?) && admittedResult == None && e.session !in harness.natives
      modifies this, lineage, harness
      ensures View() == CreateAndSend(old(View()).(call := Some(next)), e)
    {
      var record: Record;
      if next.Creating? {
        var prepared := PrepareReplacement(e);
        if prepared.None? { return; }
        record := prepared.value;
      } else {
        record := next.record;
      }
      if e.abandons { return; }
      var result := SendAndRecord(record, e);
    }

    /** From `sendMessage` to the end of the call. */
    method SendAndRecord(record: Record, e: Env) returns (result: Option<Result>)
      requires admittedResult == None && !e.abandons
      modifies this, lineage, harness
      ensures View() == Step(Step(old(View()).(call := Some(Ready(record))), DoSend(e.landed, e.reply)), DoRecord(e.sentAt, e.recordFails))
      ensures returned == old(returned) + (if result.Some? then [result.value] else [])
    {
      if e.landed { harness.Admit(record.session, record.prompt); }
      if !e.reply.ok && !(e.reply.admitted && e.reply.nonRetryable) { return None; }
      var final := record.(state := SentState(e.reply));
      if e.reply.admitted || e.reply.pending { admittedResult := Some(ResultOf(final)); }
      var ok := lineage.Put(final.(updatedAt := e.sentAt), e.recordFails);
      if !ok { return None; }
      returned := returned + [ResultOf(final)];
      return Some(ResultOf(final));
    }
  }
}
