/** The retrying caller of src/browser-wake.ts and its composition with the worker. */
module BrowserWake {
  // The two ledgers are durable; caller, worker and every message between them can be lost at any point.
  // Each ledger has one holder of its lock at a time, and a crash releases the lock.

  import opened Common
  import opened KeyedRows
  import opened BrowserWorker

  const MAX_ATTEMPTS: nat := 3

  datatype WakeStatus = Claimed | Completed | Failed

  datatype WakeRecord = WakeRecord(
    request: Request, status: WakeStatus, attempts: nat, requestedAt: int, updatedAt: int,
    receipt: Option<Receipt>, errorClass: Option<ErrorClass>)

  type WakeLedger = map<Id, WakeRecord>

  /** The schema the ledger's reader enforces; one record that fails it makes the whole file unreadable. */
  predicate Readable(r: WakeRecord) {
    && 1 <= r.attempts <= MAX_ATTEMPTS
    && (r.receipt.Some? ==> ValidReceipt(r.receipt.value))
    && match r.status
       case Claimed => r.receipt.None? && r.errorClass.None?
       case Completed => r.receipt.Some? && r.receipt.value.status == ReceiptCompleted && r.errorClass.None?
       case Failed => (r.receipt.Some? || r.errorClass.Some?) && (r.receipt.Some? ==> r.receipt.value.status == ReceiptFailed)
  }

  predicate Retryable(e: Option<ErrorClass>) {
    e == Some(WorkerUnavailable) || e == Some(WorkerTimeout) || e == Some(BrowserActionFailed)
  }

  predicate StaleClaim(r: WakeRecord, now: int) {
    now - r.updatedAt >= r.request.deadlineMs
  }

  datatype WakeStart = WakeConflict | Existing(record: WakeRecord) | Begin(attempts: nat)

  function Start(ledger: WakeLedger, q: Request, now: int): WakeStart {
    var id := q.idempotencyId;
    if id !in ledger then Begin(1)
    else
      var existing := ledger[id];
      if existing.request != q then WakeConflict
      else if existing.status == Completed || existing.attempts >= MAX_ATTEMPTS then Existing(existing)
      else if existing.status == Claimed && !StaleClaim(existing, now) then Existing(existing)
      else if existing.status == Failed && !Retryable(existing.errorClass) then Existing(existing)
      else Begin(existing.attempts + 1)
  }

  function ClaimRecord(q: Request, attempts: nat, now: int): WakeRecord {
    WakeRecord(q, Claimed, attempts, now, now, None, None)
  }

  function FinishedRecord(q: Request, attempts: nat, claimedAt: int, now: int, receipt: Receipt): WakeRecord {
    WakeRecord(q, if receipt.status == ReceiptCompleted then Completed else Failed, attempts, claimedAt, now, Some(receipt),
               if receipt.status == ReceiptFailed then receipt.errorClass else None)
  }

  function FailedRecord(q: Request, attempts: nat, claimedAt: int, now: int, receipt: Option<Receipt>, error: ErrorClass): WakeRecord {
    WakeRecord(q, Failed, attempts, claimedAt, now, receipt, Some(error))
  }

  /** The request that goes out when `remaining` of the caller's deadline is left. */
  function Shrunk(q: Request, remaining: int): Request {
    q.(deadlineMs := Max(1, Min(q.deadlineMs, remaining)))
  }

  // ---------------------------------------------------------------------------------------------
  // The composed protocol
  // ---------------------------------------------------------------------------------------------

  /** The caller inside its locked section. */
  datatype Call =
    | Ready(request: Request, attempts: nat, claimedAt: int)
    | Waiting(request: Request, attempts: nat, claimedAt: int, tag: nat)
    | Answered(request: Request, attempts: nat, claimedAt: int, receipt: Receipt)
    | Failing(request: Request, attempts: nat, claimedAt: int, got: Option<Receipt>, error: ErrorClass)

  datatype Message = Message(tag: nat, request: Request)

  datatype Reply = Reply(tag: nat, receipt: Receipt)

  /** The worker inside its locked section; `entered` says that `driver.execute` has been called. */
  datatype Job = Job(tag: nat, request: Request, acceptedAt: int, receiptRef: string, entered: bool)

  /** `sent[tag]` is the request of the call with that tag; the two maps count side effects per id. */
  datatype World = World(
    wakes: WakeLedger, call: Option<Call>,
    work: WorkLedger, job: Option<Job>,
    sent: seq<Request>, requests: set<Message>, replies: set<Reply>,
    dispatches: map<Id, nat>, executions: map<Id, nat>)

  datatype Action =
    | DoWake(request: Request, now: int)
    | DoDispatch(remaining: int)
    | DoReceive(reply: Reply)
    | DoNoAnswer(error: ErrorClass)
    | DoFinish(now: int, putFails: bool)
    | DoFail(now: int)
    | DoCallerCrash
    | DoAdmit(message: Message, now: int, receiptRef: string)
    | DoExecute
    | DoSettle(now: int, thrown: Option<ErrorClass>)
    | DoWorkerCrash
    | DoLose(message: Message)

  function Dispatch(w: World, c: Call, remaining: int): World
    requires c.Ready?
  {
    if remaining < 1 then w.(call := Some(Failing(c.request, c.attempts, c.claimedAt, None, WorkerTimeout)))
    else
      var id, q := c.request.idempotencyId, Shrunk(c.request, remaining);
      w.(call := Some(Waiting(c.request, c.attempts, c.claimedAt, |w.sent|)), sent := w.sent + [q],
         requests := w.requests + {Message(|w.sent|, q)}, dispatches := w.dispatches[id := Count(w.dispatches, id) + 1])
  }

  /** A receipt reaches the caller; one that answers another request is recorded as a mismatch. */
  function Receive(w: World, c: Call, r: Receipt): World
    requires c.Waiting?
  {
    if Answers(r, c.request) then w.(call := Some(Answered(c.request, c.attempts, c.claimedAt, r)))
    else w.(call := Some(Failing(c.request, c.attempts, c.claimedAt, Some(r), ReceiptMismatch)))
  }

  /** The final `put`; when it throws, the catch block goes on to record a failure. */
  function FinishCall(w: World, c: Call, now: int, putFails: bool): World
    requires c.Answered?
  {
    if putFails then w.(call := Some(Failing(c.request, c.attempts, c.claimedAt, Some(c.receipt), WorkerUnavailable)))
    else w.(call := None, wakes := w.wakes[c.request.idempotencyId := FinishedRecord(c.request, c.attempts, c.claimedAt, now, c.receipt)])
  }

  function AdmitMessage(w: World, m: Message, now: int, receiptRef: string): World {
    var (work, admission) := Admit(w.work, m.request, now, receiptRef);
    match admission
    case Conflict => w.(requests := w.requests - {m})
    case Replayed(r) => w.(requests := w.requests - {m}, work := work, replies := w.replies + {Reply(m.tag, r)})
    case Admitted => w.(requests := w.requests - {m}, work := work, job := Some(Job(m.tag, m.request, now, receiptRef, false)))
  }

  function SettleJob(w: World, j: Job, now: int, error: Option<ErrorClass>): World {
    var (work, r) := Settle(w.work, j.request, j.acceptedAt, j.receiptRef, now, error);
    w.(work := work, job := None, replies := w.replies + {Reply(j.tag, r)})
  }

  function Step(w: World, a: Action): World {
    match a
    case DoWake(q, now) =>
      if w.call.Some? then w
      else (match Start(w.wakes, q, now)
            case Begin(attempts) =>
              w.(wakes := w.wakes[q.idempotencyId := ClaimRecord(q, attempts, now)], call := Some(Ready(q, attempts, now)))
            case _ => w)
    case DoDispatch(remaining) =>
      if w.call.Some? && w.call.value.Ready? then Dispatch(w, w.call.value, remaining) else w
    case DoReceive(reply) =>
      if w.call.Some? && w.call.value.Waiting? && reply in w.replies && reply.tag == w.call.value.tag
      then Receive(w, w.call.value, reply.receipt) else w
    case DoNoAnswer(error) =>
      if w.call.Some? && w.call.value.Waiting? then
        var c := w.call.value;
        w.(call := Some(Failing(c.request, c.attempts, c.claimedAt, None, error)))
      else w
    case DoFinish(now, putFails) =>
      if w.call.Some? && w.call.value.Answered? then FinishCall(w, w.call.value, now, putFails) else w
    case DoFail(now) =>
      if w.call.Some? && w.call.value.Failing? then
        var c := w.call.value;
        w.(call := None,
           wakes := w.wakes[c.request.idempotencyId := FailedRecord(c.request, c.attempts, c.claimedAt, now, c.got, c.error)])
      else w
    case DoCallerCrash => w.(call := None)
    case DoAdmit(m, now, receiptRef) => if m in w.requests && w.job.None? then AdmitMessage(w, m, now, receiptRef) else w
    case DoExecute =>
      if w.job.Some? && !w.job.value.entered then
        var id := w.job.value.request.idempotencyId;
        w.(job := Some(w.job.value.(entered := true)), executions := w.executions[id := Count(w.executions, id) + 1])
      else w
    case DoSettle(now, thrown) =>
      if w.job.Some? && w.job.value.entered then SettleJob(w, w.job.value, now, thrown) else w
    case DoWorkerCrash => w.(job := None)
    case DoLose(m) => w.(requests := w.requests - {m})
  }

  function Run(actions: seq<Action>): World {
    if actions == [] then World(map[], None, map[], None, [], {}, {}, map[], map[])
    else Step(Run(actions[..|actions| - 1]), actions[|actions| - 1])
  }

  // ---------------------------------------------------------------------------------------------
  // Invariant of the worker's side
  // ---------------------------------------------------------------------------------------------

  predicate WorkFits(work: WorkLedger) {
    forall id :: id in work ==> WorkRecordFits(id, work[id])
  }

  predicate WorkRecordFits(id: Id, r: WorkRecord) {
    && r.request.idempotencyId == id
    && (r.WorkEnded? ==> ValidReceipt(r.receipt) && Answers(r.receipt, r.request))
  }

  predicate JobFits(work: WorkLedger, job: Option<Job>, sent: seq<Request>, executions: map<Id, nat>) {
    job.Some? ==>
      var j := job.value;
      && j.request.idempotencyId in work
      && work[j.request.idempotencyId] == WorkClaimed(j.request, j.acceptedAt, j.receiptRef)
      && j.tag < |sent| && sent[j.tag] == j.request
      && (!j.entered ==> Count(executions, j.request.idempotencyId) == 0)
  }

  /** The driver runs at most once for an id, and only for an id the ledger has claimed. */
  predicate ExecutionsFit(work: WorkLedger, executions: map<Id, nat>) {
    forall id :: id in executions ==> id in work && executions[id] <= 1
  }

  predicate MessagesFit(requests: set<Message>, sent: seq<Request>) {
    forall m :: m in requests ==> m.tag < |sent| && sent[m.tag] == m.request
  }

  /** A receipt stands in the worker's ledger for good. */
  predicate Recorded(r: Receipt, work: WorkLedger) {
    r.idempotencyId in work && work[r.idempotencyId].WorkEnded? && work[r.idempotencyId].receipt == r
  }

  predicate RepliesFit(replies: set<Reply>, sent: seq<Request>, work: WorkLedger) {
    forall p :: p in replies ==> p.tag < |sent| && Answers(p.receipt, sent[p.tag]) && Recorded(p.receipt, work)
  }

  // ---------------------------------------------------------------------------------------------
  // Invariant of the caller's side
  // ---------------------------------------------------------------------------------------------

  predicate WakeRecordFits(id: Id, r: WakeRecord, work: WorkLedger) {
    && r.request.idempotencyId == id
    && 1 <= r.attempts <= MAX_ATTEMPTS
    && (r.status == Completed ==> r.receipt.Some? && r.receipt.value.status == ReceiptCompleted
                                  && r.receipt.value.idempotencyId == id && Recorded(r.receipt.value, work))
  }

  predicate WakesFit(wakes: WakeLedger, work: WorkLedger) {
    forall id :: id in wakes ==> WakeRecordFits(id, wakes[id], work)
  }

  predicate CallFits(wakes: WakeLedger, call: Option<Call>, sent: seq<Request>, work: WorkLedger) {
    call.Some? ==>
      var c := call.value;
      && c.request.idempotencyId in wakes
      && wakes[c.request.idempotencyId] == ClaimRecord(c.request, c.attempts, c.claimedAt)
      && (c.Waiting? ==> c.tag < |sent| && sent[c.tag] == c.request.(deadlineMs := sent[c.tag].deadlineMs))
      && (c.Answered? ==> Answers(c.receipt, c.request) && Recorded(c.receipt, work))
  }

  /** Every dispatch used up an attempt, and the attempt about to be dispatched is still unused. */
  predicate DispatchesFit(wakes: WakeLedger, call: Option<Call>, dispatches: map<Id, nat>) {
    forall id :: id in dispatches ==>
      id in wakes && dispatches[id] <= wakes[id].attempts - (if ReadyFor(call, id) then 1 else 0)
  }

  predicate ReadyFor(call: Option<Call>, id: Id) {
    call.Some? && call.value.Ready? && call.value.request.idempotencyId == id
  }

  predicate WorkerInv(w: World) {
    && WorkFits(w.work)
    && JobFits(w.work, w.job, w.sent, w.executions)
    && ExecutionsFit(w.work, w.executions)
    && MessagesFit(w.requests, w.sent)
    && RepliesFit(w.replies, w.sent, w.work)
  }

  predicate CallerInv(w: World) {
    && WakesFit(w.wakes, w.work)
    && CallFits(w.wakes, w.call, w.sent, w.work)
    && DispatchesFit(w.wakes, w.call, w.dispatches)
  }

  predicate Inv(w: World) {
    WorkerInv(w) && CallerInv(w)
  }

  // ---------------------------------------------------------------------------------------------
  // Every step keeps the invariant
  // ---------------------------------------------------------------------------------------------

  /** A worker's ledger only moves forward: a claim keeps its identity and a terminal receipt never changes. */
  predicate Advances(old_: WorkLedger, new_: WorkLedger) {
    forall id :: id in old_ ==> id in new_ && RecordAdvances(old_[id], new_[id])
  }

  predicate RecordAdvances(a: WorkRecord, b: WorkRecord) {
    match a
    case WorkEnded(_, _) => b == a
    case WorkClaimed(q, acceptedAt, ref) =>
      b == a || (b.WorkEnded? && b.request == q && b.receipt.acceptedAt == acceptedAt && b.receipt.receiptRef == ref)
  }

  lemma AdmitAdvances(work: WorkLedger, q: Request, now: int, receiptRef: string)
    requires WorkFits(work)
    ensures Advances(work, Admit(work, q, now, receiptRef).0) && WorkFits(Admit(work, q, now, receiptRef).0)
    ensures var (work', admission) := Admit(work, q, now, receiptRef);
      && (admission.Replayed? ==> Answers(admission.receipt, q) && Recorded(admission.receipt, work'))
      && (admission.Admitted? ==> q.idempotencyId !in work && work'[q.idempotencyId] == WorkClaimed(q, now, receiptRef))
  {
    if q.idempotencyId in work { assert WorkRecordFits(q.idempotencyId, work[q.idempotencyId]); }
  }

  lemma SettleAdvances(work: WorkLedger, j: Job, now: int, error: Option<ErrorClass>)
    requires WorkFits(work) && j.request.idempotencyId in work
    requires work[j.request.idempotencyId] == WorkClaimed(j.request, j.acceptedAt, j.receiptRef)
    ensures var (work', r) := Settle(work, j.request, j.acceptedAt, j.receiptRef, now, error);
      Advances(work, work') && WorkFits(work') && Answers(r, j.request) && Recorded(r, work')
  {
  }

  lemma AdmitLeavesWork(w: World, m: Message, now: int, receiptRef: string)
    ensures AdmitMessage(w, m, now, receiptRef).work == Admit(w.work, m.request, now, receiptRef).0
  {
  }

  lemma OthersLeaveWork(w: World, a: Action)
    requires !a.DoAdmit? && !a.DoSettle?
    ensures Step(w, a).work == w.work
  {
  }

  lemma StepAdvances(w: World, a: Action)
    requires WorkerInv(w)
    ensures Advances(w.work, Step(w, a).work)
  {
    match a
    case DoAdmit(m, now, receiptRef) =>
      AdmitAdvances(w.work, m.request, now, receiptRef);
      AdmitLeavesWork(w, m, now, receiptRef);
    case DoSettle(now, thrown) => if w.job.Some? { SettleAdvances(w.work, w.job.value, now, thrown); }
    case _ => OthersLeaveWork(w, a);
  }

  lemma RecordedAdvances(r: Receipt, old_: WorkLedger, new_: WorkLedger)
    requires Recorded(r, old_) && Advances(old_, new_)
    ensures Recorded(r, new_)
  {
    assert RecordAdvances(old_[r.idempotencyId], new_[r.idempotencyId]);
  }

  lemma AdvancesKeepsCaller(w: World, work: WorkLedger)
    requires CallerInv(w) && Advances(w.work, work)
    ensures CallerInv(w.(work := work))
  {
    forall id | id in w.wakes ensures WakeRecordFits(id, w.wakes[id], work) {
      assert WakeRecordFits(id, w.wakes[id], w.work);
      if w.wakes[id].status == Completed { RecordedAdvances(w.wakes[id].receipt.value, w.work, work); }
    }
    if w.call.Some? && w.call.value.Answered? { RecordedAdvances(w.call.value.receipt, w.work, work); }
  }

  lemma RepliesAdvance(replies: set<Reply>, sent: seq<Request>, old_: WorkLedger, new_: WorkLedger)
    requires RepliesFit(replies, sent, old_) && Advances(old_, new_)
    ensures RepliesFit(replies, sent, new_)
  {
    forall p | p in replies ensures Recorded(p.receipt, new_) { RecordedAdvances(p.receipt, old_, new_); }
  }

  lemma AdmitKeepsWorker(w: World, m: Message, now: int, receiptRef: string)
    requires WorkerInv(w) && m in w.requests && w.job.None?
    ensures WorkerInv(AdmitMessage(w, m, now, receiptRef))
  {
    var work' := Admit(w.work, m.request, now, receiptRef).0;
    AdmitAdvances(w.work, m.request, now, receiptRef);
    RepliesAdvance(w.replies, w.sent, w.work, work');
  }

  lemma SettleKeepsWorker(w: World, j: Job, now: int, error: Option<ErrorClass>)
    requires WorkerInv(w) && w.job == Some(j) && j.entered
    ensures WorkerInv(SettleJob(w, j, now, error))
  {
    SettleAdvances(w.work, j, now, error);
    RepliesAdvance(w.replies, w.sent, w.work, SettleJob(w, j, now, error).work);
  }

  lemma ExecuteKeepsWorker(w: World)
    requires WorkerInv(w)
    ensures WorkerInv(Step(w, DoExecute))
  {
  }

  lemma WorkerStepKeepsWorker(w: World, a: Action)
    requires WorkerInv(w) && (a.DoAdmit? || a.DoExecute? || a.DoSettle? || a.DoWorkerCrash? || a.DoLose?)
    ensures WorkerInv(Step(w, a))
  {
    match a
    case DoAdmit(m, now, receiptRef) => if m in w.requests && w.job.None? { AdmitKeepsWorker(w, m, now, receiptRef); }
    case DoExecute => ExecuteKeepsWorker(w);
    case DoSettle(now, thrown) =>
      if w.job.Some? && w.job.value.entered { SettleKeepsWorker(w, w.job.value, now, thrown); }
    case DoWorkerCrash =>
    case DoLose(m) =>
  }

  /** The worker's steps touch nothing of the caller's side but the ledger both look at. */
  lemma WorkerStepFrame(w: World, a: Action)
    requires a.DoAdmit? || a.DoExecute? || a.DoSettle? || a.DoWorkerCrash? || a.DoLose?
    ensures var w' := Step(w, a);
      w'.wakes == w.wakes && w'.call == w.call && w'.sent == w.sent && w'.dispatches == w.dispatches
  {
  }

  lemma WorkerStepKeepsInv(w: World, a: Action)
    requires Inv(w) && (a.DoAdmit? || a.DoExecute? || a.DoSettle? || a.DoWorkerCrash? || a.DoLose?)
    ensures Inv(Step(w, a))
  {
    var w' := Step(w, a);
    StepAdvances(w, a);
    AdvancesKeepsCaller(w, w'.work);
    WorkerStepKeepsWorker(w, a);
    WorkerStepFrame(w, a);
  }

  /** A new attempt starts from no record, or from a claim or failure with an attempt to spare. */
  lemma WakeKeepsCaller(w: World, q: Request, now: int)
    requires CallerInv(w) && w.call.None?
    ensures CallerInv(Step(w, DoWake(q, now)))
  {
    if q.idempotencyId in w.wakes { assert WakeRecordFits(q.idempotencyId, w.wakes[q.idempotencyId], w.work); }
  }

  lemma DispatchKeepsInv(w: World, c: Call, remaining: int)
    requires Inv(w) && w.call == Some(c) && c.Ready?
    ensures Inv(Dispatch(w, c, remaining))
  {
    DispatchKeepsWorker(w, c, remaining);
    assert WakeRecordFits(c.request.idempotencyId, w.wakes[c.request.idempotencyId], w.work);
  }

  lemma DispatchKeepsWorker(w: World, c: Call, remaining: int)
    requires WorkerInv(w) && c.Ready?
    ensures WorkerInv(Dispatch(w, c, remaining))
  {
    var w' := Dispatch(w, c, remaining);
    forall tag | 0 <= tag < |w.sent| ensures w'.sent[tag] == w.sent[tag] {}
  }

  lemma FinishKeepsCaller(w: World, c: Call, now: int)
    requires CallerInv(w) && w.call == Some(c) && c.Answered?
    ensures CallerInv(FinishCall(w, c, now, false))
  {
    assert WakeRecordFits(c.request.idempotencyId, w.wakes[c.request.idempotencyId], w.work);
  }

  lemma FailKeepsCaller(w: World, c: Call, now: int)
    requires CallerInv(w) && w.call == Some(c) && c.Failing?
    ensures CallerInv(Step(w, DoFail(now)))
  {
    assert WakeRecordFits(c.request.idempotencyId, w.wakes[c.request.idempotencyId], w.work);
  }

  lemma StepKeepsInv(w: World, a: Action)
    requires Inv(w)
    ensures Inv(Step(w, a))
  {
    match a
    case DoWake(q, now) => if w.call.None? { WakeKeepsCaller(w, q, now); }
    case DoDispatch(remaining) => if w.call.Some? && w.call.value.Ready? { DispatchKeepsInv(w, w.call.value, remaining); }
    case DoFinish(now, putFails) =>
      if w.call.Some? && w.call.value.Answered? && !putFails { FinishKeepsCaller(w, w.call.value, now); }
    case DoFail(now) => if w.call.Some? && w.call.value.Failing? { FailKeepsCaller(w, w.call.value, now); }
    case DoReceive(_) =>
    case DoNoAnswer(_) =>
    case DoCallerCrash =>
    case _ => WorkerStepKeepsInv(w, a);
  }

  lemma {:induction false} RunKeepsInv(actions: seq<Action>)
    ensures Inv(Run(actions))
  {
    if actions != [] {
      RunKeepsInv(actions[..|actions| - 1]);
      StepKeepsInv(Run(actions[..|actions| - 1]), actions[|actions| - 1]);
    }
  }

  // ---------------------------------------------------------------------------------------------
  // What holds of every run
  // ---------------------------------------------------------------------------------------------

  /** Whatever is lost, repeated or crashed, the browser acts at most once and the worker is asked at most three times. */
  lemma SideEffectsAreBounded(actions: seq<Action>, id: Id)
    ensures Count(Run(actions).executions, id) <= 1
    ensures Count(Run(actions).dispatches, id) <= MAX_ATTEMPTS
  {
    RunKeepsInv(actions);
    var w := Run(actions);
    if id in w.dispatches { assert WakeRecordFits(id, w.wakes[id], w.work); }
  }

  lemma AdvancesTransitively(a: WorkLedger, b: WorkLedger, c: WorkLedger)
    requires Advances(a, b) && Advances(b, c)
    ensures Advances(a, c)
  {
    forall id | id in a ensures id in c && RecordAdvances(a[id], c[id]) {
      assert RecordAdvances(a[id], b[id]) && RecordAdvances(b[id], c[id]);
    }
  }

  /** From any point of a run on, a claim keeps its receiptRef and acceptedAt, and a terminal receipt is final. */
  lemma {:induction false} WorkerReceiptIsFinal(actions: seq<Action>, k: nat)
    requires k <= |actions|
    ensures Advances(Run(actions[..k]).work, Run(actions).work)
  {
    if k == |actions| {
      assert actions[..k] == actions;
    } else {
      var init := actions[..|actions| - 1];
      PrefixOfPrefix(actions, |actions| - 1, k);
      WorkerReceiptIsFinal(init, k);
      RunKeepsInv(init);
      StepAdvances(Run(init), actions[|actions| - 1]);
      AdvancesTransitively(Run(actions[..k]).work, Run(init).work, Run(actions).work);
    }
  }

  /** A completed wake record proves that the worker completed it, with the identical receipt. */
  lemma CompletedMeansCompleted(actions: seq<Action>, id: Id)
    requires id in Run(actions).wakes && Run(actions).wakes[id].status == Completed
    ensures var w := Run(actions);
      && w.wakes[id].receipt.Some? && id in w.work && w.work[id].WorkEnded?
      && w.wakes[id].receipt.value == w.work[id].receipt && w.work[id].receipt.status == ReceiptCompleted
  {
    RunKeepsInv(actions);
    assert WakeRecordFits(id, Run(actions).wakes[id], Run(actions).work);
  }

  // ---------------------------------------------------------------------------------------------
  // The reader's schema
  // ---------------------------------------------------------------------------------------------

  predicate AllReadable(wakes: WakeLedger) {
    forall id :: id in wakes ==> Readable(wakes[id])
  }

  /** A failure about to be recorded carries no completed receipt. */
  predicate HonestFailure(call: Option<Call>, work: WorkLedger) {
    call.Some? && call.value.Failing? && call.value.got.Some? ==>
      call.value.got.value.status == ReceiptFailed && ValidReceipt(call.value.got.value)
  }

  /** No final `put` of a completed receipt throws. */
  predicate PutsSucceed(actions: seq<Action>) {
    forall i :: 0 <= i < |actions| && actions[i].DoFinish? ==> !actions[i].putFails
  }

  lemma FinishKeepsReadable(w: World, c: Call, now: int)
    requires Inv(w) && AllReadable(w.wakes) && w.call == Some(c) && c.Answered?
    ensures AllReadable(FinishCall(w, c, now, false).wakes)
  {
    var id := c.request.idempotencyId;
    assert WakeRecordFits(id, w.wakes[id], w.work) && WorkRecordFits(id, w.work[id]);
  }

  lemma FailKeepsReadable(w: World, c: Call, now: int)
    requires Inv(w) && AllReadable(w.wakes) && HonestFailure(w.call, w.work) && w.call == Some(c) && c.Failing?
    ensures AllReadable(Step(w, DoFail(now)).wakes)
  {
    var id := c.request.idempotencyId;
    assert WakeRecordFits(id, w.wakes[id], w.work);
  }

  /** An answer to the call is its own, so no mismatch is recorded. */
  lemma ReceiveIsAnswer(w: World, c: Call, reply: Reply)
    requires Inv(w) && w.call == Some(c) && c.Waiting? && reply in w.replies && reply.tag == c.tag
    ensures Receive(w, c, reply.receipt) == w.(call := Some(Answered(c.request, c.attempts, c.claimedAt, reply.receipt)))
  {
    assert Answers(reply.receipt, c.request);
  }

  lemma SilentStepFrame(w: World, a: Action, c: Call)
    requires w.call == Some(c) && (a.DoDispatch? || a.DoNoAnswer?)
    ensures Step(w, a).wakes == w.wakes
    ensures HonestFailure(w.call, w.work) ==> HonestFailure(Step(w, a).call, Step(w, a).work)
  {
  }

  lemma CallStepKeepsReadable(w: World, a: Action, c: Call)
    requires Inv(w) && AllReadable(w.wakes) && HonestFailure(w.call, w.work) && w.call == Some(c)
    requires a.DoDispatch? || a.DoReceive? || a.DoNoAnswer? || a.DoFinish? || a.DoFail?
    requires a.DoFinish? ==> !a.putFails
    ensures AllReadable(Step(w, a).wakes) && HonestFailure(Step(w, a).call, Step(w, a).work)
  {
    match a
    case DoReceive(reply) => if reply in w.replies && c.Waiting? && reply.tag == c.tag { ReceiveIsAnswer(w, c, reply); }
    case DoFinish(now, _) => if c.Answered? { FinishKeepsReadable(w, c, now); }
    case DoFail(now) => if c.Failing? { FailKeepsReadable(w, c, now); }
    case _ => SilentStepFrame(w, a, c);
  }

  lemma StepKeepsReadable(w: World, a: Action)
    requires Inv(w) && AllReadable(w.wakes) && HonestFailure(w.call, w.work)
    requires a.DoFinish? ==> !a.putFails
    ensures AllReadable(Step(w, a).wakes) && HonestFailure(Step(w, a).call, Step(w, a).work)
  {
    match a
    case DoWake(q, now) =>
      if q.idempotencyId in w.wakes { assert WakeRecordFits(q.idempotencyId, w.wakes[q.idempotencyId], w.work); }
    case DoCallerCrash =>
    case DoAdmit(_, _, _) => WorkerStepFrame(w, a);
    case DoExecute => WorkerStepFrame(w, a);
    case DoSettle(_, _) => WorkerStepFrame(w, a);
    case DoWorkerCrash => WorkerStepFrame(w, a);
    case DoLose(_) => WorkerStepFrame(w, a);
    case _ => if w.call.Some? { CallStepKeepsReadable(w, a, w.call.value); }
  }

  /** With the real worker as client, and no failing final `put`, every record ever written can be read back. */
  lemma {:induction false} EveryRecordIsReadable(actions: seq<Action>)
    requires PutsSucceed(actions)
    ensures AllReadable(Run(actions).wakes) && HonestFailure(Run(actions).call, Run(actions).work)
  {
    if actions != [] {
      var init := actions[..|actions| - 1];
      EveryRecordIsReadable(init);
      RunKeepsInv(init);
      StepKeepsReadable(Run(init), actions[|actions| - 1]);
    }
  }

  /** When the final `put` throws, what the catch block records is readable exactly if the receipt was a failure. */
  lemma FailedPutIsReadableIff(actions: seq<Action>, now: int, later: int)
    requires Run(actions).call.Some? && Run(actions).call.value.Answered?
    ensures var w := Run(actions);
      var id := w.call.value.request.idempotencyId;
      var w' := Step(Step(w, DoFinish(now, true)), DoFail(later));
      id in w'.wakes && (Readable(w'.wakes[id]) <==> w.call.value.receipt.status == ReceiptFailed)
  {
    RunKeepsInv(actions);
    var w := Run(actions);
    var id := w.call.value.request.idempotencyId;
    assert WakeRecordFits(id, w.wakes[id], w.work) && WorkRecordFits(id, w.work[id]);
  }

  // ---------------------------------------------------------------------------------------------
  // Retries
  // ---------------------------------------------------------------------------------------------

  /** A retry of a finished request meets the old receipt exactly when it goes out with the same remaining
      deadline as the first dispatch; otherwise the worker reports a conflict. */
  lemma RetryMeetsReceiptIff(actions: seq<Action>, q: Request, first: int, second: int, now: int, ref: string)
    requires q.idempotencyId in Run(actions).work && Run(actions).work[q.idempotencyId].WorkEnded?
    requires Run(actions).work[q.idempotencyId].request == Shrunk(q, first)
    ensures var work := Run(actions).work;
      && Admit(work, Shrunk(q, second), now, ref).0 == work
      && Admit(work, Shrunk(q, second), now, ref).1 ==
           if Shrunk(q, first).deadlineMs == Shrunk(q, second).deadlineMs
           then Replayed(work[q.idempotencyId].receipt) else Conflict
  {
    assert Shrunk(q, second) == q.(deadlineMs := Shrunk(q, second).deadlineMs);
  }

  lemma RunSnoc(actions: seq<Action>, a: Action)
    ensures Run(actions + [a]) == Step(Run(actions), a)
  {
    assert (actions + [a])[..|actions|] == actions;
  }

  /** The worker answers the retry: a replayed receipt is finished, and a conflict reaches the caller as a rejection. */
  function RetryAnswered(w: World, c: Call, m: Message, now: int, ref: string): World
    requires c.Waiting?
  {
    var admitted := Step(w, DoAdmit(m, now, ref));
    match Admit(w.work, m.request, now, ref).1
    case Replayed(r) => Step(Step(admitted, DoReceive(Reply(c.tag, r))), DoFinish(now, false))
    case _ => Step(Step(admitted, DoNoAnswer(WorkerRejected)), DoFail(now))
  }

  lemma ReplayedRetryFinishes(w: World, c: Call, m: Message, r: Receipt, now: int, ref: string)
    requires w.call == Some(c) && c.Waiting? && w.job.None? && m.tag == c.tag && m in w.requests
    requires Admit(w.work, m.request, now, ref) == (w.work, Replayed(r)) && Answers(r, c.request)
    ensures var w' := RetryAnswered(w, c, m, now, ref);
      w'.work == w.work && w'.wakes == w.wakes[c.request.idempotencyId := FinishedRecord(c.request, c.attempts, c.claimedAt, now, r)]
  {
    var admitted := Step(w, DoAdmit(m, now, ref));
    assert Reply(c.tag, r) in admitted.replies && admitted.call == Some(c);
  }

  lemma RefusedRetryFails(w: World, c: Call, m: Message, now: int, ref: string)
    requires w.call == Some(c) && c.Waiting? && w.job.None? && m in w.requests
    requires Admit(w.work, m.request, now, ref) == (w.work, Conflict)
    ensures var w' := RetryAnswered(w, c, m, now, ref);
      && w'.work == w.work
      && w'.wakes == w.wakes[c.request.idempotencyId := FailedRecord(c.request, c.attempts, c.claimedAt, now, None, WorkerRejected)]
  {
    var admitted := Step(w, DoAdmit(m, now, ref));
    assert admitted.call == Some(c);
  }

  /** What that means for the caller.  A retry of a request that the worker has completed ends completed exactly
      when its remaining deadline is that of the first dispatch.  Otherwise the wake is failed for good: no later
      call with the request tries again. */
  lemma RetryEndsCompletedIff(actions: seq<Action>, c: Call, m: Message, first: int, second: int, now: int, ref: string)
    requires Run(actions).call == Some(c) && c.Waiting? && Run(actions).job.None?
    requires m == Message(c.tag, Shrunk(c.request, second)) && m in Run(actions).requests
    requires c.request.idempotencyId in Run(actions).work && Run(actions).work[c.request.idempotencyId].WorkEnded?
    requires Run(actions).work[c.request.idempotencyId].request == Shrunk(c.request, first)
    requires Run(actions).work[c.request.idempotencyId].receipt.status == ReceiptCompleted
    ensures var w, id := RetryAnswered(Run(actions), c, m, now, ref), c.request.idempotencyId;
      && id in w.wakes && w.work == Run(actions).work
      && (w.wakes[id].status == Completed <==> Shrunk(c.request, first).deadlineMs == Shrunk(c.request, second).deadlineMs)
      && (w.wakes[id].status != Completed ==>
            w.wakes[id].status == Failed && w.wakes[id].errorClass == Some(WorkerRejected)
            && forall later :: Start(w.wakes, c.request, later) == Existing(w.wakes[id]))
  {
    RunKeepsInv(actions);
    var w, id := Run(actions), c.request.idempotencyId;
    assert WorkRecordFits(id, w.work[id]);
    RetryMeetsReceiptIff(actions, c.request, first, second, now, ref);
    if Shrunk(c.request, first).deadlineMs == Shrunk(c.request, second).deadlineMs {
      ReplayedRetryFinishes(w, c, m, w.work[id].receipt, now, ref);
    } else {
      RefusedRetryFails(w, c, m, now, ref);
    }
  }

  lemma ClaimStep(w: World, q: Request, now: int)
    requires w.call.None? && q.idempotencyId !in w.wakes
    ensures Step(w, DoWake(q, now)) == w.(wakes := w.wakes[q.idempotencyId := ClaimRecord(q, 1, now)], call := Some(Ready(q, 1, now)))
  {
  }

  lemma DispatchStep(w: World, q: Request, attempts: nat, at: int)
    requires w.call == Some(Ready(q, attempts, at)) && q.deadlineMs >= 1
    ensures var w' := Step(w, DoDispatch(q.deadlineMs));
      && w'.call == Some(Waiting(q, attempts, at, |w.sent|)) && w'.sent == w.sent + [q]
      && w'.requests == w.requests + {Message(|w.sent|, q)} && w'.job == w.job && w'.work == w.work
  {
    assert Shrunk(q, q.deadlineMs) == q;
  }

  /** Claim and dispatch of a first request. */
  lemma FirstDispatch(q: Request) returns (actions: seq<Action>)
    requires q.deadlineMs >= 1
    ensures var w := Run(actions);
      && w.call == Some(Waiting(q, 1, 0, 0)) && w.sent == [q] && w.requests == {Message(0, q)}
      && w.job.None? && w.work == map[]
  {
    var claimed: seq<Action> := [] + [DoWake(q, 0)];
    RunSnoc([], DoWake(q, 0));
    ClaimStep(Run([]), q, 0);
    DispatchStep(Run(claimed), q, 1, 0);
    RunSnoc(claimed, DoDispatch(q.deadlineMs));
    actions := claimed + [DoDispatch(q.deadlineMs)];
  }

  /** Its admission and execution. */
  lemma FirstExecution(q: Request) returns (actions: seq<Action>)
    requires q.deadlineMs >= 1
    ensures var w := Run(actions);
      && w.call == Some(Waiting(q, 1, 0, 0)) && w.job == Some(Job(0, q, 0, "ref", true)) && |w.sent| == 1
  {
    var dispatched := FirstDispatch(q);
    var m := Message(0, q);
    RunSnoc(dispatched, DoAdmit(m, 0, "ref"));
    var admitted := dispatched + [DoAdmit(m, 0, "ref")];
    RunSnoc(admitted, DoExecute);
    actions := admitted + [DoExecute];
  }

  /** The worker completes the request, and the answer is lost. */
  lemma LostAnswer(q: Request) returns (actions: seq<Action>)
    requires q.deadlineMs >= 2
    ensures var w := Run(actions);
      && w.call.None? && w.job.None? && |w.sent| == 1 && q.idempotencyId in w.work
      && w.work[q.idempotencyId] == WorkEnded(q, ReceiptForClaim(q, 0, "ref", 0, None))
      && q.idempotencyId in w.wakes && w.wakes[q.idempotencyId] == FailedRecord(q, 1, 0, 0, None, WorkerTimeout)
  {
    var executed := FirstExecution(q);
    var settled := executed + [DoSettle(0, None)];
    RunSnoc(executed, DoSettle(0, None));
    var w := Run(settled);
    assert w.call == Some(Waiting(q, 1, 0, 0)) && w.job.None? && |w.sent| == 1;
    var lost := settled + [DoNoAnswer(WorkerTimeout)];
    RunSnoc(settled, DoNoAnswer(WorkerTimeout));
    actions := lost + [DoFail(0)];
    RunSnoc(lost, DoFail(0));
  }

  /** A retry with less time left than the first dispatch had. */
  lemma LateRetry(q: Request) returns (actions: seq<Action>)
    requires q.deadlineMs >= 2
    ensures var w := Run(actions);
      && w.call == Some(Waiting(q, 2, 1, 1)) && w.job.None? && Message(1, Shrunk(q, q.deadlineMs - 1)) in w.requests
      && q.idempotencyId in w.work && w.work[q.idempotencyId] == WorkEnded(q, ReceiptForClaim(q, 0, "ref", 0, None))
  {
    var lost := LostAnswer(q);
    var claimed := lost + [DoWake(q, 1)];
    RunSnoc(lost, DoWake(q, 1));
    assert Run(claimed).call == Some(Ready(q, 2, 1));
    actions := claimed + [DoDispatch(q.deadlineMs - 1)];
    RunSnoc(claimed, DoDispatch(q.deadlineMs - 1));
  }

  /** So a wake can stay failed although the browser has acted and the worker has completed it. */
  lemma CompletedWorkCanStayFailed(q: Request) returns (actions: seq<Action>)
    requires q.deadlineMs >= 2
    ensures var w, id := Run(actions), q.idempotencyId;
      && id in w.work && w.work[id].WorkEnded? && w.work[id].receipt.status == ReceiptCompleted
      && id in w.wakes && w.wakes[id].status == Failed
      && forall later :: Start(w.wakes, q, later) == Existing(w.wakes[id])
  {
    var retried := LateRetry(q);
    var c, m := Waiting(q, 2, 1, 1), Message(1, Shrunk(q, q.deadlineMs - 1));
    assert Shrunk(q, q.deadlineMs) == q;
    RetryEndsCompletedIff(retried, c, m, q.deadlineMs, q.deadlineMs - 1, 2, "ref");
    RetryMeetsReceiptIff(retried, q, q.deadlineMs, q.deadlineMs - 1, 2, "ref");
    var a1, a2, a3 := DoAdmit(m, 2, "ref"), DoNoAnswer(WorkerRejected), DoFail(2);
    RunSnoc(retried, a1);
    RunSnoc(retried + [a1], a2);
    RunSnoc(retried + [a1] + [a2], a3);
    actions := retried + [a1] + [a2] + [a3];
  }

  /** Such a record is reachable: claim, dispatch, complete, then one throwing `put`. */
  lemma UnreadableRecordIsReachable(q: Request) returns (actions: seq<Action>)
    requires q.deadlineMs >= 1
    ensures !AllReadable(Run(actions).wakes)
  {
    var r := ReceiptForClaim(q, 0, "ref", 0, None);
    var executed := FirstExecution(q);
    var settled := executed + [DoSettle(0, None)];
    RunSnoc(executed, DoSettle(0, None));
    assert Reply(0, r) in Run(settled).replies && Run(settled).call == Run(executed).call;
    var received := settled + [DoReceive(Reply(0, r))];
    RunSnoc(settled, DoReceive(Reply(0, r)));
    assert Run(received).call == Some(Answered(q, 1, 0, r));
    FailedPutIsReadableIff(received, 0, 0);
    RunSnoc(received, DoFinish(0, true));
    RunSnoc(received + [DoFinish(0, true)], DoFail(0));
    actions := received + [DoFinish(0, true)] + [DoFail(0)];
  }

  // ---------------------------------------------------------------------------------------------
  // The service as an object
  // ---------------------------------------------------------------------------------------------

  function WakeId(r: WakeRecord): Id { r.request.idempotencyId }

  /** What the locked section meets after it wrote its claim. */
  datatype Answer = Expired | Receipted(receipt: Receipt) | Unanswered(error: ErrorClass) | Stopped

  /** The record the ledger holds when the section is left, if it was entered with `attempts`. */
  function RecordAfter(q: Request, attempts: nat, now: int, answer: Answer, later: int, putFails: bool): WakeRecord {
    match answer
    case Stopped => ClaimRecord(q, attempts, now)
    case Expired => FailedRecord(q, attempts, now, later, None, WorkerTimeout)
    case Unanswered(error) => FailedRecord(q, attempts, now, later, None, error)
    case Receipted(r) =>
      if !Answers(r, q) then FailedRecord(q, attempts, now, later, Some(r), ReceiptMismatch)
      else if putFails then FailedRecord(q, attempts, now, later, Some(r), WorkerUnavailable)
      else FinishedRecord(q, attempts, now, later, r)
  }

  class BrowserWakeService {
    const ledger: RecordLedger<WakeRecord>

    constructor (ledger: RecordLedger<WakeRecord>)
      ensures this.ledger == ledger
    {
      this.ledger := ledger;
    }

    /** The checks on an existing record. */
    method Begin(q: Request, now: int) returns (start: WakeStart)
      requires ledger.Valid() && ledger.key == WakeId
      ensures start == Start(ledger.View(), q, now)
    {
      var existing := ledger.Get(q.idempotencyId);
      if existing.None? { return WakeStart.Begin(1); }
      var r := existing.value;
      if r.request != q { return WakeConflict; }
      if r.status == Completed || r.attempts >= MAX_ATTEMPTS { return Existing(r); }
      if r.status == Claimed && !StaleClaim(r, now) { return Existing(r); }
      if r.status == Failed && !Retryable(r.errorClass) { return Existing(r); }
      return WakeStart.Begin(r.attempts + 1);
    }

    /** The claim, the dispatch and the record of its answer. */
    method Attempt(q: Request, attempts: nat, now: int, answer: Answer, later: int, putFails: bool) returns (result: Option<WakeRecord>)
      requires ledger.Valid() && ledger.key == WakeId
      modifies ledger
      ensures ledger.Valid()
      ensures var record := RecordAfter(q, attempts, now, answer, later, putFails);
        && ledger.View() == old(ledger.View())[q.idempotencyId := record]
        && result == (if answer.Receipted? && Answers(answer.receipt, q) && !putFails then Some(record) else None)
    {
      ledger.Put(ClaimRecord(q, attempts, now));
      if answer.Stopped? { return None; }
      var final := FailedRecord(q, attempts, now, later, None, WorkerTimeout);
      if answer.Unanswered? { final := final.(errorClass := Some(answer.error)); }
      result := None;
      if answer.Receipted? {
        if !Answers(answer.receipt, q) {
          final := FailedRecord(q, attempts, now, later, Some(answer.receipt), ReceiptMismatch);
        } else if putFails {
          final := FailedRecord(q, attempts, now, later, Some(answer.receipt), WorkerUnavailable);
        } else {
          final := FinishedRecord(q, attempts, now, later, answer.receipt);
          result := Some(final);
        }
      }
      ledger.Put(final);
    }

    /** `result` is the record `wake` returns; None when it throws. */
    method Wake(q: Request, now: int, hasClient: bool, answer: Answer, later: int, putFails: bool) returns (result: Option<WakeRecord>)
      requires ledger.Valid() && ledger.key == WakeId
      modifies ledger
      ensures ledger.Valid()
      ensures match Start(old(ledger.View()), q, now)
        case WakeConflict => result == None && ledger.View() == old(ledger.View())
        case Existing(r) => result == Some(r) && ledger.View() == old(ledger.View())
        case Begin(attempts) =>
          if !hasClient then result == None && ledger.View() == old(ledger.View())
          else
            var record := RecordAfter(q, attempts, now, answer, later, putFails);
            && ledger.View() == old(ledger.View())[q.idempotencyId := record]
            && result == (if answer.Receipted? && Answers(answer.receipt, q) && !putFails then Some(record) else None)
    {
      var start := Begin(q, now);
      match start {
        case WakeConflict => return None;
        case Existing(r) => return Some(r);
        case Begin(attempts) =>
          if !hasClient { return None; }
          result := Attempt(q, attempts, now, answer, later, putFails);
      }
    }
  }
}
