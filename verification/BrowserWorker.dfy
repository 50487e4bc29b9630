/** The request, the receipt and the at-most-once worker of src/browser-worker.ts and src/browserclaw-worker.ts. */
module BrowserWorker {
  import opened Common
  import opened KeyedRows

  type Id = string

  /** The `schema`, `worker` and `target` fields are literals, so they carry no information. */
  datatype Request = Request(templateId: string, sourceRefs: seq<string>, runId: string, idempotencyId: Id, deadlineMs: int)

  datatype ErrorClass =
    | WorkerUnavailable | WorkerTimeout | WorkerRejected | SessionNotFound | BrowserActionFailed
    | InvalidReceipt | ReceiptMismatch

  datatype ReceiptStatus = ReceiptCompleted | ReceiptFailed

  datatype Receipt = Receipt(
    templateId: string, runId: string, idempotencyId: Id, receiptRef: string, status: ReceiptStatus,
    acceptedAt: int, completedAt: Option<int>, failedAt: Option<int>, errorClass: Option<ErrorClass>)

  /** The refinements of the receipt schema. */
  predicate ValidReceipt(r: Receipt) {
    match r.status
    case ReceiptCompleted => r.completedAt.Some? && r.failedAt.None? && r.errorClass.None?
    case ReceiptFailed => r.failedAt.Some? && r.errorClass.Some? && r.completedAt.None?
  }

  /** The receipt answers the request, as `wake` compares them. */
  predicate Answers(r: Receipt, q: Request) {
    r.templateId == q.templateId && r.runId == q.runId && r.idempotencyId == q.idempotencyId
  }

  datatype WorkRecord =
    | WorkClaimed(request: Request, acceptedAt: int, receiptRef: string)
    | WorkEnded(request: Request, receipt: Receipt)

  type WorkLedger = map<Id, WorkRecord>

  function ReceiptForClaim(q: Request, acceptedAt: int, receiptRef: string, now: int, error: Option<ErrorClass>): Receipt {
    match error
    case Some(_) => Receipt(q.templateId, q.runId, q.idempotencyId, receiptRef, ReceiptFailed, acceptedAt, None, Some(now), error)
    case None => Receipt(q.templateId, q.runId, q.idempotencyId, receiptRef, ReceiptCompleted, acceptedAt, Some(now), None, None)
  }

  /** What the locked part of `dispatch` does before the driver runs. */
  datatype Admission = Conflict | Replayed(receipt: Receipt) | Admitted

  function Admit(ledger: WorkLedger, q: Request, now: int, receiptRef: string): (WorkLedger, Admission) {
    var id := q.idempotencyId;
    if id !in ledger then (ledger[id := WorkClaimed(q, now, receiptRef)], Admitted)
    else if ledger[id].request != q then (ledger, Conflict)
    else match ledger[id]
      case WorkEnded(_, receipt) => (ledger, Replayed(receipt))
      case WorkClaimed(request, acceptedAt, ref) =>
        var replay := ReceiptForClaim(request, acceptedAt, ref, now, Some(WorkerUnavailable));
        (ledger[id := WorkEnded(request, replay)], Replayed(replay))
  }

  /** The record written when the driver returns or throws. */
  function Settle(ledger: WorkLedger, q: Request, acceptedAt: int, receiptRef: string, now: int, error: Option<ErrorClass>)
    : (WorkLedger, Receipt)
  {
    var receipt := ReceiptForClaim(q, acceptedAt, receiptRef, now, error);
    (ledger[q.idempotencyId := WorkEnded(q, receipt)], receipt)
  }

  // ---------------------------------------------------------------------------------------------
  // The ledger file and the worker as objects
  // ---------------------------------------------------------------------------------------------

  /** A ledger file: an array of records searched by idempotency id. */
  class RecordLedger<R(==)> {
    const key: R -> Id
    var records: seq<R>

    constructor (key: R -> Id)
      ensures this.key == key && Valid() && View() == map[]
    {
      this.key, records := key, [];
    }

    ghost predicate Valid()
      reads this
    {
      DistinctKeys(key, records)
    }

    ghost function View(): map<Id, R>
      reads this
    {
      AsMap(key, records)
    }

    method IndexOf(id: Id) returns (i: nat)
      requires Valid()
      ensures i <= |records|
      ensures i < |records| ==> key(records[i]) == id && id in View() && View()[id] == records[i]
      ensures i == |records| ==> id !in View()
    {
      i := 0;
      while i < |records| && key(records[i]) != id
        invariant i <= |records|
        invariant forall j :: 0 <= j < i ==> key(records[j]) != id
      {
        i := i + 1;
      }
      if i < |records| { AsMapHas(key, records, i); } else { AsMapLacks(key, records, id); }
    }

    method Get(id: Id) returns (record: Option<R>)
      requires Valid()
      ensures record == if id in View() then Some(View()[id]) else None
    {
      var i := IndexOf(id);
      return if i < |records| then Some(records[i]) else None;
    }

    /** Replaces the record of its id, and no other. */
    method Put(record: R)
      requires Valid()
      modifies this
      ensures Valid() && View() == old(View())[key(record) := record]
    {
      var i := IndexOf(key(record));
      if i < |records| {
        AsMapUpdate(key, records, i, record);
        records := records[i := record];
      } else {
        AsMapAppend(key, records, record);
        records := records + [record];
      }
    }
  }

  function WorkId(r: WorkRecord): Id { r.request.idempotencyId }

  /** What the browser did with an admitted request; a process may also stop before or during it. */
  datatype DriverOutcome = Returned | Threw(error: ErrorClass) | StoppedBefore | StoppedDuring

  class BrowserClawWorker {
    const ledger: RecordLedger<WorkRecord>
    /** How often `driver.execute` has been entered for each id. */
    ghost var entered: map<Id, nat>

    constructor (ledger: RecordLedger<WorkRecord>)
      ensures this.ledger == ledger && entered == map[]
    {
      this.ledger := ledger;
      entered := map[];
    }

    method Dispatch(q: Request, now: int, receiptRef: string, outcome: DriverOutcome, later: int)
      returns (admission: Admission, receipt: Option<Receipt>)
      requires ledger.Valid() && ledger.key == WorkId
      modifies this, ledger
      ensures ledger.Valid()
      ensures admission == Admit(old(ledger.View()), q, now, receiptRef).1
      ensures var admitted := Admit(old(ledger.View()), q, now, receiptRef).0;
        match admission
        case Conflict => receipt == None && ledger.View() == admitted && entered == old(entered)
        case Replayed(r) => receipt == Some(r) && ledger.View() == admitted && entered == old(entered)
        case Admitted =>
          && entered == (if outcome.StoppedBefore? then old(entered)
                         else old(entered)[q.idempotencyId := Count(old(entered), q.idempotencyId) + 1])
          && if outcome.StoppedBefore? || outcome.StoppedDuring? then ledger.View() == admitted && receipt == None
             else var (settled, r) := Settle(admitted, q, now, receiptRef, later,
                                             if outcome.Threw? then Some(outcome.error) else None);
               ledger.View() == settled && receipt == Some(r)
    {
      var existing := ledger.Get(q.idempotencyId);
      if existing.Some? {
        if existing.value.request != q { return Conflict, None; }
        if existing.value.WorkEnded? { return Replayed(existing.value.receipt), Some(existing.value.receipt); }
        var claim := existing.value;
        var replay := ReceiptForClaim(claim.request, claim.acceptedAt, claim.receiptRef, now, Some(WorkerUnavailable));
        ledger.Put(WorkEnded(claim.request, replay));
        return Replayed(replay), Some(replay);
      }
      ledger.Put(WorkClaimed(q, now, receiptRef));
      admission := Admitted;
      if outcome.StoppedBefore? { return Admitted, None; }
      entered := entered[q.idempotencyId := Count(entered, q.idempotencyId) + 1];
      if outcome.StoppedDuring? { return Admitted, None; }
      var error := if outcome.Threw? then Some(outcome.error) else None;
      var final := ReceiptForClaim(q, now, receiptRef, later, error);
      ledger.Put(WorkEnded(q, final));
      return Admitted, Some(final);
    }
  }

  function Count(counts: map<Id, nat>, id: Id): nat {
    if id in counts then counts[id] else 0
  }
}
