/** Execution records and the lifecycle of one execution id. */
module Models {
  import opened Prelude
  import opened Json

  type ExecId = string
  type Payload = map<string, Json>

  datatype OperationType = READ | WRITE

  datatype ExecutionStatus = IntentLogged | Dispatched | Acked | VerifiedCommitted | VerifiedNotFound | ExecutionFailed

  datatype ResultStatus = ResultOk | ResultError | ResultTimeout | ResultUnknown

  /** `updatedAt` is the clock reading of the last write, in seconds. */
  datatype ExternalResult = ExternalResult(
    run: string,
    item: Option<string>,
    tool: string,
    op: OperationType,
    request: Payload,
    response: Option<Payload>,
    result: ResultStatus,
    status: ExecutionStatus,
    error: Option<string>,
    updatedAt: real)

  /** The transition table of the facade. A status may always be written again. */
  predicate Allowed(current: ExecutionStatus, next: ExecutionStatus) {
    || current == next
    || match current
       case IntentLogged => true
       case Dispatched => next != IntentLogged
       case Acked => next == VerifiedCommitted
       case VerifiedCommitted => false
       case VerifiedNotFound => next == Acked || next == ExecutionFailed
       case ExecutionFailed => next == Dispatched || next == VerifiedCommitted || next == VerifiedNotFound
  }

  predicate IsCommitted(s: ExecutionStatus) { s == Acked || s == VerifiedCommitted }

  /** No outcome is known yet, or absence was proved: the statuses recovery still has to deal with. */
  predicate IsOpen(s: ExecutionStatus) { s == IntentLogged || s == Dispatched || s == VerifiedNotFound }

  /** The terminal statuses of the audit are exactly the others. */
  predicate IsTerminal(s: ExecutionStatus) { s == Acked || s == VerifiedCommitted || s == ExecutionFailed }
}
