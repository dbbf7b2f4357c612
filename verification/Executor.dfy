/** The transaction manager: one tool call as an ordered sequence of durable writes around one external call. */
module Executor {
  import opened Prelude
  import opened Models
  import opened Facade
  import opened Identity

  /** One logical tool call. `ident` is what its execution id is built from. */
  datatype ToolCall = ToolCall(ident: Call, op: OperationType, idempotent: bool)

  /** What the adapter does: answer, fail in a way that may hide a commit, or fail. */
  datatype Answer = Answered(response: Payload) | Ambiguous(error: string) | Failure(error: string)

  datatype Disposition = Succeeded | Reused | PendingRecovery | Failed

  /** `_handle_existing`. */
  function HandleExisting(status: ExecutionStatus): Disposition {
    if IsCommitted(status) then Reused else if status == ExecutionFailed then Failed else PendingRecovery
  }

  /** The id is forwarded to the target only for writes declared idempotent. */
  function ForwardedId(c: ToolCall, id: ExecId): Option<ExecId> {
    if c.op == WRITE && c.idempotent then Some(id) else None
  }

  predicate MarksDispatch(c: ToolCall, dispatchReads: bool) { c.op == WRITE || dispatchReads }

  /** The durable outcome of an answer. A replay that is ambiguous again stays where it is. */
  function AnswerArgs(c: ToolCall, replay: bool, a: Answer): ResultArgs {
    var (result, response, error, status, clear) :=
      match a
      case Answered(response) => (ResultOk, Some(response), None, Acked, true)
      case Ambiguous(e) =>
        if c.op == WRITE then (ResultTimeout, None, Some(e), if replay then VerifiedNotFound else Dispatched, false)
        else (ResultError, None, Some(e), ExecutionFailed, true)
      case Failure(e) => (ResultError, None, Some(e), ExecutionFailed, true);
    ResultArgs(result, response, error, Some(c.ident.tool), Some(c.op), Some(c.ident.args), Some(c.ident.item),
               Some(status), clear)
  }

  function AnswerDisposition(c: ToolCall, a: Answer): Disposition {
    if a.Answered? then Succeeded else if a.Ambiguous? && c.op == WRITE then PendingRecovery else Failed
  }

  // ---------------------------------------------------------------- one step at a time

  /** Where a call stands: between any two of these points the process may die, and others may run. */
  datatype Pc =
    | AtLookup
    | AtIntent
    | AtRecheck
    | AtDispatch
    | AtInvoke(replay: bool)
    | AtAnswer(replay: bool)
    | AtRecord(replay: bool, answer: Answer)
    | Returned(result: Disposition)
    | Raised

  /** The next step of `execute_tool`. `answer` matters only where the call waits for one. */
  function Step(s: Store, id: ExecId, c: ToolCall, pc: Pc, answer: Answer, dispatchReads: bool, cfg: Config, now: real,
                ck: string): (Store, Pc) {
    var run := c.ident.run;
    match pc
    case AtLookup =>
      if id !in s.records then (s, AtIntent)
      else if s.records[id].status != VerifiedNotFound then (s, Returned(HandleExisting(s.records[id].status)))
      else (s, AtInvoke(true))
    case AtIntent =>
      (match RecordToolIntent(s, run, c.ident.item, id, c.ident.tool, c.op, c.ident.args, now, cfg, ck)
       case Ok(t) => (t, AtRecheck)
       case Err(_) => (s, Raised))
    case AtRecheck =>
      if id !in s.records then (s, Raised)
      else if s.records[id].status != IntentLogged then (s, Returned(HandleExisting(s.records[id].status)))
      else (s, if MarksDispatch(c, dispatchReads) then AtDispatch else AtInvoke(false))
    case AtDispatch =>
      (match RecordToolDispatch(s, run, id, now, cfg, ck)
       case Ok(t) => (t, AtInvoke(false))
       case Err(_) => (s, Raised))
    case AtInvoke(replay) => (s, AtAnswer(replay))
    case AtAnswer(replay) => (s, AtRecord(replay, answer))
    case AtRecord(replay, a) =>
      (match RecordToolResult(s, run, id, AnswerArgs(c, replay, a), now, cfg, ck)
       case Ok(t) => (t, Returned(AnswerDisposition(c, a)))
       case Err(_) => (s, Raised))
    case Returned(_) => (s, pc)
    case Raised => (s, pc)
  }

  // ---------------------------------------------------------------- the whole call

  /** How the part before the external call ends. */
  datatype Prepared =
    | Settled(store: Store, result: Disposition)
    | Stopped(store: Store)
    | Ready(store: Store, replay: bool)

  function Prepare(s: Store, id: ExecId, c: ToolCall, dispatchReads: bool, cfg: Config, w: World): Prepared {
    if id in s.records then
      if s.records[id].status != VerifiedNotFound then Settled(s, HandleExisting(s.records[id].status))
      else Ready(s, true)
    else
      match RecordToolIntent(s, c.ident.run, c.ident.item, id, c.ident.tool, c.op, c.ident.args, w.clock(|s.log|), cfg,
                             w.uuid(|s.log|))
      case Err(_) => Stopped(s)
      case Ok(t) =>
        if id !in t.records then Stopped(t)
        else if t.records[id].status != IntentLogged then Settled(t, HandleExisting(t.records[id].status))
        else if !MarksDispatch(c, dispatchReads) then Ready(t, false)
        else
          match RecordToolDispatch(t, c.ident.run, id, w.clock(|t.log|), cfg, w.uuid(|t.log|))
          case Err(_) => Stopped(t)
          case Ok(u) => Ready(u, false)
  }

  function Finish(s: Store, id: ExecId, c: ToolCall, replay: bool, a: Answer, cfg: Config, w: World): Outcome<Store> {
    RecordToolResult(s, c.ident.run, id, AnswerArgs(c, replay, a), w.clock(|s.log|), cfg, w.uuid(|s.log|))
  }

  /** Left alone, the steps reach exactly what the preparation computes. */
  function RunAlone(s: Store, id: ExecId, c: ToolCall, pc: Pc, answer: Answer, dispatchReads: bool, cfg: Config,
                    w: World, fuel: nat): (Store, Pc)
    decreases fuel
  {
    if fuel == 0 || pc.AtInvoke? || pc.Returned? || pc.Raised? then (s, pc)
    else
      var (t, next) := Step(s, id, c, pc, answer, dispatchReads, cfg, w.clock(|s.log|), w.uuid(|s.log|));
      RunAlone(t, id, c, next, answer, dispatchReads, cfg, w, fuel - 1)
  }

  function PreparedAt(p: Prepared): (Store, Pc) {
    match p
    case Settled(s, d) => (s, Returned(d))
    case Stopped(s) => (s, Raised)
    case Ready(s, replay) => (s, AtInvoke(replay))
  }

  lemma {:induction false} StepsPrepare(s: Store, id: ExecId, c: ToolCall, a: Answer, dispatchReads: bool, cfg: Config,
                                        w: World)
    ensures RunAlone(s, id, c, AtLookup, a, dispatchReads, cfg, w, 4) ==
      PreparedAt(Prepare(s, id, c, dispatchReads, cfg, w))
  {
    hide RecordToolIntent, RecordToolDispatch, RecordToolResult, AnswerArgs, HandleExisting, MarksDispatch;
    var (t, pc) := Step(s, id, c, AtLookup, a, dispatchReads, cfg, w.clock(|s.log|), w.uuid(|s.log|));
    if pc.AtIntent? {
      var (u, qc) := Step(t, id, c, pc, a, dispatchReads, cfg, w.clock(|t.log|), w.uuid(|t.log|));
      if qc.AtRecheck? {
        var (v, rc) := Step(u, id, c, qc, a, dispatchReads, cfg, w.clock(|u.log|), w.uuid(|u.log|));
      }
    }
  }
}
