/** The durable store and the operations of the logging facade, each a function that gives the next store or raises. */
module Facade {
  import opened Prelude
  import opened Json
  import opened Models
  import Context
  import Planner

  const NO_CONTEXT := "agent context not found"
  const NO_PLAN := "planner state not found"
  const TAKEN_ID := "execution_id already belongs to another run"
  const NO_PROJECTIONS := "run projections missing"
  const NO_INTENT := "tool intent not found"
  const OTHER_RUN := "execution_id belongs to another run"
  const ILLEGAL_TRANSITION := "illegal execution status transition"
  const INCOMPLETE_FIRST := "tool_name, operation_type, and request_payload are required for first result record"
  const NO_SNAPSHOT_TYPE := "snapshot_type must be a non-empty string"

  type RunId = string

  datatype Event =
    | RunStarted(messageCount: nat, itemCount: nat)
    | PlanCreated(source: string, items: seq<Planner.RawItem>)
    | LlmOutputAttached(item: string, output: string)
    | ItemStatusUpdated(item: string, newStatus: string, note: Option<string>)
    | ActiveItemSet(item: string)
    | ContextInitialized(seed: seq<Context.Message>, memory: map<string, Json>)
    | MessageAppended(message: Context.Message)
    | PendingSet(last: Option<ExecId>, ids: seq<ExecId>)
    | Synchronized(version: int, cursor: Option<nat>)
    | IntentRecorded(id: ExecId, item: string, tool: string, op: OperationType, request: Payload)
    | DispatchRecorded(id: ExecId, tool: string)
    | ResultRecorded(id: ExecId, result: ResultStatus, status: ExecutionStatus, tool: string, op: OperationType,
                     planItem: Option<string>, hasResponse: bool, error: Option<string>)
    | CheckpointWritten(checkpointId: string, checkpointSeq: nat, kind: string)

  /** The sequence number of an entry is its position in the log of all runs, counted from one. */
  datatype LogEntry = LogEntry(run: RunId, event: Event)

  datatype Checkpoint = Checkpoint(
    id: string,
    run: RunId,
    seqId: nat,
    kind: string,
    plan: Option<Planner.Plan>,
    context: Option<Context.Snapshot>,
    results: Option<map<ExecId, ExternalResult>>)

  datatype Store = Store(
    log: seq<LogEntry>,
    checkpoints: seq<Checkpoint>,
    plans: map<RunId, Planner.Plan>,
    contexts: map<RunId, Context.Snapshot>,
    records: map<ExecId, ExternalResult>)

  const EMPTY := Store([], [], map[], map[], map[])

  /** `interval` is `checkpoint_every_n_events`, `dedup` is `enforce_execution_dedup`. */
  datatype Config = Config(interval: int, dedup: bool)

  function Lookup<K, V>(m: map<K, V>, k: K): Option<V> {
    if k in m then Some(m[k]) else None
  }

  function EventsOf(log: seq<LogEntry>, run: RunId): seq<Event> {
    if log == [] then []
    else
      var e := log[|log| - 1];
      EventsOf(log[..|log| - 1], run) + if e.run == run then [e.event] else []
  }

  /** `latest_seq`; zero when the run has no event. */
  function LatestSeq(log: seq<LogEntry>, run: RunId): (r: nat)
    ensures r <= |log|
    ensures r > 0 ==> log[r - 1].run == run
  {
    if log == [] then 0
    else if log[|log| - 1].run == run then |log|
    else LatestSeq(log[..|log| - 1], run)
  }

  predicate HasIntent(log: seq<LogEntry>, run: RunId, id: ExecId) {
    exists i :: 0 <= i < |log| && log[i].run == run && log[i].event.IntentRecorded? && log[i].event.id == id
  }

  // ---------------------------------------------------------------- one logged change

  function Append(s: Store, run: RunId, e: Event): Store {
    s.(log := s.log + [LogEntry(run, e)])
  }

  function PutPlan(s: Store, run: RunId, p: Planner.Plan): Store { s.(plans := s.plans[run := p]) }

  function PutContext(s: Store, run: RunId, c: Context.Snapshot): Store { s.(contexts := s.contexts[run := c]) }

  function PutRecord(s: Store, id: ExecId, r: ExternalResult): Store { s.(records := s.records[id := r]) }

  /** `_sync_context_with_planner_locked`. */
  function Synchronize(s: Store, run: RunId, p: Planner.Plan): Outcome<Store> {
    if run !in s.contexts then Err(NO_CONTEXT)
    else Ok(PutContext(Append(s, run, Synchronized(p.version, p.cursor)), run,
                       Context.SyncPlanner(s.contexts[run], p.version, p.cursor)))
  }

  /** `list_external_results`, by id. */
  function RecordsOf(s: Store, run: RunId): map<ExecId, ExternalResult> {
    map id | id in s.records && s.records[id].run == run :: s.records[id]
  }

  /** The part of a checkpoint that is only there on request. */
  function ResultsIf(s: Store, run: RunId, withResults: bool): Option<map<ExecId, ExternalResult>> {
    if withResults && run in s.contexts then Some(RecordsOf(s, run)) else None
  }

  /** `_checkpoint_locked`. */
  function WriteCheckpoint(s: Store, run: RunId, id: string, kind: string, withResults: bool): Store {
    var last := LatestSeq(s.log, run);
    if last == 0 then s
    else
      var c := Checkpoint(id, run, last, kind, Lookup(s.plans, run), Lookup(s.contexts, run),
                          ResultsIf(s, run, withResults));
      var written := s.(checkpoints := s.checkpoints + [c]);
      var marked :=
        if run in s.contexts then PutContext(written, run, Context.CheckpointContext(s.contexts[run], last))
        else written;
      Append(marked, run, CheckpointWritten(id, last, kind))
  }

  const CONTEXT_KIND := "agent_context"

  /** `_maybe_auto_checkpoint_locked`: only the last sequence number of the operation is looked at. */
  function AutoCheckpoint(s: Store, run: RunId, cfg: Config, id: string): Store {
    if cfg.interval <= 0 || LatestSeq(s.log, run) == 0 || LatestSeq(s.log, run) % cfg.interval != 0 then s
    else WriteCheckpoint(s, run, id, CONTEXT_KIND, false)
  }

  // ---------------------------------------------------------------- the operations

  /** `init_context`: an existing context survives unless the caller resets. */
  function InitialContext(s: Store, run: RunId, seed: seq<Context.Message>, memory: map<string, Json>, force: bool)
    : Outcome<Context.Snapshot>
  {
    if run in s.contexts && !force then Ok(s.contexts[run]) else Context.InitContext(seed, memory)
  }

  function StartRun(s: Store, run: RunId, seed: seq<Context.Message>, source: string, items: seq<Planner.RawItem>,
                    memory: map<string, Json>, force: bool, cfg: Config, ck: string): Outcome<Store> {
    if run in s.plans && run in s.contexts && !force then Ok(s)
    else
      var a := Append(Append(s, run, RunStarted(|seed|, |items|)), run, PlanCreated(source, items));
      match Planner.CreatePlan(source, items)
      case Err(e) => Err(e)
      case Ok(plan) =>
        var b := Append(PutPlan(a, run, plan), run, ContextInitialized(seed, memory));
        match InitialContext(s, run, seed, memory, force)
        case Err(e) => Err(e)
        case Ok(context) =>
          match Synchronize(PutContext(b, run, context), run, plan)
          case Err(e) => Err(e)
          case Ok(t) => Ok(AutoCheckpoint(t, run, cfg, ck))
  }

  /** Append one message to the context, with its event. */
  function LogMessage(s: Store, run: RunId, m: Context.Message): Outcome<Store> {
    if run !in s.contexts then Err(NO_CONTEXT)
    else
      match Context.AppendMessage(s.contexts[run], m)
      case Err(e) => Err(e)
      case Ok(context) => Ok(PutContext(Append(s, run, MessageAppended(m)), run, context))
  }

  function RecordContextMessage(s: Store, run: RunId, m: Context.Message, cfg: Config, ck: string): Outcome<Store> {
    match LogMessage(s, run, m)
    case Err(e) => Err(e)
    case Ok(t) => Ok(AutoCheckpoint(t, run, cfg, ck))
  }

  /** A change of the plan, with its event; `after` is what the planner service answers. */
  function LogPlan(s: Store, run: RunId, e: Event, after: Outcome<Planner.Plan>): Outcome<Store> {
    match after
    case Err(reason) => Err(reason)
    case Ok(plan) => Ok(PutPlan(Append(s, run, e), run, plan))
  }

  function RecordLlmTurn(s: Store, run: RunId, item: string, output: string, text: string, meta: map<string, Json>,
                         cfg: Config, ck: string): Outcome<Store> {
    if run !in s.plans then Err(NO_PLAN)
    else
      match LogPlan(s, run, LlmOutputAttached(item, output), Planner.AttachOutput(s.plans[run], item, output))
      case Err(e) => Err(e)
      case Ok(a) =>
        match LogMessage(a, run, Context.Message("assistant", text, None, None, meta))
        case Err(e) => Err(e)
        case Ok(b) =>
          match Synchronize(b, run, b.plans[run])
          case Err(e) => Err(e)
          case Ok(t) => Ok(AutoCheckpoint(t, run, cfg, ck))
  }

  function IntentRecord(run: RunId, item: string, tool: string, op: OperationType, request: Payload,
                        now: real): ExternalResult {
    ExternalResult(run, Some(item), tool, op, request, None, ResultUnknown, IntentLogged, None, now)
  }

  /** `_tool_intent_exists_locked` with deduplication on. */
  function IntentExists(s: Store, run: RunId, id: ExecId): Outcome<bool> {
    if id in s.records then
      if s.records[id].run != run then Err(TAKEN_ID) else Ok(true)
    else Ok(HasIntent(s.log, run, id))
  }

  function RecordToolIntent(s: Store, run: RunId, item: string, id: ExecId, tool: string, op: OperationType,
                            request: Payload,
                            now: real, cfg: Config, ck: string): Outcome<Store> {
    var known := if cfg.dedup then IntentExists(s, run, id) else Ok(false);
    match known
    case Err(e) => Err(e)
    case Ok(true) => if run in s.plans && run in s.contexts then Ok(s) else Err(NO_PROJECTIONS)
    case Ok(false) =>
      if run !in s.plans then Err(NO_PLAN)
      else
        match LogPlan(s, run, IntentRecorded(id, item, tool, op, request), Planner.AttachRef(s.plans[run], item, id))
        case Err(e) => Err(e)
        case Ok(a) => IntentTail(a, run, item, id, tool, op, request, now, cfg, ck)
  }

  /** After the intent event and the plan reference: the pending list, the record, the pointers. */
  function IntentTail(a: Store, run: RunId, item: string, id: ExecId, tool: string, op: OperationType, request: Payload,
                      now: real, cfg: Config, ck: string): Outcome<Store>
    requires run in a.plans
  {
    if run !in a.contexts then Err(NO_CONTEXT)
    else
      var pending := Context.PendingWith(a.contexts[run].pending, id);
      match Context.AddPending(a.contexts[run], id)
      case Err(e) => Err(e)
      case Ok(context) =>
        var b := PutContext(Append(a, run, PendingSet(Last(pending), pending)), run, context);
        var c := if id in b.records then b else PutRecord(b, id, IntentRecord(run, item, tool, op, request, now));
        match Synchronize(c, run, c.plans[run])
        case Err(e) => Err(e)
        case Ok(t) => Ok(AutoCheckpoint(t, run, cfg, ck))
  }

  /** `cached` with another status. */
  function RecordToolDispatch(s: Store, run: RunId, id: ExecId, now: real, cfg: Config, ck: string): Outcome<Store> {
    if id !in s.records then Err(NO_INTENT)
    else
      var cached := s.records[id];
      if cached.run != run then Err(OTHER_RUN)
      else if !Allowed(cached.status, Dispatched) then Err(ILLEGAL_TRANSITION)
      else if run !in s.contexts then Err(NO_CONTEXT)
      else
        var a := PutRecord(Append(s, run, DispatchRecorded(id, cached.tool)), id,
                           cached.(status := Dispatched, updatedAt := now));
        Ok(AutoCheckpoint(a, run, cfg, ck))
  }

  /** `_resolve_execution_status`. */
  function ResolveStatus(status: Option<ExecutionStatus>, result: ResultStatus): ExecutionStatus {
    match status
    case Some(s) => s
    case None => if result == ResultOk then Acked else if result == ResultError then ExecutionFailed else Dispatched
  }

  /** What a caller of `record_tool_result` may give; what is missing comes from the cached record. */
  datatype ResultArgs = ResultArgs(
    result: ResultStatus,
    response: Option<Payload>,
    error: Option<string>,
    tool: Option<string>,
    op: Option<OperationType>,
    request: Option<Payload>,
    item: Option<string>,
    status: Option<ExecutionStatus>,
    clearPending: bool)

  /** The record that a result call writes. An empty tool name or request counts as not given. */
  function ResultRecordOf(cached: Option<ExternalResult>, run: RunId, a: ResultArgs,
                          now: real): Outcome<ExternalResult> {
    var tool :=
      if a.tool.Some? && a.tool.value != "" then a.tool
      else if cached.Some? then Some(cached.value.tool) else None;
    var op := if a.op.Some? then a.op else if cached.Some? then Some(cached.value.op) else None;
    var request :=
      if a.request.Some? && a.request.value != map[] then a.request
      else if cached.Some? then Some(cached.value.request) else None;
    var item := if a.item.Some? then a.item else if cached.Some? then cached.value.item else None;
    if tool.None? || op.None? || request.None? then
      Err(INCOMPLETE_FIRST)
    else
      var status := ResolveStatus(a.status, a.result);
      Ok(ExternalResult(run, item, tool.value, op.value, request.value, a.response, a.result, status, a.error, now))
  }

  /** Drop `id` from the pending list, with the event, if it is there. */
  function LogClear(s: Store, run: RunId, id: ExecId): Store {
    if run in s.contexts && id in s.contexts[run].pending then
      var after := Without(s.contexts[run].pending, id);
      PutContext(Append(s, run, PendingSet(Last(after), after)), run, Context.ClearPending(s.contexts[run], id))
    else s
  }

  function ShouldClear(a: ResultArgs): bool {
    var status := ResolveStatus(a.status, a.result);
    a.clearPending && status != IntentLogged && status != Dispatched
  }

  function RecordToolResult(s: Store, run: RunId, id: ExecId, args: ResultArgs, now: real, cfg: Config,
                            ck: string): Outcome<Store> {
    var cached := Lookup(s.records, id);
    if cached.Some? && cached.value.run != run then Err(OTHER_RUN)
    else if cached.Some? && !Allowed(cached.value.status, ResolveStatus(args.status, args.result)) then
      Err(ILLEGAL_TRANSITION)
    else
      match ResultRecordOf(cached, run, args, now)
      case Err(e) => Err(e)
      case Ok(r) =>
        if run !in s.contexts then Err(NO_CONTEXT)
        else
          var a := PutRecord(
              Append(s, run, ResultRecorded(id, r.result, r.status, r.tool, r.op, r.item, r.response.Some?, r.error)),
                             id, r);
          var b := if ShouldClear(args) then LogClear(a, run, id) else a;
          Ok(AutoCheckpoint(b, run, cfg, ck))
  }

  function AdvancePlanItem(s: Store, run: RunId, item: string, status: string, note: Option<string>, cfg: Config,
                           ck: string): Outcome<Store> {
    if run !in s.plans then Err(NO_PLAN)
    else
      match LogPlan(s, run, ItemStatusUpdated(item, status, note),
                    Planner.UpdateStatus(s.plans[run], item, status, note))
      case Err(e) => Err(e)
      case Ok(a) =>
        match Synchronize(a, run, a.plans[run])
        case Err(e) => Err(e)
        case Ok(t) => Ok(AutoCheckpoint(t, run, cfg, ck))
  }

  function SetActivePlanItem(s: Store, run: RunId, item: string, cfg: Config, ck: string): Outcome<Store> {
    if run !in s.plans then Err(NO_PLAN)
    else
      match LogPlan(s, run, ActiveItemSet(item), Planner.SetActive(s.plans[run], item))
      case Err(e) => Err(e)
      case Ok(a) =>
        match Synchronize(a, run, a.plans[run])
        case Err(e) => Err(e)
        case Ok(t) => Ok(AutoCheckpoint(t, run, cfg, ck))
  }

  function CheckpointRun(s: Store, run: RunId, kind: string, withResults: bool, ck: string): Outcome<Store> {
    if LatestSeq(s.log, run) > 0 && kind == "" then Err(NO_SNAPSHOT_TYPE)
    else Ok(WriteCheckpoint(s, run, ck, kind, withResults))
  }

  // ---------------------------------------------------------------- any operation

  datatype Op =
    | OpStart(run: RunId, seed: seq<Context.Message>, source: string, items: seq<Planner.RawItem>,
              memory: map<string, Json>, force: bool)
    | OpMessage(run: RunId, message: Context.Message)
    | OpLlmTurn(run: RunId, item: string, output: string, text: string, meta: map<string, Json>)
    | OpIntent(run: RunId, item: string, id: ExecId, tool: string, op: OperationType, request: Payload)
    | OpDispatch(run: RunId, id: ExecId)
    | OpResult(run: RunId, id: ExecId, args: ResultArgs)
    | OpAdvance(run: RunId, item: string, status: string, note: Option<string>)
    | OpSetActive(run: RunId, item: string)
    | OpCheckpoint(run: RunId, kind: string, withResults: bool)

  function Perform(s: Store, op: Op, now: real, cfg: Config, ck: string): Outcome<Store> {
    match op
    case OpStart(run, seed, source, items, memory, force) =>
      StartRun(s, run, seed, source, items, memory, force, cfg, ck)
    case OpMessage(run, m) => RecordContextMessage(s, run, m, cfg, ck)
    case OpLlmTurn(run, item, output, text, meta) => RecordLlmTurn(s, run, item, output, text, meta, cfg, ck)
    case OpIntent(run, item, id, tool, kind, request) =>
      RecordToolIntent(s, run, item, id, tool, kind, request, now, cfg, ck)
    case OpDispatch(run, id) => RecordToolDispatch(s, run, id, now, cfg, ck)
    case OpResult(run, id, args) => RecordToolResult(s, run, id, args, now, cfg, ck)
    case OpAdvance(run, item, status, note) => AdvancePlanItem(s, run, item, status, note, cfg, ck)
    case OpSetActive(run, item) => SetActivePlanItem(s, run, item, cfg, ck)
    case OpCheckpoint(run, kind, withResults) => CheckpointRun(s, run, kind, withResults, ck)
  }

  /** The wall clock and the uuid source, as read when the log has a given length. */
  datatype World = World(clock: nat -> real, uuid: nat -> string)

  /** An operation at a clock reading; `ck` is the fresh id of the checkpoint it may write. */
  datatype Stamped = Stamped(op: Op, now: real, ck: string)

  /** The store after one operation: a raising operation is rolled back. */
  function After(s: Store, c: Stamped, cfg: Config): Store {
    match Perform(s, c.op, c.now, cfg, c.ck)
    case Ok(t) => t
    case Err(_) => s
  }

  /** The store after a history of operations of any number of processes; a crash between two of them changes
      nothing. */
  function RunOps(s: Store, ops: seq<Stamped>, cfg: Config): Store {
    if ops == [] then s
    else After(RunOps(s, ops[..|ops| - 1], cfg), ops[|ops| - 1], cfg)
  }
}
