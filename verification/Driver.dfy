/** The crash-and-restart step loop of the sample agent: scripted tool calls, one lost request or answer, recovery in
    between. */
module Driver {
  import opened Prelude
  import opened Models
  import opened Facade
  import opened Executor
  import Adapter
  import Context
  import Coordinator
  import Identity
  import Json
  import Recovery
  import Target
  import TargetVerifier
  import Timeouts

  /** One scripted turn: a tool call with what is logged about it, or the final answer. */
  datatype Turn =
    | ToolTurn(tool: string, args: Payload, op: OperationType, output: string, rationale: string,
               meta: map<string, Json.Json>)
    | FinalTurn(answer: string, meta: map<string, Json.Json>)

  /** What all processes of one run share. `items` is the number of plan items. */
  datatype Env = Env(run: RunId, script: seq<Turn>, items: nat, digest: string -> string, cfg: Config,
                     fp: Target.FloatPlus, query: Adapter.Query, floatOf: Timeouts.FloatOf)

  /** Where `_maybe_crash` may stop the process inside a turn. */
  datatype Point = AfterStart | AfterRecord | AfterTransaction | AfterRecovery | AfterAdvance

  /** One process: its fault, its clock and uuids, and the turn and point at which it is made to crash, if any. */
  datatype Process = Process(fault: Adapter.Fault, world: World, receipt: nat -> Target.Receipt,
                             crash: Option<(nat, Point)>)

  datatype State = State(store: Store, channel: Adapter.Channel)

  datatype Flow = Continue | Crashed | RaisedOut

  const WAIT_SECONDS := 0.25

  function ItemOf(e: Env, k: nat): string {
    "step_" + Json.Digits(if k < e.items then k else if e.items > 0 then e.items - 1 else 0)
  }

  predicate IsTool(e: Env, k: int) { 0 <= k < |e.script| && e.script[k].ToolTurn? }

  function CallOf(e: Env, k: int): ToolCall
    requires IsTool(e, k)
  {
    var t := e.script[k];
    ToolCall(Identity.Call(e.run, ItemOf(e, k), t.tool, None, t.args), t.op, t.op == WRITE)
  }

  function IdOf(e: Env, k: int): ExecId
    requires IsTool(e, k)
  {
    Identity.BuildId(e.digest, CallOf(e, k).ident)
  }

  /** `execute_tool` of the loop: reads are not marked as dispatched. */
  function Execute(e: Env, pr: Process, x: State, c: ToolCall, id: ExecId): (State, Outcome<Disposition>) {
    match Prepare(x.store, id, c, false, e.cfg, pr.world)
    case Settled(s, d) => (x.(store := s), Ok(d))
    case Stopped(s) => (x.(store := s), Err("raised"))
    case Ready(s, replay) =>
      var (channel, answer) := Adapter.Invoke(x.channel, pr.fault, e.query, e.fp, c.ident.tool, c.ident.args,
                                              ForwardedId(c, id), pr.world.uuid(|x.store.log|),
                                              pr.receipt(|x.store.log|));
      match Finish(s, id, c, replay, answer, e.cfg, pr.world)
      case Ok(t) => (State(t, channel), Ok(AnswerDisposition(c, answer)))
      case Err(_) => (State(s, channel), Err("raised"))
  }

  function PassAt(e: Env, d: Target.Data, now: real): Recovery.Pass {
    var verifier := (id, tool, args) => TargetVerifier.VerifyWrite(d, id, tool, args);
    Recovery.Pass(e.run, now, WAIT_SECONDS, e.floatOf, Some(verifier), e.cfg)
  }

  /** The clock reading handed to `recover_run`: one second after the record's last write if the call is pending. */
  function RecoveryTime(pr: Process, x: State, id: ExecId, pending: bool): real {
    if pending && id in x.store.records then x.store.records[id].updatedAt + 1.0 else pr.world.clock(|x.store.log|)
  }

  /** `_resolve_recovered_execution`: only a replay does anything, and its failure is ignored. */
  function Resolve(e: Env, pr: Process, x: State, before: Store, p: Recovery.Pass, c: ToolCall,
                   id: ExecId): (State, Flow) {
    if
      && e.run in before.contexts && id in before.records && before.records[id].run == e.run
      && Coordinator.FinalDecision(p, id, Some(before.records[id])).action == Recovery.Replay
    then
      var (y, r) := Execute(e, pr, x, c, id);
      (y, if r.Ok? then Continue else RaisedOut)
    else (x, Continue)
  }

  /** From the recovery pass to the end of a tool turn. */
  function AfterCall(e: Env, pr: Process, x: State, k: nat, pending: bool, at: Option<Point>): (State, Flow)
    requires IsTool(e, k)
  {
    var c, id := CallOf(e, k), IdOf(e, k);
    var p := PassAt(e, x.channel.data, RecoveryTime(pr, x, id, pending));
    var y := x.(store := Recovery.RecoverRun(p, pr.world, x.store));
    if at == Some(AfterRecovery) then (y, Crashed)
    else
      var (z, flow) := if pending then Resolve(e, pr, y, x.store, p, c, id) else (y, Continue);
      if !flow.Continue? then (z, flow) else Advance(e, pr, z, k, at)
  }

  /** The part after the call, step by step. */
  lemma AfterCallIs(e: Env, pr: Process, x: State, k: nat, pending: bool, at: Option<Point>)
    requires IsTool(e, k)
    ensures var p := PassAt(e, x.channel.data, RecoveryTime(pr, x, IdOf(e, k), pending));
      var y := x.(store := Recovery.RecoverRun(p, pr.world, x.store));
      var (z, flow) := if pending then Resolve(e, pr, y, x.store, p, CallOf(e, k), IdOf(e, k)) else (y, Continue);
      AfterCall(e, pr, x, k, pending, at) ==
        if at == Some(AfterRecovery) then (y, Crashed)
        else if flow.Continue? then Advance(e, pr, z, k, at)
        else (z, flow)
  {
    hide IdOf, PassAt, RecoveryTime, Recovery.RecoverRun, Resolve, Advance;
  }

  function Advance(e: Env, pr: Process, x: State, k: nat, at: Option<Point>): (State, Flow) {
    match AdvancePlanItem(x.store, e.run, ItemOf(e, k), "done", None, e.cfg, pr.world.uuid(|x.store.log|))
    case Err(_) => (x, RaisedOut)
    case Ok(t) => (x.(store := t), if at == Some(AfterAdvance) then Crashed else Continue)
  }

  function ToolStep(e: Env, pr: Process, x: State, k: nat, at: Option<Point>): (State, Flow)
    requires IsTool(e, k)
  {
    var turn := e.script[k];
    if at == Some(AfterStart) then (x, Crashed)
    else
      match RecordLlmTurn(x.store, e.run, ItemOf(e, k), turn.output, turn.rationale, turn.meta, e.cfg,
                          pr.world.uuid(|x.store.log|))
      case Err(_) => (x, RaisedOut)
      case Ok(s) =>
        var y := x.(store := s);
        if at == Some(AfterRecord) then (y, Crashed)
        else
          var (z, result) := Execute(e, pr, y, CallOf(e, k), IdOf(e, k));
          if result.Err? then (z, RaisedOut)
          else if at == Some(AfterTransaction) then (z, Crashed)
          else if result.value == Failed then (z, RaisedOut)
          else AfterCall(e, pr, z, k, result.value == PendingRecovery, at)
  }

  function FinalStep(e: Env, pr: Process, x: State, k: nat, at: Option<Point>): (State, Flow)
    requires k < |e.script| && e.script[k].FinalTurn?
  {
    var m := Context.Message("assistant", e.script[k].answer, None, None, e.script[k].meta);
    if at == Some(AfterStart) then (x, Crashed)
    else
      match RecordContextMessage(x.store, e.run, m, e.cfg, pr.world.uuid(|x.store.log|))
      case Err(_) => (x, RaisedOut)
      case Ok(s) => if at == Some(AfterRecord) then (x.(store := s), Crashed) else Advance(e, pr, x.(store := s), k, at)
  }

  /** The ids of the plan items that are done. */
  function DoneItems(s: Store, run: RunId): set<string> {
    if run in s.plans then
      set i | 0 <= i < |s.plans[run].items| && s.plans[run].items[i].status.Done? :: s.plans[run].items[i].id
    else {}
  }

  /** The loop from turn `k` on. `completed` was read once, when the process started. */
  function Loop(e: Env, pr: Process, x: State, k: nat, completed: set<string>): (State, Flow)
    requires k <= |e.script|
    decreases |e.script| - k
  {
    if k == |e.script| then (x, Continue)
    else if ItemOf(e, k) in completed && k < e.items then Loop(e, pr, x, k + 1, completed)
    else
      var at := if pr.crash.Some? && pr.crash.value.0 == k then Some(pr.crash.value.1) else None;
      var (y, flow) := if e.script[k].ToolTurn? then ToolStep(e, pr, x, k, at) else FinalStep(e, pr, x, k, at);
      if flow.Continue? then Loop(e, pr, y, k + 1, completed) else (y, flow)
  }

  /** One process on a run that already exists; `Continue` is a completed loop. */
  function RunProcess(e: Env, pr: Process, s: Store, d: Target.Data): (State, Flow) {
    Loop(e, pr, State(s, Adapter.Channel(d, false)), 0, DoneItems(s, e.run))
  }
}
