/** Whatever processes do, the store only ever sees disciplined facade operations, so the laws of the log hold in every
    state. */
module MachineHistory {
  import opened Prelude
  import opened Models
  import opened Facade
  import opened Executor
  import opened Machine
  import Agreement
  import Audit
  import Effects
  import History
  import Rebuild
  import Recovery
  import Statuses
  import Target

  ghost predicate Performs(s: Store, t: Store, cfg: Config, c: Option<Stamped>) {
    t == (if c.None? then s else After(s, c.value, cfg)) && (c.Some? ==> Audit.Disciplined(c.value.op))
  }

  lemma AnswersDisciplined(c: ToolCall, replay: bool, a: Answer)
    ensures var args := AnswerArgs(c, replay, a); args.clearPending || IsOpen(ResolveStatus(args.status, args.result))
  {
  }

  lemma FindingsDisciplined(p: Recovery.Pass, id: ExecId, r: ExternalResult)
    requires Recovery.Finding(p, id, r).Some?
    ensures var args := Recovery.FindingArgs(p, id, r);
      args.clearPending || IsOpen(ResolveStatus(args.status, args.result))
  {
    hide Recovery.VerifiedPayload;
  }

  lemma CallPerforms(env: Env, s: Store, c: ToolCall, pc: Pc, answer: Answer, now: real, ck: string)
    returns (op: Option<Stamped>)
    ensures Performs(s, Step(s, IdOf(env, c), c, pc, answer, env.dispatchReads, env.cfg, now, ck).0, env.cfg, op)
  {
    var id, run := IdOf(env, c), c.ident.run;
    op := None;
    hide IdOf, RecordToolIntent, RecordToolDispatch, RecordToolResult, AnswerArgs;
    match pc
    case AtIntent => op := Some(Stamped(OpIntent(run, c.ident.item, id, c.ident.tool, c.op, c.ident.args), now, ck));
    case AtDispatch => op := Some(Stamped(OpDispatch(run, id), now, ck));
    case AtRecord(replay, a) =>
      AnswersDisciplined(c, replay, a);
      op := Some(Stamped(OpResult(run, id, AnswerArgs(c, replay, a)), now, ck));
    case _ =>
  }

  lemma PassPerforms(env: Env, s: Sys, pid: nat, p: Recovery.Pass, todo: seq<Candidate>, phase: Phase, now: real,
                     ck: string) returns (op: Option<Stamped>)
    requires todo != []
    ensures Performs(s.store, AdvancePass(env, s, pid, p, todo, phase, now, ck).store, env.cfg, op)
  {
    op := None;
    NothingPerformed(s.store, env.cfg);
    if todo[0].record.Some? {
      match phase
      case Judging =>
      case Storing => op := StorePerforms(env, s, pid, p, todo, now, ck);
      case Reconciling(r) => op := RepairPerforms(env, s, pid, p, todo, r, now, ck);
    }
    hide RecordToolResult, RecordContextMessage, Recovery.Finding, Recovery.FindingArgs, Recovery.ToolMessage,
         Recovery.HasToolMessage, Performs;
  }

  lemma StorePerforms(env: Env, s: Sys, pid: nat, p: Recovery.Pass, todo: seq<Candidate>, now: real, ck: string)
    returns (op: Option<Stamped>)
    requires todo != [] && todo[0].record.Some?
    ensures Performs(s.store, AdvancePass(env, s, pid, p, todo, Storing, now, ck).store, env.cfg, op)
  {
    var id, r := todo[0].id, todo[0].record.value;
    op := None;
    hide RecordToolResult, Recovery.Finding, Recovery.FindingArgs;
    if Recovery.Finding(p, id, r).Some? {
      FindingsDisciplined(p, id, r);
      op := Some(Stamped(OpResult(p.run, id, Recovery.FindingArgs(p, id, r)), now, ck));
      AfterResult(s.store, p.run, id, Recovery.FindingArgs(p, id, r), now, env.cfg, ck);
    }
    hide After, Audit.Disciplined, StatusOf;
  }

  lemma AfterResult(s: Store, run: RunId, id: ExecId, args: ResultArgs, now: real, cfg: Config, ck: string)
    requires args.clearPending || IsOpen(ResolveStatus(args.status, args.result))
    ensures var c := Stamped(OpResult(run, id, args), now, ck);
      var r := RecordToolResult(s, run, id, args, now, cfg, ck);
      After(s, c, cfg) == (if r.Ok? then r.value else s) && Audit.Disciplined(c.op)
  {
    hide RecordToolResult;
  }

  lemma RepairPerforms(env: Env, s: Sys, pid: nat, p: Recovery.Pass, todo: seq<Candidate>, r: ExternalResult, now: real,
                       ck: string) returns (op: Option<Stamped>)
    requires todo != [] && todo[0].record.Some?
    ensures Performs(s.store, AdvancePass(env, s, pid, p, todo, Reconciling(r), now, ck).store, env.cfg, op)
  {
    op := None;
    hide RecordContextMessage, Recovery.ToolMessage, Recovery.HasToolMessage;
    if r.response.Some? && p.run in s.store.contexts
      && !Recovery.HasToolMessage(s.store.contexts[p.run].messages, todo[0].id)
    {
      op := Some(Stamped(OpMessage(p.run, Recovery.ToolMessage(todo[0].id, r)), now, ck));
    }
  }

  lemma NextPerforms(env: Env, s: Sys, a: ActionKind) returns (op: Option<Stamped>)
    ensures Performs(s.store, Next(env, s, a).store, env.cfg, op)
  {
    op := None;
    hide Step, AdvancePass, After, IdOf, Performs, Recovery.Candidates;
    NothingPerformed(s.store, env.cfg);
    match a
    case Advance(pid, answer, now, ck) =>
      if pid in s.procs {
        match s.procs[pid]
        case Calling(c, pc) => op := CallPerforms(env, s.store, c, pc, answer, now, ck);
        case Recovering(p, todo, phase) => if todo != [] { op := PassPerforms(env, s, pid, p, todo, phase, now, ck); }
      }
    case Work(work, now, ck) =>
      if Standalone(work) && (env.single ==> Idle(s, work.run)) {
        op := Some(Stamped(work, now, ck));
        StandaloneDisciplined(s.store, op.value, env.cfg);
      }
    case _ =>
  }

  lemma NothingPerformed(s: Store, cfg: Config)
    ensures Performs(s, s, cfg, None)
  {
  }

  lemma StandaloneDisciplined(s: Store, c: Stamped, cfg: Config)
    requires Standalone(c.op)
    ensures Performs(s, After(s, c, cfg), cfg, Some(c))
  {
    hide After;
  }

  lemma {:induction false} MachineOps(env: Env, d: Target.Data, actions: seq<ActionKind>) returns (ops: seq<Stamped>)
    ensures Run(env, Initial(d), actions).store == RunOps(EMPTY, ops, env.cfg)
    ensures forall i :: 0 <= i < |ops| ==> Audit.Disciplined(ops[i].op)
  {
    hide Next, After, Audit.Disciplined;
    ops := [];
    if actions != [] {
      var rest := actions[..|actions| - 1];
      ops := MachineOps(env, d, rest);
      var op := NextPerforms(env, Run(env, Initial(d), rest), actions[|actions| - 1]);
      if op.Some? {
        var longer := ops + [op.value];
        assert longer[..|longer| - 1] == ops;
        ops := longer;
      }
    }
  }

  /** In every reachable state, with any number of runners: log and projections agree, statuses were reached legally,
      and the audit has nothing to report. */
  lemma {:induction false} EveryStateAudited(env: Env, d: Target.Data, actions: seq<ActionKind>, run: RunId)
    requires env.cfg.dedup
    ensures var s := Run(env, Initial(d), actions).store; History.Sound(s, true) && Audit.Clean(s, run)
  {
    hide *;
    var ops := MachineOps(env, d, actions);
    History.HistorySound(ops, env.cfg);
    Audit.AuditStaysSilent(ops, env.cfg, run);
  }

  /** In every reachable state, with any number of runners and resets included: a pending list never repeats an id and
      holds only open executions of its run. */
  lemma {:induction false} PendingNeverWrong(env: Env, d: Target.Data, actions: seq<ActionKind>)
    requires env.cfg.dedup
    ensures var s := Run(env, Initial(d), actions).store;
      Audit.PendingOpen(s) && forall run :: NoDup(Effects.PendingOf(s, run))
  {
    var ops := MachineOps(env, d, actions);
    hide *;
    Audit.HistoryPendingOpen(ops, env.cfg);
    History.HistorySound(ops, env.cfg);
    SoundNoDup(RunOps(EMPTY, ops, env.cfg));
  }

  lemma SoundNoDup(s: Store)
    requires History.Sound(s, true)
    ensures forall run :: NoDup(Effects.PendingOf(s, run))
  {
    hide Rebuild.Faithful, Statuses.Traced, Agreement.PlanOk;
    forall run ensures NoDup(Effects.PendingOf(s, run)) { assert Agreement.RunAgrees(s, run); }
  }
}
