/** How a history begins: a run is created, and its calls can be logged. */
module Openings {
  import opened Facade
  import opened Executor
  import opened Machine
  import Context
  import History
  import Identity
  import Planner
  import Progress
  import Statuses
  import Target

  /** Creates the run of the call, with the plan item that the call belongs to. */
  predicate Creates(op: Op, c: ToolCall) {
    && op.OpStart? && op.run == c.ident.run && !op.force
    && Context.InitContext(op.seed, op.memory).Ok?
    && Planner.CreatePlan(op.source, op.items).Ok?
    && Planner.HasId(Planner.CreatePlan(op.source, op.items).value.items, c.ident.item)
  }

  /** The call was never logged, and nothing stands in the way of its intent. */
  ghost predicate Unlogged(env: Env, s: Store, c: ToolCall) {
    && Statuses.Traced(s, true) && Progress.Running(s, c.ident.run)
    && Planner.HasId(s.plans[c.ident.run].items, c.ident.item)
    && IdOf(env, c) !in s.records
  }

  /** After the first action of a history. */
  lemma Opened(env: Env, d: Target.Data, c: ToolCall, op: Op, now: real, ck: string)
    requires env.cfg.dedup && Creates(op, c)
    ensures var s := Next(env, Initial(d), Work(op, now, ck));
      s == Initial(d).(store := s.store) && s.store.records == map[] && Unlogged(env, s.store, c)
  {
    OpenedStore(op, c, env.cfg, now, ck);
    hide IdOf, After, Creates, Statuses.Traced, Progress.Running, Standalone;
    WorkIs(env, Initial(d), op, now, ck);
    hide Next;
  }

  lemma WorkIs(env: Env, s: Sys, op: Op, now: real, ck: string)
    requires Standalone(op) && s.procs == map[]
    ensures Next(env, s, Work(op, now, ck)) == s.(store := After(s.store, Stamped(op, now, ck), env.cfg))
  {
    hide After, Standalone;
  }

  lemma OpenedStore(op: Op, c: ToolCall, cfg: Config, now: real, ck: string)
    requires cfg.dedup && Creates(op, c)
    ensures var s := After(EMPTY, Stamped(op, now, ck), cfg);
      && Standalone(op) && s.records == map[] && Statuses.Traced(s, true) && Progress.Running(s, c.ident.run)
      && Planner.HasId(s.plans[c.ident.run].items, c.ident.item)
  {
    History.EmptySound(true);
    assert Statuses.Traced(EMPTY, true);
    hide StartRun, Planner.CreatePlan, Context.InitContext, Statuses.Traced, Planner.Integrity;
    Statuses.PerformTraced(EMPTY, op, now, cfg, ck);
    Progress.StartGoes(EMPTY, op.run, op.seed, op.source, op.items, op.memory, op.force, cfg, ck);
  }

  /** The intent of such a call is logged whenever it is tried. */
  lemma IntentLogs(env: Env, s: Store, c: ToolCall, now: real, ck: string)
    requires env.cfg.dedup && Unlogged(env, s, c)
    ensures var r := RecordToolIntent(s, c.ident.run, c.ident.item, IdOf(env, c), c.ident.tool, c.op, c.ident.args, now,
                                      env.cfg, ck);
      && r.Ok? && c.ident.run in r.value.contexts && IdOf(env, c) in r.value.records
      && r.value.records[IdOf(env, c)] == IntentRecord(c.ident.run, c.ident.item, c.ident.tool, c.op, c.ident.args, now)
  {
    Progress.IdNotBlank(env.digest, c.ident);
    hide RecordToolIntent, Identity.BuildId, Statuses.Traced, Planner.Integrity;
    Progress.IntentGoes(s, c.ident.run, c.ident.item, IdOf(env, c), c.ident.tool, c.op, c.ident.args, now, env.cfg, ck);
  }
}
