/** The logging facade as the object it is: one transaction per operation, events before projections, rollback on any
    error. */
module Logging {
  import opened Prelude
  import opened Json
  import opened Models
  import opened Facade
  import Context
  import NewPlans
  import Planner

  /** A raising operation leaves everything, its own events included, as it was. */
  function Settle(before: Store, after: Outcome<Store>): Store {
    if after.Ok? then after.value else before
  }

  class LoggingService {
    const cfg: Config
    var log: seq<LogEntry>
    var checkpoints: seq<Checkpoint>
    var plans: map<RunId, Planner.Plan>
    var contexts: map<RunId, Context.Snapshot>
    var records: map<ExecId, ExternalResult>

    function State(): Store
      reads this
    {
      Store(log, checkpoints, plans, contexts, records)
    }

    constructor (cfg: Config, s: Store)
      ensures this.cfg == cfg && State() == s
    {
      this.cfg := cfg;
      log, checkpoints, plans, contexts, records := s.log, s.checkpoints, s.plans, s.contexts, s.records;
    }

    /** The exception path of a transaction. */
    method Rollback(saved: Store)
      modifies this
      ensures State() == saved
    {
      log, checkpoints, plans, contexts, records := saved.log, saved.checkpoints, saved.plans, saved.contexts,
        saved.records;
    }

    method AppendEvent(run: RunId, e: Event)
      modifies this`log
      ensures State() == Append(old(State()), run, e)
    {
      log := log + [LogEntry(run, e)];
    }

    method SyncContextWithPlanner(run: RunId, p: Planner.Plan) returns (ok: bool)
      modifies this
      ensures ok <==> Synchronize(old(State()), run, p).Ok?
      ensures ok ==> State() == Synchronize(old(State()), run, p).value
    {
      if run !in contexts { return false; }
      AppendEvent(run, Synchronized(p.version, p.cursor));
      contexts := contexts[run := Context.SyncPlanner(contexts[run], p.version, p.cursor)];
      return true;
    }

    method CheckpointLocked(run: RunId, id: string, kind: string, withResults: bool)
      modifies this
      ensures State() == WriteCheckpoint(old(State()), run, id, kind, withResults)
    {
      var last := LatestSeq(log, run);
      if last == 0 { return; }
      var results := if withResults && run in contexts then Some(RecordsOf(State(), run)) else None;
      checkpoints :=
        checkpoints + [Checkpoint(id, run, last, kind, Lookup(plans, run), Lookup(contexts, run), results)];
      if run in contexts {
        contexts := contexts[run := Context.CheckpointContext(contexts[run], last)];
      }
      AppendEvent(run, CheckpointWritten(id, last, kind));
    }

    method MaybeAutoCheckpoint(run: RunId, id: string)
      modifies this
      ensures State() == AutoCheckpoint(old(State()), run, cfg, id)
    {
      if cfg.interval <= 0 { return; }
      var last := LatestSeq(log, run);
      if last == 0 || last % cfg.interval != 0 { return; }
      CheckpointLocked(run, id, CONTEXT_KIND, false);
    }

    method StartRun(run: RunId, seed: seq<Context.Message>, source: string, items: seq<Planner.RawItem>,
                    memory: map<string, Json>, force: bool, ck: string) returns (ok: bool)
      modifies this
      ensures var r := Facade.StartRun(old(State()), run, seed, source, items, memory, force, cfg, ck);
        ok == r.Ok? && State() == Settle(old(State()), r)
      ensures ok && NewPlans.IsNew(old(State()), run, force) ==>
        NewPlans.Proper(items) && run in plans && NewPlans.PlanFor(plans[run], source, items)
    {
      hide AutoCheckpoint, Planner.CreatePlan, Context.InitContext, LatestSeq, NewPlans.Proper, NewPlans.PlanFor,
           NewPlans.InRange;
      ghost var before := State();
      if run in plans && run in contexts && !force { return true; }
      var saved := State();
      AppendEvent(run, RunStarted(|seed|, |items|));
      AppendEvent(run, PlanCreated(source, items));
      var plan := Planner.CreatePlan(source, items);
      if plan.Err? { Rollback(saved); return false; }
      plans := plans[run := plan.value];
      AppendEvent(run, ContextInitialized(seed, memory));
      if run !in contexts || force {
        var context := Context.InitContext(seed, memory);
        if context.Err? { Rollback(saved); return false; }
        contexts := contexts[run := context.value];
      }
      assert contexts == saved.contexts[run := contexts[run]];
      ok := SyncContextWithPlanner(run, plan.value);
      assert ok;
      MaybeAutoCheckpoint(run, ck);
      NewPlans.StartedPlan(before, run, seed, source, items, memory, force, cfg, ck);
    }

    method AppendMessage(run: RunId, m: Context.Message) returns (ok: bool)
      modifies this
      ensures ok == LogMessage(old(State()), run, m).Ok?
      ensures ok ==> State() == LogMessage(old(State()), run, m).value
    {
      AppendEvent(run, MessageAppended(m));
      if run !in contexts { return false; }
      var after := Context.AppendMessage(contexts[run], m);
      if after.Err? { return false; }
      contexts := contexts[run := after.value];
      return true;
    }

    method RecordContextMessage(run: RunId, m: Context.Message, ck: string) returns (ok: bool)
      modifies this
      ensures var r := Facade.RecordContextMessage(old(State()), run, m, cfg, ck);
        ok == r.Ok? && State() == Settle(old(State()), r)
    {
      var saved := State();
      ok := AppendMessage(run, m);
      if !ok { Rollback(saved); return; }
      MaybeAutoCheckpoint(run, ck);
    }

    method RecordLlmTurn(run: RunId, item: string, output: string, text: string, meta: map<string, Json>, ck: string)
      returns (ok: bool)
      modifies this
      ensures var r := Facade.RecordLlmTurn(old(State()), run, item, output, text, meta, cfg, ck);
        ok == r.Ok? && State() == Settle(old(State()), r)
    {
      var saved := State();
      AppendEvent(run, LlmOutputAttached(item, output));
      if run !in plans { Rollback(saved); return false; }
      var plan := Planner.AttachOutput(plans[run], item, output);
      if plan.Err? { Rollback(saved); return false; }
      plans := plans[run := plan.value];
      ok := AppendMessage(run, Context.Message("assistant", text, None, None, meta));
      if !ok { Rollback(saved); return; }
      ok := SyncContextWithPlanner(run, plan.value);
      assert ok;
      MaybeAutoCheckpoint(run, ck);
    }

    method RecordToolIntent(run: RunId, item: string, id: ExecId, tool: string, op: OperationType, request: Payload,
                            now: real, ck: string)
      returns (ok: bool)
      modifies this
      ensures var r := Facade.RecordToolIntent(old(State()), run, item, id, tool, op, request, now, cfg, ck);
        ok == r.Ok? && State() == Settle(old(State()), r)
    {
      hide AutoCheckpoint, Context.SyncPlanner, Planner.AttachRef, HasIntent, Context.PendingWith, Last, LatestSeq;
      if cfg.dedup {
        if id in records && records[id].run != run { return false; }
        if id in records || HasIntent(log, run, id) { return run in plans && run in contexts; }
      }
      var saved := State();
      AppendEvent(run, IntentRecorded(id, item, tool, op, request));
      if run !in plans { Rollback(saved); return false; }
      var plan := Planner.AttachRef(plans[run], item, id);
      if plan.Err? { Rollback(saved); return false; }
      plans := plans[run := plan.value];
      if run !in contexts { Rollback(saved); return false; }
      var pending := Context.PendingWith(contexts[run].pending, id);
      AppendEvent(run, PendingSet(Last(pending), pending));
      var context := Context.AddPending(contexts[run], id);
      if context.Err? { Rollback(saved); return false; }
      contexts := contexts[run := context.value];
      if id !in records {
        records := records[id := ExternalResult(run, Some(item), tool, op, request, None, ResultUnknown, IntentLogged,
                                                None, now)];
      }
      ok := SyncContextWithPlanner(run, plan.value);
      assert ok;
      MaybeAutoCheckpoint(run, ck);
    }

    method RecordToolDispatch(run: RunId, id: ExecId, now: real, ck: string) returns (ok: bool)
      modifies this
      ensures var r := Facade.RecordToolDispatch(old(State()), run, id, now, cfg, ck);
        ok == r.Ok? && State() == Settle(old(State()), r)
    {
      if id !in records { return false; }
      var cached := records[id];
      if cached.run != run || !Allowed(cached.status, Dispatched) { return false; }
      var saved := State();
      AppendEvent(run, DispatchRecorded(id, cached.tool));
      if run !in contexts { Rollback(saved); return false; }
      records := records[id := cached.(status := Dispatched, updatedAt := now)];
      MaybeAutoCheckpoint(run, ck);
      return true;
    }

    method RecordToolResult(run: RunId, id: ExecId, args: ResultArgs, now: real, ck: string) returns (ok: bool)
      modifies this
      ensures var r := Facade.RecordToolResult(old(State()), run, id, args, now, cfg, ck);
        ok == r.Ok? && State() == Settle(old(State()), r)
    {
      hide AutoCheckpoint, ResultRecordOf, Allowed, ResolveStatus, Last, LatestSeq;
      var status := ResolveStatus(args.status, args.result);
      if id in records && (records[id].run != run || !Allowed(records[id].status, status)) { return false; }
      var record := ResultRecordOf(Lookup(records, id), run, args, now);
      if record.Err? { return false; }
      var r := record.value;
      var saved := State();
      AppendEvent(run, ResultRecorded(id, r.result, r.status, r.tool, r.op, r.item, r.response.Some?, r.error));
      if run !in contexts { Rollback(saved); return false; }
      records := records[id := r];
      if args.clearPending && status != IntentLogged && status != Dispatched && id in contexts[run].pending {
        var after := Without(contexts[run].pending, id);
        AppendEvent(run, PendingSet(Last(after), after));
        contexts := contexts[run := Context.ClearPending(contexts[run], id)];
      }
      MaybeAutoCheckpoint(run, ck);
      return true;
    }

    method AdvancePlanItem(run: RunId, item: string, status: string, note: Option<string>, ck: string)
      returns (ok: bool)
      modifies this
      ensures var r := Facade.AdvancePlanItem(old(State()), run, item, status, note, cfg, ck);
        ok == r.Ok? && State() == Settle(old(State()), r)
    {
      var saved := State();
      AppendEvent(run, ItemStatusUpdated(item, status, note));
      if run !in plans { Rollback(saved); return false; }
      var plan := Planner.UpdateStatus(plans[run], item, status, note);
      if plan.Err? { Rollback(saved); return false; }
      plans := plans[run := plan.value];
      ok := SyncContextWithPlanner(run, plan.value);
      if !ok { Rollback(saved); return; }
      MaybeAutoCheckpoint(run, ck);
    }

    method SetActivePlanItem(run: RunId, item: string, ck: string) returns (ok: bool)
      modifies this
      ensures var r := Facade.SetActivePlanItem(old(State()), run, item, cfg, ck);
        ok == r.Ok? && State() == Settle(old(State()), r)
    {
      var saved := State();
      AppendEvent(run, ActiveItemSet(item));
      if run !in plans { Rollback(saved); return false; }
      var plan := Planner.SetActive(plans[run], item);
      if plan.Err? { Rollback(saved); return false; }
      plans := plans[run := plan.value];
      ok := SyncContextWithPlanner(run, plan.value);
      if !ok { Rollback(saved); return; }
      MaybeAutoCheckpoint(run, ck);
    }

    method WriteRunCheckpoint(run: RunId, kind: string, withResults: bool, ck: string) returns (ok: bool)
      modifies this
      ensures var r := CheckpointRun(old(State()), run, kind, withResults, ck);
        ok == r.Ok? && State() == Settle(old(State()), r)
    {
      if LatestSeq(log, run) > 0 && kind == "" { return false; }
      CheckpointLocked(run, ck, kind, withResults);
      return true;
    }
  }
}
