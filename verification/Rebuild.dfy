/** The log alone determines the projections: folding a run's events gives its plan and its context. */
module Rebuild {
  import opened Prelude
  import opened Models
  import opened Facade
  import Context
  import Planner
  import Json

  datatype Projection = Projection(plan: Option<Planner.Plan>, context: Option<Context.Snapshot>)

  const NOTHING := Projection(None, None)

  function Current(s: Store, run: RunId): Projection {
    Projection(Lookup(s.plans, run), Lookup(s.contexts, run))
  }

  function WithPlan(p: Projection, after: Outcome<Planner.Plan>): Projection {
    match after
    case Ok(plan) => p.(plan := Some(plan))
    case Err(_) => p
  }

  function WithContext(p: Projection, after: Outcome<Context.Snapshot>): Projection {
    match after
    case Ok(context) => p.(context := Some(context))
    case Err(_) => p
  }

  /** The effect of one event on the projections of its run, read off the event alone. */
  function Apply(p: Projection, e: Event): Projection {
    match e
    case RunStarted(_, _) => p
    case PlanCreated(source, items) => WithPlan(p, Planner.CreatePlan(source, items))
    case LlmOutputAttached(item, output) =>
      if p.plan.None? then p else WithPlan(p, Planner.AttachOutput(p.plan.value, item, output))
    case ItemStatusUpdated(item, status, note) =>
      if p.plan.None? then p else WithPlan(p, Planner.UpdateStatus(p.plan.value, item, status, note))
    case ActiveItemSet(item) => if p.plan.None? then p else WithPlan(p, Planner.SetActive(p.plan.value, item))
    case ContextInitialized(seed, memory) => WithContext(p, Context.InitContext(seed, memory))
    case MessageAppended(m) => if p.context.None? then p else WithContext(p, Context.AppendMessage(p.context.value, m))
    case PendingSet(last, ids) =>
      if p.context.None? then p else p.(context := Some(p.context.value.(pendingLast := last, pending := ids)))
    case Synchronized(version, cursor) =>
      if p.context.None? then p else p.(context := Some(Context.SyncPlanner(p.context.value, version, cursor)))
    case IntentRecorded(id, item, _, _, _) =>
      if p.plan.None? then p else WithPlan(p, Planner.AttachRef(p.plan.value, item, id))
    case DispatchRecorded(_, _) => p
    case ResultRecorded(_, _, _, _, _, _, _, _) => p
    case CheckpointWritten(_, seqId, _) =>
      if p.context.None? then p else p.(context := Some(Context.CheckpointContext(p.context.value, seqId)))
  }

  function Fold(p: Projection, es: seq<Event>): Projection {
    if es == [] then p else Apply(Fold(p, es[..|es| - 1]), es[|es| - 1])
  }

  lemma {:induction false} FoldConcat(p: Projection, a: seq<Event>, b: seq<Event>)
    ensures Fold(p, a + b) == Fold(Fold(p, a), b)
  {
    hide Apply;
    if b == [] {
      assert a + b == a;
    } else {
      assert (a + b)[..|a + b| - 1] == a + b[..|b| - 1];
      FoldConcat(p, a, b[..|b| - 1]);
    }
  }

  lemma {:induction false} EventsConcat(a: seq<LogEntry>, b: seq<LogEntry>, run: RunId)
    ensures EventsOf(a + b, run) == EventsOf(a, run) + EventsOf(b, run)
  {
    if b == [] {
      assert a + b == a;
    } else {
      assert (a + b)[..|a + b| - 1] == a + b[..|b| - 1];
      EventsConcat(a, b[..|b| - 1], run);
    }
  }

  lemma EventsAppend(log: seq<LogEntry>, r: RunId, e: Event, run: RunId)
    ensures EventsOf(log + [LogEntry(r, e)], run) == EventsOf(log, run) + if r == run then [e] else []
  {
    assert (log + [LogEntry(r, e)])[..|log|] == log;
  }

  /** A checkpoint holds what the log said about its run at its sequence number. */
  predicate SnapshotFaithful(log: seq<LogEntry>, c: Checkpoint) {
    && 0 < c.seqId <= |log| && log[c.seqId - 1].run == c.run
    && Projection(c.plan, c.context) == Fold(NOTHING, EventsOf(log[..c.seqId], c.run))
  }

  ghost predicate Faithful(s: Store) {
    && (forall run :: Fold(NOTHING, EventsOf(s.log, run)) == Current(s, run))
    && (forall i :: 0 <= i < |s.checkpoints| ==> SnapshotFaithful(s.log, s.checkpoints[i]))
  }

  lemma SnapshotStays(log: seq<LogEntry>, entry: LogEntry, c: Checkpoint)
    requires SnapshotFaithful(log, c)
    ensures SnapshotFaithful(log + [entry], c)
  {
    assert (log + [entry])[..c.seqId] == log[..c.seqId];
  }

  /** One event together with the change it announces. */
  lemma Logged(s: Store, run: RunId, e: Event, t: Store)
    requires Faithful(s)
    requires t.log == s.log + [LogEntry(run, e)] && t.checkpoints == s.checkpoints
    requires Current(t, run) == Apply(Current(s, run), e)
    requires forall r :: r != run ==> Current(t, r) == Current(s, r)
    ensures Faithful(t)
  {
    hide Apply, SnapshotFaithful, Current;
    forall r ensures Fold(NOTHING, EventsOf(t.log, r)) == Current(t, r) {
      EventsAppend(s.log, run, e, r);
      if r == run {
        assert (EventsOf(s.log, run) + [e])[..|EventsOf(s.log, run)|] == EventsOf(s.log, run);
      } else {
        assert EventsOf(s.log, r) + [] == EventsOf(s.log, r);
      }
    }
    forall i | 0 <= i < |t.checkpoints| ensures SnapshotFaithful(t.log, t.checkpoints[i]) {
      SnapshotStays(s.log, LogEntry(run, e), s.checkpoints[i]);
    }
  }

  /** The events of executions say nothing about plan and context. */
  lemma ExecutionStep(s: Store, run: RunId, e: Event)
    requires Faithful(s) && (e.DispatchRecorded? || e.ResultRecorded?)
    ensures Faithful(Append(s, run, e))
  {
    assert Current(Append(s, run, e), run) == Apply(Current(s, run), e);
    hide Faithful, Apply;
    Logged(s, run, e, Append(s, run, e));
  }

  lemma {:induction false} UpToLatest(log: seq<LogEntry>, run: RunId)
    ensures EventsOf(log[..LatestSeq(log, run)], run) == EventsOf(log, run)
    ensures LatestSeq(log, run) == 0 ==> EventsOf(log, run) == []
  {
    if log != [] {
      if log[|log| - 1].run == run {
        assert log[..|log|] == log;
      } else {
        var shorter := log[..|log| - 1];
        UpToLatest(shorter, run);
        assert log[..LatestSeq(log, run)] == shorter[..LatestSeq(log, run)];
      }
    }
  }

  lemma CheckpointStep(s: Store, run: RunId, id: string, kind: string, withResults: bool)
    requires Faithful(s)
    ensures Faithful(WriteCheckpoint(s, run, id, kind, withResults))
  {
    var last := LatestSeq(s.log, run);
    if last > 0 {
      UpToLatest(s.log, run);
      var c := Checkpoint(id, run, last, kind, Lookup(s.plans, run), Lookup(s.contexts, run),
                          ResultsIf(s, run, withResults));
      var written := s.(checkpoints := s.checkpoints + [c]);
      assert SnapshotFaithful(s.log, c) by { assert Current(s, run) == Projection(c.plan, c.context); }
      WrittenFaithful(s, c, written);
      Logged(written, run, CheckpointWritten(id, last, kind), WriteCheckpoint(s, run, id, kind, withResults));
    }
  }

  lemma WrittenFaithful(s: Store, c: Checkpoint, t: Store)
    requires Faithful(s) && SnapshotFaithful(s.log, c) && t == s.(checkpoints := s.checkpoints + [c])
    ensures Faithful(t)
  {
    hide SnapshotFaithful, Fold, EventsOf;
    forall run ensures Current(t, run) == Current(s, run) {}
  }

  lemma AutoStep(s: Store, run: RunId, cfg: Config, id: string)
    requires Faithful(s)
    ensures Faithful(AutoCheckpoint(s, run, cfg, id))
  {
    CheckpointStep(s, run, id, CONTEXT_KIND, false);
  }

  lemma SyncStep(s: Store, run: RunId, p: Planner.Plan)
    requires Faithful(s)
    ensures Synchronize(s, run, p).Ok? ==> Faithful(Synchronize(s, run, p).value)
  {
    if run in s.contexts {
      Logged(s, run, Synchronized(p.version, p.cursor), Synchronize(s, run, p).value);
    }
  }

  lemma PlanStep(s: Store, run: RunId, e: Event, p: Planner.Plan)
    requires Faithful(s) && Apply(Current(s, run), e) == Current(s, run).(plan := Some(p))
    ensures Faithful(PutPlan(Append(s, run, e), run, p))
  {
    Logged(s, run, e, PutPlan(Append(s, run, e), run, p));
  }

  lemma ContextStep(s: Store, run: RunId, e: Event, c: Context.Snapshot)
    requires Faithful(s) && Apply(Current(s, run), e) == Current(s, run).(context := Some(c))
    ensures Faithful(PutContext(Append(s, run, e), run, c))
  {
    Logged(s, run, e, PutContext(Append(s, run, e), run, c));
  }

  lemma MessageStep(s: Store, run: RunId, m: Context.Message)
    requires Faithful(s)
    ensures LogMessage(s, run, m).Ok? ==> Faithful(LogMessage(s, run, m).value)
  {
    if run in s.contexts && Context.AppendMessage(s.contexts[run], m).Ok? {
      ContextStep(s, run, MessageAppended(m), Context.AppendMessage(s.contexts[run], m).value);
    }
  }

  // ---------------------------------------------------------------- every operation keeps the log faithful

  lemma StartFaithful(s: Store, run: RunId, seed: seq<Context.Message>, source: string, items: seq<Planner.RawItem>,
                      memory: map<string, Json.Json>, force: bool, cfg: Config, ck: string)
    requires Faithful(s) && s.plans.Keys == s.contexts.Keys
    ensures var r := StartRun(s, run, seed, source, items, memory, force, cfg, ck); r.Ok? ==> Faithful(r.value)
  {
    hide Faithful, Synchronize, AutoCheckpoint, Planner.CreatePlan;
    if !(run in s.plans && !force) && Planner.CreatePlan(source, items).Ok? && Context.InitContext(seed, memory).Ok? {
      var plan, context := Planner.CreatePlan(source, items).value, Context.InitContext(seed, memory).value;
      var started := Append(s, run, RunStarted(|seed|, |items|));
      Logged(s, run, RunStarted(|seed|, |items|), started);
      var planned := PutPlan(Append(started, run, PlanCreated(source, items)), run, plan);
      PlanStep(started, run, PlanCreated(source, items), plan);
      ContextStep(planned, run, ContextInitialized(seed, memory), context);
      var t := PutContext(Append(planned, run, ContextInitialized(seed, memory)), run, context);
      SyncStep(t, run, plan);
      if Synchronize(t, run, plan).Ok? { AutoStep(Synchronize(t, run, plan).value, run, cfg, ck); }
    }
  }

  lemma PlanOpFaithful(s: Store, run: RunId, e: Event, after: Outcome<Planner.Plan>, cfg: Config, ck: string)
    requires Faithful(s) && run in s.plans && run in s.contexts
    requires after.Ok? ==> Apply(Current(s, run), e) == Current(s, run).(plan := Some(after.value))
    ensures after.Ok? ==>
      var a := PutPlan(Append(s, run, e), run, after.value); var t := Synchronize(a, run, after.value);
      t.Ok? && Faithful(a) && Faithful(t.value) && Faithful(AutoCheckpoint(t.value, run, cfg, ck))
  {
    if after.Ok? {
      hide Faithful, Apply, Current, AutoCheckpoint;
      PlanStep(s, run, e, after.value);
      var a := PutPlan(Append(s, run, e), run, after.value);
      SyncStep(a, run, after.value);
      AutoStep(Synchronize(a, run, after.value).value, run, cfg, ck);
    }
  }

  lemma TurnFaithful(s: Store, run: RunId, item: string, output: string, text: string, meta: map<string, Json.Json>,
                     cfg: Config, ck: string)
    requires Faithful(s)
    ensures var r := RecordLlmTurn(s, run, item, output, text, meta, cfg, ck); r.Ok? ==> Faithful(r.value)
  {
    hide Faithful, Synchronize, AutoCheckpoint, Planner.AttachOutput, LogMessage;
    if run in s.plans && Planner.AttachOutput(s.plans[run], item, output).Ok? {
      var plan := Planner.AttachOutput(s.plans[run], item, output).value;
      PlanStep(s, run, LlmOutputAttached(item, output), plan);
      var a := PutPlan(Append(s, run, LlmOutputAttached(item, output)), run, plan);
      var m := Context.Message("assistant", text, None, None, meta);
      MessageStep(a, run, m);
      if LogMessage(a, run, m).Ok? {
        var b := LogMessage(a, run, m).value;
        MessageKeepsPlans(a, run, m);
        SyncStep(b, run, b.plans[run]);
        if Synchronize(b, run, b.plans[run]).Ok? { AutoStep(Synchronize(b, run, b.plans[run]).value, run, cfg, ck); }
      }
    }
  }

  lemma MessageKeepsPlans(s: Store, run: RunId, m: Context.Message)
    ensures LogMessage(s, run, m).Ok? ==>
      LogMessage(s, run, m).value.plans == s.plans && LogMessage(s, run, m).value.records == s.records
  {
  }

  lemma RecordsIrrelevant(s: Store, t: Store)
    requires Faithful(s) && t == s.(records := t.records)
    ensures Faithful(t)
  {
    hide SnapshotFaithful, Fold, EventsOf;
    forall run ensures Current(t, run) == Current(s, run) {}
  }

  lemma PendingStep(s: Store, run: RunId, pending: seq<ExecId>)
    requires Faithful(s) && run in s.contexts
    ensures Faithful(PutContext(Append(s, run, PendingSet(Last(pending), pending)), run,
                                Context.SetPending(s.contexts[run], pending)))
  {
    ContextStep(s, run, PendingSet(Last(pending), pending), Context.SetPending(s.contexts[run], pending));
  }

  lemma IntentFaithful(s: Store, run: RunId, item: string, id: ExecId, tool: string, op: OperationType,
                       request: Payload, now: real, cfg: Config, ck: string)
    requires Faithful(s)
    ensures var r := RecordToolIntent(s, run, item, id, tool, op, request, now, cfg, ck); r.Ok? ==> Faithful(r.value)
  {
    hide Faithful, IntentTail, Planner.AttachRef, IntentExists;
    var e := IntentRecorded(id, item, tool, op, request);
    if run in s.plans && Planner.AttachRef(s.plans[run], item, id).Ok? {
      var plan := Planner.AttachRef(s.plans[run], item, id).value;
      PlanStep(s, run, e, plan);
      IntentTailFaithful(PutPlan(Append(s, run, e), run, plan), run, item, id, tool, op, request, now, cfg, ck);
    }
  }

  lemma IntentTailFaithful(a: Store, run: RunId, item: string, id: ExecId, tool: string, op: OperationType,
                           request: Payload, now: real, cfg: Config, ck: string)
    requires Faithful(a) && run in a.plans
    ensures var r := IntentTail(a, run, item, id, tool, op, request, now, cfg, ck); r.Ok? ==> Faithful(r.value)
  {
    hide Faithful, Synchronize, AutoCheckpoint;
    if run in a.contexts && id != "" {
      var pending := Context.PendingWith(a.contexts[run].pending, id);
      var b := PutContext(Append(a, run, PendingSet(Last(pending), pending)), run,
                          Context.SetPending(a.contexts[run], pending));
      PendingStep(a, run, pending);
      var c := if id in b.records then b else PutRecord(b, id, IntentRecord(run, item, tool, op, request, now));
      RecordsIrrelevant(b, c);
      SyncStep(c, run, c.plans[run]);
      if Synchronize(c, run, c.plans[run]).Ok? { AutoStep(Synchronize(c, run, c.plans[run]).value, run, cfg, ck); }
    }
  }

  lemma DispatchFaithful(s: Store, run: RunId, id: ExecId, now: real, cfg: Config, ck: string)
    requires Faithful(s)
    ensures var r := RecordToolDispatch(s, run, id, now, cfg, ck); r.Ok? ==> Faithful(r.value)
  {
    if id in s.records {
      var e := DispatchRecorded(id, s.records[id].tool);
      var a := Append(s, run, e);
      ExecutionStep(s, run, e);
      hide Faithful, AutoCheckpoint;
      var b := PutRecord(a, id, s.records[id].(status := Dispatched, updatedAt := now));
      RecordsIrrelevant(a, b);
      AutoStep(b, run, cfg, ck);
    }
  }

  lemma ResultFaithful(s: Store, run: RunId, id: ExecId, args: ResultArgs, now: real, cfg: Config, ck: string)
    requires Faithful(s)
    ensures var r := RecordToolResult(s, run, id, args, now, cfg, ck); r.Ok? ==> Faithful(r.value)
  {
    var record := ResultRecordOf(Lookup(s.records, id), run, args, now);
    if record.Ok? {
      var r := record.value;
      var e := ResultRecorded(id, r.result, r.status, r.tool, r.op, r.item, r.response.Some?, r.error);
      var a := Append(s, run, e);
      ExecutionStep(s, run, e);
      hide Faithful, AutoCheckpoint, ResultRecordOf, ShouldClear, ResolveStatus;
      var b := PutRecord(a, id, r);
      RecordsIrrelevant(a, b);
      ClearFaithful(b, run, id);
      var c := if ShouldClear(args) then LogClear(b, run, id) else b;
      AutoStep(c, run, cfg, ck);
    }
  }

  lemma ClearFaithful(s: Store, run: RunId, id: ExecId)
    requires Faithful(s)
    ensures Faithful(LogClear(s, run, id))
  {
    hide Faithful;
    if run in s.contexts && id in s.contexts[run].pending {
      PendingStep(s, run, Without(s.contexts[run].pending, id));
    }
  }

  lemma AdvanceFaithful(s: Store, run: RunId, item: string, status: string, note: Option<string>, cfg: Config,
                        ck: string)
    requires Faithful(s)
    ensures var r := AdvancePlanItem(s, run, item, status, note, cfg, ck); r.Ok? ==> Faithful(r.value)
  {
    hide Faithful, Planner.UpdateStatus, AutoCheckpoint;
    if run in s.plans && run in s.contexts {
      PlanOpFaithful(s, run, ItemStatusUpdated(item, status, note),
                     Planner.UpdateStatus(s.plans[run], item, status, note), cfg, ck);
    }
  }

  lemma ActiveFaithful(s: Store, run: RunId, item: string, cfg: Config, ck: string)
    requires Faithful(s)
    ensures var r := SetActivePlanItem(s, run, item, cfg, ck); r.Ok? ==> Faithful(r.value)
  {
    hide Faithful, Planner.SetActive, AutoCheckpoint;
    if run in s.plans && run in s.contexts {
      PlanOpFaithful(s, run, ActiveItemSet(item), Planner.SetActive(s.plans[run], item), cfg, ck);
    }
  }

  lemma MessageFaithful(s: Store, run: RunId, m: Context.Message, cfg: Config, ck: string)
    requires Faithful(s)
    ensures var r := RecordContextMessage(s, run, m, cfg, ck); r.Ok? ==> Faithful(r.value)
  {
    hide Faithful, LogMessage, AutoCheckpoint;
    MessageStep(s, run, m);
    if LogMessage(s, run, m).Ok? { AutoStep(LogMessage(s, run, m).value, run, cfg, ck); }
  }

  lemma {:induction false} PerformFaithful(s: Store, op: Op, now: real, cfg: Config, ck: string)
    requires Faithful(s) && s.plans.Keys == s.contexts.Keys
    ensures Perform(s, op, now, cfg, ck).Ok? ==> Faithful(Perform(s, op, now, cfg, ck).value)
  {
    hide Faithful, StartRun, RecordContextMessage, RecordLlmTurn, RecordToolIntent, RecordToolDispatch,
         RecordToolResult, AdvancePlanItem, SetActivePlanItem, WriteCheckpoint;
    match op
    case OpStart(run, seed, source, items, memory, force) =>
      StartFaithful(s, run, seed, source, items, memory, force, cfg, ck);
    case OpMessage(run, m) => MessageFaithful(s, run, m, cfg, ck);
    case OpLlmTurn(run, item, output, text, meta) => TurnFaithful(s, run, item, output, text, meta, cfg, ck);
    case OpIntent(run, item, id, tool, kind, request) =>
      IntentFaithful(s, run, item, id, tool, kind, request, now, cfg, ck);
    case OpDispatch(run, id) => DispatchFaithful(s, run, id, now, cfg, ck);
    case OpResult(run, id, args) => ResultFaithful(s, run, id, args, now, cfg, ck);
    case OpAdvance(run, item, status, note) => AdvanceFaithful(s, run, item, status, note, cfg, ck);
    case OpSetActive(run, item) => ActiveFaithful(s, run, item, cfg, ck);
    case OpCheckpoint(run, kind, withResults) => CheckpointStep(s, run, ck, kind, withResults);
  }
}
