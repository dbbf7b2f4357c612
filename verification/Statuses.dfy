/** The statuses of every execution id, read off the log. */
module Statuses {
  import opened Prelude
  import opened Models
  import opened Facade
  import Context
  import Planner
  import Rebuild

  /** Neither an intent nor a dispatch nor a result. */
  predicate Quiet(e: Event) { !e.IntentRecorded? && !e.DispatchRecorded? && !e.ResultRecorded? }

  /** The status that an event gives to its id. */
  function NewStatus(e: Event): ExecutionStatus
    requires !Quiet(e)
  {
    if e.IntentRecorded? then IntentLogged else if e.DispatchRecorded? then Dispatched else e.status
  }

  /** A repeated intent changes nothing. */
  function Extend(t: seq<ExecutionStatus>, e: Event, id: ExecId): seq<ExecutionStatus> {
    if Quiet(e) || e.id != id || (e.IntentRecorded? && t != []) then t else t + [NewStatus(e)]
  }

  /** The statuses that the events of one run give to `id`, oldest first. */
  function Trace(es: seq<Event>, id: ExecId): seq<ExecutionStatus> {
    if es == [] then [] else Extend(Trace(es[..|es| - 1], id), es[|es| - 1], id)
  }

  /** A path in the transition table. */
  predicate IsPath(t: seq<ExecutionStatus>) {
    forall i :: 0 <= i < |t| - 1 ==> Allowed(t[i], t[i + 1])
  }

  predicate Matches(es: seq<Event>, records: map<ExecId, ExternalResult>, run: RunId, id: ExecId, dedup: bool) {
    var t := Trace(es, id);
    && IsPath(t)
    && (id in records && records[id].run == run ==> Last(t) == Some(records[id].status))
    && (t != [] ==> id in records && (dedup ==> records[id].run == run))
  }

  /** The log of every run gives exactly the statuses of its records, and each of them was reached legally. */
  ghost predicate StatusesFaithful(log: seq<LogEntry>, records: map<ExecId, ExternalResult>, dedup: bool) {
    forall run, id :: Matches(EventsOf(log, run), records, run, id, dedup)
  }

  lemma TraceAppend(es: seq<Event>, e: Event, id: ExecId)
    ensures Trace(es + [e], id) == Extend(Trace(es, id), e, id)
  {
    assert (es + [e])[..|es|] == es;
  }

  lemma QuietStep(log: seq<LogEntry>, records: map<ExecId, ExternalResult>, run: RunId, e: Event, dedup: bool)
    requires StatusesFaithful(log, records, dedup) && Quiet(e)
    ensures StatusesFaithful(log + [LogEntry(run, e)], records, dedup)
  {
    forall r, id ensures Matches(EventsOf(log + [LogEntry(run, e)], r), records, r, id, dedup) {
      assert Matches(EventsOf(log, r), records, r, id, dedup);
      Rebuild.EventsAppend(log, run, e, r);
      TraceAppend(EventsOf(log, r), e, id);
      assert EventsOf(log, r) + [] == EventsOf(log, r);
    }
  }

  /** The event repeats an intent of this run, or is a legal next status of its record. */
  predicate MayFollow(records: map<ExecId, ExternalResult>, run: RunId, e: Event, dedup: bool)
    requires !Quiet(e)
  {
    e.id in records ==> (
      var known := records[e.id];
      || (e.IntentRecorded? && (dedup ==> known.run == run))
      || (known.run == run && Allowed(known.status, NewStatus(e))))
  }

  /** An intent leaves an existing record alone. */
  function Recorded(records: map<ExecId, ExternalResult>, e: Event, r: ExternalResult): map<ExecId, ExternalResult>
    requires !Quiet(e)
  {
    if e.IntentRecorded? && e.id in records then records else records[e.id := r]
  }

  /** A status event and the record written with it. */
  lemma StatusStep(log: seq<LogEntry>, records: map<ExecId, ExternalResult>, run: RunId, e: Event, r: ExternalResult,
                   dedup: bool)
    requires StatusesFaithful(log, records, dedup) && !Quiet(e) && MayFollow(records, run, e, dedup)
    requires r.run == run && r.status == NewStatus(e)
    ensures StatusesFaithful(log + [LogEntry(run, e)], Recorded(records, e, r), dedup)
  {
    forall q, id ensures Matches(EventsOf(log + [LogEntry(run, e)], q), Recorded(records, e, r), q, id, dedup) {
      assert Matches(EventsOf(log, q), records, q, id, dedup);
      hide StatusesFaithful, Matches, EventsOf, MayFollow, Recorded, Quiet;
      Rebuild.EventsAppend(log, run, e, q);
      if q == run && id == e.id {
        OwnStep(EventsOf(log, run), records, run, e, r, dedup);
      } else if q == run {
        OtherStep(EventsOf(log, q), records, run, e, r, id, dedup);
      } else {
        assert EventsOf(log, q) + [] == EventsOf(log, q);
        ElsewhereStep(EventsOf(log, q), records, run, e, r, q, id, dedup);
      }
    }
  }

  lemma OtherStep(es: seq<Event>, records: map<ExecId, ExternalResult>, run: RunId, e: Event, r: ExternalResult,
                  id: ExecId, dedup: bool)
    requires !Quiet(e) && Matches(es, records, run, id, dedup) && id != e.id
    ensures Matches(es + [e], Recorded(records, e, r), run, id, dedup)
  {
    TraceAppend(es, e, id);
  }

  lemma ElsewhereStep(es: seq<Event>, records: map<ExecId, ExternalResult>, run: RunId, e: Event, r: ExternalResult,
                      q: RunId, id: ExecId, dedup: bool)
    requires !Quiet(e) && Matches(es, records, q, id, dedup) && MayFollow(records, run, e, dedup) && r.run == run
      && q != run
    ensures Matches(es, Recorded(records, e, r), q, id, dedup)
  {
  }

  lemma OwnStep(es: seq<Event>, records: map<ExecId, ExternalResult>, run: RunId, e: Event, r: ExternalResult,
                dedup: bool)
    requires !Quiet(e) && Matches(es, records, run, e.id, dedup) && MayFollow(records, run, e, dedup)
    requires r.run == run && r.status == NewStatus(e)
    ensures Matches(es + [e], Recorded(records, e, r), run, e.id, dedup)
  {
    TraceAppend(es, e, e.id);
  }

  ghost predicate Traced(s: Store, dedup: bool) { StatusesFaithful(s.log, s.records, dedup) }

  lemma AutoTraced(s: Store, run: RunId, cfg: Config, ck: string)
    requires Traced(s, cfg.dedup)
    ensures Traced(AutoCheckpoint(s, run, cfg, ck), cfg.dedup)
  {
    CheckpointTraced(s, run, ck, CONTEXT_KIND, false, cfg.dedup);
  }

  lemma CheckpointTraced(s: Store, run: RunId, ck: string, kind: string, withResults: bool, dedup: bool)
    requires Traced(s, dedup)
    ensures Traced(WriteCheckpoint(s, run, ck, kind, withResults), dedup)
  {
    hide StatusesFaithful;
    QuietStep(s.log, s.records, run, CheckpointWritten(ck, LatestSeq(s.log, run), kind), dedup);
  }

  lemma SyncTraced(s: Store, run: RunId, p: Planner.Plan, cfg: Config, ck: string)
    requires Traced(s, cfg.dedup)
    ensures var r := Synchronize(s, run, p); r.Ok? ==> Traced(AutoCheckpoint(r.value, run, cfg, ck), cfg.dedup)
  {
    hide StatusesFaithful, AutoCheckpoint;
    QuietStep(s.log, s.records, run, Synchronized(p.version, p.cursor), cfg.dedup);
    if run in s.contexts { AutoTraced(Synchronize(s, run, p).value, run, cfg, ck); }
  }

  lemma StartTraced(s: Store, op: Op, cfg: Config, ck: string)
    requires Traced(s, cfg.dedup) && op.OpStart?
    ensures var r := Perform(s, op, 0.0, cfg, ck); r.Ok? ==> Traced(r.value, cfg.dedup)
  {
    hide StatusesFaithful, Planner.CreatePlan, InitialContext, AutoCheckpoint, Synchronize;
    var run := op.run;
    var plan, context := Planner.CreatePlan(op.source, op.items), InitialContext(s, run, op.seed, op.memory, op.force);
    if !(run in s.plans && run in s.contexts && !op.force) && plan.Ok? && context.Ok? {
      var e, f, g :=
        RunStarted(|op.seed|, |op.items|), PlanCreated(op.source, op.items), ContextInitialized(op.seed, op.memory);
      QuietStep(s.log, s.records, run, e, cfg.dedup);
      QuietStep(s.log + [LogEntry(run, e)], s.records, run, f, cfg.dedup);
      QuietStep(s.log + [LogEntry(run, e)] + [LogEntry(run, f)], s.records, run, g, cfg.dedup);
      var a := Append(Append(s, run, e), run, f);
      SyncTraced(PutContext(Append(PutPlan(a, run, plan.value), run, g), run, context.value), run, plan.value, cfg, ck);
    }
  }

  lemma MessageTraced(s: Store, run: RunId, m: Context.Message, dedup: bool)
    requires Traced(s, dedup)
    ensures LogMessage(s, run, m).Ok? ==> Traced(LogMessage(s, run, m).value, dedup)
  {
    hide StatusesFaithful, Context.AppendMessage;
    QuietStep(s.log, s.records, run, MessageAppended(m), dedup);
  }

  lemma PlanTraced(s: Store, run: RunId, e: Event, after: Outcome<Planner.Plan>, dedup: bool)
    requires Traced(s, dedup) && Quiet(e)
    ensures LogPlan(s, run, e, after).Ok? ==> Traced(LogPlan(s, run, e, after).value, dedup)
  {
    hide StatusesFaithful;
    QuietStep(s.log, s.records, run, e, dedup);
  }

  lemma QuietOpTraced(s: Store, op: Op, now: real, cfg: Config, ck: string)
    requires Traced(s, cfg.dedup)
    requires op.OpMessage? || op.OpLlmTurn? || op.OpAdvance? || op.OpSetActive?
    ensures var r := Perform(s, op, now, cfg, ck); r.Ok? ==> Traced(r.value, cfg.dedup)
  {
    hide Traced, LogMessage, LogPlan, Synchronize, AutoCheckpoint, Planner.AttachOutput, Planner.UpdateStatus,
         Planner.SetActive;
    var run := op.run;
    if op.OpMessage? {
      MessageTraced(s, run, op.message, cfg.dedup);
      if LogMessage(s, run, op.message).Ok? { AutoTraced(LogMessage(s, run, op.message).value, run, cfg, ck); }
    } else if run in s.plans {
      var e, after :=
        if op.OpLlmTurn? then LlmOutputAttached(op.item, op.output)
        else if op.OpAdvance? then ItemStatusUpdated(op.item, op.status, op.note)
        else ActiveItemSet(op.item),
        if op.OpLlmTurn? then Planner.AttachOutput(s.plans[run], op.item, op.output)
        else if op.OpAdvance? then Planner.UpdateStatus(s.plans[run], op.item, op.status, op.note)
        else Planner.SetActive(s.plans[run], op.item);
      PlanTraced(s, run, e, after, cfg.dedup);
      var a := LogPlan(s, run, e, after);
      if a.Ok? {
        PlanLogged(s, run, e, after);
        if op.OpLlmTurn? {
          var m := Context.Message("assistant", op.text, None, None, op.meta);
          MessageTraced(a.value, run, m, cfg.dedup);
          Rebuild.MessageKeepsPlans(a.value, run, m);
          var b := LogMessage(a.value, run, m);
          if b.Ok? { SyncTraced(b.value, run, b.value.plans[run], cfg, ck); }
        } else {
          SyncTraced(a.value, run, a.value.plans[run], cfg, ck);
        }
      }
    }
  }

  lemma PlanLogged(s: Store, run: RunId, e: Event, after: Outcome<Planner.Plan>)
    ensures LogPlan(s, run, e, after).Ok? ==> run in LogPlan(s, run, e, after).value.plans
  {
  }

  lemma IntentTraced(s: Store, op: Op, now: real, cfg: Config, ck: string)
    requires Traced(s, cfg.dedup) && op.OpIntent?
    ensures var r := Perform(s, op, now, cfg, ck); r.Ok? ==> Traced(r.value, cfg.dedup)
  {
    hide StatusesFaithful, Planner.AttachRef, IntentTail, HasIntent;
    var run, id := op.run, op.id;
    var known := if cfg.dedup then IntentExists(s, run, id) else Ok(false);
    if known == Ok(false) && run in s.plans && Planner.AttachRef(s.plans[run], op.item, id).Ok? {
      var e := IntentRecorded(id, op.item, op.tool, op.op, op.request);
      var r := IntentRecord(run, op.item, op.tool, op.op, op.request, now);
      StatusStep(s.log, s.records, run, e, r, cfg.dedup);
      IntentTailTraced(PutPlan(Append(s, run, e), run, Planner.AttachRef(s.plans[run], op.item, id).value), op, now,
                       cfg, ck);
    }
  }

  lemma IntentTailTraced(a: Store, op: Op, now: real, cfg: Config, ck: string)
    requires op.OpIntent? && op.run in a.plans
    requires
      var r := IntentRecord(op.run, op.item, op.tool, op.op, op.request, now);
      StatusesFaithful(a.log, if op.id in a.records then a.records else a.records[op.id := r], cfg.dedup)
    ensures var r := IntentTail(a, op.run, op.item, op.id, op.tool, op.op, op.request, now, cfg, ck);
      r.Ok? ==> Traced(r.value, cfg.dedup)
  {
    hide StatusesFaithful, AutoCheckpoint, Synchronize;
    var run, id := op.run, op.id;
    if run in a.contexts && id != "" {
      var pending := Context.PendingWith(a.contexts[run].pending, id);
      var b := PutContext(Append(a, run, PendingSet(Last(pending), pending)), run,
                          Context.SetPending(a.contexts[run], pending));
      var c :=
        if id in b.records then b
        else PutRecord(b, id, IntentRecord(run, op.item, op.tool, op.op, op.request, now));
      QuietStep(a.log, c.records, run, PendingSet(Last(pending), pending), cfg.dedup);
      SyncTraced(c, run, c.plans[run], cfg, ck);
    }
  }

  lemma DispatchTraced(s: Store, run: RunId, id: ExecId, now: real, cfg: Config, ck: string)
    requires Traced(s, cfg.dedup)
    ensures var r := RecordToolDispatch(s, run, id, now, cfg, ck); r.Ok? ==> Traced(r.value, cfg.dedup)
  {
    if RecordToolDispatch(s, run, id, now, cfg, ck).Ok? {
      hide StatusesFaithful, AutoCheckpoint;
      var e, r := DispatchRecorded(id, s.records[id].tool), s.records[id].(status := Dispatched, updatedAt := now);
      StatusStep(s.log, s.records, run, e, r, cfg.dedup);
      AutoTraced(PutRecord(Append(s, run, e), id, r), run, cfg, ck);
    }
  }

  lemma ResultTraced(s: Store, run: RunId, id: ExecId, args: ResultArgs, now: real, cfg: Config, ck: string)
    requires Traced(s, cfg.dedup)
    ensures var r := RecordToolResult(s, run, id, args, now, cfg, ck); r.Ok? ==> Traced(r.value, cfg.dedup)
  {
    if RecordToolResult(s, run, id, args, now, cfg, ck).Ok? {
      hide StatusesFaithful, AutoCheckpoint, ShouldClear, ResolveStatus;
      var r := ResultRecordOf(Lookup(s.records, id), run, args, now).value;
      var e := ResultRecorded(id, r.result, r.status, r.tool, r.op, r.item, r.response.Some?, r.error);
      StatusStep(s.log, s.records, run, e, r, cfg.dedup);
      var a := PutRecord(Append(s, run, e), id, r);
      var after := if run in a.contexts then Without(a.contexts[run].pending, id) else [];
      QuietStep(a.log, a.records, run, PendingSet(Last(after), after), cfg.dedup);
      AutoTraced(if ShouldClear(args) then LogClear(a, run, id) else a, run, cfg, ck);
    }
  }

  /** Every operation keeps the statuses of log and records together, and never leaves the transition table. */
  lemma {:induction false} PerformTraced(s: Store, op: Op, now: real, cfg: Config, ck: string)
    requires Traced(s, cfg.dedup)
    ensures Perform(s, op, now, cfg, ck).Ok? ==> Traced(Perform(s, op, now, cfg, ck).value, cfg.dedup)
  {
    hide StatusesFaithful, StartRun, RecordContextMessage, RecordLlmTurn, RecordToolIntent, RecordToolDispatch,
         RecordToolResult, AdvancePlanItem, SetActivePlanItem, WriteCheckpoint;
    match op
    case OpStart(run, seed, source, items, memory, force) => StartTraced(s, op, cfg, ck);
    case OpIntent(run, item, id, tool, kind, request) => IntentTraced(s, op, now, cfg, ck);
    case OpDispatch(run, id) => DispatchTraced(s, run, id, now, cfg, ck);
    case OpResult(run, id, args) => ResultTraced(s, run, id, args, now, cfg, ck);
    case OpCheckpoint(run, kind, withResults) => CheckpointTraced(s, run, ck, kind, withResults, cfg.dedup);
    case _ => QuietOpTraced(s, op, now, cfg, ck);
  }
}
