/** What the facade operations do to the records, the pending lists and the messages, and what they leave alone. */
module Effects {
  import opened Prelude
  import opened Models
  import opened Facade
  import Context
  import Json
  import Planner

  function PendingOf(s: Store, run: RunId): seq<ExecId> {
    if run in s.contexts then s.contexts[run].pending else []
  }

  function MessagesOf(s: Store, run: RunId): seq<Context.Message> {
    if run in s.contexts then s.contexts[run].messages else []
  }

  function MemoryOf(s: Store, run: RunId): map<string, Json.Json> {
    if run in s.contexts then s.contexts[run].memory else map[]
  }

  /** What the rest of the system can see of one run besides its plan and its log. */
  datatype View = View(pending: seq<ExecId>, messages: seq<Context.Message>, memory: map<string, Json.Json>,
                       known: bool)

  function ViewOf(s: Store, run: RunId): View {
    View(PendingOf(s, run), MessagesOf(s, run), MemoryOf(s, run), run in s.contexts)
  }

  ghost predicate OnlyRun(s: Store, t: Store, run: RunId, after: View) {
    && ViewOf(t, run) == after
    && forall r :: r != run ==> ViewOf(t, r) == ViewOf(s, r)
  }

  lemma AutoEffect(s: Store, run: RunId, cfg: Config, ck: string)
    ensures var t := AutoCheckpoint(s, run, cfg, ck); t.records == s.records && OnlyRun(s, t, run, ViewOf(s, run))
  {
    CheckpointEffect(s, run, ck, CONTEXT_KIND, false);
  }

  lemma CheckpointEffect(s: Store, run: RunId, ck: string, kind: string, withResults: bool)
    ensures var t := WriteCheckpoint(s, run, ck, kind, withResults);
      t.records == s.records && OnlyRun(s, t, run, ViewOf(s, run))
  {
  }

  lemma SyncEffect(s: Store, run: RunId, p: Planner.Plan, cfg: Config, ck: string)
    ensures Synchronize(s, run, p).Ok? ==>
      var t := AutoCheckpoint(Synchronize(s, run, p).value, run, cfg, ck);
      t.records == s.records && OnlyRun(s, t, run, ViewOf(s, run))
  {
    if run in s.contexts { AutoEffect(Synchronize(s, run, p).value, run, cfg, ck); }
  }

  lemma {:induction false} StartEffect(s: Store, op: Op, now: real, cfg: Config, ck: string)
    requires op.OpStart?
    ensures var r := Perform(s, op, now, cfg, ck);
      r.Ok? && r.value != s ==> (
        && r.value.records == s.records && op.run in r.value.contexts
        && (op.force || op.run !in s.contexts ==>
              && PendingOf(r.value, op.run) == [] && MemoryOf(r.value, op.run) == op.memory
              && Context.ValidateAll(op.seed) == Ok(MessagesOf(r.value, op.run)))
        && (!op.force && op.run in s.contexts ==> ViewOf(r.value, op.run) == ViewOf(s, op.run))
        && OnlyRun(s, r.value, op.run, ViewOf(r.value, op.run)))
  {
    var run := op.run;
    hide Planner.CreatePlan, AutoCheckpoint, Synchronize;
    if !(run in s.plans && run in s.contexts && !op.force) && Planner.CreatePlan(op.source, op.items).Ok?
      && InitialContext(s, run, op.seed, op.memory, op.force).Ok?
    {
      var plan, context :=
        Planner.CreatePlan(op.source, op.items).value, InitialContext(s, run, op.seed, op.memory, op.force).value;
      var a := Append(Append(s, run, RunStarted(|op.seed|, |op.items|)), run, PlanCreated(op.source, op.items));
      SyncEffect(PutContext(Append(PutPlan(a, run, plan), run, ContextInitialized(op.seed, op.memory)), run, context),
                 run, plan, cfg, ck);
    }
  }

  lemma MessageEffect(s: Store, run: RunId, m: Context.Message, cfg: Config, ck: string)
    ensures var r := RecordContextMessage(s, run, m, cfg, ck);
      && (r.Ok? <==> run in s.contexts && Context.Validate(m).Ok?)
      && (r.Ok? ==>
            && r.value.records == s.records
            && OnlyRun(s, r.value, run, ViewOf(s, run).(messages := MessagesOf(s, run) + [Context.Validate(m).value])))
  {
    hide AutoCheckpoint, Context.Validate;
    if LogMessage(s, run, m).Ok? { AutoEffect(LogMessage(s, run, m).value, run, cfg, ck); }
  }

  /** Advancing an item, choosing the active item and writing a checkpoint touch neither records nor pending lists nor
      messages. */
  lemma PlanOpEffect(s: Store, op: Op, now: real, cfg: Config, ck: string)
    requires op.OpAdvance? || op.OpSetActive? || op.OpCheckpoint?
    ensures var r := Perform(s, op, now, cfg, ck);
      r.Ok? ==> r.value.records == s.records && OnlyRun(s, r.value, op.run, ViewOf(s, op.run))
  {
    hide AutoCheckpoint, Synchronize, WriteCheckpoint, Planner.UpdateStatus, Planner.SetActive;
    var run := op.run;
    if op.OpCheckpoint? {
      CheckpointEffect(s, run, ck, op.kind, op.withResults);
    } else if run in s.plans {
      var e, after := if op.OpAdvance? then ItemStatusUpdated(op.item, op.status, op.note) else ActiveItemSet(op.item),
        if op.OpAdvance? then Planner.UpdateStatus(s.plans[run], op.item, op.status, op.note)
        else Planner.SetActive(s.plans[run], op.item);
      if after.Ok? { SyncEffect(PutPlan(Append(s, run, e), run, after.value), run, after.value, cfg, ck); }
    }
  }

  lemma TurnEffect(s: Store, op: Op, now: real, cfg: Config, ck: string)
    requires op.OpLlmTurn?
    ensures var r := Perform(s, op, now, cfg, ck);
      var clean := Context.Validate(Context.Message("assistant", op.text, None, None, op.meta));
      r.Ok? ==> (
        && clean.Ok? && r.value.records == s.records
        && OnlyRun(s, r.value, op.run, ViewOf(s, op.run).(messages := MessagesOf(s, op.run) + [clean.value])))
  {
    hide AutoCheckpoint, Synchronize, Planner.AttachOutput, Context.Validate;
    var run := op.run;
    if run in s.plans && Planner.AttachOutput(s.plans[run], op.item, op.output).Ok? {
      var a := LogPlan(s, run, LlmOutputAttached(op.item, op.output),
                       Planner.AttachOutput(s.plans[run], op.item, op.output)).value;
      var b := LogMessage(a, run, Context.Message("assistant", op.text, None, None, op.meta));
      if b.Ok? { SyncEffect(b.value, run, b.value.plans[run], cfg, ck); }
    }
  }

  /** A recorded intent either was known and changed nothing, or put the id on the pending list and made its record. */
  lemma {:induction false} IntentEffect(s: Store, run: RunId, item: string, id: ExecId, tool: string, op: OperationType,
                                        request: Payload, now: real, cfg: Config, ck: string)
    ensures var r := RecordToolIntent(s, run, item, id, tool, op, request, now, cfg, ck);
      && (r.Ok? ==> run in s.contexts && run in s.plans)
      && (r.Ok? && cfg.dedup ==> id in s.records ==> r.value == s && s.records[id].run == run)
      && (r.Ok? && r.value != s ==> (
            && id != ""
            && r.value.records ==
                 (if id in s.records then s.records
                  else s.records[id := IntentRecord(run, item, tool, op, request, now)])
            && OnlyRun(s, r.value, run, ViewOf(s, run).(pending := Context.PendingWith(PendingOf(s, run), id)))))
  {
    hide AutoCheckpoint, Synchronize, Planner.AttachRef, HasIntent, Last;
    if run in s.plans && Planner.AttachRef(s.plans[run], item, id).Ok? && run in s.contexts && id != "" {
      var a := PutPlan(Append(s, run, IntentRecorded(id, item, tool, op, request)), run,
                       Planner.AttachRef(s.plans[run], item, id).value);
      var pending := Context.PendingWith(a.contexts[run].pending, id);
      var b := PutContext(Append(a, run, PendingSet(Last(pending), pending)), run,
                          Context.SetPending(a.contexts[run], pending));
      var c := if id in b.records then b else PutRecord(b, id, IntentRecord(run, item, tool, op, request, now));
      SyncEffect(c, run, c.plans[run], cfg, ck);
    }
  }

  lemma DispatchEffect(s: Store, run: RunId, id: ExecId, now: real, cfg: Config, ck: string)
    ensures var r := RecordToolDispatch(s, run, id, now, cfg, ck);
      && (r.Ok? <==>
          id in s.records && s.records[id].run == run && Allowed(s.records[id].status, Dispatched) && run in s.contexts)
      && (r.Ok? ==> r.value.records == s.records[id := s.records[id].(status := Dispatched, updatedAt := now)]
                    && OnlyRun(s, r.value, run, ViewOf(s, run)))
  {
    hide AutoCheckpoint;
    if id in s.records {
      var a := Append(s, run, DispatchRecorded(id, s.records[id].tool));
      AutoEffect(PutRecord(a, id, s.records[id].(status := Dispatched, updatedAt := now)),
                 run, cfg, ck);
    }
  }

  function ClearedIf(pending: seq<ExecId>, id: ExecId, clear: bool): seq<ExecId> {
    if clear then Without(pending, id) else pending
  }

  /** A result is refused exactly for a foreign id, an illegal transition, missing first values or an unknown run. */
  lemma {:induction false} ResultEffect(s: Store, run: RunId, id: ExecId, args: ResultArgs, now: real, cfg: Config,
                                        ck: string)
    ensures var r := RecordToolResult(s, run, id, args, now, cfg, ck);
      var record := ResultRecordOf(Lookup(s.records, id), run, args, now);
      && (r.Ok? <==>
            && (id in s.records ==>
                s.records[id].run == run && Allowed(s.records[id].status, ResolveStatus(args.status, args.result)))
            && record.Ok? && run in s.contexts)
      && (r.Ok? ==>
            && r.value.records == s.records[id := record.value]
            && OnlyRun(s, r.value, run,
                       ViewOf(s, run).(pending := ClearedIf(PendingOf(s, run), id, ShouldClear(args)))))
  {
    hide AutoCheckpoint, ResultRecordOf, ResolveStatus, ShouldClear;
    var record := ResultRecordOf(Lookup(s.records, id), run, args, now);
    if record.Ok? && run in s.contexts {
      var r := record.value;
      var a := PutRecord(
          Append(s, run, ResultRecorded(id, r.result, r.status, r.tool, r.op, r.item, r.response.Some?, r.error)),
                         id, r);
      WithoutAbsentIf(PendingOf(s, run), id);
      AutoEffect(if ShouldClear(args) then LogClear(a, run, id) else a, run, cfg, ck);
    }
  }

  lemma WithoutAbsentIf(pending: seq<ExecId>, id: ExecId)
    ensures id !in pending ==> Without(pending, id) == pending
  {
    if id !in pending { WithoutAbsent(pending, id); }
  }
}
