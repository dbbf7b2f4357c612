/** What the operations of a run change in its plan and its context, in terms of what was handed in. */
module RunChanges {
  import opened Prelude
  import opened Json
  import opened Text
  import opened Models
  import opened Facade
  import Context
  import DriverFrames
  import Effects
  import NewPlans
  import Planner
  import Progress

  // ---------------------------------------------------------------- one item of the plan

  predicate At(p: Planner.Plan, k: nat, item: string) { k < |p.items| && p.items[k].id == item }

  /** The next version of the plan, in which item `k` has become `x`. */
  predicate Becomes(p: Planner.Plan, q: Planner.Plan, k: nat, x: Planner.Item)
    requires k < |p.items|
  {
    q.version == p.version + 1 && q.source == p.source && q.items == p.items[k := x]
  }

  predicate SamePlace(p: Planner.Plan, q: Planner.Plan) { q.active == p.active && q.cursor == p.cursor }

  /** A model output was attached to this item. */
  predicate Said(p: Planner.Plan, q: Planner.Plan, k: nat, item: string, text: string) {
    && At(p, k, item) && SamePlace(p, q)
    && Becomes(p, q, k, p.items[k].(output := Some(text), outputs := p.items[k].outputs + [text]))
  }

  /** A recorded turn attaches its trimmed output to its item, as the last of its outputs, and changes nothing else in
      any plan. */
  lemma TurnChangesPlan(s: Store, run: RunId, item: string, output: string, text: string, meta: map<string, Json>,
                        cfg: Config, ck: string)
    ensures var r := RecordLlmTurn(s, run, item, output, text, meta, cfg, ck);
      r.Ok? ==>
        && run in s.plans && run in r.value.plans && r.value.plans == s.plans[run := r.value.plans[run]]
        && Strip(output) != "" && exists k :: Said(s.plans[run], r.value.plans[run], k, item, Strip(output))
  {
    hide AutoCheckpoint, Synchronize, Context.Validate, Strip, Planner.Integrity;
    var after := RecordLlmTurn(s, run, item, output, text, meta, cfg, ck);
    if after.Ok? {
      var p := s.plans[run];
      var a := LogPlan(s, run, LlmOutputAttached(item, output), Planner.AttachOutput(p, item, output)).value;
      var b := LogMessage(a, run, Context.Message("assistant", text, None, None, meta)).value;
      DriverFrames.SyncKeepsPlans(b, run, b.plans[run], cfg, ck);
      var k := Planner.FindItem(p.items, item).value;
      hide Planner.FindItem;
      assert Said(p, a.plans[run], k, item, Strip(output));
    }
  }

  /** An execution was attached to this item, once. */
  predicate Refers(p: Planner.Plan, q: Planner.Plan, k: nat, item: string, ref: string) {
    && At(p, k, item) && SamePlace(p, q)
    && var refs := p.items[k].refs;
       Becomes(p, q, k, p.items[k].(refs := if ref in refs then refs else refs + [ref]))
  }

  /** A new intent attaches its id to its item and records item, tool, kind and request as they were given. */
  lemma {:induction false} IntentChangesPlan(s: Store, run: RunId, item: string, id: ExecId, tool: string,
                                             op: OperationType, request: Payload, now: real, cfg: Config, ck: string)
    ensures var r := RecordToolIntent(s, run, item, id, tool, op, request, now, cfg, ck);
      r.Ok? && r.value != s ==>
        && run in s.plans && run in r.value.plans && r.value.plans == s.plans[run := r.value.plans[run]]
        && exists k :: Refers(s.plans[run], r.value.plans[run], k, item, Strip(id))
  {
    hide AutoCheckpoint, Synchronize, Strip, Planner.Integrity, HasIntent, Last;
    var after := RecordToolIntent(s, run, item, id, tool, op, request, now, cfg, ck);
    if after.Ok? && after.value != s {
      var p := s.plans[run];
      var a := LogPlan(s, run, IntentRecorded(id, item, tool, op, request), Planner.AttachRef(p, item, id)).value;
      var pending := Context.PendingWith(a.contexts[run].pending, id);
      var b := PutContext(Append(a, run, PendingSet(Last(pending), pending)), run,
                          Context.SetPending(a.contexts[run], pending));
      var c := if id in b.records then b else PutRecord(b, id, IntentRecord(run, item, tool, op, request, now));
      DriverFrames.SyncKeepsPlans(c, run, c.plans[run], cfg, ck);
      var k := Planner.FindItem(p.items, item).value;
      hide Planner.FindItem;
      assert p.items[k := p.items[k]] == p.items;
      assert Refers(p, a.plans[run], k, item, Strip(id));
    }
  }

  /** What a first intent leaves as its record. */
  lemma IntentMakesRecord(s: Store, run: RunId, item: string, id: ExecId, tool: string, op: OperationType,
                          request: Payload, now: real, cfg: Config, ck: string)
    requires id !in s.records
    ensures var r := RecordToolIntent(s, run, item, id, tool, op, request, now, cfg, ck);
      r.Ok? && r.value != s ==>
        && id in r.value.records
        && var x := r.value.records[id];
           && x.run == run && x.item == Some(item) && x.tool == tool && x.op == op && x.request == request
           && x.status == IntentLogged && x.result == ResultUnknown && x.response.None? && x.error.None?
           && x.updatedAt == now
  {
    hide RecordToolIntent;
    Effects.IntentEffect(s, run, item, id, tool, op, request, now, cfg, ck);
  }

  // ---------------------------------------------------------------- the status of an item

  /** What an item may become. */
  predicate MayBecome(current: Planner.ItemStatus, next: Planner.ItemStatus) {
    && (current == Planner.Done ==> next == Planner.Done)
    && (current == Planner.Blocked ==> next != Planner.Done)
    && (current == Planner.Failed ==> next != Planner.Done && next != Planner.Blocked)
  }

  function NotesWith(notes: seq<string>, note: Option<string>): seq<string> {
    if note.Some? && !Blank(note.value) then notes + [Strip(note.value)] else notes
  }

  predicate Reached(p: Planner.Plan, q: Planner.Plan, k: nat, item: string, next: Planner.ItemStatus,
                    note: Option<string>) {
    && At(p, k, item) && MayBecome(p.items[k].status, next)
    && Becomes(p, q, k, p.items[k].(status := next, notes := NotesWith(p.items[k].notes, note)))
  }

  /** Advancing an item gives it the status that the word stands for, adds the note, and changes nothing else about the
      items. The cursor stays unless the active item was finished. */
  lemma AdvanceChangesPlan(s: Store, run: RunId, item: string, status: string, note: Option<string>, cfg: Config,
                           ck: string)
    ensures var r := AdvancePlanItem(s, run, item, status, note, cfg, ck);
      r.Ok? ==>
        && run in s.plans && run in r.value.plans && r.value.plans == s.plans[run := r.value.plans[run]]
        && exists k, next :: (
             && NewPlans.StatusWord(next) == Lower(Strip(status))
             && Reached(s.plans[run], r.value.plans[run], k, item, next, note)
             && (next != Planner.Done || s.plans[run].active != Some(item) ==>
                   SamePlace(s.plans[run], r.value.plans[run])))
  {
    hide AutoCheckpoint, Synchronize, Strip, Planner.Integrity, Lower, Planner.ParseStatus, NewPlans.StatusWord;
    var after := AdvancePlanItem(s, run, item, status, note, cfg, ck);
    if after.Ok? {
      var p := s.plans[run];
      var a := LogPlan(s, run, ItemStatusUpdated(item, status, note),
                       Planner.UpdateStatus(p, item, status, note)).value;
      DriverFrames.SyncKeepsPlans(a, run, a.plans[run], cfg, ck);
      var k, next := Planner.FindItem(p.items, item).value, Planner.ParseStatus(status).value;
      NewPlans.StatusIsRead(status, next);
      if note.Some? { StripTrims(note.value); }
      hide Planner.FindItem, Planner.NextRunnable, Blank;
      assert Reached(p, a.plans[run], k, item, next, note);
    }
  }

  /** Item `k` may take the step that is asked for. */
  predicate CanStep(p: Planner.Plan, k: nat, next: Planner.ItemStatus, item: string, status: string) {
    At(p, k, item) && NewPlans.StatusWord(next) == Lower(Strip(status)) && MayBecome(p.items[k].status, next)
  }

  predicate IndicesInRange(p: Planner.Plan) { forall i :: 0 <= i < |p.items| ==> p.items[i].index < |p.items| }

  /** It is refused exactly for an unknown item, a word that is no status, or a step that is not allowed. */
  lemma {:induction false} AdvanceIsTaken(s: Store, run: RunId, item: string, status: string, note: Option<string>,
                                          cfg: Config, ck: string)
    requires run in s.plans && run in s.contexts && Planner.Integrity(s.plans[run]) && IndicesInRange(s.plans[run])
    ensures AdvancePlanItem(s, run, item, status, note, cfg, ck).Ok? <==>
      exists k, next :: CanStep(s.plans[run], k, next, item, status)
  {
    UpdateTaken(s.plans[run], item, status, note);
    hide AutoCheckpoint, CanStep, Planner.UpdateStatus, Planner.Integrity;
  }

  lemma UpdateTaken(p: Planner.Plan, item: string, status: string, note: Option<string>)
    requires Planner.Integrity(p) && IndicesInRange(p)
    ensures Planner.UpdateStatus(p, item, status, note).Ok? <==> exists k, next :: CanStep(p, k, next, item, status)
  {
    var found, word := Planner.FindItem(p.items, item), Planner.ParseStatus(status);
    forall next ensures word == Some(next) <==> NewPlans.StatusWord(next) == Lower(Strip(status)) {
      NewPlans.StatusIsRead(status, next);
    }
    hide Planner.FindItem, Planner.ParseStatus, NewPlans.StatusWord, Lower, Strip, Planner.NextRunnable,
         Planner.Transition, Planner.AllowedStep, MayBecome;
    forall k: nat, next | CanStep(p, k, next, item, status) ensures found == Some(k) && word == Some(next) {}
    if found.Some? && word.Some? {
      StepTaken(p, found.value, word.value, note);
      assert CanStep(p, found.value, word.value, item, status) <==> MayBecome(p.items[found.value].status, word.value);
    }
  }

  lemma StepTaken(p: Planner.Plan, k: nat, next: Planner.ItemStatus, note: Option<string>)
    requires Planner.Integrity(p) && IndicesInRange(p) && k < |p.items|
    ensures Planner.Transition(p, k, next, note).Ok? <==> MayBecome(p.items[k].status, next)
  {
    var x := p.items[k];
    var notes := if note.Some? && Strip(note.value) != "" then x.notes + [Strip(note.value)] else x.notes;
    var items := p.items[k := x.(status := next, notes := notes)];
    Progress.ReplacedWhole(p, k, items[k]);
    hide Planner.NextRunnable, Strip, Planner.Integrity;
    if Planner.NextRunnable(items).Some? { Progress.MovedWhole(p, items); }
  }

  // ---------------------------------------------------------------- the context

  /** What may be said: one of the four roles, and something. */
  predicate Speaks(m: Context.Message) {
    !Blank(m.content) && (Strip(m.role) in {"system", "user", "assistant", "tool"})
  }

  function Trimmed(m: Context.Message): Context.Message { m.(role := Strip(m.role), content := Strip(m.content)) }

  lemma MessageIsTaken(m: Context.Message)
    ensures Context.Validate(m).Ok? <==> Speaks(m)
    ensures Speaks(m) ==> Context.Validate(m) == Ok(Trimmed(m))
  {
    StripTrims(m.content);
    hide Strip, Blank;
  }

  /** A message is recorded exactly when its run is known and it says something in a known role; then it is the last
      one, trimmed and otherwise as given. */
  lemma MessageChangesContext(s: Store, run: RunId, m: Context.Message, cfg: Config, ck: string)
    ensures var r := RecordContextMessage(s, run, m, cfg, ck);
      && (r.Ok? <==> run in s.contexts && Speaks(m))
      && (r.Ok? ==> Effects.MessagesOf(r.value, run) == Effects.MessagesOf(s, run) + [Trimmed(m)])
  {
    hide RecordContextMessage, Context.Validate, Speaks, Trimmed;
    MessageIsTaken(m);
    Effects.MessageEffect(s, run, m, cfg, ck);
    var r := RecordContextMessage(s, run, m, cfg, ck);
    if r.Ok? { assert Effects.ViewOf(r.value, run).messages == Effects.MessagesOf(r.value, run); }
  }

  lemma {:induction false} SeedIsTaken(seed: seq<Context.Message>)
    ensures var r := Context.ValidateAll(seed);
      && (r.Ok? <==> forall i :: 0 <= i < |seed| ==> Speaks(seed[i]))
      && (r.Ok? ==> |r.value| == |seed| && forall i :: 0 <= i < |seed| ==> r.value[i] == Trimmed(seed[i]))
  {
    hide Speaks, Trimmed, Context.Validate;
    if seed != [] {
      MessageIsTaken(seed[0]);
      SeedIsTaken(seed[1..]);
      assert forall i :: 1 <= i < |seed| ==> seed[i] == seed[1..][i - 1];
    }
  }

  /** A new or reset run begins with the trimmed messages and the memory it was given, nothing pending, and its step at
      the cursor of the plan. */
  lemma {:induction false} StartedContext(s: Store, run: RunId, seed: seq<Context.Message>, source: string,
                                          raws: seq<Planner.RawItem>, memory: map<string, Json>, force: bool,
                                          cfg: Config, ck: string)
    requires force || run !in s.contexts
    ensures var r := StartRun(s, run, seed, source, raws, memory, force, cfg, ck);
      r.Ok? ==>
        && (forall i :: 0 <= i < |seed| ==> Speaks(seed[i]))
        && run in r.value.contexts && run in r.value.plans
        && var c := r.value.contexts[run];
           && c.memory == memory && c.pending == [] && c.pendingLast.None?
           && |c.messages| == |seed| == c.turn && (forall i :: 0 <= i < |seed| ==> c.messages[i] == Trimmed(seed[i]))
           && c.plannerVersion == r.value.plans[run].version
           && c.step == (if r.value.plans[run].cursor.Some? then r.value.plans[run].cursor.value else 0)
  {
    SeedIsTaken(seed);
    hide Planner.CreatePlan, Context.ValidateAll, Speaks, Trimmed, LatestSeq;
  }

  /** A start that makes a new context: of an unknown run, or a reset. */
  predicate Renews(s: Store, op: Op, run: RunId) { op.OpStart? && op.run == run && (op.force || run !in s.contexts) }

  lemma PerformKeepsMemory(s: Store, op: Op, now: real, cfg: Config, ck: string, run: RunId)
    requires Perform(s, op, now, cfg, ck).Ok?
    ensures Effects.MemoryOf(Perform(s, op, now, cfg, ck).value, run) ==
      if Renews(s, op, run) then op.memory else Effects.MemoryOf(s, run)
  {
    hide StartRun, RecordContextMessage, RecordLlmTurn, RecordToolIntent, RecordToolDispatch, RecordToolResult,
         AdvancePlanItem, SetActivePlanItem, WriteCheckpoint;
    var t := Perform(s, op, now, cfg, ck).value;
    assert Effects.ViewOf(t, run).memory == Effects.MemoryOf(t, run);
    assert Effects.ViewOf(s, run).memory == Effects.MemoryOf(s, run);
    match op
    case OpStart(r, seed, source, items, memory, force) =>
      Effects.StartEffect(s, op, now, cfg, ck);
      if Renews(s, op, run) { StartedContext(s, r, seed, source, items, memory, force, cfg, ck); }
    case OpMessage(r, m) => Effects.MessageEffect(s, r, m, cfg, ck);
    case OpLlmTurn(r, item, output, text, meta) => Effects.TurnEffect(s, op, now, cfg, ck);
    case OpIntent(r, item, id, tool, kind, request) =>
      Effects.IntentEffect(s, r, item, id, tool, kind, request, now, cfg, ck);
    case OpDispatch(r, id) => Effects.DispatchEffect(s, r, id, now, cfg, ck);
    case OpResult(r, id, args) => Effects.ResultEffect(s, r, id, args, now, cfg, ck);
    case OpAdvance(r, item, status, note) => Effects.PlanOpEffect(s, op, now, cfg, ck);
    case OpSetActive(r, item) => Effects.PlanOpEffect(s, op, now, cfg, ck);
    case OpCheckpoint(r, kind, _) => Effects.PlanOpEffect(s, op, now, cfg, ck);
  }

  /** The memory handed in with the last accepted start that renewed the context of the run. */
  function MemoryGiven(s: Store, ops: seq<Stamped>, cfg: Config, run: RunId): map<string, Json> {
    if ops == [] then Effects.MemoryOf(s, run)
    else
      var c, before := ops[|ops| - 1], RunOps(s, ops[..|ops| - 1], cfg);
      if Renews(before, c.op, run) && Perform(before, c.op, c.now, cfg, c.ck).Ok? then c.op.memory
      else MemoryGiven(s, ops[..|ops| - 1], cfg, run)
  }

  /** Whatever happens to a run, its memory is the one it was last started with. */
  lemma {:induction false} MemoryLasts(s: Store, ops: seq<Stamped>, cfg: Config, run: RunId)
    ensures Effects.MemoryOf(RunOps(s, ops, cfg), run) == MemoryGiven(s, ops, cfg, run)
  {
    hide Perform, Renews;
    if ops != [] {
      MemoryLasts(s, ops[..|ops| - 1], cfg, run);
      var c, before := ops[|ops| - 1], RunOps(s, ops[..|ops| - 1], cfg);
      if Perform(before, c.op, c.now, cfg, c.ck).Ok? { PerformKeepsMemory(before, c.op, c.now, cfg, c.ck, run); }
    }
  }

  // ---------------------------------------------------------------- checkpoints

  /** The last entry of the run in the log. */
  predicate IsLatest(log: seq<LogEntry>, run: RunId, seqId: nat) {
    0 < seqId <= |log| && log[seqId - 1].run == run && forall i :: seqId <= i < |log| ==> log[i].run != run
  }

  /** A checkpoint of a run with events holds its plan, its context, the last sequence number, the kind asked for and,
      if asked for, all its records; the context then points at it. It is refused exactly without a kind. */
  lemma CheckpointIsWritten(s: Store, run: RunId, kind: string, withResults: bool, ck: string, seqId: nat)
    requires IsLatest(s.log, run, seqId)
    ensures var r := CheckpointRun(s, run, kind, withResults, ck);
      && (r.Ok? <==> kind != "")
      && (r.Ok? ==>
            && |r.value.checkpoints| == |s.checkpoints| + 1 && s.checkpoints <= r.value.checkpoints
            && var c := r.value.checkpoints[|s.checkpoints|];
               && c.id == ck && c.run == run && c.seqId == seqId && c.kind == kind
               && c.plan == Lookup(s.plans, run) && c.context == Lookup(s.contexts, run)
               && (c.results.Some? <==> withResults && run in s.contexts)
               && (c.results.Some? ==> forall id ::
                     (id in c.results.value <==> id in s.records && s.records[id].run == run)
                     && (id in c.results.value ==> c.results.value[id] == s.records[id])))
      && (r.Ok? && run in s.contexts ==>
            r.value.contexts == s.contexts[run := s.contexts[run].(checkpointSeq := Some(seqId))])
      && (r.Ok? ==> r.value.plans == s.plans && r.value.records == s.records)
  {
    LatestIs(s.log, run, seqId);
    hide LatestSeq;
  }

  lemma {:induction false} LatestIs(log: seq<LogEntry>, run: RunId, seqId: nat)
    requires IsLatest(log, run, seqId)
    ensures LatestSeq(log, run) == seqId
  {
    if seqId < |log| { LatestIs(log[..|log| - 1], run, seqId); }
  }

  /** Without events there is nothing to write. */
  lemma NothingToCheckpoint(s: Store, run: RunId, kind: string, withResults: bool, ck: string)
    requires forall i :: 0 <= i < |s.log| ==> s.log[i].run != run
    ensures CheckpointRun(s, run, kind, withResults, ck) == Ok(s)
  {
    assert LatestSeq(s.log, run) == 0;
  }

  /** The checkpoint that operations write by themselves: on every multiple of the interval, without executions. */
  lemma AutomaticIsWritten(s: Store, run: RunId, cfg: Config, ck: string, seqId: nat)
    requires IsLatest(s.log, run, seqId)
    ensures var t := AutoCheckpoint(s, run, cfg, ck);
      if cfg.interval > 0 && seqId % cfg.interval == 0
      then CheckpointRun(s, run, "agent_context", false, ck) == Ok(t)
      else t == s
  {
    LatestIs(s.log, run, seqId);
    hide LatestSeq;
  }

  // ---------------------------------------------------------------- the log

  /** The log only grew, and this is what comes first among the new entries. */
  predicate LogsFirst(s: Store, t: Store, run: RunId, es: seq<Event>) {
    && s.log <= t.log && |t.log| >= |s.log| + |es|
    && forall i :: 0 <= i < |es| ==> t.log[|s.log| + i] == LogEntry(run, es[i])
  }

  lemma AutoGrows(s: Store, run: RunId, cfg: Config, ck: string)
    ensures s.log <= AutoCheckpoint(s, run, cfg, ck).log
  {
    hide LatestSeq;
  }

  /** A new run is announced with the number of its messages and items, its plan and its context as they were given. */
  lemma StartIsLogged(s: Store, run: RunId, seed: seq<Context.Message>, source: string, raws: seq<Planner.RawItem>,
                      memory: map<string, Json>, force: bool, cfg: Config, ck: string)
    requires NewPlans.IsNew(s, run, force)
    ensures var r := StartRun(s, run, seed, source, raws, memory, force, cfg, ck);
      r.Ok? ==> LogsFirst(s, r.value, run, [RunStarted(|seed|, |raws|), PlanCreated(source, raws),
                                            ContextInitialized(seed, memory)])
  {
    hide Planner.CreatePlan, Context.InitContext, AutoCheckpoint;
    var r := StartRun(s, run, seed, source, raws, memory, force, cfg, ck);
    if r.Ok? {
      var plan := Planner.CreatePlan(source, raws).value;
      var a := Append(Append(s, run, RunStarted(|seed|, |raws|)), run, PlanCreated(source, raws));
      var b := Append(PutPlan(a, run, plan), run, ContextInitialized(seed, memory));
      var c := Synchronize(PutContext(b, run, InitialContext(s, run, seed, memory, force).value), run, plan).value;
      AutoGrows(c, run, cfg, ck);
    }
  }

  /** An intent is logged with everything that the call was asked for. */
  lemma {:induction false} IntentIsLogged(s: Store, run: RunId, item: string, id: ExecId, tool: string,
                                          op: OperationType, request: Payload, now: real, cfg: Config, ck: string)
    ensures var r := RecordToolIntent(s, run, item, id, tool, op, request, now, cfg, ck);
      r.Ok? && r.value != s ==> LogsFirst(s, r.value, run, [IntentRecorded(id, item, tool, op, request)])
  {
    hide AutoCheckpoint, Planner.AttachRef, HasIntent, Last;
    var r := RecordToolIntent(s, run, item, id, tool, op, request, now, cfg, ck);
    if r.Ok? && r.value != s {
      var a := LogPlan(s, run, IntentRecorded(id, item, tool, op, request),
                       Planner.AttachRef(s.plans[run], item, id)).value;
      var pending := Context.PendingWith(a.contexts[run].pending, id);
      var b := PutContext(Append(a, run, PendingSet(Last(pending), pending)), run,
                          Context.SetPending(a.contexts[run], pending));
      var c := if id in b.records then b else PutRecord(b, id, IntentRecord(run, item, tool, op, request, now));
      AutoGrows(Synchronize(c, run, c.plans[run]).value, run, cfg, ck);
    }
  }

  /** A dispatch names the tool of its record; a result says what its record says from then on. */
  lemma {:induction false} OutcomeIsLogged(s: Store, run: RunId, id: ExecId, args: ResultArgs, now: real, cfg: Config,
                                           ck: string)
    ensures var r := RecordToolDispatch(s, run, id, now, cfg, ck);
      r.Ok? ==> id in s.records && LogsFirst(s, r.value, run, [DispatchRecorded(id, s.records[id].tool)])
    ensures var r := RecordToolResult(s, run, id, args, now, cfg, ck);
      r.Ok? ==>
        && id in r.value.records
        && var x := r.value.records[id];
           LogsFirst(s, r.value, run,
                     [ResultRecorded(id, x.result, x.status, x.tool, x.op, x.item, x.response.Some?, x.error)])
  {
    DispatchIsLogged(s, run, id, now, cfg, ck);
    Effects.ResultEffect(s, run, id, args, now, cfg, ck);
    hide AutoCheckpoint, ResultRecordOf, ResolveStatus, ShouldClear, RecordToolDispatch, Allowed;
    var record, r := ResultRecordOf(Lookup(s.records, id), run, args, now),
      RecordToolResult(s, run, id, args, now, cfg, ck);
    if r.Ok? {
      var x := record.value;
      var e := ResultRecorded(id, x.result, x.status, x.tool, x.op, x.item, x.response.Some?, x.error);
      var a := PutRecord(Append(s, run, e), id, x);
      AutoGrows(if ShouldClear(args) then LogClear(a, run, id) else a, run, cfg, ck);
    }
  }

  lemma DispatchIsLogged(s: Store, run: RunId, id: ExecId, now: real, cfg: Config, ck: string)
    ensures var r := RecordToolDispatch(s, run, id, now, cfg, ck);
      r.Ok? ==> id in s.records && LogsFirst(s, r.value, run, [DispatchRecorded(id, s.records[id].tool)])
  {
    hide AutoCheckpoint, Allowed;
    if id in s.records {
      var a := Append(s, run, DispatchRecorded(id, s.records[id].tool));
      AutoGrows(PutRecord(a, id, s.records[id].(status := Dispatched, updatedAt := now)), run, cfg, ck);
    }
  }
}
