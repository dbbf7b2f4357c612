/** What the projections of one run say about each other after every facade operation. */
module Agreement {
  import opened Prelude
  import opened Models
  import opened Facade
  import Context
  import Planner
  import Json

  /** The cursor is the sequence index of the active item. */
  predicate CursorMatches(p: Planner.Plan) {
    && (p.active.Some? <==> p.cursor.Some?)
    && (p.active.Some? ==>
        exists i :: 0 <= i < |p.items| && p.items[i].id == p.active.value && p.items[i].index == p.cursor.value)
  }

  predicate PlanOk(p: Planner.Plan) { Planner.Integrity(p) && CursorMatches(p) }

  predicate ContextOk(c: Context.Snapshot) {
    c.turn == |c.messages| && c.pendingLast == Last(c.pending) && NoDup(c.pending)
  }

  predicate Agrees(p: Planner.Plan, c: Context.Snapshot) {
    && PlanOk(p) && ContextOk(c)
    && c.plannerVersion == p.version
    && (p.cursor.Some? ==> c.step == p.cursor.value)
  }

  predicate RunAgrees(s: Store, run: RunId) {
    (run in s.plans <==> run in s.contexts) && (run in s.plans && run in s.contexts ==>
                                                Agrees(s.plans[run], s.contexts[run]))
  }

  ghost predicate AllAgree(s: Store) { forall run :: RunAgrees(s, run) }

  /** With the sequence indices that `create_plan` gives by default, the item at the cursor is the active one. */
  lemma ActiveAtCursor(p: Planner.Plan)
    requires PlanOk(p)
    requires forall i :: 0 <= i < |p.items| ==> p.items[i].index == i
    ensures p.cursor.Some? ==> p.active == Some(p.items[p.cursor.value].id)
  {
  }

  // ---------------------------------------------------------------- the planner keeps its cursor on the active item

  lemma {:induction false} StoredKeeps(items: seq<Planner.Item>)
    ensures multiset(Planner.StoredOrder(items)) == multiset(items)
  {
    if items != [] {
      StoredKeeps(items[1..]);
      InsertStoredKeeps(items[0], Planner.StoredOrder(items[1..]));
      assert items == [items[0]] + items[1..];
    }
  }

  lemma {:induction false} InsertStoredKeeps(x: Planner.Item, s: seq<Planner.Item>)
    ensures multiset(Planner.InsertStored(x, s)) == multiset(s) + multiset{x}
  {
    if s != [] {
      assert s == [s[0]] + s[1..];
      if !Planner.StoredBefore(x, s[0]) { InsertStoredKeeps(x, s[1..]); }
    }
  }

  lemma CreatedOk(source: string, raws: seq<Planner.RawItem>)
    ensures Planner.CreatePlan(source, raws).Ok? ==> PlanOk(Planner.CreatePlan(source, raws).value)
  {
    if Planner.CreatePlan(source, raws).Ok? {
      var items := Planner.BuildItems(raws, 0, {}).value;
      hide Planner.BuildItems, Planner.StoredOrder, Planner.SortByIndex, Planner.NextRunnable;
      var sorted := Planner.SortByIndex(items);
      var first := Planner.NextRunnable(sorted);
      if first.Some? {
        Planner.NextRunnableLeast(sorted);
        Planner.SortKeeps(items);
        StoredKeeps(items);
        Planner.SameElements(sorted, Planner.StoredOrder(items));
        assert first.value in Planner.StoredOrder(items);
      }
    }
  }

  lemma SetActiveOk(p: Planner.Plan, id: string)
    ensures Planner.SetActive(p, id).Ok? ==>
      PlanOk(Planner.SetActive(p, id).value) && Planner.SetActive(p, id).value.active == Some(id)
  {
  }

  /** Changing one item but neither its id nor its index leaves the cursor where it belongs. */
  lemma ItemReplaced(p: Planner.Plan, k: nat, x: Planner.Item)
    requires CursorMatches(p) && k < |p.items| && x.id == p.items[k].id && x.index == p.items[k].index
    ensures CursorMatches(p.(items := p.items[k := x], version := p.version + 1))
  {
    var after := p.items[k := x];
    if p.active.Some? {
      var i :| 0 <= i < |p.items| && p.items[i].id == p.active.value && p.items[i].index == p.cursor.value;
      assert after[i].id == p.active.value && after[i].index == p.cursor.value;
    }
  }

  lemma AttachOutputOk(p: Planner.Plan, id: string, output: string)
    requires CursorMatches(p)
    ensures Planner.AttachOutput(p, id, output).Ok? ==> PlanOk(Planner.AttachOutput(p, id, output).value)
  {
    var r := Planner.AttachOutput(p, id, output);
    if r.Ok? {
      var k := Planner.FindItem(p.items, id).value;
      ItemReplaced(p, k, r.value.items[k]);
    }
  }

  lemma AttachRefOk(p: Planner.Plan, id: string, exec: string)
    requires CursorMatches(p)
    ensures Planner.AttachRef(p, id, exec).Ok? ==> PlanOk(Planner.AttachRef(p, id, exec).value)
  {
    var r := Planner.AttachRef(p, id, exec);
    if r.Ok? {
      var k := Planner.FindItem(p.items, id).value;
      ItemReplaced(p, k, r.value.items[k]);
      assert p.items[k := p.items[k]] == p.items;
    }
  }

  lemma UpdateOk(p: Planner.Plan, id: string, raw: string, note: Option<string>)
    requires CursorMatches(p)
    ensures Planner.UpdateStatus(p, id, raw, note).Ok? ==> PlanOk(Planner.UpdateStatus(p, id, raw, note).value)
  {
    var r := Planner.UpdateStatus(p, id, raw, note);
    if r.Ok? {
      var k := Planner.FindItem(p.items, id).value;
      hide Planner.NextRunnable, Planner.FindItem, Planner.ParseStatus;
      var next := Planner.ParseStatus(raw).value;
      assert r == Planner.Transition(p, k, next, note);
      ItemReplaced(p, k, r.value.items[k]);
      var following :=
        if next == Planner.Done && p.active == Some(p.items[k].id) then Planner.NextRunnable(r.value.items)
        else None;
      if following.Some? { Planner.NextRunnableIndexed(r.value.items); }
    }
  }

  // ---------------------------------------------------------------- the facade

  predicate OthersKept(s: Store, t: Store, run: RunId, r: RunId) {
    r == run || (Lookup(t.plans, r) == Lookup(s.plans, r) && Lookup(t.contexts, r) == Lookup(s.contexts, r))
  }

  lemma OneRunChanged(s: Store, t: Store, run: RunId)
    requires AllAgree(s) && RunAgrees(t, run)
    requires forall r :: OthersKept(s, t, run, r)
    ensures AllAgree(t)
  {
    forall r ensures RunAgrees(t, r) {
      assert OthersKept(s, t, run, r) && RunAgrees(s, r);
    }
  }

  /** Bookkeeping of a checkpoint does not disturb the agreement, for any run. */
  lemma AutoAgrees(s: Store, run: RunId, cfg: Config, ck: string)
    requires AllAgree(s)
    ensures AllAgree(AutoCheckpoint(s, run, cfg, ck))
  {
    CheckpointAgrees(s, run, ck, CONTEXT_KIND, false);
  }

  lemma CheckpointAgrees(s: Store, run: RunId, ck: string, kind: string, withResults: bool)
    requires AllAgree(s)
    ensures AllAgree(WriteCheckpoint(s, run, ck, kind, withResults))
  {
    hide PlanOk, LatestSeq;
    assert RunAgrees(s, run);
    OneRunChanged(s, WriteCheckpoint(s, run, ck, kind, withResults), run);
  }

  /** The last step of every operation that touches the plan. */
  lemma SyncAgrees(s: Store, a: Store, run: RunId, p: Planner.Plan, cfg: Config, ck: string)
    requires AllAgree(s) && run in a.plans && a.plans[run] == p && PlanOk(p)
    requires run in a.contexts ==> ContextOk(a.contexts[run])
    requires forall r :: OthersKept(s, a, run, r)
    ensures Synchronize(a, run, p).Ok? ==> AllAgree(AutoCheckpoint(Synchronize(a, run, p).value, run, cfg, ck))
  {
    if run in a.contexts {
      hide PlanOk, AutoCheckpoint;
      var t := Synchronize(a, run, p).value;
      forall r ensures OthersKept(s, t, run, r) { assert OthersKept(s, a, run, r); }
      OneRunChanged(s, t, run);
      AutoAgrees(t, run, cfg, ck);
    }
  }

  lemma StartAgrees(s: Store, run: RunId, seed: seq<Context.Message>, source: string, items: seq<Planner.RawItem>,
                    memory: map<string, Json.Json>, force: bool, cfg: Config, ck: string)
    requires AllAgree(s)
    ensures var r := StartRun(s, run, seed, source, items, memory, force, cfg, ck); r.Ok? ==> AllAgree(r.value)
  {
    assert RunAgrees(s, run);
    hide AllAgree, PlanOk, Agrees, Planner.CreatePlan, AutoCheckpoint, Synchronize, Context.InitContext;
    InitialOk(s, run, seed, memory, force);
    if !(run in s.plans && run in s.contexts && !force) && Planner.CreatePlan(source, items).Ok?
      && InitialContext(s, run, seed, memory, force).Ok?
    {
      var plan, context := Planner.CreatePlan(source, items).value, InitialContext(s, run, seed, memory, force).value;
      CreatedOk(source, items);
      var a := Append(Append(s, run, RunStarted(|seed|, |items|)), run, PlanCreated(source, items));
      var b := PutContext(Append(PutPlan(a, run, plan), run, ContextInitialized(seed, memory)), run, context);
      OneRunPut(s, b, run, plan, context);
      SyncAgrees(s, b, run, plan, cfg, ck);
    }
  }

  lemma OneRunPut(s: Store, t: Store, run: RunId, p: Planner.Plan, c: Context.Snapshot)
    requires t.plans == s.plans[run := p] && t.contexts == s.contexts[run := c]
    ensures forall r :: OthersKept(s, t, run, r)
  {
  }

  lemma InitialOk(s: Store, run: RunId, seed: seq<Context.Message>, memory: map<string, Json.Json>, force: bool)
    requires RunAgrees(s, run)
    ensures var c := InitialContext(s, run, seed, memory, force); c.Ok? ==> ContextOk(c.value)
  {
  }

  lemma MessageKeeps(s: Store, run: RunId, m: Context.Message)
    requires run in s.contexts ==> ContextOk(s.contexts[run])
    ensures var r := LogMessage(s, run, m);
      r.Ok? ==> (
        && run in s.contexts && run in r.value.contexts && ContextOk(r.value.contexts[run])
        && r.value.plans == s.plans && r.value.contexts == s.contexts[run := r.value.contexts[run]]
        && r.value.contexts[run].plannerVersion == s.contexts[run].plannerVersion
        && r.value.contexts[run].step == s.contexts[run].step)
  {
  }

  lemma MessageAgrees(s: Store, run: RunId, m: Context.Message, cfg: Config, ck: string)
    requires AllAgree(s)
    ensures var r := RecordContextMessage(s, run, m, cfg, ck); r.Ok? ==> AllAgree(r.value)
  {
    hide PlanOk, AutoCheckpoint, LogMessage, ContextOk;
    assert RunAgrees(s, run);
    MessageKeeps(s, run, m);
    var r := LogMessage(s, run, m);
    if r.Ok? {
      OneRunChanged(s, r.value, run);
      AutoAgrees(r.value, run, cfg, ck);
    }
  }

  lemma TurnAgrees(s: Store, run: RunId, item: string, output: string, text: string, meta: map<string, Json.Json>,
                   cfg: Config, ck: string)
    requires AllAgree(s)
    ensures var r := RecordLlmTurn(s, run, item, output, text, meta, cfg, ck); r.Ok? ==> AllAgree(r.value)
  {
    assert RunAgrees(s, run);
    hide AllAgree, ContextOk, AutoCheckpoint, LogMessage, Synchronize, Planner.AttachOutput;
    if run in s.plans && Planner.AttachOutput(s.plans[run], item, output).Ok? {
      var plan := Planner.AttachOutput(s.plans[run], item, output).value;
      AttachOutputOk(s.plans[run], item, output);
      var a := PutPlan(Append(s, run, LlmOutputAttached(item, output)), run, plan);
      var m := Context.Message("assistant", text, None, None, meta);
      MessageKeeps(a, run, m);
      if LogMessage(a, run, m).Ok? {
        SyncAgrees(s, LogMessage(a, run, m).value, run, plan, cfg, ck);
      }
    }
  }

  lemma PendingKept(c: Context.Snapshot, id: ExecId)
    requires ContextOk(c)
    ensures ContextOk(Context.SetPending(c, Context.PendingWith(c.pending, id)))
    ensures ContextOk(Context.ClearPending(c, id))
  {
    WithoutKeepsNoDup(c.pending, id);
  }

  lemma IntentAgrees(s: Store, run: RunId, item: string, id: ExecId, tool: string, op: OperationType, request: Payload,
                     now: real, cfg: Config, ck: string)
    requires AllAgree(s)
    ensures var r := RecordToolIntent(s, run, item, id, tool, op, request, now, cfg, ck); r.Ok? ==> AllAgree(r.value)
  {
    assert RunAgrees(s, run);
    hide AllAgree, IntentExists, Planner.AttachRef, IntentTail, ContextOk;
    if run in s.plans && Planner.AttachRef(s.plans[run], item, id).Ok? {
      var plan := Planner.AttachRef(s.plans[run], item, id).value;
      AttachRefOk(s.plans[run], item, id);
      var a := PutPlan(Append(s, run, IntentRecorded(id, item, tool, op, request)), run, plan);
      IntentTailAgrees(s, a, run, item, id, tool, op, request, now, cfg, ck);
    }
  }

  lemma IntentTailAgrees(s: Store, a: Store, run: RunId, item: string, id: ExecId, tool: string, op: OperationType,
                         request: Payload,
                         now: real, cfg: Config, ck: string)
    requires AllAgree(s) && run in a.plans && PlanOk(a.plans[run])
    requires run in a.contexts ==> ContextOk(a.contexts[run])
    requires a.contexts == s.contexts && a.plans == s.plans[run := a.plans[run]]
    ensures var r := IntentTail(a, run, item, id, tool, op, request, now, cfg, ck); r.Ok? ==> AllAgree(r.value)
  {
    hide AllAgree, ContextOk, PlanOk, AutoCheckpoint, Synchronize, Context.SetPending;
    if run in a.contexts && id != "" {
      var pending := Context.PendingWith(a.contexts[run].pending, id);
      var b := PutContext(Append(a, run, PendingSet(Last(pending), pending)), run,
                          Context.SetPending(a.contexts[run], pending));
      var c := if id in b.records then b else PutRecord(b, id, IntentRecord(run, item, tool, op, request, now));
      PendingKept(a.contexts[run], id);
      SyncAgrees(s, c, run, c.plans[run], cfg, ck);
    }
  }

  lemma DispatchAgrees(s: Store, run: RunId, id: ExecId, now: real, cfg: Config, ck: string)
    requires AllAgree(s)
    ensures var r := RecordToolDispatch(s, run, id, now, cfg, ck); r.Ok? ==> AllAgree(r.value)
  {
    hide Agrees, AutoCheckpoint;
    if id in s.records {
      var a := PutRecord(Append(s, run, DispatchRecorded(id, s.records[id].tool)), id,
                         s.records[id].(status := Dispatched, updatedAt := now));
      assert RunAgrees(s, run);
      OneRunChanged(s, a, run);
      AutoAgrees(a, run, cfg, ck);
    }
  }

  lemma ClearAgrees(s: Store, run: RunId, id: ExecId)
    requires AllAgree(s)
    ensures AllAgree(LogClear(s, run, id))
  {
    hide PlanOk, ContextOk;
    assert RunAgrees(s, run);
    if run in s.contexts { PendingKept(s.contexts[run], id); }
    OneRunChanged(s, LogClear(s, run, id), run);
  }

  lemma ResultAgrees(s: Store, run: RunId, id: ExecId, args: ResultArgs, now: real, cfg: Config, ck: string)
    requires AllAgree(s)
    ensures var r := RecordToolResult(s, run, id, args, now, cfg, ck); r.Ok? ==> AllAgree(r.value)
  {
    hide Agrees, AutoCheckpoint, LogClear, ResultRecordOf, ShouldClear, ResolveStatus;
    var record := ResultRecordOf(Lookup(s.records, id), run, args, now);
    if record.Ok? {
      var r := record.value;
      var a := PutRecord(
          Append(s, run, ResultRecorded(id, r.result, r.status, r.tool, r.op, r.item, r.response.Some?, r.error)),
                         id, r);
      assert RunAgrees(s, run);
      OneRunChanged(s, a, run);
      ClearAgrees(a, run, id);
      AutoAgrees(if ShouldClear(args) then LogClear(a, run, id) else a, run, cfg, ck);
    }
  }

  lemma AdvanceAgrees(s: Store, run: RunId, item: string, status: string, note: Option<string>, cfg: Config, ck: string)
    requires AllAgree(s)
    ensures var r := AdvancePlanItem(s, run, item, status, note, cfg, ck); r.Ok? ==> AllAgree(r.value)
  {
    assert RunAgrees(s, run);
    hide AllAgree, ContextOk, AutoCheckpoint, Synchronize, Planner.UpdateStatus;
    if run in s.plans {
      UpdateOk(s.plans[run], item, status, note);
      var r := LogPlan(s, run, ItemStatusUpdated(item, status, note),
                       Planner.UpdateStatus(s.plans[run], item, status, note));
      if r.Ok? { SyncAgrees(s, r.value, run, r.value.plans[run], cfg, ck); }
    }
  }

  lemma ActiveAgrees(s: Store, run: RunId, item: string, cfg: Config, ck: string)
    requires AllAgree(s)
    ensures var r := SetActivePlanItem(s, run, item, cfg, ck); r.Ok? ==> AllAgree(r.value)
  {
    assert RunAgrees(s, run);
    hide AllAgree, ContextOk, AutoCheckpoint, Synchronize, Planner.SetActive;
    if run in s.plans {
      SetActiveOk(s.plans[run], item);
      var r := LogPlan(s, run, ActiveItemSet(item), Planner.SetActive(s.plans[run], item));
      if r.Ok? { SyncAgrees(s, r.value, run, r.value.plans[run], cfg, ck); }
    }
  }

  /** Plan and context of every run agree again after every operation. */
  lemma {:induction false} PerformAgrees(s: Store, op: Op, now: real, cfg: Config, ck: string)
    requires AllAgree(s)
    ensures Perform(s, op, now, cfg, ck).Ok? ==> AllAgree(Perform(s, op, now, cfg, ck).value)
  {
    hide AllAgree, StartRun, RecordContextMessage, RecordLlmTurn, RecordToolIntent, RecordToolDispatch,
         RecordToolResult, AdvancePlanItem, SetActivePlanItem, WriteCheckpoint;
    match op
    case OpStart(run, seed, source, items, memory, force) =>
      StartAgrees(s, run, seed, source, items, memory, force, cfg, ck);
    case OpMessage(run, m) => MessageAgrees(s, run, m, cfg, ck);
    case OpLlmTurn(run, item, output, text, meta) => TurnAgrees(s, run, item, output, text, meta, cfg, ck);
    case OpIntent(run, item, id, tool, kind, request) =>
      IntentAgrees(s, run, item, id, tool, kind, request, now, cfg, ck);
    case OpDispatch(run, id) => DispatchAgrees(s, run, id, now, cfg, ck);
    case OpResult(run, id, args) => ResultAgrees(s, run, id, args, now, cfg, ck);
    case OpAdvance(run, item, status, note) => AdvanceAgrees(s, run, item, status, note, cfg, ck);
    case OpSetActive(run, item) => ActiveAgrees(s, run, item, cfg, ck);
    case OpCheckpoint(run, kind, withResults) => CheckpointAgrees(s, run, ck, kind, withResults);
  }
}
