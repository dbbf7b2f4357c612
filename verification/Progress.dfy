/** When the operations of a run are accepted, and what they do to its plan. */
module Progress {
  import opened Prelude
  import opened Json
  import opened Text
  import opened Models
  import opened Facade
  import Audit
  import Context
  import DriverFrames
  import Identity
  import Planner
  import Statuses

  lemma IdNotBlank(digest: string -> string, c: Identity.Call)
    ensures !Blank(Identity.BuildId(digest, c))
  {
    hide Identity.Raw;
    var id := Identity.BuildId(digest, c);
    assert id[0] == 'e' && !IsSpace(id[0]);
  }

  // ---------------------------------------------------------------- the plan

  /** The same items in the same order, and none of them in another status unless it is done now. */
  predicate Progressed(p: Planner.Plan, q: Planner.Plan) {
    && |q.items| == |p.items|
    && forall i :: 0 <= i < |p.items| ==> (
         && q.items[i].id == p.items[i].id && q.items[i].index == p.items[i].index
         && (q.items[i].status == p.items[i].status || q.items[i].status == Planner.Done))
  }

  /** A plan whose items can be finished one by one in any order. */
  predicate Steady(p: Planner.Plan) {
    && Planner.Integrity(p) && Planner.PendingOrDone(p.items)
    && forall i :: 0 <= i < |p.items| ==> p.items[i].index < |p.items|
  }

  lemma StaysSteady(p: Planner.Plan, q: Planner.Plan)
    requires Steady(p) && Progressed(p, q) && Planner.Integrity(q)
    ensures Steady(q)
  {
  }

  lemma SameIds(p: Planner.Plan, q: Planner.Plan, id: string)
    requires Progressed(p, q)
    ensures Planner.HasId(q.items, id) <==> Planner.HasId(p.items, id)
  {
    if Planner.HasId(p.items, id) {
      var i :| 0 <= i < |p.items| && p.items[i].id == id;
      assert q.items[i].id == id;
    }
    if Planner.HasId(q.items, id) {
      var i :| 0 <= i < |q.items| && q.items[i].id == id;
      assert p.items[i].id == id;
    }
  }

  /** Replacing one item by one of the same id keeps a plan whole. */
  lemma ReplacedWhole(p: Planner.Plan, k: nat, x: Planner.Item)
    requires Planner.Integrity(p) && k < |p.items| && x.id == p.items[k].id
    ensures Planner.Integrity(p.(version := p.version + 1, items := p.items[k := x]))
  {
    assert Planner.Ids(p.items[k := x]) == Planner.Ids(p.items);
    Planner.IntegrityKept(p, p.items[k := x]);
  }

  lemma AttachOutputGoes(p: Planner.Plan, id: string, output: string)
    requires Planner.Integrity(p)
    ensures var r := Planner.AttachOutput(p, id, output);
      (r.Ok? <==> Planner.HasId(p.items, id) && !Blank(output))
        && (r.Ok? ==> Progressed(p, r.value) && Planner.Integrity(r.value))
  {
    StripTrims(output);
    hide Strip, Planner.Integrity, Planner.FindItem;
    if Planner.HasId(p.items, id) {
      var k := Planner.FindItem(p.items, id).value;
      ReplacedWhole(p, k, p.items[k].(output := Some(Strip(output)), outputs := p.items[k].outputs + [Strip(output)]));
    }
  }

  lemma AttachRefGoes(p: Planner.Plan, id: string, exec: string)
    requires Planner.Integrity(p)
    ensures var r := Planner.AttachRef(p, id, exec);
      (r.Ok? <==> Planner.HasId(p.items, id) && !Blank(exec))
        && (r.Ok? ==> Progressed(p, r.value) && Planner.Integrity(r.value))
  {
    StripTrims(exec);
    hide Strip, Planner.Integrity, Planner.FindItem;
    if Planner.HasId(p.items, id) {
      var k := Planner.FindItem(p.items, id).value;
      ReplacedWhole(p, k, p.items[k]);
      assert p.items[k := p.items[k]] == p.items;
      ReplacedWhole(p, k, p.items[k].(refs := p.items[k].refs + [Strip(exec)]));
    }
  }

  /** In a steady plan any item may be marked as done, once more included. */
  lemma MarkDoneGoes(p: Planner.Plan, id: string)
    requires Steady(p)
    ensures var r := Planner.UpdateStatus(p, id, "done", None);
      (r.Ok? <==> Planner.HasId(p.items, id)) && (r.Ok? ==> Progressed(p, r.value) && Planner.Integrity(r.value))
  {
    Planner.DoneParses();
    hide Planner.ParseStatus, Planner.FindItem, Planner.NextRunnable, Planner.Integrity;
    if Planner.HasId(p.items, id) {
      var k := Planner.FindItem(p.items, id).value;
      assert Planner.UpdateStatus(p, id, "done", None) == Planner.Transition(p, k, Planner.Done, None);
      var items := p.items[k := p.items[k].(status := Planner.Done)];
      ReplacedWhole(p, k, items[k]);
      if Planner.NextRunnable(items).Some? { MovedWhole(p, items); }
    }
  }

  lemma MovedWhole(p: Planner.Plan, items: seq<Planner.Item>)
    requires Planner.Integrity(p.(version := p.version + 1, items := items)) && Planner.NextRunnable(items).Some?
    requires forall i :: 0 <= i < |items| ==> items[i].index < |items|
    ensures var x := Planner.NextRunnable(items).value;
      Planner.Integrity(p.(version := p.version + 1, items := items, active := Some(x.id), cursor := Some(x.index)))
  {
    Planner.NextRunnableIndexed(items);
  }

  // ---------------------------------------------------------------- the log knows every execution

  lemma {:induction false} LoggedEvent(log: seq<LogEntry>, run: RunId, i: nat)
    requires i < |log| && log[i].run == run
    ensures log[i].event in EventsOf(log, run)
  {
    if i < |log| - 1 { LoggedEvent(log[..|log| - 1], run, i); }
  }

  /** An id whose intent was logged has a record. */
  lemma LoggedIsKnown(s: Store, run: RunId, id: ExecId)
    requires Statuses.Traced(s, true)
    ensures HasIntent(s.log, run, id) ==> id in s.records
  {
    hide Statuses.Trace, EventsOf;
    if HasIntent(s.log, run, id) {
      var i :| 0 <= i < |s.log| && s.log[i].run == run && s.log[i].event.IntentRecorded? && s.log[i].event.id == id;
      LoggedEvent(s.log, run, i);
      Audit.IntentsTraced(EventsOf(s.log, run), s.log[i].event);
      assert Statuses.Matches(EventsOf(s.log, run), s.records, run, id, true);
    }
  }

  // ---------------------------------------------------------------- the facade

  /** The run has a plan and a context, and the plan is whole. */
  predicate Running(s: Store, run: RunId) { run in s.plans && run in s.contexts && Planner.Integrity(s.plans[run]) }

  predicate PlanProgressed(s: Store, t: Store, run: RunId) {
    run in s.plans && run in t.plans && Progressed(s.plans[run], t.plans[run])
  }

  lemma TurnGoes(s: Store, run: RunId, item: string, output: string, text: string, meta: map<string, Json>, cfg: Config,
                 ck: string)
    requires Running(s, run)
    ensures var r := RecordLlmTurn(s, run, item, output, text, meta, cfg, ck);
      && (r.Ok? <==> Planner.HasId(s.plans[run].items, item) && !Blank(output) && !Blank(text))
      && (r.Ok? ==> PlanProgressed(s, r.value, run))
  {
    AttachOutputGoes(s.plans[run], item, output);
    AssistantValid(text, meta);
    hide AutoCheckpoint, Planner.AttachOutput, Context.Validate, Planner.Integrity, Progressed;
    var after := Planner.AttachOutput(s.plans[run], item, output);
    if after.Ok? {
      var a := LogPlan(s, run, LlmOutputAttached(item, output), after).value;
      var b := LogMessage(a, run, Context.Message("assistant", text, None, None, meta));
      if b.Ok? { DriverFrames.SyncKeepsPlans(b.value, run, b.value.plans[run], cfg, ck); }
    }
  }

  lemma AssistantValid(text: string, meta: map<string, Json>)
    ensures Context.Validate(Context.Message("assistant", text, None, None, meta)).Ok? <==> !Blank(text)
  {
    StripTrims("assistant");
    StripTrims(text);
    hide Strip;
  }

  lemma MessageGoes(s: Store, run: RunId, text: string, meta: map<string, Json>, cfg: Config, ck: string)
    requires run in s.contexts
    ensures var r := RecordContextMessage(s, run, Context.Message("assistant", text, None, None, meta), cfg, ck);
      (r.Ok? <==> !Blank(text)) && (r.Ok? ==> r.value.plans == s.plans)
  {
    AssistantValid(text, meta);
    DriverFrames.MessageDone(s, run, Context.Message("assistant", text, None, None, meta), cfg, ck);
    hide AutoCheckpoint, Context.Validate;
  }

  lemma IntentGoes(s: Store, run: RunId, item: string, id: ExecId, tool: string, op: OperationType, request: Payload,
                   now: real, cfg: Config, ck: string)
    requires cfg.dedup && Statuses.Traced(s, true) && Running(s, run) && id !in s.records
    ensures var r := RecordToolIntent(s, run, item, id, tool, op, request, now, cfg, ck);
      && (r.Ok? <==> Planner.HasId(s.plans[run].items, item) && !Blank(id))
      && (r.Ok? ==> PlanProgressed(s, r.value, run) && run in r.value.contexts
                    && id in r.value.records && r.value.records[id] == IntentRecord(run, item, tool, op, request, now))
  {
    AttachRefGoes(s.plans[run], item, id);
    LoggedIsKnown(s, run, id);
    hide AutoCheckpoint, Planner.AttachRef, HasIntent, Planner.Integrity, Progressed, Last, Statuses.Traced;
    var after := Planner.AttachRef(s.plans[run], item, id);
    if after.Ok? {
      IntentTailGoes(PutPlan(Append(s, run, IntentRecorded(id, item, tool, op, request)), run, after.value), run, item,
                     id, tool, op, request, now, cfg, ck);
    }
  }

  lemma IntentTailGoes(a: Store, run: RunId, item: string, id: ExecId, tool: string, op: OperationType,
                       request: Payload, now: real, cfg: Config, ck: string)
    requires run in a.plans && run in a.contexts && id !in a.records && !Blank(id)
    ensures var r := IntentTail(a, run, item, id, tool, op, request, now, cfg, ck);
      && r.Ok? && r.value.plans == a.plans && run in r.value.contexts
      && r.value.records == a.records[id := IntentRecord(run, item, tool, op, request, now)]
  {
    hide Last;
  }

  lemma AdvanceGoes(s: Store, run: RunId, item: string, cfg: Config, ck: string)
    requires Running(s, run) && Steady(s.plans[run])
    ensures var r := AdvancePlanItem(s, run, item, "done", None, cfg, ck);
      (r.Ok? <==> Planner.HasId(s.plans[run].items, item)) && (r.Ok? ==> PlanProgressed(s, r.value, run))
  {
    MarkDoneGoes(s.plans[run], item);
    hide AutoCheckpoint, Planner.UpdateStatus, Planner.Integrity, Progressed;
    var after := Planner.UpdateStatus(s.plans[run], item, "done", None);
    if after.Ok? {
      var a := LogPlan(s, run, ItemStatusUpdated(item, "done", None), after).value;
      DriverFrames.SyncKeepsPlans(a, run, a.plans[run], cfg, ck);
    }
  }

  /** A run that is new to the store or reset is created exactly when its plan and its seed messages are valid. */
  lemma StartGoes(s: Store, run: RunId, seed: seq<Context.Message>, source: string, items: seq<Planner.RawItem>,
                  memory: map<string, Json>, force: bool, cfg: Config, ck: string)
    requires run !in s.contexts || force
    ensures var r := StartRun(s, run, seed, source, items, memory, force, cfg, ck);
      var plan := Planner.CreatePlan(source, items);
      && (r.Ok? <==> plan.Ok? && Context.InitContext(seed, memory).Ok?)
      && (r.Ok? ==>
            && r.value.plans == s.plans[run := plan.value] && run in r.value.contexts
            && r.value.records == s.records && Planner.Integrity(plan.value))
  {
    hide Planner.BuildItems, Planner.StoredOrder, Planner.NextRunnable, Planner.SortByIndex, LatestSeq;
  }
}
