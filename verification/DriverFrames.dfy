/** What the operations of the step loop leave alone: the finished plan items, and the records of other calls. */
module DriverFrames {
  import opened Prelude
  import opened Models
  import opened Facade
  import opened Driver
  import Context
  import Planner
  import Json
  import Recovery

  // ---------------------------------------------------------------- finished items

  function DoneOf(p: Planner.Plan): set<string> {
    set i | 0 <= i < |p.items| && p.items[i].status.Done? :: p.items[i].id
  }

  lemma ItemKept(p: Planner.Plan, q: Planner.Plan, k: nat)
    requires k < |p.items| && |q.items| == |p.items|
    requires q.items[k].id == p.items[k].id && q.items[k].status == p.items[k].status
    requires forall i :: 0 <= i < |p.items| && i != k ==> q.items[i] == p.items[i]
    ensures DoneOf(q) == DoneOf(p)
  {
    assert forall i :: 0 <= i < |p.items| ==> p.items[i].id == q.items[i].id && p.items[i].status == q.items[i].status;
  }

  lemma AttachKeepsDone(p: Planner.Plan, id: string, text: string)
    ensures Planner.AttachOutput(p, id, text).Ok? ==> DoneOf(Planner.AttachOutput(p, id, text).value) == DoneOf(p)
    ensures Planner.AttachRef(p, id, text).Ok? ==> DoneOf(Planner.AttachRef(p, id, text).value) == DoneOf(p)
  {
    var r, q := Planner.AttachOutput(p, id, text), Planner.AttachRef(p, id, text);
    if r.Ok? { ItemKept(p, r.value, Planner.FindItem(p.items, id).value); }
    if q.Ok? { ItemKept(p, q.value, Planner.FindItem(p.items, id).value); }
  }

  lemma UpdateMakesDone(p: Planner.Plan, id: string, note: Option<string>)
    ensures Planner.UpdateStatus(p, id, "done", note).Ok? ==>
      DoneOf(Planner.UpdateStatus(p, id, "done", note).value) == DoneOf(p) + {id}
  {
    var r := Planner.UpdateStatus(p, id, "done", note);
    if r.Ok? {
      var k := Planner.FindItem(p.items, id).value;
      assert r.value.items[k].status.Done? && r.value.items[k].id == id && p.items[k].id == id;
      forall x ensures x in DoneOf(r.value) <==> x in DoneOf(p) + {id} {
        if x in DoneOf(r.value) {
          var i :| 0 <= i < |r.value.items| && r.value.items[i].status.Done? && r.value.items[i].id == x;
          if i != k { assert p.items[i].status.Done? && p.items[i].id == x; }
        }
        if x in DoneOf(p) {
          var i :| 0 <= i < |p.items| && p.items[i].status.Done? && p.items[i].id == x;
          if i != k { assert r.value.items[i].status.Done? && r.value.items[i].id == x; }
        }
      }
    }
  }

  lemma AutoKeepsPlans(s: Store, run: RunId, cfg: Config, ck: string)
    ensures AutoCheckpoint(s, run, cfg, ck).plans == s.plans
  {
  }

  lemma SyncKeepsPlans(s: Store, run: RunId, p: Planner.Plan, cfg: Config, ck: string)
    ensures Synchronize(s, run, p).Ok? ==> AutoCheckpoint(Synchronize(s, run, p).value, run, cfg, ck).plans == s.plans
  {
    if run in s.contexts { AutoKeepsPlans(Synchronize(s, run, p).value, run, cfg, ck); }
  }

  lemma TurnDone(s: Store, run: RunId, item: string, output: string, text: string, meta: map<string, Json.Json>,
                 cfg: Config, ck: string)
    ensures var r := RecordLlmTurn(s, run, item, output, text, meta, cfg, ck);
      r.Ok? ==> DoneItems(r.value, run) == DoneItems(s, run)
  {
    hide AutoCheckpoint, Synchronize, Planner.AttachOutput, Context.Validate;
    if run in s.plans && Planner.AttachOutput(s.plans[run], item, output).Ok? {
      AttachKeepsDone(s.plans[run], item, output);
      var a := LogPlan(s, run, LlmOutputAttached(item, output), Planner.AttachOutput(s.plans[run], item, output)).value;
      var b := LogMessage(a, run, Context.Message("assistant", text, None, None, meta));
      if b.Ok? { SyncKeepsPlans(b.value, run, b.value.plans[run], cfg, ck); }
    }
  }

  lemma MessageDone(s: Store, run: RunId, m: Context.Message, cfg: Config, ck: string)
    ensures var r := RecordContextMessage(s, run, m, cfg, ck); r.Ok? ==> r.value.plans == s.plans
  {
    hide AutoCheckpoint, Context.AppendMessage;
    if LogMessage(s, run, m).Ok? { AutoKeepsPlans(LogMessage(s, run, m).value, run, cfg, ck); }
  }

  lemma AdvanceDone(s: Store, run: RunId, item: string, cfg: Config, ck: string)
    ensures var r := AdvancePlanItem(s, run, item, "done", None, cfg, ck);
      r.Ok? ==> DoneItems(r.value, run) == DoneItems(s, run) + {item}
  {
    hide AutoCheckpoint, Synchronize, Planner.UpdateStatus;
    if run in s.plans && Planner.UpdateStatus(s.plans[run], item, "done", None).Ok? {
      UpdateMakesDone(s.plans[run], item, None);
      var a := LogPlan(s, run, ItemStatusUpdated(item, "done", None),
                       Planner.UpdateStatus(s.plans[run], item, "done", None)).value;
      SyncKeepsPlans(a, run, a.plans[run], cfg, ck);
    }
  }

  lemma IntentDone(s: Store, run: RunId, item: string, id: ExecId, tool: string, op: OperationType, request: Payload,
                   now: real, cfg: Config, ck: string)
    ensures var r := RecordToolIntent(s, run, item, id, tool, op, request, now, cfg, ck);
      r.Ok? ==> DoneItems(r.value, run) == DoneItems(s, run)
  {
    hide AutoCheckpoint, Synchronize, Planner.AttachRef, HasIntent, Last;
    if run in s.plans && Planner.AttachRef(s.plans[run], item, id).Ok? && run in s.contexts && id != "" {
      AttachKeepsDone(s.plans[run], item, id);
      var a := PutPlan(Append(s, run, IntentRecorded(id, item, tool, op, request)), run,
                       Planner.AttachRef(s.plans[run], item, id).value);
      var pending := Context.PendingWith(a.contexts[run].pending, id);
      var b := PutContext(Append(a, run, PendingSet(Last(pending), pending)), run,
                          Context.SetPending(a.contexts[run], pending));
      var c := if id in b.records then b else PutRecord(b, id, IntentRecord(run, item, tool, op, request, now));
      SyncKeepsPlans(c, run, c.plans[run], cfg, ck);
    }
  }

  lemma DispatchDone(s: Store, run: RunId, id: ExecId, now: real, cfg: Config, ck: string)
    ensures var r := RecordToolDispatch(s, run, id, now, cfg, ck); r.Ok? ==> r.value.plans == s.plans
  {
    hide AutoCheckpoint;
    if id in s.records {
      var a := Append(s, run, DispatchRecorded(id, s.records[id].tool));
      AutoKeepsPlans(PutRecord(a, id, s.records[id].(status := Dispatched, updatedAt := now)),
                     run, cfg, ck);
    }
  }

  lemma ResultDone(s: Store, run: RunId, id: ExecId, args: ResultArgs, now: real, cfg: Config, ck: string)
    ensures var r := RecordToolResult(s, run, id, args, now, cfg, ck); r.Ok? ==> r.value.plans == s.plans
  {
    hide AutoCheckpoint, ResultRecordOf, ResolveStatus, ShouldClear;
    var record := ResultRecordOf(Lookup(s.records, id), run, args, now);
    if record.Ok? {
      var r := record.value;
      var a := PutRecord(
          Append(s, run, ResultRecorded(id, r.result, r.status, r.tool, r.op, r.item, r.response.Some?, r.error)),
                         id, r);
      AutoKeepsPlans(if ShouldClear(args) then LogClear(a, run, id) else a, run, cfg, ck);
    }
  }

  // ---------------------------------------------------------------- a recovery pass

  lemma {:induction false} PassKeeps(p: Recovery.Pass, w: World, s: Store, ids: seq<ExecId>, k: nat)
    requires p.run in s.contexts && k <= 2 * |ids|
    ensures var t := Recovery.Steps(p, w, s, ids, k); t.plans == s.plans && t.records.Keys == s.records.Keys
  {
    hide Recovery.Finding, Recovery.SettledRecord, RecordToolResult, RecordContextMessage, Recovery.HasToolMessage,
         Recovery.ToolMessage, Recovery.FindingArgs;
    if k > 0 {
      PassKeeps(p, w, s, ids, k - 1);
      Recovery.StillKnown(p, w, s, ids, k - 1);
      var u, id := Recovery.Steps(p, w, s, ids, k - 1), ids[(k - 1) / 2];
      if (k - 1) % 2 == 0 {
        Recovery.SettleEffect(p, w, u, id);
        if id in u.records && Recovery.Finding(p, id, u.records[id]).Some? {
          ResultDone(u, p.run, id, Recovery.FindingArgs(p, id, u.records[id]), w.clock(|u.log|), p.cfg,
                     w.uuid(|u.log|));
        }
      } else {
        Recovery.ReconcileEffect(p, w, u, id);
        if Recovery.Lacks(u, p.run, id) {
          MessageDone(u, p.run, Recovery.ToolMessage(id, u.records[id]), p.cfg, w.uuid(|u.log|));
        }
      }
    }
  }

  /** What a recovery pass leaves of the run. */
  lemma PassFrame(p: Recovery.Pass, w: World, s: Store)
    requires p.run in s.contexts
    ensures var t := Recovery.RecoverRun(p, w, s);
      p.run in t.contexts && t.records.Keys == s.records.Keys && t.plans == s.plans
        && DoneItems(t, p.run) == DoneItems(s, p.run)
  {
    hide Recovery.Steps, Recovery.Candidates, Sorted;
    var ids := Sorted(Recovery.Candidates(s, p.run));
    PassKeeps(p, w, s, ids, 2 * |ids|);
    Recovery.StillKnown(p, w, s, ids, 2 * |ids|);
  }
}
