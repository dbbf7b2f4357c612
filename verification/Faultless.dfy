/** A process whose fault was never spent ran as it would have without one. */
module Faultless {
  import opened Prelude
  import opened Models
  import opened Facade
  import opened Executor
  import opened Driver
  import Adapter
  import Coordinator
  import DriverLaws
  import DriverProgress
  import Recovery
  import Target

  function Plain(pr: Process): Process { pr.(fault := Adapter.NoFault) }

  /** A fault stays spent, and what left it unspent happens in the same way without it. */
  predicate Twin(x: State, y: State, same: bool) {
    (x.channel.spent ==> y.channel.spent) && (!y.channel.spent ==> same)
  }

  lemma InvokeTwin(ch: Adapter.Channel, fault: Adapter.Fault, query: Adapter.Query, fp: Target.FloatPlus, tool: string,
                   args: Payload, id: Option<ExecId>, spare: ExecId, receipt: Target.Receipt)
    ensures var r := Adapter.Invoke(ch, fault, query, fp, tool, args, id, spare, receipt);
      && (ch.spent ==> r.0.spent)
      && (!r.0.spent ==> Adapter.Invoke(ch, Adapter.NoFault, query, fp, tool, args, id, spare, receipt) == r)
  {
    hide Target.Serve, Adapter.ActionRequest, Adapter.ReplyPayload;
  }

  lemma ExecuteTwin(e: Env, pr: Process, x: State, c: ToolCall, id: ExecId)
    ensures var r := Execute(e, pr, x, c, id); Twin(x, r.0, Execute(e, Plain(pr), x, c, id) == r)
  {
    hide Prepare, Finish, Adapter.Invoke, AnswerDisposition;
    InvokeTwin(x.channel, pr.fault, e.query, e.fp, c.ident.tool, c.ident.args, ForwardedId(c, id),
               pr.world.uuid(|x.store.log|), pr.receipt(|x.store.log|));
  }

  lemma AdvanceTwin(e: Env, pr: Process, x: State, k: nat, at: Option<Point>)
    ensures var r := Advance(e, pr, x, k, at); r.0.channel == x.channel && Advance(e, Plain(pr), x, k, at) == r
  {
    hide AdvancePlanItem, ItemOf;
  }

  lemma ResolveTwin(e: Env, pr: Process, x: State, before: Store, p: Recovery.Pass, c: ToolCall, id: ExecId)
    ensures var r := Resolve(e, pr, x, before, p, c, id); Twin(x, r.0, Resolve(e, Plain(pr), x, before, p, c, id) == r)
  {
    hide Execute, Coordinator.FinalDecision;
    ExecuteTwin(e, pr, x, c, id);
  }

  lemma AfterCallTwin(e: Env, pr: Process, x: State, k: nat, pending: bool, at: Option<Point>)
    requires IsTool(e, k)
    ensures var r := AfterCall(e, pr, x, k, pending, at); Twin(x, r.0, AfterCall(e, Plain(pr), x, k, pending, at) == r)
  {
    var p := PassAt(e, x.channel.data, RecoveryTime(pr, x, IdOf(e, k), pending));
    assert PassAt(e, x.channel.data, RecoveryTime(Plain(pr), x, IdOf(e, k), pending)) == p;
    var y := x.(store := Recovery.RecoverRun(p, pr.world, x.store));
    AfterCallIs(e, pr, x, k, pending, at);
    AfterCallIs(e, Plain(pr), x, k, pending, at);
    ResolveTwin(e, pr, y, x.store, p, CallOf(e, k), IdOf(e, k));
    var z := (if pending then Resolve(e, pr, y, x.store, p, CallOf(e, k), IdOf(e, k)) else (y, Continue)).0;
    hide IdOf, CallOf, PassAt, RecoveryTime, Recovery.RecoverRun, Resolve, Advance, AfterCall;
    AdvanceTwin(e, pr, z, k, at);
  }

  lemma ToolStepTwin(e: Env, pr: Process, x: State, k: nat, at: Option<Point>)
    requires IsTool(e, k)
    ensures var r := ToolStep(e, pr, x, k, at); Twin(x, r.0, ToolStep(e, Plain(pr), x, k, at) == r)
  {
    hide RecordLlmTurn, Execute, AfterCall, IdOf, CallOf, ItemOf;
    var r := DriverProgress.LoggedTurn(e, pr, x, k);
    if r.Ok? {
      var y := x.(store := r.value);
      ExecuteTwin(e, pr, y, CallOf(e, k), IdOf(e, k));
      var (z, result) := Execute(e, pr, y, CallOf(e, k), IdOf(e, k));
      if result.Ok? { AfterCallTwin(e, pr, z, k, result.value == PendingRecovery, at); }
    }
  }

  lemma FinalStepTwin(e: Env, pr: Process, x: State, k: nat, at: Option<Point>)
    requires k < |e.script| && e.script[k].FinalTurn?
    ensures var r := FinalStep(e, pr, x, k, at); Twin(x, r.0, FinalStep(e, Plain(pr), x, k, at) == r)
  {
    hide RecordContextMessage, Advance;
    var r := DriverProgress.LoggedAnswer(e, pr, x, k);
    if r.Ok? { AdvanceTwin(e, pr, x.(store := r.value), k, at); }
  }

  lemma {:induction false} LoopTwin(e: Env, pr: Process, x: State, k: nat, completed: set<string>)
    requires k <= |e.script|
    ensures var r := Loop(e, pr, x, k, completed); Twin(x, r.0, Loop(e, Plain(pr), x, k, completed) == r)
    decreases |e.script| - k
  {
    hide ToolStep, FinalStep, ItemOf;
    if k < |e.script| {
      if ItemOf(e, k) in completed && k < e.items {
        LoopTwin(e, pr, x, k + 1, completed);
      } else {
        var at := if pr.crash.Some? && pr.crash.value.0 == k then Some(pr.crash.value.1) else None;
        var (y, flow) := if e.script[k].ToolTurn? then ToolStep(e, pr, x, k, at) else FinalStep(e, pr, x, k, at);
        if e.script[k].ToolTurn? { ToolStepTwin(e, pr, x, k, at); } else { FinalStepTwin(e, pr, x, k, at); }
        if flow.Continue? { LoopTwin(e, pr, y, k + 1, completed); }
      }
    }
  }

  /** If the first process never spent its fault, the whole run is one without it. */
  lemma {:induction false} RunTwin(e: Env, s: Store, d: Target.Data, prs: seq<Process>)
    requires prs != [] && !RunProcess(e, prs[0], s, d).0.channel.spent
    ensures DriverLaws.RunProcesses(e, s, d, [Plain(prs[0])] + prs[1..]) == DriverLaws.RunProcesses(e, s, d, prs)
  {
    hide Loop, DoneItems;
    var plain, n := [Plain(prs[0])] + prs[1..], |prs| - 1;
    if n == 0 {
      LoopTwin(e, prs[0], State(s, Adapter.Channel(d, false)), 0, DoneItems(s, e.run));
      assert prs[..0] == [] && plain[..0] == [];
    } else {
      RunTwin(e, s, d, prs[..n]);
      assert plain[..n] == [Plain(prs[..n][0])] + prs[..n][1..] && plain[n] == prs[n];
    }
  }
}
