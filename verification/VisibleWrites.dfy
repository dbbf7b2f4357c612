/** What a completed run of the step loop leaves to be seen in the state of the target. */
module VisibleWrites {
  import opened Prelude
  import opened Json
  import opened Models
  import opened Executor
  import opened Driver
  import opened DriverLaws
  import opened Facade
  import Adapter
  import Context
  import DriverItems
  import DriverProgress
  import Effects
  import LostRequest
  import Recovery
  import RunChanges
  import Target
  import TargetStates
  import Text

  // ---------------------------------------------------------------- what a scripted write is about

  /** The payload of the action that the arguments ask for. */
  function Fields(args: Payload): Payload {
    if "payload" in args && args["payload"].JObj? then args["payload"].fields else map[]
  }

  /** The arguments set this key. */
  predicate Sets(args: Payload, key: string) {
    && "action_name" in args && args["action_name"] == JStr("set_value") && "payload" in args && args["payload"].JObj?
    && Target.NamesKey(args["payload"].fields, key)
  }

  /** The arguments ask for an action that works on this key. */
  predicate Touches(args: Payload, key: string) {
    "action_name" in args &&
    var action := Adapter.ActionText(args["action_name"]);
    if action == "set_value" || action == "delete_value" || action == "increment_value"
    then Target.NamesKey(Fields(args), key)
    else key == "_applied_actions"
  }

  /** A later write that the target has works on this key. */
  ghost predicate Covered(e: Env, d: Target.Data, k: int, key: string) {
    exists j :: k < j && IsWrite(e, j) && IdOf(e, j) in d.idempotent && Touches(e.script[j].args, key)
  }

  /** A setter that the target has is to be seen, unless a later write works on its key. */
  ghost predicate ShownAt(e: Env, d: Target.Data, k: int, key: string)
    requires IsWrite(e, k)
  {
    Sets(e.script[k].args, key) && IdOf(e, k) in d.idempotent && !Covered(e, d, k, key) ==>
      key in d.domain && d.domain[key] == Target.ValueOf(Fields(e.script[k].args))
  }

  ghost predicate Shown(e: Env, d: Target.Data) { forall k, key :: IsWrite(e, k) ==> ShownAt(e, d, k, key) }

  // ---------------------------------------------------------------- what is said

  /** A tool turn says its rationale as the assistant, and attaches its output to its item. */
  lemma TurnSays(e: Env, pr: Process, x: State, k: nat)
    requires IsTool(e, k) && DriverProgress.LoggedTurn(e, pr, x, k).Ok?
    ensures var t, turn := DriverProgress.LoggedTurn(e, pr, x, k).value, e.script[k];
      && Effects.MessagesOf(t, e.run) == Effects.MessagesOf(x.store, e.run)
           + [Context.Message("assistant", Text.Strip(turn.rationale), None, None, turn.meta)]
      && e.run in x.store.plans && e.run in t.plans
      && exists i :: RunChanges.Said(x.store.plans[e.run], t.plans[e.run], i, ItemOf(e, k), Text.Strip(turn.output))
  {
    var turn, ck := e.script[k], pr.world.uuid(|x.store.log|);
    var m := Context.Message("assistant", turn.rationale, None, None, turn.meta);
    RunChanges.TurnChangesPlan(x.store, e.run, ItemOf(e, k), turn.output, turn.rationale, turn.meta, e.cfg, ck);
    Effects.TurnEffect(x.store, OpLlmTurn(e.run, ItemOf(e, k), turn.output, turn.rationale, turn.meta), 0.0, e.cfg, ck);
    RunChanges.MessageIsTaken(m);
    AssistantStays();
    hide RecordLlmTurn, ItemOf, Context.Validate, RunChanges.Said, RunChanges.Speaks, Text.Strip;
    var t := DriverProgress.LoggedTurn(e, pr, x, k).value;
    assert Effects.ViewOf(t, e.run).messages == Effects.MessagesOf(t, e.run);
  }

  lemma AssistantStays()
    ensures Text.Strip("assistant") == "assistant"
  {
    Text.StripTrims("assistant");
  }

  /** The final turn says the answer as the assistant. */
  lemma {:induction false} AnswerSays(e: Env, pr: Process, x: State, k: nat)
    requires k < |e.script| && e.script[k].FinalTurn? && DriverProgress.LoggedAnswer(e, pr, x, k).Ok?
    ensures var t, turn := DriverProgress.LoggedAnswer(e, pr, x, k).value, e.script[k];
      Effects.MessagesOf(t, e.run) == Effects.MessagesOf(x.store, e.run)
        + [Context.Message("assistant", Text.Strip(turn.answer), None, None, turn.meta)]
  {
    var m := Context.Message("assistant", e.script[k].answer, None, None, e.script[k].meta);
    RunChanges.MessageChangesContext(x.store, e.run, m, e.cfg, pr.world.uuid(|x.store.log|));
    AssistantStays();
    hide RecordContextMessage, RunChanges.Speaks, Text.Strip;
  }

  // ---------------------------------------------------------------- one write is served

  /** What a request of write `j` does to the key of another write. */
  lemma SentChanges(e: Env, d: Target.Data, j: nat, r: Target.Request, key: string)
    requires IsWrite(e, j) && DriverProgress.Sends(e, j, r)
    ensures var f := Target.Serve(d, r, e.fp).0;
      && (!Touches(e.script[j].args, key) ==>
            (key in f.domain <==> key in d.domain) && (key in f.domain ==> f.domain[key] == d.domain[key]))
      && (f != d && Sets(e.script[j].args, key) ==>
            key in f.domain && f.domain[key] == Target.ValueOf(Fields(e.script[j].args)))
  {
    var f := Target.Serve(d, r, e.fp).0;
    DriverProgress.SendsOwn(e, j, r);
    TargetStates.ActionChanges(d, r, e.fp);
    SentAction(e, j, r);
    hide Target.Serve, IdOf, DriverProgress.Sends, Adapter.ActionText, Target.Commits;
    assert f != d ==> Target.Changed(d.domain, f.domain, r.action, r.payload, r.receipt, e.fp);
    hide Target.OneMoreNote, Target.SumIs;
  }

  lemma SentAction(e: Env, j: nat, r: Target.Request)
    requires IsWrite(e, j) && DriverProgress.Sends(e, j, r)
    ensures "action_name" in e.script[j].args && r.IdemReq?
    ensures r.action == Adapter.ActionText(e.script[j].args["action_name"]) && r.payload == Fields(e.script[j].args)
  {
    hide IdOf, Adapter.ActionText;
  }

  lemma ServedIds(e: Env, d: Target.Data, j: nat, r: Target.Request)
    requires IsTool(e, j) && DriverProgress.Sends(e, j, r)
    ensures var f := Target.Serve(d, r, e.fp).0;
      f == d || (IdOf(e, j) !in d.idempotent && f.idempotent.Keys == d.idempotent.Keys + {IdOf(e, j)})
  {
    DriverProgress.SendsOwn(e, j, r);
    Target.ServeMemory(d, r, e.fp);
    Target.ServeDomain(d, r, e.fp);
    hide Target.Serve, IdOf, DriverProgress.Sends, Target.EntryOf;
  }

  lemma {:induction false} ServeShows(e: Env, d: Target.Data, j: nat, r: Target.Request)
    requires WellScripted(e) && DriverProgress.InOrderAt(e, d) && Shown(e, d)
    requires IsWrite(e, j) && DriverProgress.Sends(e, j, r)
    ensures Shown(e, Target.Serve(d, r, e.fp).0)
  {
    var f := Target.Serve(d, r, e.fp).0;
    ServedIds(e, d, j, r);
    hide IdOf, Target.Serve, DriverProgress.Sends, ShownAt;
    if f != d {
      forall k, key | IsWrite(e, k) ensures ShownAt(e, f, k, key) {
        assert ShownAt(e, d, k, key);
        SentChanges(e, d, j, r, key);
        OneShown(e, d, f, j, k, key);
      }
    }
  }

  lemma OneShown(e: Env, d: Target.Data, f: Target.Data, j: nat, k: int, key: string)
    requires WellScripted(e) && DriverProgress.InOrderAt(e, d) && IsWrite(e, j) && IsWrite(e, k)
    requires ShownAt(e, d, k, key) && f != d
    requires IdOf(e, j) !in d.idempotent && f.idempotent.Keys == d.idempotent.Keys + {IdOf(e, j)}
    requires !Touches(e.script[j].args, key) ==>
      (key in f.domain <==> key in d.domain) && (key in f.domain ==> f.domain[key] == d.domain[key])
    requires Sets(e.script[j].args, key) ==>
      key in f.domain && f.domain[key] == Target.ValueOf(Fields(e.script[j].args))
    ensures ShownAt(e, f, k, key)
  {
    hide IdOf, Touches, Sets, Target.ValueOf, Fields;
    if k != j && Sets(e.script[k].args, key) && IdOf(e, k) in f.idempotent && !Covered(e, f, k, key) {
      assert IdOf(e, k) != IdOf(e, j) && !Covered(e, d, k, key);
      assert j > k ==> !Touches(e.script[j].args, key);
      assert j > k;
    }
  }

  // ---------------------------------------------------------------- the loop

  lemma ExecuteShows(e: Env, pr: Process, x: State, j: nat)
    requires WellScripted(e) && IsTool(e, j) && Core(e, x) && Shown(e, x.channel.data)
    ensures Shown(e, Execute(e, pr, x, CallOf(e, j), IdOf(e, j)).0.channel.data)
  {
    DriverProgress.LandedIsThere(e, x);
    hide IdOf, Execute, Target.Serve, DriverProgress.Sends, Shown, DriverProgress.InOrderAt, Core, WellScripted;
    if IsWrite(e, j) {
      DriverProgress.ExecuteServes(e, pr, x, j);
      var y := Execute(e, pr, x, CallOf(e, j), IdOf(e, j)).0;
      if y.channel.data != x.channel.data {
        var r :| DriverProgress.Sends(e, j, r) && y.channel.data == Target.Serve(x.channel.data, r, e.fp).0;
        ServeShows(e, x.channel.data, j, r);
      }
    } else {
      LostRequest.OtherExecuteChannel(e, pr, x, j);
    }
  }

  lemma AfterCallShows(e: Env, pr: Process, d: Target.Data, x: State, j: nat, pending: bool, at: Option<Point>)
    requires WellScripted(e) && IsTool(e, j) && Core(e, x) && FaultOk(e, pr.fault, d, x) && LandedUpTo(e, x, j)
      && Shown(e, x.channel.data)
    ensures Shown(e, AfterCall(e, pr, x, j, pending, at).0.channel.data)
  {
    var now := RecoveryTime(pr, x, IdOf(e, j), pending);
    var p := PassAt(e, x.channel.data, now);
    var y := x.(store := Recovery.RecoverRun(p, pr.world, x.store));
    RecoverStands(e, pr.fault, d, x, now, pr.world, j);
    AfterCallIs(e, pr, x, j, pending, at);
    ExecuteShows(e, pr, y, j);
    DriverItems.ResolveIs(e, pr, y, x.store, p, CallOf(e, j), IdOf(e, j));
    var z := (if pending then Resolve(e, pr, y, x.store, p, CallOf(e, j), IdOf(e, j)) else (y, Continue)).0;
    hide *;
    LostRequest.AdvanceKeepsChannel(e, pr, z, j, at);
  }

  lemma ToolStepShows(e: Env, pr: Process, d: Target.Data, x: State, j: nat, at: Option<Point>)
    requires WellScripted(e) && Core(e, x) && FaultOk(e, pr.fault, d, x) && LossCovered(e, pr.fault, d)
    requires IsTool(e, j) && LandedUpTo(e, x, j) && Shown(e, x.channel.data)
    ensures Shown(e, ToolStep(e, pr, x, j, at).0.channel.data)
  {
    hide ToolStep, Execute, AfterCall, DriverProgress.LoggedTurn, IdOf, CallOf, WellScripted, Core, FaultOk,
         LossCovered, LandedUpTo, Shown;
    if at == Some(AfterStart) || DriverProgress.LoggedTurn(e, pr, x, j).Err? {
      DriverProgress.StoppedStep(e, pr, x, j, at);
    } else {
      DriverProgress.ToolStepIs(e, pr, x, j, at);
      var y := x.(store := DriverProgress.LoggedTurn(e, pr, x, j).value);
      LoggedKeeps(e, pr, d, x, j);
      ExecuteShows(e, pr, y, j);
      DriverProgress.CallDone(e, pr, d, y, j);
      var (z, r) := Execute(e, pr, y, CallOf(e, j), IdOf(e, j));
      if r.Ok? && r.value != Failed { AfterCallShows(e, pr, d, z, j, r.value == PendingRecovery, at); }
    }
  }

  lemma LoggedKeeps(e: Env, pr: Process, d: Target.Data, x: State, j: nat)
    requires Core(e, x) && FaultOk(e, pr.fault, d, x) && IsTool(e, j) && LandedUpTo(e, x, j)
    requires DriverProgress.LoggedTurn(e, pr, x, j).Ok?
    ensures var y := x.(store := DriverProgress.LoggedTurn(e, pr, x, j).value);
      Core(e, y) && FaultOk(e, pr.fault, d, y) && LandedUpTo(e, y, j)
  {
    TurnKeeps(e, pr, d, x, j, DriverProgress.LoggedTurn(e, pr, x, j).value, pr.world.uuid(|x.store.log|));
    hide Core, FaultOk, LandedUpTo;
  }

  lemma {:induction false} LoopShows(e: Env, pr: Process, d: Target.Data, x: State, k: nat, completed: set<string>)
    requires WellScripted(e) && Core(e, x) && FaultOk(e, pr.fault, d, x) && LossCovered(e, pr.fault, d)
    requires k <= |e.script| && LandedUpTo(e, x, k) && CompletedLanded(e, x, completed) && Shown(e, x.channel.data)
    ensures Shown(e, Loop(e, pr, x, k, completed).0.channel.data)
    decreases |e.script| - k
  {
    hide ToolStep, FinalStep, IdOf, ItemOf, WellScripted, Core, FaultOk, LossCovered, Landed, Shown;
    if k < |e.script| {
      if ItemOf(e, k) in completed && k < e.items {
        assert LandedUpTo(e, x, k + 1);
        LoopShows(e, pr, d, x, k + 1, completed);
      } else {
        var at := if pr.crash.Some? && pr.crash.value.0 == k then Some(pr.crash.value.1) else None;
        var (y, flow) := if e.script[k].ToolTurn? then ToolStep(e, pr, x, k, at) else FinalStep(e, pr, x, k, at);
        if e.script[k].ToolTurn? {
          ToolStepKeeps(e, pr, d, x, k, at);
          ToolStepShows(e, pr, d, x, k, at);
        } else {
          FinalStepKeeps(e, pr, d, x, k, at);
          LostRequest.FinalKeepsChannel(e, pr, x, k, at);
        }
        if flow.Continue? { LoopShows(e, pr, d, y, k + 1, completed); }
      }
    }
  }

  lemma {:induction false} ProcessesShow(e: Env, s: Store, d: Target.Data, prs: seq<Process>)
    requires WellScripted(e) && FreshStart(e, s, d) && FaultPlan(e, d, prs)
    ensures Shown(e, RunProcesses(e, s, d, prs).0.channel.data)
  {
    NothingShown(e, s, d);
    hide WellScripted, Core, FaultOk, LossCovered, Loop, FreshStart, DoneItems, CompletedLanded, Shown;
    if prs != [] {
      var rest, pr := prs[..|prs| - 1], prs[|prs| - 1];
      ProcessesShow(e, s, d, rest);
      ProcessesKeep(e, s, d, rest);
      var x := RunProcesses(e, s, d, rest).0;
      if rest == [] {
        StartCore(e, s, d, pr.fault);
        LoopShows(e, pr, d, State(s, Adapter.Channel(d, false)), 0, DoneItems(s, e.run));
      } else {
        RestartOk(e, x, d);
        NoFaultCovered(e, pr.fault, d);
        LoopShows(e, pr, d, State(x.store, Adapter.Channel(x.channel.data, false)), 0, DoneItems(x.store, e.run));
      }
    }
  }

  lemma NothingShown(e: Env, s: Store, d: Target.Data)
    requires FreshStart(e, s, d)
    ensures Shown(e, d)
  {
    hide IdOf, Sets, Touches, DoneItems;
  }

  /** Whatever crashed on the way, a completed run has left the value of every scripted setter to be seen under its key,
      unless a later write of the script works on that key. */
  lemma {:induction false} SettersAreVisible(e: Env, s: Store, d: Target.Data, prs: seq<Process>, k: nat, key: string)
    requires WellScripted(e) && FreshStart(e, s, d) && FaultPlan(e, d, prs)
    requires prs != [] && RunProcesses(e, s, d, prs).1.Continue?
    requires IsWrite(e, k) && Sets(e.script[k].args, key)
    requires forall j :: k < j && IsWrite(e, j) ==> !Touches(e.script[j].args, key)
    ensures var after := RunProcesses(e, s, d, prs).0.channel.data.domain;
      key in after && after[key] == Target.ValueOf(Fields(e.script[k].args))
  {
    ProcessesShow(e, s, d, prs);
    ExactlyOnce(e, s, d, prs);
    hide RunProcesses, FreshStart, FaultPlan, IdOf, Sets, Touches, WellScripted;
    assert IdOf(e, k) in WriteIds(e, |e.script|);
    assert ShownAt(e, RunProcesses(e, s, d, prs).0.channel.data, k, key);
  }
}
