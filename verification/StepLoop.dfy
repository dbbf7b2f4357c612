/** The step loop as the procedure it is, over the live objects of one process. */
module StepLoop {
  import opened Prelude
  import opened Models
  import opened Facade
  import opened Driver
  import Adapter
  import Context
  import Coordinator
  import Executor
  import Logging
  import Recovery
  import Target
  import Transactions

  /** The first decision about this id. */
  function Chosen(decisions: seq<Recovery.Decision>, id: ExecId): Option<Recovery.Decision> {
    if decisions == [] then None else if decisions[0].id == id then Some(decisions[0]) else Chosen(decisions[1..], id)
  }

  class SampleAgent {
    const e: Env
    const pr: Process
    const service: Logging.LoggingService
    const adapter: Adapter.ReplayToolAdapter
    const manager: Transactions.TransactionManager

    /** The objects of this process are wired together as the program wires them. */
    ghost predicate Wired() {
      && service.cfg == e.cfg && adapter.fault == pr.fault && adapter.query == e.query && adapter.target.fp == e.fp
      && manager.service == service && manager.digest == e.digest && !manager.dispatchReads
    }

    function Now(): State
      reads service, adapter, adapter.target
    {
      State(service.State(), adapter.State())
    }

    /** A new process: a target service on the stored data, an adapter with its fault unspent, a transaction manager. */
    constructor (e: Env, pr: Process, s: Store, d: Target.Data)
      ensures Wired() && this.e == e && this.pr == pr && Now() == State(s, Adapter.Channel(d, false))
      ensures fresh(service) && fresh(adapter) && fresh(adapter.target)
    {
      var service := new Logging.LoggingService(e.cfg, s);
      var target := new Target.MockTargetService(d, e.fp);
      var adapter := new Adapter.ReplayToolAdapter(target, pr.fault, e.query);
      var manager := new Transactions.TransactionManager(service, false, e.digest);
      this.e, this.pr, this.service, this.adapter, this.manager := e, pr, service, adapter, manager;
    }

    method ExecuteCall(k: nat) returns (result: Outcome<Executor.Disposition>)
      requires Wired() && IsTool(e, k)
      modifies service, adapter, adapter.target
      ensures var (y, r) := Driver.Execute(e, pr, old(Now()), CallOf(e, k), IdOf(e, k));
        Now() == y && result.Ok? == r.Ok? && (r.Ok? ==> result == r)
    {
      hide Executor.Prepare, Executor.Finish, Adapter.Invoke;
      var n := |service.log|;
      result := manager.ExecuteTool(CallOf(e, k), adapter, pr.world, pr.world.uuid(n), pr.receipt(n));
    }

    /** `recover_run` with the verifier on the target as it is now. Without a handoff callback a new coordinator is as
        good as an old one. */
    method Recover(now: real) returns (decisions: seq<Recovery.Decision>)
      requires Wired()
      modifies service
      ensures service.State() ==
        Recovery.RecoverRun(PassAt(e, adapter.target.data, now), pr.world, old(service.State()))
      ensures decisions == if e.run in old(service.contexts)
        then
          var ids := Sorted(Recovery.Candidates(old(service.State()), e.run));
          Coordinator.Decisions(PassAt(e, adapter.target.data, now), old(service.State()), ids)
        else []
    {
      var p := PassAt(e, adapter.target.data, now);
      var coordinator :=
        new Coordinator.RecoveryCoordinator(service, WAIT_SECONDS, e.floatOf, p.verifier, (t: real) => "", false);
      hide Recovery.RecoverRun, Coordinator.Decisions, Recovery.Candidates;
      assert coordinator.PassAt(e.run, now) == p;
      decisions := coordinator.RecoverRun(e.run, now, pr.world);
    }

    /** `_resolve_recovered_execution`: the decision about this id, if there is one. */
    method ResolveRecovered(k: nat, decisions: seq<Recovery.Decision>) returns (flow: Flow)
      requires Wired() && IsTool(e, k)
      modifies service, adapter, adapter.target
      ensures var chosen := Chosen(decisions, IdOf(e, k));
        var (y, r) := Driver.Execute(e, pr, old(Now()), CallOf(e, k), IdOf(e, k));
        (Now(), flow) ==
          if chosen.Some? && chosen.value.action == Recovery.Replay then (y, if r.Ok? then Continue else RaisedOut)
          else (old(Now()), Continue)
    {
      hide Driver.Execute, IdOf;
      var i := 0;
      while i < |decisions|
        invariant 0 <= i <= |decisions|
        invariant Chosen(decisions, IdOf(e, k)) == Chosen(decisions[i..], IdOf(e, k))
      {
        if decisions[i].id == IdOf(e, k) {
          if decisions[i].action != Recovery.Replay { return Continue; }
          var result := ExecuteCall(k);
          return if result.Ok? then Continue else RaisedOut;
        }
        i := i + 1;
      }
      return Continue;
    }

    method AdvanceItem(k: nat, at: Option<Point>) returns (flow: Flow)
      requires Wired()
      modifies service
      ensures (Now(), flow) == Advance(e, pr, old(Now()), k, at)
    {
      hide AdvancePlanItem;
      var ok := service.AdvancePlanItem(e.run, ItemOf(e, k), "done", None, pr.world.uuid(|service.log|));
      if !ok { return RaisedOut; }
      return if at == Some(AfterAdvance) then Crashed else Continue;
    }

    method RunToolTurn(k: nat, at: Option<Point>) returns (flow: Flow)
      requires Wired() && IsTool(e, k)
      modifies service, adapter, adapter.target
      ensures (Now(), flow) == ToolStep(e, pr, old(Now()), k, at)
    {
      hide RecordLlmTurn, Driver.Execute, AfterCall, IdOf;
      if at == Some(AfterStart) { return Crashed; }
      var turn := e.script[k];
      var ok := service.RecordLlmTurn(e.run, ItemOf(e, k), turn.output, turn.rationale, turn.meta,
                                      pr.world.uuid(|service.log|));
      if !ok { return RaisedOut; }
      if at == Some(AfterRecord) { return Crashed; }
      ghost var y := Now();
      var result := ExecuteCall(k);
      assert Now() == Driver.Execute(e, pr, y, CallOf(e, k), IdOf(e, k)).0;
      if result.Err? { return RaisedOut; }
      if at == Some(AfterTransaction) { return Crashed; }
      if result.value == Executor.Failed { return RaisedOut; }
      flow := FinishToolTurn(k, result.value == Executor.PendingRecovery, at);
    }

    method FinishToolTurn(k: nat, pending: bool, at: Option<Point>) returns (flow: Flow)
      requires Wired() && IsTool(e, k)
      modifies service, adapter, adapter.target
      ensures (Now(), flow) == AfterCall(e, pr, old(Now()), k, pending, at)
    {
      ghost var x := Now();
      var id := IdOf(e, k);
      var now :=
        if pending && id in service.records then service.records[id].updatedAt + 1.0
        else pr.world.clock(|service.log|);
      var decisions := Recover(now);
      AfterCallIs(e, pr, x, k, pending, at);
      assert now == RecoveryTime(pr, x, id, pending);
      hide AfterCall, RecoveryTime, IdOf, Recovery.RecoverRun, Driver.Execute, Advance, Recovery.Candidates,
           Coordinator.Decisions, PassAt, Resolve, Chosen;
      if at == Some(AfterRecovery) { return Crashed; }
      flow := Continue;
      if pending {
        ResolveIs(e, pr, x, Now(), now, k, decisions);
        flow := ResolveRecovered(k, decisions);
      }
      if !flow.Continue? { return; }
      flow := AdvanceItem(k, at);
    }

    method RunFinalTurn(k: nat, at: Option<Point>) returns (flow: Flow)
      requires Wired() && k < |e.script| && e.script[k].FinalTurn?
      modifies service
      ensures (Now(), flow) == FinalStep(e, pr, old(Now()), k, at)
    {
      hide RecordContextMessage, Advance;
      if at == Some(AfterStart) { return Crashed; }
      var m := Context.Message("assistant", e.script[k].answer, None, None, e.script[k].meta);
      var ok := service.RecordContextMessage(e.run, m, pr.world.uuid(|service.log|));
      if !ok { return RaisedOut; }
      if at == Some(AfterRecord) { return Crashed; }
      flow := AdvanceItem(k, at);
    }

    /** The whole process: the finished items are read once, then turn follows turn until one crashes or raises. */
    method RunProcess() returns (flow: Flow)
      requires Wired() && !adapter.spent
      modifies service, adapter, adapter.target
      ensures (Now(), flow) == Driver.RunProcess(e, pr, old(service.State()), old(adapter.target.data))
    {
      hide ToolStep, FinalStep, DoneItems, ItemOf;
      ghost var x := Now();
      var completed := DoneItems(service.State(), e.run);
      var k := 0;
      flow := Continue;
      while k < |e.script|
        invariant 0 <= k <= |e.script| && flow.Continue?
        invariant Loop(e, pr, Now(), k, completed) == Loop(e, pr, x, 0, completed)
      {
        if !(ItemOf(e, k) in completed && k < e.items) {
          var at := if pr.crash.Some? && pr.crash.value.0 == k then Some(pr.crash.value.1) else None;
          if e.script[k].ToolTurn? { flow := RunToolTurn(k, at); } else { flow := RunFinalTurn(k, at); }
          if !flow.Continue? { return; }
        }
        k := k + 1;
      }
    }
  }

  lemma {:induction false} ChosenAt(decisions: seq<Recovery.Decision>, i: nat)
    requires i < |decisions| && forall j :: 0 <= j < i ==> decisions[j].id != decisions[i].id
    ensures Chosen(decisions, decisions[i].id) == Some(decisions[i])
  {
    if i > 0 { ChosenAt(decisions[1..], i - 1); }
  }

  lemma {:induction false} ChosenNowhere(decisions: seq<Recovery.Decision>, id: ExecId)
    requires forall j :: 0 <= j < |decisions| ==> decisions[j].id != id
    ensures Chosen(decisions, id).None?
  {
    if decisions != [] { ChosenNowhere(decisions[1..], id); }
  }

  lemma DecisionId(p: Recovery.Pass, id: ExecId, r: Option<ExternalResult>)
    ensures Coordinator.FinalDecision(p, id, r).id == id
    ensures r.None? ==> Coordinator.FinalDecision(p, id, r).action == Recovery.Handoff
  {
  }

  /** Looking the decision up in the list is looking at the record before the pass. */
  lemma ChosenIsFinal(p: Recovery.Pass, s: Store, id: ExecId)
    requires p.run in s.contexts
    ensures var chosen := Chosen(Coordinator.Decisions(p, s, Sorted(Recovery.Candidates(s, p.run))), id);
      (chosen.Some? && chosen.value.action == Recovery.Replay) <==>
        (&& id in s.records && s.records[id].run == p.run
         && Coordinator.FinalDecision(p, id, Some(s.records[id])).action == Recovery.Replay)
  {
    hide Coordinator.FinalDecision, Chosen;
    var ids := Sorted(Recovery.Candidates(s, p.run));
    var decisions := Coordinator.Decisions(p, s, ids);
    forall i | 0 <= i < |ids| ensures decisions[i].id == ids[i] {
      DecisionId(p, ids[i], Coordinator.RecordOf(s, p.run, ids[i]));
    }
    if id in ids {
      var i :| 0 <= i < |ids| && ids[i] == id;
      ChosenAt(decisions, i);
      DecisionId(p, id, Coordinator.RecordOf(s, p.run, id));
    } else {
      ChosenNowhere(decisions, id);
    }
  }

  lemma ResolveIs(e: Env, pr: Process, x: State, y: State, now: real, k: nat, decisions: seq<Recovery.Decision>)
    requires IsTool(e, k)
    requires var p := PassAt(e, x.channel.data, now);
      decisions ==
        if e.run in x.store.contexts
        then Coordinator.Decisions(p, x.store, Sorted(Recovery.Candidates(x.store, e.run)))
        else []
    ensures var chosen := Chosen(decisions, IdOf(e, k));
      var (z, r) := Driver.Execute(e, pr, y, CallOf(e, k), IdOf(e, k));
      Resolve(e, pr, y, x.store, PassAt(e, x.channel.data, now), CallOf(e, k), IdOf(e, k)) ==
        if chosen.Some? && chosen.value.action == Recovery.Replay then (z, if r.Ok? then Continue else RaisedOut)
        else (y, Continue)
  {
    hide IdOf, Driver.Execute, Coordinator.FinalDecision, Coordinator.Decisions, Recovery.Candidates, Sorted;
    if e.run in x.store.contexts { ChosenIsFinal(PassAt(e, x.channel.data, now), x.store, IdOf(e, k)); }
  }
}
