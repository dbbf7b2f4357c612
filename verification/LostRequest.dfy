/** Exactly when the loop survives a lost request, and how a run gets its fresh start. */
module LostRequest {
  import opened Prelude
  import opened Models
  import opened Facade
  import opened Executor
  import opened Driver
  import opened DriverLaws
  import Adapter
  import Context
  import Coordinator
  import DriverFrames
  import DriverProgress
  import Effects
  import History
  import Json
  import Text
  import Agreement
  import Planner
  import Recovery
  import Target
  import TargetVerifier
  import Timeouts

  /** Whether the target takes an action does not depend on the receipt it would give. */
  lemma AcceptsAnyReceipt(e: Env, d: Target.Data, k: int, receipt: Target.Receipt)
    requires IsWrite(e, k)
    ensures Accepts(e, d, k) <==> Acceptable(e, d, k, receipt)
  {
    hide IdOf;
    forall other: Target.Receipt ensures Acceptable(e, d, k, other) <==> Acceptable(e, d, k, receipt) {
      OneReceipt(e, d, k, receipt, other);
    }
  }

  lemma OneReceipt(e: Env, d: Target.Data, k: int, a: Target.Receipt, b: Target.Receipt)
    requires IsWrite(e, k)
    ensures Acceptable(e, d, k, a) <==> Acceptable(e, d, k, b)
  {
    hide IdOf;
  }

  /** A request that was lost, whether or not it can be replayed. */
  predicate LostRaw(e: Env, x: State, k: int)
    requires IsWrite(e, k)
  {
    Mine(e, x, k) && !Known(x.channel.data, IdOf(e, k)) && x.store.records[IdOf(e, k)].status == Dispatched
  }

  /** The pass one second later, as the record and the decision show it. */
  lemma LostRecovered(e: Env, x: State, k: int, now: real, w: World)
    requires IsWrite(e, k) && LostRaw(e, x, k) && e.run in x.store.contexts
      && now == x.store.records[IdOf(e, k)].updatedAt + 1.0
    ensures var y := x.(store := Recovery.RecoverRun(PassAt(e, x.channel.data, now), w, x.store));
      && Mine(e, y, k) && e.run in y.store.contexts
      && y.store.records[IdOf(e, k)].status ==
           (if Early(e, k) then Dispatched else if Visible(e, x, k) then VerifiedCommitted else VerifiedNotFound)
  {
    IdNotEmpty(e, k);
    var p := PassAt(e, x.channel.data, now);
    DriverFrames.PassFrame(p, w, x.store);
    PassRecord(e, x.channel.data, now, w, x.store, IdOf(e, k));
    hide IdOf, PassAt, Recovery.RecoverRun, DoneItems, TargetVerifier.AlreadyVisible, Known;
  }

  /** The call's own window is longer than the second that the loop grants. */
  predicate Early(e: Env, k: int)
    requires IsWrite(e, k)
  {
    Timeouts.WaitSeconds(e.script[k].args, WAIT_SECONDS, e.floatOf) > 1.0
  }

  predicate Visible(e: Env, x: State, k: int)
    requires IsWrite(e, k)
  {
    TargetVerifier.AlreadyVisible(x.channel.data, e.script[k].args)
  }

  lemma LostDecision(e: Env, x: State, k: int, now: real)
    requires IsWrite(e, k) && LostRaw(e, x, k) && now == x.store.records[IdOf(e, k)].updatedAt + 1.0
    ensures Coordinator.FinalDecision(PassAt(e, x.channel.data, now), IdOf(e, k),
                                      Some(x.store.records[IdOf(e, k)])).action ==
      Recovery.Replay
      <==> !Early(e, k) && !Visible(e, x, k)
  {
    IdNotEmpty(e, k);
    hide IdOf, TargetVerifier.AlreadyVisible, TargetVerifier.EntryPayload;
  }

  lemma AdvanceKeepsChannel(e: Env, pr: Process, x: State, k: nat, at: Option<Point>)
    ensures Advance(e, pr, x, k, at).0.channel == x.channel
  {
  }

  /** The first call of the turn: with the fault unspent it is lost. */
  lemma FirstCallLost(e: Env, pr: Process, x: State, k: int)
    requires WellScripted(e) && IsWrite(e, k) && Sendable(e, x, k) && IdOf(e, k) !in x.store.records
    requires pr.fault.LostRequest? && !x.channel.spent
    ensures var (y, r) := Execute(e, pr, x, CallOf(e, k), IdOf(e, k));
      r.Ok? ==>
        && r.value == PendingRecovery && y.channel == x.channel.(spent := true) && LostRaw(e, y, k)
        && e.run in y.store.contexts
  {
    PrepareTouches(e, pr, x.store, CallOf(e, k), IdOf(e, k));
    if Prepare(x.store, IdOf(e, k), CallOf(e, k), false, e.cfg, pr.world).Ready? {
      ExecuteReady(e, pr, x, k);
    }
    hide IdOf, RecordToolIntent, RecordToolDispatch, Known, OnlyWrites, Acceptable, Grew, Finish, Adapter.Invoke,
         DoneItems;
  }

  /** The replay of the same turn: the fault is spent, so the target decides. */
  lemma ReplayDecided(e: Env, pr: Process, x: State, k: int)
    requires WellScripted(e) && IsWrite(e, k) && Sendable(e, x, k) && IdOf(e, k) in x.store.records && x.channel.spent
    ensures var (y, r) := Execute(e, pr, x, CallOf(e, k), IdOf(e, k));
      r.Ok? && (IdOf(e, k) in y.channel.data.idempotent <==> Accepts(e, x.channel.data, k))
  {
    var p := Prepare(x.store, IdOf(e, k), CallOf(e, k), false, e.cfg, pr.world);
    assert p.Ready? && p.replay;
    ExecuteReady(e, pr, x, k);
    AcceptsAnyReceipt(e, x.channel.data, k, pr.receipt(|x.store.log|));
    hide IdOf, OnlyWrites, Acceptable, Accepts, Execute, Prepare;
  }

  /** The rest of the turn after the loss. */
  lemma LossResolved(e: Env, pr: Process, x: State, k: int)
    requires WellScripted(e) && IsWrite(e, k) && LostRaw(e, x, k) && e.run in x.store.contexts
      && OnlyWrites(e, x.channel.data) && x.channel.spent
    ensures var (y, flow) := AfterCall(e, pr, x, k, true, None);
      flow.Continue? ==> (IdOf(e, k) in y.channel.data.idempotent <==> Replayable(e, x.channel.data, k))
  {
    var id := IdOf(e, k);
    var now := RecoveryTime(pr, x, id, true);
    var p := PassAt(e, x.channel.data, now);
    var y := x.(store := Recovery.RecoverRun(p, pr.world, x.store));
    LostRecovered(e, x, k, now, pr.world);
    LostDecision(e, x, k, now);
    assert id !in x.channel.data.idempotent;
    hide IdOf, Recovery.RecoverRun, Coordinator.FinalDecision, PassAt, Execute, Advance, WellScripted, Accepts, Known,
         OnlyWrites;
    var (z, flow) := Resolve(e, pr, y, x.store, p, CallOf(e, k), id);
    AdvanceKeepsChannel(e, pr, z, k, None);
    if Coordinator.FinalDecision(p, id, Some(x.store.records[id])).action == Recovery.Replay {
      ReplayDecided(e, pr, y, k);
    }
  }

  /** The first write of a process whose request is lost, with no crash in that turn: if the loop goes on, the write is
      committed if and only if its call window ends within a second, its value was not visible already, and the target
      takes it. */
  lemma {:induction false} LostTurnCommitsIff(e: Env, pr: Process, d: Target.Data, x: State, k: nat)
    requires WellScripted(e) && Core(e, x) && FaultOk(e, pr.fault, d, x) && LandedUpTo(e, x, k) && IsWrite(e, k)
      && Clean(e, x, k)
    requires pr.fault.LostRequest? && !x.channel.spent
    ensures var (y, flow) := ToolStep(e, pr, x, k, None);
      flow.Continue? ==> (IdOf(e, k) in y.channel.data.idempotent <==> Replayable(e, x.channel.data, k))
  {
    hide RecordLlmTurn, AfterCall, IdOf, WellScripted, FaultOk, Replayable, Execute, Known, OnlyWrites, Stands, InOrder,
         DoneLanded;
    var turn, ck := e.script[k], pr.world.uuid(|x.store.log|);
    var r := RecordLlmTurn(x.store, e.run, ItemOf(e, k), turn.output, turn.rationale, turn.meta, e.cfg, ck);
    if r.Ok? {
      var y := x.(store := r.value);
      TurnKeeps(e, pr, d, x, k, r.value, ck);
      Effects.TurnEffect(x.store, OpLlmTurn(e.run, ItemOf(e, k), turn.output, turn.rationale, turn.meta), 0.0, e.cfg,
                         ck);
      FirstCallLost(e, pr, y, k);
      var (z, result) := Execute(e, pr, y, CallOf(e, k), IdOf(e, k));
      if result.Ok? { LossResolved(e, pr, z, k); }
    }
  }

  // ---------------------------------------------------------------- the same for a whole run

  /** A turn that writes nothing leaves the target and the fault alone. */
  lemma OtherExecuteChannel(e: Env, pr: Process, x: State, k: nat)
    requires WellScripted(e) && IsTool(e, k) && !IsWrite(e, k)
    ensures Execute(e, pr, x, CallOf(e, k), IdOf(e, k)).0.channel == x.channel
  {
    var c, id := CallOf(e, k), IdOf(e, k);
    InvokeOther(x.channel, pr.fault, e.query, e.fp, c.ident.tool, c.ident.args, ForwardedId(c, id),
                pr.world.uuid(|x.store.log|), pr.receipt(|x.store.log|));
    hide IdOf, Prepare, Finish, Adapter.Invoke;
  }

  lemma OtherTurnChannel(e: Env, pr: Process, x: State, k: nat, at: Option<Point>)
    requires WellScripted(e) && IsTool(e, k) && !IsWrite(e, k)
    ensures ToolStep(e, pr, x, k, at).0.channel == x.channel
  {
    hide IdOf, WellScripted, Execute, RecordLlmTurn, AfterCall, ItemOf;
    var r := DriverProgress.LoggedTurn(e, pr, x, k);
    if r.Ok? {
      var y := x.(store := r.value);
      OtherExecuteChannel(e, pr, y, k);
      var (z, result) := Execute(e, pr, y, CallOf(e, k), IdOf(e, k));
      if result.Ok? { OtherAfterCall(e, pr, z, k, result.value == PendingRecovery, at); }
    }
  }

  lemma OtherAfterCall(e: Env, pr: Process, x: State, k: nat, pending: bool, at: Option<Point>)
    requires WellScripted(e) && IsTool(e, k) && !IsWrite(e, k)
    ensures AfterCall(e, pr, x, k, pending, at).0.channel == x.channel
  {
    var p := PassAt(e, x.channel.data, RecoveryTime(pr, x, IdOf(e, k), pending));
    var y := x.(store := Recovery.RecoverRun(p, pr.world, x.store));
    AfterCallIs(e, pr, x, k, pending, at);
    OtherExecuteChannel(e, pr, y, k);
    hide IdOf, Execute, Coordinator.FinalDecision, AfterCall, PassAt, Recovery.RecoverRun, Advance, RecoveryTime,
         WellScripted;
    AdvanceKeepsChannel(e, pr,
                        (if pending then Resolve(e, pr, y, x.store, p, CallOf(e, k), IdOf(e, k)) else (y, Continue)).0,
                        k, at);
  }

  /** The target knows this id afterwards exactly if it knew it before. */
  predicate SameFor(x: State, y: State, id: ExecId) {
    id in y.channel.data.idempotent <==> id in x.channel.data.idempotent
  }

  /** No turn touches the id of another one. */
  lemma ExecuteKeepsOthers(e: Env, pr: Process, x: State, k: nat, id: ExecId)
    requires WellScripted(e) && IsTool(e, k) && id != IdOf(e, k)
    ensures SameFor(x, Execute(e, pr, x, CallOf(e, k), IdOf(e, k)).0, id)
  {
    hide IdOf, Execute, Target.Serve, DriverProgress.Sends;
    if IsWrite(e, k) {
      DriverProgress.ExecuteServes(e, pr, x, k);
      var y := Execute(e, pr, x, CallOf(e, k), IdOf(e, k)).0;
      if y.channel.data != x.channel.data {
        var r :| DriverProgress.Sends(e, k, r) && y.channel.data == Target.Serve(x.channel.data, r, e.fp).0;
        DriverProgress.SendsOwn(e, k, r);
        Target.ServeMemory(x.channel.data, r, e.fp);
      }
    } else {
      OtherExecuteChannel(e, pr, x, k);
    }
  }

  lemma AfterCallKeepsOthers(e: Env, pr: Process, x: State, k: nat, pending: bool, at: Option<Point>, id: ExecId)
    requires WellScripted(e) && IsTool(e, k) && id != IdOf(e, k)
    ensures SameFor(x, AfterCall(e, pr, x, k, pending, at).0, id)
  {
    var p := PassAt(e, x.channel.data, RecoveryTime(pr, x, IdOf(e, k), pending));
    var y := x.(store := Recovery.RecoverRun(p, pr.world, x.store));
    AfterCallIs(e, pr, x, k, pending, at);
    ExecuteKeepsOthers(e, pr, y, k, id);
    hide IdOf, Execute, Coordinator.FinalDecision, AfterCall, PassAt, Recovery.RecoverRun, Advance, RecoveryTime,
         WellScripted;
    AdvanceKeepsChannel(e, pr,
                        (if pending then Resolve(e, pr, y, x.store, p, CallOf(e, k), IdOf(e, k)) else (y, Continue)).0,
                        k, at);
  }

  lemma TurnKeepsOthers(e: Env, pr: Process, x: State, k: nat, at: Option<Point>, id: ExecId)
    requires WellScripted(e) && IsTool(e, k) && id != IdOf(e, k)
    ensures SameFor(x, ToolStep(e, pr, x, k, at).0, id)
  {
    hide IdOf, WellScripted, Execute, RecordLlmTurn, AfterCall, ItemOf;
    var r := DriverProgress.LoggedTurn(e, pr, x, k);
    if r.Ok? {
      var y := x.(store := r.value);
      ExecuteKeepsOthers(e, pr, y, k, id);
      var (z, result) := Execute(e, pr, y, CallOf(e, k), IdOf(e, k));
      if result.Ok? { AfterCallKeepsOthers(e, pr, z, k, result.value == PendingRecovery, at, id); }
    }
  }

  lemma FinalKeepsChannel(e: Env, pr: Process, x: State, k: nat, at: Option<Point>)
    requires k < |e.script| && e.script[k].FinalTurn?
    ensures FinalStep(e, pr, x, k, at).0.channel == x.channel
  {
    hide RecordContextMessage, AdvancePlanItem;
  }

  lemma {:induction false} LoopKeepsOthers(e: Env, pr: Process, x: State, k: nat, completed: set<string>, k0: nat)
    requires WellScripted(e) && k0 < k <= |e.script| && IsWrite(e, k0)
    ensures SameFor(x, Loop(e, pr, x, k, completed).0, IdOf(e, k0))
    decreases |e.script| - k
  {
    hide ToolStep, FinalStep, IdOf, ItemOf;
    if k < |e.script| {
      var at := if pr.crash.Some? && pr.crash.value.0 == k then Some(pr.crash.value.1) else None;
      var (y, flow) := if e.script[k].ToolTurn? then ToolStep(e, pr, x, k, at) else FinalStep(e, pr, x, k, at);
      if e.script[k].ToolTurn? {
        TurnKeepsOthers(e, pr, x, k, at, IdOf(e, k0));
      } else {
        FinalKeepsChannel(e, pr, x, k, at);
      }
      LoopKeepsOthers(e, pr, x, k + 1, completed, k0);
      LoopKeepsOthers(e, pr, y, k + 1, completed, k0);
    }
  }

  predicate FirstWriteAt(e: Env, k0: nat) { IsWrite(e, k0) && forall j :: 0 <= j < k0 ==> !IsWrite(e, j) }

  /** The loop up to and over the lost request. */
  lemma {:induction false} LoopCommitsIff(e: Env, pr: Process, d: Target.Data, x: State, k: nat, k0: nat)
    requires WellScripted(e) && Core(e, x) && FaultOk(e, pr.fault, d, x) && LandedUpTo(e, x, k) && k <= k0
      && FirstWriteAt(e, k0)
    requires pr.fault.LostRequest? && !x.channel.spent && x.channel.data == d && pr.crash.None?
    ensures var (y, flow) := Loop(e, pr, x, k, {});
      flow.Continue? ==> (IdOf(e, k0) in y.channel.data.idempotent <==> Replayable(e, d, k0))
    decreases k0 - k
  {
    hide ToolStep, FinalStep, IdOf, ItemOf, Core, FaultOk, LandedUpTo, WellScripted, Replayable;
    var (y, flow) := if e.script[k].ToolTurn? then ToolStep(e, pr, x, k, None) else FinalStep(e, pr, x, k, None);
    if k == k0 {
      UnspentIsClean(e, pr.fault, d, x, k0);
      LostTurnCommitsIff(e, pr, d, x, k0);
      LoopKeepsOthers(e, pr, y, k + 1, {}, k0);
    } else {
      if e.script[k].ToolTurn? {
        ToolStepKeeps(e, pr, d, x, k, None);
        OtherTurnChannel(e, pr, x, k, None);
      } else {
        FinalStepKeeps(e, pr, d, x, k, None);
        FinalKeepsChannel(e, pr, x, k, None);
      }
      if flow.Continue? { LoopCommitsIff(e, pr, d, y, k + 1, k0); }
    }
  }

  lemma UnspentIsClean(e: Env, fault: Adapter.Fault, d: Target.Data, x: State, k: int)
    requires FaultOk(e, fault, d, x) && IsWrite(e, k) && fault.LostRequest? && !x.channel.spent
    ensures Clean(e, x, k)
  {
    hide IdOf, Replayable;
  }

  /** A whole run whose first write loses its request: if its process gets to the end, that write is committed if and
      only if the window, the visible value and the target allowed its replay when the run began. */
  lemma {:induction false} LostRunCommitsIff(e: Env, s: Store, d: Target.Data, pr: Process, k0: nat)
    requires WellScripted(e) && FreshStart(e, s, d) && FirstWriteAt(e, k0) && pr.fault.LostRequest? && pr.crash.None?
    ensures var (x, flow) := RunProcesses(e, s, d, [pr]);
      flow.Continue? ==> (IdOf(e, k0) in x.channel.data.idempotent <==> Replayable(e, d, k0))
  {
    assert DoneItems(s, e.run) == {};
    assert [pr][..0] == [];
    assert RunProcesses(e, s, d, []) == (State(s, Adapter.Channel(d, false)), Crashed);
    assert RunProcesses(e, s, d, [pr]) == RunProcess(e, pr, s, d);
    hide WellScripted, FreshStart, Core, FaultOk, IdOf, Loop, Replayable, DoneItems, RunProcesses;
    StartCore(e, s, d, pr.fault);
    LoopCommitsIff(e, pr, d, State(s, Adapter.Channel(d, false)), 0, k0);
  }

  // ---------------------------------------------------------------- the fresh start

  lemma {:induction false} BuiltPending(raws: seq<Planner.RawItem>, k: nat, seen: set<string>)
    requires k <= |raws| && forall i :: 0 <= i < |raws| ==> raws[i].status.None?
    ensures var r := Planner.BuildItems(raws, k, seen);
      r.Ok? ==> forall x :: x in r.value ==> x.status == Planner.Pending
    decreases |raws| - k
  {
    if k < |raws| {
      var raw := raws[k];
      var id := Text.Strip(if raw.id.Some? && raw.id.value != "" then raw.id.value else "step_" + Json.Digits(k));
      BuiltPending(raws, k + 1, seen + {id});
    }
  }

  lemma NewPlanHasNoneDone(source: string, raws: seq<Planner.RawItem>)
    requires forall i :: 0 <= i < |raws| ==> raws[i].status.None?
    ensures Planner.CreatePlan(source, raws).Ok? ==> DriverFrames.DoneOf(Planner.CreatePlan(source, raws).value) == {}
  {
    var r := Planner.CreatePlan(source, raws);
    if r.Ok? {
      BuiltPending(raws, 0, {});
      var items := Planner.BuildItems(raws, 0, {}).value;
      Agreement.StoredKeeps(items);
      Planner.SameElements(Planner.StoredOrder(items), items);
      hide Planner.BuildItems, Planner.StoredOrder, Planner.SortByIndex, Planner.NextRunnable;
      assert r.value.items == Planner.StoredOrder(items);
      forall i | 0 <= i < |r.value.items| ensures !r.value.items[i].status.Done? {
        assert r.value.items[i] in Planner.StoredOrder(items);
      }
    }
  }

  /** `start_run` on a store without these executions, with a plan of new items, and a reseeded target make a fresh
      start. */
  lemma {:induction false} FreshRunStarts(e: Env, s: Store, seed: seq<Context.Message>, source: string,
                                          raws: seq<Planner.RawItem>, ck: string, d: Target.Data)
    requires (forall i :: 0 <= i < |raws| ==> raws[i].status.None?)
      && (forall k :: IsWrite(e, k) ==> IdOf(e, k) !in s.records)
    requires Target.NothingCommitted(d) && d.actionLog == map[]
    ensures var r := StartRun(s, e.run, seed, source, raws, map[], true, e.cfg, ck); r.Ok? ==> FreshStart(e, r.value, d)
  {
    var r := StartRun(s, e.run, seed, source, raws, map[], true, e.cfg, ck);
    if r.Ok? {
      NewPlanHasNoneDone(source, raws);
      hide Planner.CreatePlan, AutoCheckpoint, Synchronize, IdOf, Context.InitContext;
      var plan, context := Planner.CreatePlan(source, raws).value, Context.InitContext(seed, map[]).value;
      var a := Append(Append(s, e.run, RunStarted(|seed|, |raws|)), e.run, PlanCreated(source, raws));
      var b := PutContext(Append(PutPlan(a, e.run, plan), e.run, ContextInitialized(seed, map[])), e.run, context);
      DriverFrames.SyncKeepsPlans(b, e.run, plan, e.cfg, ck);
      Effects.SyncEffect(b, e.run, plan, e.cfg, ck);
      assert Effects.ViewOf(r.value, e.run).known;
    }
  }

  /** `start_run` of every later process resumes: it changes nothing. */
  lemma RestartResumes(e: Env, s: Store, seed: seq<Context.Message>, source: string, raws: seq<Planner.RawItem>,
                       ck: string)
    requires Agreement.AllAgree(s) && e.run in s.contexts
    ensures StartRun(s, e.run, seed, source, raws, map[], false, e.cfg, ck) == Ok(s)
  {
    assert Agreement.RunAgrees(s, e.run);
  }

  /** From `start_run` to the end: a run that is started with one titled item per turn on a reseeded target completes as
      soon as one process is not made to crash, with every scripted write committed exactly once. */
  lemma {:induction false} StartedRunCompletes(e: Env, s: Store, seed: seq<Context.Message>, source: string,
                                               raws: seq<Planner.RawItem>, ck: string,
                                               d: Target.Data, prs: seq<Process>)
    requires WellScripted(e) && FaultPlan(e, d, prs) && prs != [] && prs[|prs| - 1].crash.None?
    requires History.Sound(s, true) && (forall k :: IsTool(e, k) ==> IdOf(e, k) !in s.records)
    requires DriverProgress.OnlyTitles(raws) && |raws| == e.items && DriverProgress.Spoken(e)
      && DriverProgress.ReadsAnswer(e)
    requires Target.NothingCommitted(d) && d.actionLog == map[] && DriverProgress.Willing(e, d, 0)
    ensures var r := StartRun(s, e.run, seed, source, raws, map[], true, e.cfg, ck);
      r.Ok? ==>
        var (x, flow) := RunProcesses(e, r.value, d, prs);
        && flow.Continue?
        && x.channel.data.idempotent.Keys == WriteIds(e, |e.script|)
        && x.channel.data.stats.total == CountWrites(e, |e.script|)
  {
    assert forall i :: 0 <= i < |raws| ==> raws[i].status.None?;
    assert e.cfg.dedup;
    hide *;
    FreshRunStarts(e, s, seed, source, raws, ck, d);
    DriverProgress.StartProvides(e, s, seed, source, raws, ck, d);
    var r := StartRun(s, e.run, seed, source, raws, map[], true, e.cfg, ck);
    if r.Ok? { DriverProgress.CompletesExactlyOnce(e, r.value, d, prs); }
  }
}
