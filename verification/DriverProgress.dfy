/** The step loop also completes: wherever processes were made to crash, one that is not gets to the end. */
module DriverProgress {
  import opened Prelude
  import opened Json
  import opened Text
  import opened Models
  import opened Facade
  import opened Executor
  import opened Driver
  import opened DriverLaws
  import Adapter
  import Agreement
  import Context
  import Coordinator
  import DriverFrames
  import Effects
  import History
  import Identity
  import Planner
  import Progress
  import Rebuild
  import Recovery
  import Statuses
  import Target
  import TargetVerifier

  // ---------------------------------------------------------------- what the loop needs

  /** Nothing that a turn logs is blank. */
  predicate Spoken(e: Env) {
    forall k :: 0 <= k < |e.script| ==>
      match e.script[k]
      case ToolTurn(_, _, _, output, rationale, _) => !Blank(output) && !Blank(rationale)
      case FinalTurn(answer, _) => !Blank(answer)
  }

  /** The other tool turns are queries, and the target answers them. */
  ghost predicate ReadsAnswer(e: Env) {
    forall k :: IsTool(e, k) && !IsWrite(e, k) ==>
      e.script[k].tool == "query-state" && forall d: Target.Data :: Answers(e, d, k)
  }

  predicate Answers(e: Env, d: Target.Data, k: int)
    requires IsTool(e, k)
  {
    e.query(d, e.script[k].args).Ok?
  }

  /** The plan has an item for every turn, to be finished in any order. */
  ghost predicate Planned(e: Env, s: Store) {
    && e.run in s.plans && e.run in s.contexts && Progress.Steady(s.plans[e.run])
    && forall k: nat :: k < e.items ==> Planner.HasId(s.plans[e.run].items, "step_" + Digits(k))
  }

  /** The request that write `k` sends, once. */
  function RequestOf(e: Env, k: int, receipt: Target.Receipt): Outcome<Target.Request>
    requires IsTool(e, k)
  {
    Adapter.ActionRequest(e.script[k].args, IdOf(e, k), receipt)
  }

  /** From turn `k` on, the target takes each write after those before it, whatever receipts it gives. */
  ghost predicate Willing(e: Env, d: Target.Data, k: nat)
    requires k <= |e.script|
    decreases |e.script| - k
  {
    k == |e.script| ||
    if IsWrite(e, k) then
      Accepts(e, d, k) && forall r: Target.Request :: Sends(e, k, r) ==> Willing(e, Target.Serve(d, r, e.fp).0, k + 1)
    else Willing(e, d, k + 1)
  }

  predicate Sends(e: Env, k: int, r: Target.Request)
    requires IsTool(e, k)
  {
    r.IdemReq? && RequestOf(e, k, r.receipt) == Ok(r)
  }

  // ---------------------------------------------------------------- what the loop keeps

  /** The log is sound and the plan can be worked on. */
  ghost predicate Sturdy(e: Env, s: Store) { History.Sound(s, true) && Planned(e, s) }

  /** No write has failed and every query that was made is answered. */
  predicate Fine(e: Env, s: Store, k: int)
    requires IsTool(e, k)
  {
    IdOf(e, k) in s.records ==> (
      var r := s.records[IdOf(e, k)];
      && r.run == e.run
      && (if IsWrite(e, k) then r.op == WRITE && r.status != ExecutionFailed else r.status == Acked))
  }

  ghost predicate AllFine(e: Env, s: Store) { forall k :: IsTool(e, k) ==> Fine(e, s, k) }

  /** Write `k` is the next one that the target lacks. */
  predicate IsNext(e: Env, d: Target.Data, k: int) {
    IsWrite(e, k) && IdOf(e, k) !in d.idempotent && forall j :: 0 <= j < k && IsWrite(e, j) ==>
      IdOf(e, j) in d.idempotent
  }

  /** The target takes what is still to come. */
  ghost predicate Ahead(e: Env, d: Target.Data) { forall k :: IsNext(e, d, k) ==> Willing(e, d, k) }

  ghost predicate Healthy(e: Env, x: State) { Sturdy(e, x.store) && AllFine(e, x.store) && Ahead(e, x.channel.data) }

  // ---------------------------------------------------------------- the store

  lemma StaysSturdy(e: Env, s: Store, t: Store, op: Op, now: real, ck: string)
    requires e.cfg.dedup && Sturdy(e, s) && Perform(s, op, now, e.cfg, ck) == Ok(t) && e.run in t.plans
      && Progress.Progressed(s.plans[e.run], t.plans[e.run])
    ensures Sturdy(e, t)
  {
    History.PerformSound(s, op, now, e.cfg, ck);
    hide Perform, Rebuild.Faithful, Statuses.Traced, Planner.Integrity, Progress.Progressed;
    History.KeysAgree(t);
    assert Agreement.RunAgrees(t, e.run);
    Progress.StaysSteady(s.plans[e.run], t.plans[e.run]);
    forall k: nat | k < e.items ensures Planner.HasId(t.plans[e.run].items, "step_" + Digits(k)) {
      Progress.SameIds(s.plans[e.run], t.plans[e.run], "step_" + Digits(k));
    }
  }

  lemma SturdyRuns(e: Env, s: Store, k: nat)
    requires e.items > 0 && Sturdy(e, s)
    ensures Progress.Running(s, e.run) && Progress.Steady(s.plans[e.run]) && Statuses.Traced(s, true)
    ensures Planner.HasId(s.plans[e.run].items, ItemOf(e, k))
  {
    hide Rebuild.Faithful, Statuses.Traced, Agreement.AllAgree;
  }

  lemma SamePlan(s: Store, t: Store, run: RunId)
    requires run in s.plans && t.plans == s.plans
    ensures Progress.PlanProgressed(s, t, run)
  {
  }

  lemma TurnSturdy(e: Env, s: Store, k: nat, ck: string)
    requires WellScripted(e) && Spoken(e) && IsTool(e, k) && Sturdy(e, s)
    ensures var turn := e.script[k];
      var r := RecordLlmTurn(s, e.run, ItemOf(e, k), turn.output, turn.rationale, turn.meta, e.cfg, ck);
      r.Ok? && Sturdy(e, r.value) && r.value.records == s.records
  {
    var turn := e.script[k];
    SturdyRuns(e, s, k);
    hide RecordLlmTurn, Sturdy, Progress.Running, Progress.Steady, ItemOf, Context.Validate, Progress.Progressed,
         Statuses.Traced;
    Progress.TurnGoes(s, e.run, ItemOf(e, k), turn.output, turn.rationale, turn.meta, e.cfg, ck);
    Effects.TurnEffect(s, OpLlmTurn(e.run, ItemOf(e, k), turn.output, turn.rationale, turn.meta), 0.0, e.cfg, ck);
    var t := RecordLlmTurn(s, e.run, ItemOf(e, k), turn.output, turn.rationale, turn.meta, e.cfg, ck).value;
    StaysSturdy(e, s, t, OpLlmTurn(e.run, ItemOf(e, k), turn.output, turn.rationale, turn.meta), 0.0, ck);
  }

  lemma MessageSturdy(e: Env, s: Store, k: nat, ck: string)
    requires WellScripted(e) && Spoken(e) && k < |e.script| && e.script[k].FinalTurn? && Sturdy(e, s)
    ensures var m := Context.Message("assistant", e.script[k].answer, None, None, e.script[k].meta);
      var r := RecordContextMessage(s, e.run, m, e.cfg, ck);
      r.Ok? && Sturdy(e, r.value) && r.value.records == s.records
  {
    var m := Context.Message("assistant", e.script[k].answer, None, None, e.script[k].meta);
    SturdyRuns(e, s, k);
    hide RecordContextMessage, Sturdy, Progress.Steady, ItemOf, Context.Validate, Progress.Progressed, Statuses.Traced;
    Progress.MessageGoes(s, e.run, e.script[k].answer, e.script[k].meta, e.cfg, ck);
    Effects.MessageEffect(s, e.run, m, e.cfg, ck);
    var t := RecordContextMessage(s, e.run, m, e.cfg, ck).value;
    SamePlan(s, t, e.run);
    StaysSturdy(e, s, t, OpMessage(e.run, m), 0.0, ck);
  }

  lemma AdvanceSturdy(e: Env, pr: Process, x: State, k: nat, at: Option<Point>)
    requires WellScripted(e) && Sturdy(e, x.store)
    ensures var (y, flow) := Advance(e, pr, x, k, at);
      && Sturdy(e, y.store) && y.store.records == x.store.records && y.channel == x.channel
      && flow == if at == Some(AfterAdvance) then Crashed else Continue
  {
    var s, ck := x.store, pr.world.uuid(|x.store.log|);
    SturdyRuns(e, s, k);
    hide AdvancePlanItem, Sturdy, Progress.Running, Progress.Steady, ItemOf, Progress.Progressed, Statuses.Traced;
    Progress.AdvanceGoes(s, e.run, ItemOf(e, k), e.cfg, ck);
    Effects.PlanOpEffect(s, OpAdvance(e.run, ItemOf(e, k), "done", None), 0.0, e.cfg, ck);
    var t := AdvancePlanItem(s, e.run, ItemOf(e, k), "done", None, e.cfg, ck).value;
    StaysSturdy(e, s, t, OpAdvance(e.run, ItemOf(e, k), "done", None), 0.0, ck);
  }

  lemma IntentSturdy(e: Env, s: Store, k: nat, now: real, ck: string)
    requires WellScripted(e) && IsTool(e, k) && Sturdy(e, s) && IdOf(e, k) !in s.records
    ensures var c := CallOf(e, k);
      var r := RecordToolIntent(s, e.run, c.ident.item, IdOf(e, k), c.ident.tool, c.op, c.ident.args, now, e.cfg, ck);
      r.Ok? && Sturdy(e, r.value) && IdOf(e, k) in r.value.records && r.value.records[IdOf(e, k)].status == IntentLogged
  {
    var c := CallOf(e, k);
    SturdyRuns(e, s, k);
    Progress.IdNotBlank(e.digest, c.ident);
    assert c.ident.item == ItemOf(e, k) && c.ident.run == e.run;
    hide RecordToolIntent, Sturdy, Progress.Running, Progress.Steady, ItemOf, Identity.BuildId, Progress.Progressed,
         Statuses.Traced;
    Progress.IntentGoes(s, e.run, c.ident.item, IdOf(e, k), c.ident.tool, c.op, c.ident.args, now, e.cfg, ck);
    var t :=
      RecordToolIntent(s, e.run, c.ident.item, IdOf(e, k), c.ident.tool, c.op, c.ident.args, now, e.cfg, ck).value;
    StaysSturdy(e, s, t, OpIntent(e.run, c.ident.item, IdOf(e, k), c.ident.tool, c.op, c.ident.args), now, ck);
  }

  lemma DispatchSturdy(e: Env, s: Store, id: ExecId, now: real, ck: string)
    requires e.cfg.dedup && Sturdy(e, s)
    ensures var r := RecordToolDispatch(s, e.run, id, now, e.cfg, ck); r.Ok? ==> Sturdy(e, r.value)
  {
    hide RecordToolDispatch, Rebuild.Faithful, Statuses.Traced, Agreement.AllAgree, Progress.Steady;
    DriverFrames.DispatchDone(s, e.run, id, now, e.cfg, ck);
    var r := RecordToolDispatch(s, e.run, id, now, e.cfg, ck);
    if r.Ok? {
      SamePlan(s, r.value, e.run);
      StaysSturdy(e, s, r.value, OpDispatch(e.run, id), now, ck);
    }
  }

  lemma ResultSturdy(e: Env, s: Store, id: ExecId, args: ResultArgs, now: real, ck: string)
    requires e.cfg.dedup && Sturdy(e, s)
    ensures var r := RecordToolResult(s, e.run, id, args, now, e.cfg, ck); r.Ok? ==> Sturdy(e, r.value)
  {
    hide RecordToolResult, Rebuild.Faithful, Statuses.Traced, Agreement.AllAgree, Progress.Steady;
    DriverFrames.ResultDone(s, e.run, id, args, now, e.cfg, ck);
    var r := RecordToolResult(s, e.run, id, args, now, e.cfg, ck);
    if r.Ok? {
      SamePlan(s, r.value, e.run);
      StaysSturdy(e, s, r.value, OpResult(e.run, id, args), now, ck);
    }
  }

  lemma RepairSturdy(e: Env, s: Store, m: Context.Message, ck: string)
    requires e.cfg.dedup && Sturdy(e, s)
    ensures var r := RecordContextMessage(s, e.run, m, e.cfg, ck); r.Ok? ==> Sturdy(e, r.value)
  {
    hide RecordContextMessage, Rebuild.Faithful, Statuses.Traced, Agreement.AllAgree, Progress.Steady;
    DriverFrames.MessageDone(s, e.run, m, e.cfg, ck);
    var r := RecordContextMessage(s, e.run, m, e.cfg, ck);
    if r.Ok? {
      SamePlan(s, r.value, e.run);
      StaysSturdy(e, s, r.value, OpMessage(e.run, m), 0.0, ck);
    }
  }

  lemma {:induction false} StepsSturdy(e: Env, p: Recovery.Pass, w: World, s: Store, ids: seq<ExecId>, k: nat)
    requires e.cfg.dedup && Sturdy(e, s) && p.run == e.run && p.cfg == e.cfg && k <= 2 * |ids|
    ensures Sturdy(e, Recovery.Steps(p, w, s, ids, k))
  {
    hide Sturdy, Recovery.Finding, RecordToolResult, RecordContextMessage, Recovery.ToolMessage, Recovery.FindingArgs,
         Recovery.Lacks;
    if k > 0 {
      StepsSturdy(e, p, w, s, ids, k - 1);
      var t, id := Recovery.Steps(p, w, s, ids, k - 1), ids[(k - 1) / 2];
      if (k - 1) % 2 == 0 {
        if !Recovery.SettleDone(p, t, id) {
          ResultSturdy(e, t, id, Recovery.FindingArgs(p, id, t.records[id]), w.clock(|t.log|), w.uuid(|t.log|));
        }
      } else if Recovery.Lacks(t, p.run, id) {
        assert t.records[id].response.Some? by { LacksResponse(t, p.run, id); }
        RepairSturdy(e, t, Recovery.ToolMessage(id, t.records[id]), w.uuid(|t.log|));
      }
    }
  }

  lemma LacksResponse(s: Store, run: RunId, id: ExecId)
    requires Recovery.Lacks(s, run, id)
    ensures id in s.records && s.records[id].response.Some?
  {
  }

  // ---------------------------------------------------------------- one call

  /** A call that was never logged is prepared. */
  lemma PrepareGoes(e: Env, pr: Process, s: Store, k: nat)
    requires WellScripted(e) && IsTool(e, k) && Sturdy(e, s)
    ensures var p := Prepare(s, IdOf(e, k), CallOf(e, k), false, e.cfg, pr.world);
      Sturdy(e, p.store) && (IdOf(e, k) !in s.records ==> p.Ready? && !p.replay)
  {
    if IdOf(e, k) !in s.records {
      IntentSturdy(e, s, k, pr.world.clock(|s.log|), pr.world.uuid(|s.log|));
      hide Sturdy, IdOf, RecordToolIntent, RecordToolDispatch;
      var c, id := CallOf(e, k), IdOf(e, k);
      var now, ck := pr.world.clock(|s.log|), pr.world.uuid(|s.log|);
      var t := RecordToolIntent(s, e.run, c.ident.item, id, c.ident.tool, c.op, c.ident.args, now, e.cfg, ck).value;
      IntentRuns(e, s, k, t, now, ck);
      DispatchTouches(e, t, id, pr.world.clock(|t.log|), pr.world.uuid(|t.log|));
      DispatchSturdy(e, t, id, pr.world.clock(|t.log|), pr.world.uuid(|t.log|));
    }
  }

  lemma IntentRuns(e: Env, s: Store, k: nat, t: Store, now: real, ck: string)
    requires WellScripted(e) && IsTool(e, k) && Sturdy(e, s) && IdOf(e, k) !in s.records && IdOf(e, k) in t.records
    requires var c := CallOf(e, k);
      RecordToolIntent(s, e.run, c.ident.item, IdOf(e, k), c.ident.tool, c.op, c.ident.args, now, e.cfg, ck) == Ok(t)
    ensures e.run in t.contexts && t.records[IdOf(e, k)].run == e.run && t.records[IdOf(e, k)].status == IntentLogged
  {
    SturdyKnows(e, s);
    hide IdOf, Sturdy, RecordToolIntent;
    IntentTouches(e, s, CallOf(e, k), IdOf(e, k), now, ck);
  }

  lemma SturdyKnows(e: Env, s: Store)
    requires Sturdy(e, s)
    ensures e.run in s.contexts && e.run in s.plans
  {
  }

  lemma ExecuteSturdy(e: Env, pr: Process, x: State, k: nat)
    requires WellScripted(e) && IsTool(e, k) && Sturdy(e, x.store)
    ensures Sturdy(e, Execute(e, pr, x, CallOf(e, k), IdOf(e, k)).0.store)
  {
    PrepareGoes(e, pr, x.store, k);
    hide Sturdy, IdOf, Prepare, RecordToolResult, AnswerArgs, Adapter.Invoke;
    var c, id := CallOf(e, k), IdOf(e, k);
    var p := Prepare(x.store, id, c, false, e.cfg, pr.world);
    if p.Ready? {
      var spare, receipt := pr.world.uuid(|x.store.log|), pr.receipt(|x.store.log|);
      var a := Adapter.Invoke(x.channel, pr.fault, e.query, e.fp, c.ident.tool, c.ident.args, ForwardedId(c, id), spare,
                              receipt).1;
      ResultSturdy(e, p.store, id, AnswerArgs(c, p.replay, a), pr.world.clock(|p.store.log|),
                   pr.world.uuid(|p.store.log|));
    }
  }

  /** Executing a write gives the target its request or nothing. */
  lemma ExecuteServes(e: Env, pr: Process, x: State, k: nat)
    requires WellScripted(e) && IsWrite(e, k)
    ensures var y := Execute(e, pr, x, CallOf(e, k), IdOf(e, k)).0;
      y.channel.data == x.channel.data || exists r ::
        Sends(e, k, r) && y.channel.data == Target.Serve(x.channel.data, r, e.fp).0
  {
    IdNotEmpty(e, k);
    var id, receipt := IdOf(e, k), pr.receipt(|x.store.log|);
    RequestShape(e.script[k].args, id, receipt);
    InvokeApplies(x.channel, pr.fault, e.query, e.fp, e.script[k].args, id, pr.world.uuid(|x.store.log|), receipt);
    hide IdOf, Prepare, Finish, Adapter.Invoke, Adapter.ActionRequest, Target.Serve;
    var r := RequestOf(e, k, receipt);
    if r.Ok? { assert Sends(e, k, r.value); }
  }

  // ---------------------------------------------------------------- what the target still takes

  /** Writes reached the target in script order. */
  ghost predicate InOrderAt(e: Env, d: Target.Data) {
    forall i, j :: 0 <= i < j && IsWrite(e, i) && IsWrite(e, j) && IdOf(e, j) in d.idempotent ==>
      IdOf(e, i) in d.idempotent
  }

  /** In every state of the loop a write has landed exactly when the target has its id. */
  lemma LandedIsThere(e: Env, x: State)
    requires Core(e, x)
    ensures forall k :: IsWrite(e, k) ==> (Landed(e, x, k) <==> IdOf(e, k) in x.channel.data.idempotent)
    ensures InOrderAt(e, x.channel.data)
  {
    forall k | IsWrite(e, k) ensures Landed(e, x, k) <==> IdOf(e, k) in x.channel.data.idempotent {
      assert Stands(e, x, k);
      hide IdOf, Replayable, OnlyWrites;
    }
    forall i, j | 0 <= i < j && IsWrite(e, i) && IsWrite(e, j) && IdOf(e, j) in x.channel.data.idempotent
      ensures IdOf(e, i) in x.channel.data.idempotent
    {
      assert Landed(e, x, j) && !Clean(e, x, j) by { CleanNotLanded(e, x, j); }
    }
  }

  lemma {:induction false} SkipTo(e: Env, d: Target.Data, k: nat, n: nat)
    requires k <= n <= |e.script| && Willing(e, d, k) && forall j :: k <= j < n ==> !IsWrite(e, j)
    ensures Willing(e, d, n)
    decreases n - k
  {
    if k < n { SkipTo(e, d, k + 1, n); }
  }

  /** Once the next write is served, the target takes the rest. */
  lemma AheadServes(e: Env, d: Target.Data, k: nat, r: Target.Request)
    requires WellScripted(e) && Ahead(e, d) && InOrderAt(e, d) && IsNext(e, d, k) && Sends(e, k, r)
    ensures Ahead(e, Target.Serve(d, r, e.fp).0)
  {
    var f := Target.Serve(d, r, e.fp).0;
    SendsOwn(e, k, r);
    ServedOrNot(d, r, e.fp);
    assert Willing(e, d, k);
    WillingAfter(e, d, k, r);
    if f != d {
      assert 0 <= k < |e.script|;
      hide *;
      RestWilling(e, d, f, k);
    }
  }

  lemma RestWilling(e: Env, d: Target.Data, f: Target.Data, k: nat)
    requires WellScripted(e) && InOrderAt(e, d) && IsNext(e, d, k)
      && f.idempotent.Keys == d.idempotent.Keys + {IdOf(e, k)}
    requires k < |e.script| && Willing(e, f, k + 1)
    ensures Ahead(e, f)
  {
    hide IsNext, Willing, WellScripted, InOrderAt, IdOf;
    forall n | IsNext(e, f, n) ensures 0 <= n <= |e.script| && Willing(e, f, n) {
      NextAfter(e, d, f, k, n);
      SkipTo(e, f, k + 1, n);
    }
  }

  lemma WillingAfter(e: Env, d: Target.Data, k: nat, r: Target.Request)
    requires IsWrite(e, k) && Willing(e, d, k) && Sends(e, k, r)
    ensures Willing(e, Target.Serve(d, r, e.fp).0, k + 1)
  {
    hide Target.Serve, Sends, Accepts, IdOf;
  }

  lemma ServedOrNot(d: Target.Data, r: Target.Request, fp: Target.FloatPlus)
    requires r.IdemReq?
    ensures var f := Target.Serve(d, r, fp).0; f == d || f.idempotent.Keys == d.idempotent.Keys + {r.id}
  {
    Target.ServeMemory(d, r, fp);
    Target.ServeDomain(d, r, fp);
    hide Target.Serve;
  }

  lemma SendsOwn(e: Env, k: nat, r: Target.Request)
    requires IsTool(e, k) && Sends(e, k, r)
    ensures r.IdemReq? && r.id == IdOf(e, k)
  {
    hide IdOf;
  }

  lemma NextAfter(e: Env, d: Target.Data, f: Target.Data, k: nat, n: int)
    requires WellScripted(e) && InOrderAt(e, d) && IsNext(e, d, k) && IsNext(e, f, n)
      && f.idempotent.Keys == d.idempotent.Keys + {IdOf(e, k)}
    ensures k < n <= |e.script| && forall j :: k < j < n ==> !IsWrite(e, j)
  {
    hide IdOf;
    forall j | IsWrite(e, j) ensures IdOf(e, j) in f.idempotent.Keys <==> IdOf(e, j) in d.idempotent.Keys || j == k {}
  }

  /** The next write is accepted. */
  lemma NextAccepted(e: Env, x: State, k: nat)
    requires Core(e, x) && LandedUpTo(e, x, k) && IsWrite(e, k) && !Landed(e, x, k) && Ahead(e, x.channel.data)
    ensures IsNext(e, x.channel.data, k) && Accepts(e, x.channel.data, k) && InOrderAt(e, x.channel.data)
  {
    LandedIsThere(e, x);
    hide IdOf, Landed, Accepts, Core;
  }

  // ---------------------------------------------------------------- a call in the loop

  lemma FineFrame(e: Env, s: Store, t: Store, k: nat)
    requires WellScripted(e) && IsTool(e, k) && AllFine(e, s) && TouchedOnly(e, s, t, IdOf(e, k)) && Fine(e, t, k)
    requires forall j :: IsTool(e, j) && IdOf(e, j) == IdOf(e, k) ==> (IsWrite(e, j) <==> IsWrite(e, k))
    ensures AllFine(e, t)
  {
    hide IdOf, DoneItems;
    forall j | IsTool(e, j) ensures Fine(e, t, j) {
      assert Fine(e, s, j);
      if IdOf(e, j) != IdOf(e, k) { assert Lookup(t.records, IdOf(e, j)) == Lookup(s.records, IdOf(e, j)); }
    }
  }

  lemma SameKind(e: Env, k: nat)
    requires WellScripted(e) && IsTool(e, k)
    ensures forall j :: IsTool(e, j) && IdOf(e, j) == IdOf(e, k) ==> (IsWrite(e, j) <==> IsWrite(e, k))
  {
    hide IdOf;
  }

  /** A write that is not refused: it lands or is lost, and nothing else is disturbed. */
  lemma WriteGoes(e: Env, pr: Process, x: State, k: nat)
    requires WellScripted(e) && Core(e, x) && IsWrite(e, k) && LandedUpTo(e, x, k) && Healthy(e, x)
    ensures var (y, r) := Execute(e, pr, x, CallOf(e, k), IdOf(e, k)); r.Ok? && r.value != Failed && Healthy(e, y)
  {
    ExecuteSturdy(e, pr, x, k);
    assert Stands(e, x, k) && Fine(e, x.store, k);
    if Clean(e, x, k) || Missing(e, x, k) {
      OpenWriteGoes(e, pr, x, k);
    } else {
      ExecuteKnown(e, pr, x, k);
    }
  }

  lemma OpenNotLanded(e: Env, x: State, k: nat)
    requires IsWrite(e, k) && (Clean(e, x, k) || Missing(e, x, k))
    ensures !Landed(e, x, k)
  {
    hide IdOf, Replayable;
  }

  lemma ReadyToSend(e: Env, pr: Process, x: State, k: nat)
    requires WellScripted(e) && IsWrite(e, k) && Sendable(e, x, k) && Sturdy(e, x.store)
    ensures Prepare(x.store, IdOf(e, k), CallOf(e, k), false, e.cfg, pr.world).Ready?
  {
    PrepareGoes(e, pr, x.store, k);
    hide IdOf, Sturdy, RecordToolIntent, RecordToolDispatch, OnlyWrites, Known;
  }

  lemma OutcomeFine(e: Env, pr: Process, x: State, y: State, k: nat, r: Disposition, replay: bool,
                    receipt: Target.Receipt)
    requires IsWrite(e, k) && Mine(e, y, k) && Accepts(e, x.channel.data, k)
      && Outcomes(e, pr.fault, x, y, k, r, replay, receipt)
    ensures r != Failed && Fine(e, y.store, k)
  {
    assert Acceptable(e, x.channel.data, k, receipt);
    hide IdOf, Acceptable, Grew;
  }

  lemma OpenWriteGoes(e: Env, pr: Process, x: State, k: nat)
    requires WellScripted(e) && Core(e, x) && IsWrite(e, k) && LandedUpTo(e, x, k) && Healthy(e, x)
      && (Clean(e, x, k) || Missing(e, x, k))
    ensures var (y, r) := Execute(e, pr, x, CallOf(e, k), IdOf(e, k));
      r.Ok? && r.value != Failed && AllFine(e, y.store) && Ahead(e, y.channel.data)
  {
    var (y, r) := Execute(e, pr, x, CallOf(e, k), IdOf(e, k));
    CleanOrMissing(e, x, k);
    OpenNotLanded(e, x, k);
    hide Stands, Clean, Landed, Lost, Missing, IdOf;
    ReadyToSend(e, pr, x, k);
    ExecuteReady(e, pr, x, k);
    NextAccepted(e, x, k);
    ExecuteServes(e, pr, x, k);
    SameKind(e, k);
    hide *;
    OutcomeFine(e, pr, x, y, k, r.value, IdOf(e, k) in x.store.records, pr.receipt(|x.store.log|));
    FineFrame(e, x.store, y.store, k);
    if y.channel.data != x.channel.data {
      var q :| Sends(e, k, q) && y.channel.data == Target.Serve(x.channel.data, q, e.fp).0;
      AheadServes(e, x.channel.data, k, q);
    }
  }

  /** A query is answered, now or long ago. */
  lemma ReadGoes(e: Env, pr: Process, x: State, k: nat)
    requires WellScripted(e) && ReadsAnswer(e) && IsTool(e, k) && !IsWrite(e, k) && Healthy(e, x)
    ensures var (y, r) := Execute(e, pr, x, CallOf(e, k), IdOf(e, k));
      r.Ok? && r.value != Failed && r.value != PendingRecovery && Healthy(e, y) && y.channel == x.channel
  {
    var (y, r) := Execute(e, pr, x, CallOf(e, k), IdOf(e, k));
    assert Fine(e, x.store, k);
    SturdyKnows(e, x.store);
    ExecuteSturdy(e, pr, x, k);
    SameKind(e, k);
    if IdOf(e, k) in x.store.records {
      KnownReadGoes(e, pr, x, k);
    } else {
      NewReadGoes(e, pr, x, k);
      hide Execute, IdOf, Sturdy, Fine, TouchedOnly, WellScripted;
      FineFrame(e, x.store, y.store, k);
    }
  }

  lemma KnownReadGoes(e: Env, pr: Process, x: State, k: nat)
    requires IsTool(e, k) && !IsWrite(e, k) && Fine(e, x.store, k) && IdOf(e, k) in x.store.records
    ensures Execute(e, pr, x, CallOf(e, k), IdOf(e, k)) == (x, Ok(Reused))
  {
    hide IdOf, RecordToolIntent, RecordToolDispatch, RecordToolResult, Adapter.Invoke;
  }

  lemma NewReadGoes(e: Env, pr: Process, x: State, k: nat)
    requires WellScripted(e) && ReadsAnswer(e) && IsTool(e, k) && !IsWrite(e, k) && Sturdy(e, x.store)
      && IdOf(e, k) !in x.store.records
    ensures var (y, r) := Execute(e, pr, x, CallOf(e, k), IdOf(e, k));
      r == Ok(Succeeded) && TouchedOnly(e, x.store, y.store, IdOf(e, k)) && Fine(e, y.store, k)
        && y.channel == x.channel
  {
    var c, id, s := CallOf(e, k), IdOf(e, k), x.store;
    SturdyKnows(e, s);
    PrepareGoes(e, pr, s, k);
    PrepareTouches(e, pr, s, c, id);
    assert Answers(e, x.channel.data, k);
    assert c.op == READ && c.ident.tool == "query-state";
    hide IdOf, Prepare, Finish, TouchedOnly, AnswerStatus, AnswerDisposition, Sturdy, WellScripted, ReadsAnswer;
    var p := Prepare(s, id, c, false, e.cfg, pr.world);
    var spare, receipt := pr.world.uuid(|s.log|), pr.receipt(|s.log|);
    QueryAnswered(x.channel, pr.fault, e.query, e.fp, c.ident.args, ForwardedId(c, id), spare, receipt);
    var a := Adapter.Invoke(x.channel, pr.fault, e.query, e.fp, c.ident.tool, c.ident.args, ForwardedId(c, id), spare,
                            receipt).1;
    hide Adapter.Invoke;
    ReadyInContext(e, s, p.store, id);
    FinishTouches(e, pr, p.store, c, id, false, a);
    TouchedTwice(e, s, p.store, Finish(p.store, id, c, false, a, e.cfg, pr.world).value, id);
    ReadTable(c, a);
  }

  lemma QueryAnswered(ch: Adapter.Channel, fault: Adapter.Fault, query: Adapter.Query, fp: Target.FloatPlus,
                      args: Payload, id: Option<ExecId>,
                      spare: ExecId, receipt: Target.Receipt)
    requires query(ch.data, args).Ok?
    ensures var (after, a) := Adapter.Invoke(ch, fault, query, fp, "query-state", args, id, spare, receipt);
      after == ch && a.Answered?
  {
  }

  lemma ReadTable(c: ToolCall, a: Answer)
    requires a.Answered?
    ensures AnswerStatus(c, false, a) == Acked && AnswerDisposition(c, a) == Succeeded
  {
  }

  /** One call of the loop, in any healthy state. */
  lemma ExecuteGoes(e: Env, pr: Process, x: State, k: nat)
    requires WellScripted(e) && ReadsAnswer(e) && Core(e, x) && IsTool(e, k) && LandedUpTo(e, x, k) && Healthy(e, x)
    ensures var (y, r) := Execute(e, pr, x, CallOf(e, k), IdOf(e, k));
      r.Ok? && r.value != Failed && Healthy(e, y) && (!IsWrite(e, k) ==> r.value != PendingRecovery)
  {
    hide *;
    if IsWrite(e, k) { WriteGoes(e, pr, x, k); } else { ReadGoes(e, pr, x, k); }
  }

  // ---------------------------------------------------------------- a turn

  lemma RecoverHealthy(e: Env, x: State, now: real, w: World)
    requires WellScripted(e) && Core(e, x) && Healthy(e, x)
    ensures Healthy(e, x.(store := Recovery.RecoverRun(PassAt(e, x.channel.data, now), w, x.store)))
  {
    var p := PassAt(e, x.channel.data, now);
    var t := Recovery.RecoverRun(p, w, x.store);
    CoreKnows(e, x);
    StepsSturdy(e, p, w, x.store, Sorted(Recovery.Candidates(x.store, p.run)),
                2 * |Sorted(Recovery.Candidates(x.store, p.run))|);
    assert Sturdy(e, t);
    DriverFrames.PassFrame(p, w, x.store);
    hide Sturdy, IdOf, Recovery.RecoverRun, Core, Ahead, DoneItems;
    forall k | IsTool(e, k) ensures Fine(e, t, k) {
      assert Fine(e, x.store, k);
      if IdOf(e, k) in x.store.records { FineAfterPass(e, x.channel.data, now, w, x.store, k); }
    }
  }

  lemma FineAfterPass(e: Env, d: Target.Data, now: real, w: World, s: Store, k: nat)
    requires IsTool(e, k) && Fine(e, s, k) && IdOf(e, k) in s.records && e.run in s.contexts
    ensures Fine(e, Recovery.RecoverRun(PassAt(e, d, now), w, s), k)
  {
    IdNotEmpty(e, k);
    hide IdOf, Recovery.RecoverRun, PassAt, Recovery.Deadline, Known, TargetVerifier.AlreadyVisible;
    PassRecord(e, d, now, w, s, IdOf(e, k));
  }

  /** From the pass to the end of the turn. */
  lemma AfterCallGoes(e: Env, pr: Process, d: Target.Data, x: State, k: nat, pending: bool, at: Option<Point>)
    requires WellScripted(e) && ReadsAnswer(e) && Core(e, x) && FaultOk(e, pr.fault, d, x) && IsTool(e, k)
      && LandedUpTo(e, x, k) && Healthy(e, x)
    ensures var (y, flow) := AfterCall(e, pr, x, k, pending, at); Healthy(e, y) && (at.None? ==> flow.Continue?)
  {
    var now := RecoveryTime(pr, x, IdOf(e, k), pending);
    var p := PassAt(e, x.channel.data, now);
    var y := x.(store := Recovery.RecoverRun(p, pr.world, x.store));
    RecoverStands(e, pr.fault, d, x, now, pr.world, k);
    RecoverHealthy(e, x, now, pr.world);
    AfterCallIs(e, pr, x, k, pending, at);
    hide *;
    ResolveGoes(e, pr, x, y, k, p, pending);
    var z := (if pending then Resolve(e, pr, y, x.store, p, CallOf(e, k), IdOf(e, k)) else (y, Continue)).0;
    AdvanceHealthy(e, pr, z, k, at);
  }

  lemma ResolveGoes(e: Env, pr: Process, x: State, y: State, k: nat, p: Recovery.Pass, pending: bool)
    requires WellScripted(e) && ReadsAnswer(e) && Core(e, y) && IsTool(e, k) && LandedUpTo(e, y, k) && Healthy(e, y)
    ensures var (z, flow) := if pending then Resolve(e, pr, y, x.store, p, CallOf(e, k), IdOf(e, k)) else (y, Continue);
      Healthy(e, z) && flow.Continue?
  {
    ExecuteGoes(e, pr, y, k);
    hide Execute, IdOf, Healthy, Coordinator.FinalDecision;
  }

  lemma AdvanceHealthy(e: Env, pr: Process, x: State, k: nat, at: Option<Point>)
    requires WellScripted(e) && Healthy(e, x)
    ensures var (y, flow) := Advance(e, pr, x, k, at);
      Healthy(e, y) && flow == if at == Some(AfterAdvance) then Crashed else Continue
  {
    AdvanceSturdy(e, pr, x, k, at);
    hide Sturdy, Advance, WellScripted, Ahead;
  }

  /** The state after the turn was logged. */
  function LoggedTurn(e: Env, pr: Process, x: State, k: nat): Outcome<Store>
    requires IsTool(e, k)
  {
    var turn := e.script[k];
    RecordLlmTurn(x.store, e.run, ItemOf(e, k), turn.output, turn.rationale, turn.meta, e.cfg,
                  pr.world.uuid(|x.store.log|))
  }

  lemma TurnHealthy(e: Env, pr: Process, d: Target.Data, x: State, k: nat)
    requires WellScripted(e) && Spoken(e) && Core(e, x) && FaultOk(e, pr.fault, d, x) && IsTool(e, k)
      && LandedUpTo(e, x, k) && Healthy(e, x)
    ensures var r := LoggedTurn(e, pr, x, k);
      r.Ok? && var y := x.(store := r.value);
        Healthy(e, y) && Core(e, y) && FaultOk(e, pr.fault, d, y) && LandedUpTo(e, y, k)
  {
    TurnSturdy(e, x.store, k, pr.world.uuid(|x.store.log|));
    hide RecordLlmTurn, ItemOf, IdOf, WellScripted, Core, FaultOk, Landed, Sturdy, Spoken, Ahead;
    TurnKeeps(e, pr, d, x, k, LoggedTurn(e, pr, x, k).value, pr.world.uuid(|x.store.log|));
  }

  /** A tool turn, step by step. */
  lemma ToolStepIs(e: Env, pr: Process, x: State, k: nat, at: Option<Point>)
    requires IsTool(e, k) && LoggedTurn(e, pr, x, k).Ok?
    ensures var y := x.(store := LoggedTurn(e, pr, x, k).value);
      var (z, result) := Execute(e, pr, y, CallOf(e, k), IdOf(e, k));
      ToolStep(e, pr, x, k, at) ==
        if at == Some(AfterStart) then (x, Crashed)
        else if at == Some(AfterRecord) then (y, Crashed)
        else if result.Err? then (z, RaisedOut)
        else if at == Some(AfterTransaction) then (z, Crashed)
        else if result.value == Failed then (z, RaisedOut)
        else AfterCall(e, pr, z, k, result.value == PendingRecovery, at)
  {
    hide RecordLlmTurn, ItemOf, IdOf, Execute, AfterCall;
  }

  lemma StoppedStep(e: Env, pr: Process, x: State, k: nat, at: Option<Point>)
    requires IsTool(e, k) && (at == Some(AfterStart) || LoggedTurn(e, pr, x, k).Err?)
    ensures ToolStep(e, pr, x, k, at).0 == x && !ToolStep(e, pr, x, k, at).1.Continue?
  {
    hide RecordLlmTurn, Execute, AfterCall, ItemOf;
  }

  /** A tool turn in a healthy state. */
  lemma ToolStepGoes(e: Env, pr: Process, d: Target.Data, x: State, k: nat, at: Option<Point>)
    requires WellScripted(e) && Spoken(e) && ReadsAnswer(e) && Core(e, x) && FaultOk(e, pr.fault, d, x)
      && LossCovered(e, pr.fault, d)
    requires IsTool(e, k) && LandedUpTo(e, x, k) && Healthy(e, x)
    ensures var (y, flow) := ToolStep(e, pr, x, k, at); Healthy(e, y) && (at.None? ==> flow.Continue?)
  {
    hide *;
    TurnHealthy(e, pr, d, x, k);
    ToolStepIs(e, pr, x, k, at);
    var y := x.(store := LoggedTurn(e, pr, x, k).value);
    ExecuteGoes(e, pr, y, k);
    CallDone(e, pr, d, y, k);
    var (z, result) := Execute(e, pr, y, CallOf(e, k), IdOf(e, k));
    AfterCallGoes(e, pr, d, z, k, result.value == PendingRecovery, at);
  }

  /** What the laws of execution say about a call that was not refused. */
  lemma CallDone(e: Env, pr: Process, d: Target.Data, x: State, k: nat)
    requires WellScripted(e) && Core(e, x) && FaultOk(e, pr.fault, d, x) && LossCovered(e, pr.fault, d) && IsTool(e, k)
      && LandedUpTo(e, x, k)
    ensures var (y, r) := Execute(e, pr, x, CallOf(e, k), IdOf(e, k));
      r.Ok? && r.value != Failed ==> Core(e, y) && FaultOk(e, pr.fault, d, y) && LandedUpTo(e, y, k)
  {
    if IsWrite(e, k) { ExecuteWrite(e, pr, d, x, k); } else { ExecuteOther(e, pr, d, x, k, k); }
    hide Execute, IdOf, Core, FaultOk, LandedUpTo;
  }

  lemma FinalStepGoes(e: Env, pr: Process, x: State, k: nat, at: Option<Point>)
    requires WellScripted(e) && Spoken(e) && k < |e.script| && e.script[k].FinalTurn? && Healthy(e, x)
    ensures var (y, flow) := FinalStep(e, pr, x, k, at); Healthy(e, y) && (at.None? ==> flow.Continue?)
  {
    MessageSturdy(e, x.store, k, pr.world.uuid(|x.store.log|));
    FinalStepIs(e, pr, x, k, at);
    var r := LoggedAnswer(e, pr, x, k);
    hide *;
    SaidHealthy(e, x, r.value);
    AdvanceHealthy(e, pr, x.(store := r.value), k, at);
  }

  function LoggedAnswer(e: Env, pr: Process, x: State, k: nat): Outcome<Store>
    requires k < |e.script| && e.script[k].FinalTurn?
  {
    var m := Context.Message("assistant", e.script[k].answer, None, None, e.script[k].meta);
    RecordContextMessage(x.store, e.run, m, e.cfg, pr.world.uuid(|x.store.log|))
  }

  lemma FinalStepIs(e: Env, pr: Process, x: State, k: nat, at: Option<Point>)
    requires k < |e.script| && e.script[k].FinalTurn? && LoggedAnswer(e, pr, x, k).Ok?
    ensures var y := x.(store := LoggedAnswer(e, pr, x, k).value);
      FinalStep(e, pr, x, k, at) ==
        if at == Some(AfterStart) then (x, Crashed) else if at == Some(AfterRecord) then (y, Crashed)
          else Advance(e, pr, y, k, at)
  {
    hide RecordContextMessage, Advance;
  }

  lemma SaidHealthy(e: Env, x: State, s: Store)
    requires Healthy(e, x) && Sturdy(e, s) && s.records == x.store.records
    ensures Healthy(e, x.(store := s))
  {
    hide Sturdy, Ahead, IdOf;
  }

  // ---------------------------------------------------------------- the loop, and any number of processes

  lemma {:induction false} LoopGoes(e: Env, pr: Process, d: Target.Data, x: State, k: nat, completed: set<string>)
    requires WellScripted(e) && Spoken(e) && ReadsAnswer(e) && Core(e, x) && FaultOk(e, pr.fault, d, x)
      && LossCovered(e, pr.fault, d)
    requires k <= |e.script| && LandedUpTo(e, x, k) && CompletedLanded(e, x, completed) && Healthy(e, x)
    ensures var (y, flow) := Loop(e, pr, x, k, completed); Healthy(e, y) && (pr.crash.None? ==> flow.Continue?)
    decreases |e.script| - k
  {
    hide ToolStep, FinalStep, IdOf, ItemOf, WellScripted, Core, FaultOk, LossCovered, Landed, Healthy, Spoken,
         ReadsAnswer;
    if k < |e.script| {
      if ItemOf(e, k) in completed && k < e.items {
        assert LandedUpTo(e, x, k + 1);
        LoopGoes(e, pr, d, x, k + 1, completed);
      } else {
        var at := if pr.crash.Some? && pr.crash.value.0 == k then Some(pr.crash.value.1) else None;
        var (y, flow) := if e.script[k].ToolTurn? then ToolStep(e, pr, x, k, at) else FinalStep(e, pr, x, k, at);
        if e.script[k].ToolTurn? {
          ToolStepKeeps(e, pr, d, x, k, at);
          ToolStepGoes(e, pr, d, x, k, at);
        } else {
          FinalStepKeeps(e, pr, d, x, k, at);
          FinalStepGoes(e, pr, x, k, at);
        }
        if flow.Continue? { LoopGoes(e, pr, d, y, k + 1, completed); }
      }
    }
  }

  /** The run was created with a plan for the script, and the target takes the writes one after the other. */
  ghost predicate Provided(e: Env, s: Store, d: Target.Data) {
    && Spoken(e) && ReadsAnswer(e) && Sturdy(e, s) && Willing(e, d, 0)
    && forall k :: IsTool(e, k) ==> IdOf(e, k) !in s.records
  }

  lemma StartHealthy(e: Env, s: Store, d: Target.Data)
    requires WellScripted(e) && FreshStart(e, s, d) && Provided(e, s, d)
    ensures Healthy(e, State(s, Adapter.Channel(d, false)))
  {
    hide IdOf, Sturdy, Accepts, Willing;
    forall k | IsNext(e, d, k) ensures Willing(e, d, k) { SkipTo(e, d, 0, k); }
  }

  lemma RestartHealthy(e: Env, x: State)
    requires Healthy(e, x)
    ensures Healthy(e, State(x.store, Adapter.Channel(x.channel.data, false)))
  {
    hide IdOf, Sturdy, Ahead;
  }

  lemma {:induction false} ProcessesGo(e: Env, s: Store, d: Target.Data, prs: seq<Process>)
    requires WellScripted(e) && FreshStart(e, s, d) && FaultPlan(e, d, prs) && Provided(e, s, d)
    ensures var (x, flow) := RunProcesses(e, s, d, prs);
      Healthy(e, x) && (prs != [] && prs[|prs| - 1].crash.None? ==> flow.Continue?)
  {
    assert Spoken(e) && ReadsAnswer(e);
    hide WellScripted, Core, FaultOk, LossCovered, Loop, FreshStart, DoneItems, CompletedLanded, Healthy, Provided,
         Spoken, ReadsAnswer;
    StartHealthy(e, s, d);
    if prs != [] {
      var rest, pr := prs[..|prs| - 1], prs[|prs| - 1];
      ProcessesGo(e, s, d, rest);
      ProcessesKeep(e, s, d, rest);
      var x := RunProcesses(e, s, d, rest).0;
      if rest == [] {
        StartCore(e, s, d, pr.fault);
        LoopGoes(e, pr, d, State(s, Adapter.Channel(d, false)), 0, DoneItems(s, e.run));
      } else {
        RestartOk(e, x, d);
        RestartHealthy(e, x);
        NoFaultCovered(e, pr.fault, d);
        LoopGoes(e, pr, d, State(x.store, Adapter.Channel(x.channel.data, false)), 0, DoneItems(x.store, e.run));
      }
    }
  }

  /** Completion: wherever the processes before it were made to crash, a process without a crash point gets to the end
      of the script, and then every scripted write is committed exactly once and nothing else is. */
  lemma {:induction false} CompletesExactlyOnce(e: Env, s: Store, d: Target.Data, prs: seq<Process>)
    requires WellScripted(e) && FreshStart(e, s, d) && FaultPlan(e, d, prs) && Provided(e, s, d)
    requires prs != [] && prs[|prs| - 1].crash.None?
    ensures var (x, flow) := RunProcesses(e, s, d, prs);
      && flow.Continue?
      && x.channel.data.idempotent.Keys == WriteIds(e, |e.script|)
      && x.channel.data.stats.total == CountWrites(e, |e.script|)
  {
    hide *;
    ProcessesGo(e, s, d, prs);
    ExactlyOnce(e, s, d, prs);
  }

  // ---------------------------------------------------------------- how a run comes to be provided

  /** Plan items that give nothing but a title and dependencies, as the replay of a recorded run does. */
  predicate OnlyTitles(raws: seq<Planner.RawItem>) {
    forall i :: 0 <= i < |raws| ==> raws[i].id.None? && raws[i].status.None? && raws[i].index.None?
  }

  lemma StepIsTrimmed(k: nat)
    ensures Strip("step_" + Digits(k)) == "step_" + Digits(k)
  {
    var id := "step_" + Digits(k);
    assert id[0] == 's' && id[|id| - 1] == Digits(k)[|Digits(k)| - 1] && Digits(k)[|Digits(k)| - 1] in Digits(k);
    StripTrims(id);
  }

  /** The item that `create_plan` makes of a title. */
  predicate DefaultItem(x: Planner.Item, k: nat) {
    x.id == "step_" + Digits(k) && x.index == k && x.status == Planner.Pending
  }

  lemma BuiltFirst(raws: seq<Planner.RawItem>, k: nat, seen: set<string>)
    requires k < |raws| && OnlyTitles(raws)
    ensures var r, rest := Planner.BuildItems(raws, k, seen),
      Planner.BuildItems(raws, k + 1, seen + {"step_" + Digits(k)});
      r.Ok? ==> rest.Ok? && r.value != [] && DefaultItem(r.value[0], k) && r.value[1..] == rest.value
  {
    StepIsTrimmed(k);
    hide Strip, Digits, Planner.NormalizeList;
  }

  lemma {:induction false} BuiltByDefault(raws: seq<Planner.RawItem>, k: nat, seen: set<string>)
    requires k <= |raws| && OnlyTitles(raws)
    ensures var r := Planner.BuildItems(raws, k, seen);
      r.Ok? ==> |r.value| == |raws| - k && forall i :: 0 <= i < |r.value| ==> DefaultItem(r.value[i], k + i)
    decreases |raws| - k
  {
    hide Planner.BuildItems, DefaultItem, OnlyTitles, Digits;
    if k == |raws| {
      BuiltNothing(raws, seen);
    } else if Planner.BuildItems(raws, k, seen).Ok? {
      var items := Planner.BuildItems(raws, k, seen).value;
      var rest := Planner.BuildItems(raws, k + 1, seen + {"step_" + Digits(k)});
      BuiltFirst(raws, k, seen);
      BuiltByDefault(raws, k + 1, seen + {"step_" + Digits(k)});
      DefaultAfter(items, rest.value, k);
    }
  }

  lemma BuiltNothing(raws: seq<Planner.RawItem>, seen: set<string>)
    ensures Planner.BuildItems(raws, |raws|, seen) == Ok([])
  {
  }

  lemma DefaultAfter(items: seq<Planner.Item>, rest: seq<Planner.Item>, k: nat)
    requires items != [] && DefaultItem(items[0], k) && items[1..] == rest
    requires forall i :: 0 <= i < |rest| ==> DefaultItem(rest[i], k + 1 + i)
    ensures |items| == |rest| + 1 && forall i :: 0 <= i < |items| ==> DefaultItem(items[i], k + i)
  {
    hide DefaultItem;
    forall i | 0 <= i < |items| ensures DefaultItem(items[i], k + i) {
      if i > 0 { assert items[i] == rest[i - 1] && DefaultItem(rest[i - 1], k + 1 + (i - 1)); }
    }
  }

  lemma CreatedByDefault(source: string, raws: seq<Planner.RawItem>)
    requires OnlyTitles(raws)
    ensures var r := Planner.CreatePlan(source, raws);
      r.Ok? ==> Progress.Steady(r.value) && forall k: nat :: k < |raws| ==>
        Planner.HasId(r.value.items, "step_" + Digits(k))
  {
    var r := Planner.CreatePlan(source, raws);
    if r.Ok? {
      BuiltByDefault(raws, 0, {});
      var items := Planner.BuildItems(raws, 0, {}).value;
      Agreement.StoredKeeps(items);
      Planner.SameElements(Planner.StoredOrder(items), items);
      assert |r.value.items| == |items| by { assert |multiset(Planner.StoredOrder(items))| == |multiset(items)|; }
      hide Planner.BuildItems, Planner.StoredOrder, Planner.SortByIndex, Planner.NextRunnable, Digits;
      assert r.value.items == Planner.StoredOrder(items) && Planner.Integrity(r.value);
      hide Planner.Integrity;
      forall i | 0 <= i < |r.value.items|
        ensures r.value.items[i].status == Planner.Pending && r.value.items[i].index < |r.value.items|
      {
        assert r.value.items[i] in Planner.StoredOrder(items);
      }
      forall k: nat | k < |raws| ensures Planner.HasId(r.value.items, "step_" + Digits(k)) {
        assert items[k] in Planner.StoredOrder(items) && items[k].id == "step_" + Digits(k);
      }
    }
  }

  /** Starting a run with one titled item per turn provides for the loop. */
  lemma {:induction false} StartProvides(e: Env, s: Store, seed: seq<Context.Message>, source: string,
                                         raws: seq<Planner.RawItem>, ck: string, d: Target.Data)
    requires e.cfg.dedup && History.Sound(s, true) && OnlyTitles(raws) && |raws| == e.items
    requires Spoken(e) && ReadsAnswer(e) && Willing(e, d, 0) && forall k :: IsTool(e, k) ==> IdOf(e, k) !in s.records
    ensures var r := StartRun(s, e.run, seed, source, raws, map[], true, e.cfg, ck); r.Ok? ==> Provided(e, r.value, d)
  {
    var op := OpStart(e.run, seed, source, raws, map[], true);
    History.PerformSound(s, op, 0.0, e.cfg, ck);
    Effects.StartEffect(s, op, 0.0, e.cfg, ck);
    CreatedByDefault(source, raws);
    StartedPlan(s, op, e.cfg, ck);
    hide StartRun, Progress.Steady, Planner.CreatePlan, Willing, Spoken, ReadsAnswer, IdOf, Rebuild.Faithful,
         Statuses.Traced, Agreement.AllAgree;
  }

  lemma StartedPlan(s: Store, op: Op, cfg: Config, ck: string)
    requires op.OpStart? && op.force
    ensures var r := StartRun(s, op.run, op.seed, op.source, op.items, op.memory, op.force, cfg, ck);
      r.Ok? ==> (
        && op.run in r.value.contexts && op.run in r.value.plans
        && Planner.CreatePlan(op.source, op.items) == Ok(r.value.plans[op.run]))
  {
    hide Planner.CreatePlan, Context.InitContext, LatestSeq;
  }

  /** A write that sets a value under a proper key. */
  predicate SetsValue(e: Env, k: int)
    requires IsTool(e, k)
  {
    var args := e.script[k].args;
    && "action_name" in args && args["action_name"] == JStr("set_value")
    && "payload" in args && args["payload"].JObj? && Target.RequireStr(args["payload"].fields, "key").Ok?
  }

  lemma SetIsAccepted(e: Env, d: Target.Data, k: int)
    requires IsWrite(e, k) && SetsValue(e, k)
    ensures Accepts(e, d, k)
  {
    hide IdOf;
    forall receipt: Target.Receipt ensures Acceptable(e, d, k, receipt) {}
  }

  /** A target always takes a script that only sets values. */
  lemma {:induction false} SettersAreTaken(e: Env, d: Target.Data, k: nat)
    requires k <= |e.script| && forall j :: IsWrite(e, j) ==> SetsValue(e, j)
    ensures Willing(e, d, k)
    decreases |e.script| - k
  {
    hide Accepts, SetsValue, Target.Serve, Sends;
    if k < |e.script| {
      if IsWrite(e, k) {
        SetIsAccepted(e, d, k);
        forall r: Target.Request | Sends(e, k, r) ensures Willing(e, Target.Serve(d, r, e.fp).0, k + 1) {
          SettersAreTaken(e, Target.Serve(d, r, e.fp).0, k + 1);
        }
      } else {
        SettersAreTaken(e, d, k + 1);
      }
    }
  }
}
