/** Which plan items the turns of the step loop finish: their own, and no other. */
module DriverItems {
  import opened Prelude
  import opened Models
  import opened Facade
  import opened Executor
  import opened Driver
  import opened DriverLaws
  import Adapter
  import Context
  import Coordinator
  import DriverFrames
  import DriverProgress
  import Effects
  import Recovery

  /** From `x` to `y` at most the item of turn `j` was finished, and it was if the loop goes on. */
  predicate Finishes(e: Env, x: State, y: State, j: nat, flow: Flow) {
    && e.run in y.store.contexts
    && DoneItems(x.store, e.run) <= DoneItems(y.store, e.run) <= DoneItems(x.store, e.run) + {ItemOf(e, j)}
    && (flow.Continue? ==> ItemOf(e, j) in DoneItems(y.store, e.run))
  }

  /** What an operation that finishes nothing leaves. */
  predicate SameItems(e: Env, x: State, y: State) {
    e.run in y.store.contexts && DoneItems(y.store, e.run) == DoneItems(x.store, e.run)
  }

  /** What a call may do to the records. */
  lemma ExecuteTouches(e: Env, pr: Process, x: State, j: int)
    requires e.run in x.store.contexts && IsTool(e, j) && e.cfg.dedup
    ensures var y := Execute(e, pr, x, CallOf(e, j), IdOf(e, j)).0;
      TouchedOnly(e, x.store, y.store, IdOf(e, j)) && SameItems(e, x, y)
  {
    var c, id := CallOf(e, j), IdOf(e, j);
    PrepareTouches(e, pr, x.store, c, id);
    var y := Execute(e, pr, x, c, id).0;
    assert TouchedOnly(e, x.store, y.store, id) by {
      hide Prepare, Finish, Adapter.Invoke, TouchedOnly, IdOf;
      var p := Prepare(x.store, id, c, false, e.cfg, pr.world);
      if p.Ready? {
        var spare, receipt := pr.world.uuid(|x.store.log|), pr.receipt(|x.store.log|);
        var a := Adapter.Invoke(x.channel, pr.fault, e.query, e.fp, c.ident.tool, c.ident.args, ForwardedId(c, id),
                                spare, receipt).1;
        ReadyInContext(e, x.store, p.store, id);
        FinishTouchesAny(e, pr, p.store, c, id, p.replay, a);
        var f := Finish(p.store, id, c, p.replay, a, e.cfg, pr.world);
        if f.Ok? { TouchedTwice(e, x.store, p.store, f.value, id); }
      }
    }
    hide Execute, IdOf, DoneItems;
  }

  lemma TurnItems(e: Env, pr: Process, x: State, j: nat)
    requires e.run in x.store.contexts && IsTool(e, j) && DriverProgress.LoggedTurn(e, pr, x, j).Ok?
    ensures var y := x.(store := DriverProgress.LoggedTurn(e, pr, x, j).value);
      SameItems(e, x, y) && y.store.records == x.store.records
  {
    hide RecordLlmTurn, DoneItems, ItemOf, Context.Validate;
    var turn, ck := e.script[j], pr.world.uuid(|x.store.log|);
    var s := DriverProgress.LoggedTurn(e, pr, x, j).value;
    Effects.TurnEffect(x.store, OpLlmTurn(e.run, ItemOf(e, j), turn.output, turn.rationale, turn.meta), 0.0, e.cfg, ck);
    DriverFrames.TurnDone(x.store, e.run, ItemOf(e, j), turn.output, turn.rationale, turn.meta, e.cfg, ck);
    var clean := Context.Validate(Context.Message("assistant", turn.rationale, None, None, turn.meta)).value;
    StillIn(x.store, s, e.run,
            Effects.ViewOf(x.store, e.run).(messages := Effects.MessagesOf(x.store, e.run) + [clean]));
  }

  lemma {:induction false} AnswerItems(e: Env, pr: Process, x: State, j: nat)
    requires e.run in x.store.contexts && j < |e.script| && e.script[j].FinalTurn?
    requires DriverProgress.LoggedAnswer(e, pr, x, j).Ok?
    ensures var y := x.(store := DriverProgress.LoggedAnswer(e, pr, x, j).value);
      SameItems(e, x, y) && y.store.records == x.store.records
  {
    hide RecordContextMessage, DoneItems, Context.Validate;
    var m := Context.Message("assistant", e.script[j].answer, None, None, e.script[j].meta);
    var ck := pr.world.uuid(|x.store.log|);
    Effects.MessageEffect(x.store, e.run, m, e.cfg, ck);
    DriverFrames.MessageDone(x.store, e.run, m, e.cfg, ck);
    var s := DriverProgress.LoggedAnswer(e, pr, x, j).value;
    StillIn(x.store, s, e.run,
            Effects.ViewOf(x.store,
                           e.run).(messages := Effects.MessagesOf(x.store, e.run) + [Context.Validate(m).value]));
    SamePlansSameDone(x.store, s, e.run);
  }

  /** Advancing finishes the item of the turn, if it is not refused. */
  lemma AdvanceFinishes(e: Env, pr: Process, x: State, j: nat, at: Option<Point>)
    requires e.run in x.store.contexts
    ensures var (y, flow) := Advance(e, pr, x, j, at);
      Finishes(e, x, y, j, flow) && y.store.records == x.store.records && y.channel == x.channel
  {
    hide AdvancePlanItem, DoneItems, ItemOf;
    var ck := pr.world.uuid(|x.store.log|);
    Effects.PlanOpEffect(x.store, OpAdvance(e.run, ItemOf(e, j), "done", None), 0.0, e.cfg, ck);
    DriverFrames.AdvanceDone(x.store, e.run, ItemOf(e, j), e.cfg, ck);
    var r := AdvancePlanItem(x.store, e.run, ItemOf(e, j), "done", None, e.cfg, ck);
    if r.Ok? { StillIn(x.store, r.value, e.run, Effects.ViewOf(x.store, e.run)); }
  }

  lemma ResolveIs(e: Env, pr: Process, x: State, before: Store, p: Recovery.Pass, c: ToolCall, id: ExecId)
    ensures var z := Resolve(e, pr, x, before, p, c, id).0; z == x || z == Execute(e, pr, x, c, id).0
  {
    hide Execute, Coordinator.FinalDecision;
  }

  lemma ResolvedItems(e: Env, pr: Process, x: State, j: nat, p: Recovery.Pass)
    requires e.run in x.store.contexts && IsTool(e, j) && e.cfg.dedup && p.run == e.run
    ensures var y := x.(store := Recovery.RecoverRun(p, pr.world, x.store));
      SameItems(e, x, y) && SameItems(e, x, Resolve(e, pr, y, x.store, p, CallOf(e, j), IdOf(e, j)).0)
  {
    var y := x.(store := Recovery.RecoverRun(p, pr.world, x.store));
    DriverFrames.PassFrame(p, pr.world, x.store);
    hide IdOf, CallOf, Recovery.RecoverRun, Resolve, Execute, DoneItems, TouchedOnly;
    ExecuteTouches(e, pr, y, j);
    ResolveIs(e, pr, y, x.store, p, CallOf(e, j), IdOf(e, j));
  }

  lemma AfterCallFinishes(e: Env, pr: Process, x: State, j: nat, pending: bool, at: Option<Point>)
    requires e.run in x.store.contexts && IsTool(e, j) && e.cfg.dedup
    ensures var (y, flow) := AfterCall(e, pr, x, j, pending, at); Finishes(e, x, y, j, flow)
  {
    var p := PassAt(e, x.channel.data, RecoveryTime(pr, x, IdOf(e, j), pending));
    assert p.run == e.run;
    hide IdOf, CallOf, PassAt, RecoveryTime, Recovery.RecoverRun, Resolve, Advance, AfterCall, DoneItems, ItemOf;
    var y := x.(store := Recovery.RecoverRun(p, pr.world, x.store));
    AfterCallIs(e, pr, x, j, pending, at);
    ResolvedItems(e, pr, x, j, p);
    var z := (if pending then Resolve(e, pr, y, x.store, p, CallOf(e, j), IdOf(e, j)) else (y, Continue)).0;
    AdvanceFinishes(e, pr, z, j, at);
  }

  /** A tool turn, wherever it stops. */
  lemma ToolStepFinishes(e: Env, pr: Process, x: State, j: nat, at: Option<Point>)
    requires e.run in x.store.contexts && IsTool(e, j) && e.cfg.dedup
    ensures var (y, flow) := ToolStep(e, pr, x, j, at); Finishes(e, x, y, j, flow)
  {
    hide ToolStep, Execute, AfterCall, DriverProgress.LoggedTurn, IdOf, CallOf, DoneItems, ItemOf, TouchedOnly;
    if at == Some(AfterStart) || DriverProgress.LoggedTurn(e, pr, x, j).Err? {
      DriverProgress.StoppedStep(e, pr, x, j, at);
    } else {
      DriverProgress.ToolStepIs(e, pr, x, j, at);
      TurnItems(e, pr, x, j);
      var y := x.(store := DriverProgress.LoggedTurn(e, pr, x, j).value);
      ExecuteTouches(e, pr, y, j);
      var (z, r) := Execute(e, pr, y, CallOf(e, j), IdOf(e, j));
      if r.Ok? { AfterCallFinishes(e, pr, z, j, r.value == PendingRecovery, at); }
    }
  }

  /** The turn of the final answer, wherever it stops. */
  lemma FinalStepFinishes(e: Env, pr: Process, x: State, j: nat, at: Option<Point>)
    requires e.run in x.store.contexts && j < |e.script| && e.script[j].FinalTurn?
    ensures var (y, flow) := FinalStep(e, pr, x, j, at); Finishes(e, x, y, j, flow)
  {
    var r := DriverProgress.LoggedAnswer(e, pr, x, j);
    if r.Ok? {
      AnswerItems(e, pr, x, j);
      DriverProgress.FinalStepIs(e, pr, x, j, at);
      AdvanceFinishes(e, pr, x.(store := r.value), j, at);
    }
    hide RecordContextMessage, Advance, DoneItems, ItemOf;
  }
}
