/** The step loop is one single runner of the state machine: every run of it, crashes included, is a history of the
    machine. */
module DriverHistory {
  import opened Prelude
  import opened Models
  import opened Facade
  import opened Executor
  import opened Driver
  import Abandonment
  import Adapter
  import Coordinator
  import Context
  import DriverLaws
  import DriverProgress
  import Effects
  import History
  import Identity
  import Machine
  import MachineHistory
  import Openings
  import PendingLists
  import Recovery
  import RepeatedReplay
  import RunnerLaws
  import SingleRunner
  import Target

  /** The machine that the processes of this run are part of. */
  function MachineOf(e: Env): Machine.Env { Machine.Env(e.cfg, false, e.digest, e.fp, true) }

  /** Between two steps of the loop the machine has the same store and target, and no process of the run. */
  predicate Same(s: Machine.Sys, x: State) {
    s.store == x.store && s.target == x.channel.data && s.procs == map[]
  }

  function ScriptedCalls(e: Env): set<ToolCall> { set k | 0 <= k < |e.script| && IsTool(e, k) :: CallOf(e, k) }

  /** Only scripted calls, and no reset. */
  predicate Scripted(e: Env, actions: seq<Machine.ActionKind>) {
    forall i :: 0 <= i < |actions| ==> (
      && (actions[i].Begin? ==> actions[i].call in ScriptedCalls(e))
      && (actions[i].Work? ==> !actions[i].op.OpStart?)
      && !actions[i].Foreign?)
  }

  lemma ScriptedTwo(e: Env, a: seq<Machine.ActionKind>, b: seq<Machine.ActionKind>)
    requires Scripted(e, a) && Scripted(e, b)
    ensures Scripted(e, a + b)
  {
  }

  /** These actions take the machine from one state of the loop to the other. */
  ghost predicate Reaches(e: Env, s: Machine.Sys, actions: seq<Machine.ActionKind>, y: State) {
    Scripted(e, actions) && Same(Machine.Run(MachineOf(e), s, actions), y)
  }

  lemma ReachesTwo(e: Env, s: Machine.Sys, a: seq<Machine.ActionKind>, b: seq<Machine.ActionKind>, y: State)
    requires Scripted(e, a) && Reaches(e, Machine.Run(MachineOf(e), s, a), b, y)
    ensures Reaches(e, s, a + b, y)
  {
    hide Machine.Run, Scripted;
    ScriptedTwo(e, a, b);
    Machine.RunConcat(MachineOf(e), s, a, b);
  }

  lemma Nothing(e: Env, s: Machine.Sys, x: State)
    requires Same(s, x)
    ensures Reaches(e, s, [], x)
  {
  }

  lemma OneAction(e: Env, s: Machine.Sys, a: Machine.ActionKind)
    ensures Machine.Run(MachineOf(e), s, [a]) == Machine.Next(MachineOf(e), s, a)
  {
    hide Machine.Next;
    assert [a][..0] == [];
    assert Machine.Run(MachineOf(e), s, [a]) == Machine.Next(MachineOf(e), Machine.Run(MachineOf(e), s, []), a);
  }

  // ---------------------------------------------------------------- facade operations

  lemma WorkReaches(e: Env, s: Machine.Sys, x: State, op: Op, now: real, ck: string)
    requires Same(s, x) && Machine.Standalone(op) && !op.OpStart?
    ensures Reaches(e, s, [Machine.Work(op, now, ck)], x.(store := After(x.store, Stamped(op, now, ck), e.cfg)))
  {
    hide After;
    OneAction(e, s, Machine.Work(op, now, ck));
  }

  // ---------------------------------------------------------------- one call

  lemma {:induction false} AloneReaches(e: Env, s: Machine.Sys, c: ToolCall, pc: Pc, a: Answer, w: World, fuel: nat)
    returns (actions: seq<Machine.ActionKind>)
    requires Abandonment.Alone(s, c, pc)
    ensures Scripted(e, actions)
    ensures var t := Machine.Run(MachineOf(e), s, actions);
      var (u, next) := RunAlone(s.store, Machine.IdOf(MachineOf(e), c), c, pc, a, false, e.cfg, w, fuel);
      Abandonment.Alone(t, c, next) && t.store == u && t.target == s.target && t.sent == s.sent
    decreases fuel
  {
    hide Machine.IdOf, Machine.Next, Step, Machine.OnTheWire, Machine.Run;
    var m := MachineOf(e);
    if fuel == 0 || pc.AtInvoke? || pc.Returned? || pc.Raised? {
      actions := [];
      RunNothing(m, s);
    } else {
      var now, ck := w.clock(|s.store.log|), w.uuid(|s.store.log|);
      var step := Machine.Advance(0, a, now, ck);
      Abandonment.Moved(m, s, c, pc, a, now, ck);
      var next := Step(s.store, Machine.IdOf(m, c), c, pc, a, false, e.cfg, now, ck).1;
      var rest := AloneReaches(e, Machine.Next(m, s, step), c, next, a, w, fuel - 1);
      actions := [step] + rest;
      Machine.FirstThen(m, s, step, rest);
    }
  }

  lemma RunNothing(m: Machine.Env, s: Machine.Sys)
    ensures Machine.Run(m, s, []) == s
  {
  }

  lemma EndReaches(e: Env, s: Machine.Sys, x: State)
    requires s.procs.Keys == {0} && s.store == x.store && s.target == x.channel.data
    ensures Reaches(e, s, [Machine.End(0)], x)
  {
    OneAction(e, s, Machine.End(0));
    assert s.procs - {0} == map[];
  }

  /** Executing a call gives the target its request, or nothing. */
  lemma InvokeDelivers(e: Env, ch: Adapter.Channel, fault: Adapter.Fault, k: int, spare: ExecId,
                       receipt: Target.Receipt)
    requires DriverLaws.WellScripted(e) && IsTool(e, k)
    ensures var m, c := MachineOf(e), CallOf(e, k);
      var data := Adapter.Invoke(ch, fault, e.query, e.fp, c.ident.tool, c.ident.args, ForwardedId(c, IdOf(e, k)),
                                 spare, receipt).0.data;
      var r := Adapter.ActionRequest(c.ident.args, IdOf(e, k), receipt);
      data == ch.data || (Machine.OnTheWire(m, c) && r.Ok? && data == Target.Serve(ch.data, r.value, e.fp).0)
  {
    DriverLaws.IdNotEmpty(e, k);
    if DriverLaws.IsWrite(e, k) {
      DriverLaws.InvokeApplies(ch, fault, e.query, e.fp, e.script[k].args, IdOf(e, k), spare, receipt);
    } else {
      DriverLaws.InvokeOther(ch, fault, e.query, e.fp, e.script[k].tool, e.script[k].args,
                             ForwardedId(CallOf(e, k), IdOf(e, k)), spare, receipt);
    }
    hide Adapter.Invoke, Adapter.ActionRequest, Target.Serve, Identity.BuildId;
  }

  lemma Delivered(e: Env, s: Machine.Sys, c: ToolCall, receipt: Target.Receipt, r: Target.Request)
    requires c in s.sent && Adapter.ActionRequest(c.ident.args, Machine.IdOf(MachineOf(e), c), receipt) == Ok(r)
    ensures var t := Machine.Next(MachineOf(e), s, Machine.Deliver(c, receipt));
      t.store == s.store && t.procs == s.procs && t.sent == s.sent && t.target == Target.Serve(s.target, r, e.fp).0
  {
    hide Adapter.ActionRequest, Target.Serve, Machine.IdOf;
  }

  /** The answer arrives and is recorded. */
  lemma AnswerReaches(e: Env, s: Machine.Sys, c: ToolCall, replay: bool, a: Answer, w: World)
    requires Abandonment.Alone(s, c, AtAnswer(replay))
    ensures var m, now, ck := MachineOf(e), w.clock(|s.store.log|), w.uuid(|s.store.log|);
      var step := Machine.Advance(0, a, now, ck);
      var t := Machine.Next(m, Machine.Next(m, s, step), step);
      var r := Finish(s.store, Machine.IdOf(m, c), c, replay, a, e.cfg, w);
      t.procs.Keys == {0} && t.store == (if r.Ok? then r.value else s.store) && t.target == s.target
  {
    var m, now, ck := MachineOf(e), w.clock(|s.store.log|), w.uuid(|s.store.log|);
    var step := Machine.Advance(0, a, now, ck);
    Abandonment.Moved(m, s, c, AtAnswer(replay), a, now, ck);
    Abandonment.Moved(m, Machine.Next(m, s, step), c, AtRecord(replay, a), a, now, ck);
    hide Machine.Next, Machine.IdOf, RecordToolResult, AnswerArgs;
  }

  /** The process is sent out: the request may be on the wire. */
  lemma Sent(e: Env, s: Machine.Sys, c: ToolCall, replay: bool, a: Answer, now: real, ck: string)
    requires Abandonment.Alone(s, c, AtInvoke(replay))
    ensures var t := Machine.Next(MachineOf(e), s, Machine.Advance(0, a, now, ck));
      && Abandonment.Alone(t, c, AtAnswer(replay)) && t.store == s.store && t.target == s.target
      && (Machine.OnTheWire(MachineOf(e), c) ==> c in t.sent)
  {
    Abandonment.Moved(MachineOf(e), s, c, AtInvoke(replay), a, now, ck);
    hide Machine.Next, Machine.IdOf, Machine.OnTheWire, RecordToolResult, RecordToolIntent, RecordToolDispatch;
  }

  /** The answer is recorded, or refused, and the target is left at `data`. */
  ghost predicate Finished(e: Env, c: ToolCall, replay: bool, a: Answer, w: World, data: Target.Data, s: Machine.Sys,
                           t: Machine.Sys)
  {
    var r := Finish(s.store, Machine.IdOf(MachineOf(e), c), c, replay, a, e.cfg, w);
    t.procs.Keys == {0} && t.store == (if r.Ok? then r.value else s.store) && t.target == data
  }

  lemma AnswerFinishes(e: Env, s: Machine.Sys, t: Machine.Sys, c: ToolCall, replay: bool, a: Answer, w: World,
                       step: Machine.ActionKind)
    requires Abandonment.Alone(t, c, AtAnswer(replay)) && t.store == s.store
    requires step == Machine.Advance(0, a, w.clock(|s.store.log|), w.uuid(|s.store.log|))
    ensures Finished(e, c, replay, a, w, t.target, s, Machine.Run(MachineOf(e), t, [step, step]))
  {
    hide Machine.Next, Machine.IdOf, Finish, Machine.Run;
    AnswerReaches(e, t, c, replay, a, w);
    Machine.RunPair(MachineOf(e), t, step, step);
  }

  /** From the external call to its record, when nothing is delivered. */
  lemma LostReaches(e: Env, s: Machine.Sys, c: ToolCall, replay: bool, a: Answer, w: World)
    requires Abandonment.Alone(s, c, AtInvoke(replay))
    ensures var step := Machine.Advance(0, a, w.clock(|s.store.log|), w.uuid(|s.store.log|));
      Finished(e, c, replay, a, w, s.target, s, Machine.Run(MachineOf(e), s, [step] + [step, step]))
  {
    hide Machine.Next, Machine.IdOf, Finished, Machine.Run, Machine.OnTheWire, Abandonment.Alone;
    var now, ck := w.clock(|s.store.log|), w.uuid(|s.store.log|);
    var step := Machine.Advance(0, a, now, ck);
    Sent(e, s, c, replay, a, now, ck);
    AnswerFinishes(e, s, Machine.Next(MachineOf(e), s, step), c, replay, a, w, step);
    Machine.FirstThen(MachineOf(e), s, step, [step, step]);
  }

  /** The same when the request is delivered before the answer. */
  lemma ServedReaches(e: Env, s: Machine.Sys, c: ToolCall, replay: bool, a: Answer, w: World, receipt: Target.Receipt,
                      r: Target.Request)
    requires Abandonment.Alone(s, c, AtInvoke(replay)) && Machine.OnTheWire(MachineOf(e), c)
    requires Adapter.ActionRequest(c.ident.args, Machine.IdOf(MachineOf(e), c), receipt) == Ok(r)
    ensures var step := Machine.Advance(0, a, w.clock(|s.store.log|), w.uuid(|s.store.log|));
      Finished(e, c, replay, a, w, Target.Serve(s.target, r, e.fp).0, s,
               Machine.Run(MachineOf(e), s, [step] + ([Machine.Deliver(c, receipt)] + [step, step])))
  {
    hide Machine.Next, Machine.IdOf, Finished, Machine.Run, Machine.OnTheWire, Abandonment.Alone, Adapter.ActionRequest,
         Target.Serve;
    var m, now, ck := MachineOf(e), w.clock(|s.store.log|), w.uuid(|s.store.log|);
    var step, arrive := Machine.Advance(0, a, now, ck), Machine.Deliver(c, receipt);
    Sent(e, s, c, replay, a, now, ck);
    var t := Machine.Next(m, s, step);
    Delivered(e, t, c, receipt, r);
    var u := Machine.Next(m, t, arrive);
    StillAlone(t, u, c, AtAnswer(replay));
    AnswerFinishes(e, s, u, c, replay, a, w, step);
    Machine.FirstThen(m, t, arrive, [step, step]);
    Machine.FirstThen(m, s, step, [arrive] + [step, step]);
  }

  lemma OutReaches(e: Env, pr: Process, x: State, k: int, s: Machine.Sys, replay: bool)
    returns (actions: seq<Machine.ActionKind>)
    requires DriverLaws.WellScripted(e) && IsTool(e, k) && Abandonment.Alone(s, CallOf(e, k), AtInvoke(replay))
    requires s.target == x.channel.data
    ensures Scripted(e, actions)
    ensures var (channel, a) := Invoked(e, pr, x, k);
      Finished(e, CallOf(e, k), replay, a, pr.world, channel.data, s, Machine.Run(MachineOf(e), s, actions))
  {
    InvokedDelivers(e, pr, x, k);
    hide *;
    var c, receipt := CallOf(e, k), pr.receipt(|x.store.log|);
    var (channel, a) := Invoked(e, pr, x, k);
    var step := Machine.Advance(0, a, pr.world.clock(|s.store.log|), pr.world.uuid(|s.store.log|));
    StepsScripted(e, step, Machine.Deliver(c, receipt));
    if channel.data == x.channel.data {
      actions := [step] + [step, step];
      LostReaches(e, s, c, replay, a, pr.world);
    } else {
      actions := [step] + ([Machine.Deliver(c, receipt)] + [step, step]);
      var r := Adapter.ActionRequest(c.ident.args, Machine.IdOf(MachineOf(e), c), receipt);
      ServedReaches(e, s, c, replay, a, pr.world, receipt, r.value);
    }
  }

  lemma StepsScripted(e: Env, step: Machine.ActionKind, arrive: Machine.ActionKind)
    requires step.Advance? && arrive.Deliver?
    ensures Scripted(e, [step] + [step, step]) && Scripted(e, [step] + ([arrive] + [step, step]))
  {
  }

  lemma InvokedDelivers(e: Env, pr: Process, x: State, k: int)
    requires DriverLaws.WellScripted(e) && IsTool(e, k)
    ensures var m, c := MachineOf(e), CallOf(e, k);
      var data := Invoked(e, pr, x, k).0.data;
      var r := Adapter.ActionRequest(c.ident.args, Machine.IdOf(m, c), pr.receipt(|x.store.log|));
      || data == x.channel.data
      || (Machine.OnTheWire(m, c) && r.Ok? && data == Target.Serve(x.channel.data, r.value, e.fp).0)
  {
    InvokeDelivers(e, x.channel, pr.fault, k, pr.world.uuid(|x.store.log|), pr.receipt(|x.store.log|));
    SameId(e, k);
    hide Machine.IdOf, IdOf, Adapter.Invoke, Adapter.ActionRequest, Machine.OnTheWire, Target.Serve;
  }

  lemma StillAlone(s: Machine.Sys, t: Machine.Sys, c: ToolCall, pc: Pc)
    requires Abandonment.Alone(s, c, pc) && t.procs == s.procs
    ensures Abandonment.Alone(t, c, pc)
  {
  }

  lemma SameId(e: Env, k: int)
    requires IsTool(e, k)
    ensures Machine.IdOf(MachineOf(e), CallOf(e, k)) == IdOf(e, k)
  {
  }

  /** The external call of the loop. */
  function Invoked(e: Env, pr: Process, x: State, k: int): (Adapter.Channel, Answer)
    requires IsTool(e, k)
  {
    var c := CallOf(e, k);
    Adapter.Invoke(x.channel, pr.fault, e.query, e.fp, c.ident.tool, c.ident.args, ForwardedId(c, IdOf(e, k)),
                   pr.world.uuid(|x.store.log|), pr.receipt(|x.store.log|))
  }

  /** The call up to its preparation. */
  lemma PreparedReaches(e: Env, w: World, k: int, s: Machine.Sys) returns (first: seq<Machine.ActionKind>)
    requires IsTool(e, k) && s.procs == map[]
    ensures Scripted(e, first)
    ensures var m, c := MachineOf(e), CallOf(e, k);
      var u := Machine.Run(m, Machine.Next(m, s, Machine.Begin(0, c)), first);
      var p := Prepare(s.store, IdOf(e, k), c, false, e.cfg, w);
      && u.procs.Keys == {0} && u.store == p.store && u.target == s.target
      && (p.Ready? ==> Abandonment.Alone(u, c, AtInvoke(p.replay)))
  {
    var m, c := MachineOf(e), CallOf(e, k);
    SameId(e, k);
    StepsPrepare(s.store, IdOf(e, k), c, Failure(""), false, e.cfg, w);
    hide Machine.IdOf, IdOf, Machine.Next, Prepare, RunAlone, CallOf, Machine.Run, Scripted;
    Abandonment.CallBegins(m, s, c);
    first := AloneReaches(e, Machine.Next(m, s, Machine.Begin(0, c)), c, AtLookup, Failure(""), w, 4);
  }

  /** The rest of the call. */
  lemma RestOfCall(e: Env, pr: Process, x: State, k: int, u: Machine.Sys) returns (out: seq<Machine.ActionKind>)
    requires DriverLaws.WellScripted(e) && IsTool(e, k) && u.procs.Keys == {0} && u.target == x.channel.data
    requires var p := Prepare(x.store, IdOf(e, k), CallOf(e, k), false, e.cfg, pr.world);
      u.store == p.store && (p.Ready? ==> Abandonment.Alone(u, CallOf(e, k), AtInvoke(p.replay)))
    ensures Scripted(e, out)
    ensures var y := Execute(e, pr, x, CallOf(e, k), IdOf(e, k)).0; var v := Machine.Run(MachineOf(e), u, out);
      v.procs.Keys == {0} && v.store == y.store && v.target == y.channel.data
  {
    ExecuteIs(e, pr, x, k);
    SameId(e, k);
    hide Machine.IdOf, IdOf, Machine.Next, Execute, Prepare, Finish, CallOf, Invoked, Machine.Run, Scripted,
         DriverLaws.WellScripted, Abandonment.Alone;
    var p := Prepare(x.store, IdOf(e, k), CallOf(e, k), false, e.cfg, pr.world);
    if p.Ready? {
      out := OutReaches(e, pr, x, k, u, p.replay);
    } else {
      out := [];
      RunNothing(MachineOf(e), u);
      AdvancesScripted(e, out);
    }
  }

  /** A whole call. */
  lemma ExecuteReaches(e: Env, pr: Process, x: State, k: int, s: Machine.Sys) returns (actions: seq<Machine.ActionKind>)
    requires DriverLaws.WellScripted(e) && IsTool(e, k) && Same(s, x)
    ensures Reaches(e, s, actions, Execute(e, pr, x, CallOf(e, k), IdOf(e, k)).0)
  {
    ScriptedCall(e, k);
    assert Scripted(e, [Machine.Begin(0, CallOf(e, k))]) && s.store == x.store && s.target == x.channel.data
      && s.procs == map[];
    hide *;
    var m, y := MachineOf(e), Execute(e, pr, x, CallOf(e, k), IdOf(e, k)).0;
    var begin := Machine.Begin(0, CallOf(e, k));
    var first := PreparedReaches(e, pr.world, k, s);
    var u := Machine.Run(m, Machine.Next(m, s, begin), first);
    var out := RestOfCall(e, pr, x, k, u);
    EndReaches(e, Machine.Run(m, u, out), y);
    actions := [begin] + (first + (out + [Machine.End(0)]));
    BeginFirst(e, s, begin, first + (out + [Machine.End(0)]), y, first, out);
  }

  lemma ScriptedCall(e: Env, k: int)
    requires IsTool(e, k)
    ensures CallOf(e, k) in ScriptedCalls(e)
  {
  }

  lemma BeginFirst(e: Env, s: Machine.Sys, begin: Machine.ActionKind, rest: seq<Machine.ActionKind>, y: State,
                   first: seq<Machine.ActionKind>, out: seq<Machine.ActionKind>)
    requires Scripted(e, [begin]) && Scripted(e, first) && Scripted(e, out) && rest == first + (out + [Machine.End(0)])
    requires var m := MachineOf(e);
      Reaches(e, Machine.Run(m, Machine.Run(m, Machine.Next(m, s, begin), first), out), [Machine.End(0)], y)
    ensures Reaches(e, s, [begin] + rest, y)
  {
    hide Machine.Next, Machine.Run, Reaches, Scripted;
    var m := MachineOf(e);
    var t := Machine.Next(m, s, begin);
    OneAction(e, s, begin);
    ReachesTwo(e, Machine.Run(m, t, first), out, [Machine.End(0)], y);
    ReachesTwo(e, t, first, out + [Machine.End(0)], y);
    ReachesTwo(e, s, [begin], rest, y);
  }

  lemma ExecuteIs(e: Env, pr: Process, x: State, k: int)
    requires IsTool(e, k)
    ensures var c := CallOf(e, k); var p := Prepare(x.store, IdOf(e, k), c, false, e.cfg, pr.world);
      Execute(e, pr, x, c, IdOf(e, k)).0 ==
        if !p.Ready? then x.(store := p.store)
        else
          var (channel, a) := Invoked(e, pr, x, k);
          var r := Finish(p.store, IdOf(e, k), c, p.replay, a, e.cfg, pr.world);
          State(if r.Ok? then r.value else p.store, channel)
  {
    hide Prepare, IdOf, Adapter.Invoke, Finish;
  }

  // ---------------------------------------------------------------- one pass

  /** A pass stands at the first of these candidates. */
  ghost predicate At(s: Machine.Sys, p: Recovery.Pass, todo: seq<Machine.Candidate>, phase: Machine.Phase) {
    s.procs.Keys == {0} && s.procs[0] == Machine.Recovering(p, todo, phase) && p.run in s.store.contexts
  }

  /** The first candidate was read from the present record. */
  predicate Fresh(s: Store, p: Recovery.Pass, todo: seq<Machine.Candidate>) {
    todo != [] && todo[0].record == Coordinator.RecordOf(s, p.run, todo[0].id)
  }

  function StepAt(w: World, s: Store): Machine.ActionKind {
    Machine.Advance(0, Failure(""), w.clock(|s.log|), w.uuid(|s.log|))
  }

  lemma PassMoved(e: Env, w: World, s: Machine.Sys, p: Recovery.Pass, todo: seq<Machine.Candidate>,
                  phase: Machine.Phase)
    requires At(s, p, todo, phase) && todo != []
    ensures Machine.Next(MachineOf(e), s, StepAt(w, s.store)) ==
      Machine.AdvancePass(MachineOf(e), s, 0, p, todo, phase, w.clock(|s.store.log|), w.uuid(|s.store.log|))
  {
    RepeatedReplay.AdvancedPass(MachineOf(e), s, p, todo, phase, Failure(""), w.clock(|s.store.log|),
                                w.uuid(|s.store.log|));
    hide Machine.Next, Machine.AdvancePass;
  }

  lemma RepairReaches(e: Env, w: World, s: Machine.Sys, p: Recovery.Pass, todo: seq<Machine.Candidate>,
                      record: ExternalResult)
    requires At(s, p, todo, Machine.Reconciling(record)) && todo != [] && todo[0].record.Some? && p.cfg == e.cfg
    requires Lookup(s.store.records, todo[0].id) == Some(record) && record.run == p.run && IsCommitted(record.status)
    ensures var t := Machine.Next(MachineOf(e), s, StepAt(w, s.store));
      At(t, p, todo[1..], Machine.Judging) && t.store == Recovery.ReconcileOne(p, w, s.store, todo[0].id)
        && t.target == s.target
  {
    PassMoved(e, w, s, p, todo, Machine.Reconciling(record));
    hide Machine.Next, RecordContextMessage, Recovery.ToolMessage, Recovery.HasToolMessage, Context.Validate;
    if record.response.Some? {
      var m := Recovery.ToolMessage(todo[0].id, record);
      Recovery.ToolMessageClean(todo[0].id, record);
      Effects.MessageEffect(s.store, p.run, m, e.cfg, w.uuid(|s.store.log|));
      var r := RecordContextMessage(s.store, p.run, m, e.cfg, w.uuid(|s.store.log|));
      if r.Ok? { assert Effects.ViewOf(r.value, p.run).known; }
    }
  }

  lemma SettledOk(p: Recovery.Pass, w: World, s: Store, id: ExecId)
    requires id in s.records && s.records[id].run == p.run && p.run in s.contexts
      && Recovery.Finding(p, id, s.records[id]).Some?
    ensures var r := s.records[id];
      var t := RecordToolResult(s, p.run, id, Recovery.FindingArgs(p, id, r), w.clock(|s.log|), p.cfg, w.uuid(|s.log|));
      && t.Ok? && t.value == Recovery.SettleOne(p, w, s, id) && p.run in t.value.contexts
      && id in t.value.records && t.value.records[id].run == p.run
      && (IsCommitted(t.value.records[id].status) <==> Recovery.Finding(p, id, r).value)
  {
    var r, now := s.records[id], w.clock(|s.log|);
    Recovery.SettledArgs(p, id, r, now);
    Recovery.SettledIsFound(p, id, r, now);
    assert Recovery.SettledRecord(p, id, r, now).status ==
      if Recovery.Finding(p, id, r).value then VerifiedCommitted
      else VerifiedNotFound by { hide Recovery.VerifiedPayload; }
    hide Recovery.Finding, Recovery.FindingArgs, RecordToolResult, ResultRecordOf, Recovery.SettledRecord, ShouldClear;
    Effects.ResultEffect(s, p.run, id, Recovery.FindingArgs(p, id, r), now, p.cfg, w.uuid(|s.log|));
    var t := RecordToolResult(s, p.run, id, Recovery.FindingArgs(p, id, r), now, p.cfg, w.uuid(|s.log|));
    assert Effects.ViewOf(t.value, p.run).known;
  }

  /** The first candidate is settled; it is still to be repaired just when it is committed. */
  ghost predicate HalfDone(s: Machine.Sys, p: Recovery.Pass, todo: seq<Machine.Candidate>)
    requires todo != []
  {
    var id := todo[0].id;
    && id in s.store.records && s.store.records[id].run == p.run
    && if IsCommitted(s.store.records[id].status) then At(s, p, todo, Machine.Reconciling(s.store.records[id]))
       else At(s, p, todo[1..], Machine.Judging)
  }

  lemma StoreReaches(e: Env, w: World, s: Machine.Sys, p: Recovery.Pass, todo: seq<Machine.Candidate>)
    requires At(s, p, todo, Machine.Storing) && Fresh(s.store, p, todo) && todo[0].record.Some? && p.cfg == e.cfg
    requires Recovery.Finding(p, todo[0].id, todo[0].record.value).Some?
    ensures var id := todo[0].id; var t := Machine.Next(MachineOf(e), s, StepAt(w, s.store));
      t.store == Recovery.SettleOne(p, w, s.store, id) && t.target == s.target && HalfDone(t, p, todo)
  {
    PassMoved(e, w, s, p, todo, Machine.Storing);
    SettledOk(p, w, s.store, todo[0].id);
    StorePass(e, w, s, p, todo);
    hide Machine.Next, Machine.AdvancePass, Recovery.Finding, Recovery.FindingArgs, RecordToolResult,
         Recovery.SettleOne, HalfDone;
    HalfDoneOf(s, Machine.Next(MachineOf(e), s, StepAt(w, s.store)), p, todo);
  }

  lemma HalfDoneOf(s: Machine.Sys, t: Machine.Sys, p: Recovery.Pass, todo: seq<Machine.Candidate>)
    requires todo != [] && s.procs.Keys == {0} && todo[0].id in t.store.records && p.run in t.store.contexts
    requires t.store.records[todo[0].id].run == p.run
    requires var r := t.store.records[todo[0].id];
      t.procs == s.procs[0 := if IsCommitted(r.status) then Machine.Recovering(p, todo, Machine.Reconciling(r))
                              else Machine.Recovering(p, todo[1..], Machine.Judging)]
    ensures HalfDone(t, p, todo)
  {
  }

  lemma StorePass(e: Env, w: World, s: Machine.Sys, p: Recovery.Pass, todo: seq<Machine.Candidate>)
    requires todo != [] && todo[0].record.Some? && Recovery.Finding(p, todo[0].id, todo[0].record.value).Some?
    ensures var id, now, ck := todo[0].id, w.clock(|s.store.log|), w.uuid(|s.store.log|);
      var u := RecordToolResult(s.store, p.run, id, Recovery.FindingArgs(p, id, todo[0].record.value), now, e.cfg, ck);
      u.Ok? && id in u.value.records ==>
        var proc :=
          if IsCommitted(u.value.records[id].status) then
            Machine.Recovering(p, todo, Machine.Reconciling(u.value.records[id]))
          else Machine.Recovering(p, todo[1..], Machine.Judging);
        Machine.AdvancePass(MachineOf(e), s, 0, p, todo, Machine.Storing, now, ck) ==
          s.(store := u.value, procs := s.procs[0 := proc])
  {
    hide Recovery.Finding, Recovery.FindingArgs, RecordToolResult;
  }

  lemma JudgeReaches(e: Env, w: World, s: Machine.Sys, p: Recovery.Pass, todo: seq<Machine.Candidate>)
    requires At(s, p, todo, Machine.Judging) && todo != []
    ensures var id, r := todo[0].id, todo[0].record; var t := Machine.Next(MachineOf(e), s, StepAt(w, s.store));
      && t.store == s.store && t.target == s.target
      && At(t, p, if r.Some? && (Recovery.Finding(p, id, r.value).Some? || IsCommitted(r.value.status)) then todo
            else todo[1..],
            if r.Some? && Recovery.Finding(p, id, r.value).Some? then Machine.Storing
            else if r.Some? && IsCommitted(r.value.status) then Machine.Reconciling(r.value) else Machine.Judging)
  {
    PassMoved(e, w, s, p, todo, Machine.Judging);
    hide Machine.Next, Recovery.Finding;
  }

  /** The store after both halves of one candidate. */
  function Treated(p: Recovery.Pass, w: World, s: Store, id: ExecId): Store {
    Recovery.ReconcileOne(p, w, Recovery.SettleOne(p, w, s, id), id)
  }

  ghost predicate Treats(e: Env, w: World, s: Machine.Sys, p: Recovery.Pass, todo: seq<Machine.Candidate>,
                         actions: seq<Machine.ActionKind>)
    requires todo != []
  {
    var t := Machine.Run(MachineOf(e), s, actions);
    && At(t, p, todo[1..], Machine.Judging) && t.store == Treated(p, w, s.store, todo[0].id) && t.target == s.target
    && forall i :: 0 <= i < |actions| ==> actions[i].Advance?
  }

  lemma RestReaches(e: Env, w: World, s: Machine.Sys, p: Recovery.Pass, todo: seq<Machine.Candidate>)
    returns (actions: seq<Machine.ActionKind>)
    requires todo != [] && todo[0].record.Some? && HalfDone(s, p, todo) && p.cfg == e.cfg
    ensures var t := Machine.Run(MachineOf(e), s, actions);
      && At(t, p, todo[1..], Machine.Judging) && t.target == s.target
      && t.store == Recovery.ReconcileOne(p, w, s.store, todo[0].id)
    ensures forall i :: 0 <= i < |actions| ==> actions[i].Advance?
  {
    var id := todo[0].id;
    hide Machine.Next, Machine.Run, Machine.AdvancePass, Recovery.ReconcileOne;
    if IsCommitted(s.store.records[id].status) {
      RepairReaches(e, w, s, p, todo, s.store.records[id]);
      actions := [StepAt(w, s.store)];
      OneAction(e, s, actions[0]);
    } else {
      NotRepaired(p, w, s.store, id);
      actions := [];
      RunNothing(MachineOf(e), s);
    }
  }

  lemma FoundReaches(e: Env, w: World, s: Machine.Sys, p: Recovery.Pass, todo: seq<Machine.Candidate>)
    returns (actions: seq<Machine.ActionKind>)
    requires At(s, p, todo, Machine.Judging) && Fresh(s.store, p, todo) && p.cfg == e.cfg
    requires todo[0].record.Some? && Recovery.Finding(p, todo[0].id, todo[0].record.value).Some?
    ensures Treats(e, w, s, p, todo, actions)
  {
    var m, one := MachineOf(e), StepAt(w, s.store);
    hide Machine.Next, Machine.Run, Machine.AdvancePass, Recovery.Finding, Recovery.SettleOne, Recovery.ReconcileOne,
         At, HalfDone, IsCommitted;
    JudgeReaches(e, w, s, p, todo);
    var t := Machine.Next(m, s, one);
    StoreReaches(e, w, t, p, todo);
    var two := StepAt(w, t.store);
    var rest := RestReaches(e, w, Machine.Next(m, t, two), p, todo);
    actions := [one] + ([two] + rest);
    Machine.FirstThen(m, t, two, rest);
    Machine.FirstThen(m, s, one, [two] + rest);
  }

  lemma CandidateReaches(e: Env, w: World, s: Machine.Sys, p: Recovery.Pass, todo: seq<Machine.Candidate>)
    returns (actions: seq<Machine.ActionKind>)
    requires At(s, p, todo, Machine.Judging) && Fresh(s.store, p, todo) && p.cfg == e.cfg
    ensures Treats(e, w, s, p, todo, actions)
  {
    var m, id, r, one := MachineOf(e), todo[0].id, todo[0].record, StepAt(w, s.store);
    hide Machine.Next, Machine.Run, Machine.AdvancePass, Recovery.Finding, Recovery.SettleOne, Recovery.ReconcileOne;
    if r.Some? && Recovery.Finding(p, id, r.value).Some? {
      actions := FoundReaches(e, w, s, p, todo);
    } else {
      JudgeReaches(e, w, s, p, todo);
      NotSettled(p, w, s.store, id);
      var t := Machine.Next(m, s, one);
      if r.Some? && IsCommitted(r.value.status) {
        RepairReaches(e, w, t, p, todo, r.value);
        actions := [one, StepAt(w, t.store)];
        Machine.RunPair(m, s, one, StepAt(w, t.store));
      } else {
        NotRepaired(p, w, s.store, id);
        actions := [one];
        OneAction(e, s, one);
      }
    }
  }

  lemma NotSettled(p: Recovery.Pass, w: World, s: Store, id: ExecId)
    requires var r := Coordinator.RecordOf(s, p.run, id); r.Some? ==> Recovery.Finding(p, id, r.value).None?
    ensures Recovery.SettleOne(p, w, s, id) == s
  {
    hide Recovery.Finding, RecordToolResult, Recovery.FindingArgs;
  }

  lemma NotRepaired(p: Recovery.Pass, w: World, s: Store, id: ExecId)
    requires id in s.records && s.records[id].run == p.run ==> !IsCommitted(s.records[id].status)
    ensures Recovery.ReconcileOne(p, w, s, id) == s
  {
    hide RecordContextMessage, Recovery.ToolMessage, Recovery.HasToolMessage;
  }

  /** The candidates that are left after `k` of them. */
  function Left(s: Store, run: RunId, ids: seq<ExecId>, k: nat): seq<Machine.Candidate>
    requires k <= |ids|
  {
    Machine.Snapshot(s, run, ids)[k..]
  }

  lemma LeftFresh(p: Recovery.Pass, w: World, s: Store, ids: seq<ExecId>, k: nat)
    requires p.run in s.contexts && NoDup(ids) && k < |ids|
    ensures var todo := Left(s, p.run, ids, k);
      Fresh(Recovery.Steps(p, w, s, ids, 2 * k), p, todo) && todo[0].id == ids[k]
        && todo[1..] == Left(s, p.run, ids, k + 1)
  {
    Coordinator.StaleIsCurrent(p, w, s, ids, k);
    hide Recovery.Steps;
    assert Machine.Snapshot(s, p.run, ids)[k].record == Coordinator.RecordOf(s, p.run, ids[k]);
  }

  lemma {:induction false} CandidatesReach(e: Env, w: World, s: Machine.Sys, p: Recovery.Pass, ids: seq<ExecId>, k: nat)
    returns (actions: seq<Machine.ActionKind>)
    requires NoDup(ids) && k <= |ids| && p.cfg == e.cfg
    requires At(s, p, Left(s.store, p.run, ids, 0), Machine.Judging)
    ensures var t := Machine.Run(MachineOf(e), s, actions);
      && At(t, p, Left(s.store, p.run, ids, k), Machine.Judging) && t.target == s.target
      && t.store == Recovery.Steps(p, w, s.store, ids, 2 * k)
    ensures forall i :: 0 <= i < |actions| ==> actions[i].Advance?
  {
    hide Machine.Run, Machine.Next, Recovery.Steps, Recovery.SettleOne, Recovery.ReconcileOne, Left;
    assert p.run in s.store.contexts;
    if k == 0 {
      actions := [];
      NoStepsYet(e, p, w, s, ids);
    } else {
      var before := CandidatesReach(e, w, s, p, ids, k - 1);
      var t := Machine.Run(MachineOf(e), s, before);
      var todo := Left(s.store, p.run, ids, k - 1);
      LeftFresh(p, w, s.store, ids, k - 1);
      var more := CandidateReaches(e, w, t, p, todo);
      Coordinator.TwoHalfSteps(p, w, s.store, ids, k - 1);
      actions := before + more;
      Machine.RunConcat(MachineOf(e), s, before, more);
    }
  }

  lemma NoStepsYet(e: Env, p: Recovery.Pass, w: World, s: Machine.Sys, ids: seq<ExecId>)
    ensures Machine.Run(MachineOf(e), s, []) == s && Recovery.Steps(p, w, s.store, ids, 0) == s.store
  {
  }

  lemma AdvancesScripted(e: Env, actions: seq<Machine.ActionKind>)
    requires forall i :: 0 <= i < |actions| ==> actions[i].Advance?
    ensures Scripted(e, actions)
  {
  }

  function CandidateIds(p: Recovery.Pass, s: Store): seq<ExecId> { Sorted(Recovery.Candidates(s, p.run)) }

  lemma PassBegins(e: Env, s: Machine.Sys, x: State, p: Recovery.Pass)
    requires Same(s, x) && p.run in x.store.contexts
    ensures var t := Machine.Next(MachineOf(e), s, Machine.BeginRecovery(0, p));
      && t.store == x.store && t.target == x.channel.data && NoDup(CandidateIds(p, x.store))
      && At(t, p, Left(x.store, p.run, CandidateIds(p, x.store), 0), Machine.Judging)
    ensures Scripted(e, [Machine.BeginRecovery(0, p)])
  {
    RepeatedReplay.RecoveryBegins(MachineOf(e), s, p);
    hide Machine.Next, Machine.Snapshot, Sorted, Recovery.Candidates;
  }

  lemma PassIs(p: Recovery.Pass, w: World, s: Store)
    requires p.run in s.contexts
    ensures var ids := CandidateIds(p, s); Recovery.RecoverRun(p, w, s) == Recovery.Steps(p, w, s, ids, 2 * |ids|)
  {
    hide Recovery.Steps, Sorted, Recovery.Candidates;
  }

  /** A whole pass. */
  lemma PassReaches(e: Env, w: World, s: Machine.Sys, x: State, p: Recovery.Pass)
    returns (actions: seq<Machine.ActionKind>)
    requires Same(s, x) && p.run == e.run && p.cfg == e.cfg
    ensures Reaches(e, s, actions, x.(store := Recovery.RecoverRun(p, w, x.store)))
  {
    if e.run !in x.store.contexts {
      actions := [];
      Nothing(e, s, x);
    } else {
      PassBegins(e, s, x, p);
      PassIs(p, w, x.store);
      hide Recovery.RecoverRun, Recovery.Steps, Machine.Run, Machine.Next, Reaches, Scripted, CandidateIds, Left, Same;
      var y, m := x.(store := Recovery.RecoverRun(p, w, x.store)), MachineOf(e);
      var ids, begin := CandidateIds(p, x.store), Machine.BeginRecovery(0, p);
      var t := Machine.Next(m, s, begin);
      var steps := CandidatesReach(e, w, t, p, ids, |ids|);
      AdvancesScripted(e, steps);
      AdvancesScripted(e, []);
      EndReaches(e, Machine.Run(m, t, steps), y);
      RunNothing(m, Machine.Run(m, t, steps));
      actions := [begin] + (steps + ([] + [Machine.End(0)]));
      BeginFirst(e, s, begin, steps + ([] + [Machine.End(0)]), y, steps, []);
    }
  }

  // ---------------------------------------------------------------- turns, processes, runs

  lemma ThenReaches(e: Env, s: Machine.Sys, a: seq<Machine.ActionKind>, x: State)
    requires Reaches(e, s, a, x)
    ensures Scripted(e, a) && Same(Machine.Run(MachineOf(e), s, a), x)
  {
  }

  lemma AdvanceReaches(e: Env, pr: Process, x: State, k: nat, at: Option<Point>, s: Machine.Sys)
    returns (actions: seq<Machine.ActionKind>)
    requires Same(s, x)
    ensures Reaches(e, s, actions, Advance(e, pr, x, k, at).0)
  {
    hide Reaches, AdvancePlanItem, ItemOf;
    var op, ck := OpAdvance(e.run, ItemOf(e, k), "done", None), pr.world.uuid(|x.store.log|);
    actions := [Machine.Work(op, 0.0, ck)];
    WorkReaches(e, s, x, op, 0.0, ck);
  }

  lemma ResolveReaches(e: Env, pr: Process, x: State, before: Store, p: Recovery.Pass, k: int, pending: bool,
                       s: Machine.Sys)
    returns (actions: seq<Machine.ActionKind>)
    requires DriverLaws.WellScripted(e) && IsTool(e, k) && Same(s, x)
    ensures Reaches(e, s, actions,
                    (if pending then Resolve(e, pr, x, before, p, CallOf(e, k), IdOf(e, k)) else (x, Continue)).0)
  {
    hide Reaches, Execute, Coordinator.FinalDecision, CallOf, IdOf, DriverLaws.WellScripted;
    var y := (if pending then Resolve(e, pr, x, before, p, CallOf(e, k), IdOf(e, k)) else (x, Continue)).0;
    if y == x {
      actions := [];
      Nothing(e, s, x);
    } else {
      actions := ExecuteReaches(e, pr, x, k, s);
    }
  }

  lemma AfterCallReaches(e: Env, pr: Process, x: State, k: nat, pending: bool, at: Option<Point>, s: Machine.Sys)
    returns (actions: seq<Machine.ActionKind>)
    requires DriverLaws.WellScripted(e) && IsTool(e, k) && Same(s, x)
    ensures Reaches(e, s, actions, AfterCall(e, pr, x, k, pending, at).0)
  {
    var p := PassAt(e, x.channel.data, RecoveryTime(pr, x, IdOf(e, k), pending));
    var y := x.(store := Recovery.RecoverRun(p, pr.world, x.store));
    AfterCallIs(e, pr, x, k, pending, at);
    assert p.run == e.run && p.cfg == e.cfg;
    hide *;
    actions := PassReaches(e, pr.world, s, x, p);
    ThenReaches(e, s, actions, y);
    if at != Some(AfterRecovery) {
      var t := Machine.Run(MachineOf(e), s, actions);
      var (z, flow) := if pending then Resolve(e, pr, y, x.store, p, CallOf(e, k), IdOf(e, k)) else (y, Continue);
      var more := ResolveReaches(e, pr, y, x.store, p, k, pending, t);
      ReachesTwo(e, s, actions, more, z);
      actions := actions + more;
      if flow.Continue? {
        ThenReaches(e, s, actions, z);
        var last := AdvanceReaches(e, pr, z, k, at, Machine.Run(MachineOf(e), s, actions));
        ReachesTwo(e, s, actions, last, Advance(e, pr, z, k, at).0);
        actions := actions + last;
      }
    }
  }

  lemma TurnReaches(e: Env, pr: Process, x: State, k: int, s: Machine.Sys) returns (actions: seq<Machine.ActionKind>)
    requires IsTool(e, k) && Same(s, x) && DriverProgress.LoggedTurn(e, pr, x, k).Ok?
    ensures Reaches(e, s, actions, x.(store := DriverProgress.LoggedTurn(e, pr, x, k).value))
  {
    hide Reaches, RecordLlmTurn, ItemOf;
    var turn, ck := e.script[k], pr.world.uuid(|x.store.log|);
    var op := OpLlmTurn(e.run, ItemOf(e, k), turn.output, turn.rationale, turn.meta);
    actions := [Machine.Work(op, 0.0, ck)];
    WorkReaches(e, s, x, op, 0.0, ck);
  }

  lemma ToolStepReaches(e: Env, pr: Process, x: State, k: nat, at: Option<Point>, s: Machine.Sys)
    returns (actions: seq<Machine.ActionKind>)
    requires DriverLaws.WellScripted(e) && IsTool(e, k) && Same(s, x)
    ensures Reaches(e, s, actions, ToolStep(e, pr, x, k, at).0)
  {
    var r := DriverProgress.LoggedTurn(e, pr, x, k);
    if at == Some(AfterStart) || r.Err? {
      DriverProgress.StoppedStep(e, pr, x, k, at);
      hide *;
      actions := [];
      Nothing(e, s, x);
    } else {
      DriverProgress.ToolStepIs(e, pr, x, k, at);
      hide *;
      var y := x.(store := r.value);
      actions := TurnReaches(e, pr, x, k, s);
      ThenReaches(e, s, actions, y);
      if at != Some(AfterRecord) {
        var (z, result) := Execute(e, pr, y, CallOf(e, k), IdOf(e, k));
        var more := ExecuteReaches(e, pr, y, k, Machine.Run(MachineOf(e), s, actions));
        ReachesTwo(e, s, actions, more, z);
        actions := actions + more;
        if result.Ok? && at != Some(AfterTransaction) && result.value != Failed {
          ThenReaches(e, s, actions, z);
          var pending := result.value == PendingRecovery;
          var last := AfterCallReaches(e, pr, z, k, pending, at, Machine.Run(MachineOf(e), s, actions));
          ReachesTwo(e, s, actions, last, AfterCall(e, pr, z, k, pending, at).0);
          actions := actions + last;
        }
      }
    }
  }

  lemma FinalStepReaches(e: Env, pr: Process, x: State, k: nat, at: Option<Point>, s: Machine.Sys)
    returns (actions: seq<Machine.ActionKind>)
    requires k < |e.script| && e.script[k].FinalTurn? && Same(s, x)
    ensures Reaches(e, s, actions, FinalStep(e, pr, x, k, at).0)
  {
    hide Reaches, RecordContextMessage, Advance;
    var m, ck :=
      Context.Message("assistant", e.script[k].answer, None, None, e.script[k].meta), pr.world.uuid(|x.store.log|);
    var r := RecordContextMessage(x.store, e.run, m, e.cfg, ck);
    if at == Some(AfterStart) || r.Err? {
      actions := [];
      Nothing(e, s, x);
    } else {
      var y := x.(store := r.value);
      actions := [Machine.Work(OpMessage(e.run, m), 0.0, ck)];
      WorkReaches(e, s, x, OpMessage(e.run, m), 0.0, ck);
      if at != Some(AfterRecord) {
        ThenReaches(e, s, actions, y);
        var last := AdvanceReaches(e, pr, y, k, at, Machine.Run(MachineOf(e), s, actions));
        ReachesTwo(e, s, actions, last, Advance(e, pr, y, k, at).0);
        actions := actions + last;
      }
    }
  }

  lemma {:induction false} LoopReaches(e: Env, pr: Process, x: State, k: nat, completed: set<string>, s: Machine.Sys)
    returns (actions: seq<Machine.ActionKind>)
    requires DriverLaws.WellScripted(e) && k <= |e.script| && Same(s, x)
    ensures Reaches(e, s, actions, Loop(e, pr, x, k, completed).0)
    decreases |e.script| - k
  {
    hide ToolStep, FinalStep, ItemOf, DriverLaws.WellScripted, Reaches, Same;
    if k == |e.script| {
      actions := [];
      Nothing(e, s, x);
    } else if ItemOf(e, k) in completed && k < e.items {
      actions := LoopReaches(e, pr, x, k + 1, completed, s);
    } else {
      var at := if pr.crash.Some? && pr.crash.value.0 == k then Some(pr.crash.value.1) else None;
      var (y, flow) := if e.script[k].ToolTurn? then ToolStep(e, pr, x, k, at) else FinalStep(e, pr, x, k, at);
      if e.script[k].ToolTurn? { actions := ToolStepReaches(e, pr, x, k, at, s); }
      else { actions := FinalStepReaches(e, pr, x, k, at, s); }
      if flow.Continue? {
        ThenReaches(e, s, actions, y);
        var rest := LoopReaches(e, pr, y, k + 1, completed, Machine.Run(MachineOf(e), s, actions));
        ReachesTwo(e, s, actions, rest, Loop(e, pr, y, k + 1, completed).0);
        actions := actions + rest;
      }
    }
  }

  lemma {:induction false} ProcessesReach(e: Env, s: Store, d: Target.Data, prs: seq<Process>, m: Machine.Sys)
    returns (actions: seq<Machine.ActionKind>)
    requires DriverLaws.WellScripted(e) && m.store == s && m.target == d && m.procs == map[]
    ensures Reaches(e, m, actions, DriverLaws.RunProcesses(e, s, d, prs).0)
  {
    hide DriverLaws.WellScripted, Loop, DoneItems, Reaches;
    if prs == [] {
      actions := [];
      Nothing(e, m, State(s, Adapter.Channel(d, false)));
    } else {
      var rest, pr := prs[..|prs| - 1], prs[|prs| - 1];
      actions := ProcessesReach(e, s, d, rest, m);
      var x := DriverLaws.RunProcesses(e, s, d, rest).0;
      ThenReaches(e, m, actions, x);
      var y := State(x.store, Adapter.Channel(x.channel.data, false));
      var last := LoopReaches(e, pr, y, 0, DoneItems(x.store, e.run), Machine.Run(MachineOf(e), m, actions));
      ReachesTwo(e, m, actions, last, DriverLaws.RunProcesses(e, s, d, prs).0);
      actions := actions + last;
    }
  }

  /** The store in which the processes of a new run begin. */
  function Started(e: Env, op: Op, now: real, ck: string): Store { After(EMPTY, Stamped(op, now, ck), e.cfg) }

  /** Every run of the sample agent, from `start_run` on, in however many processes and wherever they crash, is a
      history of the state machine with a single runner: the same store and the same target at its end. */
  lemma {:induction false} RunIsHistory(e: Env, d: Target.Data, op: Op, now: real, ck: string, prs: seq<Process>)
    returns (actions: seq<Machine.ActionKind>)
    requires DriverLaws.WellScripted(e) && op.OpStart? && op.run == e.run
    ensures Scripted(e, actions)
    ensures Same(Machine.Run(MachineOf(e), Machine.Initial(d), [Machine.Work(op, now, ck)] + actions),
                 DriverLaws.RunProcesses(e, Started(e, op, now, ck), d, prs).0)
  {
    var m, work := MachineOf(e), Machine.Work(op, now, ck);
    var s := Machine.Next(m, Machine.Initial(d), work);
    Openings.WorkIs(m, Machine.Initial(d), op, now, ck);
    assert s.store == Started(e, op, now, ck) && s.target == d && s.procs == map[] by { hide Machine.Next, After; }
    hide *;
    actions := ProcessesReach(e, Started(e, op, now, ck), d, prs, s);
    ThenReaches(e, s, actions, DriverLaws.RunProcesses(e, Started(e, op, now, ck), d, prs).0);
    Machine.FirstThen(m, Machine.Initial(d), work, actions);
  }

  lemma HistoryOk(e: Env, work: Machine.ActionKind, actions: seq<Machine.ActionKind>)
    requires Scripted(e, actions) && work.Work? && work.op.OpStart? && !work.op.force
    ensures Machine.Calls([work] + actions, ScriptedCalls(e))
    ensures forall i :: 0 <= i < |[work] + actions| ==> PendingLists.NoReset(([work] + actions)[i])
  {
  }

  /** So the laws of a single runner hold of it: exact pending lists, a sound log, authorized invocations. */
  lemma {:induction false} RunObeysLaws(e: Env, d: Target.Data, op: Op, now: real, ck: string, prs: seq<Process>)
    returns (actions: seq<Machine.ActionKind>)
    requires DriverLaws.WellScripted(e) && op.OpStart? && op.run == e.run && !op.force
    requires Machine.WellNamed(MachineOf(e), ScriptedCalls(e))
    ensures var s := Machine.Run(MachineOf(e), Machine.Initial(d), [Machine.Work(op, now, ck)] + actions);
      var x := DriverLaws.RunProcesses(e, Started(e, op, now, ck), d, prs).0;
      && Same(s, x) && PendingLists.PendingExact(x.store) && History.Sound(x.store, true)
      && SingleRunner.Authorized(s.marks)
  {
    assert e.cfg.dedup;
    hide *;
    actions := RunIsHistory(e, d, op, now, ck, prs);
    var m, all := MachineOf(e), [Machine.Work(op, now, ck)] + actions;
    HistoryOk(e, Machine.Work(op, now, ck), actions);
    MachineIs(e);
    PendingLists.PendingIsExact(m, ScriptedCalls(e), d, all);
    RunnerLaws.InvocationsAuthorized(m, ScriptedCalls(e), d, all);
    MachineHistory.EveryStateAudited(m, d, all, e.run);
    SameStore(Machine.Run(m, Machine.Initial(d), all), DriverLaws.RunProcesses(e, Started(e, op, now, ck), d, prs).0);
  }

  lemma MachineIs(e: Env)
    ensures MachineOf(e).single && MachineOf(e).cfg == e.cfg
  {
  }

  lemma SameStore(s: Machine.Sys, x: State)
    requires Same(s, x)
    ensures s.store == x.store
  {
  }
}
