/** Which logged intents can still be invoked: a crash between intent and dispatch, from both sides. */
module Abandonment {
  import opened Prelude
  import opened Models
  import opened Facade
  import opened Executor
  import opened Machine
  import opened SingleRunner
  import opened RunnerLaws
  import Adapter
  import Effects
  import Openings
  import Recovery
  import Target

  // ---------------------------------------------------------------- the crash

  /** A run is created, a call logs its intent, and its process dies. */
  function Crash(c: ToolCall, op: Op, a: Answer, now: real, ck: string): seq<ActionKind> {
    [Work(op, now, ck), Begin(0, c)] + [Advance(0, a, now, ck), Advance(0, a, now, ck)] + [End(0)]
  }

  predicate Alone(s: Sys, c: ToolCall, pc: Pc) { s.procs.Keys == {0} && s.procs[0] == Calling(c, pc) }

  lemma CallBegins(env: Env, s: Sys, c: ToolCall)
    requires s.procs == map[]
    ensures var t := Next(env, s, Begin(0, c));
      Alone(t, c, AtLookup) && t.store == s.store && t.target == s.target && t.sent == s.sent && t.marks == s.marks
  {
  }

  /** The only process goes on by one step. */
  lemma Moved(env: Env, s: Sys, c: ToolCall, pc: Pc, a: Answer, now: real, ck: string)
    requires Alone(s, c, pc)
    ensures var (u, next) := Step(s.store, IdOf(env, c), c, pc, a, env.dispatchReads, env.cfg, now, ck);
      var t := Next(env, s, Advance(0, a, now, ck));
      && Alone(t, c, next) && t.store == u && t.target == s.target
      && t.sent == (if pc.AtInvoke? && OnTheWire(env, c) then s.sent + {c} else s.sent)
      && t.marks == s.marks + if pc.AtInvoke? then [Invoked(IdOf(env, c), StatusOf(s.store, IdOf(env, c)))] else []
  {
    hide IdOf, Step, AdvancePass, StatusOf, OnTheWire;
    assert Next(env, s, Advance(0, a, now, ck)) == AdvanceCall(env, s, 0, c, pc, a, now, ck);
  }

  lemma LookedUp(env: Env, s: Sys, c: ToolCall, a: Answer, now: real, ck: string)
    requires Alone(s, c, AtLookup) && IdOf(env, c) !in s.store.records
    ensures var t := Next(env, s, Advance(0, a, now, ck));
      Alone(t, c, AtIntent) && t.store == s.store && t.marks == s.marks
  {
    hide IdOf;
  }

  lemma IntentStep(env: Env, s: Store, c: ToolCall, a: Answer, now: real, ck: string)
    requires env.cfg.dedup && Openings.Unlogged(env, s, c)
    ensures var (t, next) := Step(s, IdOf(env, c), c, AtIntent, a, env.dispatchReads, env.cfg, now, ck);
      && next == AtRecheck && IdOf(env, c) in t.records
      && t.records[IdOf(env, c)].status == IntentLogged && t.records[IdOf(env, c)].run == c.ident.run
  {
    Openings.IntentLogs(env, s, c, now, ck);
    hide IdOf, RecordToolIntent, Openings.Unlogged;
  }

  lemma IntentDurable(env: Env, s: Sys, c: ToolCall, a: Answer, now: real, ck: string)
    requires env.cfg.dedup && Alone(s, c, AtIntent) && Openings.Unlogged(env, s.store, c)
    ensures var t := Next(env, s, Advance(0, a, now, ck));
      && Alone(t, c, AtRecheck) && t.marks == s.marks
      && IdOf(env, c) in t.store.records
      && t.store.records[IdOf(env, c)].status == IntentLogged && t.store.records[IdOf(env, c)].run == c.ident.run
  {
    IntentStep(env, s.store, c, a, now, ck);
    hide IdOf, Step, Openings.Unlogged, Next, Alone, OnTheWire, StatusOf;
    Moved(env, s, c, AtIntent, a, now, ck);
  }

  /** The run exists, and a process is about to look the call up. */
  lemma Begun(env: Env, d: Target.Data, c: ToolCall, op: Op, now: real, ck: string)
    requires env.cfg.dedup && Openings.Creates(op, c)
    ensures var s := Run(env, Initial(d), [Work(op, now, ck), Begin(0, c)]);
      Alone(s, c, AtLookup) && s.marks == [] && Openings.Unlogged(env, s.store, c)
  {
    Openings.Opened(env, d, c, op, now, ck);
    hide IdOf, After, Openings.Unlogged;
    RunPair(env, Initial(d), Work(op, now, ck), Begin(0, c));
  }

  lemma Ended(env: Env, s: Sys)
    requires s.procs.Keys == {0}
    ensures Run(env, s, [End(0)]) == s.(procs := map[])
  {
    assert [End(0)][..0] == [];
    assert Run(env, s, [End(0)]) == Next(env, Run(env, s, []), End(0));
    assert s.procs - {0} == map[];
  }

  lemma CrashReaches(env: Env, d: Target.Data, c: ToolCall, op: Op, a: Answer, now: real, ck: string)
    requires env.cfg.dedup && Openings.Creates(op, c)
    ensures var s := Run(env, Initial(d), Crash(c, op, a, now, ck));
      && s.procs == map[] && s.marks == []
      && IdOf(env, c) in s.store.records
      && s.store.records[IdOf(env, c)].status == IntentLogged && s.store.records[IdOf(env, c)].run == c.ident.run
  {
    hide IdOf, Next, Openings.Unlogged, Openings.Creates;
    var one, two := [Work(op, now, ck), Begin(0, c)], [Advance(0, a, now, ck), Advance(0, a, now, ck)];
    Begun(env, d, c, op, now, ck);
    var s := Run(env, Initial(d), one);
    Unknown(env, s.store, c);
    LookedUp(env, s, c, a, now, ck);
    IntentDurable(env, Next(env, s, two[0]), c, a, now, ck);
    RunPair(env, s, two[0], two[1]);
    RunConcat(env, Initial(d), one, two);
    Ended(env, Run(env, Initial(d), one + two));
    RunConcat(env, Initial(d), one + two, [End(0)]);
  }

  lemma Unknown(env: Env, s: Store, c: ToolCall)
    requires Openings.Unlogged(env, s, c)
    ensures IdOf(env, c) !in s.records
  {
  }

  /** Such a crash can happen, and then the call is never invoked: not before, not after, whoever goes on. */
  lemma {:induction false} CrashLosesCall(env: Env, d: Target.Data, c: ToolCall, op: Op, a: Answer, now: real,
                                          ck: string, more: seq<ActionKind>)
    requires env.cfg.dedup && Openings.Creates(op, c)
    ensures var s := Run(env, Initial(d), Crash(c, op, a, now, ck));
      && Abandoned(env, s, IdOf(env, c))
      && !EverInvoked(Run(env, Initial(d), Crash(c, op, a, now, ck) + more).marks, IdOf(env, c))
  {
    hide IdOf, Next, Crash;
    CrashReaches(env, d, c, op, a, now, ck);
    var s := Run(env, Initial(d), Crash(c, op, a, now, ck));
    assert Abandoned(env, s, IdOf(env, c));
    hide Abandoned;
    AbandonedForever(env, s, more, IdOf(env, c));
    RunConcat(env, Initial(d), Crash(c, op, a, now, ck), more);
  }

  // ---------------------------------------------------------------- exactly which intents are lost

  /** A process of this call is past its intent and before its external call. */
  predicate OnTheWay(env: Env, p: Proc, id: ExecId) {
    p.Calling? && IdOf(env, p.call) == id && (p.pc.AtRecheck? || p.pc.AtDispatch? || p.pc.AtInvoke?)
  }

  predicate Invocable(env: Env, s: Sys, id: ExecId) {
    exists pid :: pid in s.procs && OnTheWay(env, s.procs[pid], id)
  }

  /** These actions make a call of `id`. */
  predicate Invokes(env: Env, s: Sys, more: seq<ActionKind>, id: ExecId) {
    var t := Run(env, s, more);
    exists i :: |s.marks| <= i < |t.marks| && t.marks[i].Invoked? && t.marks[i].id == id
  }

  /** Closed, or only logged with nobody on the way. */
  predicate Stuck(env: Env, s: Sys, id: ExecId) {
    id in s.store.records && (IsOpen(s.store.records[id].status) ==>
                              s.store.records[id].status == IntentLogged && !Invocable(env, s, id))
  }

  /** One action neither invokes the call nor gets it unstuck. */
  predicate StaysStuck(env: Env, s: Sys, t: Sys, id: ExecId) { Stuck(env, t, id) && NotInvoked(s.marks, t.marks, id) }

  /** The record of an undispatched call is closed by its answer. */
  lemma AnswerCloses(env: Env, s: Store, c: ToolCall, replay: bool, a: Answer, now: real, ck: string)
    requires Holds(s, c.ident.run, IdOf(env, c), OutStatus(env, c, replay)) && c.ident.run in s.contexts
    requires OutStatus(env, c, replay) == IntentLogged
    ensures var r := RecordToolResult(s, c.ident.run, IdOf(env, c), AnswerArgs(c, replay, a), now, env.cfg, ck);
      r.Ok? && IdOf(env, c) in r.value.records && !IsOpen(r.value.records[IdOf(env, c)].status)
  {
    var m := SingleRunner.RecordStep(env, s, c, replay, a, now, ck);
    hide IdOf, RecordToolResult, ShouldClear;
    Effects.ResultEffect(s, c.ident.run, IdOf(env, c), AnswerArgs(c, replay, a), now, env.cfg, ck);
  }

  lemma OwnStuck(env: Env, s: Store, marks: seq<Mark>, c: ToolCall, pc: Pc, answer: Answer, now: real, ck: string)
    requires RecordsOk(s, marks) && CallOk(env, s, marks, c, pc) && IdOf(env, c) in s.records
      && s.records[IdOf(env, c)].status == IntentLogged
    requires !pc.AtRecheck? && !pc.AtDispatch? && !pc.AtInvoke?
    ensures var id := IdOf(env, c); var (t, next) := Step(s, id, c, pc, answer, env.dispatchReads, env.cfg, now, ck);
      && id in t.records && (IsOpen(t.records[id].status) ==> t.records[id].status == IntentLogged)
      && !next.AtRecheck? && !next.AtDispatch? && !next.AtInvoke?
  {
    if pc.AtRecord? { AnswerCloses(env, s, c, pc.replay, pc.answer, now, ck); }
    hide IdOf, RecordToolResult, AnswerArgs, HandleExisting;
  }

  lemma CallStuck(env: Env, calls: set<ToolCall>, s: Sys, pid: nat, answer: Answer, now: real, ck: string, id: ExecId)
    requires Inv(env, s, calls) && pid in s.procs && s.procs[pid].Calling?
    requires id in s.store.records && s.store.records[id].status == IntentLogged && !Invocable(env, s, id)
    ensures StaysStuck(env, s, AdvanceCall(env, s, pid, s.procs[pid].call, s.procs[pid].pc, answer, now, ck), id)
  {
    var c, pc := s.procs[pid].call, s.procs[pid].pc;
    var t := AdvanceCall(env, s, pid, c, pc, answer, now, ck);
    assert ProcOk(env, s.store, s.marks, s.procs[pid]) && RecordsOk(s.store, s.marks);
    assert !OnTheWay(env, s.procs[pid], id);
    hide Inv, RecordsOk;
    if IdOf(env, c) == id { OwnStuck(env, s.store, s.marks, c, pc, answer, now, ck); }
    else { StepTouchesOwn(s.store, IdOf(env, c), c, pc, answer, env.dispatchReads, env.cfg, now, ck, id); }
    hide IdOf, Step, CallOk;
    forall q | q in t.procs && IsOpen(t.store.records[id].status) ensures !OnTheWay(env, t.procs[q], id) {
      if q != pid { assert !OnTheWay(env, s.procs[q], id); }
    }
  }

  lemma ReadAsIntent(s: Store, marks: seq<Mark>, p: Recovery.Pass, todo: seq<Candidate>, phase: Phase, id: ExecId)
    requires PassOk(s, marks, p, todo, phase) && id in s.records && s.records[id].status == IntentLogged
    ensures forall i :: 0 <= i < |todo| ==> NotOut(todo[i], id)
  {
    hide Recovery.Finding;
    forall i | 0 <= i < |todo| ensures NotOut(todo[i], id) {
      if i > 0 { assert CandidateOk(s, p.run, todo[i]); }
    }
  }

  lemma PassStuck(env: Env, s: Sys, pid: nat, now: real, ck: string, id: ExecId)
    requires pid in s.procs && s.procs[pid].Recovering? && s.procs[pid].todo != []
      && ProcOk(env, s.store, s.marks, s.procs[pid])
    requires id in s.store.records && s.store.records[id].status == IntentLogged && !Invocable(env, s, id)
    ensures StaysStuck(env, s, AdvancePass(env, s, pid, s.procs[pid].pass, s.procs[pid].todo, s.procs[pid].phase, now,
                                           ck), id)
  {
    var p := s.procs[pid];
    ReadAsIntent(s.store, s.marks, p.pass, p.todo, p.phase, id);
    PassTouchesDispatched(env, s, pid, p.pass, p.todo, p.phase, now, ck, id);
    var t := AdvancePass(env, s, pid, p.pass, p.todo, p.phase, now, ck);
    hide AdvancePass, IdOf, PassOk;
    forall q | q in t.procs ensures !OnTheWay(env, t.procs[q], id) {
      if q in s.procs { assert !OnTheWay(env, s.procs[q], id); }
    }
  }

  lemma OtherStuck(env: Env, s: Sys, a: ActionKind, id: ExecId)
    requires Stuck(env, s, id)
      && (a.Advance? ==> a.pid !in s.procs || (s.procs[a.pid].Recovering? && s.procs[a.pid].todo == []))
    ensures StaysStuck(env, s, Next(env, s, a), id)
  {
    hide IdOf, After, Admits, Adapter.ActionRequest, Target.Serve, Recovery.Candidates, Snapshot, Sorted;
    if a.Work? && Standalone(a.op) { StandaloneEffect(s.store, a.op, a.now, env.cfg, a.ck); }
    var t := Next(env, s, a);
    forall q | q in t.procs && !Invocable(env, s, id) ensures !OnTheWay(env, t.procs[q], id) {
      if q in s.procs { assert t.procs[q] == s.procs[q] ==> !OnTheWay(env, s.procs[q], id); }
    }
  }

  lemma ClosedStuck(env: Env, calls: set<ToolCall>, s: Sys, a: ActionKind, id: ExecId)
    requires env.single && env.cfg.dedup && WellNamed(env, calls) && Inv(env, s, calls)
      && (a.Begin? ==> a.call in calls)
    requires id in s.store.records && !IsOpen(s.store.records[id].status)
    ensures StaysStuck(env, s, Next(env, s, a), id)
  {
    NextIsSound(env, calls, s, a);
    NextInvokesOpen(env, calls, s, a);
    hide Next, Inv, WellNamed;
  }

  lemma StuckNext(env: Env, calls: set<ToolCall>, s: Sys, a: ActionKind, id: ExecId)
    requires env.single && env.cfg.dedup && WellNamed(env, calls) && Inv(env, s, calls)
      && (a.Begin? ==> a.call in calls)
    requires Stuck(env, s, id)
    ensures StaysStuck(env, s, Next(env, s, a), id)
  {
    if !IsOpen(s.store.records[id].status) {
      ClosedStuck(env, calls, s, a, id);
    } else if a.Advance? && a.pid in s.procs && s.procs[a.pid].Calling? {
      CallStuck(env, calls, s, a.pid, a.answer, a.now, a.ck, id);
    } else if a.Advance? && a.pid in s.procs && s.procs[a.pid].todo != [] {
      PassStuck(env, s, a.pid, a.now, a.ck, id);
    } else {
      OtherStuck(env, s, a, id);
    }
    hide Inv, Stuck, NotInvoked, IdOf, AdvanceCall, AdvancePass, WellNamed;
  }

  /** Without a process on the way, no continuation invokes the call. */
  lemma {:induction false} StuckForever(env: Env, calls: set<ToolCall>, s: Sys, more: seq<ActionKind>, id: ExecId)
    requires env.single && env.cfg.dedup && WellNamed(env, calls) && Inv(env, s, calls) && Calls(more, calls)
    requires Stuck(env, s, id)
    ensures Inv(env, Run(env, s, more), calls) && StaysStuck(env, s, Run(env, s, more), id)
  {
    hide Next, Inv, Stuck, WellNamed;
    if more != [] {
      var rest, a := more[..|more| - 1], more[|more| - 1];
      StuckForever(env, calls, s, rest, id);
      var t := Run(env, s, rest);
      NextKeeps(env, calls, t, a);
      StuckNext(env, calls, t, a, id);
      NotInvokedChain(s.marks, t.marks, Next(env, t, a).marks, id);
    }
  }

  lemma NotInvokedChain(a: seq<Mark>, b: seq<Mark>, c: seq<Mark>, id: ExecId)
    requires NotInvoked(a, b, id) && NotInvoked(b, c, id)
    ensures NotInvoked(a, c, id)
  {
    forall i | |a| <= i < |c| && c[i].Invoked? ensures c[i].id != id {
      if i < |b| { assert c[i] == b[i]; }
    }
  }

  /** The way of a process to its external call, as actions. */
  function Finishing(env: Env, c: ToolCall, pc: Pc, pid: nat, a: Answer, now: real, ck: string): seq<ActionKind>
    decreases if pc.AtRecheck? then 3 else if pc.AtDispatch? then 2 else 1
  {
    var step := Advance(pid, a, now, ck);
    if pc.AtRecheck? then
      [step] + Finishing(env, c, if MarksDispatch(c, env.dispatchReads) then AtDispatch else AtInvoke(false), pid, a,
                         now, ck)
    else if pc.AtDispatch? then [step] + Finishing(env, c, AtInvoke(false), pid, a, now, ck)
    else [step]
  }

  lemma WayStep(env: Env, calls: set<ToolCall>, s: Sys, pid: nat, a: Answer, now: real, ck: string)
    requires env.single && env.cfg.dedup && WellNamed(env, calls) && Inv(env, s, calls)
    requires pid in s.procs && s.procs[pid].Calling? && (s.procs[pid].pc.AtRecheck? || s.procs[pid].pc.AtDispatch?)
    requires IdOf(env, s.procs[pid].call) in s.store.records
    ensures var c, pc := s.procs[pid].call, s.procs[pid].pc; var t := Next(env, s, Advance(pid, a, now, ck));
      && Inv(env, t, calls) && t.marks == s.marks && pid in t.procs && IdOf(env, c) in t.store.records
      && t.procs[pid] == Calling(c, if pc.AtRecheck? && MarksDispatch(c, env.dispatchReads) then AtDispatch
                                 else AtInvoke(false))
  {
    var c, pc := s.procs[pid].call, s.procs[pid].pc;
    NextKeeps(env, calls, s, Advance(pid, a, now, ck));
    assert ProcOk(env, s.store, s.marks, s.procs[pid]) && RecordsOk(s.store, s.marks);
    if pc.AtDispatch? { DispatchMove(s.store, c.ident.run, IdOf(env, c), now, env.cfg, ck); }
    hide Inv, IdOf, RecordToolDispatch, MarksDispatch, WellNamed, PendingBecomes;
  }

  lemma {:induction false} WayInvokes(env: Env, calls: set<ToolCall>, s: Sys, pid: nat, a: Answer, now: real,
                                      ck: string)
    requires env.single && env.cfg.dedup && WellNamed(env, calls) && Inv(env, s, calls)
    requires pid in s.procs && s.procs[pid].Calling? && IdOf(env, s.procs[pid].call) in s.store.records
    requires OnTheWay(env, s.procs[pid], IdOf(env, s.procs[pid].call))
    ensures var more := Finishing(env, s.procs[pid].call, s.procs[pid].pc, pid, a, now, ck);
      |more| <= 3 && Calls(more, calls) && Invokes(env, s, more, IdOf(env, s.procs[pid].call))
    decreases if s.procs[pid].pc.AtRecheck? then 3 else if s.procs[pid].pc.AtDispatch? then 2 else 1
  {
    hide Inv, IdOf, Next, WellNamed, MarksDispatch, Invokes, Run;
    var c, pc, step := s.procs[pid].call, s.procs[pid].pc, Advance(pid, a, now, ck);
    if pc.AtInvoke? {
      InvokesNow(env, s, pid, a, now, ck);
    } else {
      WayStep(env, calls, s, pid, a, now, ck);
      var t := Next(env, s, step);
      WayInvokes(env, calls, t, pid, a, now, ck);
      InvokesThen(env, s, step, Finishing(env, c, t.procs[pid].pc, pid, a, now, ck), IdOf(env, c));
    }
  }

  lemma InvokesNow(env: Env, s: Sys, pid: nat, a: Answer, now: real, ck: string)
    requires pid in s.procs && s.procs[pid].Calling? && s.procs[pid].pc.AtInvoke?
    ensures Invokes(env, s, [Advance(pid, a, now, ck)], IdOf(env, s.procs[pid].call))
  {
    var step := Advance(pid, a, now, ck);
    FirstThen(env, s, step, []);
    assert [step] + [] == [step];
    var t := Next(env, s, step);
    assert t.marks[|s.marks|].Invoked? && t.marks[|s.marks|].id == IdOf(env, s.procs[pid].call) by { hide IdOf; }
    hide IdOf, Next;
  }

  lemma InvokesThen(env: Env, s: Sys, step: ActionKind, more: seq<ActionKind>, id: ExecId)
    requires Next(env, s, step).marks == s.marks && Invokes(env, Next(env, s, step), more, id)
    ensures Invokes(env, s, [step] + more, id)
  {
    hide Next;
    FirstThen(env, s, step, more);
    hide Run;
  }

  /** In any reachable state an execution that is only logged will be invoked in some continuation if and only if one of
      its processes is on the way there; three actions are then enough. */
  lemma {:induction false} InvokedIffOnTheWay(env: Env, calls: set<ToolCall>, d: Target.Data, actions: seq<ActionKind>,
                                              id: ExecId)
    requires env.single && env.cfg.dedup && WellNamed(env, calls) && Calls(actions, calls)
    requires var s := Run(env, Initial(d), actions).store; id in s.records && s.records[id].status == IntentLogged
    ensures var s := Run(env, Initial(d), actions);
      && (Invocable(env, s, id) ==> exists more :: |more| <= 3 && Calls(more, calls) && Invokes(env, s, more, id))
      && (!Invocable(env, s, id) ==> forall more :: Calls(more, calls) ==> !Invokes(env, s, more, id))
  {
    hide Inv, IdOf, Run, Next, WellNamed, Invocable, Invokes, Calls, Finishing;
    Reachable(env, calls, d, actions);
    InvokedIff(env, calls, Run(env, Initial(d), actions), id);
  }

  lemma {:induction false} InvokedIff(env: Env, calls: set<ToolCall>, s: Sys, id: ExecId)
    requires env.single && env.cfg.dedup && WellNamed(env, calls) && Inv(env, s, calls)
    requires id in s.store.records && s.store.records[id].status == IntentLogged
    ensures Invocable(env, s, id) ==> exists more :: |more| <= 3 && Calls(more, calls) && Invokes(env, s, more, id)
    ensures !Invocable(env, s, id) ==> forall more :: Calls(more, calls) ==> !Invokes(env, s, more, id)
  {
    hide Inv, IdOf, Run, Next, WellNamed, Calls, Finishing;
    if Invocable(env, s, id) {
      var pid :| pid in s.procs && OnTheWay(env, s.procs[pid], id);
      WayInvokes(env, calls, s, pid, Failure(""), 0.0, "");
    } else {
      forall more | Calls(more, calls) ensures !Invokes(env, s, more, id) { StuckForever(env, calls, s, more, id); }
    }
  }

  /** For calls that mark their dispatch, as all writes do, this is exactly the state that `AbandonedForever` is
      about. */
  lemma {:induction false} AbandonedIff(env: Env, calls: set<ToolCall>, d: Target.Data, actions: seq<ActionKind>,
                                        id: ExecId)
    requires env.single && env.cfg.dedup && WellNamed(env, calls) && Calls(actions, calls)
    requires forall c :: c in calls && IdOf(env, c) == id ==> MarksDispatch(c, env.dispatchReads)
    requires var s := Run(env, Initial(d), actions).store; id in s.records && s.records[id].status == IntentLogged
    ensures var s := Run(env, Initial(d), actions);
      (exists more :: Calls(more, calls) && Invokes(env, s, more, id)) <==> !Abandoned(env, s, id)
  {
    hide Inv, IdOf, Run, Next, WellNamed, Invocable, Invokes, Calls, Abandoned, MarksDispatch;
    Reachable(env, calls, d, actions);
    InvokedIff(env, calls, Run(env, Initial(d), actions), id);
    AbandonedMeans(env, calls, Run(env, Initial(d), actions), id);
  }

  lemma AbandonedMeans(env: Env, calls: set<ToolCall>, s: Sys, id: ExecId)
    requires Inv(env, s, calls) && id in s.store.records && s.store.records[id].status == IntentLogged
    requires forall c :: c in calls && IdOf(env, c) == id ==> MarksDispatch(c, env.dispatchReads)
    ensures Abandoned(env, s, id) <==> !Invocable(env, s, id)
  {
    hide IdOf, MarksDispatch, PassOk, RecordsOk, Owned, Authorized;
    forall pid | pid in s.procs
      ensures s.procs[pid].Calling? && IdOf(env, s.procs[pid].call) == id ==>
        (OnTheWay(env, s.procs[pid], id) <==>
         !(s.procs[pid].pc.AtLookup? || s.procs[pid].pc.Returned? || s.procs[pid].pc.Raised?))
      ensures s.procs[pid].Recovering? ==> forall i :: 0 <= i < |s.procs[pid].todo| ==> NotOut(s.procs[pid].todo[i], id)
    {
      var p := s.procs[pid];
      assert ProcOk(env, s.store, s.marks, p) && (p.Calling? ==> p.call in calls);
      if p.Recovering? { ReadAsIntent(s.store, s.marks, p.pass, p.todo, p.phase, id); }
    }
  }
}
