/** The laws of a single runner, over whole histories: authorization, permanence, progress, pending lists, stuck
    intents. */
module RunnerLaws {
  import opened Prelude
  import opened Models
  import opened Facade
  import opened Executor
  import opened Machine
  import opened SingleRunner
  import Context
  import Effects
  import Recovery
  import Target
  import Adapter

  lemma WorkKeeps(env: Env, calls: set<ToolCall>, s: Sys, op: Op, now: real, ck: string)
    requires Inv(env, s, calls)
    ensures Inv(env, Next(env, s, Work(op, now, ck)), calls)
  {
    hide After, Inv;
    if Standalone(op) {
      StandaloneEffect(s.store, op, now, env.cfg, ck);
      StoreSwapped(env, calls, s, After(s.store, Stamped(op, now, ck), env.cfg));
    }
  }

  lemma StoreSwapped(env: Env, calls: set<ToolCall>, s: Sys, t: Store)
    requires Inv(env, s, calls) && t.records == s.store.records && s.store.contexts.Keys <= t.contexts.Keys
    ensures Inv(env, s.(store := t), calls)
  {
    hide ProcOk, IdOf, Authorized;
    forall pid | pid in s.procs ensures ProcOk(env, t, s.marks, s.procs[pid]) {
      StoreReplaced(env, s.store, t, s.marks, s.procs[pid]);
    }
  }

  lemma StoreReplaced(env: Env, s: Store, t: Store, marks: seq<Mark>, p: Proc)
    requires ProcOk(env, s, marks, p) && t.records == s.records && s.contexts.Keys <= t.contexts.Keys
    ensures ProcOk(env, t, marks, p)
  {
    hide IdOf, Recovery.Finding;
    if p.Recovering? {
      forall i | 0 <= i < |p.todo| && CandidateOk(s, p.pass.run, p.todo[i])
        ensures CandidateOk(t, p.pass.run, p.todo[i])
      {}
    }
  }

  lemma NextKeeps(env: Env, calls: set<ToolCall>, s: Sys, a: ActionKind)
    requires env.single && env.cfg.dedup && WellNamed(env, calls) && Inv(env, s, calls)
      && (a.Begin? ==> a.call in calls)
    ensures Inv(env, Next(env, s, a), calls)
  {
    hide Inv, AdvanceCall, AdvancePass, WellNamed;
    match a
    case Begin(_, _) => BeginKeeps(env, calls, s, a);
    case BeginRecovery(_, _) => BeginKeeps(env, calls, s, a);
    case Advance(pid, answer, now, ck) =>
      if pid in s.procs {
        if s.procs[pid].Calling? { var m := CallActionKeeps(env, calls, s, pid, answer, now, ck); }
        else if s.procs[pid].todo != [] { var m := PassActionKeeps(env, calls, s, pid, answer, now, ck); }
      }
    case Deliver(_, _) => TargetIrrelevant(env, calls, s, a);
    case Foreign(_) => TargetIrrelevant(env, calls, s, a);
    case End(pid) => EndKeeps(env, calls, s, pid);
    case Work(op, now, ck) => WorkKeeps(env, calls, s, op, now, ck);
  }

  lemma TargetIrrelevant(env: Env, calls: set<ToolCall>, s: Sys, a: ActionKind)
    requires Inv(env, s, calls) && (a.Deliver? || a.Foreign?)
    ensures Inv(env, Next(env, s, a), calls)
  {
    hide ProcOk, RecordsOk, Owned, Authorized;
  }

  lemma EndKeeps(env: Env, calls: set<ToolCall>, s: Sys, pid: nat)
    requires Inv(env, s, calls)
    ensures Inv(env, Next(env, s, End(pid)), calls)
  {
    hide ProcOk, RecordsOk, Owned, Authorized;
  }

  lemma InitialInv(env: Env, calls: set<ToolCall>, d: Target.Data)
    ensures Inv(env, Initial(d), calls)
  {
    hide IdOf;
  }

  lemma {:induction false} Reachable(env: Env, calls: set<ToolCall>, d: Target.Data, actions: seq<ActionKind>)
    requires env.single && env.cfg.dedup && WellNamed(env, calls) && Calls(actions, calls)
    ensures Inv(env, Run(env, Initial(d), actions), calls)
  {
    hide Inv, Next, WellNamed;
    if actions == [] {
      InitialInv(env, calls, d);
    } else {
      Reachable(env, calls, d, actions[..|actions| - 1]);
      NextKeeps(env, calls, Run(env, Initial(d), actions[..|actions| - 1]), actions[|actions| - 1]);
    }
  }

  /** Invocation authorization: after a first external call of an id there is no other one until the verifier has proved
      its absence, and every later one starts from a record that says so. Crashes, restarts and resets change nothing
      about it. */
  lemma {:induction false} InvocationsAuthorized(env: Env, calls: set<ToolCall>, d: Target.Data,
                                                 actions: seq<ActionKind>)
    requires env.single && env.cfg.dedup && WellNamed(env, calls) && Calls(actions, calls)
    ensures Authorized(Run(env, Initial(d), actions).marks)
  {
    hide Run, WellNamed, Authorized;
    Reachable(env, calls, d, actions);
  }

  // ---------------------------------------------------------------- every step is a sound move

  /** One record before and after: unchanged, or open before and of no lower rank now. */
  predicate RecordStep(q: ExternalResult, r: ExternalResult) {
    q == r || (IsOpen(q.status) && (r.status == q.status || Rank(r.status) > Rank(q.status)))
  }

  /** What any action does to the records: nothing, a new intent, or a sound change of one open record. */
  ghost predicate SoundStep(s: Store, t: Store) {
    forall id :: id in s.records ==> id in t.records && RecordStep(s.records[id], t.records[id])
  }

  lemma MoveIsSound(s: Store, t: Store, run: RunId, m: Move)
    requires Moves(s, t, run, m) && SoundMove(s, m)
    ensures SoundStep(s, t)
  {
    hide PendingBecomes;
  }

  lemma NextIsSound(env: Env, calls: set<ToolCall>, s: Sys, a: ActionKind)
    requires env.single && env.cfg.dedup && WellNamed(env, calls) && Inv(env, s, calls)
      && (a.Begin? ==> a.call in calls)
    ensures SoundStep(s.store, Next(env, s, a).store)
  {
    hide Inv, AdvanceCall, AdvancePass, WellNamed, After;
    match a
    case Begin(_, _) =>
    case BeginRecovery(_, _) =>
    case Advance(pid, answer, now, ck) =>
      if pid in s.procs {
        if s.procs[pid].Calling? {
          var m := CallActionKeeps(env, calls, s, pid, answer, now, ck);
          MoveIsSound(s.store, Next(env, s, a).store, RunOf(s.procs[pid]), m);
        } else if s.procs[pid].todo != [] {
          var m := PassActionKeeps(env, calls, s, pid, answer, now, ck);
          MoveIsSound(s.store, Next(env, s, a).store, RunOf(s.procs[pid]), m);
        }
      }
    case Deliver(_, _) =>
    case Foreign(_) =>
    case End(_) =>
    case Work(op, now, ck) => if Standalone(op) { StandaloneEffect(s.store, op, now, env.cfg, ck); }
  }

  /** A process whose next step is a durable write gets it done; only a refused intent, or one whose record is not
      there, may raise. */
  ghost predicate NotRefused(s: Sys, t: Sys, pid: nat) {
    pid in s.procs ==> (
      && pid in t.procs
      && match s.procs[pid]
         case Recovering(p, _, _) => t.procs[pid].Recovering? && t.procs[pid].pass == p
         case Calling(c, pc) =>
           t.procs[pid].Calling? && t.procs[pid].call == c
             && (pc.AtDispatch? || pc.AtRecord? ==> !t.procs[pid].pc.Raised?))
  }

  lemma CallNotRefused(env: Env, calls: set<ToolCall>, s: Sys, pid: nat, answer: Answer, now: real, ck: string)
    requires env.cfg.dedup && Inv(env, s, calls) && pid in s.procs && s.procs[pid].Calling?
    ensures NotRefused(s, AdvanceCall(env, s, pid, s.procs[pid].call, s.procs[pid].pc, answer, now, ck), pid)
  {
    var p := s.procs[pid];
    assert ProcOk(env, s.store, s.marks, p) && RecordsOk(s.store, s.marks) && Owned(env, s.store, calls)
      && p.call in calls;
    hide Inv, IdOf, Step, Moves, SoundMove, RecordsOk, ProcOk;
    assert CallOk(env, s.store, s.marks, p.call, p.pc);
    hide CallOk;
    var m := CallStep(env, s.store, s.marks, p.call, p.pc, answer, now, ck);
  }

  lemma AdvanceNotRefused(env: Env, calls: set<ToolCall>, s: Sys, pid: nat, answer: Answer, now: real, ck: string)
    requires env.cfg.dedup && Inv(env, s, calls)
    ensures NotRefused(s, Next(env, s, Advance(pid, answer, now, ck)), pid)
  {
    if pid in s.procs {
      var p := s.procs[pid];
      assert ProcOk(env, s.store, s.marks, p);
      hide Inv, AdvanceCall, AdvancePass, Moves, SoundMove, PassOk, CallOk;
      if p.Calling? {
        CallNotRefused(env, calls, s, pid, answer, now, ck);
      } else if p.todo != [] {
        var m := PassStep(env, s, pid, p.pass, p.todo, p.phase, now, ck);
      }
    }
  }

  /** In every reachable state: no recorded dispatch or result and no step of a recovery pass is ever refused, so the
      transition check of the facade never fires, and a process is gone only when it crashed. */
  lemma {:induction false} NeverRefused(env: Env, calls: set<ToolCall>, d: Target.Data, actions: seq<ActionKind>,
                                        pid: nat, answer: Answer, now: real, ck: string)
    requires env.single && env.cfg.dedup && WellNamed(env, calls) && Calls(actions, calls)
    ensures var s := Run(env, Initial(d), actions); NotRefused(s, Next(env, s, Advance(pid, answer, now, ck)), pid)
  {
    hide Run, Next, WellNamed, Inv, NotRefused;
    Reachable(env, calls, d, actions);
    AdvanceNotRefused(env, calls, Run(env, Initial(d), actions), pid, answer, now, ck);
  }

  /** How often the status of `id` changed from one state to the next along a history, once it had a record. */
  function Changes(env: Env, s: Sys, actions: seq<ActionKind>, id: ExecId): nat {
    if actions == [] then 0
    else
      var before := Run(env, s, actions[..|actions| - 1]);
      var after := Run(env, s, actions);
      Changes(env, s, actions[..|actions| - 1], id)
        + if id in before.store.records && StatusOf(before.store, id) != StatusOf(after.store, id) then 1 else 0
  }

  /** The status of an execution changes at most three times after its intent, although the transition table has
      cycles. */
  lemma {:induction false} AtMostThreeChanges(env: Env, calls: set<ToolCall>, d: Target.Data, actions: seq<ActionKind>,
                                              id: ExecId)
    requires env.single && env.cfg.dedup && WellNamed(env, calls) && Calls(actions, calls)
    ensures Changes(env, Initial(d), actions, id) <= Rank(StatusOf(Run(env, Initial(d), actions).store, id)) <= 3
  {
    hide Next, WellNamed, Inv;
    if actions != [] {
      var rest, a := actions[..|actions| - 1], actions[|actions| - 1];
      AtMostThreeChanges(env, calls, d, rest, id);
      Reachable(env, calls, d, rest);
      NextIsSound(env, calls, Run(env, Initial(d), rest), a);
    }
  }

  predicate Extends(marks: seq<Mark>, after: seq<Mark>) { |marks| <= |after| && after[..|marks|] == marks }

  /** New external calls are those of open executions. */
  predicate InvokesOpen(s: Sys, t: Sys) {
    && Extends(s.marks, t.marks)
    && forall i :: |s.marks| <= i < |t.marks| && t.marks[i].Invoked? ==>
         t.marks[i].id in s.store.records && IsOpen(s.store.records[t.marks[i].id].status)
  }

  /** Only open executions are invoked. */
  lemma NextInvokesOpen(env: Env, calls: set<ToolCall>, s: Sys, a: ActionKind)
    requires Inv(env, s, calls)
    ensures InvokesOpen(s, Next(env, s, a))
  {
    if a.Advance? && a.pid in s.procs {
      assert ProcOk(env, s.store, s.marks, s.procs[a.pid]);
      hide Inv, InvokesOpen, AdvanceCall, AdvancePass, CallOk;
      match s.procs[a.pid]
      case Calling(c, pc) => CallInvokesOpen(env, s, a.pid, c, pc, a.answer, a.now, a.ck);
      case Recovering(p, todo, phase) =>
        if todo != [] { PassInvokesNothing(env, s, a.pid, p, todo, phase, a.now, a.ck); } else { SameMarks(s, s); }
    } else {
      OthersInvokeNothing(env, s, a);
    }
  }

  lemma SameMarks(s: Sys, t: Sys)
    requires t.marks == s.marks
    ensures InvokesOpen(s, t)
  {
  }

  lemma OthersInvokeNothing(env: Env, s: Sys, a: ActionKind)
    requires a.Advance? ==> a.pid !in s.procs
    ensures InvokesOpen(s, Next(env, s, a))
  {
    hide InvokesOpen, IdOf, After, Recovery.Candidates, Snapshot, Sorted, Admits, Adapter.ActionRequest, Target.Serve;
    SameMarks(s, Next(env, s, a));
  }

  lemma CallInvokesOpen(env: Env, s: Sys, pid: nat, c: ToolCall, pc: Pc, answer: Answer, now: real, ck: string)
    requires CallOk(env, s.store, s.marks, c, pc)
    ensures InvokesOpen(s, AdvanceCall(env, s, pid, c, pc, answer, now, ck))
  {
    hide IdOf, Step;
  }

  lemma PassInvokesNothing(env: Env, s: Sys, pid: nat, p: Recovery.Pass, todo: seq<Candidate>, phase: Phase, now: real,
                           ck: string)
    requires todo != []
    ensures InvokesOpen(s, AdvancePass(env, s, pid, p, todo, phase, now, ck))
  {
    hide IdOf, Recovery.Finding, RecordToolResult, RecordContextMessage, Recovery.ToolMessage, Recovery.HasToolMessage,
         StatusOf;
  }

  /** What holds of a committed execution ever after. */
  ghost predicate Permanent(s: Sys, t: Sys, id: ExecId) {
    && id in s.store.records && id in t.store.records && t.store.records[id] == s.store.records[id]
    && NotInvoked(s.marks, t.marks, id)
  }

  /** The history goes on without an external call of `id`. */
  predicate NotInvoked(marks: seq<Mark>, after: seq<Mark>, id: ExecId) {
    Extends(marks, after) && forall i :: |marks| <= i < |after| && after[i].Invoked? ==> after[i].id != id
  }

  lemma SettledNext(s: Sys, t: Sys, u: Sys, id: ExecId)
    requires Permanent(s, t, id) && IsCommitted(s.store.records[id].status)
    requires SoundStep(t.store, u.store) && InvokesOpen(t, u)
    ensures Permanent(s, u, id)
  {
    forall i | |s.marks| <= i < |u.marks| && u.marks[i].Invoked? ensures u.marks[i].id != id {
      if i < |t.marks| { assert u.marks[i] == t.marks[i]; }
    }
  }

  /** Commit permanence: a committed record, response included, is never written again, and its call is never invoked
      again; across restarts, recovery passes and resets. */
  lemma {:induction false} CommittedForever(env: Env, calls: set<ToolCall>, d: Target.Data, actions: seq<ActionKind>,
                                            more: seq<ActionKind>, id: ExecId)
    requires env.single && env.cfg.dedup && WellNamed(env, calls) && Calls(actions + more, calls)
    requires var s := Run(env, Initial(d), actions); id in s.store.records && IsCommitted(s.store.records[id].status)
    ensures Permanent(Run(env, Initial(d), actions), Run(env, Initial(d), actions + more), id)
    decreases |more|
  {
    hide Next, WellNamed, Inv, Permanent, SoundStep, InvokesOpen;
    var s := Run(env, Initial(d), actions);
    if more == [] {
      assert actions + more == actions;
      SettledNow(s, id);
    } else {
      var shorter, all := more[..|more| - 1], actions + more;
      assert all[..|all| - 1] == actions + shorter && all[|all| - 1] == more[|more| - 1];
      CommittedForever(env, calls, d, actions, shorter, id);
      Reachable(env, calls, d, actions + shorter);
      var t := Run(env, Initial(d), actions + shorter);
      NextIsSound(env, calls, t, more[|more| - 1]);
      NextInvokesOpen(env, calls, t, more[|more| - 1]);
      SettledNext(s, t, Next(env, t, more[|more| - 1]), id);
    }
  }

  lemma SettledNow(s: Sys, id: ExecId)
    requires id in s.store.records
    ensures Permanent(s, s, id)
  {
  }

  /** A call whose record is committed is answered from the record: nothing is logged, sent or written. */
  lemma {:induction false} CommittedIsReused(s: Store, id: ExecId, c: ToolCall, answer: Answer, dispatchReads: bool,
                                             cfg: Config, now: real, ck: string, w: World)
    requires id in s.records && IsCommitted(s.records[id].status)
    ensures Step(s, id, c, AtLookup, answer, dispatchReads, cfg, now, ck) == (s, Returned(Reused))
    ensures Prepare(s, id, c, dispatchReads, cfg, w) == Settled(s, Reused)
  {
  }

  /** A process looks a committed call up: it is over after one step, and nothing else has changed. */
  lemma LookupReuses(env: Env, s: Sys, pid: nat, c: ToolCall, answer: Answer, now: real, ck: string)
    requires IdOf(env, c) in s.store.records && IsCommitted(s.store.records[IdOf(env, c)].status)
    requires Admits(env, s, pid, c.ident.run)
    ensures Next(env, Next(env, s, Begin(pid, c)), Advance(pid, answer, now, ck)) ==
      s.(procs := s.procs[pid := Calling(c, Returned(Reused))])
  {
    var t := Next(env, s, Begin(pid, c));
    hide IdOf, Admits, AdvancePass;
    CommittedIsReused(s.store, IdOf(env, c), c, answer, env.dispatchReads, env.cfg, now, ck, World(_ => now, _ => ck));
    assert Next(env, t, Advance(pid, answer, now, ck)) == AdvanceCall(env, t, pid, c, AtLookup, answer, now, ck);
    hide Step;
    assert s.procs[pid := Calling(c, AtLookup)][pid := Calling(c, Returned(Reused))] ==
      s.procs[pid := Calling(c, Returned(Reused))];
  }

  /** Once a call is committed, it is reused: in any continuation, resets included, a new call with its id returns the
      stored result after one step, on the very record of its commit, without an external call. */
  lemma {:induction false} CommittedStaysReused(env: Env, calls: set<ToolCall>, d: Target.Data,
                                                actions: seq<ActionKind>, more: seq<ActionKind>, pid: nat,
                                                c: ToolCall, answer: Answer, now: real, ck: string)
    requires env.single && env.cfg.dedup && WellNamed(env, calls) && Calls(actions + more, calls)
    requires var s := Run(env, Initial(d), actions).store;
      IdOf(env, c) in s.records && IsCommitted(s.records[IdOf(env, c)].status)
    requires Admits(env, Run(env, Initial(d), actions + more), pid, c.ident.run)
    ensures var s, t := Run(env, Initial(d), actions), Run(env, Initial(d), actions + more);
      var u := Run(env, Initial(d), actions + more + [Begin(pid, c), Advance(pid, answer, now, ck)]);
      && u == t.(procs := t.procs[pid := Calling(c, Returned(Reused))])
      && IdOf(env, c) in u.store.records && u.store.records[IdOf(env, c)] == s.store.records[IdOf(env, c)]
      && NotInvoked(s.marks, u.marks, IdOf(env, c))
  {
    hide Next, Run, WellNamed, IdOf, Admits;
    var t := Run(env, Initial(d), actions + more);
    CommittedForever(env, calls, d, actions, more, IdOf(env, c));
    LookupReuses(env, t, pid, c, answer, now, ck);
    RunPair(env, t, Begin(pid, c), Advance(pid, answer, now, ck));
    RunConcat(env, Initial(d), actions + more, [Begin(pid, c), Advance(pid, answer, now, ck)]);
  }

  // ---------------------------------------------------------------- a crash between intent and dispatch

  /** The intent is durable, and whoever logged it is gone. */
  predicate Abandoned(env: Env, s: Sys, id: ExecId) {
    && id in s.store.records && s.store.records[id].status == IntentLogged
    && forall pid :: pid in s.procs ==>
         match s.procs[pid]
         case Calling(c, pc) => IdOf(env, c) != id || pc.AtLookup? || pc.Returned? || pc.Raised?
         case Recovering(p, todo, _) => forall i :: 0 <= i < |todo| ==> NotOut(todo[i], id)
  }

  /** Nobody read the record of `id` as dispatched. */
  predicate NotOut(x: Candidate, id: ExecId) { x.id == id && x.record.Some? ==> x.record.value.status != Dispatched }

  lemma StepTouchesOwn(s: Store, id: ExecId, c: ToolCall, pc: Pc, answer: Answer, dispatchReads: bool, cfg: Config,
                       now: real, ck: string, other: ExecId)
    requires other in s.records && other != id
    ensures var t := Step(s, id, c, pc, answer, dispatchReads, cfg, now, ck).0;
      other in t.records && t.records[other] == s.records[other]
  {
    hide RecordToolIntent, RecordToolDispatch, RecordToolResult, AnswerArgs, HandleExisting;
    var run := c.ident.run;
    match pc
    case AtIntent => Effects.IntentEffect(s, run, c.ident.item, id, c.ident.tool, c.op, c.ident.args, now, cfg, ck);
    case AtDispatch => Effects.DispatchEffect(s, run, id, now, cfg, ck);
    case AtRecord(replay, a) => Effects.ResultEffect(s, run, id, AnswerArgs(c, replay, a), now, cfg, ck);
    case _ =>
  }

  lemma PassTouchesDispatched(env: Env, s: Sys, pid: nat, p: Recovery.Pass, todo: seq<Candidate>, phase: Phase,
                              now: real, ck: string, id: ExecId)
    requires todo != [] && id in s.store.records && NotOut(todo[0], id)
    ensures PassTouched(s, AdvancePass(env, s, pid, p, todo, phase, now, ck), todo, id)
  {
    hide PassTouched;
    if todo[0].record.None? {
      Dropped(env, s, pid, p, todo, phase, now, ck, id);
    } else {
      match phase
      case Judging => Judged(env, s, pid, p, todo, now, ck, id);
      case Storing => Stored(env, s, pid, p, todo, now, ck, id);
      case Reconciling(r) => Repaired(env, s, pid, p, todo, r, now, ck, id);
    }
  }

  /** What a step of a pass with these candidates leaves of the record of `id`, of the processes and of the history. */
  ghost predicate PassTouched(s: Sys, t: Sys, todo: seq<Candidate>, id: ExecId)
    requires todo != [] && id in s.store.records
  {
    && id in t.store.records && t.store.records[id] == s.store.records[id]
    && (forall q :: q in t.procs ==>
          || (q in s.procs && t.procs[q] == s.procs[q])
          || (t.procs[q].Recovering? && (t.procs[q].todo == todo || t.procs[q].todo == todo[1..])))
    && Extends(s.marks, t.marks) && forall i :: |s.marks| <= i < |t.marks| ==> t.marks[i].FoundAbsent?
  }

  lemma Dropped(env: Env, s: Sys, pid: nat, p: Recovery.Pass, todo: seq<Candidate>, phase: Phase, now: real, ck: string,
                id: ExecId)
    requires todo != [] && todo[0].record.None? && id in s.store.records
    ensures PassTouched(s, AdvancePass(env, s, pid, p, todo, phase, now, ck), todo, id)
  {
  }

  lemma Judged(env: Env, s: Sys, pid: nat, p: Recovery.Pass, todo: seq<Candidate>, now: real, ck: string, id: ExecId)
    requires todo != [] && todo[0].record.Some? && id in s.store.records
    ensures PassTouched(s, AdvancePass(env, s, pid, p, todo, Judging, now, ck), todo, id)
  {
    hide Recovery.Finding;
  }

  lemma Stored(env: Env, s: Sys, pid: nat, p: Recovery.Pass, todo: seq<Candidate>, now: real, ck: string, id: ExecId)
    requires todo != [] && todo[0].record.Some? && id in s.store.records && NotOut(todo[0], id)
    ensures PassTouched(s, AdvancePass(env, s, pid, p, todo, Storing, now, ck), todo, id)
  {
    StorePhaseTouches(env, s, p, todo, now, ck, id);
    hide Recovery.Finding, Recovery.FindingArgs, RecordToolResult, StatusOf, PassTouched;
    OneProcTouched(s, AdvancePass(env, s, pid, p, todo, Storing, now, ck), pid, todo, id);
  }

  lemma OneProcTouched(s: Sys, t: Sys, pid: nat, todo: seq<Candidate>, id: ExecId)
    requires todo != [] && id in s.store.records && id in t.store.records && t.store.records[id] == s.store.records[id]
    requires t.marks == s.marks
    requires
      || t.procs == s.procs - {pid}
      || (exists p, phase :: t.procs == s.procs[pid := Recovering(p, todo, phase)])
      || (exists p, phase :: t.procs == s.procs[pid := Recovering(p, todo[1..], phase)])
    ensures PassTouched(s, t, todo, id)
  {
  }

  lemma Repaired(env: Env, s: Sys, pid: nat, p: Recovery.Pass, todo: seq<Candidate>, r: ExternalResult, now: real,
                 ck: string, id: ExecId)
    requires todo != [] && todo[0].record.Some? && id in s.store.records
    ensures PassTouched(s, AdvancePass(env, s, pid, p, todo, Reconciling(r), now, ck), todo, id)
  {
    RepairPhaseTouches(env, s, p, todo, Reconciling(r), now, ck);
    hide RecordContextMessage, Recovery.ToolMessage, Recovery.HasToolMessage;
  }

  lemma StorePhaseTouches(env: Env, s: Sys, p: Recovery.Pass, todo: seq<Candidate>, now: real, ck: string, id: ExecId)
    requires todo != [] && todo[0].record.Some? && id in s.store.records && NotOut(todo[0], id)
    ensures Recovery.Finding(p, todo[0].id, todo[0].record.value).Some? ==>
      var r := RecordToolResult(s.store, p.run, todo[0].id, Recovery.FindingArgs(p, todo[0].id, todo[0].record.value),
                                now, env.cfg, ck);
      r.Ok? ==> id in r.value.records && r.value.records[id] == s.store.records[id]
  {
    var c, r := todo[0].id, todo[0].record.value;
    Recovery.SettledIsFound(p, c, r, now);
    hide Recovery.Finding, Recovery.FindingArgs, RecordToolResult, Effects.OnlyRun, ResultRecordOf;
    if Recovery.Finding(p, c, r).Some? {
      Effects.ResultEffect(s.store, p.run, c, Recovery.FindingArgs(p, c, r), now, env.cfg, ck);
    }
  }

  lemma RepairPhaseTouches(env: Env, s: Sys, p: Recovery.Pass, todo: seq<Candidate>, phase: Phase, now: real,
                           ck: string)
    requires todo != []
    ensures phase.Reconciling? && phase.record.response.Some? ==>
      var r := RecordContextMessage(s.store, p.run, Recovery.ToolMessage(todo[0].id, phase.record), env.cfg, ck);
      r.Ok? ==> r.value.records == s.store.records
  {
    hide RecordContextMessage, Recovery.ToolMessage, Context.Validate, Effects.OnlyRun;
    if phase.Reconciling? && phase.record.response.Some? {
      Effects.MessageEffect(s.store, p.run, Recovery.ToolMessage(todo[0].id, phase.record), env.cfg, ck);
    }
  }

  /** Nobody will ever invoke it: not by a new call, not by recovery, not after a reset. */
  ghost predicate StaysAbandoned(env: Env, s: Sys, t: Sys, id: ExecId)
    requires id in s.store.records
  {
    && Abandoned(env, t, id) && id in t.store.records && t.store.records[id] == s.store.records[id]
    && NotInvoked(s.marks, t.marks, id)
  }

  lemma AbandonedCall(env: Env, s: Sys, pid: nat, answer: Answer, now: real, ck: string, id: ExecId)
    requires id in s.store.records && Abandoned(env, s, id) && pid in s.procs && s.procs[pid].Calling?
    ensures StaysAbandoned(env, s, AdvanceCall(env, s, pid, s.procs[pid].call, s.procs[pid].pc, answer, now, ck), id)
  {
    var c, pc := s.procs[pid].call, s.procs[pid].pc;
    var (u, next) := Step(s.store, IdOf(env, c), c, pc, answer, env.dispatchReads, env.cfg, now, ck);
    if IdOf(env, c) == id {
      IdleAtLookup(s.store, id, c, pc, answer, env.dispatchReads, env.cfg, now, ck);
    } else {
      StepTouchesOwn(s.store, IdOf(env, c), c, pc, answer, env.dispatchReads, env.cfg, now, ck, id);
    }
    hide IdOf, Step;
  }

  lemma IdleAtLookup(s: Store, id: ExecId, c: ToolCall, pc: Pc, answer: Answer, dispatchReads: bool, cfg: Config,
                     now: real, ck: string)
    requires id in s.records && s.records[id].status == IntentLogged && (pc.AtLookup? || pc.Returned? || pc.Raised?)
    ensures var (t, next) := Step(s, id, c, pc, answer, dispatchReads, cfg, now, ck);
      t == s && (next.Returned? || next.Raised?)
  {
  }

  lemma AbandonedPass(env: Env, s: Sys, pid: nat, now: real, ck: string, id: ExecId)
    requires id in s.store.records && Abandoned(env, s, id) && pid in s.procs && s.procs[pid].Recovering?
      && s.procs[pid].todo != []
    ensures StaysAbandoned(env, s, AdvancePass(env, s, pid, s.procs[pid].pass, s.procs[pid].todo, s.procs[pid].phase,
                                               now, ck), id)
  {
    var p := s.procs[pid];
    hide IdOf;
    PassTouchesDispatched(env, s, pid, p.pass, p.todo, p.phase, now, ck, id);
    hide AdvancePass;
  }

  lemma AbandonedNext(env: Env, s: Sys, a: ActionKind, id: ExecId)
    requires id in s.store.records && Abandoned(env, s, id)
    ensures StaysAbandoned(env, s, Next(env, s, a), id)
  {
    hide AdvanceCall, AdvancePass, After, Admits, IdOf, Adapter.ActionRequest, Target.Serve, Recovery.Candidates;
    match a
    case Advance(pid, answer, now, ck) =>
      if pid in s.procs {
        if s.procs[pid].Calling? { AbandonedCall(env, s, pid, answer, now, ck, id); }
        else if s.procs[pid].todo != [] { AbandonedPass(env, s, pid, now, ck, id); }
      }
    case Work(op, now, ck) => if Standalone(op) { StandaloneEffect(s.store, op, now, env.cfg, ck); }
    case _ =>
  }

  /** A crash between intent and dispatch loses the call for good, with any number of runners: at most once, not exactly
      once. */
  lemma {:induction false} AbandonedForever(env: Env, s: Sys, actions: seq<ActionKind>, id: ExecId)
    requires id in s.store.records && Abandoned(env, s, id)
    ensures StaysAbandoned(env, s, Run(env, s, actions), id)
  {
    hide Next, Abandoned;
    if actions != [] {
      var rest := actions[..|actions| - 1];
      AbandonedForever(env, s, rest, id);
      var t := Run(env, s, rest);
      AbandonedNext(env, t, actions[|actions| - 1], id);
      AbandonedChain(env, s, t, Next(env, t, actions[|actions| - 1]), id);
    }
  }

  lemma AbandonedChain(env: Env, s: Sys, t: Sys, u: Sys, id: ExecId)
    requires id in s.store.records && id in t.store.records && StaysAbandoned(env, s, t, id)
      && StaysAbandoned(env, t, u, id)
    ensures StaysAbandoned(env, s, u, id)
  {
    hide Abandoned;
    forall i | |s.marks| <= i < |u.marks| ensures u.marks[i].Invoked? ==> u.marks[i].id != id {
      if i < |t.marks| { assert u.marks[i] == t.marks[i]; }
    }
  }
}
