/** Why the laws of a single runner need it: two processes that make the same call at the same time. */
module TwoRunners {
  import opened Prelude
  import opened Models
  import opened Facade
  import opened Executor
  import opened Machine
  import opened SingleRunner
  import Effects
  import Identity
  import Openings
  import Planner
  import PendingLists
  import Target

  /** Both processes stand at the same point of the same call. */
  predicate Both(s: Sys, p: nat, q: nat, c: ToolCall, pc: Pc) {
    p != q && p in s.procs && q in s.procs && s.procs[p] == Calling(c, pc) && s.procs[q] == Calling(c, pc)
  }

  /** One process steps, then the other. */
  function Lockstep(env: Env, s: Sys, p: nat, q: nat, a: Answer, now: real, ck: string): Sys {
    Next(env, Next(env, s, Advance(p, a, now, ck)), Advance(q, a, now, ck))
  }

  lemma LockstepStores(env: Env, s: Sys, p: nat, q: nat, c: ToolCall, pc: Pc, a: Answer, now: real, ck: string)
    requires Both(s, p, q, c, pc)
    ensures var id := IdOf(env, c);
      var (t, next) := Step(s.store, id, c, pc, a, env.dispatchReads, env.cfg, now, ck);
      var (u, last) := Step(t, id, c, pc, a, env.dispatchReads, env.cfg, now, ck);
      var r := Lockstep(env, s, p, q, a, now, ck);
      && r.store == u && (next == last ==> Both(r, p, q, c, next))
      && (!pc.AtInvoke? ==> r.marks == s.marks)
      && (pc.AtInvoke? ==> r.marks == s.marks + [Invoked(id, StatusOf(s.store, id))] + [Invoked(id, StatusOf(t, id))])
  {
    hide Step, IdOf;
  }

  lemma BothLookup(env: Env, s: Sys, p: nat, q: nat, c: ToolCall, a: Answer, now: real, ck: string)
    requires Both(s, p, q, c, AtLookup) && IdOf(env, c) !in s.store.records
    ensures var r := Lockstep(env, s, p, q, a, now, ck);
      Both(r, p, q, c, AtIntent) && r.store == s.store && r.marks == s.marks
  {
    hide IdOf, RecordToolIntent;
    LockstepStores(env, s, p, q, c, AtLookup, a, now, ck);
    hide Lockstep;
  }

  /** Would the facade log this intent, record included? */
  predicate Loggable(env: Env, s: Store, c: ToolCall, now: real, ck: string) {
    var r := RecordToolIntent(s, c.ident.run, c.ident.item, IdOf(env, c), c.ident.tool, c.op, c.ident.args, now,
                              env.cfg, ck);
    IdOf(env, c) !in s.records && r.Ok? && IdOf(env, c) in r.value.records
  }

  lemma IntentAgain(s: Store, run: RunId, item: string, id: ExecId, tool: string, op: OperationType, request: Payload,
                    now: real, cfg: Config, ck: string)
    requires cfg.dedup && id in s.records && s.records[id].run == run && run in s.plans && run in s.contexts
    ensures RecordToolIntent(s, run, item, id, tool, op, request, now, cfg, ck) == Ok(s)
  {
  }

  lemma IntentKeepsPlan(s: Store, run: RunId, item: string, id: ExecId, tool: string, op: OperationType,
                        request: Payload, now: real, cfg: Config, ck: string)
    ensures var r := RecordToolIntent(s, run, item, id, tool, op, request, now, cfg, ck);
      r.Ok? ==> run in r.value.plans && run in r.value.contexts
  {
    hide HasIntent, IntentTail, Planner.AttachRef;
    if run in s.plans && Planner.AttachRef(s.plans[run], item, id).Ok? {
      var a :=
        LogPlan(s, run, IntentRecorded(id, item, tool, op, request), Planner.AttachRef(s.plans[run], item, id)).value;
      TailKeepsPlan(a, run, item, id, tool, op, request, now, cfg, ck);
    }
  }

  lemma TailKeepsPlan(a: Store, run: RunId, item: string, id: ExecId, tool: string, op: OperationType, request: Payload,
                      now: real, cfg: Config, ck: string)
    requires run in a.plans
    ensures var r := IntentTail(a, run, item, id, tool, op, request, now, cfg, ck);
      r.Ok? ==> run in r.value.plans && run in r.value.contexts
  {
    hide LatestSeq, Last;
  }

  lemma BothIntent(env: Env, s: Sys, p: nat, q: nat, c: ToolCall, a: Answer, now: real, ck: string)
    requires env.cfg.dedup && Both(s, p, q, c, AtIntent) && Loggable(env, s.store, c, now, ck)
    ensures var r := Lockstep(env, s, p, q, a, now, ck);
      && Both(r, p, q, c, AtRecheck) && Holds(r.store, c.ident.run, IdOf(env, c), IntentLogged)
      && r.marks == s.marks && c.ident.run in r.store.contexts
  {
    hide IdOf, RecordToolIntent;
    var id, run := IdOf(env, c), c.ident.run;
    LockstepStores(env, s, p, q, c, AtIntent, a, now, ck);
    Effects.IntentEffect(s.store, run, c.ident.item, id, c.ident.tool, c.op, c.ident.args, now, env.cfg, ck);
    IntentKeepsPlan(s.store, run, c.ident.item, id, c.ident.tool, c.op, c.ident.args, now, env.cfg, ck);
    var t := RecordToolIntent(s.store, run, c.ident.item, id, c.ident.tool, c.op, c.ident.args, now, env.cfg, ck).value;
    IntentAgain(t, run, c.ident.item, id, c.ident.tool, c.op, c.ident.args, now, env.cfg, ck);
    hide Lockstep;
  }

  lemma BothRecheck(env: Env, s: Sys, p: nat, q: nat, c: ToolCall, a: Answer, now: real, ck: string)
    requires Both(s, p, q, c, AtRecheck) && c.op == WRITE && Holds(s.store, c.ident.run, IdOf(env, c), IntentLogged)
    ensures var r := Lockstep(env, s, p, q, a, now, ck);
      Both(r, p, q, c, AtDispatch) && r.store == s.store && r.marks == s.marks
  {
    hide IdOf;
    LockstepStores(env, s, p, q, c, AtRecheck, a, now, ck);
    hide Lockstep;
  }

  lemma BothDispatch(env: Env, s: Sys, p: nat, q: nat, c: ToolCall, a: Answer, now: real, ck: string)
    requires Both(s, p, q, c, AtDispatch) && Holds(s.store, c.ident.run, IdOf(env, c), IntentLogged)
      && c.ident.run in s.store.contexts
    ensures var r := Lockstep(env, s, p, q, a, now, ck);
      && Both(r, p, q, c, AtInvoke(false)) && Holds(r.store, c.ident.run, IdOf(env, c), Dispatched)
      && r.marks == s.marks && c.ident.run in r.store.contexts
  {
    hide IdOf, RecordToolDispatch;
    var id, run := IdOf(env, c), c.ident.run;
    LockstepStores(env, s, p, q, c, AtDispatch, a, now, ck);
    DispatchMove(s.store, run, id, now, env.cfg, ck);
    var t := RecordToolDispatch(s.store, run, id, now, env.cfg, ck).value;
    Effects.DispatchEffect(t, run, id, now, env.cfg, ck);
    OnlyRunMoves(t, RecordToolDispatch(t, run, id, now, env.cfg, ck).value, run, Effects.ViewOf(t, run));
    hide Lockstep;
  }

  function Rounds(env: Env, s: Sys, p: nat, q: nat, a: Answer, now: real, ck: string, n: nat): Sys {
    if n == 0 then s else Lockstep(env, Rounds(env, s, p, q, a, now, ck, n - 1), p, q, a, now, ck)
  }

  /** Two processes in lockstep both get through to the target with a write that was never proved absent. */
  lemma {:induction false} BothInvoke(env: Env, s: Sys, p: nat, q: nat, c: ToolCall, a: Answer, now: real, ck: string)
    requires env.cfg.dedup && c.op == WRITE && Both(s, p, q, c, AtLookup) && Loggable(env, s.store, c, now, ck)
    ensures var t := Rounds(env, s, p, q, a, now, ck, 5);
      && t.marks == s.marks + [Invoked(IdOf(env, c), Dispatched)] + [Invoked(IdOf(env, c), Dispatched)]
      && !Authorized(t.marks)
      && Both(t, p, q, c, AtAnswer(false)) && Holds(t.store, c.ident.run, IdOf(env, c), Dispatched)
      && c.ident.run in t.store.contexts
  {
    hide IdOf, Lockstep, Loggable;
    var s1 := Rounds(env, s, p, q, a, now, ck, 1);
    var s2 := Rounds(env, s, p, q, a, now, ck, 2);
    var s3 := Rounds(env, s, p, q, a, now, ck, 3);
    var s4 := Rounds(env, s, p, q, a, now, ck, 4);
    var s5 := Rounds(env, s, p, q, a, now, ck, 5);
    assert IdOf(env, c) !in s.store.records by { LoggableMeans(env, s.store, c, now, ck); }
    assert Rounds(env, s, p, q, a, now, ck, 0) == s;
    BothLookup(env, s, p, q, c, a, now, ck);
    BothIntent(env, s1, p, q, c, a, now, ck);
    BothRecheck(env, s2, p, q, c, a, now, ck);
    BothDispatch(env, s3, p, q, c, a, now, ck);
    LockstepStores(env, s4, p, q, c, AtInvoke(false), a, now, ck);
    InvokeOnly(s4.store, IdOf(env, c), c, false, a, env.dispatchReads, env.cfg, now, ck);
    var n := |s.marks|;
    assert s5.marks[n].Invoked? && s5.marks[n + 1].Invoked? && s5.marks[n].id == s5.marks[n + 1].id
      && s5.marks[n + 1].status != VerifiedNotFound;
  }

  lemma LoggableMeans(env: Env, s: Store, c: ToolCall, now: real, ck: string)
    requires Loggable(env, s, c, now, ck)
    ensures IdOf(env, c) !in s.records
  {
  }

  /** When one of them fails and the other is ambiguous, in this order, the id ends up open and not pending: FAILED may
      go back to DISPATCHED, and an ambiguous answer does not touch the list. */
  lemma {:induction false} PendingLost(env: Env, s: Sys, p: nat, q: nat, c: ToolCall, e: string, f: string, a: Answer,
                                       now: real, ck: string)
    requires c.op == WRITE && p != q && p in s.procs && q in s.procs
    requires s.procs[p] == Calling(c, AtRecord(false, Failure(e)))
      && s.procs[q] == Calling(c, AtRecord(false, Ambiguous(f)))
    requires Holds(s.store, c.ident.run, IdOf(env, c), Dispatched) && c.ident.run in s.store.contexts
    ensures !PendingLists.PendingExact(Lockstep(env, s, p, q, a, now, ck).store)
  {
    var id, run := IdOf(env, c), c.ident.run;
    var args, brgs := AnswerArgs(c, false, Failure(e)), AnswerArgs(c, false, Ambiguous(f));
    var t := RecordToolResult(s.store, run, id, args, now, env.cfg, ck);
    ClosedThenOpened(env, s.store, c, e, f, now, ck);
    hide IdOf, RecordToolResult, AnswerArgs, PendingLists.PendingExact, Lockstep;
    OneAfterTheOther(env, s, p, q, c, Failure(e), Ambiguous(f), a, now, ck);
  }

  /** Two processes that record, one after the other. */
  lemma OneAfterTheOther(env: Env, s: Sys, p: nat, q: nat, c: ToolCall, x: Answer, y: Answer, a: Answer, now: real,
                         ck: string)
    requires p != q && p in s.procs && q in s.procs && s.procs[p] == Calling(c, AtRecord(false, x))
      && s.procs[q] == Calling(c, AtRecord(false, y))
    ensures var id, run := IdOf(env, c), c.ident.run;
      var t := RecordToolResult(s.store, run, id, AnswerArgs(c, false, x), now, env.cfg, ck);
      t.Ok? ==> var u := RecordToolResult(t.value, run, id, AnswerArgs(c, false, y), now, env.cfg, ck);
        u.Ok? ==> Lockstep(env, s, p, q, a, now, ck).store == u.value
  {
    hide IdOf, RecordToolResult, AnswerArgs;
  }

  /** The same on the store alone: first the failure, then the ambiguous answer. */
  lemma ClosedThenOpened(env: Env, s: Store, c: ToolCall, e: string, f: string, now: real, ck: string)
    requires c.op == WRITE && Holds(s, c.ident.run, IdOf(env, c), Dispatched) && c.ident.run in s.contexts
    ensures var id, run := IdOf(env, c), c.ident.run;
      var t := RecordToolResult(s, run, id, AnswerArgs(c, false, Failure(e)), now, env.cfg, ck);
      t.Ok? && var u := RecordToolResult(t.value, run, id, AnswerArgs(c, false, Ambiguous(f)), now, env.cfg, ck);
      u.Ok? && !PendingLists.PendingExact(u.value)
  {
    var id, run := IdOf(env, c), c.ident.run;
    hide IdOf, RecordToolResult;
    var args, brgs := AnswerArgs(c, false, Failure(e)), AnswerArgs(c, false, Ambiguous(f));
    ResultMove(s, run, id, args, now, env.cfg, ck);
    var t := RecordToolResult(s, run, id, args, now, env.cfg, ck).value;
    var x: ExternalResult :|
      && Moves(s, t, run, Changed(id, x, ShouldClear(args)))
      && x.status == ExecutionFailed && x.response == args.response;
    ResultMove(t, run, id, brgs, now, env.cfg, ck);
    var u := RecordToolResult(t, run, id, brgs, now, env.cfg, ck).value;
    var y: ExternalResult :| Moves(t, u, run, Changed(id, y, ShouldClear(brgs))) && y.status == Dispatched
      && y.response == brgs.response;
    assert id !in Effects.PendingOf(u, run) && Holds(u, run, id, Dispatched);
  }

  // ---------------------------------------------------------------- from the start

  /** The actions of `n` rounds. */
  function Turns(p: nat, q: nat, a: Answer, now: real, ck: string, n: nat): seq<ActionKind> {
    if n == 0 then [] else Turns(p, q, a, now, ck, n - 1) + [Advance(p, a, now, ck), Advance(q, a, now, ck)]
  }

  lemma {:induction false} TurnsAreRounds(env: Env, s: Sys, p: nat, q: nat, a: Answer, now: real, ck: string, n: nat)
    ensures Run(env, s, Turns(p, q, a, now, ck, n)) == Rounds(env, s, p, q, a, now, ck, n)
  {
    hide Next;
    if n > 0 {
      TurnsAreRounds(env, s, p, q, a, now, ck, n - 1);
      var pair := [Advance(p, a, now, ck), Advance(q, a, now, ck)];
      RunConcat(env, s, Turns(p, q, a, now, ck, n - 1), pair);
      RunPair(env, Rounds(env, s, p, q, a, now, ck, n - 1), pair[0], pair[1]);
    }
  }

  lemma {:induction false} TurnsOnlyAdvance(p: nat, q: nat, a: Answer, now: real, ck: string, n: nat)
    ensures forall i :: 0 <= i < |Turns(p, q, a, now, ck, n)| ==> Turns(p, q, a, now, ck, n)[i].Advance?
  {
    if n > 0 { TurnsOnlyAdvance(p, q, a, now, ck, n - 1); }
  }

  /** A run is created, two processes begin the same call. */
  function Opening(c: ToolCall, op: Op, now: real, ck: string): seq<ActionKind> {
    [Work(op, now, ck), Begin(0, c), Begin(1, c)]
  }

  /** Both go through to the target; one is told of a failure and the other of nothing; both record it. */
  function Crossed(c: ToolCall, op: Op, e: string, f: string, now: real, ck: string): seq<ActionKind> {
    Opening(c, op, now, ck) + Turns(0, 1, Failure(e), now, ck, 5)
      + [Advance(0, Failure(e), now, ck), Advance(1, Ambiguous(f), now, ck)] + Turns(0, 1, Failure(e), now, ck, 1)
  }

  lemma OpeningReaches(env: Env, d: Target.Data, c: ToolCall, op: Op, now: real, ck: string)
    requires !env.single && env.cfg.dedup && Openings.Creates(op, c)
    ensures var s := Run(env, Initial(d), Opening(c, op, now, ck));
      Both(s, 0, 1, c, AtLookup) && Loggable(env, s.store, c, now, ck) && s.marks == []
  {
    Openings.Opened(env, d, c, op, now, ck);
    var actions := Opening(c, op, now, ck);
    assert actions[..2] == [Work(op, now, ck), Begin(0, c)];
    var s := Next(env, Initial(d), Work(op, now, ck));
    hide IdOf, After, RecordToolIntent, Openings.Unlogged;
    RunPair(env, Initial(d), Work(op, now, ck), Begin(0, c));
    assert Run(env, Initial(d), actions) == Next(env, Next(env, s, Begin(0, c)), Begin(1, c));
    Openings.IntentLogs(env, s.store, c, now, ck);
  }

  lemma Answered(env: Env, s: Sys, c: ToolCall, x: Answer, y: Answer, now: real, ck: string)
    requires Both(s, 0, 1, c, AtAnswer(false))
    ensures var t := Run(env, s, [Advance(0, x, now, ck), Advance(1, y, now, ck)]);
      && t.store == s.store && t.marks == s.marks && 0 in t.procs && 1 in t.procs
      && t.procs[0] == Calling(c, AtRecord(false, x)) && t.procs[1] == Calling(c, AtRecord(false, y))
  {
    hide IdOf;
    RunPair(env, s, Advance(0, x, now, ck), Advance(1, y, now, ck));
  }

  lemma CrossedShape(c: ToolCall, op: Op, e: string, f: string, now: real, ck: string)
    requires Openings.Creates(op, c)
    ensures var actions := Crossed(c, op, e, f, now, ck);
      Calls(actions, {c}) && forall i :: 0 <= i < |actions| ==> PendingLists.NoReset(actions[i])
  {
    TurnsOnlyAdvance(0, 1, Failure(e), now, ck, 5);
    TurnsOnlyAdvance(0, 1, Failure(e), now, ck, 1);
    hide Turns;
  }

  /** Up to the second external call. */
  lemma BothOut(env: Env, d: Target.Data, c: ToolCall, op: Op, a: Answer, now: real, ck: string)
    requires !env.single && env.cfg.dedup && c.op == WRITE && Openings.Creates(op, c)
    ensures var s := Run(env, Initial(d), Opening(c, op, now, ck) + Turns(0, 1, a, now, ck, 5));
      && !Authorized(s.marks) && Both(s, 0, 1, c, AtAnswer(false))
      && Holds(s.store, c.ident.run, IdOf(env, c), Dispatched) && c.ident.run in s.store.contexts
  {
    hide IdOf, Next, Authorized, Loggable, Openings.Creates, Opening, Turns;
    OpeningReaches(env, d, c, op, now, ck);
    var s := Run(env, Initial(d), Opening(c, op, now, ck));
    BothInvoke(env, s, 0, 1, c, a, now, ck);
    TurnsAreRounds(env, s, 0, 1, a, now, ck, 5);
    RunConcat(env, Initial(d), Opening(c, op, now, ck), Turns(0, 1, a, now, ck, 5));
    hide Run, Rounds;
  }

  /** A failure and an ambiguous answer, then both are recorded. */
  lemma BothRecorded(env: Env, s: Sys, c: ToolCall, e: string, f: string, now: real, ck: string)
    requires c.op == WRITE && Both(s, 0, 1, c, AtAnswer(false)) && c.ident.run in s.store.contexts
    requires Holds(s.store, c.ident.run, IdOf(env, c), Dispatched)
    ensures var pair := [Advance(0, Failure(e), now, ck), Advance(1, Ambiguous(f), now, ck)];
      var t := Run(env, Run(env, s, pair), Turns(0, 1, Failure(e), now, ck, 1));
      t.marks == s.marks && !PendingLists.PendingExact(t.store)
  {
    var x := Failure(e);
    var t := Run(env, s, [Advance(0, x, now, ck), Advance(1, Ambiguous(f), now, ck)]);
    hide IdOf, Next, PendingLists.PendingExact, Lockstep;
    Answered(env, s, c, x, Ambiguous(f), now, ck);
    PendingLost(env, t, 0, 1, c, e, f, x, now, ck);
    RecordingKeepsMarks(env, t, c, x, Ambiguous(f), x, now, ck);
    TurnsAreRounds(env, t, 0, 1, x, now, ck, 1);
    assert Rounds(env, t, 0, 1, x, now, ck, 0) == t;
  }

  /** Two runners on one run, from the very start and without a reset: a write that nobody proved absent is invoked
      twice, and its execution ends open but not pending. All else that the laws of a single runner ask for holds. */
  lemma {:induction false} LawsNeedOneRunner(env: Env, d: Target.Data, c: ToolCall, op: Op, e: string, f: string,
                                             now: real, ck: string)
    requires !env.single && env.cfg.dedup && c.op == WRITE && Openings.Creates(op, c) && Identity.CleanIds(c.ident)
    ensures var actions := Crossed(c, op, e, f, now, ck); var s := Run(env, Initial(d), actions);
      && WellNamed(env, {c}) && Calls(actions, {c})
      && (forall i :: 0 <= i < |actions| ==> PendingLists.NoReset(actions[i]))
      && !Authorized(s.marks) && !PendingLists.PendingExact(s.store)
  {
    var x, pair := Failure(e), [Advance(0, Failure(e), now, ck), Advance(1, Ambiguous(f), now, ck)];
    var out, last := Opening(c, op, now, ck) + Turns(0, 1, x, now, ck, 5), Turns(0, 1, x, now, ck, 1);
    assert Crossed(c, op, e, f, now, ck) == out + pair + last;
    hide *;
    OneCallWellNamed(env, c);
    CrossedShape(c, op, e, f, now, ck);
    BothOut(env, d, c, op, x, now, ck);
    BothRecorded(env, Run(env, Initial(d), out), c, e, f, now, ck);
    RunConcat(env, Initial(d), out, pair);
    RunConcat(env, Initial(d), out + pair, last);
  }

  lemma OneCallWellNamed(env: Env, c: ToolCall)
    requires Identity.CleanIds(c.ident)
    ensures WellNamed(env, {c})
  {
    hide Identity.Raw;
  }

  lemma RecordingKeepsMarks(env: Env, s: Sys, c: ToolCall, x: Answer, y: Answer, a: Answer, now: real, ck: string)
    requires 0 in s.procs && 1 in s.procs && s.procs[0] == Calling(c, AtRecord(false, x))
      && s.procs[1] == Calling(c, AtRecord(false, y))
    ensures Lockstep(env, s, 0, 1, a, now, ck).marks == s.marks
  {
    hide IdOf, Step;
  }
}
