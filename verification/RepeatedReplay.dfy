/** A replay that is ambiguous again: the next pass does not ask the target, and the next call replays from the old
    proof. */
module RepeatedReplay {
  import opened Prelude
  import opened Models
  import opened Facade
  import opened Executor
  import opened Machine
  import Abandonment
  import Audit
  import Effects
  import MachineHistory
  import Openings
  import Recovery
  import Target
  import Timeouts

  // ---------------------------------------------------------------- one execution in the store

  /** The store knows exactly one execution: this write, in this status, written at this time. */
  predicate Only(env: Env, s: Store, c: ToolCall, status: ExecutionStatus, at: real) {
    && s.records.Keys == {IdOf(env, c)} && c.ident.run in s.contexts
    && var r := s.records[IdOf(env, c)];
       && r.run == c.ident.run && r.tool == c.ident.tool && r.op == WRITE && r.request == c.ident.args
       && r.status == status && r.updatedAt == at
  }

  predicate Stands(env: Env, s: Sys, c: ToolCall, pc: Pc, status: ExecutionStatus, at: real) {
    Abandonment.Alone(s, c, pc) && Only(env, s.store, c, status, at)
  }

  predicate Rests(env: Env, s: Sys, c: ToolCall, status: ExecutionStatus, at: real) {
    s.procs == map[] && Only(env, s.store, c, status, at)
  }

  /** One process goes on, `n` times. */
  function Steps(a: Answer, now: real, ck: string, n: nat): seq<ActionKind> {
    if n == 0 then [] else [Advance(0, a, now, ck)] + Steps(a, now, ck, n - 1)
  }

  lemma StepsFirst(env: Env, s: Sys, a: Answer, now: real, ck: string, n: nat)
    requires n > 0
    ensures Run(env, s, Steps(a, now, ck, n)) ==
      Run(env, Next(env, s, Advance(0, a, now, ck)), Steps(a, now, ck, n - 1))
  {
    hide Next;
    FirstThen(env, s, Advance(0, a, now, ck), Steps(a, now, ck, n - 1));
  }

  lemma StepsNone(env: Env, s: Sys, a: Answer, now: real, ck: string)
    ensures Run(env, s, Steps(a, now, ck, 0)) == s
  {
  }

  // ---------------------------------------------------------------- one call

  /** The steps of a call that write nothing. */
  function PureNext(pc: Pc, a: Answer): Pc {
    match pc
    case AtLookup => AtInvoke(true)
    case AtRecheck => AtDispatch
    case AtInvoke(replay) => AtAnswer(replay)
    case AtAnswer(replay) => AtRecord(replay, a)
    case _ => pc
  }

  predicate Pure(pc: Pc, status: ExecutionStatus) {
    || (pc.AtLookup? && status == VerifiedNotFound) || (pc.AtRecheck? && status == IntentLogged)
    || pc.AtInvoke? || pc.AtAnswer?
  }

  lemma PureStep(env: Env, s: Sys, c: ToolCall, pc: Pc, status: ExecutionStatus, at: real, a: Answer, now: real,
                 ck: string)
    requires Stands(env, s, c, pc, status, at) && Pure(pc, status) && c.op == WRITE
    ensures var t := Next(env, s, Advance(0, a, now, ck));
      && Stands(env, t, c, PureNext(pc, a), status, at)
      && t.marks == s.marks + if pc.AtInvoke? then [Invoked(IdOf(env, c), status)] else []
  {
    Abandonment.Moved(env, s, c, pc, a, now, ck);
    hide IdOf, Next, RecordToolDispatch, RecordToolIntent, RecordToolResult, Abandonment.Alone;
  }

  lemma DispatchStep(env: Env, s: Sys, c: ToolCall, at: real, a: Answer, now: real, ck: string)
    requires Stands(env, s, c, AtDispatch, IntentLogged, at)
    ensures var t := Next(env, s, Advance(0, a, now, ck));
      Stands(env, t, c, AtInvoke(false), Dispatched, now) && t.marks == s.marks
  {
    DispatchWritten(env, s.store, c, at, now, ck);
    Abandonment.Moved(env, s, c, AtDispatch, a, now, ck);
    hide IdOf, Next, RecordToolDispatch, Only, Abandonment.Alone;
  }

  lemma DispatchWritten(env: Env, s: Store, c: ToolCall, at: real, now: real, ck: string)
    requires Only(env, s, c, IntentLogged, at)
    ensures var r := RecordToolDispatch(s, c.ident.run, IdOf(env, c), now, env.cfg, ck);
      r.Ok? && Only(env, r.value, c, Dispatched, now)
  {
    hide IdOf, RecordToolDispatch;
    Effects.DispatchEffect(s, c.ident.run, IdOf(env, c), now, env.cfg, ck);
    var r := RecordToolDispatch(s, c.ident.run, IdOf(env, c), now, env.cfg, ck);
    assert Effects.ViewOf(r.value, c.ident.run).known;
  }

  function OutStatus(replay: bool): ExecutionStatus { if replay then VerifiedNotFound else Dispatched }

  lemma RecordStep(env: Env, s: Sys, c: ToolCall, replay: bool, at: real, f: string, a: Answer, now: real, ck: string)
    requires Stands(env, s, c, AtRecord(replay, Ambiguous(f)), OutStatus(replay), at) && c.op == WRITE
    ensures var t := Next(env, s, Advance(0, a, now, ck));
      Stands(env, t, c, Returned(PendingRecovery), OutStatus(replay), now) && t.marks == s.marks
  {
    ResultWritten(env, s.store, c, replay, at, f, now, ck);
    Abandonment.Moved(env, s, c, AtRecord(replay, Ambiguous(f)), a, now, ck);
    hide IdOf, Next, RecordToolResult, Only, AnswerArgs, Abandonment.Alone;
  }

  lemma ResultWritten(env: Env, s: Store, c: ToolCall, replay: bool, at: real, f: string, now: real, ck: string)
    requires Only(env, s, c, OutStatus(replay), at) && c.op == WRITE
    ensures var r := RecordToolResult(s, c.ident.run, IdOf(env, c), AnswerArgs(c, replay, Ambiguous(f)), now, env.cfg,
                                      ck);
      r.Ok? && Only(env, r.value, c, OutStatus(replay), now)
  {
    var id, args := IdOf(env, c), AnswerArgs(c, replay, Ambiguous(f));
    AmbiguousRecord(c, s.records[id], replay, f, now);
    hide IdOf, RecordToolResult, ResultRecordOf, AnswerArgs;
    Effects.ResultEffect(s, c.ident.run, id, args, now, env.cfg, ck);
    assert Effects.ViewOf(RecordToolResult(s, c.ident.run, id, args, now, env.cfg, ck).value, c.ident.run).known;
  }

  lemma AmbiguousRecord(c: ToolCall, r: ExternalResult, replay: bool, f: string, now: real)
    requires c.op == WRITE && r.tool == c.ident.tool && r.request == c.ident.args && r.status == OutStatus(replay)
    ensures var args := AnswerArgs(c, replay, Ambiguous(f)); var record := ResultRecordOf(Some(r), r.run, args, now);
      && Allowed(r.status, ResolveStatus(args.status, args.result))
      && record.Ok? && record.value.run == r.run && record.value.tool == r.tool && record.value.op == WRITE
      && record.value.request == r.request && record.value.status == OutStatus(replay) && record.value.updatedAt == now
  {
    var args := AnswerArgs(c, replay, Ambiguous(f));
    assert args.op == Some(WRITE) && args.tool == Some(r.tool) && args.request == Some(r.request);
    assert args.status == Some(OutStatus(replay));
    hide AnswerArgs;
  }

  /** From the external call to the end of the call. */
  lemma OutAndBack(env: Env, s: Sys, c: ToolCall, replay: bool, at: real, f: string, now: real, ck: string)
    requires Stands(env, s, c, AtInvoke(replay), OutStatus(replay), at) && c.op == WRITE
    ensures var t := Run(env, s, Steps(Ambiguous(f), now, ck, 3));
      && Stands(env, t, c, Returned(PendingRecovery), OutStatus(replay), now)
      && t.marks == s.marks + [Invoked(IdOf(env, c), OutStatus(replay))]
  {
    hide IdOf, Next, Only, Steps, Run;
    var a, step := Ambiguous(f), Advance(0, Ambiguous(f), now, ck);
    var t := Next(env, s, step);
    var u := Next(env, t, step);
    PureStep(env, s, c, AtInvoke(replay), OutStatus(replay), at, a, now, ck);
    PureStep(env, t, c, AtAnswer(replay), OutStatus(replay), at, a, now, ck);
    RecordStep(env, u, c, replay, at, f, a, now, ck);
    StepsFirst(env, s, a, now, ck, 3);
    StepsFirst(env, t, a, now, ck, 2);
    StepsFirst(env, u, a, now, ck, 1);
    StepsNone(env, Next(env, u, step), a, now, ck);
  }

  /** A whole replay. */
  lemma ReplayRuns(env: Env, s: Sys, c: ToolCall, at: real, f: string, now: real, ck: string)
    requires Stands(env, s, c, AtLookup, VerifiedNotFound, at) && c.op == WRITE
    ensures var t := Run(env, s, Steps(Ambiguous(f), now, ck, 4));
      && Stands(env, t, c, Returned(PendingRecovery), VerifiedNotFound, now)
      && t.marks == s.marks + [Invoked(IdOf(env, c), VerifiedNotFound)]
  {
    hide IdOf, Next, Only, Steps, Run;
    PureStep(env, s, c, AtLookup, VerifiedNotFound, at, Ambiguous(f), now, ck);
    OutAndBack(env, Next(env, s, Advance(0, Ambiguous(f), now, ck)), c, true, at, f, now, ck);
    StepsFirst(env, s, Ambiguous(f), now, ck, 4);
  }

  lemma IntentWritten(env: Env, s: Sys, c: ToolCall, a: Answer, now: real, ck: string)
    requires env.cfg.dedup && c.op == WRITE && s.store.records == map[]
    requires Abandonment.Alone(s, c, AtIntent) && Openings.Unlogged(env, s.store, c)
    ensures var t := Next(env, s, Advance(0, a, now, ck));
      Stands(env, t, c, AtRecheck, IntentLogged, now) && t.marks == s.marks
  {
    IntentRecorded1(env, s.store, c, now, ck);
    Abandonment.Moved(env, s, c, AtIntent, a, now, ck);
    hide IdOf, Next, RecordToolIntent, Only, Openings.Unlogged, Abandonment.Alone;
  }

  lemma IntentRecorded1(env: Env, s: Store, c: ToolCall, now: real, ck: string)
    requires env.cfg.dedup && c.op == WRITE && s.records == map[] && Openings.Unlogged(env, s, c)
    ensures var r := RecordToolIntent(s, c.ident.run, c.ident.item, IdOf(env, c), c.ident.tool, c.op, c.ident.args, now,
                                      env.cfg, ck);
      r.Ok? && Only(env, r.value, c, IntentLogged, now)
  {
    hide IdOf, RecordToolIntent, Openings.Unlogged;
    Openings.IntentLogs(env, s, c, now, ck);
    Effects.IntentEffect(s, c.ident.run, c.ident.item, IdOf(env, c), c.ident.tool, c.op, c.ident.args, now, env.cfg,
                         ck);
  }

  /** A whole first call. */
  lemma FirstRuns(env: Env, s: Sys, c: ToolCall, f: string, now: real, ck: string)
    requires env.cfg.dedup && c.op == WRITE && s.store.records == map[]
    requires Abandonment.Alone(s, c, AtLookup) && Openings.Unlogged(env, s.store, c)
    ensures var t := Run(env, s, Steps(Ambiguous(f), now, ck, 7));
      && Stands(env, t, c, Returned(PendingRecovery), Dispatched, now)
      && t.marks == s.marks + [Invoked(IdOf(env, c), Dispatched)]
  {
    hide IdOf, Next, Only, Steps, Run, Openings.Unlogged;
    var a, step := Ambiguous(f), Advance(0, Ambiguous(f), now, ck);
    var t := Next(env, s, step);
    var u := Next(env, t, step);
    var v := Next(env, u, step);
    var w := Next(env, v, step);
    Abandonment.LookedUp(env, s, c, a, now, ck);
    IntentWritten(env, t, c, a, now, ck);
    PureStep(env, u, c, AtRecheck, IntentLogged, now, a, now, ck);
    DispatchStep(env, v, c, now, a, now, ck);
    OutAndBack(env, w, c, false, now, f, now, ck);
    StepsFirst(env, s, a, now, ck, 7);
    StepsFirst(env, t, a, now, ck, 6);
    StepsFirst(env, u, a, now, ck, 5);
    StepsFirst(env, v, a, now, ck, 4);
  }

  // ---------------------------------------------------------------- one pass

  /** The pass asks about this write and is told that it never committed. */
  predicate Disproves(env: Env, p: Recovery.Pass, c: ToolCall, at: real) {
    && p.run == c.ident.run && p.verifier.Some?
    && at + Timeouts.WaitSeconds(c.ident.args, p.wait, p.floatOf) <= p.now
    && var v := p.verifier.value(IdOf(env, c), c.ident.tool, c.ident.args); v.Verdict? && v.committed == Some(false)
  }

  lemma SortedOne(id: ExecId)
    ensures Sorted({id}) == [id]
  {
    assert Sorted({id})[0] in {id};
    assert |Sorted({id})| == 1;
  }

  lemma OnlyCandidate(env: Env, s: Store, c: ToolCall, status: ExecutionStatus, at: real)
    requires Only(env, s, c, status, at) && Audit.PendingOpen(s)
    ensures Recovery.Candidates(s, c.ident.run) == {IdOf(env, c)}
  {
    hide IdOf;
    forall id | id in Effects.PendingOf(s, c.ident.run) ensures id == IdOf(env, c) {
      assert Audit.OpenRecord(s, c.ident.run, id);
      assert id in s.records.Keys;
    }
  }

  /** A pass has just begun. */
  ghost predicate Passing(env: Env, s: Sys, p: Recovery.Pass, c: ToolCall, phase: Phase, status: ExecutionStatus,
                          at: real) {
    && s.procs.Keys == {0} && Only(env, s.store, c, status, at)
    && s.procs[0] == Recovering(p, [Candidate(IdOf(env, c), Some(s.store.records[IdOf(env, c)]))], phase)
  }

  lemma PassBegins(env: Env, s: Sys, p: Recovery.Pass, c: ToolCall, status: ExecutionStatus, at: real)
    requires Rests(env, s, c, status, at) && Audit.PendingOpen(s.store) && p.run == c.ident.run
    ensures var t := Next(env, s, BeginRecovery(0, p)); Passing(env, t, p, c, Judging, status, at) && t.marks == s.marks
  {
    OnlyCandidate(env, s.store, c, status, at);
    SortedOne(IdOf(env, c));
    hide IdOf, Recovery.Candidates, Sorted;
    assert Snapshot(s.store, p.run, [IdOf(env, c)]) == [Candidate(IdOf(env, c), Some(s.store.records[IdOf(env, c)]))];
    hide Snapshot;
    RecoveryBegins(env, s, p);
    hide Next;
  }

  lemma RecoveryBegins(env: Env, s: Sys, p: Recovery.Pass)
    requires s.procs == map[] && p.run in s.store.contexts
    ensures var todo := Snapshot(s.store, p.run, Sorted(Recovery.Candidates(s.store, p.run)));
      Next(env, s, BeginRecovery(0, p)) == s.(procs := map[0 := Recovering(p, todo, Judging)])
  {
    hide Snapshot, Sorted, Recovery.Candidates;
  }

  lemma AdvancedPass(env: Env, s: Sys, p: Recovery.Pass, todo: seq<Candidate>, phase: Phase, a: Answer, now: real,
                     ck: string)
    requires s.procs.Keys == {0} && s.procs[0] == Recovering(p, todo, phase)
    ensures Next(env, s, Advance(0, a, now, ck)) == if todo == [] then s
      else AdvancePass(env, s, 0, p, todo, phase, now, ck)
  {
    hide AdvancePass;
  }

  lemma Judged(env: Env, s: Sys, p: Recovery.Pass, c: ToolCall, at: real, a: Answer, now: real, ck: string)
    requires Passing(env, s, p, c, Judging, Dispatched, at) && Disproves(env, p, c, at)
    ensures var t := Next(env, s, Advance(0, a, now, ck));
      Passing(env, t, p, c, Storing, Dispatched, at) && t.marks == s.marks + [FoundAbsent(IdOf(env, c))]
  {
    AdvancedPass(env, s, p, s.procs[0].todo, Judging, a, now, ck);
    hide IdOf, Next, RecordToolResult, RecordContextMessage, Timeouts.WaitSeconds;
  }

  lemma AbsenceWritten(env: Env, s: Store, p: Recovery.Pass, c: ToolCall, at: real, now: real, ck: string)
    requires Only(env, s, c, Dispatched, at) && Disproves(env, p, c, at)
    ensures var id := IdOf(env, c); var r := s.records[id];
      Recovery.Finding(p, id, r) == Some(false) &&
      var t := RecordToolResult(s, p.run, id, Recovery.FindingArgs(p, id, r), now, env.cfg, ck);
      t.Ok? && Only(env, t.value, c, VerifiedNotFound, now)
  {
    var id, r := IdOf(env, c), s.records[IdOf(env, c)];
    Recovery.SettledArgs(p, id, r, now);
    assert Recovery.Finding(p, id, r) == Some(false) && Recovery.FindingArgs(p, id, r) == Recovery.ABSENT_ARGS;
    assert Recovery.SettledRecord(p, id, r, now).status == VerifiedNotFound;
    assert Recovery.SettledRecord(p, id, r, now) == r.(response := None, result := ResultUnknown,
                                                       status := VerifiedNotFound, error := None, updatedAt := now);
    hide IdOf, RecordToolResult, ResultRecordOf, Recovery.Finding, Recovery.FindingArgs, Recovery.SettledRecord,
         Timeouts.WaitSeconds;
    Effects.ResultEffect(s, p.run, id, Recovery.FindingArgs(p, id, r), now, env.cfg, ck);
    var t := RecordToolResult(s, p.run, id, Recovery.FindingArgs(p, id, r), now, env.cfg, ck);
    assert Effects.ViewOf(t.value, p.run).known;
  }

  lemma Stored(env: Env, s: Sys, p: Recovery.Pass, c: ToolCall, at: real, a: Answer, now: real, ck: string)
    requires Passing(env, s, p, c, Storing, Dispatched, at) && Disproves(env, p, c, at)
    ensures var t := Next(env, s, Advance(0, a, now, ck));
      && t.procs.Keys == {0} && t.procs[0] == Recovering(p, [], Judging)
      && Only(env, t.store, c, VerifiedNotFound, now) && t.marks == s.marks
  {
    var todo, id, r := s.procs[0].todo, IdOf(env, c), s.store.records[IdOf(env, c)];
    AdvancedPass(env, s, p, todo, Storing, a, now, ck);
    AbsenceWritten(env, s.store, p, c, at, now, ck);
    var u := RecordToolResult(s.store, p.run, id, Recovery.FindingArgs(p, id, r), now, env.cfg, ck);
    StoredIs(env, s, p, todo, u.value, now, ck);
    assert todo[1..] == [];
    hide IdOf, Next, AdvancePass, RecordToolResult, Recovery.Finding, Recovery.FindingArgs, Disproves;
  }

  lemma StoredIs(env: Env, s: Sys, p: Recovery.Pass, todo: seq<Candidate>, u: Store, now: real, ck: string)
    requires todo != [] && todo[0].record.Some? && Recovery.Finding(p, todo[0].id, todo[0].record.value).Some?
    requires RecordToolResult(s.store, p.run, todo[0].id, Recovery.FindingArgs(p, todo[0].id, todo[0].record.value),
                              now, env.cfg, ck) ==
      Ok(u)
    requires todo[0].id in u.records && u.records[todo[0].id].status == VerifiedNotFound
    ensures AdvancePass(env, s, 0, p, todo, Storing, now, ck) ==
      s.(store := u, procs := s.procs[0 := Recovering(p, todo[1..], Judging)])
  {
    hide RecordToolResult, RecordContextMessage, Recovery.Finding, Recovery.FindingArgs;
  }

  /** A record that says "absent" is passed over. */
  lemma PassedOver(env: Env, s: Sys, p: Recovery.Pass, c: ToolCall, at: real, a: Answer, now: real, ck: string)
    requires Passing(env, s, p, c, Judging, VerifiedNotFound, at)
    ensures var t := Next(env, s, Advance(0, a, now, ck));
      && t.procs.Keys == {0} && t.procs[0] == Recovering(p, [], Judging)
      && Only(env, t.store, c, VerifiedNotFound, at) && t.marks == s.marks
  {
    AdvancedPass(env, s, p, s.procs[0].todo, Judging, a, now, ck);
    assert s.procs[0].todo[1..] == [];
    hide IdOf, Next, RecordToolResult, RecordContextMessage;
  }

  // ---------------------------------------------------------------- the history

  function Call(c: ToolCall, f: string, now: real, ck: string, n: nat): seq<ActionKind> {
    [Begin(0, c)] + (Steps(Ambiguous(f), now, ck, n) + [End(0)])
  }

  function PassOver(p: Recovery.Pass, a: Answer, now: real, ck: string): seq<ActionKind> {
    [BeginRecovery(0, p)] + (Steps(a, now, ck, 2) + [End(0)])
  }

  lemma Bracketed(env: Env, s: Sys, first: ActionKind, steps: seq<ActionKind>)
    ensures Run(env, s, [first] + (steps + [End(0)])) == Next(env, Run(env, Next(env, s, first), steps), End(0))
  {
    hide Next;
    FirstThen(env, s, first, steps + [End(0)]);
    var all := steps + [End(0)];
    assert all[..|all| - 1] == steps;
  }

  lemma Ended(env: Env, s: Sys)
    requires s.procs.Keys == {0}
    ensures Next(env, s, End(0)) == s.(procs := map[])
  {
    assert s.procs - {0} == map[];
  }

  lemma FirstCall(env: Env, s: Sys, c: ToolCall, f: string, now: real, ck: string)
    requires env.cfg.dedup && c.op == WRITE && s.store.records == map[] && s.procs == map[]
      && Openings.Unlogged(env, s.store, c)
    ensures var t := Run(env, s, Call(c, f, now, ck, 7));
      Rests(env, t, c, Dispatched, now) && t.marks == s.marks + [Invoked(IdOf(env, c), Dispatched)]
  {
    hide IdOf, Next, Only, Steps, Run, Openings.Unlogged;
    var t := Next(env, s, Begin(0, c));
    Abandonment.CallBegins(env, s, c);
    FirstRuns(env, t, c, f, now, ck);
    Ended(env, Run(env, t, Steps(Ambiguous(f), now, ck, 7)));
    Bracketed(env, s, Begin(0, c), Steps(Ambiguous(f), now, ck, 7));
  }

  lemma Replayed(env: Env, s: Sys, c: ToolCall, at: real, f: string, now: real, ck: string)
    requires c.op == WRITE && Rests(env, s, c, VerifiedNotFound, at)
    ensures var t := Run(env, s, Call(c, f, now, ck, 4));
      Rests(env, t, c, VerifiedNotFound, now) && t.marks == s.marks + [Invoked(IdOf(env, c), VerifiedNotFound)]
  {
    hide IdOf, Next, Only, Steps, Run;
    var t := Next(env, s, Begin(0, c));
    Abandonment.CallBegins(env, s, c);
    ReplayRuns(env, t, c, at, f, now, ck);
    Ended(env, Run(env, t, Steps(Ambiguous(f), now, ck, 4)));
    Bracketed(env, s, Begin(0, c), Steps(Ambiguous(f), now, ck, 4));
  }

  lemma TwoSteps(env: Env, s: Sys, a: Answer, now: real, ck: string)
    ensures var step := Advance(0, a, now, ck); Run(env, s, Steps(a, now, ck, 2)) == Next(env, Next(env, s, step), step)
  {
    hide Next;
    var step := Advance(0, a, now, ck);
    StepsFirst(env, s, a, now, ck, 2);
    StepsFirst(env, Next(env, s, step), a, now, ck, 1);
    StepsNone(env, Next(env, Next(env, s, step), step), a, now, ck);
  }

  /** The first pass proves absence. */
  lemma PassProves(env: Env, s: Sys, p: Recovery.Pass, c: ToolCall, at: real, a: Answer, now: real, ck: string)
    requires Rests(env, s, c, Dispatched, at) && Audit.PendingOpen(s.store) && Disproves(env, p, c, at)
    ensures var t := Run(env, s, PassOver(p, a, now, ck));
      Rests(env, t, c, VerifiedNotFound, now) && t.marks == s.marks + [FoundAbsent(IdOf(env, c))]
  {
    assert p.run == c.ident.run;
    hide IdOf, Next, Only, Steps, Run, Audit.PendingOpen, Disproves;
    var t := Next(env, s, BeginRecovery(0, p));
    PassBegins(env, s, p, c, Dispatched, at);
    Judged(env, t, p, c, at, a, now, ck);
    Stored(env, Next(env, t, Advance(0, a, now, ck)), p, c, at, a, now, ck);
    TwoSteps(env, t, a, now, ck);
    Ended(env, Run(env, t, Steps(a, now, ck, 2)));
    Bracketed(env, s, BeginRecovery(0, p), Steps(a, now, ck, 2));
  }

  /** Any later one, whatever its verifier would say, changes nothing at all about it. */
  lemma PassIdles(env: Env, s: Sys, p: Recovery.Pass, c: ToolCall, at: real, a: Answer, now: real, ck: string)
    requires Rests(env, s, c, VerifiedNotFound, at) && Audit.PendingOpen(s.store) && p.run == c.ident.run
    ensures var t := Run(env, s, PassOver(p, a, now, ck)); Rests(env, t, c, VerifiedNotFound, at) && t.marks == s.marks
  {
    hide IdOf, Next, Only, Steps, Run, Audit.PendingOpen;
    var t := Next(env, s, BeginRecovery(0, p));
    var u := Next(env, t, Advance(0, a, now, ck));
    PassBegins(env, s, p, c, VerifiedNotFound, at);
    PassedOver(env, t, p, c, at, a, now, ck);
    AdvancedPass(env, u, p, [], Judging, a, now, ck);
    TwoSteps(env, t, a, now, ck);
    Ended(env, u);
    Bracketed(env, s, BeginRecovery(0, p), Steps(a, now, ck, 2));
  }

  /** Ambiguous, disproved, replayed, ambiguous again, passed over, replayed. */
  function TwiceAmbiguous(c: ToolCall, op: Op, f: string, p: Recovery.Pass, q: Recovery.Pass, now: real,
                          ck: string): seq<ActionKind> {
    [Work(op, now, ck)] + Call(c, f, now, ck, 7) + PassOver(p, Ambiguous(f), now, ck) + Call(c, f, now, ck, 4)
      + PassOver(q, Ambiguous(f), now, ck) + Call(c, f, now, ck, 4)
  }

  lemma Created(env: Env, d: Target.Data, c: ToolCall, op: Op, now: real, ck: string)
    requires env.cfg.dedup && Openings.Creates(op, c)
    ensures var s := Run(env, Initial(d), [Work(op, now, ck)]);
      s.procs == map[] && s.marks == [] && s.store.records == map[] && Openings.Unlogged(env, s.store, c)
  {
    hide Next, IdOf, Openings.Creates, Openings.Unlogged;
    Openings.Opened(env, d, c, op, now, ck);
    assert [Work(op, now, ck)][..0] == [];
    assert Run(env, Initial(d), [Work(op, now, ck)]) == Next(env, Run(env, Initial(d), []), Work(op, now, ck));
  }

  /** The pass after the second ambiguous answer does not verify again, and the third call goes out on the first proof.
      */
  lemma {:induction false} SecondReplayUnverified(env: Env, d: Target.Data, c: ToolCall, op: Op, f: string,
                                                  p: Recovery.Pass,
                                                  q: Recovery.Pass, now: real, ck: string)
    requires env.cfg.dedup && Openings.Creates(op, c) && c.op == WRITE
    requires Disproves(env, p, c, now) && q.run == c.ident.run
    ensures var id := IdOf(env, c);
      Run(env, Initial(d), TwiceAmbiguous(c, op, f, p, q, now, ck)).marks ==
        [Invoked(id, Dispatched), FoundAbsent(id), Invoked(id, VerifiedNotFound), Invoked(id, VerifiedNotFound)]
  {
    hide Next, Run, IdOf, Openings.Creates, Openings.Unlogged, Disproves, Call, PassOver, Audit.PendingOpen, Rests;
    var one := [Work(op, now, ck)];
    var two := one + Call(c, f, now, ck, 7);
    var three := two + PassOver(p, Ambiguous(f), now, ck);
    var four := three + Call(c, f, now, ck, 4);
    var five := four + PassOver(q, Ambiguous(f), now, ck);
    Created(env, d, c, op, now, ck);
    FirstCall(env, Run(env, Initial(d), one), c, f, now, ck);
    RunConcat(env, Initial(d), one, Call(c, f, now, ck, 7));
    MachineHistory.PendingNeverWrong(env, d, two);
    PassProves(env, Run(env, Initial(d), two), p, c, now, Ambiguous(f), now, ck);
    RunConcat(env, Initial(d), two, PassOver(p, Ambiguous(f), now, ck));
    Replayed(env, Run(env, Initial(d), three), c, now, f, now, ck);
    RunConcat(env, Initial(d), three, Call(c, f, now, ck, 4));
    MachineHistory.PendingNeverWrong(env, d, four);
    PassIdles(env, Run(env, Initial(d), four), q, c, now, Ambiguous(f), now, ck);
    RunConcat(env, Initial(d), four, PassOver(q, Ambiguous(f), now, ck));
    Replayed(env, Run(env, Initial(d), five), c, now, f, now, ck);
    RunConcat(env, Initial(d), five, Call(c, f, now, ck, 4));
  }
}
