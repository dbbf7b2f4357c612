/** What holds when at most one process works on a run at a time: when calls may be invoked, what stays committed, what
    is pending. */
module SingleRunner {
  import opened Prelude
  import opened Models
  import opened Facade
  import opened Executor
  import opened Machine
  import Context
  import Effects
  import Recovery

  // ---------------------------------------------------------------- what one step does to the store

  /** The effect of one step of a process of `run` on records and pending lists. */
  datatype Move = Still | Created(id: ExecId, r: ExternalResult) | Changed(id: ExecId, r: ExternalResult, cleared: bool)

  ghost predicate PendingBecomes(s: Store, t: Store, run: RunId, pending: seq<ExecId>) {
    Effects.PendingOf(t, run) == pending && forall q :: q != run ==> Effects.PendingOf(t, q) == Effects.PendingOf(s, q)
  }

  ghost predicate Moves(s: Store, t: Store, run: RunId, m: Move) {
    && s.contexts.Keys == t.contexts.Keys
    && match m
       case Still => t.records == s.records && PendingBecomes(s, t, run, Effects.PendingOf(s, run))
       case Created(id, r) =>
         && id !in s.records && r.run == run && r.status == IntentLogged && run in s.contexts
         && t.records == s.records[id := r]
         && PendingBecomes(s, t, run, Context.PendingWith(Effects.PendingOf(s, run), id))
       case Changed(id, r, cleared) =>
         && id in s.records && s.records[id].run == run && r.run == run
         && t.records == s.records[id := r]
         && PendingBecomes(s, t, run, Effects.ClearedIf(Effects.PendingOf(s, run), id, cleared))
  }

  lemma OnlyRunMoves(s: Store, t: Store, run: RunId, after: Effects.View)
    requires Effects.OnlyRun(s, t, run, after) && after.known == (run in s.contexts)
    ensures s.contexts.Keys == t.contexts.Keys && PendingBecomes(s, t, run, after.pending)
  {
    assert Effects.ViewOf(t, run).pending == Effects.PendingOf(t, run);
    forall q
      ensures (q in s.contexts.Keys <==> q in t.contexts.Keys)
        && (q != run ==> Effects.PendingOf(t, q) == Effects.PendingOf(s, q))
    {
      assert Effects.ViewOf(t, q).known == (q in t.contexts) && Effects.ViewOf(s, q).known == (q in s.contexts);
      if q != run {
        assert Effects.ViewOf(t, q).pending == Effects.ViewOf(s, q).pending;
      }
    }
  }

  lemma StillMove(s: Store, run: RunId)
    ensures Moves(s, s, run, Still)
  {
  }

  lemma IntentMove(s: Store, run: RunId, item: string, id: ExecId, tool: string, op: OperationType, request: Payload,
                   now: real, cfg: Config, ck: string)
    requires cfg.dedup
    ensures var r := RecordToolIntent(s, run, item, id, tool, op, request, now, cfg, ck);
      r.Ok? ==> (
        && run in s.contexts && (id in s.records ==> r.value == s && s.records[id].run == run)
        && (r.value != s ==> Moves(s, r.value, run, Created(id, IntentRecord(run, item, tool, op, request, now)))))
  {
    hide RecordToolIntent;
    Effects.IntentEffect(s, run, item, id, tool, op, request, now, cfg, ck);
    var r := RecordToolIntent(s, run, item, id, tool, op, request, now, cfg, ck);
    if r.Ok? && r.value != s {
      OnlyRunMoves(s, r.value, run,
                   Effects.ViewOf(s, run).(pending := Context.PendingWith(Effects.PendingOf(s, run), id)));
    }
  }

  lemma DispatchMove(s: Store, run: RunId, id: ExecId, now: real, cfg: Config, ck: string)
    ensures var r := RecordToolDispatch(s, run, id, now, cfg, ck);
      && (r.Ok? ==>
            && id in s.records
            && Moves(s, r.value, run, Changed(id, s.records[id].(status := Dispatched, updatedAt := now), false)))
      && (id in s.records && s.records[id].run == run && run in s.contexts && s.records[id].status == IntentLogged ==>
          r.Ok?)
  {
    hide RecordToolDispatch;
    Effects.DispatchEffect(s, run, id, now, cfg, ck);
    var r := RecordToolDispatch(s, run, id, now, cfg, ck);
    if r.Ok? { OnlyRunMoves(s, r.value, run, Effects.ViewOf(s, run)); }
  }

  lemma ResultMove(s: Store, run: RunId, id: ExecId, args: ResultArgs, now: real, cfg: Config, ck: string)
    requires id in s.records && s.records[id].run == run
    ensures var r := RecordToolResult(s, run, id, args, now, cfg, ck);
      && (r.Ok? ==> exists x: ExternalResult :: Moves(s, r.value, run, Changed(id, x, ShouldClear(args)))
                      && x.status == ResolveStatus(args.status, args.result) && x.response == args.response)
      && (run in s.contexts && Allowed(s.records[id].status, ResolveStatus(args.status, args.result)) ==> r.Ok?)
  {
    hide RecordToolResult, ResolveStatus, ShouldClear;
    Effects.ResultEffect(s, run, id, args, now, cfg, ck);
    var r := RecordToolResult(s, run, id, args, now, cfg, ck);
    assert ResultRecordOf(Lookup(s.records, id), run, args, now).Ok?;
    if r.Ok? {
      var x := ResultRecordOf(Lookup(s.records, id), run, args, now).value;
      OnlyRunMoves(s, r.value, run,
                   Effects.ViewOf(s, run).(
                   pending := Effects.ClearedIf(Effects.PendingOf(s, run), id, ShouldClear(args))));
      assert Moves(s, r.value, run, Changed(id, x, ShouldClear(args)));
    }
  }

  // ---------------------------------------------------------------- the invariant

  predicate EverInvoked(marks: seq<Mark>, id: ExecId) {
    exists i :: 0 <= i < |marks| && marks[i].Invoked? && marks[i].id == id
  }

  predicate Absent(marks: seq<Mark>, id: ExecId) {
    exists i :: 0 <= i < |marks| && marks[i] == FoundAbsent(id)
  }

  /** The status a record has while its call is out. */
  function OutStatus(env: Env, c: ToolCall, replay: bool): ExecutionStatus {
    if replay then VerifiedNotFound else if MarksDispatch(c, env.dispatchReads) then Dispatched else IntentLogged
  }

  predicate Holds(s: Store, run: RunId, id: ExecId, status: ExecutionStatus) {
    id in s.records && s.records[id].run == run && s.records[id].status == status
  }

  predicate CallOk(env: Env, s: Store, marks: seq<Mark>, c: ToolCall, pc: Pc) {
    var id, run := IdOf(env, c), c.ident.run;
    match pc
    case AtLookup => true
    case AtIntent => id !in s.records
    case AtRecheck => id in s.records ==> Holds(s, run, id, IntentLogged) && !EverInvoked(marks, id)
    case AtDispatch => Holds(s, run, id, IntentLogged) && !EverInvoked(marks, id) && MarksDispatch(c, env.dispatchReads)
    case AtInvoke(replay) => Holds(s, run, id, OutStatus(env, c, replay)) && (!replay ==> !EverInvoked(marks, id))
    case AtAnswer(replay) => Holds(s, run, id, OutStatus(env, c, replay))
    case AtRecord(replay, _) => Holds(s, run, id, OutStatus(env, c, replay))
    case Returned(_) => true
    case Raised => true
  }

  predicate CandidateOk(s: Store, run: RunId, x: Candidate) {
    x.record.Some? ==> x.record.value.run == run && Lookup(s.records, x.id) == x.record
  }

  /** The first candidate is between its judgement and its repair; the others are as they were read. */
  predicate PassOk(s: Store, marks: seq<Mark>, p: Recovery.Pass, todo: seq<Candidate>, phase: Phase) {
    && p.run in s.contexts
    && (forall i, j :: 0 <= i < j < |todo| ==> todo[i].id != todo[j].id)
    && (forall i :: 1 <= i < |todo| ==> CandidateOk(s, p.run, todo[i]))
    && (todo != [] && todo[0].record.Some? ==>
          match phase
          case Judging => CandidateOk(s, p.run, todo[0])
          case Storing =>
            var found := Recovery.Finding(p, todo[0].id, todo[0].record.value);
            CandidateOk(s, p.run, todo[0]) && found.Some? && (!found.value ==> Absent(marks, todo[0].id))
          case Reconciling(r) => r.run == p.run && Lookup(s.records, todo[0].id) == Some(r) && IsCommitted(r.status))
  }

  predicate ProcOk(env: Env, s: Store, marks: seq<Mark>, p: Proc) {
    match p
    case Calling(c, pc) => CallOk(env, s, marks, c, pc)
    case Recovering(pass, todo, phase) => PassOk(s, marks, pass, todo, phase)
  }

  /** Calls already made before the verifier proved absence are never repeated, and a repetition starts from that
      proof. */
  predicate Authorized(marks: seq<Mark>) {
    forall i, j :: 0 <= i < j < |marks| && marks[i].Invoked? && marks[j].Invoked? && marks[i].id == marks[j].id ==>
      marks[j].status == VerifiedNotFound && Absent(marks[..j], marks[j].id)
  }

  ghost predicate RecordsOk(s: Store, marks: seq<Mark>) {
    && (forall id :: EverInvoked(marks, id) ==> id in s.records)
    && (forall id :: id in s.records ==> s.records[id].run in s.contexts)
    && (forall id :: id in s.records && s.records[id].status == VerifiedNotFound ==> Absent(marks, id))
  }

  /** The record of a call belongs to the run of the call. */
  ghost predicate Owned(env: Env, s: Store, calls: set<ToolCall>) {
    forall c :: c in calls && IdOf(env, c) in s.records ==> s.records[IdOf(env, c)].run == c.ident.run
  }

  predicate OneProcPerRun(procs: map<nat, Proc>) {
    forall p, q :: p in procs && q in procs && RunOf(procs[p]) == RunOf(procs[q]) ==> p == q
  }

  ghost predicate Inv(env: Env, s: Sys, calls: set<ToolCall>) {
    && RecordsOk(s.store, s.marks) && Owned(env, s.store, calls)
    && Authorized(s.marks)
    && OneProcPerRun(s.procs)
    && (forall pid :: pid in s.procs ==>
          ProcOk(env, s.store, s.marks, s.procs[pid]) && (s.procs[pid].Calling? ==> s.procs[pid].call in calls))
  }

  // ---------------------------------------------------------------- one step keeps it

  /** The place of a status on every path that calls and passes take. */
  function Rank(s: ExecutionStatus): nat {
    match s
    case IntentLogged => 0
    case Dispatched => 1
    case VerifiedNotFound => 2
    case _ => 3
  }

  /** Only open records are touched, their rank never falls, and an id leaves the pending list just when it is
      closed. */
  predicate SoundMove(s: Store, m: Move) {
    m.Changed? ==> (
      && m.id in s.records && IsOpen(s.records[m.id].status)
      && (m.r.status == s.records[m.id].status || Rank(m.r.status) > Rank(s.records[m.id].status))
      && (m.cleared <==> !IsOpen(m.r.status)))
  }

  lemma MarkAdded(marks: seq<Mark>, more: Mark, id: ExecId)
    ensures EverInvoked(marks + [more], id) <==> EverInvoked(marks, id) || (more.Invoked? && more.id == id)
    ensures Absent(marks + [more], id) <==> Absent(marks, id) || more == FoundAbsent(id)
  {
    var all := marks + [more];
    assert all[|marks|] == more;
    if EverInvoked(marks, id) {
      var i :| 0 <= i < |marks| && marks[i].Invoked? && marks[i].id == id;
      assert all[i] == marks[i];
    }
    if Absent(marks, id) { var i :| 0 <= i < |marks| && marks[i] == FoundAbsent(id); assert all[i] == marks[i]; }
  }

  /** Marks of a step: none, a call by `mover`, or a proof of absence. */
  predicate MarksStep(env: Env, marks: seq<Mark>, after: seq<Mark>, mover: Option<ToolCall>) {
    || after == marks
    || (|after| == |marks| + 1 && after[..|marks|] == marks
        && (after[|marks|].Invoked? ==> mover.Some? && after[|marks|].id == IdOf(env, mover.value)))
  }

  lemma MarksMonotone(env: Env, marks: seq<Mark>, after: seq<Mark>, mover: Option<ToolCall>, id: ExecId)
    requires MarksStep(env, marks, after, mover)
    ensures Absent(marks, id) ==> Absent(after, id)
    ensures EverInvoked(after, id) ==> EverInvoked(marks, id) || (mover.Some? && id == IdOf(env, mover.value))
  {
    if after != marks {
      assert after == marks + [after[|marks|]];
      MarkAdded(marks, after[|marks|], id);
    }
  }

  /** A process of another run does not notice. */
  lemma OthersUndisturbed(env: Env, calls: set<ToolCall>, s: Store, t: Store, marks: seq<Mark>, after: seq<Mark>,
                          run: RunId, m: Move,
                          mover: Option<ToolCall>, q: Proc)
    requires WellNamed(env, calls) && ProcOk(env, s, marks, q) && RunOf(q) != run && (q.Calling? ==> q.call in calls)
    requires Moves(s, t, run, m) && MarksStep(env, marks, after, mover)
    requires mover.Some? ==> mover.value in calls && mover.value.ident.run == run
    requires m.Created? ==> mover.Some? && m.id == IdOf(env, mover.value)
    ensures ProcOk(env, t, after, q)
  {
    hide IdOf, WellNamed, PendingBecomes, Recovery.Finding;
    if q.Calling? {
      if mover.Some? { SameIdSameCall(env, calls, mover.value, q.call); }
      MarksMonotone(env, marks, after, mover, IdOf(env, q.call));
    } else {
      if q.todo != [] { MarksMonotone(env, marks, after, mover, q.todo[0].id); }
      forall i | 0 <= i < |q.todo| && CandidateOk(s, q.pass.run, q.todo[i])
        ensures CandidateOk(t, q.pass.run, q.todo[i])
      {}
    }
  }

  lemma RecordsStayOk(env: Env, s: Store, t: Store, marks: seq<Mark>, after: seq<Mark>, run: RunId, m: Move,
                      mover: Option<ToolCall>)
    requires RecordsOk(s, marks) && Moves(s, t, run, m) && MarksStep(env, marks, after, mover)
    requires mover.Some? && after != marks ==> IdOf(env, mover.value) in s.records
    requires m.Changed? && m.r.status == VerifiedNotFound ==> Absent(after, m.id)
    ensures RecordsOk(t, after)
  {
    hide IdOf, PendingBecomes;
    forall id
      ensures (EverInvoked(after, id) ==> id in t.records)
        && (id in t.records && t.records[id].status == VerifiedNotFound ==> Absent(after, id))
    {
      MarksMonotone(env, marks, after, mover, id);
    }
  }

  /** One step of a call. */
  lemma CallStep(env: Env, s: Store, marks: seq<Mark>, c: ToolCall, pc: Pc, answer: Answer, now: real, ck: string)
    returns (m: Move)
    requires env.cfg.dedup && RecordsOk(s, marks) && CallOk(env, s, marks, c, pc)
    requires IdOf(env, c) in s.records ==> s.records[IdOf(env, c)].run == c.ident.run
    ensures var (t, next) := Step(s, IdOf(env, c), c, pc, answer, env.dispatchReads, env.cfg, now, ck);
      && Moves(s, t, c.ident.run, m) && SoundMove(s, m)
      && (m.Created? || m.Changed? ==> m.id == IdOf(env, c))
      && (m.Changed? && m.r.status == VerifiedNotFound ==> s.records[m.id].status == VerifiedNotFound)
      && (pc.AtDispatch? ==> !next.Raised?) && (pc.AtRecord? ==> !next.Raised?)
      && (!pc.AtInvoke? ==> CallOk(env, t, marks, c, next))
  {
    var id, run := IdOf(env, c), c.ident.run;
    m := Still;
    hide IdOf, RecordToolIntent, RecordToolDispatch, RecordToolResult, AnswerArgs, HandleExisting;
    match pc
    case AtIntent =>
      IntentMove(s, run, c.ident.item, id, c.ident.tool, c.op, c.ident.args, now, env.cfg, ck);
      var r := RecordToolIntent(s, run, c.ident.item, id, c.ident.tool, c.op, c.ident.args, now, env.cfg, ck);
      if r.Ok? && r.value != s {
        m := Created(id, IntentRecord(run, c.ident.item, c.ident.tool, c.op, c.ident.args, now));
      }
    case AtDispatch =>
      DispatchMove(s, run, id, now, env.cfg, ck);
      m := Changed(id, s.records[id].(status := Dispatched, updatedAt := now), false);
    case AtRecord(replay, a) =>
      m := RecordStep(env, s, c, replay, a, now, ck);
    case _ =>
  }

  /** The last durable step of a call always succeeds. */
  lemma RecordStep(env: Env, s: Store, c: ToolCall, replay: bool, a: Answer, now: real, ck: string) returns (m: Move)
    requires Holds(s, c.ident.run, IdOf(env, c), OutStatus(env, c, replay)) && c.ident.run in s.contexts
    ensures var r := RecordToolResult(s, c.ident.run, IdOf(env, c), AnswerArgs(c, replay, a), now, env.cfg, ck);
      && r.Ok? && Moves(s, r.value, c.ident.run, m) && SoundMove(s, m) && m.Changed? && m.id == IdOf(env, c)
      && (m.r.status == VerifiedNotFound ==> s.records[m.id].status == VerifiedNotFound)
  {
    var id, run, args := IdOf(env, c), c.ident.run, AnswerArgs(c, replay, a);
    hide IdOf, RecordToolResult, Moves;
    ResultMove(s, run, id, args, now, env.cfg, ck);
    var t := RecordToolResult(s, run, id, args, now, env.cfg, ck).value;
    var x: ExternalResult :|
      && Moves(s, t, run, Changed(id, x, ShouldClear(args)))
      && x.status == ResolveStatus(args.status, args.result) && x.response == args.response;
    m := Changed(id, x, ShouldClear(args));
  }

  /** One step of a pass. It cannot fail either. */
  lemma PassStep(env: Env, s: Sys, pid: nat, p: Recovery.Pass, todo: seq<Candidate>, phase: Phase, now: real,
                 ck: string)
    returns (m: Move)
    requires todo != [] && PassOk(s.store, s.marks, p, todo, phase)
    ensures var t := AdvancePass(env, s, pid, p, todo, phase, now, ck);
      && Moves(s.store, t.store, p.run, m) && SoundMove(s.store, m) && !m.Created?
      && MarksStep(env, s.marks, t.marks, None)
      && (m.Changed? && m.r.status == VerifiedNotFound ==> Absent(t.marks, m.id))
      && pid in t.procs && t.procs == s.procs[pid := t.procs[pid]]
      && t.procs[pid].Recovering? && t.procs[pid].pass == p
      && PassOk(t.store, t.marks, p, t.procs[pid].todo, t.procs[pid].phase)
  {
    m := Still;
    StillMove(s.store, p.run);
    if todo[0].record.Some? {
      match phase
      case Judging => JudgeStep(env, s, pid, p, todo, now, ck);
      case Storing => m := StoreStep(env, s, pid, p, todo, now, ck);
      case Reconciling(r) => RepairStep(env, s, pid, p, todo, r, now, ck);
    } else {
      DroppedOk(s.store, s.marks, p, todo, phase);
    }
  }

  lemma DroppedOk(s: Store, marks: seq<Mark>, p: Recovery.Pass, todo: seq<Candidate>, phase: Phase)
    requires todo != [] && PassOk(s, marks, p, todo, phase)
    ensures PassOk(s, marks, p, todo[1..], Judging)
  {
    hide Recovery.Finding, CandidateOk;
    forall i | 0 <= i < |todo[1..]| ensures CandidateOk(s, p.run, todo[1..][i]) {}
  }

  lemma JudgeStep(env: Env, s: Sys, pid: nat, p: Recovery.Pass, todo: seq<Candidate>, now: real, ck: string)
    requires todo != [] && todo[0].record.Some? && PassOk(s.store, s.marks, p, todo, Judging)
    ensures var t := AdvancePass(env, s, pid, p, todo, Judging, now, ck);
      && t.store == s.store && MarksStep(env, s.marks, t.marks, None)
      && pid in t.procs && t.procs == s.procs[pid := t.procs[pid]]
      && t.procs[pid].Recovering? && t.procs[pid].pass == p
      && PassOk(t.store, t.marks, p, t.procs[pid].todo, t.procs[pid].phase)
  {
    hide Recovery.Finding;
    DroppedOk(s.store, s.marks, p, todo, Judging);
    MarkAdded(s.marks, FoundAbsent(todo[0].id), todo[0].id);
  }

  lemma StoreStep(env: Env, s: Sys, pid: nat, p: Recovery.Pass, todo: seq<Candidate>, now: real, ck: string)
    returns (m: Move)
    requires todo != [] && todo[0].record.Some? && PassOk(s.store, s.marks, p, todo, Storing)
    ensures var t := AdvancePass(env, s, pid, p, todo, Storing, now, ck);
      && Moves(s.store, t.store, p.run, m) && SoundMove(s.store, m) && m.Changed?
      && t.marks == s.marks && (m.r.status == VerifiedNotFound ==> Absent(t.marks, m.id))
      && pid in t.procs && t.procs == s.procs[pid := t.procs[pid]]
      && t.procs[pid].Recovering? && t.procs[pid].pass == p
      && PassOk(t.store, t.marks, p, t.procs[pid].todo, t.procs[pid].phase)
  {
    var id, read := todo[0].id, todo[0].record.value;
    var args := Recovery.FindingArgs(p, id, read);
    Recovery.SettledArgs(p, id, read, now);
    FindingStatus(p, id, read);
    assert Lookup(s.store.records, id) == Some(read) && read.run == p.run && p.run in s.store.contexts;
    assert !Recovery.Finding(p, id, read).value ==> Absent(s.marks, id);
    hide Recovery.Finding, Recovery.FindingArgs, RecordToolResult, ShouldClear, ResolveStatus, Moves, PassOk;
    ResultMove(s.store, p.run, id, args, now, env.cfg, ck);
    var u := RecordToolResult(s.store, p.run, id, args, now, env.cfg, ck).value;
    var x: ExternalResult :|
      && Moves(s.store, u, p.run, Changed(id, x, ShouldClear(args)))
      && x.status == ResolveStatus(args.status, args.result) && x.response == args.response;
    m := Changed(id, x, ShouldClear(args));
    StoredOk(s.store, u, s.marks, p, todo, x, m);
  }

  lemma FindingStatus(p: Recovery.Pass, id: ExecId, r: ExternalResult)
    requires Recovery.Finding(p, id, r).Some?
    ensures var a := Recovery.FindingArgs(p, id, r);
      ResolveStatus(a.status, a.result) == if Recovery.Finding(p, id, r).value then VerifiedCommitted
        else VerifiedNotFound
  {
    hide Recovery.VerifiedPayload;
  }

  lemma StoredOk(s: Store, t: Store, marks: seq<Mark>, p: Recovery.Pass, todo: seq<Candidate>, x: ExternalResult,
                 m: Move)
    requires todo != [] && todo[0].record.Some? && PassOk(s, marks, p, todo, Storing)
    requires m.Changed? && m.id == todo[0].id && m.r == x && Moves(s, t, p.run, m)
    ensures todo[0].id in t.records && t.records[todo[0].id] == x
    ensures IsCommitted(x.status) ==> PassOk(t, marks, p, todo, Reconciling(x))
    ensures PassOk(t, marks, p, todo[1..], Judging)
  {
    hide Recovery.Finding, PendingBecomes;
    forall i | 1 <= i < |todo| ensures CandidateOk(t, p.run, todo[i]) { assert CandidateOk(s, p.run, todo[i]); }
    forall i | 0 <= i < |todo[1..]| ensures CandidateOk(t, p.run, todo[1..][i]) {
      assert CandidateOk(s, p.run, todo[i + 1]);
    }
  }

  lemma RepairStep(env: Env, s: Sys, pid: nat, p: Recovery.Pass, todo: seq<Candidate>, r: ExternalResult, now: real,
                   ck: string)
    requires todo != [] && todo[0].record.Some? && PassOk(s.store, s.marks, p, todo, Reconciling(r))
    ensures var t := AdvancePass(env, s, pid, p, todo, Reconciling(r), now, ck);
      && Moves(s.store, t.store, p.run, Still) && t.marks == s.marks
      && pid in t.procs && t.procs == s.procs[pid := t.procs[pid]]
      && t.procs[pid].Recovering? && t.procs[pid].pass == p
      && PassOk(t.store, t.marks, p, t.procs[pid].todo, t.procs[pid].phase)
  {
    hide Recovery.Finding, RecordContextMessage, Recovery.ToolMessage, Recovery.HasToolMessage, Context.Validate;
    StillMove(s.store, p.run);
    DroppedOk(s.store, s.marks, p, todo, Reconciling(r));
    if r.response.Some? {
      var message := Recovery.ToolMessage(todo[0].id, r);
      Recovery.ToolMessageClean(todo[0].id, r);
      Effects.MessageEffect(s.store, p.run, message, env.cfg, ck);
      var u := RecordContextMessage(s.store, p.run, message, env.cfg, ck).value;
      OnlyRunMoves(s.store, u, p.run,
                   Effects.ViewOf(s.store, p.run).(
                   messages := Effects.MessagesOf(s.store, p.run) + [Context.Validate(message).value]));
      SameRecordsOk(s.store, u, s.marks, p, todo[1..]);
    }
  }

  lemma SameRecordsOk(s: Store, t: Store, marks: seq<Mark>, p: Recovery.Pass, todo: seq<Candidate>)
    requires PassOk(s, marks, p, todo, Judging) && t.records == s.records && p.run in t.contexts
    ensures PassOk(t, marks, p, todo, Judging)
  {
    hide Recovery.Finding;
    forall i | 0 <= i < |todo| ensures CandidateOk(t, p.run, todo[i]) { assert CandidateOk(s, p.run, todo[i]); }
  }

  // ---------------------------------------------------------------- every action keeps it

  lemma OwnedStays(env: Env, calls: set<ToolCall>, s: Store, t: Store, run: RunId, m: Move, mover: Option<ToolCall>)
    requires WellNamed(env, calls) && Owned(env, s, calls) && Moves(s, t, run, m)
    requires mover.Some? ==> mover.value in calls && mover.value.ident.run == run
    requires m.Created? ==> mover.Some? && m.id == IdOf(env, mover.value)
    ensures Owned(env, t, calls)
  {
    hide IdOf, WellNamed, PendingBecomes;
    forall c | c in calls && IdOf(env, c) in t.records ensures t.records[IdOf(env, c)].run == c.ident.run {
      if m.Created? && IdOf(env, c) == m.id { SameIdSameCall(env, calls, c, mover.value); }
    }
  }

  /** A step of one process, seen from the whole system. */
  lemma ProcStepKeeps(env: Env, calls: set<ToolCall>, s: Sys, t: Sys, pid: nat, m: Move, mover: Option<ToolCall>)
    requires WellNamed(env, calls) && Inv(env, s, calls) && pid in s.procs
    requires Moves(s.store, t.store, RunOf(s.procs[pid]), m) && MarksStep(env, s.marks, t.marks, mover)
    requires mover.Some? ==> mover.value in calls && mover.value.ident.run == RunOf(s.procs[pid])
    requires mover.Some? && t.marks != s.marks ==> IdOf(env, mover.value) in s.store.records
    requires m.Created? ==> mover.Some? && m.id == IdOf(env, mover.value)
    requires m.Changed? && m.r.status == VerifiedNotFound ==> Absent(t.marks, m.id)
    requires Authorized(t.marks)
    requires pid in t.procs && t.procs == s.procs[pid := t.procs[pid]] && RunOf(t.procs[pid]) == RunOf(s.procs[pid])
    requires ProcOk(env, t.store, t.marks, t.procs[pid]) && (t.procs[pid].Calling? ==> t.procs[pid].call in calls)
    ensures Inv(env, t, calls)
  {
    hide ProcOk, RecordsOk, Owned, Authorized, MarksStep, Moves, IdOf, WellNamed;
    var run := RunOf(s.procs[pid]);
    RecordsStayOk(env, s.store, t.store, s.marks, t.marks, run, m, mover);
    OwnedStays(env, calls, s.store, t.store, run, m, mover);
    forall q | q in t.procs
      ensures ProcOk(env, t.store, t.marks, t.procs[q]) && (t.procs[q].Calling? ==> t.procs[q].call in calls)
    {
      if q != pid {
        OthersUndisturbed(env, calls, s.store, t.store, s.marks, t.marks, run, m, mover, s.procs[q]);
      }
    }
  }

  lemma CallActionKeeps(env: Env, calls: set<ToolCall>, s: Sys, pid: nat, answer: Answer, now: real, ck: string)
    returns (m: Move)
    requires env.cfg.dedup && WellNamed(env, calls) && Inv(env, s, calls) && pid in s.procs && s.procs[pid].Calling?
    ensures var t := Next(env, s, Advance(pid, answer, now, ck));
      Inv(env, t, calls) && Moves(s.store, t.store, RunOf(s.procs[pid]), m) && SoundMove(s.store, m)
  {
    var c, pc := s.procs[pid].call, s.procs[pid].pc;
    var t := AdvanceCall(env, s, pid, c, pc, answer, now, ck);
    m := CallMoves(env, calls, s, pid, c, pc, answer, now, ck);
    hide AdvanceCall, IdOf, ProcOk, RecordsOk, Owned, Moves, WellNamed, SoundMove, MarksStep, Authorized;
    ProcStepKeeps(env, calls, s, t, pid, m, Some(c));
  }

  lemma CallMoves(env: Env, calls: set<ToolCall>, s: Sys, pid: nat, c: ToolCall, pc: Pc, answer: Answer, now: real,
                  ck: string) returns (m: Move)
    requires env.cfg.dedup && Inv(env, s, calls) && pid in s.procs && s.procs[pid] == Calling(c, pc)
    ensures var t := AdvanceCall(env, s, pid, c, pc, answer, now, ck);
      && Moves(s.store, t.store, c.ident.run, m) && SoundMove(s.store, m)
      && MarksStep(env, s.marks, t.marks, Some(c)) && Authorized(t.marks)
      && (t.marks != s.marks ==> IdOf(env, c) in s.store.records)
      && (m.Created? ==> m.id == IdOf(env, c))
      && (m.Changed? && m.r.status == VerifiedNotFound ==> Absent(t.marks, m.id))
      && pid in t.procs && t.procs == s.procs[pid := t.procs[pid]] && t.procs[pid].Calling? && t.procs[pid].call == c
      && ProcOk(env, t.store, t.marks, t.procs[pid])
  {
    assert ProcOk(env, s.store, s.marks, s.procs[pid]) && c in calls;
    assert RecordsOk(s.store, s.marks) && Authorized(s.marks) && Owned(env, s.store, calls);
    hide Inv, IdOf, WellNamed, Moves, SoundMove, Step, Authorized;
    m := CallStep(env, s.store, s.marks, c, pc, answer, now, ck);
    if pc.AtInvoke? {
      InvokeMark(env, s.store, s.marks, c, pc.replay);
      InvokeOnly(s.store, IdOf(env, c), c, pc.replay, answer, env.dispatchReads, env.cfg, now, ck);
    }
    if m.Changed? && m.r.status == VerifiedNotFound {
      MarksMonotone(env, s.marks, AdvanceCall(env, s, pid, c, pc, answer, now, ck).marks, Some(c), m.id);
    }
  }

  lemma InvokeOnly(s: Store, id: ExecId, c: ToolCall, replay: bool, answer: Answer, dispatchReads: bool, cfg: Config,
                   now: real, ck: string)
    ensures Step(s, id, c, AtInvoke(replay), answer, dispatchReads, cfg, now, ck) == (s, AtAnswer(replay))
  {
  }

  /** The external call: the only step that is remembered outside the store. */
  lemma InvokeMark(env: Env, s: Store, marks: seq<Mark>, c: ToolCall, replay: bool)
    requires RecordsOk(s, marks) && Authorized(marks) && CallOk(env, s, marks, c, AtInvoke(replay))
    ensures var after := marks + [Invoked(IdOf(env, c), StatusOf(s, IdOf(env, c)))];
      Authorized(after) && MarksStep(env, marks, after, Some(c)) && CallOk(env, s, after, c, AtAnswer(replay))
  {
    hide IdOf;
    var after := marks + [Invoked(IdOf(env, c), StatusOf(s, IdOf(env, c)))];
    assert after[..|marks|] == marks;
    forall i, j | 0 <= i < j < |after| && after[i].Invoked? && after[j].Invoked? && after[i].id == after[j].id
      ensures after[j].status == VerifiedNotFound && Absent(after[..j], after[j].id)
    {
      if j < |marks| {
        assert after[..j] == marks[..j];
      } else {
        assert marks[i] == after[i] && EverInvoked(marks, IdOf(env, c));
      }
    }
  }

  lemma PassActionKeeps(env: Env, calls: set<ToolCall>, s: Sys, pid: nat, answer: Answer, now: real, ck: string)
    returns (m: Move)
    requires WellNamed(env, calls) && Inv(env, s, calls) && pid in s.procs && s.procs[pid].Recovering?
      && s.procs[pid].todo != []
    ensures var t := Next(env, s, Advance(pid, answer, now, ck));
      Inv(env, t, calls) && Moves(s.store, t.store, RunOf(s.procs[pid]), m) && SoundMove(s.store, m)
  {
    var p := s.procs[pid];
    var t := Next(env, s, Advance(pid, answer, now, ck));
    assert ProcOk(env, s.store, s.marks, p);
    m := PassStep(env, s, pid, p.pass, p.todo, p.phase, now, ck);
    AbsenceAuthorized(env, s.marks, t.marks);
    hide AdvancePass, RecordsOk, Owned, Moves, WellNamed, SoundMove, PassOk, Authorized;
    ProcStepKeeps(env, calls, s, t, pid, m, None);
  }

  lemma AbsenceAuthorized(env: Env, marks: seq<Mark>, after: seq<Mark>)
    requires Authorized(marks) && MarksStep(env, marks, after, None)
    ensures Authorized(after)
  {
    hide IdOf;
    if after != marks {
      forall i, j | 0 <= i < j < |after| && after[i].Invoked? && after[j].Invoked? && after[i].id == after[j].id
        ensures after[j].status == VerifiedNotFound && Absent(after[..j], after[j].id)
      {
        assert marks[i] == after[i] && marks[j] == after[j] && after[..j] == marks[..j];
      }
    }
  }

  lemma ProcAdded(env: Env, calls: set<ToolCall>, s: Sys, pid: nat, p: Proc)
    requires Inv(env, s, calls) && Idle(s, RunOf(p)) && ProcOk(env, s.store, s.marks, p)
      && (p.Calling? ==> p.call in calls)
    ensures Inv(env, s.(procs := s.procs[pid := p]), calls)
  {
    hide RecordsOk, Owned, Authorized, ProcOk;
  }

  lemma BeginKeeps(env: Env, calls: set<ToolCall>, s: Sys, a: ActionKind)
    requires env.single && Inv(env, s, calls) && (a.Begin? || a.BeginRecovery?) && (a.Begin? ==> a.call in calls)
    ensures Inv(env, Next(env, s, a), calls) && Next(env, s, a).store == s.store && Next(env, s, a).marks == s.marks
  {
    hide Inv, IdOf, CallOk, PassOk, Recovery.Candidates, Snapshot, Sorted, Idle;
    if a.Begin? {
      LookupOk(env, s.store, s.marks, a.call);
      if Admits(env, s, a.pid, a.call.ident.run) { ProcAdded(env, calls, s, a.pid, Calling(a.call, AtLookup)); }
    } else if Admits(env, s, a.pid, a.pass.run) && a.pass.run in s.store.contexts {
      SnapshotOk(s.store, s.marks, a.pass);
      ProcAdded(env, calls, s, a.pid,
                Recovering(a.pass, Snapshot(s.store, a.pass.run, Sorted(Recovery.Candidates(s.store, a.pass.run))),
                           Judging));
    }
  }

  lemma LookupOk(env: Env, s: Store, marks: seq<Mark>, c: ToolCall)
    ensures CallOk(env, s, marks, c, AtLookup)
  {
  }

  lemma SnapshotOk(s: Store, marks: seq<Mark>, p: Recovery.Pass)
    requires p.run in s.contexts
    ensures PassOk(s, marks, p, Snapshot(s, p.run, Sorted(Recovery.Candidates(s, p.run))), Judging)
  {
    hide Recovery.Candidates, Recovery.Finding;
    var ids := Sorted(Recovery.Candidates(s, p.run));
    var todo := Snapshot(s, p.run, ids);
    forall i | 0 <= i < |todo| ensures CandidateOk(s, p.run, todo[i]) {}
  }

  /** Facade operations outside calls and passes leave every record alone. */
  lemma StandaloneEffect(s: Store, op: Op, now: real, cfg: Config, ck: string)
    requires Standalone(op)
    ensures var t := After(s, Stamped(op, now, ck), cfg);
      && t.records == s.records && s.contexts.Keys <= t.contexts.Keys
      && (!op.OpStart? ==> PendingBecomes(s, t, op.run, Effects.PendingOf(s, op.run)))
      && (op.OpStart? && (!op.force || op.run !in s.contexts) ==>
          PendingBecomes(s, t, op.run, Effects.PendingOf(s, op.run)))
      && PendingBecomes(s, t, op.run, Effects.PendingOf(t, op.run))
      && (Effects.PendingOf(t, op.run) == Effects.PendingOf(s, op.run) || Effects.PendingOf(t, op.run) == [])
  {
    hide StartRun, RecordContextMessage, RecordLlmTurn, AdvancePlanItem, SetActivePlanItem, WriteCheckpoint,
         Context.Validate, Context.ValidateAll;
    var t := After(s, Stamped(op, now, ck), cfg);
    if op.OpStart? { Effects.StartEffect(s, op, now, cfg, ck); }
    else if op.OpMessage? { Effects.MessageEffect(s, op.run, op.message, cfg, ck); }
    else if op.OpLlmTurn? { Effects.TurnEffect(s, op, now, cfg, ck); }
    else { Effects.PlanOpEffect(s, op, now, cfg, ck); }
    hide Perform;
    forall q ensures (q in s.contexts.Keys ==> q in t.contexts.Keys)
      && (q != op.run || !op.OpStart? || !op.force || op.run !in s.contexts ==>
          Effects.PendingOf(t, q) == Effects.PendingOf(s, q))
    {
      assert Effects.ViewOf(t, q).known == (q in t.contexts) && Effects.ViewOf(s, q).known == (q in s.contexts);
      assert Effects.ViewOf(t, q).pending == Effects.PendingOf(t, q)
        && Effects.ViewOf(s, q).pending == Effects.PendingOf(s, q);
    }
  }
}
