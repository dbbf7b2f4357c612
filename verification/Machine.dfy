/** The whole system as a state machine: any number of processes executing and recovering, crashes between any two
    durable steps, requests that arrive late or twice, and other clients of the target. */
module Machine {
  import opened Prelude
  import opened Models
  import opened Facade
  import opened Executor
  import Adapter
  import Identity
  import Recovery
  import Target

  /** What never changes. With `single`, a process is admitted to a run only while no other process works on it. */
  datatype Env = Env(cfg: Config, dispatchReads: bool, digest: string -> string, fp: Target.FloatPlus, single: bool)

  /** A candidate of a recovery pass with the record that was read when the pass began. */
  datatype Candidate = Candidate(id: ExecId, record: Option<ExternalResult>)

  datatype Phase = Judging | Storing | Reconciling(record: ExternalResult)

  datatype Proc =
    | Calling(call: ToolCall, pc: Pc)
    | Recovering(pass: Recovery.Pass, todo: seq<Candidate>, phase: Phase)

  /** Ghost history: external calls with the status their record had, and proofs of absence by the verifier. */
  datatype Mark = Invoked(id: ExecId, status: ExecutionStatus) | FoundAbsent(id: ExecId)

  /** The store is durable, the processes are not. `sent` are the writes that were put on the wire with their id;
      `served` is everything the target was given, in order. */
  datatype Sys = Sys(
    store: Store,
    target: Target.Data,
    sent: set<ToolCall>,
    served: seq<Target.Request>,
    procs: map<nat, Proc>,
    marks: seq<Mark>)

  datatype ActionKind =
    | Begin(pid: nat, call: ToolCall)
    | BeginRecovery(pid: nat, pass: Recovery.Pass)
    | Advance(pid: nat, answer: Answer, now: real, ck: string)
    | Deliver(call: ToolCall, receipt: Target.Receipt)
    | Foreign(request: Target.Request)
    | End(pid: nat)
    | Work(op: Op, now: real, ck: string)

  function IdOf(env: Env, c: ToolCall): ExecId { Identity.BuildId(env.digest, c.ident) }

  function RunOf(p: Proc): RunId { if p.Calling? then p.call.ident.run else p.pass.run }

  predicate Idle(s: Sys, run: RunId) { forall pid :: pid in s.procs ==> RunOf(s.procs[pid]) != run }

  predicate Admits(env: Env, s: Sys, pid: nat, run: RunId) { pid !in s.procs && (env.single ==> Idle(s, run)) }

  /** A write whose request carries its execution id. */
  predicate OnTheWire(env: Env, c: ToolCall) {
    ForwardedId(c, IdOf(env, c)).Some? && c.ident.tool == "apply-action"
  }

  function StatusOf(s: Store, id: ExecId): ExecutionStatus {
    if id in s.records then s.records[id].status else IntentLogged
  }

  function AdvanceCall(env: Env, s: Sys, pid: nat, c: ToolCall, pc: Pc, answer: Answer, now: real, ck: string): Sys {
    var (t, next) := Step(s.store, IdOf(env, c), c, pc, answer, env.dispatchReads, env.cfg, now, ck);
    var moved := s.(store := t, procs := s.procs[pid := Calling(c, next)]);
    if pc.AtInvoke? then
      moved.(marks := s.marks + [Invoked(IdOf(env, c), StatusOf(s.store, IdOf(env, c)))],
             sent := if OnTheWire(env, c) then s.sent + {c} else s.sent)
    else moved
  }

  /** One step of a pass on its first candidate: judge, store what the probe found, repair the history. */
  function AdvancePass(env: Env, s: Sys, pid: nat, p: Recovery.Pass, todo: seq<Candidate>, phase: Phase, now: real,
                       ck: string): Sys
    requires todo != []
  {
    var id, read := todo[0].id, todo[0].record;
    var next := s.(procs := s.procs[pid := Recovering(p, todo[1..], Judging)]);
    var gone := s.(procs := s.procs - {pid});
    if read.None? then next
    else
      match phase
      case Judging =>
        var found := Recovery.Finding(p, id, read.value);
        if found.Some? then
          s.(procs := s.procs[pid := Recovering(p, todo, Storing)],
             marks := if found.value then s.marks else s.marks + [FoundAbsent(id)])
        else if IsCommitted(read.value.status) then
          s.(procs := s.procs[pid := Recovering(p, todo, Reconciling(read.value))])
        else next
      case Storing =>
        if Recovery.Finding(p, id, read.value).None? then gone
        else
          (match RecordToolResult(s.store, p.run, id, Recovery.FindingArgs(p, id, read.value), now, env.cfg, ck)
           case Err(_) => gone
           case Ok(t) =>
             if IsCommitted(StatusOf(t, id)) && id in t.records
             then s.(store := t, procs := s.procs[pid := Recovering(p, todo, Reconciling(t.records[id]))])
             else next.(store := t))
      case Reconciling(record) =>
        if record.response.None? || p.run !in s.store.contexts
          || Recovery.HasToolMessage(s.store.contexts[p.run].messages, id) then
          next
        else
          match RecordContextMessage(s.store, p.run, Recovery.ToolMessage(id, record), env.cfg, ck)
          case Err(_) => gone
          case Ok(t) => next.(store := t)
  }

  function Snapshot(s: Store, run: RunId, ids: seq<ExecId>): (r: seq<Candidate>)
    ensures |r| == |ids| && forall i :: 0 <= i < |ids| ==> r[i].id == ids[i]
  {
    seq(|ids|, i requires 0 <= i < |ids| =>
      Candidate(ids[i], if ids[i] in s.records && s.records[ids[i]].run == run then Some(s.records[ids[i]]) else None))
  }

  /** Facade operations that are not part of a call or of a pass. */
  predicate Standalone(op: Op) { !op.OpIntent? && !op.OpDispatch? && !op.OpResult? }

  /** An action that is not possible in `s` changes nothing. */
  function Next(env: Env, s: Sys, a: ActionKind): Sys {
    match a
    case Begin(pid, call) =>
      if Admits(env, s, pid, call.ident.run) then s.(procs := s.procs[pid := Calling(call, AtLookup)]) else s
    case BeginRecovery(pid, pass) =>
      if Admits(env, s, pid, pass.run) && pass.run in s.store.contexts
      then
        var ids := Sorted(Recovery.Candidates(s.store, pass.run));
        s.(procs := s.procs[pid := Recovering(pass, Snapshot(s.store, pass.run, ids), Judging)])
      else s
    case Advance(pid, answer, now, ck) =>
      if pid !in s.procs then s
      else
        (match s.procs[pid]
         case Calling(c, pc) => AdvanceCall(env, s, pid, c, pc, answer, now, ck)
         case Recovering(p, todo, phase) => if todo == [] then s else AdvancePass(env, s, pid, p, todo, phase, now, ck))
    case Deliver(call, receipt) =>
      if call !in s.sent then s
      else
        (match Adapter.ActionRequest(call.ident.args, IdOf(env, call), receipt)
         case Err(_) => s
         case Ok(r) => s.(target := Target.Serve(s.target, r, env.fp).0, served := s.served + [r]))
    case Foreign(r) => s.(target := Target.Serve(s.target, r, env.fp).0, served := s.served + [r])
    case End(pid) => s.(procs := s.procs - {pid})
    case Work(op, now, ck) =>
      if Standalone(op) && (env.single ==> Idle(s, op.run)) then
        s.(store := After(s.store, Stamped(op, now, ck), env.cfg))
      else s
  }

  function Run(env: Env, s: Sys, actions: seq<ActionKind>): Sys {
    if actions == [] then s else Next(env, Run(env, s, actions[..|actions| - 1]), actions[|actions| - 1])
  }

  lemma {:induction false} RunConcat(env: Env, s: Sys, a: seq<ActionKind>, b: seq<ActionKind>)
    ensures Run(env, s, a + b) == Run(env, Run(env, s, a), b)
  {
    hide Next;
    if b == [] {
      assert a + b == a;
    } else {
      assert (a + b)[..|a + b| - 1] == a + b[..|b| - 1];
      RunConcat(env, s, a, b[..|b| - 1]);
    }
  }

  lemma {:induction false} RunPair(env: Env, s: Sys, a: ActionKind, b: ActionKind)
    ensures Run(env, s, [a, b]) == Next(env, Next(env, s, a), b)
  {
    hide Next;
    assert [a, b][..1] == [a] && [a][..0] == [];
    assert Run(env, s, [a]) == Next(env, Run(env, s, []), a);
  }

  lemma FirstThen(env: Env, s: Sys, a: ActionKind, more: seq<ActionKind>)
    ensures Run(env, s, [a] + more) == Run(env, Next(env, s, a), more)
  {
    hide Next;
    assert [a][..0] == [];
    assert Run(env, s, [a]) == Next(env, Run(env, s, []), a);
    RunConcat(env, s, [a], more);
  }

  /** Where every run of the system starts: no process, nothing sent, whatever the target already holds. */
  function Initial(d: Target.Data): Sys { Sys(EMPTY, d, {}, [], map[], []) }

  /** The calls that a history makes are all in `calls`. */
  predicate Calls(actions: seq<ActionKind>, calls: set<ToolCall>) {
    forall i :: 0 <= i < |actions| && actions[i].Begin? ==> actions[i].call in calls
  }

  /** Other clients may use every API of the target as they like, but not the id of one of these calls at the idempotent
      one. */
  predicate Stranger(env: Env, a: ActionKind, calls: set<ToolCall>) {
    a.Foreign? && a.request.IdemReq? ==> forall c :: c in calls ==> IdOf(env, c) != a.request.id
  }

  /** Ids without the separator and a digest without collisions among these calls. */
  ghost predicate WellNamed(env: Env, calls: set<ToolCall>) {
    && Identity.CollisionFree(env.digest, set c | c in calls :: c.ident)
    && forall c :: c in calls ==> Identity.CleanIds(c.ident)
  }

  lemma SameIdSameCall(env: Env, calls: set<ToolCall>, c: ToolCall, d: ToolCall)
    requires WellNamed(env, calls) && c in calls && d in calls
    ensures IdOf(env, c) == IdOf(env, d) <==> c.ident == d.ident
  {
    var idents := set e | e in calls :: e.ident;
    assert c.ident in idents && d.ident in idents;
    Identity.IdIdentifiesCall(env.digest, idents, c.ident, d.ident);
  }

  // ---------------------------------------------------------------- the target: at most one commit per execution id

  predicate ProcsWithin(s: Sys, calls: set<ToolCall>) {
    s.sent <= calls && forall pid :: pid in s.procs && s.procs[pid].Calling? ==> s.procs[pid].call in calls
  }

  /** What the target remembers under the id of a call is that call's own action. */
  predicate Remembers(env: Env, d: Target.Data, c: ToolCall) {
    IdOf(env, c) in d.idempotent ==>
      var e := d.idempotent[IdOf(env, c)];
      Adapter.ActionRequest(c.ident.args, IdOf(env, c), e.receipt) ==
        Ok(Target.IdemReq(e.action, e.payload, IdOf(env, c), e.receipt))
  }

  ghost predicate TargetOk(env: Env, d: Target.Data, s: Sys, calls: set<ToolCall>) {
    && ProcsWithin(s, calls)
    && s.target == Target.ServeAll(d, s.served, env.fp)
    && (forall c :: c in calls ==> Remembers(env, s.target, c))
    && (forall i :: 0 <= i < |s.served| ==> SentFor(env, s.served[i], s.sent, calls))
  }

  /** A request under the id of one of these calls was put on the wire by a call with this id. */
  predicate SentFor(env: Env, r: Target.Request, sent: set<ToolCall>, calls: set<ToolCall>) {
    forall c :: c in calls && r.IdemReq? && r.id == IdOf(env, c) ==> exists d :: d in sent && IdOf(env, d) == r.id
  }

  lemma {:induction false} ServeRemembers(env: Env, calls: set<ToolCall>, d: Target.Data, call: ToolCall, c: ToolCall,
                                          r: Target.Request, receipt: Target.Receipt)
    requires WellNamed(env, calls) && call in calls && c in calls && Remembers(env, d, c)
    requires Adapter.ActionRequest(call.ident.args, IdOf(env, call), receipt) == Ok(r)
    ensures Remembers(env, Target.Serve(d, r, env.fp).0, c)
  {
    SameIdSameCall(env, calls, call, c);
    Target.ServeMemory(d, r, env.fp);
    EntryRemembers(env, call, r, receipt);
    hide IdOf, Target.Serve, Adapter.ActionRequest;
    var after := Target.Serve(d, r, env.fp).0;
    if IdOf(env, c) in after.idempotent {
      if after.idempotent != d.idempotent && IdOf(env, c) == r.id {
        assert after.idempotent[IdOf(env, c)] == Target.EntryOf(r);
        assert c.ident == call.ident;
      } else {
        assert after.idempotent[IdOf(env, c)] == d.idempotent[IdOf(env, c)];
      }
    }
  }

  lemma EntryRemembers(env: Env, call: ToolCall, r: Target.Request, receipt: Target.Receipt)
    requires Adapter.ActionRequest(call.ident.args, IdOf(env, call), receipt) == Ok(r)
    ensures r.IdemReq? && r.id == IdOf(env, call) && r.receipt == receipt
      && r == Target.IdemReq(r.action, r.payload, r.id, r.receipt)
  {
    hide IdOf;
  }

  lemma DeliverKeeps(env: Env, d: Target.Data, s: Sys, calls: set<ToolCall>, call: ToolCall, receipt: Target.Receipt)
    requires WellNamed(env, calls) && TargetOk(env, d, s, calls)
    ensures TargetOk(env, d, Next(env, s, Deliver(call, receipt)), calls)
  {
    var request := Adapter.ActionRequest(call.ident.args, IdOf(env, call), receipt);
    if call in s.sent && request.Ok? {
      var t := Next(env, s, Deliver(call, receipt));
      assert t == s.(target := Target.Serve(s.target, request.value, env.fp).0, served := s.served + [request.value]);
      hide Next, IdOf, Target.Serve, Target.ServeAll, Remembers, Adapter.ActionRequest;
      DeliveredOk(env, d, s, t, calls, call, receipt, request.value);
    }
  }

  lemma DeliveredOk(env: Env, d: Target.Data, s: Sys, t: Sys, calls: set<ToolCall>, call: ToolCall,
                    receipt: Target.Receipt, r: Target.Request)
    requires WellNamed(env, calls) && TargetOk(env, d, s, calls) && call in s.sent
    requires Adapter.ActionRequest(call.ident.args, IdOf(env, call), receipt) == Ok(r)
    requires t == s.(target := Target.Serve(s.target, r, env.fp).0, served := s.served + [r])
    ensures TargetOk(env, d, t, calls)
  {
    hide Target.Serve, IdOf, Target.ServeAll, Remembers, Adapter.ActionRequest;
    Target.ServeAllConcat(d, s.served, [r], env.fp);
    Target.ServeAllOne(s.target, r, env.fp);
    forall c | c in calls ensures Remembers(env, t.target, c) {
      ServeRemembers(env, calls, s.target, call, c, r, receipt);
    }
    EntryRemembers(env, call, r, receipt);
    forall i | 0 <= i < |t.served| ensures SentFor(env, t.served[i], t.sent, calls) {
      if i == |s.served| { assert t.served[i] == r && call in t.sent; }
    }
  }

  lemma ForeignKeeps(env: Env, d: Target.Data, s: Sys, calls: set<ToolCall>, r: Target.Request)
    requires TargetOk(env, d, s, calls) && Stranger(env, Foreign(r), calls)
    ensures TargetOk(env, d, Next(env, s, Foreign(r)), calls)
  {
    var t := Next(env, s, Foreign(r));
    Target.ServeAllConcat(d, s.served, [r], env.fp);
    Target.ServeAllOne(s.target, r, env.fp);
    Target.ServeMemory(s.target, r, env.fp);
    hide Target.Serve, IdOf, Target.ServeAll, Adapter.ActionRequest;
    forall c | c in calls ensures Remembers(env, t.target, c) {
      var id := IdOf(env, c);
      assert Remembers(env, s.target, c) && id in t.target.idempotent ==>
        t.target.idempotent[id] == s.target.idempotent[id];
    }
    hide Remembers;
    forall i | 0 <= i < |t.served| ensures SentFor(env, t.served[i], t.sent, calls) {
      if i < |s.served| { assert t.served[i] == s.served[i]; }
    }
  }

  lemma OtherFrame(env: Env, s: Sys, calls: set<ToolCall>, a: ActionKind)
    requires ProcsWithin(s, calls) && !a.Deliver? && !a.Foreign? && (a.Begin? ==> a.call in calls)
    ensures var t := Next(env, s, a);
      ProcsWithin(t, calls) && s.sent <= t.sent && t.served == s.served && t.target == s.target
  {
    hide IdOf, Step, After, Recovery.Finding, RecordToolResult, RecordContextMessage, Recovery.ToolMessage, Snapshot,
         Sorted;
  }

  lemma OtherKeeps(env: Env, d: Target.Data, s: Sys, calls: set<ToolCall>, a: ActionKind)
    requires TargetOk(env, d, s, calls) && !a.Deliver? && !a.Foreign? && (a.Begin? ==> a.call in calls)
    ensures TargetOk(env, d, Next(env, s, a), calls)
  {
    OtherFrame(env, s, calls, a);
    hide Next, Target.ServeAll, Remembers, IdOf;
    var t := Next(env, s, a);
    forall i | 0 <= i < |t.served| ensures SentFor(env, t.served[i], t.sent, calls) {
      assert SentFor(env, s.served[i], s.sent, calls);
    }
  }

  lemma {:induction false} TargetStaysOk(env: Env, d: Target.Data, calls: set<ToolCall>, actions: seq<ActionKind>)
    requires WellNamed(env, calls) && Calls(actions, calls)
    requires forall c :: c in calls ==> IdOf(env, c) !in d.idempotent
    requires forall i :: 0 <= i < |actions| ==> Stranger(env, actions[i], calls)
    ensures TargetOk(env, d, Run(env, Initial(d), actions), calls)
  {
    hide Next, IdOf;
    if actions != [] {
      var rest, a := actions[..|actions| - 1], actions[|actions| - 1];
      TargetStaysOk(env, d, calls, rest);
      hide TargetOk;
      hide Stranger;
      if a.Deliver? { DeliverKeeps(env, d, Run(env, Initial(d), rest), calls, a.call, a.receipt); }
      else if a.Foreign? { ForeignKeeps(env, d, Run(env, Initial(d), rest), calls, a.request); }
      else { OtherKeeps(env, d, Run(env, Initial(d), rest), calls, a); }
    }
  }

  /** The requests that took effect: distinct ids at the idempotent API, and under the id of a call only if one was
      sent. */
  predicate CommitsOk(env: Env, commits: seq<Target.Request>, sent: set<ToolCall>, calls: set<ToolCall>) {
    && (forall i :: 0 <= i < |commits| ==> SentFor(env, commits[i], sent, calls))
    && (forall i, j :: 0 <= i < j < |commits| && commits[i].IdemReq? && commits[j].IdemReq? ==>
        commits[i].id != commits[j].id)
  }

  /** Any interleaving, any crashes, any delay or repetition of deliveries, any other clients: the target commits each
      execution id at most once, ends where applying the committed requests once each would end, commits only what was
      sent, and never meets the id of a call with a different action or payload. */
  lemma {:induction false} AtMostOneCommit(env: Env, d: Target.Data, calls: set<ToolCall>, actions: seq<ActionKind>)
    requires WellNamed(env, calls) && Calls(actions, calls)
    requires forall c :: c in calls ==> IdOf(env, c) !in d.idempotent
    requires forall i :: 0 <= i < |actions| ==> Stranger(env, actions[i], calls)
    ensures var s := Run(env, Initial(d), actions);
      var commits := Target.Committed(d, s.served, env.fp);
      && CommitsOk(env, commits, s.sent, calls)
      && Target.NaiveServeAll(d.domain, commits, env.fp) == Ok(s.target.domain)
      && (forall c, receipt :: c in s.sent ==> NeverMismatched(env, s.target, c, receipt))
  {
    TargetStaysOk(env, d, calls, actions);
    hide Run, IdOf;
    var s := Run(env, Initial(d), actions);
    OneCommitEach(env, d, s, calls);
    forall c, receipt | c in s.sent ensures NeverMismatched(env, s.target, c, receipt) {
      hide *;
      RemembersIsMatch(env, s.target, c, receipt);
    }
  }

  predicate NeverMismatched(env: Env, d: Target.Data, c: ToolCall, receipt: Target.Receipt) {
    var r := Adapter.ActionRequest(c.ident.args, IdOf(env, c), receipt);
    r.Ok? ==> !Target.Mismatched(d, r.value)
  }

  lemma RemembersIsMatch(env: Env, d: Target.Data, c: ToolCall, receipt: Target.Receipt)
    requires Remembers(env, d, c)
    ensures NeverMismatched(env, d, c, receipt)
  {
    hide IdOf;
  }

  lemma OneCommitEach(env: Env, d: Target.Data, s: Sys, calls: set<ToolCall>)
    requires TargetOk(env, d, s, calls)
    ensures var commits := Target.Committed(d, s.served, env.fp);
      CommitsOk(env, commits, s.sent, calls) && Target.NaiveServeAll(d.domain, commits, env.fp) == Ok(s.target.domain)
  {
    Target.DedupRefinesNaive(d, s.served, env.fp);
    hide Target.Committed, Target.ServeAll, Target.NaiveServeAll, Target.Taken, Remembers, IdOf;
    var commits := Target.Committed(d, s.served, env.fp);
    forall i | 0 <= i < |commits| ensures SentFor(env, commits[i], s.sent, calls) {
      assert commits[i] in s.served;
      var k :| 0 <= k < |s.served| && s.served[k] == commits[i];
    }
  }
}
