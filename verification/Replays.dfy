/** When a proof of absence precedes an invocation: each one is used for every replay that follows, and none is renewed.
    */
module Replays {
  import opened Prelude
  import opened Models
  import opened Facade
  import opened Executor
  import opened Machine
  import opened SingleRunner
  import opened RunnerLaws
  import Adapter
  import Recovery
  import Target

  /** A proof of absence of `id` stands in `marks[from..to]`. */
  predicate FoundIn(marks: seq<Mark>, id: ExecId, from: nat, to: nat) {
    exists k :: from <= k < to && k < |marks| && marks[k] == FoundAbsent(id)
  }

  predicate OutFirst(env: Env, p: Proc, id: ExecId) { p.Calling? && IdOf(env, p.call) == id && p.pc == AtInvoke(false) }

  predicate Reached(s: Store, id: ExecId, rank: nat) { id in s.records && rank <= Rank(s.records[id].status) }

  /** After a replay nothing is proved any more. */
  predicate ReplayedIsLast(s: Sys, id: ExecId) {
    forall i :: 0 <= i < |s.marks| && s.marks[i] == Invoked(id, VerifiedNotFound) ==>
      Reached(s.store, id, 2) && !FoundIn(s.marks, id, i, |s.marks|)
  }

  /** After a proof of absence there is no first invocation any more. */
  predicate ProvedIsOut(env: Env, s: Sys, id: ExecId) {
    FoundIn(s.marks, id, 0, |s.marks|) ==>
      Reached(s.store, id, 1) && forall pid :: pid in s.procs ==> !OutFirst(env, s.procs[pid], id)
  }

  predicate FirstBeforeProof(marks: seq<Mark>, id: ExecId) {
    forall i :: 0 <= i < |marks| && marks[i].Invoked? && marks[i].id == id && marks[i].status != VerifiedNotFound ==>
      !FoundIn(marks, id, 0, i)
  }

  predicate Ordered(env: Env, s: Sys, id: ExecId) {
    ReplayedIsLast(s, id) && ProvedIsOut(env, s, id) && FirstBeforeProof(s.marks, id)
  }

  // ---------------------------------------------------------------- one action

  /** What a new mark of `id` says about the state it is made in. */
  predicate MarkMeans(env: Env, s: Sys, m: Mark, id: ExecId) {
    && (m.Invoked? && m.id == id ==>
          && id in s.store.records && m.status == s.store.records[id].status
          && (m.status != VerifiedNotFound ==> exists pid :: pid in s.procs && OutFirst(env, s.procs[pid], id)))
    && (m == FoundAbsent(id) ==>
          && id in s.store.records && s.store.records[id].status == Dispatched
          && forall pid :: pid in s.procs ==> !OutFirst(env, s.procs[pid], id))
  }

  predicate MarksGrow(env: Env, s: Sys, t: Sys, id: ExecId) {
    || t.marks == s.marks
    || (|t.marks| == |s.marks| + 1 && t.marks == s.marks + [t.marks[|s.marks|]]
        && MarkMeans(env, s, t.marks[|s.marks|], id))
  }

  /** Once the record is past its intent, nobody gets to a first invocation. */
  predicate OutKept(env: Env, s: Sys, t: Sys, id: ExecId) {
    Reached(s.store, id, 1) ==>
      forall pid :: pid in t.procs && OutFirst(env, t.procs[pid], id) ==>
        pid in s.procs && OutFirst(env, s.procs[pid], id)
  }

  predicate Grown(env: Env, s: Sys, t: Sys, id: ExecId) {
    && MarksGrow(env, s, t, id) && OutKept(env, s, t, id)
    && (id in s.store.records ==> Reached(t.store, id, Rank(s.store.records[id].status)))
  }

  lemma FoundAppended(marks: seq<Mark>, m: Mark, id: ExecId, from: nat, to: nat)
    ensures FoundIn(marks + [m], id, from, to) <==>
      FoundIn(marks, id, from, to) || (m == FoundAbsent(id) && from <= |marks| < to)
  {
    var all := marks + [m];
    if FoundIn(marks, id, from, to) {
      var k :| from <= k < to && k < |marks| && marks[k] == FoundAbsent(id);
      assert all[k] == marks[k];
    }
    if m == FoundAbsent(id) { assert all[|marks|] == m; }
  }

  lemma FoundShort(marks: seq<Mark>, id: ExecId, from: nat)
    ensures FoundIn(marks, id, from, |marks| + 1) <==> FoundIn(marks, id, from, |marks|)
  {
    if FoundIn(marks, id, from, |marks| + 1) {
      var k :| from <= k < |marks| + 1 && k < |marks| && marks[k] == FoundAbsent(id);
      assert from <= k < |marks|;
    }
  }

  lemma OrderedKept(env: Env, s: Sys, t: Sys, id: ExecId)
    requires Ordered(env, s, id) && Grown(env, s, t, id)
    ensures Ordered(env, t, id)
  {
    assert Rank(VerifiedNotFound) == 2 && Rank(Dispatched) == 1;
    hide OutFirst, IdOf, Rank, FoundIn;
    if t.marks != s.marks {
      var n, m := |s.marks|, t.marks[|s.marks|];
      forall from: nat
        ensures FoundIn(t.marks, id, from, n + 1) <==>
          FoundIn(s.marks, id, from, n) || (m == FoundAbsent(id) && from <= n)
      {
        FoundAppended(s.marks, m, id, from, n + 1);
        FoundShort(s.marks, id, from);
      }
      forall to: nat | to <= n ensures FoundIn(t.marks, id, 0, to) <==> FoundIn(s.marks, id, 0, to) {
        FoundAppended(s.marks, m, id, 0, to);
      }
      if m.Invoked? { NoneAhead(t.marks, id); }
      assert ReplayedIsLast(t, id);
      assert ProvedIsOut(env, t, id);
      assert FirstBeforeProof(t.marks, id);
    }
  }

  lemma NoneAhead(marks: seq<Mark>, id: ExecId)
    requires marks != [] && marks[|marks| - 1].Invoked?
    ensures !FoundIn(marks, id, |marks| - 1, |marks|)
  {
  }

  lemma CallGrows(env: Env, s: Sys, pid: nat, c: ToolCall, pc: Pc, answer: Answer, now: real, ck: string, id: ExecId)
    requires pid in s.procs && s.procs[pid] == Calling(c, pc) && CallOk(env, s.store, s.marks, c, pc)
    ensures var t := AdvanceCall(env, s, pid, c, pc, answer, now, ck);
      MarksGrow(env, s, t, id) && OutKept(env, s, t, id)
  {
    var t := AdvanceCall(env, s, pid, c, pc, answer, now, ck);
    StepOut(env, s.store, s.marks, c, pc, answer, now, ck);
    if pc.AtInvoke? && IdOf(env, c) == id && !pc.replay { assert OutFirst(env, s.procs[pid], id); }
    hide IdOf, Step, Rank;
  }

  /** A process gets to its first invocation only from a record that is only logged. */
  lemma StepOut(env: Env, s: Store, marks: seq<Mark>, c: ToolCall, pc: Pc, answer: Answer, now: real, ck: string)
    requires CallOk(env, s, marks, c, pc)
    ensures Step(s, IdOf(env, c), c, pc, answer, env.dispatchReads, env.cfg, now, ck).1 == AtInvoke(false) ==>
      !Reached(s, IdOf(env, c), 1)
  {
    hide IdOf, RecordToolIntent, RecordToolDispatch, RecordToolResult, AnswerArgs;
  }

  lemma PassShape(env: Env, s: Sys, pid: nat, p: Recovery.Pass, todo: seq<Candidate>, phase: Phase, now: real,
                  ck: string)
    requires todo != []
    ensures var t := AdvancePass(env, s, pid, p, todo, phase, now, ck);
      && (forall q :: q in t.procs ==>
          if q == pid then t.procs[q].Recovering? else q in s.procs && t.procs[q] == s.procs[q])
      && (t.marks != s.marks ==>
            && phase.Judging? && todo[0].record.Some? && Recovery.Finding(p, todo[0].id, todo[0].record.value).Some?
            && t.marks == s.marks + [FoundAbsent(todo[0].id)])
  {
    hide Recovery.Finding, RecordToolResult, RecordContextMessage, Recovery.ToolMessage, Recovery.HasToolMessage,
         StatusOf;
  }

  lemma PassGrows(env: Env, s: Sys, pid: nat, p: Recovery.Pass, todo: seq<Candidate>, phase: Phase, now: real,
                  ck: string,
                  id: ExecId)
    requires todo != [] && PassOk(s.store, s.marks, p, todo, phase)
    requires forall q :: q in s.procs && OutFirst(env, s.procs[q], id) && id in s.store.records ==>
      s.store.records[id].run != p.run
    ensures var t := AdvancePass(env, s, pid, p, todo, phase, now, ck);
      MarksGrow(env, s, t, id) && OutKept(env, s, t, id)
  {
    PassShape(env, s, pid, p, todo, phase, now, ck);
    if todo[0].record.Some? { Recovery.SettledIsFound(p, todo[0].id, todo[0].record.value, now); }
    hide IdOf, Rank, Recovery.Finding, AdvancePass;
  }

  lemma OtherGrows(env: Env, s: Sys, a: ActionKind, id: ExecId)
    requires !a.Advance? || a.pid !in s.procs || (s.procs[a.pid].Recovering? && s.procs[a.pid].todo == [])
    ensures var t := Next(env, s, a); MarksGrow(env, s, t, id) && OutKept(env, s, t, id)
  {
    hide IdOf, Rank, After, Admits, Adapter.ActionRequest, Target.Serve, Recovery.Candidates, Snapshot, Sorted;
  }

  lemma AdvanceGrows(env: Env, calls: set<ToolCall>, s: Sys, pid: nat, answer: Answer, now: real, ck: string,
                     id: ExecId)
    requires Inv(env, s, calls) && pid in s.procs
    ensures var t := Next(env, s, Advance(pid, answer, now, ck)); MarksGrow(env, s, t, id) && OutKept(env, s, t, id)
  {
    assert ProcOk(env, s.store, s.marks, s.procs[pid]);
    match s.procs[pid]
    case Calling(c, pc) => CallGrows(env, s, pid, c, pc, answer, now, ck, id);
    case Recovering(p, todo, phase) =>
      if todo == [] {
        OtherGrows(env, s, Advance(pid, answer, now, ck), id);
      } else {
        OutElsewhere(env, calls, s, pid, id);
        PassGrows(env, s, pid, p, todo, phase, now, ck, id);
      }
    hide Inv, AdvanceCall, AdvancePass, MarksGrow, OutKept, CallOk, PassOk, IdOf;
  }

  lemma NextGrows(env: Env, calls: set<ToolCall>, s: Sys, a: ActionKind, id: ExecId)
    requires env.single && env.cfg.dedup && WellNamed(env, calls) && Inv(env, s, calls)
      && (a.Begin? ==> a.call in calls)
    ensures Grown(env, s, Next(env, s, a), id)
  {
    NextIsSound(env, calls, s, a);
    hide Inv, WellNamed, Next, MarksGrow, OutKept, IdOf;
    if a.Advance? && a.pid in s.procs { AdvanceGrows(env, calls, s, a.pid, a.answer, a.now, a.ck, id); }
    else { OtherGrows(env, s, a, id); }
  }

  /** While a pass works on a run, no process of that run calls. */
  lemma OutElsewhere(env: Env, calls: set<ToolCall>, s: Sys, pid: nat, id: ExecId)
    requires Inv(env, s, calls) && pid in s.procs && s.procs[pid].Recovering?
    ensures forall q :: q in s.procs && OutFirst(env, s.procs[q], id) && id in s.store.records ==>
      s.store.records[id].run != s.procs[pid].pass.run
  {
    hide IdOf, RecordsOk, Authorized, PassOk, CallOk;
  }

  // ---------------------------------------------------------------- whole histories

  lemma {:induction false} MarksOrdered(env: Env, calls: set<ToolCall>, d: Target.Data, actions: seq<ActionKind>,
                                        id: ExecId)
    requires env.single && env.cfg.dedup && WellNamed(env, calls) && Calls(actions, calls)
    ensures Ordered(env, Run(env, Initial(d), actions), id)
  {
    hide Next, WellNamed, Inv, Grown;
    if actions != [] {
      var rest, a := actions[..|actions| - 1], actions[|actions| - 1];
      MarksOrdered(env, calls, d, rest, id);
      Reachable(env, calls, d, rest);
      hide Ordered;
      NextGrows(env, calls, Run(env, Initial(d), rest), a, id);
      OrderedKept(env, Run(env, Initial(d), rest), Run(env, Initial(d), actions), id);
    }
  }

  /** `marks[j]` is the next invocation of the same call after `marks[i]`. */
  predicate Consecutive(marks: seq<Mark>, i: nat, j: nat) {
    && i < j < |marks| && marks[i].Invoked? && marks[j].Invoked? && marks[j].id == marks[i].id
    && forall k :: i < k < j && marks[k].Invoked? ==> marks[k].id != marks[i].id
  }

  /** Between two consecutive invocations of a call there is a proof of absence if and only if the first of them was not
      itself a replay: a repeated replay starts from the proof of the one before. */
  lemma {:induction false} VerifiedBetweenIff(env: Env, calls: set<ToolCall>, d: Target.Data, actions: seq<ActionKind>,
                                              i: nat, j: nat)
    requires env.single && env.cfg.dedup && WellNamed(env, calls) && Calls(actions, calls)
    requires Consecutive(Run(env, Initial(d), actions).marks, i, j)
    ensures var marks := Run(env, Initial(d), actions).marks;
      FoundIn(marks, marks[i].id, i, j) <==> marks[i].status != VerifiedNotFound
  {
    hide Run, WellNamed;
    var s := Run(env, Initial(d), actions);
    MarksOrdered(env, calls, d, actions, s.marks[i].id);
    InvocationsAuthorized(env, calls, d, actions);
    BetweenOf(env, s, i, j);
  }

  lemma BetweenOf(env: Env, s: Sys, i: nat, j: nat)
    requires Consecutive(s.marks, i, j) && Ordered(env, s, s.marks[i].id) && Authorized(s.marks)
    ensures FoundIn(s.marks, s.marks[i].id, i, j) <==> s.marks[i].status != VerifiedNotFound
  {
    hide Reached, OutFirst;
    var marks, id := s.marks, s.marks[i].id;
    if marks[i].status == VerifiedNotFound {
      assert marks[i] == Invoked(id, VerifiedNotFound);
      assert !FoundIn(marks, id, i, |marks|);
    } else {
      assert Absent(marks[..j], id) && !FoundIn(marks, id, 0, i);
      var k :| 0 <= k < j && marks[..j][k] == FoundAbsent(id);
      assert marks[k] == FoundAbsent(id);
    }
  }

  /** From a record that says "absent", whatever follows: no pass ever proves it again. */
  lemma {:induction false} NeverVerifiedAgain(env: Env, calls: set<ToolCall>, d: Target.Data, actions: seq<ActionKind>,
                                              more: seq<ActionKind>, id: ExecId)
    requires env.single && env.cfg.dedup && WellNamed(env, calls) && Calls(actions + more, calls)
    requires Reached(Run(env, Initial(d), actions).store, id, 2)
    ensures var s, t := Run(env, Initial(d), actions), Run(env, Initial(d), actions + more);
      Extends(s.marks, t.marks) && Reached(t.store, id, 2) && !FoundIn(t.marks, id, |s.marks|, |t.marks|)
    decreases |more|
  {
    hide Next, WellNamed, Inv, Reached, FoundIn, Grown;
    var s := Run(env, Initial(d), actions);
    if more == [] {
      assert actions + more == actions;
      NothingFound(s.marks, id);
    } else {
      var shorter, all := more[..|more| - 1], actions + more;
      assert all[..|all| - 1] == actions + shorter && all[|all| - 1] == more[|more| - 1];
      NeverVerifiedAgain(env, calls, d, actions, shorter, id);
      Reachable(env, calls, d, actions + shorter);
      var t := Run(env, Initial(d), actions + shorter);
      NextGrows(env, calls, t, more[|more| - 1], id);
      NotFoundNext(env, t, Next(env, t, more[|more| - 1]), |s.marks|, id);
    }
  }

  lemma NothingFound(marks: seq<Mark>, id: ExecId)
    ensures !FoundIn(marks, id, |marks|, |marks|)
  {
  }

  lemma NotFoundNext(env: Env, t: Sys, u: Sys, from: nat, id: ExecId)
    requires Grown(env, t, u, id) && Reached(t.store, id, 2) && from <= |t.marks|
      && !FoundIn(t.marks, id, from, |t.marks|)
    ensures Extends(t.marks, u.marks) && Reached(u.store, id, 2) && !FoundIn(u.marks, id, from, |u.marks|)
  {
    hide OutFirst, FoundIn;
    if u.marks != t.marks {
      FoundAppended(t.marks, u.marks[|t.marks|], id, from, |u.marks|);
      FoundShort(t.marks, id, from);
    }
  }
}
