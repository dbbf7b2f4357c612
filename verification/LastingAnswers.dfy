/** The answer of a tool call outlives everything: whoever asks again is given what the call was answered with. */
module LastingAnswers {
  import opened Prelude
  import opened Models
  import opened Facade
  import opened Executor
  import opened Machine
  import opened RunnerLaws
  import CallRecords
  import Target

  /** A process that stands before its last write. */
  predicate Answering(s: Sys, pid: nat, c: ToolCall, replay: bool, a: Answer) {
    pid in s.procs && s.procs[pid] == Calling(c, AtRecord(replay, a))
  }

  /** What was answered is what the process goes on to record. */
  lemma AnswerArrives(env: Env, s: Sys, pid: nat, c: ToolCall, replay: bool, a: Answer, now: real, ck: string)
    requires pid in s.procs && s.procs[pid] == Calling(c, AtAnswer(replay))
    ensures Answering(Next(env, s, Advance(pid, a, now, ck)), pid, c, replay, a)
  {
    hide IdOf, AdvancePass;
  }

  lemma RecordingIs(env: Env, s: Sys, pid: nat, c: ToolCall, replay: bool, a: Answer, other: Answer, now: real,
                    ck: string)
    requires Answering(s, pid, c, replay, a)
    ensures var r := RecordToolResult(s.store, c.ident.run, IdOf(env, c), AnswerArgs(c, replay, a), now, env.cfg, ck);
      var t := Next(env, s, Advance(pid, other, now, ck));
      && (r.Ok? ==> t.store == r.value && t.procs[pid] == Calling(c, Returned(AnswerDisposition(c, a))))
      && (r.Err? ==> t.procs[pid] == Calling(c, Raised))
  {
    hide IdOf, RecordToolResult, AnswerArgs, AnswerDisposition, AdvancePass;
    assert Next(env, s, Advance(pid, other, now, ck)) ==
      AdvanceCall(env, s, pid, c, AtRecord(replay, a), other, now, ck);
  }

  /** In every reachable single-runner state the answer is recorded, as it came, and the caller is told accordingly. */
  lemma {:induction false} AnswerIsRecorded(env: Env, calls: set<ToolCall>, d: Target.Data, actions: seq<ActionKind>,
                                            pid: nat, c: ToolCall, replay: bool, a: Answer, other: Answer, now: real,
                                            ck: string)
    requires env.single && env.cfg.dedup && WellNamed(env, calls) && Calls(actions, calls)
    requires Answering(Run(env, Initial(d), actions), pid, c, replay, a)
    ensures var t := Next(env, Run(env, Initial(d), actions), Advance(pid, other, now, ck));
      && t.procs[pid] == Calling(c, Returned(CallRecords.DispositionFor(c, a)))
      && IdOf(env, c) in t.store.records && CallRecords.Tells(c, replay, a, t.store.records[IdOf(env, c)])
  {
    var s := Run(env, Initial(d), actions);
    NeverRefused(env, calls, d, actions, pid, other, now, ck);
    RecordingIs(env, s, pid, c, replay, a, other, now, ck);
    var w := World(_ => now, _ => ck);
    CallRecords.FinishTells(s.store, IdOf(env, c), c, replay, a, env.cfg, w);
    hide IdOf, RecordToolResult, AnswerArgs, CallRecords.Tells, AnswerDisposition, CallRecords.DispositionFor, Next,
         Run;
  }

  /** Commit permanence, with the payload: after an answered call, whatever continues, resets included, a call with the
      same id is over after its lookup, on a record that holds the very payload the first call was answered with. */
  lemma {:induction false} AnswerLasts(env: Env, calls: set<ToolCall>, d: Target.Data, actions: seq<ActionKind>,
                                       pid: nat,
                                       c: ToolCall, replay: bool, p: Payload, step: ActionKind, more: seq<ActionKind>,
                                       other: nat, again: ToolCall, look: ActionKind)
    requires env.single && env.cfg.dedup && WellNamed(env, calls) && Calls(actions + [step] + more, calls)
    requires Answering(Run(env, Initial(d), actions), pid, c, replay, Answered(p)) && step.Advance? && step.pid == pid
    requires IdOf(env, again) == IdOf(env, c) && look.Advance? && look.pid == other
    requires Admits(env, Run(env, Initial(d), actions + [step] + more), other, again.ident.run)
    ensures var u := Run(env, Initial(d), actions + [step] + more + [Begin(other, again), look]);
      && other in u.procs && u.procs[other] == Calling(again, Returned(Reused))
      && IdOf(env, c) in u.store.records
      && var x := u.store.records[IdOf(env, c)];
         x.response == Some(p) && x.result == ResultOk && x.error.None? && x.status == Acked
  {
    var t := Run(env, Initial(d), actions + [step]);
    assert Calls(actions, calls) by {
      assert forall i :: 0 <= i < |actions| ==> actions[i] == (actions + [step] + more)[i];
    }
    AnswerIsRecorded(env, calls, d, actions, pid, c, replay, Answered(p), step.answer, step.now, step.ck);
    assert (actions + [step])[..|actions|] == actions && (actions + [step])[|actions|] == step;
    assert t == Next(env, Run(env, Initial(d), actions), step);
    CommittedStaysReused(env, calls, d, actions + [step], more, other, again, look.answer, look.now, look.ck);
    hide Next, Run, IdOf, WellNamed, Admits, Answering;
  }
}
