/** What the pending list of a run holds, over whole histories, resets included. */
module PendingLists {
  import opened Prelude
  import opened Models
  import opened Facade
  import opened Executor
  import opened Machine
  import opened SingleRunner
  import Abandonment
  import Audit
  import Context
  import Effects
  import Openings
  import Planner
  import Progress
  import RunnerLaws
  import Target

  /** Once each, exactly those of these executions that are executions of the run and open. */
  ghost predicate Listed(s: Store, run: RunId, ids: set<ExecId>) {
    && NoDup(Effects.PendingOf(s, run))
    && forall id :: id in Effects.PendingOf(s, run) <==> id in ids && Audit.OpenRecord(s, run, id)
  }

  /** The pending list of each run holds, once each, exactly the ids of its executions whose outcome is open. */
  ghost predicate PendingExact(s: Store) {
    && (forall run :: NoDup(Effects.PendingOf(s, run)))
    && (forall run, id :: id in Effects.PendingOf(s, run) <==> Audit.OpenRecord(s, run, id))
  }

  // ---------------------------------------------------------------- one action

  lemma StillListed(s: Store, t: Store, run: RunId, ids: set<ExecId>)
    requires Listed(s, run, ids) && t.records == s.records && Effects.PendingOf(t, run) == Effects.PendingOf(s, run)
    ensures Listed(t, run, ids)
  {
    forall id ensures Audit.OpenRecord(t, run, id) <==> Audit.OpenRecord(s, run, id) {}
  }

  lemma CreatedListed(s: Store, t: Store, mover: RunId, m: Move, run: RunId, ids: set<ExecId>)
    requires Listed(s, run, ids) && Moves(s, t, mover, m) && m.Created?
    ensures Listed(t, run, ids + {m.id})
  {
    assert m.id !in Effects.PendingOf(s, run);
    forall id ensures id in Effects.PendingOf(t, run) <==> id in ids + {m.id} && Audit.OpenRecord(t, run, id) {
      assert id in Effects.PendingOf(s, run) <==> id in ids && Audit.OpenRecord(s, run, id);
    }
  }

  lemma ChangedListed(s: Store, t: Store, mover: RunId, m: Move, run: RunId, ids: set<ExecId>)
    requires Listed(s, run, ids) && Moves(s, t, mover, m) && SoundMove(s, m) && m.Changed?
    ensures Listed(t, run, ids)
  {
    if mover == run { WithoutKeepsNoDup(Effects.PendingOf(s, run), m.id); }
    forall id ensures id in Effects.PendingOf(t, run) <==> id in ids && Audit.OpenRecord(t, run, id) {
      assert id in Effects.PendingOf(s, run) <==> id in ids && Audit.OpenRecord(s, run, id);
    }
  }

  lemma MoveListed(s: Store, t: Store, mover: RunId, m: Move, run: RunId, ids: set<ExecId>)
    requires Listed(s, run, ids) && Moves(s, t, mover, m) && SoundMove(s, m)
    ensures Listed(t, run, ids + (t.records.Keys - s.records.Keys))
  {
    NewKeys(s, t, mover, m);
    hide Listed, SoundMove;
    match m
    case Still =>
      assert ids + {} == ids;
      StillListed(s, t, run, ids);
    case Created(_, _) => CreatedListed(s, t, mover, m, run, ids);
    case Changed(_, _, _) =>
      assert ids + {} == ids;
      ChangedListed(s, t, mover, m, run, ids);
  }

  lemma NewKeys(s: Store, t: Store, mover: RunId, m: Move)
    requires Moves(s, t, mover, m)
    ensures t.records.Keys - s.records.Keys == if m.Created? then {m.id} else {}
  {
    hide PendingBecomes;
  }

  /** An accepted `start_run` with `force_reset`. */
  predicate Resets(env: Env, s: Sys, a: ActionKind, run: RunId) {
    && a.Work? && a.op.OpStart? && a.op.force && a.op.run == run && (env.single ==> Idle(s, run))
    && Perform(s.store, a.op, a.now, env.cfg, a.ck).Ok?
  }

  /** A reset empties the list of its run and touches nothing else that counts here. */
  lemma ResetEmpties(s: Store, op: Op, now: real, cfg: Config, ck: string)
    requires op.OpStart? && op.force && Perform(s, op, now, cfg, ck).Ok?
    ensures var t := Perform(s, op, now, cfg, ck).value;
      && t.records == s.records && Effects.PendingOf(t, op.run) == []
      && forall run :: run != op.run ==> Effects.PendingOf(t, run) == Effects.PendingOf(s, run)
  {
    Effects.StartEffect(s, op, now, cfg, ck);
    ResetLogs(s, op, now, cfg, ck);
    hide Perform;
    var t := Perform(s, op, now, cfg, ck).value;
    forall run | run != op.run ensures Effects.PendingOf(t, run) == Effects.PendingOf(s, run) {
      assert Effects.ViewOf(t, run).pending == Effects.PendingOf(t, run)
        && Effects.ViewOf(s, run).pending == Effects.PendingOf(s, run);
    }
  }

  lemma ResetLogs(s: Store, op: Op, now: real, cfg: Config, ck: string)
    requires op.OpStart? && op.force && Perform(s, op, now, cfg, ck).Ok?
    ensures Perform(s, op, now, cfg, ck).value != s
  {
    hide Planner.CreatePlan, Context.InitContext, LatestSeq;
    assert |Perform(s, op, now, cfg, ck).value.log| > |s.log|;
  }

  lemma WorkListed(env: Env, s: Sys, a: ActionKind, run: RunId, ids: set<ExecId>)
    requires Listed(s.store, run, ids) && a.Work?
    ensures var t := Next(env, s, a).store;
      && t.records == s.store.records
      && Listed(t, run, if Resets(env, s, a, run) then {} else ids)
  {
    hide Perform, Listed, Idle;
    if Standalone(a.op) && (env.single ==> Idle(s, a.op.run)) {
      StandaloneEffect(s.store, a.op, a.now, env.cfg, a.ck);
      if a.op.OpStart? && a.op.force && Perform(s.store, a.op, a.now, env.cfg, a.ck).Ok? {
        ResetEmpties(s.store, a.op, a.now, env.cfg, a.ck);
        if a.op.run == run {
          EmptyListed(Next(env, s, a).store, run);
        } else {
          StillListed(s.store, Next(env, s, a).store, run, ids);
        }
      } else {
        StillListed(s.store, Next(env, s, a).store, run, ids);
      }
    }
  }

  lemma EmptyListed(s: Store, run: RunId)
    requires Effects.PendingOf(s, run) == []
    ensures Listed(s, run, {})
  {
  }

  /** What the list may hold after one more action. */
  function NextLogged(env: Env, s: Sys, a: ActionKind, run: RunId, ids: set<ExecId>): set<ExecId> {
    if Resets(env, s, a, run) then {} else ids + (Next(env, s, a).store.records.Keys - s.store.records.Keys)
  }

  lemma NextListed(env: Env, calls: set<ToolCall>, s: Sys, a: ActionKind, run: RunId, ids: set<ExecId>)
    requires env.single && env.cfg.dedup && WellNamed(env, calls) && Inv(env, s, calls)
      && (a.Begin? ==> a.call in calls)
    requires Listed(s.store, run, ids)
    ensures Listed(Next(env, s, a).store, run, NextLogged(env, s, a, run, ids))
  {
    hide Inv, AdvanceCall, AdvancePass, WellNamed, After, Listed, Moves, SoundMove, Perform;
    if a.Work? {
      WorkListed(env, s, a, run, ids);
      assert ids + (Next(env, s, a).store.records.Keys - s.store.records.Keys) == ids;
    } else if a.Advance? && a.pid in s.procs && s.procs[a.pid].Calling? {
      var m := CallActionKeeps(env, calls, s, a.pid, a.answer, a.now, a.ck);
      MoveListed(s.store, Next(env, s, a).store, RunOf(s.procs[a.pid]), m, run, ids);
    } else if a.Advance? && a.pid in s.procs && s.procs[a.pid].todo != [] {
      var m := PassActionKeeps(env, calls, s, a.pid, a.answer, a.now, a.ck);
      MoveListed(s.store, Next(env, s, a).store, RunOf(s.procs[a.pid]), m, run, ids);
    } else {
      var t := Next(env, s, a).store;
      assert t == s.store;
      assert ids + (t.records.Keys - s.store.records.Keys) == ids;
    }
  }

  // ---------------------------------------------------------------- whole histories

  /** The executions whose intents were recorded since the run was last reset. */
  function LoggedSince(env: Env, s: Sys, actions: seq<ActionKind>, run: RunId): set<ExecId> {
    if actions == [] then {}
    else
      var rest, a := actions[..|actions| - 1], actions[|actions| - 1];
      NextLogged(env, Run(env, s, rest), a, run, LoggedSince(env, s, rest, run))
  }

  /** After any history of a single runner, crashes and resets included: the pending list of a run holds, once each,
      exactly its open executions that were logged since its last reset. */
  lemma {:induction false} PendingSinceReset(env: Env, calls: set<ToolCall>, d: Target.Data, actions: seq<ActionKind>,
                                             run: RunId)
    requires env.single && env.cfg.dedup && WellNamed(env, calls) && Calls(actions, calls)
    ensures Listed(Run(env, Initial(d), actions).store, run, LoggedSince(env, Initial(d), actions, run))
  {
    hide Next, WellNamed, Inv, NextLogged;
    if actions == [] {
      EmptyListed(EMPTY, run);
    } else {
      hide Listed;
      var rest, a := actions[..|actions| - 1], actions[|actions| - 1];
      PendingSinceReset(env, calls, d, rest, run);
      RunnerLaws.Reachable(env, calls, d, rest);
      NextListed(env, calls, Run(env, Initial(d), rest), a, run, LoggedSince(env, Initial(d), rest, run));
    }
  }

  /** `start_run` with `force_reset` empties the pending list of a run but keeps its executions. */
  predicate NoReset(a: ActionKind) { a.Work? && a.op.OpStart? ==> !a.op.force }

  lemma {:induction false} AllLogged(env: Env, calls: set<ToolCall>, d: Target.Data, actions: seq<ActionKind>,
                                     run: RunId)
    requires env.single && env.cfg.dedup && WellNamed(env, calls) && Calls(actions, calls)
    requires forall i :: 0 <= i < |actions| ==> NoReset(actions[i])
    ensures LoggedSince(env, Initial(d), actions, run) == Run(env, Initial(d), actions).store.records.Keys
  {
    hide Next, WellNamed, Inv, Idle;
    if actions != [] {
      var rest, a := actions[..|actions| - 1], actions[|actions| - 1];
      AllLogged(env, calls, d, rest, run);
      RunnerLaws.Reachable(env, calls, d, rest);
      RunnerLaws.NextIsSound(env, calls, Run(env, Initial(d), rest), a);
      var s, t := Run(env, Initial(d), rest).store, Run(env, Initial(d), actions).store;
      assert s.records.Keys <= t.records.Keys;
      assert s.records.Keys + (t.records.Keys - s.records.Keys) == t.records.Keys;
    }
  }

  /** Without resets, in every reachable state, crashes included. */
  lemma {:induction false} PendingIsExact(env: Env, calls: set<ToolCall>, d: Target.Data, actions: seq<ActionKind>)
    requires env.single && env.cfg.dedup && WellNamed(env, calls) && Calls(actions, calls)
    requires forall i :: 0 <= i < |actions| ==> NoReset(actions[i])
    ensures PendingExact(Run(env, Initial(d), actions).store)
  {
    hide Run, WellNamed, LoggedSince, NoReset;
    var s := Run(env, Initial(d), actions).store;
    forall run
      ensures NoDup(Effects.PendingOf(s, run)) && forall id :: id in Effects.PendingOf(s, run) <==>
        Audit.OpenRecord(s, run, id)
    {
      PendingSinceReset(env, calls, d, actions, run);
      AllLogged(env, calls, d, actions, run);
    }
  }

  // ---------------------------------------------------------------- exactly when a reset does no harm

  /** An accepted reset keeps the lists exact if and only if its run has no open execution. */
  lemma {:induction false} ResetKeepsExactIff(s: Store, op: Op, now: real, cfg: Config, ck: string)
    requires op.OpStart? && op.force && Perform(s, op, now, cfg, ck).Ok? && PendingExact(s)
    ensures PendingExact(Perform(s, op, now, cfg, ck).value) <==> forall id :: !Audit.OpenRecord(s, op.run, id)
  {
    ResetEmpties(s, op, now, cfg, ck);
    hide Perform;
    var t := Perform(s, op, now, cfg, ck).value;
    forall run, id ensures Audit.OpenRecord(t, run, id) <==> Audit.OpenRecord(s, run, id) {}
    if forall id :: !Audit.OpenRecord(s, op.run, id) {
      forall run ensures NoDup(Effects.PendingOf(t, run)) {
        assert run == op.run || Effects.PendingOf(t, run) == Effects.PendingOf(s, run);
      }
      assert PendingExact(t);
    } else {
      var id :| Audit.OpenRecord(s, op.run, id);
      assert id !in Effects.PendingOf(t, op.run) && Audit.OpenRecord(t, op.run, id);
    }
  }

  /** It does harm after a crash: reset a run whose call was logged and never sent. */
  lemma {:induction false} ResetLosesPending(env: Env, d: Target.Data, c: ToolCall, op: Op, a: Answer, now: real,
                                             ck: string)
    requires env.cfg.dedup && Openings.Creates(op, c)
    ensures var actions := Abandonment.Crash(c, op, a, now, ck) + [Work(op.(force := true), now, ck)];
      !PendingExact(Run(env, Initial(d), actions).store)
  {
    hide Next, IdOf, Abandonment.Crash, PendingExact;
    var crash, reset := Abandonment.Crash(c, op, a, now, ck), Work(op.(force := true), now, ck);
    Abandonment.CrashReaches(env, d, c, op, a, now, ck);
    var s := Run(env, Initial(d), crash);
    var actions := crash + [reset];
    assert actions[..|actions| - 1] == crash;
    ResetAfterCrash(env, s, c, op, now, ck);
  }

  lemma ResetAfterCrash(env: Env, s: Sys, c: ToolCall, op: Op, now: real, ck: string)
    requires Openings.Creates(op, c) && s.procs == map[]
    requires Audit.OpenRecord(s.store, c.ident.run, IdOf(env, c))
    ensures !PendingExact(Next(env, s, Work(op.(force := true), now, ck)).store)
  {
    var again := op.(force := true);
    hide IdOf, StartRun, Planner.CreatePlan, Context.InitContext;
    Openings.WorkIs(env, s, again, now, ck);
    Progress.StartGoes(s.store, op.run, op.seed, op.source, op.items, op.memory, true, env.cfg, ck);
    ResetEmpties(s.store, again, now, env.cfg, ck);
    var t := Next(env, s, Work(again, now, ck)).store;
    assert Audit.OpenRecord(t, op.run, IdOf(env, c)) && IdOf(env, c) !in Effects.PendingOf(t, op.run);
  }
}
