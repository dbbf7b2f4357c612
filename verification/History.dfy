/** Whole histories of facade operations: what the log of a store that began empty says about it. */
module History {
  import opened Prelude
  import opened Models
  import opened Facade
  import Agreement
  import Effects
  import Rebuild
  import Statuses

  /** Between operations, in any order, by any number of processes, stopped anywhere. */
  ghost predicate Sound(s: Store, dedup: bool) {
    Rebuild.Faithful(s) && Agreement.AllAgree(s) && Statuses.Traced(s, dedup)
  }

  lemma EmptySound(dedup: bool)
    ensures Sound(EMPTY, dedup)
  {
    forall run ensures EventsOf(EMPTY.log, run) == [] {}
  }

  lemma KeysAgree(s: Store)
    requires Agreement.AllAgree(s)
    ensures s.plans.Keys == s.contexts.Keys
  {
    hide Agreement.Agrees;
    forall run ensures run in s.plans.Keys <==> run in s.contexts.Keys {
      assert Agreement.RunAgrees(s, run);
    }
  }

  lemma PerformSound(s: Store, op: Op, now: real, cfg: Config, ck: string)
    requires Sound(s, cfg.dedup)
    ensures Perform(s, op, now, cfg, ck).Ok? ==> Sound(Perform(s, op, now, cfg, ck).value, cfg.dedup)
  {
    hide Rebuild.Faithful, Agreement.AllAgree, Statuses.Traced, Perform;
    KeysAgree(s);
    Rebuild.PerformFaithful(s, op, now, cfg, ck);
    Agreement.PerformAgrees(s, op, now, cfg, ck);
    Statuses.PerformTraced(s, op, now, cfg, ck);
  }

  lemma {:induction false} HistorySound(ops: seq<Stamped>, cfg: Config)
    ensures Sound(RunOps(EMPTY, ops, cfg), cfg.dedup)
  {
    hide Sound, Perform;
    if ops == [] {
      EmptySound(cfg.dedup);
    } else {
      HistorySound(ops[..|ops| - 1], cfg);
      var c := ops[|ops| - 1];
      PerformSound(RunOps(EMPTY, ops[..|ops| - 1], cfg), c.op, c.now, cfg, c.ck);
    }
  }

  // ---------------------------------------------------------------- rebuild_state

  predicate Selected(c: Checkpoint, run: RunId, kind: Option<string>) {
    c.run == run && (kind.Some? ==> c.kind == kind.value)
  }

  /** `read_latest_checkpoint`: the highest sequence number, the youngest among equals. */
  function LatestCheckpoint(cs: seq<Checkpoint>, run: RunId, kind: Option<string>): (r: Option<Checkpoint>)
    ensures r.Some? ==> r.value in cs && Selected(r.value, run, kind)
  {
    if cs == [] then None
    else
      var c, best := cs[|cs| - 1], LatestCheckpoint(cs[..|cs| - 1], run, kind);
      if Selected(c, run, kind) && (best.None? || best.value.seqId <= c.seqId) then Some(c) else best
  }

  /** The checkpoint at position `i` of the table is the one to start from: no selected one has a higher sequence
      number, and no younger one has the same. */
  predicate Youngest(cs: seq<Checkpoint>, run: RunId, kind: Option<string>, i: nat) {
    && i < |cs| && Selected(cs[i], run, kind)
    && forall j :: 0 <= j < |cs| && Selected(cs[j], run, kind) ==>
         cs[j].seqId < cs[i].seqId || (cs[j].seqId == cs[i].seqId && j <= i)
  }

  lemma {:induction false} LatestIsYoungest(cs: seq<Checkpoint>, run: RunId, kind: Option<string>) returns (i: nat)
    ensures var r := LatestCheckpoint(cs, run, kind);
      && (r.None? ==> forall j :: 0 <= j < |cs| ==> !Selected(cs[j], run, kind))
      && (r.Some? ==> Youngest(cs, run, kind, i) && r.value == cs[i])
  {
    i := 0;
    if cs != [] {
      var before, n := cs[..|cs| - 1], |cs| - 1;
      i := LatestIsYoungest(before, run, kind);
      var best := LatestCheckpoint(before, run, kind);
      assert forall j :: 0 <= j < n ==> cs[j] == before[j];
      if Selected(cs[n], run, kind) && (best.None? || best.value.seqId <= cs[n].seqId) { i := n; }
    }
  }

  /** `read_events`: a negative limit is no limit. */
  function Limited(es: seq<Event>, limit: int): seq<Event> {
    if limit < 0 || |es| <= limit then es else es[..limit]
  }

  datatype Rebuilt = Rebuilt(checkpoint: Option<Checkpoint>, events: seq<Event>)

  function RebuildState(s: Store, run: RunId, kind: Option<string>, limit: int): Rebuilt {
    match LatestCheckpoint(s.checkpoints, run, kind)
    case None => Rebuilt(None, Limited(EventsOf(s.log, run), limit))
    case Some(c) => Rebuilt(Some(c), Limited(EventsOf(if c.seqId <= |s.log| then s.log[c.seqId..] else [], run), limit))
  }

  /** What `rebuild_state` reads: the selected checkpoint of the highest sequence number, the youngest among equals, and
      the first events of the run after it, as many as the limit allows; no checkpoint only if none was written. */
  lemma {:induction false} RebuiltFrom(s: Store, run: RunId, kind: Option<string>, limit: int) returns (i: nat)
    ensures var r := RebuildState(s, run, kind, limit);
      && (r.checkpoint.None? <==> forall j :: 0 <= j < |s.checkpoints| ==> !Selected(s.checkpoints[j], run, kind))
      && (r.checkpoint.Some? ==>
            Youngest(s.checkpoints, run, kind, i) && r.checkpoint.value == s.checkpoints[i])
      && var after := if r.checkpoint.Some? then r.checkpoint.value.seqId else 0;
         var later := EventsOf(if after <= |s.log| then s.log[after..] else [], run);
         && r.events <= later
         && |r.events| == if limit < 0 || |later| <= limit then |later| else limit
  {
    i := LatestIsYoungest(s.checkpoints, run, kind);
    assert s.log[0..] == s.log;
    hide EventsOf, LatestCheckpoint, Selected;
  }

  function Start(r: Rebuilt): Rebuild.Projection {
    match r.checkpoint
    case None => Rebuild.NOTHING
    case Some(c) => Rebuild.Projection(c.plan, c.context)
  }

  /** How many events of the run follow the checkpoint. */
  function Later(s: Store, run: RunId, r: Rebuilt): seq<Event>
    requires r.checkpoint.Some? ==> r.checkpoint.value.seqId <= |s.log|
  {
    EventsOf(if r.checkpoint.Some? then s.log[r.checkpoint.value.seqId..] else s.log, run)
  }

  lemma FromCheckpoint(s: Store, c: Checkpoint)
    requires Rebuild.Faithful(s) && c in s.checkpoints
    ensures 0 < c.seqId <= |s.log|
    ensures Rebuild.Fold(Rebuild.Projection(c.plan, c.context), EventsOf(s.log[c.seqId..], c.run)) ==
      Rebuild.Current(s, c.run)
  {
    assert Rebuild.SnapshotFaithful(s.log, c);
    hide Rebuild.Apply, EventsOf;
    Rebuild.EventsConcat(s.log[..c.seqId], s.log[c.seqId..], c.run);
    assert s.log[..c.seqId] + s.log[c.seqId..] == s.log;
    Rebuild.FoldConcat(Rebuild.NOTHING, EventsOf(s.log[..c.seqId], c.run), EventsOf(s.log[c.seqId..], c.run));
  }

  /** What `rebuild_state` returns is enough to rebuild plan and context, unless the read limit cut the events short. */
  lemma RebuiltIsCurrent(s: Store, run: RunId, kind: Option<string>, limit: int)
    requires Rebuild.Faithful(s)
    ensures var r := RebuildState(s, run, kind, limit);
      && (r.checkpoint.Some? ==> r.checkpoint.value.seqId <= |s.log|)
      && (limit < 0 || |Later(s, run, r)| <= limit ==> Rebuild.Fold(Start(r), r.events) == Rebuild.Current(s, run))
      && r.events <= Later(s, run, r)
  {
    hide Rebuild.Apply, EventsOf, LatestCheckpoint, Rebuild.SnapshotFaithful;
    var r := RebuildState(s, run, kind, limit);
    if r.checkpoint.Some? {
      FromCheckpoint(s, r.checkpoint.value);
    }
  }

  /** The log is the truth: after any history of facade operations, checkpoint plus later events give plan and context
      of every run, every checkpoint is what the log said at its place, and the log's statuses are those of the
      records. */
  lemma {:induction false} LogIsTheTruth(ops: seq<Stamped>, cfg: Config, run: RunId, kind: Option<string>, limit: int)
    ensures var s := RunOps(EMPTY, ops, cfg);
      var r := RebuildState(s, run, kind, limit);
      && (r.checkpoint.Some? ==> r.checkpoint.value.seqId <= |s.log|)
      && (limit < 0 || |Later(s, run, r)| <= limit ==> Rebuild.Fold(Start(r), r.events) == Rebuild.Current(s, run))
      && (forall c :: c in s.checkpoints ==> Rebuild.SnapshotFaithful(s.log, c))
      && (forall id :: Statuses.Matches(EventsOf(s.log, run), s.records, run, id, cfg.dedup))
      && Agreement.RunAgrees(s, run)
  {
    HistorySound(ops, cfg);
    var s := RunOps(EMPTY, ops, cfg);
    hide RunOps, RebuildState, Later, Start, Rebuild.Current, EventsOf, Rebuild.SnapshotFaithful, Statuses.Matches,
         Agreement.RunAgrees;
    RebuiltIsCurrent(s, run, kind, limit);
  }

  // ---------------------------------------------------------------- what no operation can take back

  /** Records are never dropped, never change hands, and never leave the committed statuses. */
  ghost predicate Grown(s: Store, t: Store) {
    forall id :: id in s.records ==>
      id in t.records && t.records[id].run == s.records[id].run
      && (IsCommitted(s.records[id].status) ==> IsCommitted(t.records[id].status))
  }

  /** Not even `force_reset` forgets an execution or undoes a commit. */
  lemma PerformGrows(s: Store, op: Op, now: real, cfg: Config, ck: string)
    ensures Perform(s, op, now, cfg, ck).Ok? ==> Grown(s, Perform(s, op, now, cfg, ck).value)
  {
    hide StartRun, RecordContextMessage, RecordLlmTurn, RecordToolIntent, RecordToolDispatch, RecordToolResult,
         AdvancePlanItem, SetActivePlanItem, WriteCheckpoint;
    match op
    case OpStart(run, seed, source, items, memory, force) => Effects.StartEffect(s, op, now, cfg, ck);
    case OpMessage(run, m) => Effects.MessageEffect(s, run, m, cfg, ck);
    case OpLlmTurn(run, item, output, text, meta) => Effects.TurnEffect(s, op, now, cfg, ck);
    case OpIntent(run, item, id, tool, kind, request) =>
      Effects.IntentEffect(s, run, item, id, tool, kind, request, now, cfg, ck);
    case OpDispatch(run, id) => Effects.DispatchEffect(s, run, id, now, cfg, ck);
    case OpResult(run, id, args) => Effects.ResultEffect(s, run, id, args, now, cfg, ck);
    case OpAdvance(run, item, status, note) => Effects.PlanOpEffect(s, op, now, cfg, ck);
    case OpSetActive(run, item) => Effects.PlanOpEffect(s, op, now, cfg, ck);
    case OpCheckpoint(run, kind, _) => Effects.PlanOpEffect(s, op, now, cfg, ck);
  }

  lemma {:induction false} HistoryGrows(s: Store, ops: seq<Stamped>, cfg: Config)
    ensures Grown(s, RunOps(s, ops, cfg))
  {
    hide Perform;
    if ops != [] {
      HistoryGrows(s, ops[..|ops| - 1], cfg);
      var c := ops[|ops| - 1];
      PerformGrows(RunOps(s, ops[..|ops| - 1], cfg), c.op, c.now, cfg, c.ck);
    }
  }
}
