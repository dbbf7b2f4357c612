/** The step loop commits every scripted write exactly once, whatever crashes in between. */
module DriverLaws {
  import opened Prelude
  import opened Models
  import opened Facade
  import opened Executor
  import opened Driver
  import Adapter
  import Context
  import Coordinator
  import DriverFrames
  import Effects
  import Json
  import Recovery
  import Target
  import TargetVerifier
  import Timeouts

  predicate IsWrite(e: Env, k: int) { IsTool(e, k) && e.script[k].op == WRITE }

  /** Writes are the `apply-action` calls, and no write shares its id with another turn. */
  ghost predicate WellScripted(e: Env) {
    && e.items > 0 && e.cfg.dedup
    && (forall k :: IsTool(e, k) ==> (e.script[k].op == WRITE <==> e.script[k].tool == "apply-action"))
    && (forall j, k :: IsTool(e, j) && IsWrite(e, k) && j != k ==> IdOf(e, j) != IdOf(e, k))
  }

  /** The target would take this write now: a well-formed action that the present state does not refuse. */
  ghost predicate Accepts(e: Env, d: Target.Data, k: int)
    requires IsWrite(e, k)
  {
    forall receipt: Target.Receipt :: Acceptable(e, d, k, receipt)
  }

  predicate Acceptable(e: Env, d: Target.Data, k: nat, receipt: Target.Receipt)
    requires IsWrite(e, k)
  {
    var r := Adapter.ActionRequest(e.script[k].args, IdOf(e, k), receipt);
    r.Ok? && r.value.action != "" && Target.ApplyToDomain(d.domain, r.value.action, r.value.payload, receipt, e.fp).Ok?
  }

  /** What makes the loss of this request recoverable: its call window ends within the second that the loop grants, its
      value is not visible already, and the target takes it. */
  ghost predicate Replayable(e: Env, d: Target.Data, k: int)
    requires IsWrite(e, k)
  {
    && Timeouts.WaitSeconds(e.script[k].args, WAIT_SECONDS, e.floatOf) <= 1.0
    && !TargetVerifier.AlreadyVisible(d, e.script[k].args)
    && Accepts(e, d, k)
  }

  // ---------------------------------------------------------------- where a write stands

  predicate Mine(e: Env, x: State, k: int)
    requires IsWrite(e, k)
  {
    var id := IdOf(e, k);
    id in x.store.records &&
    var r := x.store.records[id];
    r.run == e.run && r.op == WRITE && r.request == e.script[k].args
  }

  predicate Known(d: Target.Data, id: ExecId) { TargetVerifier.LookUpAction(d, id).Some? }

  predicate Clean(e: Env, x: State, k: int)
    requires IsWrite(e, k)
  {
    IdOf(e, k) !in x.store.records && !Known(x.channel.data, IdOf(e, k))
  }

  /** Committed at the target; the record may not know it yet, but will never ask for a replay. */
  predicate Landed(e: Env, x: State, k: int)
    requires IsWrite(e, k)
  {
    Mine(e, x, k) && IdOf(e, k) in x.channel.data.idempotent &&
    var st := x.store.records[IdOf(e, k)].status;
    IsCommitted(st) || st == Dispatched
  }

  /** The request was lost and this is not known yet. */
  ghost predicate Lost(e: Env, x: State, k: int)
    requires IsWrite(e, k)
  {
    && Mine(e, x, k) && !Known(x.channel.data, IdOf(e, k))
    && x.store.records[IdOf(e, k)].status == Dispatched && Replayable(e, x.channel.data, k)
  }

  /** The request was lost and the verifier has said so. */
  ghost predicate Missing(e: Env, x: State, k: int)
    requires IsWrite(e, k)
  {
    && Mine(e, x, k) && !Known(x.channel.data, IdOf(e, k))
    && x.store.records[IdOf(e, k)].status == VerifiedNotFound && Replayable(e, x.channel.data, k)
  }

  /** The target refused it: the loop raises here for ever. */
  predicate Dead(e: Env, x: State, k: int)
    requires IsWrite(e, k)
  {
    Mine(e, x, k) && !Known(x.channel.data, IdOf(e, k)) && x.store.records[IdOf(e, k)].status == ExecutionFailed
  }

  ghost predicate Stands(e: Env, x: State, k: int)
    requires IsWrite(e, k)
  {
    Clean(e, x, k) || Landed(e, x, k) || Lost(e, x, k) || Missing(e, x, k) || Dead(e, x, k)
  }

  // ---------------------------------------------------------------- the invariant

  function WriteIds(e: Env, n: nat): set<ExecId> {
    set k | 0 <= k < n && IsWrite(e, k) :: IdOf(e, k)
  }

  /** The target was empty and has been given nothing but scripted writes. */
  predicate OnlyWrites(e: Env, d: Target.Data) {
    && d.idempotent.Keys <= WriteIds(e, |e.script|)
    && d.rifl == map[] && d.stats.rifl == 0 && d.stats.distinguishable == 0 && d.stats.counter == 0
    && d.stats.idempotent == |d.idempotent| && d.stats.total == |d.idempotent|
  }

  predicate Quiet(fault: Adapter.Fault, x: State) { fault.NoFault? || x.channel.spent }

  /** Writes land in script order, so at most one of them is unsettled. */
  ghost predicate InOrder(e: Env, x: State) {
    forall i, j :: 0 <= i < j && IsWrite(e, i) && IsWrite(e, j) && !Clean(e, x, j) ==> Landed(e, x, i)
  }

  ghost predicate AllClean(e: Env, x: State) { forall k :: IsWrite(e, k) ==> Clean(e, x, k) }

  ghost predicate DoneLanded(e: Env, x: State) {
    forall k :: IsWrite(e, k) && k < e.items && ItemOf(e, k) in DoneItems(x.store, e.run) ==> Landed(e, x, k)
  }

  ghost predicate Core(e: Env, x: State) {
    && e.run in x.store.contexts
    && (forall k :: IsWrite(e, k) ==> Stands(e, x, k))
    && InOrder(e, x)
    && OnlyWrites(e, x.channel.data)
    && DoneLanded(e, x)
  }

  /** While the fault is unspent nothing has been written; a lost request means that it is spent. */
  ghost predicate FaultOk(e: Env, fault: Adapter.Fault, d: Target.Data, x: State) {
    && (Quiet(fault, x) || (AllClean(e, x) && x.channel.data == d))
    && (forall k :: IsWrite(e, k) && (Lost(e, x, k) || Missing(e, x, k)) ==> Quiet(fault, x))
  }

  ghost predicate LandedUpTo(e: Env, x: State, n: nat) { forall k :: 0 <= k < n && IsWrite(e, k) ==> Landed(e, x, k) }

  /** The fault may only hit a write that can be replayed: the first one of the script. */
  ghost predicate LossCovered(e: Env, fault: Adapter.Fault, d: Target.Data) {
    fault.LostRequest? ==> forall k :: IsWrite(e, k) && (forall j :: 0 <= j < k ==> !IsWrite(e, j)) ==>
      Replayable(e, d, k)
  }

  lemma IdNotEmpty(e: Env, k: int)
    requires IsTool(e, k)
    ensures IdOf(e, k) != ""
  {
  }

  ghost predicate SameStanding(e: Env, x: State, y: State, k: int)
    requires IsWrite(e, k)
  {
    && (Clean(e, x, k) <==> Clean(e, y, k)) && (Landed(e, x, k) <==> Landed(e, y, k))
    && (Lost(e, x, k) <==> Lost(e, y, k))
    && (Missing(e, x, k) <==> Missing(e, y, k)) && (Dead(e, x, k) <==> Dead(e, y, k))
  }

  ghost predicate LandedKept(e: Env, x: State, y: State) {
    forall k :: IsWrite(e, k) && Landed(e, x, k) ==> Landed(e, y, k)
  }

  /** No item was finished, unless its write has landed. */
  ghost predicate DoneOnlyLanded(e: Env, x: State, y: State) {
    forall k :: IsWrite(e, k) && k < e.items && ItemOf(e, k) in DoneItems(y.store, e.run) ==>
      ItemOf(e, k) in DoneItems(x.store, e.run) || Landed(e, x, k)
  }

  /** Operations that leave the records of the writes and the target alone. */
  lemma Frame(e: Env, fault: Adapter.Fault, d: Target.Data, x: State, y: State, n: nat)
    requires Core(e, x) && FaultOk(e, fault, d, x) && LandedUpTo(e, x, n)
    requires y.channel == x.channel && e.run in y.store.contexts && DoneOnlyLanded(e, x, y)
    requires forall k :: IsWrite(e, k) ==> Lookup(y.store.records, IdOf(e, k)) == Lookup(x.store.records, IdOf(e, k))
    ensures Core(e, y) && FaultOk(e, fault, d, y) && LandedUpTo(e, y, n) && LandedKept(e, x, y)
  {
    hide Replayable, Known, DoneItems, IdOf, ItemOf, OnlyWrites;
    forall k | IsWrite(e, k) ensures SameStanding(e, x, y, k) {
      assert Lookup(y.store.records, IdOf(e, k)) == Lookup(x.store.records, IdOf(e, k));
    }
  }

  // ---------------------------------------------------------------- one write changes

  /** What a target that was given write `k`, and nothing else, remembers now. */
  ghost predicate Grew(e: Env, d: Target.Data, f: Target.Data, k: int)
    requires IsWrite(e, k)
  {
    && OnlyWrites(e, f) && IdOf(e, k) in f.idempotent
    && (forall id :: id != IdOf(e, k) ==>
        (Known(f, id) <==> Known(d, id)) && (id in f.idempotent <==> id in d.idempotent))
  }

  lemma OthersSame(e: Env, x: State, y: State, k: int, j: int)
    requires WellScripted(e) && IsWrite(e, k) && IsWrite(e, j) && j != k
    requires forall id :: id != IdOf(e, k) ==> Lookup(y.store.records, id) == Lookup(x.store.records, id)
    requires
      || y.channel.data == x.channel.data
      || (Grew(e, x.channel.data, y.channel.data, k) && (Clean(e, x, j) || Landed(e, x, j)))
    ensures Landed(e, x, j) ==> Landed(e, y, j)
    ensures Clean(e, x, j) <==> Clean(e, y, j)
    ensures y.channel.data == x.channel.data ==> SameStanding(e, x, y, j)
    ensures Stands(e, x, j) ==> Stands(e, y, j)
  {
    hide Replayable, TargetVerifier.LookUpAction, IdOf, OnlyWrites;
    assert IdOf(e, j) != IdOf(e, k);
    assert Lookup(y.store.records, IdOf(e, j)) == Lookup(x.store.records, IdOf(e, j));
  }

  lemma OneChanged(e: Env, x: State, y: State, k: int)
    requires WellScripted(e) && Core(e, x) && IsWrite(e, k) && LandedUpTo(e, x, k)
    requires forall id :: id != IdOf(e, k) ==> Lookup(y.store.records, id) == Lookup(x.store.records, id)
    requires y.channel.data == x.channel.data || (Grew(e, x.channel.data, y.channel.data, k) && !Landed(e, x, k))
    requires Stands(e, y, k) && (Landed(e, x, k) ==> Landed(e, y, k))
    requires e.run in y.store.contexts && DoneItems(y.store, e.run) <= DoneItems(x.store, e.run)
    ensures Core(e, y) && LandedUpTo(e, y, k) && LandedKept(e, x, y)
    ensures forall j :: IsWrite(e, j) && j != k ==> (Clean(e, x, j) <==> Clean(e, y, j))
    ensures y.channel.data == x.channel.data ==> forall j :: IsWrite(e, j) && j != k ==> SameStanding(e, x, y, j)
    ensures y.channel.data != x.channel.data ==> forall j :: IsWrite(e, j) && j != k ==>
      Clean(e, y, j) || Landed(e, y, j)
  {
    hide Stands, Clean, Landed, SameStanding, IdOf, Grew, OnlyWrites, WellScripted, DoneItems, ItemOf;
    forall j | IsWrite(e, j) && j != k
      ensures (Clean(e, x, j) <==> Clean(e, y, j)) && (Landed(e, x, j) ==> Landed(e, y, j)) && Stands(e, y, j)
      && (y.channel.data == x.channel.data ==> SameStanding(e, x, y, j))
      && (y.channel.data != x.channel.data ==> Clean(e, x, j) || Landed(e, x, j))
    {
      if y.channel.data != x.channel.data && j < k { assert Landed(e, x, j); }
      OthersSame(e, x, y, k, j);
    }
    OnlyWritesOf(e, x, y, k);
  }

  lemma OnlyWritesOf(e: Env, x: State, y: State, k: int)
    requires IsWrite(e, k) && OnlyWrites(e, x.channel.data)
    requires y.channel.data == x.channel.data || Grew(e, x.channel.data, y.channel.data, k)
    ensures OnlyWrites(e, y.channel.data)
  {
    hide OnlyWrites;
  }

  // ---------------------------------------------------------------- executing a write

  /** The records differ at most at `id`; the run is still there, with the same finished items. */
  ghost predicate TouchedOnly(e: Env, s: Store, t: Store, id: ExecId) {
    && (forall i :: i != id ==> Lookup(t.records, i) == Lookup(s.records, i))
    && e.run in t.contexts && DoneItems(t, e.run) == DoneItems(s, e.run)
  }

  lemma StillIn(s: Store, t: Store, run: RunId, after: Effects.View)
    requires Effects.OnlyRun(s, t, run, after) && after.known
    ensures run in t.contexts
  {
    assert Effects.ViewOf(t, run).known;
  }

  /** The status of a record while an answer is awaited. */
  function OutStatus(op: OperationType, replay: bool): ExecutionStatus {
    if replay then VerifiedNotFound else if op == WRITE then Dispatched else IntentLogged
  }

  /** The record of a first call while its answer is awaited. */
  predicate OutRecord(e: Env, r: ExternalResult, c: ToolCall) {
    r.run == e.run && r.op == c.op && r.request == c.ident.args && r.status == OutStatus(c.op, false)
  }

  lemma PrepareTouches(e: Env, pr: Process, s: Store, c: ToolCall, id: ExecId)
    requires e.run in s.contexts && c.ident.run == e.run && e.cfg.dedup
    ensures var p := Prepare(s, id, c, false, e.cfg, pr.world);
      && TouchedOnly(e, s, p.store, id)
      && (p.Ready? ==> id in p.store.records)
      && (id in s.records ==> p.store == s)
      && (id !in s.records && p.Ready? ==> !p.replay && OutRecord(e, p.store.records[id], c))
      && (id !in s.records && p.Stopped? ==> id !in p.store.records)
      && (id !in s.records ==> !p.Settled?)
  {
    if id !in s.records {
      IntentTouches(e, s, c, id, pr.world.clock(|s.log|), pr.world.uuid(|s.log|));
      hide RecordToolIntent, RecordToolDispatch, DoneItems, TouchedOnly;
      var r := RecordToolIntent(s, e.run, c.ident.item, id, c.ident.tool, c.op, c.ident.args, pr.world.clock(|s.log|),
                                e.cfg, pr.world.uuid(|s.log|));
      if r.Ok? && id in r.value.records {
        var t := r.value;
        DispatchTouches(e, t, id, pr.world.clock(|t.log|), pr.world.uuid(|t.log|));
        var u := RecordToolDispatch(t, e.run, id, pr.world.clock(|t.log|), e.cfg, pr.world.uuid(|t.log|));
        if u.Ok? { TouchedTwice(e, s, t, u.value, id); }
      } else {
        TouchedNot(e, s, id);
      }
    } else {
      TouchedNot(e, s, id);
    }
  }

  lemma TouchedNot(e: Env, s: Store, id: ExecId)
    requires e.run in s.contexts
    ensures TouchedOnly(e, s, s, id)
  {
  }

  lemma TouchedTwice(e: Env, s: Store, t: Store, u: Store, id: ExecId)
    requires TouchedOnly(e, s, t, id) && TouchedOnly(e, t, u, id)
    ensures TouchedOnly(e, s, u, id)
  {
    hide DoneItems;
  }

  lemma IntentTouches(e: Env, s: Store, c: ToolCall, id: ExecId, now: real, ck: string)
    requires e.run in s.contexts && c.ident.run == e.run && e.cfg.dedup && id !in s.records
    ensures var r := RecordToolIntent(s, e.run, c.ident.item, id, c.ident.tool, c.op, c.ident.args, now, e.cfg, ck);
      r.Ok? ==> TouchedOnly(e, s, r.value, id) && (id in r.value.records ==>
        r.value.records[id] == IntentRecord(e.run, c.ident.item, c.ident.tool, c.op, c.ident.args, now))
  {
    hide RecordToolIntent, DoneItems;
    Effects.IntentEffect(s, e.run, c.ident.item, id, c.ident.tool, c.op, c.ident.args, now, e.cfg, ck);
    DriverFrames.IntentDone(s, e.run, c.ident.item, id, c.ident.tool, c.op, c.ident.args, now, e.cfg, ck);
    var r := RecordToolIntent(s, e.run, c.ident.item, id, c.ident.tool, c.op, c.ident.args, now, e.cfg, ck);
    if r.Ok? && r.value != s {
      StillIn(s, r.value, e.run,
              Effects.ViewOf(s, e.run).(pending := Context.PendingWith(Effects.PendingOf(s, e.run), id)));
    }
  }

  lemma DispatchTouches(e: Env, s: Store, id: ExecId, now: real, ck: string)
    requires e.run in s.contexts && id in s.records && s.records[id].run == e.run
      && s.records[id].status == IntentLogged
    ensures var r := RecordToolDispatch(s, e.run, id, now, e.cfg, ck);
      && r.Ok? && TouchedOnly(e, s, r.value, id) && id in r.value.records
      && r.value.records[id] == s.records[id].(status := Dispatched, updatedAt := now)
  {
    hide RecordToolDispatch, DoneItems;
    Effects.DispatchEffect(s, e.run, id, now, e.cfg, ck);
    DriverFrames.DispatchDone(s, e.run, id, now, e.cfg, ck);
    var r := RecordToolDispatch(s, e.run, id, now, e.cfg, ck);
    StillIn(s, r.value, e.run, Effects.ViewOf(s, e.run));
    SamePlansSameDone(s, r.value, e.run);
  }

  lemma SamePlansSameDone(s: Store, t: Store, run: RunId)
    requires t.plans == s.plans
    ensures DoneItems(t, run) == DoneItems(s, run)
  {
  }

  /** Recording an answer always succeeds where a call waits for one. */
  lemma FinishTouches(e: Env, pr: Process, s: Store, c: ToolCall, id: ExecId, replay: bool, a: Answer)
    requires e.run in s.contexts && c.ident.run == e.run
    requires id in s.records && s.records[id].run == e.run && s.records[id].request == c.ident.args
    requires s.records[id].status == OutStatus(c.op, replay)
    ensures var f := Finish(s, id, c, replay, a, e.cfg, pr.world);
      && f.Ok? && TouchedOnly(e, s, f.value, id) && id in f.value.records
      && var r := f.value.records[id];
         r.run == e.run && r.op == c.op && r.request == c.ident.args && r.status == AnswerStatus(c, replay, a)
  {
    AnswerRecord(c, s.records[id], replay, a, pr.world.clock(|s.log|));
    hide RecordToolResult, DoneItems, AnswerArgs, ResultRecordOf, ResolveStatus, ShouldClear, AnswerStatus;
    var args := AnswerArgs(c, replay, a);
    Effects.ResultEffect(s, e.run, id, args, pr.world.clock(|s.log|), e.cfg, pr.world.uuid(|s.log|));
    DriverFrames.ResultDone(s, e.run, id, args, pr.world.clock(|s.log|), e.cfg, pr.world.uuid(|s.log|));
    var t := RecordToolResult(s, e.run, id, args, pr.world.clock(|s.log|), e.cfg, pr.world.uuid(|s.log|)).value;
    StillIn(s, t, e.run,
            Effects.ViewOf(s, e.run).(pending := Effects.ClearedIf(Effects.PendingOf(s, e.run), id,
                ShouldClear(args))));
    SamePlansSameDone(s, t, e.run);
  }

  lemma AnswerRecord(c: ToolCall, r: ExternalResult, replay: bool, a: Answer, at: real)
    requires r.request == c.ident.args && r.status == OutStatus(c.op, replay)
    ensures var args := AnswerArgs(c, replay, a); var record := ResultRecordOf(Some(r), r.run, args, at);
      && Allowed(r.status, ResolveStatus(args.status, args.result))
      && record.Ok? && record.value.run == r.run && record.value.op == c.op && record.value.request == c.ident.args
      && record.value.status == AnswerStatus(c, replay, a)
  {
    hide AnswerArgs, AnswerStatus, OutStatus, Allowed, ResultRecordOf;
    AnswerArgsAre(c, replay, a);
    AnswerAllowed(c, replay, a);
    RecordTakes(r, AnswerArgs(c, replay, a), at);
  }

  lemma RecordTakes(r: ExternalResult, args: ResultArgs, at: real)
    requires args.tool.Some? && args.op.Some? && args.request == Some(r.request) && args.status.Some?
    ensures var record := ResultRecordOf(Some(r), r.run, args, at);
      && record.Ok? && record.value.run == r.run && record.value.op == args.op.value
      && record.value.request == r.request
      && record.value.status == args.status.value
  {
    assert (if args.request.value != map[] then args.request else Some(r.request)) == Some(r.request);
  }

  lemma AnswerArgsAre(c: ToolCall, replay: bool, a: Answer)
    ensures var args := AnswerArgs(c, replay, a);
      && args.status == Some(AnswerStatus(c, replay, a)) && args.tool == Some(c.ident.tool)
      && args.op == Some(c.op) && args.request == Some(c.ident.args)
  {
  }

  lemma AnswerAllowed(c: ToolCall, replay: bool, a: Answer)
    ensures Allowed(OutStatus(c.op, replay), AnswerStatus(c, replay, a))
  {
  }

  function AnswerStatus(c: ToolCall, replay: bool, a: Answer): ExecutionStatus {
    if a.Answered? then Acked
    else if a.Ambiguous? && c.op == WRITE then (if replay then VerifiedNotFound else Dispatched)
    else ExecutionFailed
  }

  /** What giving an unknown write to the target can do. */
  lemma InvokeWrite(e: Env, fault: Adapter.Fault, ch: Adapter.Channel, k: int, spare: ExecId, receipt: Target.Receipt)
    requires WellScripted(e) && IsWrite(e, k) && OnlyWrites(e, ch.data) && !Known(ch.data, IdOf(e, k))
    ensures var c := CallOf(e, k);
      var (after, a) := Adapter.Invoke(ch, fault, e.query, e.fp, c.ident.tool, c.ident.args, ForwardedId(c, IdOf(e, k)),
                                       spare, receipt);
      if fault.LostRequest? && !ch.spent then after == ch.(spent := true) && a.Ambiguous?
      else if !Acceptable(e, ch.data, k, receipt) then after == ch && a.Failure?
      else Grew(e, ch.data, after.data, k) && after.data != ch.data
           && (if fault.LostResponse? && !ch.spent then after.spent && a.Ambiguous?
               else after.spent == ch.spent && a.Answered?)
  {
    IdNotEmpty(e, k);
    var id := IdOf(e, k);
    AcceptableIsRequest(e, ch.data, k, receipt);
    hide IdOf, Target.Serve, Target.ApplyToDomain, Grew, OnlyWrites, Known, Adapter.ActionRequest, Acceptable,
         Adapter.ReplyPayload;
    var request := Adapter.ActionRequest(e.script[k].args, id, receipt);
    if request.Ok? {
      ServeWrite(e, ch.data, k, request.value, receipt);
      hide *;
      InvokeApplies(ch, fault, e.query, e.fp, e.script[k].args, id, spare, receipt);
    } else {
      hide *;
      InvokeApplies(ch, fault, e.query, e.fp, e.script[k].args, id, spare, receipt);
    }
  }

  lemma AcceptableIsRequest(e: Env, d: Target.Data, k: int, receipt: Target.Receipt)
    requires IsWrite(e, k)
    ensures Acceptable(e, d, k, receipt) ==> Adapter.ActionRequest(e.script[k].args, IdOf(e, k), receipt).Ok?
  {
  }

  lemma InvokeApplies(ch: Adapter.Channel, fault: Adapter.Fault, query: Adapter.Query, fp: Target.FloatPlus,
                      args: Payload, id: ExecId, spare: ExecId, receipt: Target.Receipt)
    requires id != ""
    ensures var (after, a) := Adapter.Invoke(ch, fault, query, fp, "apply-action", args, Some(id), spare, receipt);
      var request := Adapter.ActionRequest(args, id, receipt);
      if fault.LostRequest? && !ch.spent then after == ch.(spent := true) && a.Ambiguous?
      else if request.Err? then after == ch && a.Failure?
      else
        var (data, reply) := Target.Serve(ch.data, request.value, fp);
        after.data == data && if reply.Err? then after.spent == ch.spent && a.Failure?
          else if fault.LostResponse? && !ch.spent then after.spent && a.Ambiguous?
          else after.spent == ch.spent && a.Answered?
  {
    hide Target.Serve, Adapter.ActionRequest, Adapter.ReplyPayload;
    assert |"apply-action"| == 12 && |"query-state"| == 11;
    var request := Adapter.ActionRequest(args, id, receipt);
    if request.Ok? {
      var reply := Target.Serve(ch.data, request.value, fp).1;
    }
  }

  lemma ServeWrite(e: Env, d: Target.Data, k: int, r: Target.Request, receipt: Target.Receipt)
    requires IsWrite(e, k) && OnlyWrites(e, d) && !Known(d, IdOf(e, k)) && IdOf(e, k) != ""
    requires Adapter.ActionRequest(e.script[k].args, IdOf(e, k), receipt) == Ok(r)
    ensures var (f, reply) := Target.Serve(d, r, e.fp);
      && (reply.Ok? <==> Acceptable(e, d, k, receipt))
      && (reply.Err? ==> f == d)
      && (reply.Ok? ==> Grew(e, d, f, k) && f != d)
  {
    var id := IdOf(e, k);
    assert id in WriteIds(e, |e.script|);
    RequestShape(e.script[k].args, id, receipt);
    hide IdOf, WriteIds, Adapter.ActionRequest, OnlyWrites, Grew, Target.Serve, Target.ApplyToDomain, Known, Remembered;
    ServeUnknown(d, r, e.fp);
    var f := Target.Serve(d, r, e.fp).0;
    if Target.Serve(d, r, e.fp).1.Ok? { RememberedGrows(e, d, r, f, k); }
  }

  lemma RememberedGrows(e: Env, d: Target.Data, r: Target.Request, f: Target.Data, k: int)
    requires IsWrite(e, k) && r.IdemReq? && r.id == IdOf(e, k) && OnlyWrites(e, d) && !Known(d, r.id)
      && Remembered(d, r, f)
    requires r.id in WriteIds(e, |e.script|)
    ensures Grew(e, d, f, k) && f != d
  {
    hide *;
    KnownGrows(d, r, f);
    MapGrows(d.idempotent, f.idempotent, r.id);
    GrownOnlyWrites(e, d, f, r.id);
    GrewMeans(e, d, f, k, r.id);
  }

  lemma GrewMeans(e: Env, d: Target.Data, f: Target.Data, k: int, id: ExecId)
    requires IsWrite(e, k) && id == IdOf(e, k) && OnlyWrites(e, f) && id in f.idempotent
    requires forall i :: i != id ==> (Known(f, i) <==> Known(d, i)) && (i in f.idempotent <==> i in d.idempotent)
    ensures Grew(e, d, f, k)
  {
    hide IdOf, OnlyWrites, Known;
  }

  lemma GrownOnlyWrites(e: Env, d: Target.Data, f: Target.Data, id: ExecId)
    requires OnlyWrites(e, d) && id in WriteIds(e, |e.script|)
    requires f.idempotent.Keys == d.idempotent.Keys + {id} && |f.idempotent| == |d.idempotent| + 1
    requires f.rifl == d.rifl && f.stats == Target.Count(d.stats, Target.Idempotent)
    ensures OnlyWrites(e, f)
  {
    hide WriteIds;
  }

  lemma MapGrows<V>(a: map<ExecId, V>, b: map<ExecId, V>, id: ExecId)
    requires id !in a && id in b && forall i :: i != id ==> (i in b <==> i in a)
    ensures b.Keys == a.Keys + {id} && |b| == |a| + 1
  {
    assert b.Keys == a.Keys + {id};
    assert |a.Keys + {id}| == |a.Keys| + 1;
    assert |b| == |b.Keys| && |a| == |a.Keys|;
  }

  lemma {:induction false} KnownGrows(d: Target.Data, r: Target.Request, f: Target.Data)
    requires r.IdemReq? && !Known(d, r.id) && Remembered(d, r, f)
    ensures r.id !in d.idempotent && r.id in f.idempotent && f.rifl == d.rifl
      && f.stats == Target.Count(d.stats, Target.Idempotent)
    ensures forall id :: id != r.id ==> (Known(f, id) <==> Known(d, id)) && (id in f.idempotent <==> id in d.idempotent)
  {
    hide Target.EntryOf;
  }

  lemma RequestShape(args: Payload, id: ExecId, receipt: Target.Receipt)
    ensures var r := Adapter.ActionRequest(args, id, receipt);
      r.Ok? ==> r.value.IdemReq? && r.value.id == id && r.value.receipt == receipt
  {
  }

  predicate Remembered(d: Target.Data, r: Target.Request, f: Target.Data)
    requires r.IdemReq?
  {
    && f.idempotent == d.idempotent[r.id := Target.EntryOf(r)] && f.actionLog == d.actionLog[r.id := Target.EntryOf(r)]
    && f.rifl == d.rifl && f.stats == Target.Count(d.stats, Target.Idempotent)
  }

  /** An id that the target has never seen. */
  lemma ServeUnknown(d: Target.Data, r: Target.Request, fp: Target.FloatPlus)
    requires r.IdemReq? && r.id != "" && !Known(d, r.id)
    ensures var (f, reply) := Target.Serve(d, r, fp);
      && (reply.Ok? <==> r.action != "" && Target.ApplyToDomain(d.domain, r.action, r.payload, r.receipt, fp).Ok?)
      && (reply.Err? ==> f == d)
      && (reply.Ok? ==> Remembered(d, r, f))
  {
    hide Target.ApplyToDomain;
  }

  /** A write that has a chance to reach the target: never logged, or proved absent. */
  ghost predicate Sendable(e: Env, x: State, k: int)
    requires IsWrite(e, k)
  {
    && e.run in x.store.contexts && OnlyWrites(e, x.channel.data) && !Known(x.channel.data, IdOf(e, k))
    && (IdOf(e, k) in x.store.records ==> Mine(e, x, k) && x.store.records[IdOf(e, k)].status == VerifiedNotFound)
  }

  /** The whole call when the target is reached: prepare, invoke, record. */
  lemma ExecuteReady(e: Env, pr: Process, x: State, k: int)
    requires WellScripted(e) && IsWrite(e, k) && Sendable(e, x, k)
    requires Prepare(x.store, IdOf(e, k), CallOf(e, k), false, e.cfg, pr.world).Ready?
    ensures var p := Prepare(x.store, IdOf(e, k), CallOf(e, k), false, e.cfg, pr.world);
      var (y, r) := Execute(e, pr, x, CallOf(e, k), IdOf(e, k));
      var receipt := pr.receipt(|x.store.log|);
      && r.Ok? && TouchedOnly(e, x.store, y.store, IdOf(e, k)) && Mine(e, y, k)
      && p.replay == (IdOf(e, k) in x.store.records)
      && Outcomes(e, pr.fault, x, y, k, r.value, p.replay, receipt)
  {
    var c, id, s := CallOf(e, k), IdOf(e, k), x.store;
    PrepareTouches(e, pr, s, c, id);
    PreparedRecord(e, pr, x, k);
    hide IdOf, Prepare, Finish, Adapter.Invoke, TouchedOnly, Acceptable, Grew, OnlyWrites, Known, AnswerStatus,
         AnswerDisposition;
    var p := Prepare(s, id, c, false, e.cfg, pr.world);
    var spare, receipt := pr.world.uuid(|x.store.log|), pr.receipt(|x.store.log|);
    InvokeWrite(e, pr.fault, x.channel, k, spare, receipt);
    var (channel, a) := Adapter.Invoke(x.channel, pr.fault, e.query, e.fp, c.ident.tool, c.ident.args,
                                       ForwardedId(c, id), spare, receipt);
    ReadyInContext(e, s, p.store, id);
    FinishTouches(e, pr, p.store, c, id, p.replay, a);
    TouchedTwice(e, s, p.store, Finish(p.store, id, c, p.replay, a, e.cfg, pr.world).value, id);
    AnswerTable(c, p.replay, a);
  }

  lemma PreparedRecord(e: Env, pr: Process, x: State, k: int)
    requires WellScripted(e) && IsWrite(e, k) && Sendable(e, x, k)
    requires Prepare(x.store, IdOf(e, k), CallOf(e, k), false, e.cfg, pr.world).Ready?
    ensures var p := Prepare(x.store, IdOf(e, k), CallOf(e, k), false, e.cfg, pr.world);
      && p.replay == (IdOf(e, k) in x.store.records) && IdOf(e, k) in p.store.records
      && var r := p.store.records[IdOf(e, k)];
         r.run == e.run && r.request == e.script[k].args && r.status == if p.replay then VerifiedNotFound
           else Dispatched
  {
    PrepareTouches(e, pr, x.store, CallOf(e, k), IdOf(e, k));
    hide IdOf, RecordToolIntent, RecordToolDispatch, TouchedOnly, OnlyWrites, Known;
  }

  lemma ReadyInContext(e: Env, s: Store, t: Store, id: ExecId)
    requires TouchedOnly(e, s, t, id)
    ensures e.run in t.contexts
  {
  }

  lemma CleanOrMissing(e: Env, x: State, k: int)
    requires IsWrite(e, k) && Core(e, x) && (Clean(e, x, k) || Missing(e, x, k))
    ensures Sendable(e, x, k) && (Missing(e, x, k) <==> IdOf(e, k) in x.store.records)
  {
  }

  lemma AnswerTable(c: ToolCall, replay: bool, a: Answer)
    requires c.op == WRITE
    ensures AnswerStatus(c, replay, a) ==
      (if a.Answered? then Acked else if a.Ambiguous? then OutStatus(WRITE, replay) else ExecutionFailed)
    ensures AnswerDisposition(c, a) ==
      (if a.Answered? then Succeeded else if a.Ambiguous? then PendingRecovery else Failed)
  {
  }

  /** What a write that reaches the adapter can come to. */
  ghost predicate Outcomes(e: Env, fault: Adapter.Fault, x: State, y: State, k: int, r: Disposition, replay: bool,
                           receipt: Target.Receipt)
    requires IsWrite(e, k) && IdOf(e, k) in y.store.records
  {
    var st := y.store.records[IdOf(e, k)].status;
    if fault.LostRequest? && !x.channel.spent then
      y.channel == x.channel.(spent := true) && r == PendingRecovery && st == OutStatus(WRITE, replay)
    else if !Acceptable(e, x.channel.data, k, receipt) then
      y.channel == x.channel && r == Failed && st == ExecutionFailed
    else
      && Grew(e, x.channel.data, y.channel.data, k) && y.channel.data != x.channel.data
      && if fault.LostResponse? && !x.channel.spent then y.channel.spent && r == PendingRecovery
        && st == OutStatus(WRITE, replay)
         else y.channel.spent == x.channel.spent && r == Succeeded && st == Acked
  }

  /** A finding about execution that the loop relies on. */
  ghost predicate WriteDone(e: Env, pr: Process, d: Target.Data, x: State, y: State, k: int, r: Outcome<Disposition>)
    requires IsWrite(e, k)
  {
    && Core(e, y) && LandedUpTo(e, y, k) && LandedKept(e, x, y)
    && (r.Ok? && r.value != Failed ==>
          FaultOk(e, pr.fault, d, y) && (Landed(e, y, k) || (Lost(e, y, k) && r.value == PendingRecovery)))
    && (Missing(e, x, k) ==> r.Ok? && Landed(e, y, k) && FaultOk(e, pr.fault, d, y))
    && ((Landed(e, x, k) || Lost(e, x, k)) ==> y == x)
  }

  lemma ExecuteKnown(e: Env, pr: Process, x: State, k: int)
    requires IsWrite(e, k) && (Landed(e, x, k) || Lost(e, x, k) || Dead(e, x, k))
    ensures var (y, r) := Execute(e, pr, x, CallOf(e, k), IdOf(e, k));
      y == x && r.Ok? && (r.value == Failed <==> Dead(e, x, k)) && (Lost(e, x, k) ==> r.value == PendingRecovery)
  {
    hide IdOf, Replayable, Known, RecordToolIntent, RecordToolDispatch, RecordToolResult;
  }

  lemma CleanNotLanded(e: Env, x: State, k: int)
    requires IsWrite(e, k)
    ensures !(Clean(e, x, k) && Landed(e, x, k))
  {
  }

  lemma FirstWrite(e: Env, fault: Adapter.Fault, d: Target.Data, x: State, k: int)
    requires IsWrite(e, k) && LandedUpTo(e, x, k) && FaultOk(e, fault, d, x) && !Quiet(fault, x)
    requires LossCovered(e, fault, d)
    ensures Clean(e, x, k) && x.channel.data == d && (fault.LostRequest? ==> Replayable(e, d, k))
  {
    hide Replayable, IdOf;
    forall j | 0 <= j < k ensures !IsWrite(e, j) {
      if IsWrite(e, j) { CleanNotLanded(e, x, j); }
    }
  }

  lemma ExecuteFresh(e: Env, pr: Process, d: Target.Data, x: State, k: int)
    requires WellScripted(e) && Core(e, x) && FaultOk(e, pr.fault, d, x) && LossCovered(e, pr.fault, d)
    requires IsWrite(e, k) && LandedUpTo(e, x, k) && (Clean(e, x, k) || Missing(e, x, k))
    requires Prepare(x.store, IdOf(e, k), CallOf(e, k), false, e.cfg, pr.world).Ready?
    ensures var (y, r) := Execute(e, pr, x, CallOf(e, k), IdOf(e, k)); WriteDone(e, pr, d, x, y, k, r)
  {
    var (y, r) := Execute(e, pr, x, CallOf(e, k), IdOf(e, k));
    CleanOrMissing(e, x, k);
    ExecuteReady(e, pr, x, k);
    var receipt := pr.receipt(|x.store.log|);
    if !Quiet(pr.fault, x) { FirstWrite(e, pr.fault, d, x, k); }
    if Missing(e, x, k) { MissingIsQuiet(e, pr.fault, d, x, k, receipt); }
    hide Execute, Prepare, IdOf, WellScripted;
    OutcomeStands(e, pr.fault, x, y, k, r.value, receipt);
    FreshDone(e, pr, d, x, y, k, r);
  }

  lemma MissingIsQuiet(e: Env, fault: Adapter.Fault, d: Target.Data, x: State, k: int, receipt: Target.Receipt)
    requires IsWrite(e, k) && Missing(e, x, k) && FaultOk(e, fault, d, x)
    ensures Quiet(fault, x) && Acceptable(e, x.channel.data, k, receipt)
  {
    hide Acceptable, IdOf;
  }

  /** Where the write stands after its outcome. */
  lemma OutcomeStands(e: Env, fault: Adapter.Fault, x: State, y: State, k: int, r: Disposition, receipt: Target.Receipt)
    requires IsWrite(e, k) && Mine(e, y, k) && !Known(x.channel.data, IdOf(e, k)) && !Landed(e, x, k)
    requires Outcomes(e, fault, x, y, k, r, Missing(e, x, k), receipt)
    requires Missing(e, x, k) ==> Quiet(fault, x) && Acceptable(e, x.channel.data, k, receipt)
    requires fault.LostRequest? && !x.channel.spent ==> Replayable(e, x.channel.data, k)
    ensures r == Failed ==> Dead(e, y, k) && y.channel == x.channel
    ensures r != Failed ==> Quiet(fault, y) && (Landed(e, y, k) || (Lost(e, y, k) && r == PendingRecovery))
    ensures Missing(e, x, k) ==> Landed(e, y, k)
    ensures y.channel.data == x.channel.data || Grew(e, x.channel.data, y.channel.data, k)
  {
    hide IdOf, Acceptable, Replayable, Known, OnlyWrites;
  }

  lemma FreshDone(e: Env, pr: Process, d: Target.Data, x: State, y: State, k: int, r: Outcome<Disposition>)
    requires WellScripted(e) && Core(e, x) && FaultOk(e, pr.fault, d, x) && IsWrite(e, k) && LandedUpTo(e, x, k)
    requires !Landed(e, x, k) && r.Ok? && TouchedOnly(e, x.store, y.store, IdOf(e, k))
    requires y.channel.data == x.channel.data || Grew(e, x.channel.data, y.channel.data, k)
    requires Stands(e, y, k) && (Missing(e, x, k) ==> Landed(e, y, k))
    requires r.value != Failed ==>
      Quiet(pr.fault, y) && (Landed(e, y, k) || (Lost(e, y, k) && r.value == PendingRecovery))
    requires !Lost(e, x, k) && (Quiet(pr.fault, x) ==> Quiet(pr.fault, y) || r.value == Failed)
    requires Missing(e, x, k) ==> r.value != Failed
    ensures WriteDone(e, pr, d, x, y, k, r)
  {
    hide IdOf, Replayable, Known, OnlyWrites, WellScripted, Grew, DoneItems, Stands, Landed, Lost, Missing;
    OneChanged(e, x, y, k);
  }

  lemma {:induction false} ExecuteWrite(e: Env, pr: Process, d: Target.Data, x: State, k: int)
    requires WellScripted(e) && Core(e, x) && FaultOk(e, pr.fault, d, x) && LossCovered(e, pr.fault, d)
    requires IsWrite(e, k) && LandedUpTo(e, x, k)
    ensures var (y, r) := Execute(e, pr, x, CallOf(e, k), IdOf(e, k)); WriteDone(e, pr, d, x, y, k, r)
  {
    assert Stands(e, x, k);
    var (y, r) := Execute(e, pr, x, CallOf(e, k), IdOf(e, k));
    if Clean(e, x, k) || Missing(e, x, k) {
      if Prepare(x.store, IdOf(e, k), CallOf(e, k), false, e.cfg, pr.world).Ready? {
        ExecuteFresh(e, pr, d, x, k);
      } else {
        ExecuteRefused(e, pr, x, k);
        OneChanged(e, x, y, k);
      }
    } else {
      ExecuteKnown(e, pr, x, k);
      KnownDone(e, pr, d, x, k, r);
    }
  }

  lemma KnownDone(e: Env, pr: Process, d: Target.Data, x: State, k: int, r: Outcome<Disposition>)
    requires Core(e, x) && FaultOk(e, pr.fault, d, x) && IsWrite(e, k) && LandedUpTo(e, x, k)
    requires Landed(e, x, k) || Lost(e, x, k) || Dead(e, x, k)
    requires r.Ok? && (r.value == Failed <==> Dead(e, x, k)) && (Lost(e, x, k) ==> r.value == PendingRecovery)
    ensures WriteDone(e, pr, d, x, x, k, r)
  {
    hide IdOf, Replayable, Known, OnlyWrites, Core, FaultOk, LandedUpTo;
  }

  lemma ExecuteRefused(e: Env, pr: Process, x: State, k: int)
    requires WellScripted(e) && Core(e, x) && IsWrite(e, k) && (Clean(e, x, k) || Missing(e, x, k))
    requires !Prepare(x.store, IdOf(e, k), CallOf(e, k), false, e.cfg, pr.world).Ready?
    ensures var (y, r) := Execute(e, pr, x, CallOf(e, k), IdOf(e, k));
      r.Err? && y.channel == x.channel && TouchedOnly(e, x.store, y.store, IdOf(e, k)) && Clean(e, x, k)
        && Clean(e, y, k)
  {
    CleanOrMissing(e, x, k);
    PrepareTouches(e, pr, x.store, CallOf(e, k), IdOf(e, k));
    hide IdOf, RecordToolIntent, RecordToolDispatch, TouchedOnly, Known, Replayable;
  }

  // ---------------------------------------------------------------- executing anything else

  lemma FinishTouchesAny(e: Env, pr: Process, s: Store, c: ToolCall, id: ExecId, replay: bool, a: Answer)
    requires e.run in s.contexts && c.ident.run == e.run
    ensures var f := Finish(s, id, c, replay, a, e.cfg, pr.world); f.Ok? ==> TouchedOnly(e, s, f.value, id)
  {
    hide RecordToolResult, DoneItems, AnswerArgs, ResultRecordOf, ResolveStatus, ShouldClear;
    var args := AnswerArgs(c, replay, a);
    Effects.ResultEffect(s, e.run, id, args, pr.world.clock(|s.log|), e.cfg, pr.world.uuid(|s.log|));
    DriverFrames.ResultDone(s, e.run, id, args, pr.world.clock(|s.log|), e.cfg, pr.world.uuid(|s.log|));
    var r := RecordToolResult(s, e.run, id, args, pr.world.clock(|s.log|), e.cfg, pr.world.uuid(|s.log|));
    if r.Ok? {
      StillIn(s, r.value, e.run,
              Effects.ViewOf(s,
                             e.run).(pending := Effects.ClearedIf(Effects.PendingOf(s, e.run), id, ShouldClear(args))));
      SamePlansSameDone(s, r.value, e.run);
    }
  }

  lemma InvokeOther(ch: Adapter.Channel, fault: Adapter.Fault, query: Adapter.Query, fp: Target.FloatPlus, tool: string,
                    args: Payload,
                    id: Option<ExecId>, spare: ExecId, receipt: Target.Receipt)
    requires tool != "apply-action"
    ensures Adapter.Invoke(ch, fault, query, fp, tool, args, id, spare, receipt).0 == ch
  {
  }

  lemma ExecuteOther(e: Env, pr: Process, d: Target.Data, x: State, k: int, n: nat)
    requires WellScripted(e) && Core(e, x) && FaultOk(e, pr.fault, d, x) && LandedUpTo(e, x, n)
    requires IsTool(e, k) && !IsWrite(e, k)
    ensures var y := Execute(e, pr, x, CallOf(e, k), IdOf(e, k)).0;
      Core(e, y) && FaultOk(e, pr.fault, d, y) && LandedUpTo(e, y, n) && y.channel == x.channel && LandedKept(e, x, y)
  {
    var c, id := CallOf(e, k), IdOf(e, k);
    var y := Execute(e, pr, x, c, id).0;
    assert e.run in x.store.contexts;
    PrepareTouches(e, pr, x.store, c, id);
    OtherTouches(e, pr, x, c, id);
    OtherIds(e, k);
    hide IdOf, Execute, WellScripted, Core, FaultOk, LandedUpTo, DoneItems;
    Frame(e, pr.fault, d, x, y, n);
  }

  lemma OtherIds(e: Env, k: int)
    requires WellScripted(e) && IsTool(e, k) && !IsWrite(e, k)
    ensures forall j :: IsWrite(e, j) ==> IdOf(e, j) != IdOf(e, k)
  {
    hide IdOf;
  }

  lemma OtherTouches(e: Env, pr: Process, x: State, c: ToolCall, id: ExecId)
    requires e.run in x.store.contexts && c.ident.run == e.run && c.ident.tool != "apply-action" && e.cfg.dedup
    ensures var y := Execute(e, pr, x, c, id).0; y.channel == x.channel && TouchedOnly(e, x.store, y.store, id)
  {
    PrepareTouches(e, pr, x.store, c, id);
    hide Prepare, Finish, Adapter.Invoke, TouchedOnly;
    var p := Prepare(x.store, id, c, false, e.cfg, pr.world);
    if p.Ready? {
      var spare, receipt := pr.world.uuid(|x.store.log|), pr.receipt(|x.store.log|);
      InvokeOther(x.channel, pr.fault, e.query, e.fp, c.ident.tool, c.ident.args, ForwardedId(c, id), spare, receipt);
      var a := Adapter.Invoke(x.channel, pr.fault, e.query, e.fp, c.ident.tool, c.ident.args, ForwardedId(c, id), spare,
                              receipt).1;
      ReadyInContext(e, x.store, p.store, id);
      FinishTouchesAny(e, pr, p.store, c, id, p.replay, a);
      var f := Finish(p.store, id, c, p.replay, a, e.cfg, pr.world);
      if f.Ok? { TouchedTwice(e, x.store, p.store, f.value, id); }
    }
  }

  // ---------------------------------------------------------------- a recovery pass

  lemma PassRecord(e: Env, d: Target.Data, now: real, w: World, s: Store, id: ExecId)
    requires e.run in s.contexts && id in s.records && s.records[id].run == e.run && id != ""
    ensures var r := s.records[id]; var t := Recovery.RecoverRun(PassAt(e, d, now), w, s);
      && id in t.records
      && var q := t.records[id];
         && q.run == r.run && q.op == r.op && q.request == r.request
         && (r.status != Dispatched ==> q.status == r.status)
         && (r.status == Dispatched && r.op == WRITE ==>
               if now < Recovery.Deadline(r, WAIT_SECONDS, e.floatOf) then q.status == Dispatched
               else if Known(d, id) || TargetVerifier.AlreadyVisible(d, r.request) then q.status == VerifiedCommitted
               else q.status == VerifiedNotFound)
  {
    var p := PassAt(e, d, now);
    Recovery.PassSettles(p, w, s, id);
    hide Recovery.RecoverRun, Recovery.Deadline, Recovery.VerifiedPayload, TargetVerifier.AlreadyVisible,
         TargetVerifier.EntryPayload;
  }

  lemma {:induction false} RecoverStands(e: Env, fault: Adapter.Fault, d: Target.Data, x: State, now: real, w: World,
                                         n: nat)
    requires Core(e, x) && FaultOk(e, fault, d, x) && LandedUpTo(e, x, n)
    ensures var y := x.(store := Recovery.RecoverRun(PassAt(e, x.channel.data, now), w, x.store));
      && Core(e, y) && FaultOk(e, fault, d, y) && LandedUpTo(e, y, n)
      && (forall k :: IsWrite(e, k) && Lost(e, x, k) && now >= x.store.records[IdOf(e, k)].updatedAt + 1.0 ==>
          Missing(e, y, k))
      && LandedKept(e, x, y)
  {
    var y := x.(store := Recovery.RecoverRun(PassAt(e, x.channel.data, now), w, x.store));
    DriverFrames.PassFrame(PassAt(e, x.channel.data, now), w, x.store);
    forall k | IsWrite(e, k) ensures Recovered(e, x, y, k, now) {
      RecoverOneStands(e, x, now, w, k);
    }
    hide *;
    AllRecovered(e, fault, d, x, y, now, n);
  }

  lemma AllRecovered(e: Env, fault: Adapter.Fault, d: Target.Data, x: State, y: State, now: real, n: nat)
    requires Core(e, x) && FaultOk(e, fault, d, x) && LandedUpTo(e, x, n)
    requires y.channel == x.channel && e.run in y.store.contexts
      && DoneItems(y.store, e.run) == DoneItems(x.store, e.run)
    requires forall k :: IsWrite(e, k) ==> Recovered(e, x, y, k, now)
    ensures Core(e, y) && FaultOk(e, fault, d, y) && LandedUpTo(e, y, n) && LandedKept(e, x, y)
    ensures forall k ::
      IsWrite(e, k) && Lost(e, x, k) && now >= x.store.records[IdOf(e, k)].updatedAt + 1.0 ==> Missing(e, y, k)
  {
    assert forall k :: IsWrite(e, k) && Landed(e, x, k) ==> Recovered(e, x, y, k, now);
    hide IdOf, ItemOf, DoneItems, OnlyWrites, Stands, Clean, Landed, Lost, Missing, Dead;
  }

  ghost predicate Recovered(e: Env, x: State, y: State, k: int, now: real)
    requires IsWrite(e, k)
  {
    && Stands(e, y, k) && (Clean(e, x, k) <==> Clean(e, y, k)) && (Landed(e, x, k) ==> Landed(e, y, k))
    && (Lost(e, y, k) || Missing(e, y, k) ==> Lost(e, x, k) || Missing(e, x, k))
    && (Lost(e, x, k) && now >= x.store.records[IdOf(e, k)].updatedAt + 1.0 ==> Missing(e, y, k))
  }

  /** What a pass does to the record of one write. */
  predicate Probed(e: Env, x: State, y: State, k: int, now: real)
    requires IsWrite(e, k)
  {
    var id := IdOf(e, k);
    && y.channel == x.channel
    && (id !in x.store.records ==> id !in y.store.records)
    && (Mine(e, x, k) ==>
          Mine(e, y, k) &&
          var r, q := x.store.records[id], y.store.records[id];
          q.status ==
            if r.status != Dispatched || now < Recovery.Deadline(r, WAIT_SECONDS, e.floatOf) then r.status
            else if Known(x.channel.data, id) || TargetVerifier.AlreadyVisible(x.channel.data, r.request) then
              VerifiedCommitted
            else VerifiedNotFound)
  }

  lemma PassProbes(e: Env, x: State, now: real, w: World, k: int)
    requires e.run in x.store.contexts && IsWrite(e, k)
    ensures Probed(e, x, x.(store := Recovery.RecoverRun(PassAt(e, x.channel.data, now), w, x.store)), k, now)
  {
    IdNotEmpty(e, k);
    DriverFrames.PassFrame(PassAt(e, x.channel.data, now), w, x.store);
    hide IdOf, Recovery.RecoverRun, Recovery.Deadline, DoneItems, Known, TargetVerifier.AlreadyVisible, PassAt;
    if Mine(e, x, k) { PassRecord(e, x.channel.data, now, w, x.store, IdOf(e, k)); }
  }

  lemma RecoverOneStands(e: Env, x: State, now: real, w: World, k: int)
    requires e.run in x.store.contexts && IsWrite(e, k) && Stands(e, x, k)
    ensures var y := x.(store := Recovery.RecoverRun(PassAt(e, x.channel.data, now), w, x.store));
      Recovered(e, x, y, k, now)
  {
    PassProbes(e, x, now, w, k);
    hide *;
    ProbedStands(e, x, x.(store := Recovery.RecoverRun(PassAt(e, x.channel.data, now), w, x.store)), k, now);
  }

  lemma ProbedStands(e: Env, x: State, y: State, k: int, now: real)
    requires IsWrite(e, k) && Stands(e, x, k) && Probed(e, x, y, k, now)
    ensures Recovered(e, x, y, k, now)
  {
    if Landed(e, x, k) { CommittedIsKnown(e, x, k); }
    hide IdOf, Accepts, Known, TargetVerifier.AlreadyVisible, Timeouts.WaitSeconds;
  }

  lemma CommittedIsKnown(e: Env, x: State, k: int)
    requires IsWrite(e, k) && Landed(e, x, k)
    ensures Known(x.channel.data, IdOf(e, k))
  {
    hide IdOf;
  }

  // ---------------------------------------------------------------- a turn

  /** After a pass one second later the decision about a lost request is to replay it; a landed one is never
      replayed. */
  lemma ResolvedAction(e: Env, x: State, k: int, now: real)
    requires IsWrite(e, k) && (Landed(e, x, k) || (Lost(e, x, k) && now >= x.store.records[IdOf(e, k)].updatedAt + 1.0))
    ensures var r := x.store.records[IdOf(e, k)];
      (Coordinator.FinalDecision(PassAt(e, x.channel.data, now), IdOf(e, k), Some(r)).action == Recovery.Replay) <==>
        !Landed(e, x, k)
  {
    IdNotEmpty(e, k);
    hide IdOf, Accepts, TargetVerifier.AlreadyVisible, TargetVerifier.EntryPayload;
  }

  lemma AdvanceKeeps(e: Env, pr: Process, d: Target.Data, x: State, k: nat, at: Option<Point>)
    requires WellScripted(e) && Core(e, x) && FaultOk(e, pr.fault, d, x) && LandedUpTo(e, x, k + 1)
    ensures var (y, flow) := Advance(e, pr, x, k, at);
      Core(e, y) && FaultOk(e, pr.fault, d, y) && LandedUpTo(e, y, k + 1) && LandedKept(e, x, y)
  {
    hide AdvancePlanItem, DoneItems, WellScripted, Core, FaultOk, ItemOf;
    var ck := pr.world.uuid(|x.store.log|);
    Effects.PlanOpEffect(x.store, OpAdvance(e.run, ItemOf(e, k), "done", None), 0.0, e.cfg, ck);
    DriverFrames.AdvanceDone(x.store, e.run, ItemOf(e, k), e.cfg, ck);
    var r := AdvancePlanItem(x.store, e.run, ItemOf(e, k), "done", None, e.cfg, ck);
    if r.Ok? {
      var y := x.(store := r.value);
      CoreKnows(e, x);
      StillIn(x.store, y.store, e.run, Effects.ViewOf(x.store, e.run));
      forall j | IsWrite(e, j) && j < e.items && ItemOf(e, j) in DoneItems(y.store, e.run)
        ensures ItemOf(e, j) in DoneItems(x.store, e.run) || Landed(e, x, j)
      {
        if ItemOf(e, j) == ItemOf(e, k) { SameItem(e, j, k); }
      }
      Frame(e, pr.fault, d, x, y, k + 1);
    }
  }

  lemma CoreKnows(e: Env, x: State)
    requires Core(e, x)
    ensures e.run in x.store.contexts
  {
  }

  lemma SameItem(e: Env, j: nat, k: nat)
    requires j < e.items && ItemOf(e, j) == ItemOf(e, k)
    ensures j <= k
  {
    var m := if k < e.items then k else e.items - 1;
    Json.Cancel("step_", Json.Digits(j), "step_", Json.Digits(m));
    Json.DigitsInjective(j, m);
  }

  /** The part of a turn after the call, for a call that was not refused. */
  lemma AfterCallKeeps(e: Env, pr: Process, d: Target.Data, x: State, k: nat, pending: bool, at: Option<Point>)
    requires WellScripted(e) && Core(e, x) && FaultOk(e, pr.fault, d, x)
      && (IsWrite(e, k) ==> LossCovered(e, pr.fault, d)) && IsTool(e, k) && LandedUpTo(e, x, k)
    requires IsWrite(e, k) ==> Landed(e, x, k) || (Lost(e, x, k) && pending)
    ensures var (y, flow) := AfterCall(e, pr, x, k, pending, at);
      Core(e, y) && LandedKept(e, x, y) && (flow.Continue? ==> FaultOk(e, pr.fault, d, y) && LandedUpTo(e, y, k + 1))
  {
    var id := IdOf(e, k);
    var now := RecoveryTime(pr, x, id, pending);
    var p := PassAt(e, x.channel.data, now);
    var y := x.(store := Recovery.RecoverRun(p, pr.world, x.store));
    RecoverStands(e, pr.fault, d, x, now, pr.world, k);
    CoreKnows(e, x);
    ReadyToResolve(e, pr, x, y, k, pending, now);
    hide *;
    ResolvedThenAdvanced(e, pr, d, x, y, k, pending, at);
  }

  lemma ResolvedThenAdvanced(e: Env, pr: Process, d: Target.Data, x: State, y: State, k: nat, pending: bool,
                             at: Option<Point>)
    requires WellScripted(e) && (IsWrite(e, k) ==> LossCovered(e, pr.fault, d)) && IsTool(e, k)
    requires var p := PassAt(e, x.channel.data, RecoveryTime(pr, x, IdOf(e, k), pending));
      y == x.(store := Recovery.RecoverRun(p, pr.world, x.store)) && Resolvable(e, x, y, k, p, pending)
    requires Core(e, y) && FaultOk(e, pr.fault, d, y) && LandedUpTo(e, y, k) && LandedKept(e, x, y)
    ensures var (z, flow) := AfterCall(e, pr, x, k, pending, at);
      Core(e, z) && LandedKept(e, x, z) && (flow.Continue? ==> FaultOk(e, pr.fault, d, z) && LandedUpTo(e, z, k + 1))
  {
    var p := PassAt(e, x.channel.data, RecoveryTime(pr, x, IdOf(e, k), pending));
    ResolveKeeps(e, pr, d, x, y, k, p, pending);
    AfterCallIs(e, pr, x, k, pending, at);
    hide *;
    var (z, flow) := if pending then Resolve(e, pr, y, x.store, p, CallOf(e, k), IdOf(e, k)) else (y, Continue);
    LandedTrans(e, x, y, z);
    if flow.Continue? {
      AdvanceKeeps(e, pr, d, z, k, at);
      LandedTrans(e, x, z, Advance(e, pr, z, k, at).0);
    }
  }

  lemma LandedTrans(e: Env, x: State, y: State, z: State)
    ensures LandedKept(e, x, y) && LandedKept(e, y, z) ==> LandedKept(e, x, z)
  {
    hide Landed;
  }

  /** Between the pass (`x` before, `y` after) and its resolution: a write is replayed exactly if it was lost, and then
      it is known to be missing. */
  ghost predicate Resolvable(e: Env, x: State, y: State, k: int, p: Recovery.Pass, pending: bool) {
    IsWrite(e, k) ==> (
      && e.run in x.store.contexts && Mine(e, x, k) && (Landed(e, x, k) || (Lost(e, x, k) && pending))
      && (!Landed(e, x, k) ==> Missing(e, y, k)) && (Landed(e, x, k) ==> Landed(e, y, k))
      && (var r := Some(x.store.records[IdOf(e, k)]);
          (Coordinator.FinalDecision(p, IdOf(e, k), r).action == Recovery.Replay) <==> !Landed(e, x, k)))
  }

  lemma ReadyToResolve(e: Env, pr: Process, x: State, y: State, k: nat, pending: bool, now: real)
    requires IsTool(e, k) && now == RecoveryTime(pr, x, IdOf(e, k), pending) && e.run in x.store.contexts
    requires IsWrite(e, k) ==> Landed(e, x, k) || (Lost(e, x, k) && pending)
    requires forall j ::
      IsWrite(e, j) && Lost(e, x, j) && now >= x.store.records[IdOf(e, j)].updatedAt + 1.0 ==> Missing(e, y, j)
    requires LandedKept(e, x, y)
    ensures Resolvable(e, x, y, k, PassAt(e, x.channel.data, now), pending)
  {
    hide IdOf, Coordinator.FinalDecision, PassAt, Known, Replayable;
    if IsWrite(e, k) { ResolvedAction(e, x, k, now); }
  }

  lemma ResolveKeeps(e: Env, pr: Process, d: Target.Data, x: State, y: State, k: nat, p: Recovery.Pass, pending: bool)
    requires WellScripted(e) && Core(e, y) && FaultOk(e, pr.fault, d, y)
      && (IsWrite(e, k) ==> LossCovered(e, pr.fault, d)) && IsTool(e, k) && LandedUpTo(e, y, k)
    requires Resolvable(e, x, y, k, p, pending)
    ensures var (z, flow) := if pending then Resolve(e, pr, y, x.store, p, CallOf(e, k), IdOf(e, k)) else (y, Continue);
      Core(e, z) && LandedKept(e, y, z) && (flow.Continue? ==> FaultOk(e, pr.fault, d, z) && LandedUpTo(e, z, k + 1))
  {
    if IsWrite(e, k) {
      ExecuteWrite(e, pr, d, y, k);
    } else {
      ExecuteOther(e, pr, d, y, k, k);
    }
    hide IdOf, Coordinator.FinalDecision, Execute, WellScripted, Core, FaultOk, LossCovered, Lost, Missing, Landed;
  }

  /** A tool turn, however far it gets: if it goes on to the next turn, its write has landed. */
  lemma {:induction false} ToolStepKeeps(e: Env, pr: Process, d: Target.Data, x: State, k: nat, at: Option<Point>)
    requires WellScripted(e) && Core(e, x) && FaultOk(e, pr.fault, d, x)
      && (IsWrite(e, k) ==> LossCovered(e, pr.fault, d)) && IsTool(e, k) && LandedUpTo(e, x, k)
    ensures var (y, flow) := ToolStep(e, pr, x, k, at);
      Core(e, y) && LandedKept(e, x, y) && (flow.Continue? ==> FaultOk(e, pr.fault, d, y) && LandedUpTo(e, y, k + 1))
  {
    hide RecordLlmTurn, Execute, AfterCall, IdOf, WellScripted, Core, FaultOk, LossCovered, Landed, Lost;
    var turn, ck := e.script[k], pr.world.uuid(|x.store.log|);
    var r := RecordLlmTurn(x.store, e.run, ItemOf(e, k), turn.output, turn.rationale, turn.meta, e.cfg, ck);
    if r.Ok? {
      var y := x.(store := r.value);
      TurnKeeps(e, pr, d, x, k, r.value, ck);
      var (z, result) := Execute(e, pr, y, CallOf(e, k), IdOf(e, k));
      if IsWrite(e, k) { ExecuteWrite(e, pr, d, y, k); } else { ExecuteOther(e, pr, d, y, k, k); }
      if result.Ok? && result.value != Failed {
        AfterCallKeeps(e, pr, d, z, k, result.value == PendingRecovery, at);
      }
    }
  }

  lemma TurnKeeps(e: Env, pr: Process, d: Target.Data, x: State, k: nat, s: Store, ck: string)
    requires Core(e, x) && FaultOk(e, pr.fault, d, x) && IsTool(e, k) && LandedUpTo(e, x, k)
    requires RecordLlmTurn(x.store, e.run, ItemOf(e, k), e.script[k].output, e.script[k].rationale, e.script[k].meta,
                           e.cfg, ck) ==
      Ok(s)
    ensures var y := x.(store := s);
      Core(e, y) && FaultOk(e, pr.fault, d, y) && LandedUpTo(e, y, k) && LandedKept(e, x, y)
  {
    hide RecordLlmTurn, DoneItems, Core, FaultOk, ItemOf, Context.Validate;
    var turn, y := e.script[k], x.(store := s);
    Effects.TurnEffect(x.store, OpLlmTurn(e.run, ItemOf(e, k), turn.output, turn.rationale, turn.meta), 0.0, e.cfg, ck);
    DriverFrames.TurnDone(x.store, e.run, ItemOf(e, k), turn.output, turn.rationale, turn.meta, e.cfg, ck);
    CoreKnows(e, x);
    var clean := Context.Validate(Context.Message("assistant", turn.rationale, None, None, turn.meta)).value;
    StillIn(x.store, s, e.run,
            Effects.ViewOf(x.store, e.run).(messages := Effects.MessagesOf(x.store, e.run) + [clean]));
    Frame(e, pr.fault, d, x, y, k);
  }

  lemma FinalStepKeeps(e: Env, pr: Process, d: Target.Data, x: State, k: nat, at: Option<Point>)
    requires WellScripted(e) && Core(e, x) && FaultOk(e, pr.fault, d, x) && k < |e.script| && e.script[k].FinalTurn?
      && LandedUpTo(e, x, k)
    ensures var (y, flow) := FinalStep(e, pr, x, k, at);
      Core(e, y) && LandedKept(e, x, y) && (flow.Continue? ==> FaultOk(e, pr.fault, d, y) && LandedUpTo(e, y, k + 1))
  {
    hide RecordContextMessage, Advance, DoneItems, WellScripted, Core, FaultOk, Context.Validate;
    var m := Context.Message("assistant", e.script[k].answer, None, None, e.script[k].meta);
    var ck := pr.world.uuid(|x.store.log|);
    Effects.MessageEffect(x.store, e.run, m, e.cfg, ck);
    DriverFrames.MessageDone(x.store, e.run, m, e.cfg, ck);
    var r := RecordContextMessage(x.store, e.run, m, e.cfg, ck);
    if r.Ok? {
      var y := x.(store := r.value);
      StillIn(x.store, r.value, e.run,
              Effects.ViewOf(x.store,
                             e.run).(messages := Effects.MessagesOf(x.store, e.run) + [Context.Validate(m).value]));
      SamePlansSameDone(x.store, r.value, e.run);
      Frame(e, pr.fault, d, x, y, k);
      assert LandedUpTo(e, y, k + 1);
      AdvanceKeeps(e, pr, d, y, k, at);
    }
  }

  ghost predicate CompletedLanded(e: Env, x: State, completed: set<string>) {
    forall k :: IsWrite(e, k) && k < e.items && ItemOf(e, k) in completed ==> Landed(e, x, k)
  }

  lemma {:induction false} LoopKeeps(e: Env, pr: Process, d: Target.Data, x: State, k: nat, completed: set<string>)
    requires WellScripted(e) && Core(e, x) && FaultOk(e, pr.fault, d, x) && LossCovered(e, pr.fault, d)
    requires k <= |e.script| && LandedUpTo(e, x, k) && CompletedLanded(e, x, completed)
    ensures var (y, flow) := Loop(e, pr, x, k, completed);
      Core(e, y) && (flow.Continue? ==> LandedUpTo(e, y, |e.script|))
    decreases |e.script| - k
  {
    hide ToolStep, FinalStep, IdOf, ItemOf, WellScripted, Core, FaultOk, LossCovered, Landed;
    if k < |e.script| {
      if ItemOf(e, k) in completed && k < e.items {
        assert LandedUpTo(e, x, k + 1);
        LoopKeeps(e, pr, d, x, k + 1, completed);
      } else {
        var at := if pr.crash.Some? && pr.crash.value.0 == k then Some(pr.crash.value.1) else None;
        var (y, flow) := if e.script[k].ToolTurn? then ToolStep(e, pr, x, k, at) else FinalStep(e, pr, x, k, at);
        if e.script[k].ToolTurn? { ToolStepKeeps(e, pr, d, x, k, at); } else { FinalStepKeeps(e, pr, d, x, k, at); }
        if flow.Continue? { LoopKeeps(e, pr, d, y, k + 1, completed); }
      }
    }
  }

  // ---------------------------------------------------------------- any number of processes

  /** One process after the other on the same store and target; how the last one ended. */
  function RunProcesses(e: Env, s: Store, d: Target.Data, prs: seq<Process>): (State, Flow) {
    if prs == [] then (State(s, Adapter.Channel(d, false)), Crashed)
    else
      var x := RunProcesses(e, s, d, prs[..|prs| - 1]).0;
      RunProcess(e, prs[|prs| - 1], x.store, x.channel.data)
  }

  /** A run that was just created on a target that has committed nothing. */
  predicate FreshStart(e: Env, s: Store, d: Target.Data) {
    && e.run in s.contexts && DoneItems(s, e.run) == {}
    && (forall k :: 0 <= k < |e.script| && IsWrite(e, k) ==> IdOf(e, k) !in s.records)
    && d.stats == Target.EMPTY_STATS && d.actionLog == map[] && d.idempotent == map[] && d.rifl == map[]
  }

  /** Only the first process may lose a request or an answer, and a lost request must be one that recovery can
      replay. */
  ghost predicate FaultPlan(e: Env, d: Target.Data, prs: seq<Process>) {
    && (forall i :: 1 <= i < |prs| ==> prs[i].fault.NoFault?)
    && (prs != [] ==> LossCovered(e, prs[0].fault, d))
  }

  lemma StartCore(e: Env, s: Store, d: Target.Data, fault: Adapter.Fault)
    requires WellScripted(e) && FreshStart(e, s, d)
    ensures var x := State(s, Adapter.Channel(d, false));
      Core(e, x) && FaultOk(e, fault, d, x) && CompletedLanded(e, x, DoneItems(s, e.run))
  {
    hide IdOf, Replayable, ItemOf;
    var x := State(s, Adapter.Channel(d, false));
    forall k | IsWrite(e, k) ensures Clean(e, x, k) {}
  }

  /** A later process starts with nothing but what is durable. */
  lemma RestartOk(e: Env, x: State, d: Target.Data)
    requires Core(e, x)
    ensures var y := State(x.store, Adapter.Channel(x.channel.data, false));
      Core(e, y) && FaultOk(e, Adapter.NoFault, d, y) && CompletedLanded(e, y, DoneItems(y.store, e.run))
  {
    hide IdOf, Replayable, ItemOf, DoneItems, OnlyWrites, Known;
  }

  lemma {:induction false} ProcessesKeep(e: Env, s: Store, d: Target.Data, prs: seq<Process>)
    requires WellScripted(e) && FreshStart(e, s, d) && FaultPlan(e, d, prs)
    ensures var (x, flow) := RunProcesses(e, s, d, prs);
      Core(e, x) && (prs != [] && flow.Continue? ==> LandedUpTo(e, x, |e.script|))
  {
    hide WellScripted, Core, FaultOk, LossCovered, Loop, FreshStart, DoneItems, CompletedLanded;
    if prs == [] {
      StartCore(e, s, d, Adapter.NoFault);
    } else {
      var rest, pr := prs[..|prs| - 1], prs[|prs| - 1];
      ProcessesKeep(e, s, d, rest);
      var x := RunProcesses(e, s, d, rest).0;
      if rest == [] {
        StartCore(e, s, d, pr.fault);
        LoopKeeps(e, pr, d, State(s, Adapter.Channel(d, false)), 0, DoneItems(s, e.run));
      } else {
        RestartOk(e, x, d);
        NoFaultCovered(e, pr.fault, d);
        LoopKeeps(e, pr, d, State(x.store, Adapter.Channel(x.channel.data, false)), 0, DoneItems(x.store, e.run));
      }
    }
  }

  lemma NoFaultCovered(e: Env, fault: Adapter.Fault, d: Target.Data)
    requires fault.NoFault?
    ensures LossCovered(e, fault, d)
  {
  }

  /** Exactly once: whatever crashes at the crash points, in however many processes, when the loop has completed the
      target holds one commit for every scripted write and no other, and every write's record is there to answer for
      it. */
  lemma {:induction false} ExactlyOnce(e: Env, s: Store, d: Target.Data, prs: seq<Process>)
    requires WellScripted(e) && FreshStart(e, s, d) && FaultPlan(e, d, prs)
    requires prs != [] && RunProcesses(e, s, d, prs).1.Continue?
    ensures var x := RunProcesses(e, s, d, prs).0;
      && x.channel.data.idempotent.Keys == WriteIds(e, |e.script|)
      && x.channel.data.stats.total == |WriteIds(e, |e.script|)| == CountWrites(e, |e.script|)
      && (forall k :: IsWrite(e, k) ==> IdOf(e, k) in x.store.records && x.store.records[IdOf(e, k)].run == e.run)
  {
    ProcessesKeep(e, s, d, prs);
    hide RunProcesses, IdOf, FreshStart, FaultPlan;
    var x := RunProcesses(e, s, d, prs).0;
    AllLanded(e, x);
    WritesCounted(e, |e.script|);
  }

  lemma AllLanded(e: Env, x: State)
    requires Core(e, x) && LandedUpTo(e, x, |e.script|)
    ensures x.channel.data.idempotent.Keys == WriteIds(e, |e.script|)
    ensures x.channel.data.stats.total == |WriteIds(e, |e.script|)|
    ensures forall k :: IsWrite(e, k) ==> IdOf(e, k) in x.store.records && x.store.records[IdOf(e, k)].run == e.run
  {
    hide IdOf, Stands, InOrder, DoneLanded;
    forall id | id in WriteIds(e, |e.script|) ensures id in x.channel.data.idempotent {
      var k :| 0 <= k < |e.script| && IsWrite(e, k) && IdOf(e, k) == id;
      assert Landed(e, x, k);
    }
    assert |x.channel.data.idempotent| == |x.channel.data.idempotent.Keys|;
  }

  function CountWrites(e: Env, n: nat): nat {
    if n == 0 then 0 else CountWrites(e, n - 1) + if IsWrite(e, n - 1) then 1 else 0
  }

  /** Distinct ids: as many ids as writes. */
  lemma {:induction false} WritesCounted(e: Env, n: nat)
    requires WellScripted(e)
    ensures |WriteIds(e, n)| == CountWrites(e, n)
  {
    hide IdOf, WellScripted;
    if n > 0 {
      WritesCounted(e, n - 1);
      OneMoreWrite(e, n - 1);
      hide WriteIds;
    }
  }

  lemma OneMoreWrite(e: Env, n: nat)
    requires WellScripted(e)
    ensures WriteIds(e, n + 1) == if IsWrite(e, n) then WriteIds(e, n) + {IdOf(e, n)} else WriteIds(e, n)
    ensures IsWrite(e, n) ==> IdOf(e, n) !in WriteIds(e, n)
  {
    hide IdOf;
    forall id ensures id in WriteIds(e, n + 1) <==> id in WriteIds(e, n) || (IsWrite(e, n) && id == IdOf(e, n)) {
      if id in WriteIds(e, n) { var k :| 0 <= k < n && IsWrite(e, k) && IdOf(e, k) == id; }
      if IsWrite(e, n) && id == IdOf(e, n) { var k := n; assert 0 <= k < n + 1 && IsWrite(e, k) && IdOf(e, k) == id; }
    }
  }
}
