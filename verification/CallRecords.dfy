/** What a tool call and its result leave in the durable record, in terms of what was answered. */
module CallRecords {
  import opened Prelude
  import opened Json
  import opened Models
  import opened Facade
  import opened Executor
  import Effects

  // ---------------------------------------------------------------- recording a result

  /** Given, and not the empty text or the empty request, which count as not given. */
  predicate GivenTool(a: ResultArgs) { a.tool.Some? && a.tool.value != "" }

  predicate GivenRequest(a: ResultArgs) { a.request.Some? && a.request.value != map[] }

  /** The status a result has without an explicit one. */
  function StatusFor(result: ResultStatus): ExecutionStatus {
    match result
    case ResultOk => Acked
    case ResultError => ExecutionFailed
    case ResultTimeout => Dispatched
    case ResultUnknown => Dispatched
  }

  function StatusAsked(a: ResultArgs): ExecutionStatus {
    if a.status.Some? then a.status.value else StatusFor(a.result)
  }

  /** `x` is what these arguments make of the record `cached`: the outcome is theirs, what they leave out is its. */
  predicate Outcome(cached: Option<ExternalResult>, x: ExternalResult, run: RunId, a: ResultArgs, now: real) {
    && x.run == run && x.updatedAt == now
    && x.response == a.response && x.result == a.result && x.error == a.error && x.status == StatusAsked(a)
    && (GivenTool(a) ==> Some(x.tool) == a.tool) && (a.op.Some? ==> Some(x.op) == a.op)
    && (GivenRequest(a) ==> Some(x.request) == a.request) && (a.item.Some? ==> x.item == a.item)
    && (cached.Some? ==>
          && (!GivenTool(a) ==> x.tool == cached.value.tool) && (a.op.None? ==> x.op == cached.value.op)
          && (!GivenRequest(a) ==> x.request == cached.value.request) && (a.item.None? ==> x.item == cached.value.item))
  }

  /** Every field of the record after an accepted result, and when a result is accepted. The id leaves the pending list
      unless the caller keeps it there or the outcome is still open. */
  lemma {:induction false} ResultMakesRecord(s: Store, run: RunId, id: ExecId, a: ResultArgs, now: real, cfg: Config,
                                             ck: string)
    ensures var r := RecordToolResult(s, run, id, a, now, cfg, ck);
      && (r.Ok? <==>
            && run in s.contexts
            && (id in s.records ==> s.records[id].run == run && Allowed(s.records[id].status, StatusAsked(a)))
            && (id !in s.records ==> GivenTool(a) && a.op.Some? && GivenRequest(a)))
      && (r.Ok? ==>
            && id in r.value.records && Outcome(Lookup(s.records, id), r.value.records[id], run, a, now)
            && r.value.records == s.records[id := r.value.records[id]]
            && var open := StatusAsked(a) == IntentLogged || StatusAsked(a) == Dispatched;
               Effects.PendingOf(r.value, run) ==
                 if a.clearPending && !open then Without(Effects.PendingOf(s, run), id) else Effects.PendingOf(s, run))
  {
    hide RecordToolResult, Allowed;
    Effects.ResultEffect(s, run, id, a, now, cfg, ck);
    var r := RecordToolResult(s, run, id, a, now, cfg, ck);
    if r.Ok? { assert Effects.ViewOf(r.value, run).pending == Effects.PendingOf(r.value, run); }
  }

  // ---------------------------------------------------------------- one call

  /** What the record of a call says once its answer is recorded: an answer is kept as it came, an error by its text;
      only a write whose answer was lost stays open, where it was. */
  predicate Tells(c: ToolCall, replay: bool, a: Answer, x: ExternalResult) {
    && x.run == c.ident.run && x.item == Some(c.ident.item) && x.op == c.op
    && (c.ident.tool != "" ==> x.tool == c.ident.tool) && (c.ident.args != map[] ==> x.request == c.ident.args)
    && match a
       case Answered(p) => x.response == Some(p) && x.result == ResultOk && x.error.None? && x.status == Acked
       case Ambiguous(e) =>
         && x.response.None? && x.error == Some(e)
         && (x.result == ResultTimeout <==> c.op == WRITE) && (x.result == ResultError <==> c.op == READ)
         && x.status == if c.op == READ then ExecutionFailed else if replay then VerifiedNotFound else Dispatched
       case Failure(e) =>
         x.response.None? && x.error == Some(e) && x.result == ResultError && x.status == ExecutionFailed
  }

  /** What the caller of the call is told. */
  function DispositionFor(c: ToolCall, a: Answer): Disposition {
    match a
    case Answered(_) => Succeeded
    case Ambiguous(_) => if c.op == WRITE then PendingRecovery else Failed
    case Failure(_) => Failed
  }

  lemma AnswerIsTold(c: ToolCall, replay: bool, a: Answer, cached: Option<ExternalResult>, x: ExternalResult, now: real)
    requires Outcome(cached, x, c.ident.run, AnswerArgs(c, replay, a), now)
    ensures Tells(c, replay, a, x) && AnswerDisposition(c, a) == DispositionFor(c, a)
  {
  }

  /** The result of a call that was invoked, if it is recorded. */
  lemma FinishTells(s: Store, id: ExecId, c: ToolCall, replay: bool, a: Answer, cfg: Config, w: World)
    ensures var r := Finish(s, id, c, replay, a, cfg, w);
      r.Ok? ==> id in r.value.records && Tells(c, replay, a, r.value.records[id])
    ensures AnswerDisposition(c, a) == DispositionFor(c, a)
  {
    var r := Finish(s, id, c, replay, a, cfg, w);
    ResultMakesRecord(s, c.ident.run, id, AnswerArgs(c, replay, a), w.clock(|s.log|), cfg, w.uuid(|s.log|));
    hide RecordToolResult, AnswerArgs, Outcome, Tells, Allowed, GivenRequest, GivenTool;
    if r.Ok? {
      AnswerIsTold(c, replay, a, Lookup(s.records, id), r.value.records[id], w.clock(|s.log|));
    }
  }

  /** The record that a call waits on: open, and of its run. */
  lemma FinishGoes(s: Store, id: ExecId, c: ToolCall, dispatchReads: bool, a: Answer, cfg: Config, w: World)
    requires cfg.dedup && c.ident.run in s.contexts && (id in s.records ==> s.records[id].run == c.ident.run)
    ensures var p := Prepare(s, id, c, dispatchReads, cfg, w);
      p.Ready? ==>
        && Finish(p.store, id, c, p.replay, a, cfg, w).Ok?
        && id in p.store.records && (p.replay <==> id in s.records)
        && p.store.records[id].status ==
             (if p.replay then VerifiedNotFound else if c.op == WRITE
              || dispatchReads then Dispatched else IntentLogged)
  {
    var run := c.ident.run;
    PreparedRecord(s, id, c, dispatchReads, cfg, w);
    hide RecordToolResult, RecordToolIntent, RecordToolDispatch, Prepare;
    var p := Prepare(s, id, c, dispatchReads, cfg, w);
    if p.Ready? {
      ResultMakesRecord(p.store, run, id, AnswerArgs(c, p.replay, a), w.clock(|p.store.log|), cfg,
                        w.uuid(|p.store.log|));
    }
  }

  lemma PreparedRecord(s: Store, id: ExecId, c: ToolCall, dispatchReads: bool, cfg: Config, w: World)
    requires cfg.dedup && c.ident.run in s.contexts && (id in s.records ==> s.records[id].run == c.ident.run)
    ensures var p := Prepare(s, id, c, dispatchReads, cfg, w);
      p.Ready? ==>
        && id in p.store.records && p.store.records[id].run == c.ident.run && (p.replay <==> id in s.records)
        && c.ident.run in p.store.contexts
        && p.store.records[id].status ==
             (if p.replay then VerifiedNotFound else if c.op == WRITE
              || dispatchReads then Dispatched else IntentLogged)
  {
    var run := c.ident.run;
    hide RecordToolIntent, RecordToolDispatch;
    if id !in s.records {
      var now, ck := w.clock(|s.log|), w.uuid(|s.log|);
      Effects.IntentEffect(s, run, c.ident.item, id, c.ident.tool, c.op, c.ident.args, now, cfg, ck);
      var r := RecordToolIntent(s, run, c.ident.item, id, c.ident.tool, c.op, c.ident.args, now, cfg, ck);
      if r.Ok? && id in r.value.records {
        var t := r.value;
        assert Effects.ViewOf(t, run).known ==> run in t.contexts;
        Effects.DispatchEffect(t, run, id, w.clock(|t.log|), cfg, w.uuid(|t.log|));
        var u := RecordToolDispatch(t, run, id, w.clock(|t.log|), cfg, w.uuid(|t.log|));
        if u.Ok? { assert Effects.ViewOf(u.value, run).known ==> run in u.value.contexts; }
      }
    }
  }
}
