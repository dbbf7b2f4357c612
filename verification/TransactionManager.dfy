/** `execute_tool` as the method it is: look up, log the intent, mark the dispatch, invoke, record the result. */
module Transactions {
  import opened Prelude
  import opened Models
  import opened Facade
  import opened Executor
  import Adapter
  import CallRecords
  import Identity
  import Logging
  import Target

  const INTENT_REFUSED := "tool intent refused"
  const INTENT_MISSING := "tool intent missing after logging"
  const DISPATCH_REFUSED := "dispatch refused"
  const RESULT_REFUSED := "tool result refused"

  /** A call of a known run, under an id that no other run has. */
  predicate Known(s: Store, id: ExecId, c: ToolCall, cfg: Config) {
    cfg.dedup && c.ident.run in s.contexts && (id in s.records ==> s.records[id].run == c.ident.run)
  }

  class TransactionManager {
    const service: Logging.LoggingService
    const dispatchReads: bool
    const digest: string -> string

    constructor (service: Logging.LoggingService, dispatchReads: bool, digest: string -> string)
      ensures this.service == service && this.dispatchReads == dispatchReads && this.digest == digest
    {
      this.service, this.dispatchReads, this.digest := service, dispatchReads, digest;
    }

    /** `Err` is an exception out of the call. The adapter is called at most once, and only when the preparation says
        so. */
    method ExecuteTool(c: ToolCall, adapter: Adapter.ReplayToolAdapter, w: World, spare: ExecId,
                       receipt: Target.Receipt)
      returns (result: Outcome<Disposition>)
      modifies service, adapter, adapter.target
      ensures var id := Identity.BuildId(digest, c.ident);
        match Prepare(old(service.State()), id, c, dispatchReads, service.cfg, w)
        case Settled(s, d) => service.State() == s && result == Ok(d) && adapter.State() == old(adapter.State())
        case Stopped(s) => service.State() == s && result.Err? && adapter.State() == old(adapter.State())
        case Ready(s, replay) =>
          var (channel, answer) := Adapter.Invoke(old(adapter.State()), adapter.fault, adapter.query, adapter.target.fp,
                                                  c.ident.tool, c.ident.args, ForwardedId(c, id), spare, receipt);
          var after := Finish(s, id, c, replay, answer, service.cfg, w);
          && adapter.State() == channel
          && service.State() == Logging.Settle(s, after)
          && (after.Ok? ==> result == Ok(AnswerDisposition(c, answer))) && (after.Err? ==> result.Err?)
      ensures var id := Identity.BuildId(digest, c.ident); var before := old(service.State());
        match Prepare(before, id, c, dispatchReads, service.cfg, w)
        case Settled(_, _) => true
        case Stopped(_) => true
        case Ready(s, replay) =>
          var answer := Adapter.Invoke(old(adapter.State()), adapter.fault, adapter.query, adapter.target.fp,
                                       c.ident.tool, c.ident.args, ForwardedId(c, id), spare, receipt).1;
          && (result.Ok? ==>
                && id in service.records && CallRecords.Tells(c, replay, answer, service.records[id])
                && result.value == CallRecords.DispositionFor(c, answer))
          && (Known(before, id, c, service.cfg) ==> result.Ok?)
    {
      hide RecordToolIntent, RecordToolDispatch, RecordToolResult, Adapter.Invoke, Identity.BuildId, AnswerArgs,
           CallRecords.Tells, AnswerDisposition, CallRecords.DispositionFor;
      var id := Identity.BuildId(digest, c.ident);
      var run := c.ident.run;
      var replay := false;
      ghost var before := service.State();
      if id in service.records {
        if service.records[id].status != VerifiedNotFound { return Ok(HandleExisting(service.records[id].status)); }
        replay := true;
      }
      if !replay {
        var logged := service.RecordToolIntent(run, c.ident.item, id, c.ident.tool, c.op, c.ident.args,
                                               w.clock(|service.log|), w.uuid(|service.log|));
        if !logged { return Err(INTENT_REFUSED); }
        if id !in service.records { return Err(INTENT_MISSING); }
        if service.records[id].status != IntentLogged { return Ok(HandleExisting(service.records[id].status)); }
        if c.op == WRITE || dispatchReads {
          var marked := service.RecordToolDispatch(run, id, w.clock(|service.log|), w.uuid(|service.log|));
          if !marked { return Err(DISPATCH_REFUSED); }
        }
      }
      var answer := adapter.InvokeTool(c.ident.tool, c.ident.args, ForwardedId(c, id), spare, receipt);
      ghost var prepared := service.State();
      CallRecords.FinishTells(prepared, id, c, replay, answer, service.cfg, w);
      if Known(before, id, c, service.cfg) {
        CallRecords.FinishGoes(before, id, c, dispatchReads, answer, service.cfg, w);
      }
      var recorded := service.RecordToolResult(run, id, AnswerArgs(c, replay, answer), w.clock(|service.log|),
                                               w.uuid(|service.log|));
      if !recorded { return Err(RESULT_REFUSED); }
      return Ok(AnswerDisposition(c, answer));
    }
  }
}
