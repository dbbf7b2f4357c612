/** Every facade operation as the program of nested scopes that it is: one scope around it, and one around each of its
    writes. */
module FacadeScopes {
  import opened Prelude
  import opened Models
  import opened Facade
  import Context
  import Json
  import Logging
  import Planner
  import Rebuild
  import Transaction

  // ---------------------------------------------------------------- writes

  datatype PlanChange =
    | Create(source: string, items: seq<Planner.RawItem>)
    | Output(item: string, output: string)
    | Ref(item: string, id: ExecId)
    | Move(item: string, status: string, note: Option<string>)
    | Choose(item: string)

  datatype ContextChange =
    | Init(seed: seq<Context.Message>, memory: map<string, Json.Json>, force: bool)
    | Say(message: Context.Message)
    | Await(id: ExecId)
    | Clear(id: ExecId)
    | Follow

  /** One write of an operation. Those of a checkpoint are made only when the log is at a multiple of `every`. */
  datatype Write =
    | Refuse
    | LogEvent(event: Event)
    | LogAwaiting(id: ExecId)
    | LogClearing(id: ExecId)
    | LogFollowing
    | LogCheckpoint(id: string, kind: string, every: int)
    | SavePlan(plan: PlanChange)
    | SaveContext(context: ContextChange)
    | SavePointer(every: int)
    | SaveRecord(id: ExecId, record: ExternalResult)
    | SaveCheckpoint(id: string, kind: string, withResults: bool, every: int)
    | NeedContext

  function ChangedPlan(s: Store, run: RunId, c: PlanChange): Outcome<Planner.Plan> {
    if c.Create? then Planner.CreatePlan(c.source, c.items)
    else if run !in s.plans then Err(NO_PLAN)
    else
      match c
      case Output(item, output) => Planner.AttachOutput(s.plans[run], item, output)
      case Ref(item, id) => Planner.AttachRef(s.plans[run], item, id)
      case Move(item, status, note) => Planner.UpdateStatus(s.plans[run], item, status, note)
      case Choose(item) => Planner.SetActive(s.plans[run], item)
  }

  function ChangedContext(s: Store, run: RunId, c: ContextChange): Outcome<Context.Snapshot> {
    if c.Init? then InitialContext(s, run, c.seed, c.memory, c.force)
    else if run !in s.contexts then Err(NO_CONTEXT)
    else
      match c
      case Say(m) => Context.AppendMessage(s.contexts[run], m)
      case Await(id) => Context.AddPending(s.contexts[run], id)
      case Clear(id) =>
        Ok(if id in s.contexts[run].pending then Context.ClearPending(s.contexts[run], id) else s.contexts[run])
      case Follow =>
        if run !in s.plans then Err(NO_PLAN)
        else Ok(Context.SyncPlanner(s.contexts[run], s.plans[run].version, s.plans[run].cursor))
  }

  /** A manual checkpoint is always due; an automatic one when the last sequence number is a multiple of the
      interval. */
  predicate Due(s: Store, run: RunId, every: int) {
    LatestSeq(s.log, run) > 0 && every > 0 && LatestSeq(s.log, run) % every == 0
  }

  function Exec(s: Store, run: RunId, w: Write): Outcome<Store> {
    match w
    case Refuse => Err("refused")
    case NeedContext => if run in s.contexts then Ok(s) else Err(NO_CONTEXT)
    case LogEvent(e) => Ok(Append(s, run, e))
    case LogAwaiting(id) =>
      if run !in s.contexts then Err(NO_CONTEXT)
      else
        var pending := Context.PendingWith(s.contexts[run].pending, id);
        Ok(Append(s, run, PendingSet(Last(pending), pending)))
    case LogClearing(id) =>
      if run !in s.contexts || id !in s.contexts[run].pending then Ok(s)
      else
        var after := Without(s.contexts[run].pending, id);
        Ok(Append(s, run, PendingSet(Last(after), after)))
    case LogFollowing =>
      if run !in s.plans || run !in s.contexts then Err(NO_CONTEXT)
      else Ok(Append(s, run, Synchronized(s.plans[run].version, s.plans[run].cursor)))
    case SavePlan(c) => (match ChangedPlan(s, run, c) case Ok(p) => Ok(PutPlan(s, run, p)) case Err(e) => Err(e))
    case SaveContext(c) =>
      (match ChangedContext(s, run, c) case Ok(p) => Ok(PutContext(s, run, p)) case Err(e) => Err(e))
    case SaveRecord(id, r) => Ok(PutRecord(s, id, r))
    case SaveCheckpoint(id, kind, withResults, every) =>
      if !Due(s, run, every) then Ok(s)
      else
        var c := Checkpoint(id, run, LatestSeq(s.log, run), kind, Lookup(s.plans, run), Lookup(s.contexts, run),
                            ResultsIf(s, run, withResults));
        Ok(s.(checkpoints := s.checkpoints + [c]))
    case SavePointer(every) =>
      if !Due(s, run, every) || run !in s.contexts then Ok(s)
      else Ok(PutContext(s, run, Context.CheckpointContext(s.contexts[run], LatestSeq(s.log, run))))
    case LogCheckpoint(id, kind, every) =>
      if !Due(s, run, every) then Ok(s) else Ok(Append(s, run, CheckpointWritten(id, LatestSeq(s.log, run), kind)))
  }

  function ExecAll(s: Store, run: RunId, ws: seq<Write>): Outcome<Store>
    decreases ws
  {
    if ws == [] then Ok(s)
    else
      match Exec(s, run, ws[0])
      case Ok(t) => ExecAll(t, run, ws[1..])
      case Err(e) => Err(e)
  }

  lemma {:induction false} ExecConcat(s: Store, run: RunId, a: seq<Write>, b: seq<Write>)
    ensures ExecAll(s, run, a + b) == match ExecAll(s, run, a) case Ok(t) => ExecAll(t, run, b) case Err(e) => Err(e)
    decreases a
  {
    hide Exec;
    if a == [] {
      assert a + b == b;
    } else {
      assert (a + b)[0] == a[0] && (a + b)[1..] == a[1..] + b;
      if Exec(s, run, a[0]).Ok? { ExecConcat(Exec(s, run, a[0]).value, run, a[1..], b); }
    }
  }

  // ---------------------------------------------------------------- scopes

  /** Each write in a scope of its own. */
  function Blocks(run: RunId, ws: seq<Write>): (r: seq<Transaction.Block<Store>>)
    ensures |r| == |ws|
  {
    seq(|ws|, i requires 0 <= i < |ws| => Transaction.Scope([Transaction.Do((s: Store) => Exec(s, run, ws[i]))]))
  }

  lemma OneWrite(f: Store -> Outcome<Store>, s: Store)
    ensures Transaction.Plain(Transaction.Scope([Transaction.Do(f)]), s) ==
      (if f(s).Ok? then f(s).value else s, f(s).Ok?)
  {
    var inner: seq<Transaction.Block<Store>> := [Transaction.Do(f)];
    assert inner[1..] == [];
    assert Transaction.PlainAll(inner, s) == (if f(s).Ok? then f(s).value else s, f(s).Ok?);
  }

  lemma {:induction false} BlocksRun(run: RunId, ws: seq<Write>, s: Store)
    ensures var (t, ok) := Transaction.PlainAll(Blocks(run, ws), s); var r := ExecAll(s, run, ws);
      ok == r.Ok? && (ok ==> t == r.value)
    decreases ws
  {
    hide Exec, Transaction.Plain;
    if ws != [] {
      var f := (t: Store) => Exec(t, run, ws[0]);
      OneWrite(f, s);
      assert Blocks(run, ws)[0] == Transaction.Scope([Transaction.Do((t: Store) => Exec(t, run, ws[0]))]);
      assert Blocks(run, ws)[1..] == Blocks(run, ws[1..]);
      if Exec(s, run, ws[0]).Ok? { BlocksRun(run, ws[1..], Exec(s, run, ws[0]).value); }
    }
  }

  // ---------------------------------------------------------------- the programs

  /** As written by the source: each event before the change it announces. */
  function Follows(): seq<Write> { [LogFollowing, SaveContext(Follow)] }

  function PlanPair(e: Event, c: PlanChange): seq<Write> { [LogEvent(e), SavePlan(c)] }

  function MessagePair(m: Context.Message): seq<Write> { [LogEvent(MessageAppended(m)), SaveContext(Say(m))] }

  function RecordPair(e: Event, id: ExecId, r: ExternalResult): seq<Write> {
    [LogEvent(e), NeedContext] + [SaveRecord(id, r)]
  }

  function Checkpoints(ck: string, kind: string, withResults: bool, every: int): seq<Write> {
    [SaveCheckpoint(ck, kind, withResults, every), SavePointer(every)] + [LogCheckpoint(ck, kind, every)]
  }

  function Automatic(cfg: Config, ck: string): seq<Write> { Checkpoints(ck, CONTEXT_KIND, false, cfg.interval) }

  /** Event, then record, then the pending list. */
  function ResultPart(e: Event, id: ExecId, r: ExternalResult, clear: bool): seq<Write> {
    RecordPair(e, id, r) + (if clear then [LogClearing(id), SaveContext(Clear(id))] else [])
  }

  function InitPair(op: Op): seq<Write>
    requires op.OpStart?
  {
    [LogEvent(ContextInitialized(op.seed, op.memory)), SaveContext(Init(op.seed, op.memory, op.force))]
  }

  /** Events before plan and context of a new or reset run. */
  function StartPart(op: Op): seq<Write>
    requires op.OpStart?
  {
    [LogEvent(RunStarted(|op.seed|, |op.items|))]
    + PlanPair(PlanCreated(op.source, op.items), Create(op.source, op.items))
    + InitPair(op)
  }

  /** Event, then plan, then the pending list, then the record if there is none. */
  function IntentPart(s: Store, op: Op, now: real): seq<Write>
    requires op.OpIntent?
  {
    PlanPair(IntentRecorded(op.id, op.item, op.tool, op.op, op.request), Ref(op.item, op.id))
    + ([LogAwaiting(op.id), SaveContext(Await(op.id))]
       + if op.id in s.records then []
         else [SaveRecord(op.id, IntentRecord(op.run, op.item, op.tool, op.op, op.request, now))])
  }

  /** The writes of an operation; `s` is the store as read when its transaction begins. */
  function Writes(s: Store, op: Op, now: real, cfg: Config, ck: string): seq<Write> {
    match op
    case OpStart(run, seed, source, items, memory, force) =>
      if run in s.plans && run in s.contexts && !force then []
      else
        StartPart(op) + Follows() + Automatic(cfg, ck)
    case OpMessage(_, m) => MessagePair(m) + Automatic(cfg, ck)
    case OpLlmTurn(_, item, output, text, meta) =>
      var m := Context.Message("assistant", text, None, None, meta);
      PlanPair(LlmOutputAttached(item, output), Output(item, output)) + MessagePair(m)
      + Follows() + Automatic(cfg, ck)
    case OpIntent(run, item, id, tool, kind, request) =>
      (match if cfg.dedup then IntentExists(s, run, id) else Ok(false)
       case Err(_) => [Refuse]
       case Ok(true) => if run in s.plans && run in s.contexts then [] else [Refuse]
       case Ok(false) =>
         IntentPart(s, op, now) + Follows() + Automatic(cfg, ck))
    case OpDispatch(run, id) =>
      if id !in s.records || s.records[id].run != run || !Allowed(s.records[id].status, Dispatched) then [Refuse]
      else
        var r := s.records[id].(status := Dispatched, updatedAt := now);
        RecordPair(DispatchRecorded(id, s.records[id].tool), id, r) + Automatic(cfg, ck)
    case OpResult(run, id, args) =>
      var cached := Lookup(s.records, id);
      if cached.Some?
        && (cached.value.run != run || !Allowed(cached.value.status, ResolveStatus(args.status, args.result))) then
        [Refuse]
      else
        (match ResultRecordOf(cached, run, args, now)
         case Err(_) => [Refuse]
         case Ok(r) =>
           var e := ResultRecorded(id, r.result, r.status, r.tool, r.op, r.item, r.response.Some?, r.error);
           ResultPart(e, id, r, ShouldClear(args)) + Automatic(cfg, ck))
    case OpAdvance(_, item, status, note) =>
      PlanPair(ItemStatusUpdated(item, status, note), Move(item, status, note)) + Follows() + Automatic(cfg, ck)
    case OpSetActive(_, item) =>
      PlanPair(ActiveItemSet(item), Choose(item)) + Follows() + Automatic(cfg, ck)
    case OpCheckpoint(run, kind, withResults) =>
      if LatestSeq(s.log, run) > 0 && kind == "" then [Refuse] else Checkpoints(ck, kind, withResults, 1)
  }

  /** Both raise, or both reach the same store. */
  predicate Same(r: Outcome<Store>, q: Outcome<Store>) { r.Ok? == q.Ok? && (r.Ok? ==> r.value == q.value) }

  lemma ExecOne(s: Store, run: RunId, a: Write)
    ensures ExecAll(s, run, [a]) == Exec(s, run, a)
  {
    hide Exec;
    assert [a][1..] == [];
    var r := Exec(s, run, a);
    if r.Ok? { assert ExecAll(r.value, run, []) == r; }
  }

  lemma ExecTwo(s: Store, run: RunId, a: Write, b: Write)
    ensures ExecAll(s, run, [a, b]) == match Exec(s, run, a) case Ok(t) => Exec(t, run, b) case Err(e) => Err(e)
  {
    hide Exec;
    ExecOne(s, run, a);
    if Exec(s, run, a).Ok? { ExecOne(Exec(s, run, a).value, run, b); }
    assert [a, b] == [a] + [b];
    ExecConcat(s, run, [a], [b]);
  }

  lemma CheckpointsRun(s: Store, run: RunId, ck: string, kind: string, withResults: bool, every: int)
    ensures ExecAll(s, run, Checkpoints(ck, kind, withResults, every)) ==
      Ok(if Due(s, run, every) then WriteCheckpoint(s, run, ck, kind, withResults) else s)
  {
    hide LatestSeq;
    var t := Exec(s, run, SaveCheckpoint(ck, kind, withResults, every)).value;
    var u := Exec(t, run, SavePointer(every)).value;
    ExecTwo(s, run, SaveCheckpoint(ck, kind, withResults, every), SavePointer(every));
    ExecOne(u, run, LogCheckpoint(ck, kind, every));
    ExecConcat(s, run, [SaveCheckpoint(ck, kind, withResults, every), SavePointer(every)],
               [LogCheckpoint(ck, kind, every)]);
  }

  lemma AutomaticRuns(s: Store, run: RunId, cfg: Config, ck: string)
    ensures ExecAll(s, run, Automatic(cfg, ck)) == Ok(AutoCheckpoint(s, run, cfg, ck))
  {
    CheckpointsRun(s, run, ck, CONTEXT_KIND, false, cfg.interval);
    hide LatestSeq;
  }

  /** The end of most operations: the pointers follow the plan, then the automatic checkpoint. */
  lemma EndRuns(s: Store, run: RunId, ws: seq<Write>, cfg: Config, ck: string)
    ensures ExecAll(s, run, ws + Automatic(cfg, ck)) ==
      match ExecAll(s, run, ws) case Ok(t) => Ok(AutoCheckpoint(t, run, cfg, ck)) case Err(e) => Err(e)
  {
    hide Exec, AutoCheckpoint, Automatic;
    ExecConcat(s, run, ws, Automatic(cfg, ck));
    var r := ExecAll(s, run, ws);
    if r.Ok? { AutomaticRuns(r.value, run, cfg, ck); }
  }

  lemma FollowsRun(s: Store, run: RunId, ws: seq<Write>)
    requires ExecAll(s, run, ws).Ok? ==> run in ExecAll(s, run, ws).value.plans
    ensures Same(ExecAll(s, run, ws + Follows()),
                 match ExecAll(s, run, ws) case Ok(t) => Synchronize(t, run, t.plans[run]) case Err(e) => Err(e))
  {
    ExecConcat(s, run, ws, Follows());
    var r := ExecAll(s, run, ws);
    hide ExecAll;
    if r.Ok? { ExecTwo(r.value, run, LogFollowing, SaveContext(Follow)); }
  }

  // ---------------------------------------------------------------- programs and functions agree

  /** Event, then plan. */
  lemma PlanRuns(s: Store, run: RunId, e: Event, c: PlanChange)
    ensures ExecAll(s, run, PlanPair(e, c)) == LogPlan(s, run, e, ChangedPlan(s, run, c))
  {
    ExecTwo(s, run, LogEvent(e), SavePlan(c));
    hide ExecAll;
    assert ChangedPlan(Append(s, run, e), run, c) == ChangedPlan(s, run, c);
    hide ChangedPlan;
  }

  /** Event, then message. */
  lemma MessageRuns(s: Store, run: RunId, m: Context.Message)
    ensures ExecAll(s, run, MessagePair(m)) == LogMessage(s, run, m)
  {
    ExecTwo(s, run, LogEvent(MessageAppended(m)), SaveContext(Say(m)));
    hide ExecAll, Context.AppendMessage;
  }

  /** What a new or reset run writes before its pointers are set. */
  function Started(s: Store, op: Op): Outcome<Store>
    requires op.OpStart?
  {
    var run := op.run;
    var begun := Append(s, run, RunStarted(|op.seed|, |op.items|));
    match LogPlan(begun, run, PlanCreated(op.source, op.items), Planner.CreatePlan(op.source, op.items))
    case Err(e) => Err(e)
    case Ok(a) =>
      match InitialContext(s, run, op.seed, op.memory, op.force)
      case Err(e) => Err(e)
      case Ok(context) => Ok(PutContext(Append(a, run, ContextInitialized(op.seed, op.memory)), run, context))
  }

  lemma InitRuns(s: Store, a: Store, op: Op)
    requires op.OpStart? && a.contexts == s.contexts
    ensures ExecAll(a, op.run, InitPair(op)) ==
      match InitialContext(s, op.run, op.seed, op.memory, op.force)
      case Err(e) => Err(e)
      case Ok(context) => Ok(PutContext(Append(a, op.run, ContextInitialized(op.seed, op.memory)), op.run, context))
  {
    ExecTwo(a, op.run, InitPair(op)[0], InitPair(op)[1]);
    InitKept(s, Append(a, op.run, ContextInitialized(op.seed, op.memory)), op.run, op);
    hide ExecAll, InitialContext;
  }

  lemma StartFront(s: Store, op: Op)
    requires op.OpStart?
    ensures ExecAll(s, op.run, StartPart(op)) == Started(s, op)
  {
    var run := op.run;
    var one, two := [LogEvent(RunStarted(|op.seed|, |op.items|))],
      PlanPair(PlanCreated(op.source, op.items), Create(op.source, op.items));
    assert StartPart(op) == one + two + InitPair(op);
    var begun := Append(s, run, RunStarted(|op.seed|, |op.items|));
    ExecOne(s, run, one[0]);
    PlanRuns(begun, run, PlanCreated(op.source, op.items), Create(op.source, op.items));
    hide ExecAll, Exec, Planner.CreatePlan, InitialContext, PlanPair, InitPair, StartPart;
    ExecConcat(s, run, one, two);
    ExecConcat(s, run, one + two, InitPair(op));
    var b := ExecAll(s, run, one + two);
    if b.Ok? { InitRuns(s, b.value, op); }
  }

  lemma StartWrites(s: Store, op: Op, now: real, cfg: Config, ck: string)
    requires op.OpStart?
    ensures Same(ExecAll(s, op.run, Writes(s, op, now, cfg, ck)), Perform(s, op, now, cfg, ck))
  {
    var run := op.run;
    EmptyRuns(s, run);
    StartFront(s, op);
    hide ExecAll, Exec, Planner.CreatePlan, InitialContext, AutoCheckpoint, Automatic, Follows, Synchronize, StartPart;
    if !(run in s.plans && run in s.contexts && !op.force) {
      FollowsRun(s, run, StartPart(op));
      EndRuns(s, run, StartPart(op) + Follows(), cfg, ck);
    }
  }

  lemma InitKept(s: Store, t: Store, run: RunId, op: Op)
    requires op.OpStart? && t.contexts == s.contexts
    ensures InitialContext(t, run, op.seed, op.memory, op.force) == InitialContext(s, run, op.seed, op.memory, op.force)
  {
  }

  lemma TurnWrites(s: Store, op: Op, now: real, cfg: Config, ck: string)
    requires op.OpMessage? || op.OpLlmTurn?
    ensures Same(ExecAll(s, op.run, Writes(s, op, now, cfg, ck)), Perform(s, op, now, cfg, ck))
  {
    hide ExecAll, Planner.AttachOutput, LogMessage, AutoCheckpoint, Automatic, Follows, Synchronize;
    var run := op.run;
    if op.OpMessage? {
      MessageRuns(s, run, op.message);
      EndRuns(s, run, MessagePair(op.message), cfg, ck);
    } else {
      var m := Context.Message("assistant", op.text, None, None, op.meta);
      var one, two := PlanPair(LlmOutputAttached(op.item, op.output), Output(op.item, op.output)), MessagePair(m);
      PlanRuns(s, run, one[0].event, one[1].plan);
      ExecConcat(s, run, one, two);
      var a := ExecAll(s, run, one);
      if a.Ok? {
        MessageRuns(a.value, run, m);
        Rebuild.MessageKeepsPlans(a.value, run, m);
      }
      FollowsRun(s, run, one + two);
      EndRuns(s, run, one + two + Follows(), cfg, ck);
    }
  }

  lemma PlanOpWrites(s: Store, op: Op, now: real, cfg: Config, ck: string)
    requires op.OpAdvance? || op.OpSetActive?
    ensures Same(ExecAll(s, op.run, Writes(s, op, now, cfg, ck)), Perform(s, op, now, cfg, ck))
  {
    hide ExecAll, Planner.UpdateStatus, Planner.SetActive, AutoCheckpoint, Automatic, Follows, Synchronize;
    var run := op.run;
    var one := if op.OpAdvance? then PlanPair(ItemStatusUpdated(op.item, op.status, op.note),
                                              Move(op.item, op.status, op.note))
               else PlanPair(ActiveItemSet(op.item), Choose(op.item));
    PlanRuns(s, run, one[0].event, one[1].plan);
    FollowsRun(s, run, one);
    EndRuns(s, run, one + Follows(), cfg, ck);
  }

  lemma IntentWrites(s: Store, op: Op, now: real, cfg: Config, ck: string)
    requires op.OpIntent?
    ensures Same(ExecAll(s, op.run, Writes(s, op, now, cfg, ck)), Perform(s, op, now, cfg, ck))
  {
    hide IntentExists, IntentTail, Planner.AttachRef, ExecAll, Automatic, Follows, IntentPart;
    var run, id := op.run, op.id;
    var known := if cfg.dedup then IntentExists(s, run, id) else Ok(false);
    if known == Ok(false) {
      IntentTailWrites(s, op, now, cfg, ck);
    } else {
      RefuseRuns(s, run);
      EmptyRuns(s, run);
    }
  }

  lemma EmptyRuns(s: Store, run: RunId)
    ensures ExecAll(s, run, []) == Ok(s)
  {
  }

  /** The store after the pending list and the record of a new intent. */
  function Awaited(a: Store, op: Op, record: ExternalResult): Outcome<Store>
    requires op.OpIntent?
  {
    if op.run !in a.contexts then Err(NO_CONTEXT)
    else
      var pending := Context.PendingWith(a.contexts[op.run].pending, op.id);
      match Context.AddPending(a.contexts[op.run], op.id)
      case Err(e) => Err(e)
      case Ok(context) =>
        var b := PutContext(Append(a, op.run, PendingSet(Last(pending), pending)), op.run, context);
        Ok(if op.id in a.records then b else PutRecord(b, op.id, record))
  }

  lemma AwaitedRuns(a: Store, op: Op, r: ExternalResult)
    requires op.OpIntent?
    ensures
      var three := if op.id in a.records then [] else [SaveRecord(op.id, r)];
      ExecAll(a, op.run, [LogAwaiting(op.id), SaveContext(Await(op.id))] + three) ==
      Awaited(a, op, r)
  {
    hide ExecAll, Last, Context.PendingWith;
    var two, three :=
      [LogAwaiting(op.id), SaveContext(Await(op.id))], if op.id in a.records then []
      else [SaveRecord(op.id, r)];
    ExecTwo(a, op.run, two[0], two[1]);
    ExecConcat(a, op.run, two, three);
    var b := ExecAll(a, op.run, two);
    if b.Ok? {
      EmptyRuns(b.value, op.run);
      ExecOne(b.value, op.run, SaveRecord(op.id, r));
    }
  }

  lemma TailIsAwaited(a: Store, op: Op, now: real, cfg: Config, ck: string)
    requires op.OpIntent? && op.run in a.plans
    ensures var r := Awaited(a, op, IntentRecord(op.run, op.item, op.tool, op.op, op.request, now));
      && (r.Ok? ==> op.run in r.value.plans)
      && Same(IntentTail(a, op.run, op.item, op.id, op.tool, op.op, op.request, now, cfg, ck),
              match r
              case Err(e) => Err(e)
              case Ok(t) =>
                match Synchronize(t, op.run, t.plans[op.run])
                case Ok(u) => Ok(AutoCheckpoint(u, op.run, cfg, ck))
                case Err(e) => Err(e))
  {
    hide Last, Context.PendingWith, Synchronize, AutoCheckpoint;
  }

  lemma IntentTailWrites(s: Store, op: Op, now: real, cfg: Config, ck: string)
    requires op.OpIntent?
    ensures
      var run, id := op.run, op.id;
      var a := LogPlan(s, run, IntentRecorded(id, op.item, op.tool, op.op, op.request),
                       ChangedPlan(s, run, Ref(op.item, id)));
      var r := ExecAll(s, run, IntentPart(s, op, now) + Follows() + Automatic(cfg, ck));
      if a.Ok? then
        run in a.value.plans && Same(r, IntentTail(a.value, run, op.item, id, op.tool, op.op, op.request, now, cfg, ck))
      else r.Err?
  {
    var run, id := op.run, op.id;
    var one := PlanPair(IntentRecorded(id, op.item, op.tool, op.op, op.request), Ref(op.item, id));
    var record := IntentRecord(run, op.item, op.tool, op.op, op.request, now);
    var rest := [LogAwaiting(id), SaveContext(Await(id))] + (if id in s.records then [] else [SaveRecord(id, record)]);
    PlanRuns(s, run, one[0].event, one[1].plan);
    ExecConcat(s, run, one, rest);
    var a := ExecAll(s, run, one);
    if a.Ok? {
      AwaitedRuns(a.value, op, record);
      TailIsAwaited(a.value, op, now, cfg, ck);
    }
    hide ExecAll, Exec, Automatic, Follows, Last, Synchronize, AutoCheckpoint, ChangedPlan, Awaited, IntentTail;
    assert IntentPart(s, op, now) == one + rest;
    FollowsRun(s, run, one + rest);
    EndRuns(s, run, one + rest + Follows(), cfg, ck);
  }

  /** Event, then record. */
  lemma RecordRuns(s: Store, run: RunId, e: Event, id: ExecId, r: ExternalResult)
    ensures var front := ExecAll(s, run, RecordPair(e, id, r));
      if run in s.contexts then front == Ok(PutRecord(Append(s, run, e), id, r)) else front.Err?
  {
    var a := Append(s, run, e);
    assert Exec(s, run, LogEvent(e)) == Ok(a) && Exec(a, run, SaveRecord(id, r)) == Ok(PutRecord(a, id, r));
    assert if run in s.contexts then Exec(a, run, NeedContext) == Ok(a) else Exec(a, run, NeedContext).Err?;
    hide Exec, ExecAll, Append, PutRecord;
    ExecTwo(s, run, LogEvent(e), NeedContext);
    ExecConcat(s, run, [LogEvent(e), NeedContext], [SaveRecord(id, r)]);
    ExecOne(a, run, SaveRecord(id, r));
  }

  lemma DispatchWrites(s: Store, op: Op, now: real, cfg: Config, ck: string)
    requires op.OpDispatch?
    ensures Same(ExecAll(s, op.run, Writes(s, op, now, cfg, ck)), Perform(s, op, now, cfg, ck))
  {
    var run, id := op.run, op.id;
    RefuseRuns(s, run);
    if id in s.records {
      var e, r := DispatchRecorded(id, s.records[id].tool), s.records[id].(status := Dispatched, updatedAt := now);
      RecordRuns(s, run, e, id, r);
      EndRuns(s, run, RecordPair(e, id, r), cfg, ck);
    }
    hide Exec, ExecAll, Automatic, AutoCheckpoint;
  }

  lemma RefuseRuns(s: Store, run: RunId)
    ensures ExecAll(s, run, [Refuse]).Err?
  {
    ExecOne(s, run, Refuse);
  }

  predicate ResultRefused(s: Store, op: Op)
    requires op.OpResult?
  {
    && op.id in s.records
    && (s.records[op.id].run != op.run || !Allowed(s.records[op.id].status,
                                                   ResolveStatus(op.args.status, op.args.result)))
  }

  lemma ResultWritten(s: Store, op: Op, r: ExternalResult, now: real, cfg: Config, ck: string)
    requires op.OpResult? && !ResultRefused(s, op)
      && ResultRecordOf(Lookup(s.records, op.id), op.run, op.args, now) == Ok(r)
    ensures var e := ResultRecorded(op.id, r.result, r.status, r.tool, r.op, r.item, r.response.Some?, r.error);
      && Writes(s, op, now, cfg, ck) == ResultPart(e, op.id, r, ShouldClear(op.args)) + Automatic(cfg, ck)
      && var a := PutRecord(Append(s, op.run, e), op.id, r);
         RecordToolResult(s, op.run, op.id, op.args, now, cfg, ck) ==
           if op.run !in s.contexts then Err(NO_CONTEXT)
           else Ok(AutoCheckpoint(if ShouldClear(op.args) then LogClear(a, op.run, op.id) else a, op.run, cfg, ck))
  {
    hide Automatic, AutoCheckpoint, ResultRecordOf, ResolveStatus, ShouldClear, LogClear, ResultPart;
  }

  lemma ResultNotWritten(s: Store, op: Op, now: real, cfg: Config, ck: string)
    requires op.OpResult?
      && (ResultRefused(s, op) || ResultRecordOf(Lookup(s.records, op.id), op.run, op.args, now).Err?)
    ensures Writes(s, op, now, cfg, ck) == [Refuse] && RecordToolResult(s, op.run, op.id, op.args, now, cfg, ck).Err?
  {
    hide Automatic, AutoCheckpoint, ResultRecordOf, ResolveStatus, ShouldClear, LogClear, ResultPart;
  }

  lemma ResultWrites(s: Store, op: Op, now: real, cfg: Config, ck: string)
    requires op.OpResult?
    ensures Same(ExecAll(s, op.run, Writes(s, op, now, cfg, ck)),
                 RecordToolResult(s, op.run, op.id, op.args, now, cfg, ck))
  {
    hide Exec, ExecAll, Automatic, AutoCheckpoint, ResultRecordOf, ShouldClear, LogClear, ResultPart, ResultRefused,
         Writes, RecordToolResult;
    var run, id := op.run, op.id;
    var record := ResultRecordOf(Lookup(s.records, id), run, op.args, now);
    if ResultRefused(s, op) || record.Err? {
      RefuseRuns(s, run);
      ResultNotWritten(s, op, now, cfg, ck);
    } else {
      var r := record.value;
      var e := ResultRecorded(id, r.result, r.status, r.tool, r.op, r.item, r.response.Some?, r.error);
      ResultWritten(s, op, r, now, cfg, ck);
      ResultFront(s, run, e, id, r, ShouldClear(op.args));
      EndRuns(s, run, ResultPart(e, id, r, ShouldClear(op.args)), cfg, ck);
    }
  }

  lemma ResultFront(s: Store, run: RunId, e: Event, id: ExecId, r: ExternalResult, clear: bool)
    ensures var front, a := ExecAll(s, run, ResultPart(e, id, r, clear)), PutRecord(Append(s, run, e), id, r);
      if run in s.contexts then front == Ok(if clear then LogClear(a, run, id) else a) else front.Err?
  {
    hide ExecAll, LogClear;
    RecordRuns(s, run, e, id, r);
    var a := PutRecord(Append(s, run, e), id, r);
    ExecConcat(s, run, RecordPair(e, id, r),
               if clear then [LogClearing(id), SaveContext(Clear(id))] else []);
    EmptyRuns(a, run);
    ClearingRuns(a, run, id);
  }

  lemma ClearingRuns(s: Store, run: RunId, id: ExecId)
    ensures run in s.contexts ==> ExecAll(s, run, [LogClearing(id), SaveContext(Clear(id))]) == Ok(LogClear(s, run, id))
  {
    ExecTwo(s, run, LogClearing(id), SaveContext(Clear(id)));
    hide ExecAll, Last;
    if run in s.contexts && id !in s.contexts[run].pending { assert s.contexts[run := s.contexts[run]] == s.contexts; }
  }

  lemma CheckpointWrites(s: Store, op: Op, now: real, cfg: Config, ck: string)
    requires op.OpCheckpoint?
    ensures Same(ExecAll(s, op.run, Writes(s, op, now, cfg, ck)), Perform(s, op, now, cfg, ck))
  {
    CheckpointsRun(s, op.run, ck, op.kind, op.withResults, 1);
    RefuseRuns(s, op.run);
    hide Exec, ExecAll, LatestSeq;
  }

  lemma PerformIsResult(s: Store, op: Op, now: real, cfg: Config, ck: string)
    requires op.OpResult?
    ensures Perform(s, op, now, cfg, ck) == RecordToolResult(s, op.run, op.id, op.args, now, cfg, ck)
  {
    hide RecordToolResult;
  }

  /** The writes of an operation amount to the operation. */
  lemma WritesPerform(s: Store, op: Op, now: real, cfg: Config, ck: string)
    ensures Same(ExecAll(s, op.run, Writes(s, op, now, cfg, ck)), Perform(s, op, now, cfg, ck))
  {
    hide ExecAll, Perform, Writes;
    match op
    case OpStart(_, _, _, _, _, _) => StartWrites(s, op, now, cfg, ck);
    case OpMessage(_, _) => TurnWrites(s, op, now, cfg, ck);
    case OpLlmTurn(_, _, _, _, _) => TurnWrites(s, op, now, cfg, ck);
    case OpIntent(_, _, _, _, _, _) => IntentWrites(s, op, now, cfg, ck);
    case OpDispatch(_, _) => DispatchWrites(s, op, now, cfg, ck);
    case OpResult(run, id, args) =>
      ResultWrites(s, op, now, cfg, ck);
      PerformIsResult(s, op, now, cfg, ck);
    case OpAdvance(_, _, _, _) => PlanOpWrites(s, op, now, cfg, ck);
    case OpSetActive(_, _) => PlanOpWrites(s, op, now, cfg, ck);
    case OpCheckpoint(_, _, _) => CheckpointWrites(s, op, now, cfg, ck);
  }

  /** An operation as the caller runs it: one scope, opened outside any transaction. */
  function Operation(s: Store, op: Op, now: real, cfg: Config, ck: string): Transaction.Block<Store> {
    Transaction.Scope(Blocks(op.run, Writes(s, op, now, cfg, ck)))
  }

  /** The nested scopes of an operation reach exactly the store of its facade function; when any of its writes raises,
      at whatever depth, the store stays as it was, its own events included. */
  lemma {:induction false} OperationIsAtomic(s: Store, op: Op, now: real, cfg: Config, ck: string)
    ensures var r := Perform(s, op, now, cfg, ck);
      Transaction.Run(Operation(s, op, now, cfg, ck), Transaction.Local(s, None, 0)) ==
        (Transaction.Local(Logging.Settle(s, r), None, 0), r.Ok?)
  {
    hide Perform, Writes, ExecAll, Blocks, Transaction.Run, Transaction.PlainAll;
    WritesPerform(s, op, now, cfg, ck);
    BlocksRun(op.run, Writes(s, op, now, cfg, ck), s);
    Transaction.OutermostDecides(Blocks(op.run, Writes(s, op, now, cfg, ck)), s);
  }

  /** Only the outermost scope protects: called inside a caller's transaction that catches the error, a refused message
      leaves its event in the log, and the context without the message. */
  lemma {:induction false} NestedRefusalKeepsEvent(s: Store, run: RunId, m: Context.Message, now: real, cfg: Config,
      ck: string)
    requires run in s.contexts && Context.Validate(m).Err?
    ensures var guarded: seq<Transaction.Block<Store>> :=
      [Transaction.Try([Operation(s, OpMessage(run, m), now, cfg, ck)])];
      Transaction.Run(Transaction.Scope(guarded), Transaction.Local(s, None, 0)) ==
        (Transaction.Local(Append(s, run, MessageAppended(m)), None, 0), true)
  {
    var body := Blocks(run, Writes(s, OpMessage(run, m), now, cfg, ck));
    var inner: seq<Transaction.Block<Store>> := [Transaction.Scope(body)];
    var guarded: seq<Transaction.Block<Store>> := [Transaction.Try(inner)];
    Transaction.OutermostDecides(guarded, s);
    var a := Append(s, run, MessageAppended(m));
    var ws := Writes(s, OpMessage(run, m), now, cfg, ck);
    assert ws[0] == LogEvent(MessageAppended(m)) && ws[1] == SaveContext(Say(m));
    var f, g := (t: Store) => Exec(t, run, ws[0]), (t: Store) => Exec(t, run, ws[1]);
    OneWrite(f, s);
    OneWrite(g, a);
    assert f(s) == Ok(a) && g(a).Err?;
    assert body[0] == Transaction.Scope([Transaction.Do(f)]) && body[1..][0] == Transaction.Scope([Transaction.Do(g)]);
    hide Exec, Context.Validate, Transaction.Plain, Writes;
    assert Transaction.PlainAll(body[1..], a) == (a, false);
    assert Transaction.PlainAll(body, s) == (a, false);
    PlainGuard(body, s, a);
  }

  lemma PlainGuard(body: seq<Transaction.Block<Store>>, s: Store, a: Store)
    requires Transaction.PlainAll(body, s) == (a, false)
    ensures var inner: seq<Transaction.Block<Store>> := [Transaction.Scope(body)];
      var guarded: seq<Transaction.Block<Store>> := [Transaction.Try(inner)];
      Transaction.PlainAll(guarded, s) == (a, true)
  {
    var inner: seq<Transaction.Block<Store>> := [Transaction.Scope(body)];
    var guarded: seq<Transaction.Block<Store>> := [Transaction.Try(inner)];
    assert Transaction.PlainAll(inner, s) == (a, false);
    assert guarded[1..] == [];
  }
}
