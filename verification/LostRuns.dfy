/** A lost first request in a run of many processes, any of which may crash anywhere. */
module LostRuns {
  import opened Prelude
  import opened Models
  import opened Facade
  import opened Executor
  import opened Driver
  import opened DriverLaws
  import opened DriverItems
  import opened LostRequest
  import Adapter
  import Coordinator
  import DriverFrames
  import DriverProgress
  import Faultless
  import Recovery
  import Target
  import TargetVerifier

  // ---------------------------------------------------------------- where a write stands that cannot be replayed

  predicate Finished(e: Env, x: State, k: int) {
    0 <= k < e.items && ItemOf(e, k) in DoneItems(x.store, e.run)
  }

  /** Given up: its record or its item is settled, so nobody will ever send it. */
  predicate Closed(e: Env, x: State, k: int)
    requires IsWrite(e, k)
  {
    && Mine(e, x, k) && IdOf(e, k) !in x.channel.data.idempotent
    && var status := x.store.records[IdOf(e, k)].status;
       status == VerifiedCommitted || status == ExecutionFailed || Finished(e, x, k)
  }

  /** Lost, and its turn is not over. A proof of absence is left only where the target would refuse the replay. */
  predicate Open(e: Env, d: Target.Data, x: State, k: int)
    requires IsWrite(e, k)
  {
    && Mine(e, x, k) && x.channel.data == d && !Finished(e, x, k)
    && var status := x.store.records[IdOf(e, k)].status;
       || status == Dispatched
       || (status == VerifiedNotFound && !Early(e, k) && !TargetVerifier.AlreadyVisible(d, e.script[k].args))
  }

  /** Not sent yet. */
  predicate Before(e: Env, d: Target.Data, x: State, k: int)
    requires IsWrite(e, k)
  {
    IdOf(e, k) !in x.store.records && x.channel == Adapter.Channel(d, false) && !Finished(e, x, k)
  }

  predicate Sunk(e: Env, fault: Adapter.Fault, d: Target.Data, x: State, k: int)
    requires IsWrite(e, k)
  {
    && e.run in x.store.contexts
    && (Closed(e, x, k) || (Open(e, d, x, k) && Quiet(fault, x)) || (Before(e, d, x, k) && fault.LostRequest?))
  }

  /** The target knew nothing of it, and its loss cannot be made good. */
  ghost predicate Hopeless(e: Env, d: Target.Data, k: int)
    requires IsWrite(e, k)
  {
    && OnlyWrites(e, d) && !Known(d, IdOf(e, k)) && !Replayable(e, d, k)
    && (k < e.items || !Early(e, k))
  }

  /** What turns other than its own may do to it. */
  predicate Stays(e: Env, fault: Adapter.Fault, d: Target.Data, x: State, y: State, k: int)
    requires IsWrite(e, k)
  {
    Sunk(e, fault, d, y, k) && (Closed(e, x, k) ==> Closed(e, y, k)) && (Open(e, d, y, k) ==> Open(e, d, x, k))
  }

  lemma NotThere(e: Env, fault: Adapter.Fault, d: Target.Data, x: State, k: int)
    requires IsWrite(e, k) && Hopeless(e, d, k) && Sunk(e, fault, d, x, k)
    ensures IdOf(e, k) !in x.channel.data.idempotent
  {
    hide IdOf, OnlyWrites, Replayable, Finished;
  }

  lemma KnownIfThere(d: Target.Data, id: ExecId)
    ensures id in d.idempotent ==> Known(d, id)
  {
  }

  lemma SunkKnows(e: Env, fault: Adapter.Fault, d: Target.Data, x: State, k: int)
    requires IsWrite(e, k) && Sunk(e, fault, d, x, k)
    ensures e.run in x.store.contexts
  {
  }

  lemma SunkIfClosed(e: Env, fault: Adapter.Fault, d: Target.Data, x: State, k: int)
    requires IsWrite(e, k)
    ensures Closed(e, x, k) && e.run in x.store.contexts ==> Sunk(e, fault, d, x, k)
    ensures Closed(e, x, k) ==> !Open(e, d, x, k)
  {
    hide IdOf, Finished;
  }

  /** A write stands where it stood while its record and the target are left alone and its item is not finished. */
  lemma StaysSame(e: Env, fault: Adapter.Fault, d: Target.Data, x: State, y: State, k: int)
    requires IsWrite(e, k) && Sunk(e, fault, d, x, k) && y.channel == x.channel && e.run in y.store.contexts
    requires Lookup(y.store.records, IdOf(e, k)) == Lookup(x.store.records, IdOf(e, k))
    requires Finished(e, x, k) ==> Finished(e, y, k)
    requires Closed(e, x, k) || (Finished(e, y, k) ==> Finished(e, x, k))
    ensures Stays(e, fault, d, x, y, k)
  {
    hide IdOf, Finished, TargetVerifier.AlreadyVisible, Early;
  }

  lemma SameFinished(e: Env, x: State, y: State, k: int)
    requires SameItems(e, x, y)
    ensures Finished(e, x, k) <==> Finished(e, y, k)
  {
  }

  // ---------------------------------------------------------------- the steps of any turn

  lemma TurnSunk(e: Env, pr: Process, d: Target.Data, x: State, j: nat, k: int)
    requires IsWrite(e, k) && Sunk(e, pr.fault, d, x, k) && IsTool(e, j) && DriverProgress.LoggedTurn(e, pr, x, j).Ok?
    ensures Stays(e, pr.fault, d, x, x.(store := DriverProgress.LoggedTurn(e, pr, x, j).value), k)
  {
    SunkKnows(e, pr.fault, d, x, k);
    TurnItems(e, pr, x, j);
    var y := x.(store := DriverProgress.LoggedTurn(e, pr, x, j).value);
    SameFinished(e, x, y, k);
    hide IdOf, Finished, DriverProgress.LoggedTurn, Sunk, Closed, Stays;
    StaysSame(e, pr.fault, d, x, y, k);
  }

  lemma {:induction false} AnswerSunk(e: Env, pr: Process, d: Target.Data, x: State, j: nat, k: int)
    requires IsWrite(e, k) && Sunk(e, pr.fault, d, x, k) && j < |e.script| && e.script[j].FinalTurn?
    requires DriverProgress.LoggedAnswer(e, pr, x, j).Ok?
    ensures Stays(e, pr.fault, d, x, x.(store := DriverProgress.LoggedAnswer(e, pr, x, j).value), k)
  {
    SunkKnows(e, pr.fault, d, x, k);
    AnswerItems(e, pr, x, j);
    var y := x.(store := DriverProgress.LoggedAnswer(e, pr, x, j).value);
    SameFinished(e, x, y, k);
    hide IdOf, Finished, DriverProgress.LoggedAnswer, Sunk, Closed, Stays;
    StaysSame(e, pr.fault, d, x, y, k);
  }

  /** Finishing an earlier item, or any item once the write is given up. */
  lemma AdvanceSunk(e: Env, pr: Process, d: Target.Data, x: State, j: nat, at: Option<Point>, k: nat)
    requires IsWrite(e, k) && Sunk(e, pr.fault, d, x, k) && (j < k || Closed(e, x, k))
    ensures Stays(e, pr.fault, d, x, Advance(e, pr, x, j, at).0, k)
  {
    SunkKnows(e, pr.fault, d, x, k);
    AdvanceFinishes(e, pr, x, j, at);
    if k < e.items && ItemOf(e, k) == ItemOf(e, j) { SameItem(e, k, j); }
    hide IdOf, ItemOf, DoneItems, Advance, Sunk, Closed, Stays;
    StaysSame(e, pr.fault, d, x, Advance(e, pr, x, j, at).0, k);
  }

  lemma ClosedStays(e: Env, fault: Adapter.Fault, d: Target.Data, x: State, y: State, j: int, k: int)
    requires IsWrite(e, k) && IsTool(e, j) && IdOf(e, j) != IdOf(e, k) && Closed(e, x, k)
    requires TouchedOnly(e, x.store, y.store, IdOf(e, j)) && SameItems(e, x, y) && SameFor(x, y, IdOf(e, k))
    ensures Stays(e, fault, d, x, y, k)
  {
    assert Lookup(y.store.records, IdOf(e, k)) == Lookup(x.store.records, IdOf(e, k));
    SameFinished(e, x, y, k);
    hide IdOf, Finished, Sunk, Open, TouchedOnly;
    SunkIfClosed(e, fault, d, y, k);
  }

  lemma OtherKept(e: Env, fault: Adapter.Fault, d: Target.Data, x: State, y: State, j: int, k: int)
    requires IsWrite(e, k) && IsTool(e, j) && IdOf(e, j) != IdOf(e, k) && Sunk(e, fault, d, x, k)
    requires TouchedOnly(e, x.store, y.store, IdOf(e, j)) && SameItems(e, x, y) && y.channel == x.channel
    ensures Stays(e, fault, d, x, y, k)
  {
    assert Lookup(y.store.records, IdOf(e, k)) == Lookup(x.store.records, IdOf(e, k));
    SameFinished(e, x, y, k);
    hide IdOf, Finished, Sunk, Closed, TouchedOnly, Stays;
    StaysSame(e, fault, d, x, y, k);
  }

  /** The call of another turn: an earlier one writes nothing, a later one comes when this write is given up. */
  lemma OtherCallSunk(e: Env, pr: Process, d: Target.Data, x: State, j: nat, k: nat)
    requires WellScripted(e) && FirstWriteAt(e, k) && IsTool(e, j) && j != k && Sunk(e, pr.fault, d, x, k)
    requires j < k || Closed(e, x, k)
    ensures Stays(e, pr.fault, d, x, Execute(e, pr, x, CallOf(e, j), IdOf(e, j)).0, k)
  {
    SunkKnows(e, pr.fault, d, x, k);
    ExecuteTouches(e, pr, x, j);
    var y := Execute(e, pr, x, CallOf(e, j), IdOf(e, j)).0;
    hide IdOf, Execute, TouchedOnly, Closed, Stays, SameItems;
    if IsWrite(e, j) {
      ExecuteKeepsOthers(e, pr, x, j, IdOf(e, k));
      ClosedStays(e, pr.fault, d, x, y, j, k);
    } else {
      OtherExecuteChannel(e, pr, x, j);
      OtherKept(e, pr.fault, d, x, y, j, k);
    }
  }

  /** A pass does nothing to a lost write whose window is not over. */
  predicate InTime(e: Env, d: Target.Data, x: State, k: int, now: real)
    requires IsWrite(e, k)
  {
    Early(e, k) && Open(e, d, x, k) ==> now < Recovery.Deadline(x.store.records[IdOf(e, k)], WAIT_SECONDS, e.floatOf)
  }

  lemma PassSunk(e: Env, fault: Adapter.Fault, d: Target.Data, x: State, now: real, w: World, k: int)
    requires IsWrite(e, k) && Hopeless(e, d, k) && Sunk(e, fault, d, x, k) && InTime(e, d, x, k, now)
    ensures Stays(e, fault, d, x, x.(store := Recovery.RecoverRun(PassAt(e, x.channel.data, now), w, x.store)), k)
  {
    SunkKnows(e, fault, d, x, k);
    PassProbes(e, x, now, w, k);
    DriverFrames.PassFrame(PassAt(e, x.channel.data, now), w, x.store);
    var y := x.(store := Recovery.RecoverRun(PassAt(e, x.channel.data, now), w, x.store));
    SameFinished(e, x, y, k);
    hide *;
    ProbedSunk(e, fault, d, x, y, now, k);
  }

  lemma ProbedSunk(e: Env, fault: Adapter.Fault, d: Target.Data, x: State, y: State, now: real, k: int)
    requires IsWrite(e, k) && Hopeless(e, d, k) && Sunk(e, fault, d, x, k) && Probed(e, x, y, k, now)
      && InTime(e, d, x, k, now)
    requires e.run in y.store.contexts && (Finished(e, x, k) <==> Finished(e, y, k))
    ensures Stays(e, fault, d, x, y, k)
  {
    hide IdOf, Finished, TargetVerifier.AlreadyVisible, Known, OnlyWrites, Replayable, Recovery.Deadline, Early;
    KnownIfThere(x.channel.data, IdOf(e, k));
  }

  // ---------------------------------------------------------------- its own turn

  /** Waiting for its resolution. */
  predicate Waiting(e: Env, fault: Adapter.Fault, d: Target.Data, x: State, k: int)
    requires IsWrite(e, k)
  {
    Open(e, d, x, k) && Quiet(fault, x) && x.store.records[IdOf(e, k)].status == Dispatched
  }

  lemma WaitingSunk(e: Env, fault: Adapter.Fault, d: Target.Data, x: State, k: int)
    requires IsWrite(e, k)
    ensures Waiting(e, fault, d, x, k) ==> !Closed(e, x, k) && (e.run in x.store.contexts ==> Sunk(e, fault, d, x, k))
  {
    hide IdOf, Finished;
  }

  /** Its replay is refused by the target. */
  lemma ReplayRefused(e: Env, pr: Process, d: Target.Data, x: State, k: int)
    requires WellScripted(e) && IsWrite(e, k) && Hopeless(e, d, k) && e.run in x.store.contexts
    requires Open(e, d, x, k) && Quiet(pr.fault, x) && x.store.records[IdOf(e, k)].status == VerifiedNotFound
    ensures var (y, r) := Execute(e, pr, x, CallOf(e, k), IdOf(e, k));
      r == Ok(Failed) && Closed(e, y, k) && e.run in y.store.contexts
  {
    KnownIfThere(d, IdOf(e, k));
    assert !Accepts(e, d, k);
    AcceptsAnyReceipt(e, d, k, pr.receipt(|x.store.log|));
    assert Prepare(x.store, IdOf(e, k), CallOf(e, k), false, e.cfg, pr.world).Ready?;
    ExecuteReady(e, pr, x, k);
    hide IdOf, Execute, Prepare, Known, OnlyWrites, Accepts, Acceptable, TargetVerifier.AlreadyVisible, Grew,
         Replayable, Finished;
    ReadyInContext(e, x.store, Execute(e, pr, x, CallOf(e, k), IdOf(e, k)).0.store, IdOf(e, k));
  }

  /** Its first call loses the request, if the intent is accepted at all. */
  lemma FirstCallSunk(e: Env, pr: Process, d: Target.Data, x: State, k: int)
    requires WellScripted(e) && IsWrite(e, k) && Hopeless(e, d, k) && e.run in x.store.contexts
    requires Before(e, d, x, k) && pr.fault.LostRequest?
    ensures var (y, r) := Execute(e, pr, x, CallOf(e, k), IdOf(e, k));
      Sunk(e, pr.fault, d, y, k) && (r.Ok? ==> r.value == PendingRecovery && Waiting(e, pr.fault, d, y, k))
  {
    var y := Execute(e, pr, x, CallOf(e, k), IdOf(e, k)).0;
    ExecuteTouches(e, pr, x, k);
    SameFinished(e, x, y, k);
    if Prepare(x.store, IdOf(e, k), CallOf(e, k), false, e.cfg, pr.world).Ready? {
      FirstCallGoes(e, pr, d, x, k);
      WaitingSunk(e, pr.fault, d, y, k);
    } else {
      FirstCallStops(e, pr, d, x, k);
    }
    hide *;
  }

  lemma FirstCallGoes(e: Env, pr: Process, d: Target.Data, x: State, k: int)
    requires WellScripted(e) && IsWrite(e, k) && Hopeless(e, d, k) && e.run in x.store.contexts
    requires Before(e, d, x, k) && pr.fault.LostRequest?
    requires Prepare(x.store, IdOf(e, k), CallOf(e, k), false, e.cfg, pr.world).Ready?
    requires Finished(e, x, k) <==> Finished(e, Execute(e, pr, x, CallOf(e, k), IdOf(e, k)).0, k)
    ensures var (y, r) := Execute(e, pr, x, CallOf(e, k), IdOf(e, k));
      r == Ok(PendingRecovery) && Waiting(e, pr.fault, d, y, k)
  {
    assert Sendable(e, x, k);
    ExecuteReady(e, pr, x, k);
    hide IdOf, Execute, Prepare, Known, OnlyWrites, Acceptable, Grew, TouchedOnly, Finished,
         TargetVerifier.AlreadyVisible, Replayable, Early, WellScripted;
  }

  lemma FirstCallStops(e: Env, pr: Process, d: Target.Data, x: State, k: int)
    requires IsWrite(e, k) && e.cfg.dedup && e.run in x.store.contexts && Before(e, d, x, k) && pr.fault.LostRequest?
    requires !Prepare(x.store, IdOf(e, k), CallOf(e, k), false, e.cfg, pr.world).Ready?
    requires Finished(e, x, k) <==> Finished(e, Execute(e, pr, x, CallOf(e, k), IdOf(e, k)).0, k)
    ensures var (y, r) := Execute(e, pr, x, CallOf(e, k), IdOf(e, k)); r.Err? && Sunk(e, pr.fault, d, y, k)
  {
    PrepareTouches(e, pr, x.store, CallOf(e, k), IdOf(e, k));
    ReadyInContext(e, x.store, Prepare(x.store, IdOf(e, k), CallOf(e, k), false, e.cfg, pr.world).store, IdOf(e, k));
    hide IdOf, Prepare, TouchedOnly, Finished, Open, Closed;
  }

  /** Its own call, wherever it stands, as long as its item is not finished. */
  lemma OwnCallSunk(e: Env, pr: Process, d: Target.Data, x: State, k: int)
    requires WellScripted(e) && IsWrite(e, k) && Hopeless(e, d, k) && Sunk(e, pr.fault, d, x, k) && !Finished(e, x, k)
    ensures var (y, r) := Execute(e, pr, x, CallOf(e, k), IdOf(e, k));
      && Sunk(e, pr.fault, d, y, k)
      && (r.Ok? && r.value != Failed ==>
          if r.value == PendingRecovery then Waiting(e, pr.fault, d, y, k) else Closed(e, y, k))
  {
    if Closed(e, x, k) || Waiting(e, pr.fault, d, x, k) {
      KnownCall(e, pr, x, k);
    } else if Before(e, d, x, k) {
      FirstCallSunk(e, pr, d, x, k);
    } else {
      ReplayRefused(e, pr, d, x, k);
    }
    hide IdOf, Execute, Finished, TargetVerifier.AlreadyVisible, OnlyWrites, Known, Replayable, Early;
  }

  lemma KnownCall(e: Env, pr: Process, x: State, k: int)
    requires IsWrite(e, k) && Mine(e, x, k)
    requires x.store.records[IdOf(e, k)].status != VerifiedNotFound
      && x.store.records[IdOf(e, k)].status != IntentLogged
    ensures var (y, r) := Execute(e, pr, x, CallOf(e, k), IdOf(e, k)); var status := x.store.records[IdOf(e, k)].status;
      y == x && r == Ok(HandleExisting(status))
  {
    hide IdOf, RecordToolIntent, RecordToolDispatch, RecordToolResult, Adapter.Invoke;
  }

  lemma OneSecondInTime(e: Env, pr: Process, d: Target.Data, x: State, k: int)
    requires IsWrite(e, k) && Waiting(e, pr.fault, d, x, k)
    ensures InTime(e, d, x, k, RecoveryTime(pr, x, IdOf(e, k), true))
  {
    hide IdOf, Finished, TargetVerifier.AlreadyVisible;
  }

  /** The pass one second later: what it makes of the lost write, and what is decided then. */
  lemma WaitingPassed(e: Env, pr: Process, d: Target.Data, x: State, k: int)
    requires IsWrite(e, k) && Hopeless(e, d, k) && e.run in x.store.contexts && Waiting(e, pr.fault, d, x, k)
    ensures var p := PassAt(e, d, RecoveryTime(pr, x, IdOf(e, k), true));
      var y := x.(store := Recovery.RecoverRun(p, pr.world, x.store));
      var replay :=
        Coordinator.FinalDecision(p, IdOf(e, k), Some(x.store.records[IdOf(e, k)])).action == Recovery.Replay;
      && Sunk(e, pr.fault, d, y, k)
      && if Early(e, k) then !replay
         else if replay then Open(e, d, y, k) && y.store.records[IdOf(e, k)].status == VerifiedNotFound
         else Closed(e, y, k)
  {
    var id := IdOf(e, k);
    var now := RecoveryTime(pr, x, id, true);
    var p := PassAt(e, d, now);
    var y := x.(store := Recovery.RecoverRun(p, pr.world, x.store));
    WaitingIsLost(e, pr, d, x, k);
    LostRecovered(e, x, k, now, pr.world);
    LostDecision(e, x, k, now);
    OneSecondInTime(e, pr, d, x, k);
    WaitingSunk(e, pr.fault, d, x, k);
    PassSunk(e, pr.fault, d, x, now, pr.world, k);
    DriverFrames.PassFrame(p, pr.world, x.store);
    SameFinished(e, x, y, k);
    hide *;
    WaitingVerdict(e, pr.fault, d, x, y, k,
                   Coordinator.FinalDecision(p, id, Some(x.store.records[id])).action == Recovery.Replay);
  }

  lemma WaitingIsLost(e: Env, pr: Process, d: Target.Data, x: State, k: int)
    requires IsWrite(e, k) && Hopeless(e, d, k) && Waiting(e, pr.fault, d, x, k)
    ensures LostRaw(e, x, k) && x.channel.data == d
    ensures RecoveryTime(pr, x, IdOf(e, k), true) == x.store.records[IdOf(e, k)].updatedAt + 1.0
  {
    hide IdOf, Known, OnlyWrites, Replayable, Finished;
  }

  lemma WaitingVerdict(e: Env, fault: Adapter.Fault, d: Target.Data, x: State, y: State, k: int, replay: bool)
    requires IsWrite(e, k) && Hopeless(e, d, k) && x.channel.data == d && y.channel == x.channel
    requires Stays(e, fault, d, x, y, k) && Mine(e, y, k)
    requires Waiting(e, fault, d, x, k) && (Finished(e, x, k) <==> Finished(e, y, k))
    requires y.store.records[IdOf(e, k)].status ==
      if Early(e, k) then Dispatched else if Visible(e, x, k) then VerifiedCommitted else VerifiedNotFound
    requires replay <==> !Early(e, k) && !Visible(e, x, k)
    ensures Sunk(e, fault, d, y, k)
    ensures if Early(e, k) then !replay
      else if replay then Open(e, d, y, k) && y.store.records[IdOf(e, k)].status == VerifiedNotFound
      else Closed(e, y, k)
  {
    NotThere(e, fault, d, y, k);
    hide IdOf, Known, OnlyWrites, Replayable, Finished, TargetVerifier.AlreadyVisible, Early;
  }

  /** One second later the lost write is given up, or replayed and refused, or its window is still open and it is left
      to be finished as it is. */
  lemma WaitingResolved(e: Env, pr: Process, d: Target.Data, x: State, k: int)
    requires WellScripted(e) && IsWrite(e, k) && Hopeless(e, d, k) && e.run in x.store.contexts
      && Waiting(e, pr.fault, d, x, k)
    ensures var p := PassAt(e, d, RecoveryTime(pr, x, IdOf(e, k), true));
      var y := x.(store := Recovery.RecoverRun(p, pr.world, x.store));
      var (z, flow) := Resolve(e, pr, y, x.store, p, CallOf(e, k), IdOf(e, k));
      && flow.Continue? && e.run in z.store.contexts
      && if Early(e, k) then z == y else Closed(e, z, k)
  {
    var p := PassAt(e, d, RecoveryTime(pr, x, IdOf(e, k), true));
    var y := x.(store := Recovery.RecoverRun(p, pr.world, x.store));
    WaitingPassed(e, pr, d, x, k);
    SunkKnows(e, pr.fault, d, y, k);
    if Open(e, d, y, k) && y.store.records[IdOf(e, k)].status == VerifiedNotFound {
      assert y.channel == x.channel;
      ReplayRefused(e, pr, d, y, k);
    }
    hide IdOf, Recovery.RecoverRun, Coordinator.FinalDecision, PassAt, RecoveryTime, Execute, WellScripted, Hopeless,
         Sunk, Closed, Finished, TargetVerifier.AlreadyVisible, Early;
  }

  /** Finishing its own item. */
  lemma AdvanceOwn(e: Env, pr: Process, d: Target.Data, x: State, k: nat, at: Option<Point>)
    requires IsWrite(e, k) && Hopeless(e, d, k) && Sunk(e, pr.fault, d, x, k)
    requires Closed(e, x, k) || (Early(e, k) && Open(e, d, x, k))
    ensures var (y, flow) := Advance(e, pr, x, k, at);
      Sunk(e, pr.fault, d, y, k) && (Closed(e, x, k) || flow.Continue? ==> Closed(e, y, k))
  {
    SunkKnows(e, pr.fault, d, x, k);
    AdvanceFinishes(e, pr, x, k, at);
    NotThere(e, pr.fault, d, x, k);
    var y := Advance(e, pr, x, k, at).0;
    SunkIfClosed(e, pr.fault, d, y, k);
    hide IdOf, ItemOf, DoneItems, Advance, TargetVerifier.AlreadyVisible, OnlyWrites, Known, Replayable, Early;
  }

  lemma AfterOwnSunk(e: Env, pr: Process, d: Target.Data, x: State, k: nat, pending: bool, at: Option<Point>)
    requires WellScripted(e) && IsWrite(e, k) && Hopeless(e, d, k) && Sunk(e, pr.fault, d, x, k)
    requires if pending then Waiting(e, pr.fault, d, x, k) else Closed(e, x, k)
    ensures var (y, flow) := AfterCall(e, pr, x, k, pending, at);
      Sunk(e, pr.fault, d, y, k) && (flow.Continue? ==> Closed(e, y, k))
  {
    var p := PassAt(e, x.channel.data, RecoveryTime(pr, x, IdOf(e, k), pending));
    var y := x.(store := Recovery.RecoverRun(p, pr.world, x.store));
    AfterCallIs(e, pr, x, k, pending, at);
    SunkIfClosed(e, pr.fault, d, x, k);
    if pending { OneSecondInTime(e, pr, d, x, k); }
    PassSunk(e, pr.fault, d, x, p.now, pr.world, k);
    SunkKnows(e, pr.fault, d, x, k);
    if pending {
      assert x.channel.data == d;
      WaitingResolved(e, pr, d, x, k);
    }
    var z := (if pending then Resolve(e, pr, y, x.store, p, CallOf(e, k), IdOf(e, k)) else (y, Continue)).0;
    SunkIfClosed(e, pr.fault, d, z, k);
    assert Sunk(e, pr.fault, d, z, k) && (Closed(e, z, k) || (Early(e, k) && Open(e, d, z, k))) by {
      hide IdOf, PassAt, RecoveryTime, Recovery.RecoverRun, Resolve, Advance, AfterCall, WellScripted, Hopeless, Closed,
           Open, Before;
    }
    hide IdOf, PassAt, RecoveryTime, Recovery.RecoverRun, Resolve, Advance, AfterCall, WellScripted, Hopeless, Sunk,
         Closed, Waiting;
    AdvanceOwn(e, pr, d, z, k, at);
  }

  // ---------------------------------------------------------------- any turn

  /** The rest of another turn. */
  lemma AfterOtherSunk(e: Env, pr: Process, d: Target.Data, x: State, j: nat, pending: bool, at: Option<Point>, k: nat)
    requires WellScripted(e) && FirstWriteAt(e, k) && Hopeless(e, d, k) && IsTool(e, j) && j != k
    requires Sunk(e, pr.fault, d, x, k) && (j < k || Closed(e, x, k)) && (Early(e, k) ==> !Open(e, d, x, k))
    ensures Stays(e, pr.fault, d, x, AfterCall(e, pr, x, j, pending, at).0, k)
  {
    var p := PassAt(e, x.channel.data, RecoveryTime(pr, x, IdOf(e, j), pending));
    var y := x.(store := Recovery.RecoverRun(p, pr.world, x.store));
    AfterCallIs(e, pr, x, j, pending, at);
    PassSunk(e, pr.fault, d, x, p.now, pr.world, k);
    OtherCallSunk(e, pr, d, y, j, k);
    ResolveIs(e, pr, y, x.store, p, CallOf(e, j), IdOf(e, j));
    var z := (if pending then Resolve(e, pr, y, x.store, p, CallOf(e, j), IdOf(e, j)) else (y, Continue)).0;
    hide IdOf, PassAt, RecoveryTime, Recovery.RecoverRun, Resolve, Advance, AfterCall, WellScripted, Hopeless, Sunk,
         Closed, Open, Execute, Early;
    AdvanceSunk(e, pr, d, z, j, at, k);
  }

  lemma OtherTurnSunk(e: Env, pr: Process, d: Target.Data, x: State, j: nat, at: Option<Point>, k: nat)
    requires WellScripted(e) && FirstWriteAt(e, k) && Hopeless(e, d, k) && IsTool(e, j) && j != k
    requires Sunk(e, pr.fault, d, x, k) && (j < k || Closed(e, x, k)) && (Early(e, k) ==> !Open(e, d, x, k))
    ensures Stays(e, pr.fault, d, x, ToolStep(e, pr, x, j, at).0, k)
  {
    SunkKnows(e, pr.fault, d, x, k);
    StaysSame(e, pr.fault, d, x, x, k);
    hide ToolStep, Execute, AfterCall, DriverProgress.LoggedTurn, Sunk, Closed, Open, IdOf, CallOf, Hopeless,
         WellScripted, Early;
    if at == Some(AfterStart) || DriverProgress.LoggedTurn(e, pr, x, j).Err? {
      DriverProgress.StoppedStep(e, pr, x, j, at);
    } else {
      DriverProgress.ToolStepIs(e, pr, x, j, at);
      TurnSunk(e, pr, d, x, j, k);
      var y := x.(store := DriverProgress.LoggedTurn(e, pr, x, j).value);
      OtherCallSunk(e, pr, d, y, j, k);
      var (z, r) := Execute(e, pr, y, CallOf(e, j), IdOf(e, j));
      if r.Ok? && r.value != Failed { AfterOtherSunk(e, pr, d, z, j, r.value == PendingRecovery, at, k); }
    }
  }

  lemma {:induction false} FinalTurnSunk(e: Env, pr: Process, d: Target.Data, x: State, j: nat, at: Option<Point>,
                                         k: nat)
    requires IsWrite(e, k) && j < |e.script| && e.script[j].FinalTurn?
    requires Sunk(e, pr.fault, d, x, k) && (j < k || Closed(e, x, k))
    ensures Stays(e, pr.fault, d, x, FinalStep(e, pr, x, j, at).0, k)
  {
    SunkKnows(e, pr.fault, d, x, k);
    StaysSame(e, pr.fault, d, x, x, k);
    hide Sunk, Closed, Open, RecordContextMessage, Advance, IdOf;
    var r := DriverProgress.LoggedAnswer(e, pr, x, j);
    if r.Ok? {
      var y := x.(store := r.value);
      AnswerSunk(e, pr, d, x, j, k);
      DriverProgress.FinalStepIs(e, pr, x, j, at);
      AdvanceSunk(e, pr, d, y, j, at, k);
    }
  }

  lemma OtherStepSunk(e: Env, pr: Process, d: Target.Data, x: State, j: nat, at: Option<Point>, k: nat)
    requires WellScripted(e) && FirstWriteAt(e, k) && Hopeless(e, d, k) && j < |e.script| && j != k
    requires Sunk(e, pr.fault, d, x, k) && (j < k || Closed(e, x, k)) && (Early(e, k) ==> !Open(e, d, x, k))
    ensures var (y, flow) := if e.script[j].ToolTurn? then ToolStep(e, pr, x, j, at) else FinalStep(e, pr, x, j, at);
      Stays(e, pr.fault, d, x, y, k) && Finishes(e, x, y, j, flow)
  {
    SunkKnows(e, pr.fault, d, x, k);
    if e.script[j].ToolTurn? {
      OtherTurnSunk(e, pr, d, x, j, at, k);
      ToolStepFinishes(e, pr, x, j, at);
    } else {
      FinalTurnSunk(e, pr, d, x, j, at, k);
      FinalStepFinishes(e, pr, x, j, at);
    }
    hide ToolStep, FinalStep, Finishes, Stays, Sunk, Closed, Open, Hopeless, Early;
  }

  /** Its own turn: if the loop goes on, it is given up. */
  lemma OwnStepSunk(e: Env, pr: Process, d: Target.Data, x: State, at: Option<Point>, k: nat)
    requires WellScripted(e) && FirstWriteAt(e, k) && Hopeless(e, d, k) && Sunk(e, pr.fault, d, x, k)
      && !Finished(e, x, k)
    ensures var (y, flow) := ToolStep(e, pr, x, k, at);
      Sunk(e, pr.fault, d, y, k) && Finishes(e, x, y, k, flow) && (flow.Continue? ==> Closed(e, y, k))
  {
    SunkKnows(e, pr.fault, d, x, k);
    ToolStepFinishes(e, pr, x, k, at);
    hide ToolStep, Execute, AfterCall, DriverProgress.LoggedTurn, Sunk, Closed, Open, IdOf, CallOf, Hopeless,
         WellScripted, Early, Finishes, Finished;
    if at == Some(AfterStart) || DriverProgress.LoggedTurn(e, pr, x, k).Err? {
      DriverProgress.StoppedStep(e, pr, x, k, at);
    } else {
      LoggedOwnSunk(e, pr, d, x, at, k);
    }
  }

  lemma LoggedOwnSunk(e: Env, pr: Process, d: Target.Data, x: State, at: Option<Point>, k: nat)
    requires WellScripted(e) && FirstWriteAt(e, k) && Hopeless(e, d, k) && Sunk(e, pr.fault, d, x, k)
      && !Finished(e, x, k)
    requires at != Some(AfterStart) && DriverProgress.LoggedTurn(e, pr, x, k).Ok?
    ensures var (y, flow) := ToolStep(e, pr, x, k, at);
      Sunk(e, pr.fault, d, y, k) && (flow.Continue? ==> Closed(e, y, k))
  {
    SunkKnows(e, pr.fault, d, x, k);
    DriverProgress.ToolStepIs(e, pr, x, k, at);
    TurnSunk(e, pr, d, x, k, k);
    TurnItems(e, pr, x, k);
    var y := x.(store := DriverProgress.LoggedTurn(e, pr, x, k).value);
    SameFinished(e, x, y, k);
    hide ToolStep, Execute, AfterCall, DriverProgress.LoggedTurn, Sunk, Closed, Open, IdOf, CallOf, Hopeless,
         WellScripted, Early, Finished;
    OwnCallSunk(e, pr, d, y, k);
    var (z, r) := Execute(e, pr, y, CallOf(e, k), IdOf(e, k));
    if r.Ok? && r.value != Failed { AfterOwnSunk(e, pr, d, z, k, r.value == PendingRecovery, at); }
  }

  // ---------------------------------------------------------------- the loop, and any number of processes

  /** The items of the turns before `j` that come before `k` are finished. */
  predicate FinishedUpTo(e: Env, done: set<string>, j: nat, k: nat) {
    forall i: nat :: i < j && i < k && i < e.items ==> ItemOf(e, i) in done
  }

  /** A write whose window is long is lost for good only after every earlier item was finished. */
  predicate LateOpen(e: Env, d: Target.Data, x: State, done: set<string>, k: nat)
    requires IsWrite(e, k)
  {
    Early(e, k) && Open(e, d, x, k) ==> FinishedUpTo(e, done, k, k)
  }

  /** The loop from turn `j` on: before its turn the write may still be open, after it it is given up. */
  ghost predicate Sinking(e: Env, fault: Adapter.Fault, d: Target.Data, x: State, j: nat, completed: set<string>,
                          k: nat)
    requires IsWrite(e, k)
  {
    && Sunk(e, fault, d, x, k) && (j <= k || Closed(e, x, k))
    && completed <= DoneItems(x.store, e.run) && FinishedUpTo(e, DoneItems(x.store, e.run), j, k)
    && (j <= k ==> (Finished(e, x, k) ==> ItemOf(e, k) in completed) && LateOpen(e, d, x, completed, k))
  }

  lemma SkippedSinks(e: Env, fault: Adapter.Fault, d: Target.Data, x: State, j: nat, completed: set<string>, k: nat)
    requires IsWrite(e, k) && Sinking(e, fault, d, x, j, completed, k) && ItemOf(e, j) in completed && j < e.items
    ensures Sinking(e, fault, d, x, j + 1, completed, k)
  {
    hide IdOf, ItemOf, DoneItems, TargetVerifier.AlreadyVisible, Early;
  }

  lemma OtherSinks(e: Env, fault: Adapter.Fault, d: Target.Data, x: State, y: State, j: nat, completed: set<string>,
                   k: nat, flow: Flow)
    requires IsWrite(e, k) && Sinking(e, fault, d, x, j, completed, k) && j != k
    requires Stays(e, fault, d, x, y, k) && Finishes(e, x, y, j, flow)
    requires j <= k && Early(e, k) ==> !Open(e, d, x, k)
    ensures LateOpen(e, d, y, DoneItems(y.store, e.run), k)
    ensures flow.Continue? ==> Sinking(e, fault, d, y, j + 1, completed, k)
  {
    if k < e.items && ItemOf(e, k) == ItemOf(e, j) { SameItem(e, k, j); }
    if j > k { SunkIfClosed(e, fault, d, y, k); }
    hide IdOf, ItemOf, DoneItems, Sunk, Closed, Open, Early;
  }

  lemma OwnSinks(e: Env, fault: Adapter.Fault, d: Target.Data, x: State, y: State, completed: set<string>, k: nat,
                 flow: Flow)
    requires IsWrite(e, k) && Sinking(e, fault, d, x, k, completed, k)
    requires Sunk(e, fault, d, y, k) && Finishes(e, x, y, k, flow) && (flow.Continue? ==> Closed(e, y, k))
    ensures LateOpen(e, d, y, DoneItems(y.store, e.run), k)
    ensures flow.Continue? ==> Sinking(e, fault, d, y, k + 1, completed, k)
  {
    SunkIfClosed(e, fault, d, y, k);
    hide IdOf, ItemOf, DoneItems, Sunk, Closed, Open, Early;
  }

  /** In a turn that is not skipped an open write with a long window is the turn's own. */
  lemma NotSkipped(e: Env, fault: Adapter.Fault, d: Target.Data, x: State, j: nat, completed: set<string>, k: nat)
    requires IsWrite(e, k) && Hopeless(e, d, k) && Sinking(e, fault, d, x, j, completed, k)
    requires !(ItemOf(e, j) in completed && j < e.items)
    ensures j < k && Early(e, k) ==> !Open(e, d, x, k)
    ensures j > k ==> !Open(e, d, x, k)
    ensures j == k ==> !Finished(e, x, k)
  {
    if j > k { SunkIfClosed(e, fault, d, x, k); }
    hide IdOf, ItemOf, DoneItems, Sunk, Closed, Open, Early, OnlyWrites, Known, Replayable;
  }

  lemma {:induction false} LoopSunk(e: Env, pr: Process, d: Target.Data, x: State, j: nat, completed: set<string>,
                                    k: nat)
    requires WellScripted(e) && FirstWriteAt(e, k) && Hopeless(e, d, k) && j <= |e.script|
    requires Sinking(e, pr.fault, d, x, j, completed, k)
    ensures var y := Loop(e, pr, x, j, completed).0;
      Sunk(e, pr.fault, d, y, k) && LateOpen(e, d, y, DoneItems(y.store, e.run), k)
    decreases |e.script| - j
  {
    hide ToolStep, FinalStep, IdOf, ItemOf, WellScripted, Sinking, Sunk, Closed, DoneItems, LateOpen, Hopeless,
         Finishes, Stays, Finished, Open, Early;
    SinkingIs(e, pr.fault, d, x, j, completed, k);
    if j < |e.script| {
      if ItemOf(e, j) in completed && j < e.items {
        SkippedSinks(e, pr.fault, d, x, j, completed, k);
        LoopSunk(e, pr, d, x, j + 1, completed, k);
      } else {
        var at := if pr.crash.Some? && pr.crash.value.0 == j then Some(pr.crash.value.1) else None;
        var (y, flow) := if e.script[j].ToolTurn? then ToolStep(e, pr, x, j, at) else FinalStep(e, pr, x, j, at);
        NotSkipped(e, pr.fault, d, x, j, completed, k);
        if j == k {
          OwnStepSunk(e, pr, d, x, at, k);
          OwnSinks(e, pr.fault, d, x, y, completed, k, flow);
        } else {
          OtherStepSunk(e, pr, d, x, j, at, k);
          OtherSinks(e, pr.fault, d, x, y, j, completed, k, flow);
        }
        if flow.Continue? { LoopSunk(e, pr, d, y, j + 1, completed, k); } else { StaysSunk(e, pr.fault, d, x, y, k); }
      }
    }
  }

  lemma SinkingIs(e: Env, fault: Adapter.Fault, d: Target.Data, x: State, j: nat, completed: set<string>, k: nat)
    requires IsWrite(e, k) && Sinking(e, fault, d, x, j, completed, k)
    ensures Sunk(e, fault, d, x, k) && (j <= k || Closed(e, x, k))
    ensures j > k ==> LateOpen(e, d, x, DoneItems(x.store, e.run), k)
  {
    if j > k { SunkIfClosed(e, fault, d, x, k); }
    hide IdOf, ItemOf, DoneItems, Sunk, Closed, Open, Early;
  }

  lemma StaysSunk(e: Env, fault: Adapter.Fault, d: Target.Data, x: State, y: State, k: nat)
    requires IsWrite(e, k)
    ensures Stays(e, fault, d, x, y, k) ==> Sunk(e, fault, d, y, k)
  {
    hide Sunk, Closed, Open;
  }

  /** The state that the next process starts from: nothing but what is durable. */
  function Durable(x: State): State { State(x.store, Adapter.Channel(x.channel.data, false)) }

  /** Sunk for every process to come. */
  ghost predicate SunkForGood(e: Env, d: Target.Data, x: State, k: nat)
    requires IsWrite(e, k)
  {
    Sunk(e, Adapter.NoFault, d, Durable(x), k) && LateOpen(e, d, Durable(x), DoneItems(x.store, e.run), k)
  }

  lemma ProcessEnds(e: Env, fault: Adapter.Fault, d: Target.Data, x: State, k: nat)
    requires IsWrite(e, k) && Sunk(e, fault, d, x, k) && LateOpen(e, d, x, DoneItems(x.store, e.run), k)
    requires fault.NoFault? || x.channel.spent
    ensures SunkForGood(e, d, x, k)
  {
    hide IdOf, TargetVerifier.AlreadyVisible, Early, ItemOf, DoneItems;
  }

  lemma FirstSinks(e: Env, s: Store, d: Target.Data, fault: Adapter.Fault, k: nat)
    requires WellScripted(e) && FreshStart(e, s, d) && IsWrite(e, k) && fault.LostRequest?
    ensures Sinking(e, fault, d, State(s, Adapter.Channel(d, false)), 0, DoneItems(s, e.run), k)
  {
    hide IdOf, ItemOf, DoneItems, Early;
  }

  lemma LaterSinks(e: Env, d: Target.Data, x: State, k: nat)
    requires IsWrite(e, k) && SunkForGood(e, d, x, k)
    ensures Sinking(e, Adapter.NoFault, d, Durable(x), 0, DoneItems(x.store, e.run), k)
  {
    hide IdOf, ItemOf, DoneItems, Early, Sunk, Open;
  }

  /** Only the first process loses a request. */
  predicate LosesFirst(prs: seq<Process>) {
    prs != [] && prs[0].fault.LostRequest? && forall i :: 1 <= i < |prs| ==> prs[i].fault.NoFault?
  }

  lemma {:induction false} ProcessesSink(e: Env, s: Store, d: Target.Data, prs: seq<Process>, k: nat)
    requires WellScripted(e) && FreshStart(e, s, d) && FirstWriteAt(e, k) && Hopeless(e, d, k) && LosesFirst(prs)
    requires RunProcess(e, prs[0], s, d).0.channel.spent
    ensures SunkForGood(e, d, RunProcesses(e, s, d, prs).0, k)
  {
    hide WellScripted, FreshStart, Hopeless, SunkForGood, Sinking, Loop, DoneItems, LateOpen, Sunk, IdOf;
    var pr, rest := prs[|prs| - 1], prs[..|prs| - 1];
    if rest == [] {
      FirstSinks(e, s, d, pr.fault, k);
      LoopSunk(e, pr, d, State(s, Adapter.Channel(d, false)), 0, DoneItems(s, e.run), k);
      assert RunProcesses(e, s, d, []) == (State(s, Adapter.Channel(d, false)), Crashed);
    } else {
      assert rest[0] == prs[0];
      ProcessesSink(e, s, d, rest, k);
      var x := RunProcesses(e, s, d, rest).0;
      LaterSinks(e, d, x, k);
      LoopSunk(e, pr, d, Durable(x), 0, DoneItems(x.store, e.run), k);
    }
    ProcessEnds(e, pr.fault, d, RunProcesses(e, s, d, prs).0, k);
  }

  // ---------------------------------------------------------------- when the first write is committed

  lemma FirstIsCovered(e: Env, fault: Adapter.Fault, d: Target.Data, k: nat)
    requires FirstWriteAt(e, k) && Replayable(e, d, k)
    ensures LossCovered(e, fault, d)
  {
    hide Replayable;
    forall j | IsWrite(e, j) && (forall i :: 0 <= i < j ==> !IsWrite(e, i)) ensures Replayable(e, d, j) {
      assert j == k;
    }
  }

  lemma WriteIsCounted(e: Env, k: nat)
    requires IsWrite(e, k)
    ensures IdOf(e, k) in WriteIds(e, |e.script|)
  {
    hide IdOf;
  }

  /** A completed run in which the loss was covered, or never happened. */
  lemma CoveredCommits(e: Env, s: Store, d: Target.Data, prs: seq<Process>, k: nat)
    requires WellScripted(e) && FreshStart(e, s, d) && FirstWriteAt(e, k) && LosesFirst(prs)
    requires Replayable(e, d, k) || !RunProcess(e, prs[0], s, d).0.channel.spent
    requires RunProcesses(e, s, d, prs).1.Continue?
    ensures IdOf(e, k) in RunProcesses(e, s, d, prs).0.channel.data.idempotent
  {
    WriteIsCounted(e, k);
    hide WellScripted, FreshStart, Replayable, RunProcesses, RunProcess, IdOf, WriteIds, LossCovered;
    if Replayable(e, d, k) {
      FirstIsCovered(e, prs[0].fault, d, k);
      ExactlyOnce(e, s, d, prs);
    } else {
      var plain := [Faultless.Plain(prs[0])] + prs[1..];
      Faultless.RunTwin(e, s, d, prs);
      NoFaultCovered(e, plain[0].fault, d);
      ExactlyOnce(e, s, d, plain);
    }
  }

  lemma StartIsHopeless(e: Env, s: Store, d: Target.Data, k: nat)
    requires WellScripted(e) && FreshStart(e, s, d) && IsWrite(e, k) && !Replayable(e, d, k)
      && (k < e.items || !Early(e, k))
    ensures Hopeless(e, d, k)
  {
    StartCore(e, s, d, Adapter.NoFault);
    hide IdOf, Replayable, Early, DoneItems, Landed, Lost, Missing, Dead;
  }

  /** Any number of processes that crash anywhere, the first of them with a request to lose. When the loop has
      completed, the first write is committed if and only if the first process never got as far as sending it, or its
      loss could be made good: the call window ends within a second, the value was not visible already, and the target
      takes it. */
  lemma {:induction false} LostRunsCommitIff(e: Env, s: Store, d: Target.Data, prs: seq<Process>, k: nat)
    requires WellScripted(e) && FreshStart(e, s, d) && FirstWriteAt(e, k) && (k < e.items || !Early(e, k))
    requires LosesFirst(prs) && RunProcesses(e, s, d, prs).1.Continue?
    ensures IdOf(e, k) in RunProcesses(e, s, d, prs).0.channel.data.idempotent <==>
      !RunProcess(e, prs[0], s, d).0.channel.spent || Replayable(e, d, k)
  {
    if !RunProcess(e, prs[0], s, d).0.channel.spent || Replayable(e, d, k) {
      CoveredCommits(e, s, d, prs, k);
    } else {
      StartIsHopeless(e, s, d, k);
      ProcessesSink(e, s, d, prs, k);
      assert Sunk(e, Adapter.NoFault, d, Durable(RunProcesses(e, s, d, prs).0), k);
      NotThere(e, Adapter.NoFault, d, Durable(RunProcesses(e, s, d, prs).0), k);
    }
    hide *;
  }
}
