/** The pulse monitor: poll the health check, call recovery when it fails, but not more often than the cooldown
    allows. */
module Monitor {
  import opened Prelude

  function Max(a: real, b: real): real { if a < b then b else a }

  /** One turn of the loop: is the process alive, and the clock reading that is taken if it is not. */
  datatype Poll = Poll(alive: bool, now: real)

  /** Consecutive calls, the one before this loop included, are at least a cooldown apart. */
  predicate Spaced(last: Option<real>, calls: seq<real>, cooldown: real) {
    && (last.Some? && calls != [] ==> calls[0] - last.value >= cooldown)
    && (forall i :: 0 <= i < |calls| - 1 ==> calls[i + 1] - calls[i] >= cooldown)
  }

  /** The last call before or at poll `i`, given how many of the calls had been made by then. */
  function LastCall(last: Option<real>, calls: seq<real>, made: nat): Option<real>
    requires made <= |calls|
  {
    if made == 0 then last else Some(calls[made - 1])
  }

  /** Poll `i` made call number `made`, or it was healthy, or the last call was less than a cooldown ago. */
  predicate Answered(p: Poll, last: Option<real>, calls: seq<real>, cooldown: real, made: nat, after: nat) {
    && made <= after <= |calls| && after <= made + 1
    && (after == made + 1 <==>
        !p.alive && (LastCall(last, calls, made).None? || p.now - LastCall(last, calls, made).value >= cooldown))
    && (after == made + 1 ==> calls[made] == p.now)
  }

  class PulseMonitor {
    const cooldown: real
    var lastRecoveryAt: Option<real>

    constructor (cooldownSeconds: real)
      ensures cooldown == Max(0.0, cooldownSeconds) && lastRecoveryAt == None
    {
      cooldown := Max(0.0, cooldownSeconds);
      lastRecoveryAt := None;
    }

    /** The first `|polls|` turns of `run`, for any clock. `calls` are the clock readings at which recovery was called;
        `made[i]` counts the calls before turn `i`. Every unhealthy poll calls recovery unless the last call is less
        than a cooldown old. */
    method Run(polls: seq<Poll>) returns (calls: seq<real>, ghost made: seq<nat>)
      modifies this
      ensures Spaced(old(lastRecoveryAt), calls, cooldown)
      ensures |made| == |polls| + 1 && made[0] == 0 && made[|polls|] == |calls|
      ensures forall i ::
        0 <= i < |polls| ==> Answered(polls[i], old(lastRecoveryAt), calls, cooldown, made[i], made[i + 1])
      ensures lastRecoveryAt == LastCall(old(lastRecoveryAt), calls, |calls|)
    {
      calls, made := [], [0];
      var loops := 0;
      while loops < |polls|
        invariant 0 <= loops <= |polls|
        invariant Spaced(old(lastRecoveryAt), calls, cooldown)
        invariant |made| == loops + 1 && made[0] == 0 && made[loops] == |calls|
        invariant forall i :: 0 <= i < loops ==>
          Answered(polls[i], old(lastRecoveryAt), calls, cooldown, made[i], made[i + 1])
        invariant lastRecoveryAt == LastCall(old(lastRecoveryAt), calls, |calls|)
      {
        var poll := polls[loops];
        loops := loops + 1;
        if !poll.alive {
          if lastRecoveryAt.None? || poll.now - lastRecoveryAt.value >= cooldown {
            Longer(polls[..loops - 1], old(lastRecoveryAt), calls, poll.now, cooldown, made);
            calls := calls + [poll.now];
            lastRecoveryAt := Some(poll.now);
          }
        }
        made := made + [|calls|];
      }
    }
  }

  lemma Longer(polls: seq<Poll>, last: Option<real>, calls: seq<real>, call: real, cooldown: real, made: seq<nat>)
    requires |made| == |polls| + 1
    requires forall i :: 0 <= i < |polls| ==> Answered(polls[i], last, calls, cooldown, made[i], made[i + 1])
    ensures forall i :: 0 <= i < |polls| ==> Answered(polls[i], last, calls + [call], cooldown, made[i], made[i + 1])
  {
    forall i | 0 <= i < |polls| ensures Answered(polls[i], last, calls + [call], cooldown, made[i], made[i + 1]) {
      assert Answered(polls[i], last, calls, cooldown, made[i], made[i + 1]);
      assert LastCall(last, calls + [call], made[i]) == LastCall(last, calls, made[i]);
    }
  }

  /** Rate bound: between the first and the last of `k` recovery calls lie at least `k - 1` cooldowns. */
  lemma {:induction false} RateBound(last: Option<real>, calls: seq<real>, cooldown: real)
    requires calls != [] && Spaced(last, calls, cooldown)
    ensures calls[|calls| - 1] - calls[0] >= (|calls| - 1) as real * cooldown
  {
    if |calls| > 1 {
      var shorter := calls[..|calls| - 1];
      RateBound(last, shorter, cooldown);
      assert calls[|shorter|] - calls[|shorter| - 1] >= cooldown;
      assert (|calls| - 1) as real * cooldown == (|shorter| - 1) as real * cooldown + cooldown;
    }
  }
}
