/**
 * The consecutive-failure counter of `work()`: a failed `bladerf_sync_rx`
 * increments it and a successful one clears it; `work()` gives up (returns
 * WORK_DONE) when the incremented count reaches the limit.
 */
module Failures {

  /** The counter after one receive call, and whether that call ends the stream. */
  datatype Step = Step(failures: nat, done: bool)

  /** One receive call with device status `status`, starting from count `failures`. */
  function FailureStep(failures: nat, status: int, limit: nat): (r: Step)
    ensures r.failures == 0 <==> status == 0
    ensures status != 0 ==> r.failures == failures + 1
    ensures r.done <==> status != 0 && r.failures >= limit
  {
    if status != 0 then Step(failures + 1, failures + 1 >= limit)
    else Step(0, false)
  }

  /** The counter after a run of receive calls with the given statuses. */
  function Replay(failures: nat, statuses: seq<int>, limit: nat): nat
    decreases statuses
  {
    if statuses == [] then failures
    else Replay(FailureStep(failures, statuses[0], limit).failures, statuses[1..], limit)
  }

  /** Number of failed calls since the last successful one. */
  function TrailingFailures(statuses: seq<int>): nat
  {
    if statuses == [] || statuses[|statuses| - 1] == 0 then 0
    else TrailingFailures(statuses[..|statuses| - 1]) + 1
  }

  /** Replaying one more call is one more step. */
  lemma {:induction false} ReplaySnoc(failures: nat, statuses: seq<int>, status: int, limit: nat)
    ensures Replay(failures, statuses + [status], limit)
         == FailureStep(Replay(failures, statuses, limit), status, limit).failures
    decreases statuses
  {
    if statuses != [] {
      assert (statuses + [status])[1..] == statuses[1..] + [status];
      ReplaySnoc(FailureStep(failures, statuses[0], limit).failures, statuses[1..], status, limit);
    }
  }

  /**
   * The counter counts exactly the failures since the last success: after a
   * run that contains a success it is the number of failures after the last
   * one, whatever the count was before; after a run of failures only, it is
   * the old count plus the length of the run.
   */
  lemma {:induction false} ReplayCountsTrailingFailures(failures: nat, statuses: seq<int>, limit: nat)
    ensures (exists k :: 0 <= k < |statuses| && statuses[k] == 0) ==>
              Replay(failures, statuses, limit) == TrailingFailures(statuses)
    ensures (forall k :: 0 <= k < |statuses| ==> statuses[k] != 0) ==>
              Replay(failures, statuses, limit) == failures + |statuses|
  {
    if statuses != [] {
      var init, last := statuses[..|statuses| - 1], statuses[|statuses| - 1];
      assert statuses == init + [last];
      ReplayCountsTrailingFailures(failures, init, limit);
      ReplaySnoc(failures, init, last, limit);
      if last != 0 && exists k :: 0 <= k < |statuses| && statuses[k] == 0 {
        var k :| 0 <= k < |statuses| && statuses[k] == 0;
        assert init[k] == 0;
      }
    }
  }

  /**
   * From a cleared counter, a run of failures ends the stream at its
   * limit-th call and not before: call k (counting from 0) of the run reports
   * done exactly when k + 1 >= limit.
   */
  lemma ThresholdReached(statuses: seq<int>, k: nat, limit: nat)
    requires k < |statuses|
    requires forall j :: 0 <= j <= k ==> statuses[j] != 0
    ensures FailureStep(Replay(0, statuses[..k], limit), statuses[k], limit).done <==> k + 1 >= limit
  {
    ReplayCountsTrailingFailures(0, statuses[..k], limit);
  }

  /** A successful call clears the counter, whatever came before it. */
  lemma SuccessResets(failures: nat, statuses: seq<int>, limit: nat)
    requires statuses != [] && statuses[|statuses| - 1] == 0
    ensures Replay(failures, statuses, limit) == 0
  {
    ReplayCountsTrailingFailures(failures, statuses, limit);
  }
}
