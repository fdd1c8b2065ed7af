/**
 * The helpers of source/T2/utility/utility.cpp: the polling wait
 * `blocking_timer` and `exception_wrapper`.
 */
module Utility {

  /** A monotone clock read that advances by at least `intermission` per
      sleep has read at least `k * intermission` at the k-th loop test. */
  lemma {:induction false} ElapsedLowerBound(elapsed: nat -> nat, intermission: nat, k: nat)
    requires forall j: nat :: elapsed(j) + intermission <= elapsed(j + 1)
    ensures k * intermission <= elapsed(k)
  {
    if k > 0 {
      ElapsedLowerBound(elapsed, intermission, k - 1);
      assert elapsed(k - 1) + intermission <= elapsed(k);
    }
  }

  /** `blocking_timer` (source/T2/utility/utility.cpp:7-16), against an
      abstract clock and flag: `elapsed(k)` is the time since the start read
      by the k-th loop test, `flagAtTest(k)` the flag that test reads, and
      `flagAtReturn(k)` the flag the `return` reads after the loop left at
      test k. The loop polls while time is left and the flag is down, and the
      result is the negation of the flag read last: true means the timeout
      kicked in. */
  method BlockingTimer(duration: int, intermission: nat,
                       elapsed: nat -> nat, flagAtTest: nat -> bool, flagAtReturn: nat -> bool)
    returns (timedOut: bool, polls: nat)
    requires intermission > 0
    requires forall k: nat :: elapsed(k) + intermission <= elapsed(k + 1)
    ensures forall k :: 0 <= k < polls ==> elapsed(k) < duration && !flagAtTest(k)
    ensures elapsed(polls) >= duration || flagAtTest(polls)
    ensures timedOut == !flagAtReturn(polls)
    ensures flagAtTest(0) ==> polls == 0
    ensures timedOut && flagAtReturn(polls) == flagAtTest(polls) ==> elapsed(polls) >= duration
    ensures polls == 0 || (polls - 1) * intermission < duration
  {
    polls := 0;
    while elapsed(polls) < duration && !flagAtTest(polls)
      invariant forall k :: 0 <= k < polls ==> elapsed(k) < duration && !flagAtTest(k)
      decreases duration - elapsed(polls)
    {
      polls := polls + 1;  // sleep_for(intermission)
    }
    timedOut := !flagAtReturn(polls);
    if polls > 0 {
      ElapsedLowerBound(elapsed, intermission, polls - 1);
    }
  }

  /** How a call of a `std::function<void()>` ends. */
  datatype Completion = Normal | Thrown

  /** `exception_wrapper` (source/T2/utility/utility.cpp:23-33): true exactly
      when the call threw, whatever it threw. */
  function ExceptionWrapper(call: Completion): (caught: bool)
    ensures caught <==> call == Thrown
  {
    match call
    case Thrown => true
    case Normal => false
  }
}
