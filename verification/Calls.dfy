/** API calls that may fail. Which of them do is an input: the results by number, in the order in which calls are
    made. */
module Calls {
  /** The numbers of the first calls that fail. */
  ghost function FailedAmong(results: nat -> bool, made: nat): set<nat> {
    set k: nat | k < made && !results(k)
  }

  /** How many of the first calls fail. */
  ghost function FailuresAmong(results: nat -> bool, made: nat): nat {
    |FailedAmong(results, made)|
  }

  lemma OneMoreCall(results: nat -> bool, made: nat)
    ensures FailuresAmong(results, made + 1) == FailuresAmong(results, made) + if results(made) then 0 else 1
  {
    if results(made) {
      assert FailedAmong(results, made + 1) == FailedAmong(results, made);
    } else {
      assert FailedAmong(results, made + 1) == FailedAmong(results, made) + {made};
    }
  }

  /** No call fails between two numbers exactly if all results in between say so. */
  lemma {:induction false} NoFailures(results: nat -> bool, from: nat, upto: nat)
    requires from <= upto
    ensures FailuresAmong(results, upto) >= FailuresAmong(results, from)
    ensures FailuresAmong(results, upto) == FailuresAmong(results, from)
            <==> forall k :: from <= k < upto ==> results(k)
  {
    if from < upto {
      NoFailures(results, from, upto - 1);
      OneMoreCall(results, upto - 1);
    }
  }
}
