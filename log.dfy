/** log.py: the counters of successful and failed checks. Python keeps them as
    class attributes updated by static methods; here they are the fields of
    one `Log` object shared by the run. */
module Logs {
  /** How many outcomes in `outcomes` are `b`. */
  function Count(outcomes: seq<bool>, b: bool): nat
    decreases |outcomes|
  {
    if outcomes == [] then 0
    else (if outcomes[0] == b then 1 else 0) + Count(outcomes[1..], b)
  }

  /** Recording one more outcome adds one to its own count only. */
  lemma {:induction false} CountSnoc(outcomes: seq<bool>, x: bool, b: bool)
    ensures Count(outcomes + [x], b) == Count(outcomes, b) + (if x == b then 1 else 0)
    decreases |outcomes|
  {
    if outcomes != [] {
      assert (outcomes + [x])[1..] == outcomes[1..] + [x];
      CountSnoc(outcomes[1..], x, b);
    }
  }

  /** Every recorded check is either a success or a failure. */
  lemma {:induction false} CountsPartition(outcomes: seq<bool>)
    ensures Count(outcomes, true) + Count(outcomes, false) == |outcomes|
    decreases |outcomes|
  {
    if outcomes != [] {
      CountsPartition(outcomes[1..]);
    }
  }

  class Log {
    /** `Log.successful`. */
    var successful: nat
    /** `Log.failures`. */
    var failures: nat
    /** The outcome of every check recorded so far, `true` for a success. */
    ghost var outcomes: seq<bool>

    /** The counters count the recorded outcomes. */
    ghost predicate Valid()
      reads this
    {
      successful == Count(outcomes, true) && failures == Count(outcomes, false)
    }

    /** Both counters start at zero. */
    constructor ()
      ensures Valid()
      ensures successful == 0 && failures == 0 && outcomes == []
    {
      successful := 0;
      failures := 0;
      outcomes := [];
    }

    /** `Log.success`: one more success, failures unchanged. */
    method Success()
      modifies this
      requires Valid()
      ensures Valid()
      ensures successful == old(successful) + 1 && failures == old(failures)
      ensures outcomes == old(outcomes) + [true]
    {
      CountSnoc(outcomes, true, true);
      CountSnoc(outcomes, true, false);
      successful := successful + 1;
      outcomes := outcomes + [true];
    }

    /** `Log.failure`: one more failure, successes unchanged. */
    method Failure()
      modifies this
      requires Valid()
      ensures Valid()
      ensures failures == old(failures) + 1 && successful == old(successful)
      ensures outcomes == old(outcomes) + [false]
    {
      CountSnoc(outcomes, false, true);
      CountSnoc(outcomes, false, false);
      failures := failures + 1;
      outcomes := outcomes + [false];
    }

    /** `Log.result`: the pair of counters, which together count every
        recorded check; nothing changes. */
    method Result() returns (s: nat, f: nat)
      requires Valid()
      ensures s == successful && f == failures
      ensures s + f == |outcomes|
    {
      CountsPartition(outcomes);
      s, f := successful, failures;
    }
  }
}
