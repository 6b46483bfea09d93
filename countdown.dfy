/** The build's fan-in: a countdown that starts at the number of frameworks, loses one on each
    framework's completion, and runs the build callback whenever it stands at zero or below
    after a completion. Completions are steps of a sequential state machine; which framework
    completes is irrelevant to the count. */
module Countdown {

  /** The counts at which the callback runs during the first `k` completions of a countdown
      that started at `n` (after completion `j` the count is `n - j`). */
  function Firings(n: int, k: nat, hasCallback: bool): seq<int>
  {
    if k == 0 then []
    else Firings(n, k - 1, hasCallback) + (if hasCallback && n - k <= 0 then [n - k] else [])
  }

  /** While the count is still positive the callback has not run. */
  lemma {:induction false} SilentBeforeZero(n: int, k: nat, hasCallback: bool)
    requires k < n
    ensures Firings(n, k, hasCallback) == []
  {
    if k > 0 {
      SilentBeforeZero(n, k - 1, hasCallback);
    }
  }

  /** When each of `n` frameworks completes exactly once, the callback runs exactly once, on
      the last completion (the count is then 0), if there is a callback and at least one
      framework; with no framework there is no completion and it never runs. */
  lemma ExactlyOnceOnLast(n: nat, hasCallback: bool)
    ensures Firings(n, n, hasCallback) == if hasCallback && n > 0 then [0] else []
  {
    if n > 0 {
      SilentBeforeZero(n, n - 1, hasCallback);
    }
  }

  /** Completions beyond the count each run the callback again. */
  lemma {:induction false} ExtraCompletionsFire(n: nat, k: nat, hasCallback: bool)
    requires n <= k
    ensures |Firings(n, k, hasCallback)| == if hasCallback && k > 0 then k - n + (if n == 0 then 0 else 1) else 0
  {
    if k > 0 {
      if k - 1 < n {
        SilentBeforeZero(n, k - 1, hasCallback);
      } else {
        ExtraCompletionsFire(n, k - 1, hasCallback);
      }
    }
  }

  /** The countdown object of `build`: `count` and the callback; `runs` records the count seen
      by each run of the callback. */
  class Builder {
    var count: int
    const hasCallback: bool
    var runs: seq<int>
    ghost const start: int
    ghost var completions: nat

    ghost predicate Valid()
      reads this
    {
      count == start - completions && runs == Firings(start, completions, hasCallback)
    }

    /** `that.count = app.frameworks.length` */
    constructor (frameworks: nat, callback: bool)
      ensures Valid()
      ensures start == frameworks && count == frameworks && completions == 0
      ensures hasCallback == callback && runs == []
    {
      count, hasCallback, runs := frameworks, callback, [];
      start, completions := frameworks, 0;
    }

    /** A framework's build callback: `that.count -= 1; that.callbackIfDone()`. */
    method Completed()
      requires Valid()
      modifies this
      ensures Valid()
      ensures completions == old(completions) + 1
      ensures count == old(count) - 1
      ensures runs == old(runs) + (if hasCallback && count <= 0 then [count] else [])
    {
      count := count - 1;
      completions := completions + 1;
      if hasCallback && count <= 0 {
        runs := runs + [count];
      }
    }
  }
}
