/**
 What one restart of frpc can come to, and the quantities of a whole restart history
 that decide when the supervisor gives up and how long it sleeps.
 */
module RestartHistory {
  import opened Backoff

  /** How one start attempt ended, as the restart loop classifies it. */
  datatype Outcome = StartError | CleanExit | ShortFailure | StableFailure

  predicate IsFailure(o: Outcome) {
    o.StartError? || o.ShortFailure?
  }

  /** Failures since the last clean or stable exit. */
  function Failures(h: seq<Outcome>): nat {
    if h == [] || !IsFailure(h[|h| - 1]) then 0 else 1 + Failures(h[..|h| - 1])
  }

  /** The count is n exactly if the last n outcomes are failures and the one before them is not. */
  lemma {:induction false} FailuresAreTrailing(h: seq<Outcome>, n: nat)
    requires n <= |h|
    ensures Failures(h) <= |h|
    ensures Failures(h) == n <==>
              && (forall i :: |h| - n <= i < |h| ==> IsFailure(h[i]))
              && (n < |h| ==> !IsFailure(h[|h| - n - 1]))
  {
    if h != [] && IsFailure(h[|h| - 1]) {
      FailuresAreTrailing(h[..|h| - 1], if n == 0 then 0 else n - 1);
    }
  }

  /** Clean or stable exits, which set the failure count and the delay back. */
  function Resets(h: seq<Outcome>): nat {
    if h == [] then 0
    else Resets(h[..|h| - 1]) + (if IsFailure(h[|h| - 1]) then 0 else 1)
  }

  /** The resets of a history are its outcomes that are not failures. */
  lemma {:induction false} ResetsAreOthers(h: seq<Outcome>)
    ensures Resets(h) == |set i | 0 <= i < |h| && !IsFailure(h[i])|
  {
    if h != [] {
      var n := |h| - 1;
      ResetsAreOthers(h[..n]);
      var before := set i | 0 <= i < n && !IsFailure(h[..n][i]);
      var all := set i | 0 <= i < |h| && !IsFailure(h[i]);
      assert all == if IsFailure(h[n]) then before else before + {n};
    }
  }

  /** The failure count is below `limit` now and was so all along. */
  predicate Below(h: seq<Outcome>, limit: nat) {
    Failures(h) < limit && (h != [] ==> Below(h[..|h| - 1], limit))
  }

  /** The failure count was below `limit` all along, except perhaps just now. */
  predicate BelowUntilNow(h: seq<Outcome>, limit: nat) {
    h != [] ==> Below(h[..|h| - 1], limit)
  }

  lemma {:induction false} BelowAtEveryPoint(h: seq<Outcome>, limit: nat)
    ensures Below(h, limit) <==> forall n :: 0 <= n <= |h| ==> Failures(h[..n]) < limit
  {
    assert h[..|h|] == h;
    if h != [] {
      var p := h[..|h| - 1];
      BelowAtEveryPoint(p, limit);
      assert forall n :: 0 <= n <= |p| ==> p[..n] == h[..n];
    }
  }

  /** Start attempts that a history with its resets allows: (resets + 1) * limit. */
  function Allowance(h: seq<Outcome>, limit: int): int {
    if h == [] then limit
    else Allowance(h[..|h| - 1], limit) + if IsFailure(h[|h| - 1]) then 0 else limit
  }

  lemma {:induction false} AllowanceIsProduct(h: seq<Outcome>, limit: int)
    ensures Allowance(h, limit) == (Resets(h) + 1) * limit
  {
    if h != [] {
      var p := h[..|h| - 1];
      AllowanceIsProduct(p, limit);
      assert (Resets(p) + 2) * limit == (Resets(p) + 1) * limit + limit;
    }
  }

  /** k resets allow at most (k + 1) * limit start attempts, and fewer while below the limit. */
  lemma {:induction false} RetryBudget(h: seq<Outcome>, limit: nat)
    requires limit > 0 && BelowUntilNow(h, limit)
    ensures Failures(h) <= limit
    ensures |h| <= Allowance(h, limit) - limit + Failures(h)
  {
    if h != [] {
      RetryBudget(h[..|h| - 1], limit);
    }
  }

  /** The sleep after the last outcome of a history: the base delay, or the backoff so far. */
  function WaitAfter(initial: Duration, cap: Duration, h: seq<Outcome>): Duration
    requires h != []
  {
    if IsFailure(h[|h| - 1]) then DelayAfter(initial, cap, Failures(h[..|h| - 1])) else initial
  }

  /** All sleeps of a history, one after each outcome. */
  function Waits(initial: Duration, cap: Duration, h: seq<Outcome>): (w: seq<Duration>)
    ensures |w| == |h|
  {
    if h == [] then [] else Waits(initial, cap, h[..|h| - 1]) + [WaitAfter(initial, cap, h)]
  }

  function Sum(w: seq<Duration>): int {
    if w == [] then 0 else Sum(w[..|w| - 1]) + w[|w| - 1]
  }

  function TotalWait(initial: Duration, cap: Duration, h: seq<Outcome>): int {
    Sum(Waits(initial, cap, h))
  }

  lemma TotalWaitGrows(initial: Duration, cap: Duration, h: seq<Outcome>)
    requires h != []
    ensures TotalWait(initial, cap, h)
         == TotalWait(initial, cap, h[..|h| - 1]) + WaitAfter(initial, cap, h)
  {
    var w := Waits(initial, cap, h);
    assert w[..|w| - 1] == Waits(initial, cap, h[..|h| - 1]);
  }

  /** The k-th sleep is the one that the history up to then calls for. */
  lemma {:induction false} WaitAt(initial: Duration, cap: Duration, h: seq<Outcome>, k: nat)
    requires k < |h|
    ensures Waits(initial, cap, h)[k] == WaitAfter(initial, cap, h[..k + 1])
  {
    if k == |h| - 1 {
      assert h[..k + 1] == h;
    } else {
      var p := h[..|h| - 1];
      WaitAt(initial, cap, p, k);
      assert p[..k + 1] == h[..k + 1];
    }
  }

  /** No history sleeps more than the larger setting each time, whatever the settings are. */
  lemma {:induction false} TotalWaitBounded(initial: Duration, cap: Duration, h: seq<Outcome>)
    ensures TotalWait(initial, cap, h) <= |h| * Max(initial, cap)
  {
    if h != [] {
      var p := h[..|h| - 1];
      TotalWaitBounded(initial, cap, p);
      TotalWaitGrows(initial, cap, h);
      DelayAtMost(initial, cap, Failures(p));
      var top := Max(initial, cap);
      assert (|p| + 1) * top == |p| * top + top;
    }
  }

  /** While nothing wraps, no sleep is negative. */
  lemma {:induction false} TotalWaitNotNegative(initial: Duration, cap: Duration, h: seq<Outcome>, limit: nat)
    requires 0 <= initial && 0 <= cap && NarrowUpTo(initial, cap, limit) && Below(h, limit)
    ensures TotalWait(initial, cap, h) >= 0
  {
    if h != [] {
      var p := h[..|h| - 1];
      TotalWaitNotNegative(initial, cap, p, limit);
      TotalWaitGrows(initial, cap, h);
      DelayIsClosedForm(initial, cap, limit, Failures(p));
    }
  }

  lemma {:induction false} AllFailuresCount(h: seq<Outcome>)
    requires forall i :: 0 <= i < |h| ==> IsFailure(h[i])
    ensures Failures(h) == |h|
  {
    if h != [] {
      AllFailuresCount(h[..|h| - 1]);
    }
  }

  /** The first n delays together. */
  function DelaySum(initial: Duration, cap: Duration, n: nat): int {
    if n == 0 then 0 else DelaySum(initial, cap, n - 1) + DelayAfter(initial, cap, n - 1)
  }

  lemma {:induction false} AllFailingIsDelaySum(initial: Duration, cap: Duration, h: seq<Outcome>)
    requires forall i :: 0 <= i < |h| ==> IsFailure(h[i])
    ensures TotalWait(initial, cap, h) == DelaySum(initial, cap, |h|)
  {
    if h != [] {
      var p := h[..|h| - 1];
      AllFailingIsDelaySum(initial, cap, p);
      AllFailuresCount(p);
      TotalWaitGrows(initial, cap, h);
    }
  }

  /**
   A total of n sleeps is at most the geometric sum initial * (2^n - 1), and exactly that as long
   as the last of the sleeps is not cut short by the cap.
   */
  predicate Geometric(initial: Duration, cap: Duration, n: nat, total: int) {
    && total <= Scaled(initial, n) - initial
    && (total == Scaled(initial, n) - initial <==> n <= 1 || Scaled(initial, n - 1) <= cap)
  }

  lemma {:induction false} DelaySumIsGeometric(initial: Duration, cap: Duration, n: nat)
    requires 0 <= initial && 0 <= cap
    ensures Geometric(initial, cap, n, DelaySum(initial, cap, n))
  {
    if n > 0 {
      DelaySumIsGeometric(initial, cap, n - 1);
      DelayBelowScaled(initial, cap, n - 1);
      DelayAtMost(initial, cap, n - 1);
      if n > 1 && Scaled(initial, n - 1) <= cap {
        ScaledGrows(initial, 0, n - 2);
        DelayScaled(initial, cap, n - 1);
      }
    }
  }

  /** A run of failures and nothing else. */
  lemma AllFailingTotal(initial: Duration, cap: Duration, h: seq<Outcome>)
    requires 0 <= initial && 0 <= cap
    requires forall i :: 0 <= i < |h| ==> IsFailure(h[i])
    ensures Geometric(initial, cap, |h|, TotalWait(initial, cap, h))
  {
    AllFailingIsDelaySum(initial, cap, h);
    DelaySumIsGeometric(initial, cap, |h|);
  }
}
