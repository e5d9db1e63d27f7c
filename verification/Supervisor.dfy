/**
 The frpc supervisor: starting the child process, waiting for it, stopping it, and the
 restart loop around them. What the outside world does (whether a start succeeds, how the
 child ends, when the context is cancelled, which ready branch a select takes) is a script
 of rounds, one per turn of the loop, so a claim about every script is a claim about every run.
 */
module Supervisor {
  import opened Backoff
  import opened FrpConfig
  import opened RestartHistory
  import opened Wrappers

  const STABLE_RUN: int := 30 * SECOND

  datatype Round = Round(
    cancelAtHead: bool,        // the context is cancelled before the loop-head select
    starts: bool,              // the child starts
    cancelWhileRunning: bool,  // the context is cancelled before the child's end is dealt with
    doneFirst: bool,           // waitProcess's select takes Done once it is ready
    exitError: bool,           // the child ends with an error
    ran: int,                  // nanoseconds from start to end
    interruptOk: bool,         // the interrupt can be sent
    killOk: bool,              // the kill can be sent
    cancelInBackoff: bool,     // the context is cancelled during the sleep
    wakeOnDone: bool)          // the sleep's select takes Done once it is ready

  predicate Cancels(r: Round) {
    r.cancelAtHead || r.cancelWhileRunning || r.cancelInBackoff
  }

  function Classify(r: Round): Outcome {
    if !r.starts then StartError
    else if !r.exitError then CleanExit
    else if r.ran >= STABLE_RUN then StableFailure
    else ShortFailure
  }

  /** A round counts as a failure exactly if nothing started, or it broke within 30 seconds. */
  lemma FailureMeansShort(r: Round)
    ensures IsFailure(Classify(r)) <==> !r.starts || (r.exitError && r.ran < 30_000_000_000)
    ensures Classify(r).StartError? <==> !r.starts
    ensures Classify(r).CleanExit? <==> r.starts && !r.exitError
  {
  }

  /** How many of the rounds start a child. */
  function Starts(rounds: seq<Round>): nat {
    if rounds == [] then 0
    else Starts(rounds[..|rounds| - 1]) + if rounds[|rounds| - 1].starts then 1 else 0
  }

  /** The context is cancelled while the child runs, and waitProcess notices before the child ends. */
  predicate Abandons(r: Round) {
    r.starts && r.cancelWhileRunning && r.doneFirst
  }

  function Outcomes(rounds: seq<Round>): (h: seq<Outcome>)
    ensures |h| == |rounds|
  {
    if rounds == [] then [] else Outcomes(rounds[..|rounds| - 1]) + [Classify(rounds[|rounds| - 1])]
  }

  /** The context's flag after these rounds; once set it stays. */
  function CancelledBy(initially: bool, rounds: seq<Round>): bool {
    if rounds == [] then initially
    else CancelledBy(initially, rounds[..|rounds| - 1]) || Cancels(rounds[|rounds| - 1])
  }

  /** The flag is set exactly if it was set before or some round sets it; outcomes are taken round by round. */
  lemma {:induction false} CancelledExactly(initially: bool, rounds: seq<Round>)
    ensures CancelledBy(initially, rounds) <==> initially || exists i :: 0 <= i < |rounds| && Cancels(rounds[i])
    ensures forall i :: 0 <= i < |rounds| ==> Outcomes(rounds)[i] == Classify(rounds[i])
  {
    if rounds != [] {
      var past := rounds[..|rounds| - 1];
      CancelledExactly(initially, past);
      assert forall i :: 0 <= i < |past| ==> past[i] == rounds[i];
    }
  }

  lemma {:induction false} CancelledStays(initially: bool, rounds: seq<Round>, n: nat)
    requires n <= |rounds| && CancelledBy(initially, rounds[..n])
    ensures CancelledBy(initially, rounds)
  {
    if n == |rounds| {
      assert rounds[..n] == rounds;
    } else {
      assert rounds[..|rounds| - 1][..n] == rounds[..n];
      CancelledStays(initially, rounds[..|rounds| - 1], n);
    }
  }

  // ---------------------------------------------------------------- deciding a round

  datatype Verdict = Goes | Halts | GivesUp

  /** What a round leads to, given what came before it. */
  function VerdictOf(maxRetries: int, cancelled: bool, before: seq<Outcome>, r: Round): Verdict {
    if cancelled || r.cancelAtHead then Halts
    else if r.starts && r.cancelWhileRunning then Halts
    else if 0 < maxRetries <= Failures(before + [Classify(r)]) then GivesUp
    else if (r.cancelWhileRunning || r.cancelInBackoff) && r.wakeOnDone then Halts
    else Goes
  }

  /**
   The loop gives up exactly if the retry limit is reached before cancellation is seen. It halts
   only after cancellation, and a cancellation that its selects take ends it one way or the other.
   */
  lemma VerdictMeans(maxRetries: int, cancelled: bool, before: seq<Outcome>, r: Round)
    ensures var v, failures := VerdictOf(maxRetries, cancelled, before, r), Failures(before + [Classify(r)]);
            && (v.GivesUp? <==>
                  && !cancelled && !r.cancelAtHead && (r.starts ==> !r.cancelWhileRunning)
                  && maxRetries > 0 && failures >= maxRetries)
            && (v.Halts? ==> cancelled || Cancels(r))
            && ((cancelled || Cancels(r)) && r.wakeOnDone ==> !v.Goes?)
            && (cancelled || r.cancelAtHead || (r.starts && r.cancelWhileRunning) ==> v.Halts?)
  {
  }

  /** The verdict on the round that follows `past`. */
  function NextVerdict(maxRetries: int, initially: bool, past: seq<Round>, r: Round): Verdict {
    VerdictOf(maxRetries, CancelledBy(initially, past), Outcomes(past), r)
  }

  /** No round ends the loop. */
  predicate AllGo(maxRetries: int, initially: bool, rounds: seq<Round>) {
    rounds != [] ==>
      var past := rounds[..|rounds| - 1];
      && AllGo(maxRetries, initially, past)
      && NextVerdict(maxRetries, initially, past, rounds[|rounds| - 1]) == Goes
  }

  lemma OneMoreRound(maxRetries: int, initially: bool, rounds: seq<Round>, i: nat)
    requires i < |rounds|
    ensures Outcomes(rounds[..i + 1]) == Outcomes(rounds[..i]) + [Classify(rounds[i])]
    ensures CancelledBy(initially, rounds[..i + 1]) == (CancelledBy(initially, rounds[..i]) || Cancels(rounds[i]))
    ensures Starts(rounds[..i + 1]) == Starts(rounds[..i]) + if rounds[i].starts then 1 else 0
    ensures AllGo(maxRetries, initially, rounds[..i + 1])
       <==> AllGo(maxRetries, initially, rounds[..i])
            && NextVerdict(maxRetries, initially, rounds[..i], rounds[i]) == Goes
  {
    assert rounds[..i + 1][..i] == rounds[..i];
  }

  lemma OneMoreWait(initial: Duration, cap: Duration, h: seq<Outcome>, o: Outcome)
    ensures Waits(initial, cap, h + [o]) == Waits(initial, cap, h) + [WaitAfter(initial, cap, h + [o])]
  {
    assert (h + [o])[..|h|] == h;
  }

  /** The attempts made by a history, or by one that a cancelled attempt followed. */
  lemma AttemptBudget(h: seq<Outcome>, maxRetries: int, attempts: nat)
    requires maxRetries > 0 && BelowUntilNow(h, maxRetries)
    requires attempts <= |h| + if Failures(h) < maxRetries then 1 else 0
    ensures attempts <= (Resets(h) + 1) * maxRetries
  {
    RetryBudget(h, maxRetries);
    AllowanceIsProduct(h, maxRetries);
  }

  lemma {:induction false} AllGoStaysBelow(maxRetries: int, initially: bool, rounds: seq<Round>)
    requires maxRetries > 0 && AllGo(maxRetries, initially, rounds)
    ensures Below(Outcomes(rounds), maxRetries)
  {
    if rounds != [] {
      var past := rounds[..|rounds| - 1];
      AllGoStaysBelow(maxRetries, initially, past);
      assert Outcomes(rounds)[..|past|] == Outcomes(past);
    }
  }

  /**
   With k resets the loop cannot go past (k + 1) * maxRetries rounds, so it ends in every run
   that has finitely many clean or stable exits.
   */
  lemma FinitelyManyResetsEnd(maxRetries: int, initially: bool, rounds: seq<Round>)
    requires maxRetries > 0 && AllGo(maxRetries, initially, rounds)
    ensures |rounds| < (Resets(Outcomes(rounds)) + 1) * maxRetries
  {
    AllGoStaysBelow(maxRetries, initially, rounds);
    RetryBudget(Outcomes(rounds), maxRetries);
    AllowanceIsProduct(Outcomes(rounds), maxRetries);
  }

  /** A limit that failures alone have reached was reached by the outcome after those gone past. */
  lemma ReachedByFailures(maxRetries: int, initially: bool, rounds: seq<Round>, i: nat, h: seq<Outcome>)
    requires i < |rounds| && i <= |h| <= i + 1 && h == Outcomes(rounds[..|h|])
    requires 0 < maxRetries <= Failures(h) && BelowUntilNow(h, maxRetries)
    requires AllGo(maxRetries, initially, rounds[..i])
    requires forall k :: 0 <= k < |h| ==> IsFailure(h[k])
    ensures i == maxRetries - 1 && Outcomes(rounds[..i]) == h[..i]
  {
    assert |h| == maxRetries by {
      AllFailuresCount(h);
      RetryBudget(h, maxRetries);
    }
    assert Failures(Outcomes(rounds[..i])) < maxRetries by {
      AllGoStaysBelow(maxRetries, initially, rounds[..i]);
    }
    assert |h| == i + 1;
    assert h == Outcomes(rounds[..i]) + [Classify(rounds[i])] by {
      OneMoreRound(maxRetries, initially, rounds, i);
    }
  }

  /** What one more outcome does to a history that is below the limit. */
  lemma OutcomeRecorded(h: seq<Outcome>, o: Outcome, maxRetries: int)
    requires BelowLimit(h, maxRetries)
    ensures Failures(h + [o]) == if IsFailure(o) then Failures(h) + 1 else 0
    ensures (h + [o])[..|h|] == h
    ensures maxRetries > 0 ==> BelowUntilNow(h + [o], maxRetries)
  {
    assert (h + [o])[..|h|] == h;
  }

  /** The retry limit, if there is one, has not been reached by this history or any before it. */
  ghost predicate BelowLimit(h: seq<Outcome>, maxRetries: int) {
    maxRetries > 0 ==> Below(h, maxRetries)
  }

  // ---------------------------------------------------------------- process log

  /** Child processes are named by the order in which they were started. */
  datatype ProcEvent = Spawn(child: nat) | Reap(child: nat) | Signal(child: nat, sent: bool)

  /** What a round does to processes; `quit` tells that the context is cancelled when it begins. */
  function ProcEvents(quit: bool, cmd: Option<nat>, child: nat, r: Round): seq<ProcEvent> {
    var sent := r.interruptOk || r.killOk;
    if quit then (if cmd.None? then [] else [Signal(cmd.value, sent)])
    else if !r.starts then []
    else [Spawn(child), if Abandons(r) then Signal(child, sent) else Reap(child)]
  }

  lemma TwoEvents(before: seq<ProcEvent>, after: seq<ProcEvent>, a: ProcEvent, b: ProcEvent)
    requires after == before + [a] + [b]
    ensures after == before + [a, b]
  {
  }

  function LiveAfter(live: set<nat>, e: ProcEvent): set<nat> {
    match e
    case Spawn(c) => live + {c}
    case Reap(c) => live - {c}
    case Signal(_, _) => live
  }

  /** Children started and not yet waited for. */
  function Live(log: seq<ProcEvent>): set<nat> {
    if log == [] then {} else LiveAfter(Live(log[..|log| - 1]), log[|log| - 1])
  }

  /** At most one child is live, now and before, and each was started when none was. */
  predicate OneAtATime(log: seq<ProcEvent>) {
    log != [] ==>
      var before := log[..|log| - 1];
      && OneAtATime(before)
      && |Live(log)| <= 1
      && (log[|log| - 1].Spawn? ==> Live(before) == {})
  }

  /** At every point of a run at most one child is live, and none is when a new one starts. */
  lemma {:induction false} OneAtEveryPoint(log: seq<ProcEvent>, n: nat)
    requires OneAtATime(log) && n <= |log|
    ensures |Live(log[..n])| <= 1
    ensures n < |log| && log[n].Spawn? ==> Live(log[..n]) == {}
  {
    if n == |log| {
      assert log[..n] == log;
    } else {
      var before := log[..|log| - 1];
      assert before[..n] == log[..n];
      OneAtEveryPoint(before, n);
    }
  }

  /** Every child that is still live has been signalled to stop, if a signal could be `sent` at all. */
  ghost predicate LeftBehindAreSignalled(log: seq<ProcEvent>, sent: bool) {
    forall c :: c in Live(log) ==> Signal(c, sent) in log
  }

  lemma OneAtATimeExtends(log: seq<ProcEvent>, e: ProcEvent)
    requires OneAtATime(log)
    requires e.Spawn? ==> Live(log) == {}
    requires e.Reap? ==> Live(log) == {e.child}
    ensures OneAtATime(log + [e])
    ensures Live(log + [e]) == LiveAfter(Live(log), e)
  {
    assert (log + [e])[..|log|] == log;
    if e.Signal? && log != [] {
      assert |Live(log)| <= 1;
    }
  }

  // ---------------------------------------------------------------- the supervisor

  datatype LoopResult =
    | Stopped          // runLoop returned nil
    | RetriesExceeded  // runLoop returned the max-retries error
    | StillRunning     // the script ended with the loop at its head

  class Supervisor {
    const config: Config
    var cancelled: bool
    var cmd: Option<nat>
    var reconnectAttempts: int
    var started: nat

    ghost var attempts: nat
    ghost var history: seq<Outcome>
    ghost var waits: seq<Duration>
    ghost var log: seq<ProcEvent>

    constructor (config: Config, cancelled: bool)
      ensures this.config == config && this.cancelled == cancelled && Fresh()
    {
      this.config := config;
      this.cancelled := cancelled;
      cmd := None;
      reconnectAttempts := 0;
      started := 0;
      attempts := 0;
      history := [];
      waits := [];
      log := [];
    }

    ghost predicate Fresh()
      reads this
    {
      && cmd == None && reconnectAttempts == 0 && started == 0
      && attempts == 0 && history == [] && waits == [] && log == []
    }

    method StartProcess(r: Round) returns (ok: bool)
      requires OneAtATime(log) && Live(log) == {}
      modifies `cmd, `started, `attempts, `log
      ensures ok == r.starts && attempts == old(attempts) + 1
      ensures ok ==> cmd == Some(old(started)) && started == old(started) + 1
      ensures ok ==> log == old(log) + [Spawn(old(started))] && Live(log) == {old(started)}
      ensures !ok ==> cmd == old(cmd) && started == old(started) && log == old(log)
      ensures OneAtATime(log)
    {
      attempts := attempts + 1;
      ok := r.starts;
      if !ok {
        return;
      }
      OneAtATimeExtends(log, Spawn(started));
      log := log + [Spawn(started)];
      cmd := Some(started);
      started := started + 1;
    }

    method StopProcess(r: Round)
      requires OneAtATime(log)
      modifies `cmd, `log
      ensures cmd == None
      ensures log == if old(cmd).None? then old(log)
                     else old(log) + [Signal(old(cmd).value, r.interruptOk || r.killOk)]
      ensures OneAtATime(log) && Live(log) == old(Live(log))
    {
      if cmd.None? {
        return;
      }
      var sent := r.interruptOk;
      if !sent {
        sent := r.killOk;
      }
      OneAtATimeExtends(log, Signal(cmd.value, sent));
      log := log + [Signal(cmd.value, sent)];
      cmd := None;
    }

    /** Returns whether waiting ended with an error, be it the child's or the context's. */
    method WaitProcess(r: Round) returns (err: bool)
      requires OneAtATime(log) && (cmd.Some? ==> Live(log) == {cmd.value})
      modifies `cancelled, `cmd, `log
      ensures cancelled == (old(cancelled) || r.cancelWhileRunning)
      ensures OneAtATime(log)
      ensures old(cmd).None? ==> !err && cmd == None && log == old(log)
      ensures old(cmd).Some? && cancelled && r.doneFirst ==>
                && err && cmd == None
                && log == old(log) + [Signal(old(cmd).value, r.interruptOk || r.killOk)]
                && Live(log) == {old(cmd).value}
      ensures old(cmd).Some? && !(cancelled && r.doneFirst) ==>
                && err == r.exitError && cmd == old(cmd)
                && log == old(log) + [Reap(cmd.value)] && Live(log) == {}
    {
      cancelled := cancelled || r.cancelWhileRunning;
      if cmd.None? {
        return false;
      }
      if cancelled && r.doneFirst {
        StopProcess(r);
        err := true;
      } else {
        OneAtATimeExtends(log, Reap(cmd.value));
        log := log + [Reap(cmd.value)];
        err := r.exitError;
      }
    }

    /** What holds whenever control is at the head of the loop. */
    ghost predicate AtHead(delay: Duration, consecutiveFailures: nat)
      reads this
    {
      && consecutiveFailures == Failures(history)
      && BelowLimit(history, config.maxRetries)
      && delay == DelayAfter(config.restartDelay, config.maxRestartDelay, consecutiveFailures)
      && reconnectAttempts == attempts == |history| == |waits|
      && OneAtATime(log) && Live(log) == {}
    }

    /** What holds after a turn that ended the loop; `before` is the history up to it. */
    ghost predicate Ended(before: seq<Outcome>, r: Round, verdict: Verdict)
      reads this
    {
      && OneAtATime(log) && LeftBehindAreSignalled(log, r.interruptOk || r.killOk)
      && (verdict.GivesUp? ==>
            && history == before + [Classify(r)]
            && attempts == |history|
            && 0 < config.maxRetries <= Failures(history) && BelowUntilNow(history, config.maxRetries)
            && Live(log) == {})
      && (verdict.Halts? ==>
            && cancelled
            && (history == before || history == before + [Classify(r)])
            && |history| <= attempts <= |before| + 1
            && BelowLimit(history, config.maxRetries))
    }

    /** What a turn of the loop that began with `AtHead` has done. */
    twostate predicate Turned(r: Round, verdict: Verdict, delay: Duration, consecutiveFailures: nat)
      reads this
    {
      && verdict == VerdictOf(config.maxRetries, old(cancelled), old(history), r)
      && (verdict.Goes? ==>
            && AtHead(delay, consecutiveFailures)
            && cancelled == (old(cancelled) || Cancels(r))
            && history == old(history) + [Classify(r)]
            && waits == old(waits) + [WaitAfter(config.restartDelay, config.maxRestartDelay, history)])
      && (!verdict.Goes? ==>
            && waits == old(waits) && reconnectAttempts == old(reconnectAttempts)
            && Ended(old(history), r, verdict))
    }

    /**
     What a turn has done to child processes: nothing is started once the context is cancelled,
     a child that was started is reaped before the turn ends unless the turn abandons it, and
     an abandoned child has been signalled.
     */
    twostate predicate Handled(r: Round)
      reads this
    {
      && log == old(log) + ProcEvents(old(cancelled) || r.cancelAtHead, old(cmd), old(started), r)
      && if old(cancelled) || r.cancelAtHead then
           && attempts == old(attempts) && started == old(started) && Live(log) == {}
           && cmd == None
         else if !r.starts then
           && attempts == old(attempts) + 1 && started == old(started) && Live(log) == {}
           && cmd == old(cmd)
         else
           && attempts == old(attempts) + 1 && started == old(started) + 1
           && Live(log) == (if Abandons(r) then {old(started)} else {})
           && cmd == (if Abandons(r) then None else Some(old(started)))
    }

    /** An attempt has been made; its outcome is not yet recorded. */
    ghost predicate AfterAttempt(delay: Duration, consecutiveFailures: nat)
      reads this
    {
      && consecutiveFailures == Failures(history)
      && BelowLimit(history, config.maxRetries)
      && delay == DelayAfter(config.restartDelay, config.maxRestartDelay, consecutiveFailures)
      && reconnectAttempts == attempts - 1 == |history| == |waits|
      && OneAtATime(log)
    }

    /** The rest of the turn when the child could not be started. */
    method AfterStartError(r: Round, delay0: Duration, consecutiveFailures0: nat)
      returns (verdict: Verdict, delay: Duration, consecutiveFailures: nat)
      requires !cancelled && !r.cancelAtHead && !r.starts
      requires AfterAttempt(delay0, consecutiveFailures0) && Live(log) == {}
      modifies `cancelled, `reconnectAttempts, `history, `waits
      ensures Turned(r, verdict, delay, consecutiveFailures)
    {
      delay, consecutiveFailures := delay0, consecutiveFailures0;
      OutcomeRecorded(history, Classify(r), config.maxRetries);
      history := history + [Classify(r)];
      consecutiveFailures := consecutiveFailures + 1;
      if config.maxRetries > 0 && consecutiveFailures >= config.maxRetries {
        verdict := GivesUp;
        return;
      }
      cancelled := cancelled || r.cancelWhileRunning || r.cancelInBackoff;
      if cancelled && r.wakeOnDone {
        verdict := Halts;
        return;
      }
      waits := waits + [delay];
      delay := Doubled(delay, config.maxRestartDelay);
      reconnectAttempts := reconnectAttempts + 1;
      verdict := Goes;
    }

    /** The rest of the turn when the child ran and ended, with `err` or without. */
    method AfterExit(r: Round, err: bool, delay0: Duration, consecutiveFailures0: nat)
      returns (verdict: Verdict, delay: Duration, consecutiveFailures: nat)
      requires !cancelled && !r.cancelAtHead && r.starts && !r.cancelWhileRunning && err == r.exitError
      requires AfterAttempt(delay0, consecutiveFailures0) && Live(log) == {}
      modifies `cancelled, `reconnectAttempts, `history, `waits
      ensures Turned(r, verdict, delay, consecutiveFailures)
    {
      delay, consecutiveFailures := delay0, consecutiveFailures0;
      OutcomeRecorded(history, Classify(r), config.maxRetries);
      history := history + [Classify(r)];
      var wasStableRun := r.ran >= STABLE_RUN;
      if err {
        if !wasStableRun {
          consecutiveFailures := consecutiveFailures + 1;
        } else {
          consecutiveFailures := 0;
          delay := config.restartDelay;
        }
      } else {
        consecutiveFailures := 0;
        delay := config.restartDelay;
      }
      if config.maxRetries > 0 && consecutiveFailures >= config.maxRetries {
        verdict := GivesUp;
        return;
      }
      cancelled := cancelled || r.cancelInBackoff;
      if cancelled && r.wakeOnDone {
        verdict := Halts;
        return;
      }
      waits := waits + [delay];
      if consecutiveFailures > 0 {
        delay := Doubled(delay, config.maxRestartDelay);
      }
      reconnectAttempts := reconnectAttempts + 1;
      verdict := Goes;
    }

    /** The rest of the turn when the child was started. */
    method AfterStart(r: Round, delay0: Duration, consecutiveFailures0: nat)
      returns (verdict: Verdict, delay: Duration, consecutiveFailures: nat)
      requires !cancelled && !r.cancelAtHead && r.starts
      requires AfterAttempt(delay0, consecutiveFailures0)
      requires cmd.Some? && Live(log) == {cmd.value}
      modifies `cancelled, `cmd, `log, `reconnectAttempts, `history, `waits
      ensures Turned(r, verdict, delay, consecutiveFailures)
      ensures Abandons(r) ==>
                && cmd == None && Live(log) == {old(cmd).value}
                && log == old(log) + [Signal(old(cmd).value, r.interruptOk || r.killOk)]
      ensures !Abandons(r) ==>
                && cmd == old(cmd) && Live(log) == {}
                && log == old(log) + [Reap(cmd.value)]
    {
      var err := WaitProcess(r);
      if !cancelled {
        verdict, delay, consecutiveFailures := AfterExit(r, err, delay0, consecutiveFailures0);
        return;
      }
      assert Live(log) != {} ==>
               log[|log| - 1].Signal? && Live(log) == {log[|log| - 1].child}
               && log[|log| - 1].sent == (r.interruptOk || r.killOk);
      verdict, delay, consecutiveFailures := Halts, delay0, consecutiveFailures0;
    }

    /** One turn of the loop, from its head to its head again or to one of its returns. */
    method Turn(r: Round, delay0: Duration, consecutiveFailures0: nat)
      returns (verdict: Verdict, delay: Duration, consecutiveFailures: nat)
      requires AtHead(delay0, consecutiveFailures0)
      modifies this
      ensures Turned(r, verdict, delay, consecutiveFailures)
      ensures Handled(r)
    {
      cancelled := cancelled || r.cancelAtHead;
      if cancelled {
        StopProcess(r);
        verdict, delay, consecutiveFailures := Halts, delay0, consecutiveFailures0;
        return;
      }
      var ok := StartProcess(r);
      if ok {
        verdict, delay, consecutiveFailures := AfterStart(r, delay0, consecutiveFailures0);
        TwoEvents(old(log), log, Spawn(old(started)), log[|log| - 1]);
      } else {
        verdict, delay, consecutiveFailures := AfterStartError(r, delay0, consecutiveFailures0);
      }
    }

    /** The rounds that were gone past. */
    ghost predicate Past(initially: bool, past: seq<Round>)
      reads this
    {
      && AllGo(config.maxRetries, initially, past)
      && waits == Waits(config.restartDelay, config.maxRestartDelay, Outcomes(past))
      && reconnectAttempts == |waits|
    }

    /** Everything the restart loop promises about its returns. */
    ghost predicate Returned(initially: bool, rounds: seq<Round>, result: LoopResult)
      requires |waits| < |rounds|
      reads this
    {
      var past := rounds[..|waits|];
      var next := rounds[|waits|];
      && Past(initially, past)
      && NextVerdict(config.maxRetries, initially, past, next) == (if result.Stopped? then Halts else GivesUp)
      && |waits| <= |history| <= |waits| + 1 && history == Outcomes(rounds[..|history|])
      && (result.RetriesExceeded? <==> 0 < config.maxRetries <= Failures(history))
      && (config.maxRetries > 0 ==> BelowUntilNow(history, config.maxRetries))
      && (result.Stopped? ==> cancelled && CancelledBy(initially, rounds))
      && attempts == |waits| + (if CancelledBy(initially, past) || next.cancelAtHead then 0 else 1)
      && |history| <= attempts <= |history| + (if result.Stopped? then 1 else 0)
      && OneAtATime(log) && LeftBehindAreSignalled(log, next.interruptOk || next.killOk)
      && (result.RetriesExceeded? ==> Live(log) == {})
    }

    /**
     The child processes of a loop that has returned: one for each round that started one, none
     after cancellation was seen, and none left live but one that the last round abandoned.
     */
    ghost predicate Accounted(initially: bool, past: seq<Round>, next: Round)
      reads this
    {
      if CancelledBy(initially, past) || next.cancelAtHead then
        started == Starts(past) && Live(log) == {} && cmd == None
      else
        && started == Starts(past) + (if next.starts then 1 else 0)
        && Live(log) == (if Abandons(next) then {Starts(past)} else {})
    }

    lemma GonePast(initially: bool, rounds: seq<Round>, i: nat)
      requires i < |rounds|
      requires AllGo(config.maxRetries, initially, rounds[..i])
      requires NextVerdict(config.maxRetries, initially, rounds[..i], rounds[i]) == Goes
      requires history == Outcomes(rounds[..i]) + [Classify(rounds[i])]
      requires waits == Waits(config.restartDelay, config.maxRestartDelay, Outcomes(rounds[..i]))
                        + [WaitAfter(config.restartDelay, config.maxRestartDelay, history)]
      requires reconnectAttempts == i + 1
      ensures history == Outcomes(rounds[..i + 1])
      ensures Past(initially, rounds[..i + 1])
      ensures CancelledBy(initially, rounds[..i + 1])
           == (CancelledBy(initially, rounds[..i]) || Cancels(rounds[i]))
      ensures Starts(rounds[..i + 1]) == Starts(rounds[..i]) + if rounds[i].starts then 1 else 0
    {
      OneMoreRound(config.maxRetries, initially, rounds, i);
      OneMoreWait(config.restartDelay, config.maxRestartDelay, Outcomes(rounds[..i]), Classify(rounds[i]));
    }

    lemma LastTurn(initially: bool, rounds: seq<Round>, verdict: Verdict)
      requires |waits| < |rounds| && Past(initially, rounds[..|waits|])
      requires verdict == NextVerdict(config.maxRetries, initially, rounds[..|waits|], rounds[|waits|]) != Goes
      requires Ended(Outcomes(rounds[..|waits|]), rounds[|waits|], verdict)
      requires attempts == |waits| + if CancelledBy(initially, rounds[..|waits|]) || rounds[|waits|].cancelAtHead
                                     then 0 else 1
      ensures Returned(initially, rounds, if verdict == Halts then Stopped else RetriesExceeded)
    {
      var i := |waits|;
      assert rounds[..i + 1] == rounds[..i] + [rounds[i]];
      OneMoreRound(config.maxRetries, initially, rounds, i);
      if verdict == Halts {
        CancelledStays(initially, rounds, i + 1);
      }
    }

    /** A loop that has returned made at most (resets + 1) * maxRetries start attempts. */
    lemma ReturnedWithinBudget(initially: bool, rounds: seq<Round>, result: LoopResult)
      requires |waits| < |rounds| && Returned(initially, rounds, result) && !result.StillRunning?
      requires config.maxRetries > 0
      ensures attempts <= (Resets(history) + 1) * config.maxRetries
    {
      AttemptBudget(history, config.maxRetries, attempts);
    }

    /** A loop that gave up and had failures only slept after each of them but the last. */
    lemma GaveUpAfterFailures(initially: bool, rounds: seq<Round>)
      requires |waits| < |rounds| && Returned(initially, rounds, RetriesExceeded)
      requires forall i :: 0 <= i < |history| ==> IsFailure(history[i])
      ensures |waits| == config.maxRetries - 1
      ensures Sum(waits) == DelaySum(config.restartDelay, config.maxRestartDelay, config.maxRetries - 1)
    {
      ReachedByFailures(config.maxRetries, initially, rounds, |waits|, history);
      AllFailingIsDelaySum(config.restartDelay, config.maxRestartDelay, Outcomes(rounds[..|waits|]));
    }

    /**
     Such a loop sleeps restartDelay * (2^(maxRetries - 1) - 1) in all, or less if the cap cuts
     the last of its sleeps short.
     */
    lemma GaveUpTotal(initially: bool, rounds: seq<Round>)
      requires |waits| < |rounds| && Returned(initially, rounds, RetriesExceeded)
      requires forall i :: 0 <= i < |history| ==> IsFailure(history[i])
      requires 0 <= config.restartDelay && 0 <= config.maxRestartDelay
      ensures config.maxRetries > 0
      ensures Geometric(config.restartDelay, config.maxRestartDelay, config.maxRetries - 1, Sum(waits))
    {
      GaveUpAfterFailures(initially, rounds);
      DelaySumIsGeometric(config.restartDelay, config.maxRestartDelay, config.maxRetries - 1);
    }

    /** With the settings left to their defaults it is 511 seconds. */
    lemma DefaultTotal(initially: bool, rounds: seq<Round>, c: Config)
      requires |waits| < |rounds| && Returned(initially, rounds, RetriesExceeded)
      requires forall i :: 0 <= i < |history| ==> IsFailure(history[i])
      requires config == WithDefaults(c) && c.restartDelay == c.maxRestartDelay == c.maxRetries == 0
      ensures Sum(waits) == 511 * SECOND
    {
      GaveUpAfterFailures(initially, rounds);
      DelaySumIsGeometric(SECOND, 300 * SECOND, 9);
      assert Scaled(SECOND, 8) == 256 * SECOND;
    }

    /** The settings are such that no delay below the retry limit leaves the 64 bits. */
    ghost predicate NothingWraps()
      reads this
    {
      && 0 <= config.restartDelay && 0 <= config.maxRestartDelay && config.maxRetries > 0
      && NarrowUpTo(config.restartDelay, config.maxRestartDelay, config.maxRetries)
    }

    lemma HeadDelay(delay: Duration, consecutiveFailures: nat)
      requires AtHead(delay, consecutiveFailures) && NothingWraps()
      ensures delay == ClosedForm(config.restartDelay, config.maxRestartDelay, Failures(history))
      ensures 0 <= delay <= Max(config.restartDelay, config.maxRestartDelay)
    {
      DelayIsClosedForm(config.restartDelay, config.maxRestartDelay, config.maxRetries, consecutiveFailures);
    }

    /** Every sleep of the loop, by the outcome it followed. */
    lemma SleepsAreClosedForm(initially: bool, past: seq<Round>, k: nat)
      requires Past(initially, past) && NothingWraps() && k < |past|
      ensures |waits| == |past|
      ensures var h := Outcomes(past);
              && waits[k] == (if IsFailure(h[k])
                              then ClosedForm(config.restartDelay, config.maxRestartDelay, Failures(h[..k]))
                              else config.restartDelay)
              && 0 <= waits[k] <= Max(config.restartDelay, config.maxRestartDelay)
    {
      var h := Outcomes(past);
      WaitAt(config.restartDelay, config.maxRestartDelay, h, k);
      assert h[..k + 1][..k] == h[..k];
      AllGoStaysBelow(config.maxRetries, initially, past);
      BelowAtEveryPoint(h, config.maxRetries);
      DelayIsClosedForm(config.restartDelay, config.maxRestartDelay, config.maxRetries, Failures(h[..k]));
    }

    /** At the head of the loop after going past these rounds. */
    ghost predicate HeadAfter(initially: bool, past: seq<Round>, delay: Duration, consecutiveFailures: nat)
      reads this
    {
      && Past(initially, past)
      && history == Outcomes(past)
      && cancelled == CancelledBy(initially, past)
      && started == Starts(past)
      && AtHead(delay, consecutiveFailures)
    }

    lemma FreshIsAtHead(rounds: seq<Round>)
      requires Fresh()
      ensures HeadAfter(cancelled, rounds[..0], config.restartDelay, 0)
    {
    }

    /** A turn of the loop, seen as part of the whole run. */
    method Advance(rounds: seq<Round>, i: nat, ghost initially: bool, delay0: Duration, consecutiveFailures0: nat)
      returns (verdict: Verdict, delay: Duration, consecutiveFailures: nat)
      requires i < |rounds| && HeadAfter(initially, rounds[..i], delay0, consecutiveFailures0)
      modifies this
      ensures verdict.Goes? ==> HeadAfter(initially, rounds[..i + 1], delay, consecutiveFailures)
      ensures !verdict.Goes? ==> |waits| == i
      ensures !verdict.Goes? ==>
                Returned(initially, rounds, if verdict.Halts? then Stopped else RetriesExceeded)
      ensures !verdict.Goes? ==> Accounted(initially, rounds[..i], rounds[i])
    {
      verdict, delay, consecutiveFailures := Turn(rounds[i], delay0, consecutiveFailures0);
      if verdict.Goes? {
        GonePast(initially, rounds, i);
      } else {
        LastTurn(initially, rounds, verdict);
      }
    }

    /**
     The restart loop. It goes on exactly while the rounds' verdicts say so, sleeping what the
     outcomes so far call for. The error means that the retry limit was reached just now and
     for the first time; returning without one means that the context was cancelled.
     */
    method RunLoop(rounds: seq<Round>) returns (result: LoopResult, delay: Duration)
      requires Fresh()
      modifies this
      ensures result.StillRunning? ==> HeadAfter(old(cancelled), rounds[..|rounds|], delay, Failures(history))
      ensures !result.StillRunning? ==> |waits| < |rounds| && Returned(old(cancelled), rounds, result)
      ensures !result.StillRunning? ==> Accounted(old(cancelled), rounds[..|waits|], rounds[|waits|])
      ensures result.StillRunning? && NothingWraps() ==>
                && delay == ClosedForm(config.restartDelay, config.maxRestartDelay, Failures(history))
                && 0 <= delay <= Max(config.restartDelay, config.maxRestartDelay)
    {
      delay := config.restartDelay;
      var consecutiveFailures := 0;
      ghost var initially := cancelled;
      FreshIsAtHead(rounds);
      for i := 0 to |rounds|
        invariant HeadAfter(initially, rounds[..i], delay, consecutiveFailures)
      {
        var verdict;
        verdict, delay, consecutiveFailures := Advance(rounds, i, initially, delay, consecutiveFailures);
        if verdict.Halts? {
          return Stopped, delay;
        }
        if verdict.GivesUp? {
          return RetriesExceeded, delay;
        }
      }
      if NothingWraps() {
        HeadDelay(delay, consecutiveFailures);
      }
      return StillRunning, delay;
    }
  }
}
