/**
 The restart loop as the adapter protocol sees it: every turn of the supervisor's loop is a
 sequence of the protocol's loop steps with the same outcome, so what is proved about all
 protocol runs covers the runs of the real loop.
 */
module LoopRefinement {
  import S = Supervisor
  import P = AdapterProtocol

  lemma {:induction false} Appended(s: P.State, a: seq<P.Label>, b: seq<P.Label>)
    requires P.Runs(s, a) && P.Runs(P.After(s, a), b)
    ensures P.Runs(s, a + b) && P.After(s, a + b) == P.After(P.After(s, a), b)
    decreases a
  {
    if a == [] {
      assert a + b == b;
    } else {
      assert (a + b)[1..] == a[1..] + b;
      Appended(P.Next(s, a[0]).value, a[1..], b);
    }
  }

  /** Where a verdict leaves the Start call. */
  function Landing(v: S.Verdict): P.StartPc {
    match v
    case Goes => P.InLoop(P.AtHead)
    case Halts => P.LoopReturned(false)
    case GivesUp => P.LoopReturned(true)
  }

  /** A protocol state that differs from s only in this Start call and the context. */
  predicate Moved(s: P.State, id: P.Id, pc: P.StartPc, cancelled: bool, t: P.State) {
    t == s.(starts := s.starts[id := pc], cancelled := cancelled)
  }

  lemma Do(s: P.State, run: seq<P.Label>, l: P.Label) returns (longer: seq<P.Label>, t: P.State)
    requires P.Runs(s, run) && P.Next(P.After(s, run), l).Some?
    ensures longer == run + [l] && P.Runs(s, longer)
    ensures t == P.After(s, longer) == P.Next(P.After(s, run), l).value
  {
    var mid := P.After(s, run);
    t := P.Next(mid, l).value;
    assert P.Runs(t, []) && P.After(t, []) == t;
    assert [l][1..] == [];
    assert P.Runs(mid, [l]) && P.After(mid, [l]) == t;
    Appended(s, run, [l]);
    longer := run + [l];
  }

  lemma DoLoop(s: P.State, run: seq<P.Label>, id: P.Id, at: P.LoopPc, c: bool, move: P.LoopMove)
    returns (longer: seq<P.Label>)
    requires P.Runs(s, run) && Moved(s, id, P.InLoop(at), c, P.After(s, run))
    requires P.LoopNext(at, move, c).Some?
    ensures P.Runs(s, longer) && Moved(s, id, P.LoopNext(at, move, c).value, c, P.After(s, longer))
  {
    var t;
    longer, t := Do(s, run, P.Loop(id, move));
  }

  /** The context is cancelled at this point of the turn, or not. */
  lemma MaybeCancel(s: P.State, run: seq<P.Label>, id: P.Id, pc: P.StartPc, c: bool, cancel: bool)
    returns (longer: seq<P.Label>)
    requires s.cancelSet && P.Runs(s, run) && Moved(s, id, pc, c, P.After(s, run))
    ensures P.Runs(s, longer) && Moved(s, id, pc, c || cancel, P.After(s, longer))
  {
    longer := run;
    if cancel {
      var t;
      longer, t := Do(s, run, P.ParentCancel);
    }
  }

  /** One turn of the supervisor's loop as protocol steps. */
  lemma TurnIsProtocolRun(s: P.State, id: P.Id, maxRetries: int, before: seq<S.RestartHistory.Outcome>, r: S.Round)
    returns (run: seq<P.Label>, c: bool)
    requires P.StartAt(s, id, P.InLoop(P.AtHead)) && s.cancelSet
    ensures var v := S.VerdictOf(maxRetries, s.cancelled, before, r);
            && P.Runs(s, run)
            && Moved(s, id, Landing(v), c, P.After(s, run))
            && (s.cancelled ==> c)
            && (v.Goes? ==> c == (s.cancelled || S.Cancels(r)))
            && (c ==> s.cancelled || S.Cancels(r))
  {
    var v := S.VerdictOf(maxRetries, s.cancelled, before, r);
    assert s.starts[id := P.InLoop(P.AtHead)] == s.starts;
    run := MaybeCancel(s, [], id, P.InLoop(P.AtHead), s.cancelled, r.cancelAtHead);
    c := s.cancelled || r.cancelAtHead;
    if c {
      run := DoLoop(s, run, id, P.AtHead, c, P.SeeDone);
      return;
    }
    run := DoLoop(s, run, id, P.AtHead, c, P.Launch);
    if r.starts {
      run := DoLoop(s, run, id, P.Launching, c, P.Launched);
      run := MaybeCancel(s, run, id, P.InLoop(P.Waiting), c, r.cancelWhileRunning);
      c := c || r.cancelWhileRunning;
      run := DoLoop(s, run, id, P.Waiting, c,
                    if c then P.SeeDone else if v.GivesUp? then P.ExitsLast else P.Exits);
      if c {
        return;
      }
    } else {
      run := DoLoop(s, run, id, P.Launching, c, if v.GivesUp? then P.LaunchFailsLast else P.LaunchFails);
    }
    if v.GivesUp? {
      return;
    }
    run := MaybeCancel(s, run, id, P.InLoop(P.Sleeping), c, r.cancelWhileRunning || r.cancelInBackoff);
    c := r.cancelWhileRunning || r.cancelInBackoff;
    run := DoLoop(s, run, id, P.Sleeping, c, if v.Halts? then P.SeeDone else P.Timer);
  }

  /** All turns that were gone past, and the one that ended the loop if there was one. */
  lemma {:induction false} LoopIsProtocolRun(s: P.State, id: P.Id, maxRetries: int, rounds: seq<S.Round>)
    returns (run: seq<P.Label>)
    requires P.StartAt(s, id, P.InLoop(P.AtHead)) && s.cancelSet
    requires S.AllGo(maxRetries, s.cancelled, rounds)
    ensures P.Runs(s, run)
    ensures Moved(s, id, P.InLoop(P.AtHead), S.CancelledBy(s.cancelled, rounds), P.After(s, run))
  {
    if rounds == [] {
      run := [];
      assert s.starts[id := P.InLoop(P.AtHead)] == s.starts;
    } else {
      var past, last := rounds[..|rounds| - 1], rounds[|rounds| - 1];
      var first := LoopIsProtocolRun(s, id, maxRetries, past);
      var mid := P.After(s, first);
      var second, c := TurnIsProtocolRun(mid, id, maxRetries, S.Outcomes(past), last);
      Appended(s, first, second);
      run := first + second;
      assert mid.starts[id := P.InLoop(P.AtHead)] == mid.starts;
    }
  }

  /** The supervisor's returns are the protocol's: the same counter, reached by protocol steps. */
  lemma ReturnIsProtocolRun(s: P.State, id: P.Id, maxRetries: int, past: seq<S.Round>, next: S.Round)
    returns (run: seq<P.Label>)
    requires P.StartAt(s, id, P.InLoop(P.AtHead)) && s.cancelSet
    requires S.AllGo(maxRetries, s.cancelled, past)
    requires S.NextVerdict(maxRetries, s.cancelled, past, next) != S.Goes
    ensures P.Runs(s, run)
    ensures P.StartAt(P.After(s, run), id, Landing(S.NextVerdict(maxRetries, s.cancelled, past, next)))
  {
    var first := LoopIsProtocolRun(s, id, maxRetries, past);
    var mid := P.After(s, first);
    var second, c := TurnIsProtocolRun(mid, id, maxRetries, S.Outcomes(past), next);
    Appended(s, first, second);
    run := first + second;
  }
}
