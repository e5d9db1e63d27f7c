/**
 The webhook server's connection tracker: a concurrent map of live proxies and, beside it, an
 atomic counter. Storing and counting up are two steps, as are deleting and counting down,
 so requests served concurrently may interleave between them.
 */
module Tracker {

  /** A request is named by a number while it is being served. */
  type Req = nat

  /** The map key under which a proxy is tracked. */
  function KeyOf(runId: string, name: string): string {
    runId + "/" + name
  }

  datatype Label =
    | Store(req: Req, runId: string, name: string)  // an allowed NewProxy stores its entry
    | Increment(req: Req)                           // and then counts it
    | Take(req: Req, runId: string, name: string)   // a CloseProxy loads and deletes
    | Decrement(req: Req)                           // and then uncounts what it found

  datatype State = State(
    tracked: set<string>,
    count: int,
    incs: set<Req>,                                 // stored, not yet counted
    decs: set<Req>)                                 // deleted, not yet uncounted

  const INIT := State({}, 0, {}, {})

  predicate Enabled(s: State, l: Label) {
    match l
    case Store(req, _, _) => req !in s.incs && req !in s.decs
    case Increment(req) => req in s.incs
    case Take(req, _, _) => req !in s.incs && req !in s.decs
    case Decrement(req) => req in s.decs
  }

  function Step(s: State, l: Label): State {
    match l
    case Store(req, r, n) => s.(tracked := s.tracked + {KeyOf(r, n)}, incs := s.incs + {req})
    case Increment(req) => s.(count := s.count + 1, incs := s.incs - {req})
    case Take(req, r, n) =>
      if KeyOf(r, n) in s.tracked
      then s.(tracked := s.tracked - {KeyOf(r, n)}, decs := s.decs + {req}) else s
    case Decrement(req) => s.(count := s.count - 1, decs := s.decs - {req})
  }

  function After(run: seq<Label>): State {
    if run == [] then INIT else Step(After(run[..|run| - 1]), run[|run| - 1])
  }

  predicate IsRun(run: seq<Label>) {
    run == [] || (IsRun(run[..|run| - 1]) && Enabled(After(run[..|run| - 1]), run[|run| - 1]))
  }

  predicate Mentions(l: Label, key: string) {
    (l.Store? || l.Take?) && KeyOf(l.runId, l.name) == key
  }

  /** The latest event that concerns the key registered it. */
  predicate Live(run: seq<Label>, key: string) {
    run != [] &&
    var last := run[|run| - 1];
    if Mentions(last, key) then last.Store? else Live(run[..|run| - 1], key)
  }

  predicate Reregisters(past: seq<Label>, l: Label) {
    l.Store? && Live(past, KeyOf(l.runId, l.name))
  }

  /** How often a live key was registered again. */
  function Overwrites(run: seq<Label>): nat {
    if run == [] then 0
    else Overwrites(run[..|run| - 1]) + if Reregisters(run[..|run| - 1], run[|run| - 1]) then 1 else 0
  }

  // ---------------------------------------------------------------- conservation

  lemma {:induction false} TrackedIffLive(run: seq<Label>, key: string)
    ensures key in After(run).tracked <==> Live(run, key)
  {
    if run != [] {
      TrackedIffLive(run[..|run| - 1], key);
    }
  }

  /** Under every interleaving, the counter and the map differ by what is pending and what was overwritten. */
  lemma {:induction false} Conservation(run: seq<Label>)
    requires IsRun(run)
    ensures var s := After(run);
            s.count + |s.incs| - |s.decs| == |s.tracked| + Overwrites(run)
  {
    if run != [] {
      var past, l := run[..|run| - 1], run[|run| - 1];
      Conservation(past);
      if l.Store? || l.Take? {
        TrackedIffLive(past, KeyOf(l.runId, l.name));
      }
      var s := After(past);
      match l
      case Store(req, r, n) => assert s.tracked + {KeyOf(r, n)} == s.tracked <==> KeyOf(r, n) in s.tracked;
      case Increment(req) =>
      case Take(req, r, n) =>
      case Decrement(req) =>
    }
  }

  lemma {:induction false} NoOverwrites(run: seq<Label>)
    ensures Overwrites(run) == 0 <==> forall i :: 0 <= i < |run| ==> !Reregisters(run[..i], run[i])
  {
    if run != [] {
      var past := run[..|run| - 1];
      NoOverwrites(past);
      assert forall i :: 0 <= i < |past| ==> past[..i] == run[..i];
    }
  }

  /**
   With no request between its two steps, the counter is at least the number of tracked
   proxies, and equals it exactly on the runs that never register a live key again. At any
   time it is at least minus the number of requests yet to count up.
   */
  lemma CountAgainstMap(run: seq<Label>)
    requires IsRun(run)
    ensures var s := After(run);
            && s.count >= -|s.incs|
            && (s.incs == {} && s.decs == {} ==>
                  && s.count >= |s.tracked|
                  && (s.count == |s.tracked| <==>
                        forall i :: 0 <= i < |run| ==> !Reregisters(run[..i], run[i])))
  {
    Conservation(run);
    NoOverwrites(run);
  }

  lemma OneMore(run: seq<Label>, l: Label)
    ensures After(run + [l]) == Step(After(run), l)
    ensures IsRun(run + [l]) <==> IsRun(run) && Enabled(After(run), l)
    ensures Overwrites(run + [l]) == Overwrites(run) + if Reregisters(run, l) then 1 else 0
  {
    assert (run + [l])[..|run|] == run;
  }

  /** Both steps of a registration, with nothing else pending. */
  lemma Registration(run: seq<Label>, r: string, n: string)
    requires IsRun(run) && After(run).incs == {} && After(run).decs == {}
    ensures var s, longer := After(run), run + [Store(0, r, n)] + [Increment(0)];
            IsRun(longer) && After(longer) == State(s.tracked + {KeyOf(r, n)}, s.count + 1, {}, {})
  {
    OneMore(run, Store(0, r, n));
    OneMore(run + [Store(0, r, n)], Increment(0));
  }

  /** Both steps of a removal, or the only one if there was nothing to remove. */
  lemma Removal(run: seq<Label>, r: string, n: string)
    requires IsRun(run) && After(run).incs == {} && After(run).decs == {}
    ensures var s := After(run);
            var found := KeyOf(r, n) in s.tracked;
            var longer := run + [Take(0, r, n)] + if found then [Decrement(0)] else [];
            && IsRun(longer)
            && After(longer) == State(s.tracked - {KeyOf(r, n)}, s.count - (if found then 1 else 0), {}, {})
  {
    OneMore(run, Take(0, r, n));
    if KeyOf(r, n) in After(run).tracked {
      OneMore(run + [Take(0, r, n)], Decrement(0));
    } else {
      assert run + [Take(0, r, n)] + [] == run + [Take(0, r, n)];
      assert After(run).tracked - {KeyOf(r, n)} == After(run).tracked;
    }
  }

  /** Registering a proxy twice and then closing it, each request served to its end. */
  function TwiceThenClosed(r: string, n: string): seq<Label> {
    [Store(0, r, n), Increment(0), Store(1, r, n), Increment(1), Take(2, r, n), Decrement(2)]
  }

  /** That leaves a count of one and nothing tracked, for any proxy. */
  lemma DriftExample(r: string, n: string)
    ensures IsRun(TwiceThenClosed(r, n)) && After(TwiceThenClosed(r, n)) == State({}, 1, {}, {})
  {
    var k := KeyOf(r, n);
    var run := [];
    OneMore(run, Store(0, r, n));
    run := run + [Store(0, r, n)];
    OneMore(run, Increment(0));
    run := run + [Increment(0)];
    OneMore(run, Store(1, r, n));
    run := run + [Store(1, r, n)];
    OneMore(run, Increment(1));
    run := run + [Increment(1)];
    assert After(run) == State({k}, 2, {}, {});
    OneMore(run, Take(2, r, n));
    run := run + [Take(2, r, n)];
    OneMore(run, Decrement(2));
    run := run + [Decrement(2)];
    assert run == TwiceThenClosed(r, n);
  }

  // ---------------------------------------------------------------- keys

  /** Two run IDs can be confused when one continues the other after a slash. */
  predicate Confusable(r1: string, r2: string) {
    r1 + "/" <= r2 || r2 + "/" <= r1
  }

  lemma ShorterIsPrefix(r1: string, n1: string, r2: string, n2: string)
    requires KeyOf(r1, n1) == KeyOf(r2, n2) && |r1| < |r2|
    ensures r1 + "/" <= r2
  {
    var key := KeyOf(r1, n1);
    assert (r1 + "/") + n1 == key;
    assert key[..|r1| + 1] == r1 + "/";
    assert key[..|r2|] == r2;
    assert r2[..|r1| + 1] == key[..|r1| + 1];
  }

  lemma SameKey(r1: string, n1: string, r2: string, n2: string)
    requires KeyOf(r1, n1) == KeyOf(r2, n2) && !Confusable(r1, r2)
    ensures r1 == r2 && n1 == n2
  {
    if |r1| < |r2| {
      ShorterIsPrefix(r1, n1, r2, n2);
    } else if |r2| < |r1| {
      ShorterIsPrefix(r2, n2, r1, n1);
    } else {
      var key := KeyOf(r1, n1);
      assert r1 == key[..|r1|] == key[..|r2|] == r2;
      assert n1 == key[|r1| + 1..] && n2 == key[|r2| + 1..];
    }
  }

  lemma ConfusableCollide(r1: string, r2: string) returns (n1: string, n2: string)
    requires r1 + "/" <= r2
    ensures KeyOf(r1, n1) == KeyOf(r2, n2)
  {
    n2 := "";
    n1 := r2[|r1| + 1..] + "/";
    assert r2 == r1 + "/" + r2[|r1| + 1..];
  }

  /** Keys of two different run IDs can coincide exactly when the IDs are confusable. */
  lemma KeysCollideExactly(r1: string, r2: string)
    requires r1 != r2
    ensures (exists n1, n2 :: KeyOf(r1, n1) == KeyOf(r2, n2)) <==> Confusable(r1, r2)
  {
    if r1 + "/" <= r2 {
      var n1, n2 := ConfusableCollide(r1, r2);
    } else if r2 + "/" <= r1 {
      var n2, n1 := ConfusableCollide(r2, r1);
    } else {
      forall n1, n2 ensures KeyOf(r1, n1) != KeyOf(r2, n2) {
        if KeyOf(r1, n1) == KeyOf(r2, n2) {
          SameKey(r1, n1, r2, n2);
        }
      }
    }
  }

  ghost predicate Distinguishable(ids: set<string>) {
    forall a, b :: a in ids && b in ids ==> !Confusable(a, b)
  }

  lemma SlashInside(a: string, b: string)
    requires a + "/" <= b
    ensures '/' in b
  {
    assert b[|a|] == (a + "/")[|a|];
  }

  lemma SlashFreeDistinguishable(ids: set<string>)
    requires forall a :: a in ids ==> '/' !in a
    ensures Distinguishable(ids)
  {
    forall a, b | a in ids && b in ids ensures !(a + "/" <= b) {
      if a + "/" <= b {
        SlashInside(a, b);
      }
    }
  }

  // ---------------------------------------------------------------- the pair-keyed reading

  function RunIds(run: seq<Label>): set<string> {
    set l | l in run && (l.Store? || l.Take?) :: l.runId
  }

  /** The latest event that names this run ID and this proxy registered it. */
  predicate LivePair(run: seq<Label>, r: string, n: string) {
    run != [] &&
    var last := run[|run| - 1];
    if (last.Store? || last.Take?) && last.runId == r && last.name == n then last.Store?
    else LivePair(run[..|run| - 1], r, n)
  }

  /** The string-keyed map holds what a map keyed by (run ID, proxy name) would. */
  ghost predicate RefinesPairs(run: seq<Label>, ids: set<string>) {
    forall r, n :: r in ids ==> (KeyOf(r, n) in After(run).tracked <==> LivePair(run, r, n))
  }

  lemma {:induction false} LiveIsLivePair(run: seq<Label>, ids: set<string>, r: string, n: string)
    requires Distinguishable(ids) && RunIds(run) <= ids && r in ids
    ensures Live(run, KeyOf(r, n)) <==> LivePair(run, r, n)
  {
    if run != [] {
      var past, last := run[..|run| - 1], run[|run| - 1];
      assert forall l :: l in past ==> l in run;
      LiveIsLivePair(past, ids, r, n);
      if Mentions(last, KeyOf(r, n)) {
        assert last in run && last.runId in RunIds(run);
        SameKey(last.runId, last.name, r, n);
      }
    }
  }

  lemma MixedUpRun(ids: set<string>, r1: string, r2: string) returns (run: seq<Label>)
    requires r1 in ids && r2 in ids && r1 + "/" <= r2
    ensures IsRun(run) && RunIds(run) <= ids && !RefinesPairs(run, ids)
  {
    var n1, n2 := ConfusableCollide(r1, r2);
    run := [Store(0, r2, n2)];
    assert run[..0] == [];
    assert KeyOf(r1, n1) in After(run).tracked;
    assert r1 != r2;
    assert !LivePair(run[..0], r1, n1);
    assert !LivePair(run, r1, n1);
  }

  /** The tracker is a map keyed by pairs on every run over these IDs exactly when none are confusable. */
  lemma RefinesPairsExactly(ids: set<string>)
    ensures (forall run :: IsRun(run) && RunIds(run) <= ids ==> RefinesPairs(run, ids))
       <==> Distinguishable(ids)
  {
    if Distinguishable(ids) {
      forall run, r, n | IsRun(run) && RunIds(run) <= ids && r in ids
        ensures KeyOf(r, n) in After(run).tracked <==> LivePair(run, r, n)
      {
        TrackedIffLive(run, KeyOf(r, n));
        LiveIsLivePair(run, ids, r, n);
      }
    } else {
      var a, b :| a in ids && b in ids && Confusable(a, b);
      if a + "/" <= b {
        var run := MixedUpRun(ids, a, b);
      } else {
        var run := MixedUpRun(ids, b, a);
      }
    }
  }
}
