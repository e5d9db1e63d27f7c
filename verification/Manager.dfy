/**
 The tunnel manager: a cache of discovered targets with a refresh interval, local
 registrations on top of it, and an independent table of open tunnels. Each of its critical
 sections is one step; Open has two, so the sections of different callers may interleave.
 */
module Manager {
  import opened Wrappers

  type Id = nat
  type Time = int

  /** The largest time.Duration; time.Since saturates there for the zero time. */
  const MAX_DURATION: int := 0x7FFF_FFFF_FFFF_FFFF

  const DEFAULT_INTERVAL: int := 30_000_000_000

  datatype Target = Target(name: string, address: string, protocol: string, labels: seq<string>, description: string)

  datatype ActiveTunnel = ActiveTunnel(target: Target, openedAt: Time)

  type Targets = map<string, Target>

  /** Enter targets under their names, one after the other. */
  function Entered(m: Targets, ts: seq<Target>): Targets {
    if ts == [] then m else Entered(m, ts[..|ts| - 1])[ts[|ts| - 1].name := ts[|ts| - 1]]
  }

  /** What changed the manager, oldest first. */
  datatype Event =
    | Fetched(ts: seq<Target>, stamp: Time)
    | Registered(target: Target)
    | Opened(name: string, tunnel: ActiveTunnel)
    | Closed(name: string)

  datatype State = State(
    seed: seq<Target>,
    interval: int,
    targets: Targets,
    active: map<string, ActiveTunnel>,
    lastRefresh: Option<Time>,
    clock: Time,                     // no later clock reading is earlier than this
    pending: map<Id, string>,        // Open calls between their two sections
    log: seq<Event>)                 // history

  function Initial(seed: seq<Target>, interval: int, clock: Time): State {
    State(seed, interval, Entered(map[], seed), map[], None, clock, map[], [])
  }

  datatype Purpose = ForOpen(name: string) | ForList

  datatype Reply = Unavailable | Discovered(ts: seq<Target>)

  /** A critical section, with what the outside world gives it: clock readings, replies, refusals. */
  datatype Label =
    | Ensure(id: Id, purpose: Purpose, refused: bool, now: Time, reply: Reply, stamp: Time)
    | Commit(id: Id, dialOk: bool, at: Time)
    | Register(target: Target)
    | Close(name: string, expired: bool)

  function Since(last: Option<Time>, now: Time): int {
    if last.None? || now - last.value > MAX_DURATION then MAX_DURATION else now - last.value
  }

  predicate IsFresh(s: State, now: Time) {
    Since(s.lastRefresh, now) < s.interval
  }

  predicate Enabled(s: State, l: Label) {
    match l
    case Ensure(id, _, _, now, _, stamp) => id !in s.pending && s.clock <= now <= stamp
    case Commit(id, _, at) => id in s.pending && s.clock <= at
    case Register(_) => true
    case Close(_, _) => true
  }

  function Passed(s: State, id: Id, purpose: Purpose): State {
    match purpose
    case ForOpen(name) => s.(pending := s.pending[id := name])
    case ForList => s
  }

  /** Whether ensureTargets returns without an error. */
  predicate Succeeds(s: State, l: Label)
    requires l.Ensure?
  {
    !l.refused && (IsFresh(s, l.now) || l.reply.Discovered?)
  }

  function Refreshed(s: State, ts: seq<Target>, stamp: Time): State {
    s.(targets := Entered(map[], ts), lastRefresh := Some(stamp), clock := stamp,
       log := s.log + [Fetched(ts, stamp)])
  }

  function EnsureStep(s: State, id: Id, purpose: Purpose, refused: bool, now: Time, reply: Reply, stamp: Time): State {
    if refused then s
    else if IsFresh(s, now) then Passed(s.(clock := now), id, purpose)
    else if reply.Unavailable? then s.(clock := stamp)
    else Passed(Refreshed(s, reply.ts, stamp), id, purpose)
  }

  function CommitStep(s: State, id: Id, dialOk: bool, at: Time): State {
    if id !in s.pending then s
    else
      var name := s.pending[id];
      var t := s.(pending := s.pending - {id}, clock := at);
      if name in s.targets && dialOk then
        var tunnel := ActiveTunnel(s.targets[name], at);
        t.(active := s.active[name := tunnel], log := s.log + [Opened(name, tunnel)])
      else t
  }

  function RegisterStep(s: State, target: Target): State {
    s.(targets := s.targets[target.name := target], log := s.log + [Registered(target)])
  }

  function CloseStep(s: State, name: string, expired: bool): State {
    if !expired && name in s.active
    then s.(active := s.active - {name}, log := s.log + [Closed(name)]) else s
  }

  function Step(s: State, l: Label): State {
    match l
    case Ensure(id, purpose, refused, now, reply, stamp) => EnsureStep(s, id, purpose, refused, now, reply, stamp)
    case Commit(id, dialOk, at) => CommitStep(s, id, dialOk, at)
    case Register(target) => RegisterStep(s, target)
    case Close(name, expired) => CloseStep(s, name, expired)
  }

  predicate Runs(s: State, run: seq<Label>)
    decreases run
  {
    run == [] || (Enabled(s, run[0]) && Runs(Step(s, run[0]), run[1..]))
  }

  function After(s: State, run: seq<Label>): State
    decreases run
  {
    if run == [] then s else After(Step(s, run[0]), run[1..])
  }

  // ---------------------------------------------------------------- what the history says

  /** The latest snapshot, or the seed, and the registrations made since. */
  function Feed(seed: seq<Target>, log: seq<Event>): seq<Target> {
    if log == [] then seed
    else
      var before := Feed(seed, log[..|log| - 1]);
      match log[|log| - 1]
      case Fetched(ts, _) => ts
      case Registered(t) => before + [t]
      case _ => before
  }

  function Stamps(log: seq<Event>): seq<Time> {
    if log == [] then []
    else
      var before := Stamps(log[..|log| - 1]);
      match log[|log| - 1]
      case Fetched(_, stamp) => before + [stamp]
      case _ => before
  }

  /** Each refresh came at least `interval` after the one before it. */
  predicate Spaced(stamps: seq<Time>, interval: int) {
    forall i :: 0 < i < |stamps| ==> stamps[i] - stamps[i - 1] >= interval
  }

  function LastOf(stamps: seq<Time>): Option<Time> {
    if stamps == [] then None else Some(stamps[|stamps| - 1])
  }

  /** The tunnel that the latest successful Open or Close of a name left open, if it did. */
  function OpenTunnel(log: seq<Event>, name: string): Option<ActiveTunnel> {
    if log == [] then None
    else
      match log[|log| - 1]
      case Opened(n, tunnel) => if n == name then Some(tunnel) else OpenTunnel(log[..|log| - 1], name)
      case Closed(n) => if n == name then None else OpenTunnel(log[..|log| - 1], name)
      case _ => OpenTunnel(log[..|log| - 1], name)
  }

  /** Every tunnel was opened to the target the cache held under that name at that moment. */
  predicate OpensFromCache(seed: seq<Target>, log: seq<Event>) {
    log != [] ==>
      var before := log[..|log| - 1];
      var last := log[|log| - 1];
      && OpensFromCache(seed, before)
      && (last.Opened? ==>
            var cache := Entered(map[], Feed(seed, before));
            last.name in cache && cache[last.name] == last.tunnel.target)
  }

  // ---------------------------------------------------------------- the invariant

  predicate CacheOk(s: State) {
    s.targets == Entered(map[], Feed(s.seed, s.log))
  }

  predicate ClockOk(s: State) {
    && Spaced(Stamps(s.log), s.interval)
    && s.lastRefresh == LastOf(Stamps(s.log))
    && (s.lastRefresh.Some? ==> s.lastRefresh.value <= s.clock)
    && 0 < s.interval <= MAX_DURATION
  }

  ghost predicate ActiveOk(s: State) {
    && OpensFromCache(s.seed, s.log)
    && (forall k :: k in s.active <==> OpenTunnel(s.log, k).Some?)
    && (forall k :: k in s.active ==> OpenTunnel(s.log, k) == Some(s.active[k]))
  }

  ghost predicate Inv(s: State) {
    CacheOk(s) && ClockOk(s) && ActiveOk(s)
  }

  lemma OneMoreFed(seed: seq<Target>, log: seq<Event>, e: Event)
    ensures Feed(seed, log + [e]) == if e.Fetched? then e.ts
                                     else if e.Registered? then Feed(seed, log) + [e.target]
                                     else Feed(seed, log)
    ensures Stamps(log + [e]) == if e.Fetched? then Stamps(log) + [e.stamp] else Stamps(log)
  {
    assert (log + [e])[..|log|] == log;
  }

  lemma OneMoreOpened(seed: seq<Target>, log: seq<Event>, e: Event)
    ensures OpensFromCache(seed, log + [e]) <==>
              && OpensFromCache(seed, log)
              && (e.Opened? ==>
                    var cache := Entered(map[], Feed(seed, log));
                    e.name in cache && cache[e.name] == e.tunnel.target)
    ensures forall k :: OpenTunnel(log + [e], k)
                     == if e.Opened? && e.name == k then Some(e.tunnel)
                        else if e.Closed? && e.name == k then None
                        else OpenTunnel(log, k)
  {
    assert (log + [e])[..|log|] == log;
  }

  lemma EnteredOneMore(m: Targets, ts: seq<Target>, t: Target)
    ensures Entered(m, ts + [t]) == Entered(m, ts)[t.name := t]
  {
    assert (ts + [t])[..|ts|] == ts;
  }

  lemma RefreshKeepsInv(s: State, ts: seq<Target>, now: Time, stamp: Time)
    requires Inv(s) && !IsFresh(s, now) && s.clock <= now <= stamp
    ensures Inv(Refreshed(s, ts, stamp))
  {
    var e := Fetched(ts, stamp);
    OneMoreFed(s.seed, s.log, e);
    OneMoreOpened(s.seed, s.log, e);
    var stamps := Stamps(s.log) + [stamp];
    assert Spaced(stamps, s.interval);
  }

  lemma EnsureKeepsInv(s: State, id: Id, purpose: Purpose, refused: bool, now: Time, reply: Reply, stamp: Time)
    requires Inv(s) && s.clock <= now <= stamp
    ensures Inv(EnsureStep(s, id, purpose, refused, now, reply, stamp))
  {
    if !refused && !IsFresh(s, now) && reply.Discovered? {
      RefreshKeepsInv(s, reply.ts, now, stamp);
    }
  }

  lemma CommitKeepsInv(s: State, id: Id, dialOk: bool, at: Time)
    requires Inv(s) && id in s.pending && s.clock <= at
    ensures Inv(CommitStep(s, id, dialOk, at))
  {
    var name := s.pending[id];
    if name in s.targets && dialOk {
      var e := Opened(name, ActiveTunnel(s.targets[name], at));
      OneMoreFed(s.seed, s.log, e);
      OneMoreOpened(s.seed, s.log, e);
    }
  }

  lemma RegisterKeepsInv(s: State, t: Target)
    requires Inv(s)
    ensures Inv(RegisterStep(s, t))
  {
    OneMoreFed(s.seed, s.log, Registered(t));
    OneMoreOpened(s.seed, s.log, Registered(t));
    EnteredOneMore(map[], Feed(s.seed, s.log), t);
  }

  lemma CloseKeepsInv(s: State, name: string, expired: bool)
    requires Inv(s)
    ensures Inv(CloseStep(s, name, expired))
  {
    OneMoreFed(s.seed, s.log, Closed(name));
    OneMoreOpened(s.seed, s.log, Closed(name));
  }

  lemma StepKeepsInv(s: State, l: Label)
    requires Inv(s) && Enabled(s, l)
    ensures Inv(Step(s, l))
  {
    match l
    case Ensure(id, purpose, refused, now, reply, stamp) =>
      EnsureKeepsInv(s, id, purpose, refused, now, reply, stamp);
    case Commit(id, dialOk, at) => CommitKeepsInv(s, id, dialOk, at);
    case Register(t) => RegisterKeepsInv(s, t);
    case Close(name, expired) => CloseKeepsInv(s, name, expired);
  }

  lemma {:induction false} RunKeepsInv(s: State, run: seq<Label>)
    requires Inv(s) && Runs(s, run)
    ensures Inv(After(s, run))
    ensures After(s, run).seed == s.seed && After(s, run).interval == s.interval
    decreases run
  {
    if run != [] {
      StepKeepsInv(s, run[0]);
      RunKeepsInv(Step(s, run[0]), run[1..]);
    }
  }

  lemma NewManagerInv(seed: seq<Target>, interval: int, clock: Time)
    requires 0 < interval <= MAX_DURATION
    ensures Inv(Initial(seed, interval, clock))
  {
  }

  // ---------------------------------------------------------------- theorems about every run

  /** ts[i] is the last target of this name. */
  predicate LastNamed(ts: seq<Target>, i: int, name: string) {
    0 <= i < |ts| && ts[i].name == name && forall j :: i < j < |ts| ==> ts[j].name != name
  }

  /** A map holds under each name the last target of that name, and nothing else. */
  ghost predicate LastWins(m: Targets, ts: seq<Target>) {
    && (forall k :: k in m ==> exists i :: LastNamed(ts, i, k))
    && (forall i, k :: LastNamed(ts, i, k) ==> k in m && m[k] == ts[i])
  }

  lemma {:induction false} EnteredIsLastWins(ts: seq<Target>)
    ensures LastWins(Entered(map[], ts), ts)
  {
    if ts != [] {
      var n := |ts| - 1;
      var before, last := ts[..n], ts[n];
      EnteredIsLastWins(before);
      forall i, k | LastNamed(ts, i, k) && k != last.name ensures LastNamed(before, i, k) {
      }
      forall k | k in Entered(map[], ts) ensures exists i :: LastNamed(ts, i, k) {
        if k == last.name {
          assert LastNamed(ts, n, k);
        } else {
          var i :| LastNamed(before, i, k);
          assert LastNamed(ts, i, k);
        }
      }
    }
  }

  /**
   After any interleaving the cache holds, under each name, the last target of that name in
   the latest snapshot (or the seed) followed by the registrations made since.
   */
  lemma CacheRefinesFeed(seed: seq<Target>, interval: int, clock: Time, run: seq<Label>)
    requires 0 < interval <= MAX_DURATION && Runs(Initial(seed, interval, clock), run)
    ensures var s := After(Initial(seed, interval, clock), run);
            LastWins(s.targets, Feed(seed, s.log))
  {
    NewManagerInv(seed, interval, clock);
    RunKeepsInv(Initial(seed, interval, clock), run);
    var s := After(Initial(seed, interval, clock), run);
    EnteredIsLastWins(Feed(s.seed, s.log));
  }

  /** In any interleaving, refreshes are at least the interval apart, and the last one is remembered. */
  lemma RefreshesAreSpaced(seed: seq<Target>, interval: int, clock: Time, run: seq<Label>)
    requires 0 < interval <= MAX_DURATION && Runs(Initial(seed, interval, clock), run)
    ensures var s := After(Initial(seed, interval, clock), run);
            Spaced(Stamps(s.log), interval) && s.lastRefresh == LastOf(Stamps(s.log))
  {
    NewManagerInv(seed, interval, clock);
    RunKeepsInv(Initial(seed, interval, clock), run);
  }

  /**
   ensureTargets in any reachable state: an error leaves cache, refresh time and tunnels as
   they were and keeps Open from its second section; success without fetching means that the
   cache is younger than the interval.
   */
  lemma EnsureOutcome(s: State, l: Label)
    requires Inv(s) && l.Ensure? && Enabled(s, l)
    ensures var t := Step(s, l);
            && t.active == s.active
            && t.pending == (if Succeeds(s, l) && l.purpose.ForOpen?
                             then s.pending[l.id := l.purpose.name] else s.pending)
            && (!Succeeds(s, l) ==> t.targets == s.targets && t.lastRefresh == s.lastRefresh && t.log == s.log)
            && (Succeeds(s, l) && t.log == s.log ==>
                  && s.lastRefresh.Some? && t.lastRefresh == s.lastRefresh && t.targets == s.targets
                  && l.now - s.lastRefresh.value < s.interval)
  {
    if !l.refused && !IsFresh(s, l.now) && l.reply.Discovered? {
      assert |Step(s, l).log| == |s.log| + 1;
    }
  }

  /** The second section of Open enters a tunnel exactly if the name is cached and dialling works. */
  lemma CommitOutcome(s: State, id: Id, dialOk: bool, at: Time)
    requires id in s.pending
    ensures var name, t := s.pending[id], Step(s, Commit(id, dialOk, at));
            && (dialOk && name in s.targets ==>
                  && t.active == s.active[name := ActiveTunnel(s.targets[name], at)]
                  && t.log == s.log + [Opened(name, ActiveTunnel(s.targets[name], at))])
            && (!dialOk || name !in s.targets ==> t.active == s.active && t.log == s.log)
            && t.targets == s.targets && t.lastRefresh == s.lastRefresh && t.pending == s.pending - {id}
  {
  }

  /** A refresh replaces the cache by what was discovered; a registration enters one target. */
  lemma CacheChanges(s: State, l: Label)
    requires Inv(s) && Enabled(s, l)
    ensures var t := Step(s, l);
            && (l.Register? ==> t.targets == s.targets[l.target.name := l.target] && t.active == s.active)
            && (l.Ensure? && Succeeds(s, l) && !IsFresh(s, l.now) ==>
                  LastWins(t.targets, l.reply.ts) && t.lastRefresh == Some(l.stamp))
            && (l.Commit? || l.Close? ==> t.targets == s.targets && t.lastRefresh == s.lastRefresh)
  {
    if l.Ensure? && l.reply.Discovered? {
      EnteredIsLastWins(l.reply.ts);
    }
  }

  // ---------------------------------------------------------------- the history, by the steps of the run

  /** An Open of this name by this caller came to its first section. */
  ghost predicate Asked(run: seq<Label>, id: Id, name: string) {
    exists l :: l in run && l.Ensure? && l.id == id && l.purpose == ForOpen(name) && !l.refused
  }

  /** And came to its second, with a dial that worked at this time. */
  ghost predicate Dialled(run: seq<Label>, name: string, at: Time) {
    exists id :: Commit(id, true, at) in run && Asked(run, id, name)
  }

  ghost predicate Discovers(run: seq<Label>, ts: seq<Target>, stamp: Time) {
    exists l :: l in run && l.Ensure? && !l.refused && l.reply == Discovered(ts) && l.stamp == stamp
  }

  /** Some step of the run, given this by the outside world, accounts for the event. */
  ghost predicate CausedBy(e: Event, run: seq<Label>) {
    match e
    case Fetched(ts, stamp) => Discovers(run, ts, stamp)
    case Registered(t) => Register(t) in run
    case Opened(name, tunnel) => Dialled(run, name, tunnel.openedAt)
    case Closed(name) => Close(name, false) in run
  }

  ghost predicate Explained(s: State, run: seq<Label>) {
    && (forall e :: e in s.log ==> CausedBy(e, run))
    && (forall t :: Register(t) in run ==> Registered(t) in s.log)
    && (forall id :: id in s.pending ==> Asked(run, id, s.pending[id]))
  }

  lemma StillAsked(run: seq<Label>, l: Label, id: Id, name: string)
    requires Asked(run, id, name)
    ensures Asked(run + [l], id, name)
  {
    var a :| a in run && a.Ensure? && a.id == id && a.purpose == ForOpen(name) && !a.refused;
    assert a in run + [l];
  }

  lemma StillCaused(e: Event, run: seq<Label>, l: Label)
    requires CausedBy(e, run)
    ensures CausedBy(e, run + [l])
  {
    if e.Opened? {
      var id :| Commit(id, true, e.tunnel.openedAt) in run && Asked(run, id, e.name);
      StillAsked(run, l, id, e.name);
      assert Commit(id, true, e.tunnel.openedAt) in run + [l];
    } else if e.Fetched? {
      var a :| a in run && a.Ensure? && !a.refused && a.reply == Discovered(e.ts) && a.stamp == e.stamp;
      assert a in run + [l];
    }
  }

  /** The event that a step adds, if it adds one, is caused by it. */
  lemma NewEventCaused(s: State, run: seq<Label>, l: Label, e: Event)
    requires Enabled(s, l) && Explained(s, run) && e in Step(s, l).log && e !in s.log
    ensures CausedBy(e, run + [l])
  {
    assert l in run + [l];
    if l.Commit? {
      CommitOutcome(s, l.id, l.dialOk, l.at);
      StillAsked(run, l, l.id, s.pending[l.id]);
    }
  }

  lemma PendingAsked(s: State, run: seq<Label>, l: Label, id: Id)
    requires Enabled(s, l) && Explained(s, run) && id in Step(s, l).pending
    ensures Asked(run + [l], id, Step(s, l).pending[id])
  {
    assert l in run + [l];
    if id in s.pending {
      StillAsked(run, l, id, s.pending[id]);
    }
  }

  lemma StepExplained(s: State, run: seq<Label>, l: Label)
    requires Enabled(s, l) && Explained(s, run)
    ensures Explained(Step(s, l), run + [l])
  {
    var t := Step(s, l);
    forall e | e in t.log ensures CausedBy(e, run + [l]) {
      if e in s.log {
        StillCaused(e, run, l);
      } else {
        NewEventCaused(s, run, l, e);
      }
    }
    forall id | id in t.pending ensures Asked(run + [l], id, t.pending[id]) {
      PendingAsked(s, run, l, id);
    }
    assert forall e :: e in s.log ==> e in t.log;
  }

  lemma {:induction false} RunExplained(s: State, past: seq<Label>, run: seq<Label>)
    requires Explained(s, past) && Runs(s, run)
    ensures Explained(After(s, run), past + run)
    decreases run
  {
    if run == [] {
      assert past + run == past;
    } else {
      StepExplained(s, past, run[0]);
      RunExplained(Step(s, run[0]), past + [run[0]], run[1..]);
      assert past + [run[0]] + run[1..] == past + run;
    }
  }

  /** In any interleaving the history is what the steps' outside inputs have caused. */
  lemma HistoryIsCaused(seed: seq<Target>, interval: int, clock: Time, run: seq<Label>)
    requires Runs(Initial(seed, interval, clock), run)
    ensures Explained(After(Initial(seed, interval, clock), run), run)
  {
    RunExplained(Initial(seed, interval, clock), [], run);
    assert [] + run == run;
  }

  predicate Concerns(e: Event, k: string) {
    (e.Opened? || e.Closed?) && e.name == k
  }

  lemma {:induction false} OpenTunnelIsLatest(log: seq<Event>, k: string)
    ensures OpenTunnel(log, k).Some? ==>
              exists i :: && 0 <= i < |log|
                          && log[i] == Opened(k, OpenTunnel(log, k).value)
                          && forall j :: i < j < |log| ==> !Concerns(log[j], k)
    ensures OpenTunnel(log, k).None? ==>
              || (forall j :: 0 <= j < |log| ==> !Concerns(log[j], k))
              || exists i :: && 0 <= i < |log|
                             && log[i] == Closed(k)
                             && forall j :: i < j < |log| ==> !Concerns(log[j], k)
  {
    if log != [] {
      var n := |log| - 1;
      OpenTunnelIsLatest(log[..n], k);
      assert forall j :: 0 <= j < n ==> log[..n][j] == log[j];
    }
  }

  lemma {:induction false} OpenedFromCache(seed: seq<Target>, log: seq<Event>, i: nat)
    requires OpensFromCache(seed, log) && i < |log| && log[i].Opened?
    ensures var cache := Entered(map[], Feed(seed, log[..i]));
            log[i].name in cache && cache[log[i].name] == log[i].tunnel.target
  {
    var before := log[..|log| - 1];
    if i < |before| {
      OpenedFromCache(seed, before, i);
      assert before[..i] == log[..i];
    }
  }

  lemma {:induction false} EnteredUnderOwnName(ts: seq<Target>, k: string)
    requires k in Entered(map[], ts)
    ensures Entered(map[], ts)[k].name == k
  {
    if ts[|ts| - 1].name != k {
      EnteredUnderOwnName(ts[..|ts| - 1], k);
    }
  }

  /** The event at index i opened the tunnel that is open under k, from the cache of that moment. */
  ghost predicate OpenedAt(seed: seq<Target>, s: State, k: string, i: nat)
    requires k in s.active
  {
    && i < |s.log| && s.log[i] == Opened(k, s.active[k])
    && (forall j :: i < j < |s.log| ==> !Concerns(s.log[j], k))
    && var cache := Entered(map[], Feed(seed, s.log[..i]));
       k in cache && cache[k] == s.active[k].target
  }

  /**
   In any interleaving, a name has an open tunnel exactly if its latest successful Open or
   Close was an Open; the tunnel leads to a target of that name, the one the cache held when
   that Open dialled it, and that dial worked.
   */
  lemma ActiveTunnelsExplained(seed: seq<Target>, interval: int, clock: Time, run: seq<Label>, k: string)
    requires 0 < interval <= MAX_DURATION && Runs(Initial(seed, interval, clock), run)
    ensures var s := After(Initial(seed, interval, clock), run);
            && (k in s.active <==> OpenTunnel(s.log, k).Some?)
            && (k in s.active ==> s.active[k].target.name == k && exists i :: OpenedAt(seed, s, k, i))
            && (k in s.active ==> Dialled(run, k, s.active[k].openedAt))
  {
    NewManagerInv(seed, interval, clock);
    RunKeepsInv(Initial(seed, interval, clock), run);
    var s := After(Initial(seed, interval, clock), run);
    if k in s.active {
      OpenTunnelIsLatest(s.log, k);
      var i :| 0 <= i < |s.log| && s.log[i] == Opened(k, s.active[k])
               && forall j :: i < j < |s.log| ==> !Concerns(s.log[j], k);
      OpenedFromCache(s.seed, s.log, i);
      EnteredUnderOwnName(Feed(s.seed, s.log[..i]), k);
      assert OpenedAt(seed, s, k, i);
      assert Dialled(run, k, s.active[k].openedAt) by {
        HistoryIsCaused(seed, interval, clock, run);
        assert CausedBy(s.log[i], run);
      }
    }
  }

  /** An open tunnel stays open, and can be closed, until someone closes it, whatever refreshes drop. */
  lemma {:induction false} OpenTunnelStaysClosable(s: State, run: seq<Label>, k: string)
    requires k in s.active && Runs(s, run)
    requires forall i :: 0 <= i < |run| ==> !(run[i].Close? && run[i].name == k)
    ensures var t := After(s, run);
            k in t.active && CloseStep(t, k, false).active == t.active - {k}
    decreases run
  {
    if run != [] {
      OpenTunnelStaysClosable(Step(s, run[0]), run[1..], k);
    }
  }

  // ---------------------------------------------------------------- the manager itself

  class Manager {
    var targets: Targets
    var active: map<string, ActiveTunnel>
    var lastRefresh: Option<Time>
    var refreshInterval: int
    var hasSource: bool

    ghost var model: State

    ghost predicate Valid()
      reads this
    {
      && Inv(model)
      && targets == model.targets && active == model.active
      && lastRefresh == model.lastRefresh && refreshInterval == model.interval
    }

    /** NewManager with its options: an interval that is not positive is ignored. */
    constructor (seed: seq<Target>, hasSource: bool, interval: int, ghost clock: Time)
      requires interval <= MAX_DURATION
      ensures Valid() && this.hasSource == hasSource
      ensures model == Initial(seed, if interval > 0 then interval else DEFAULT_INTERVAL, clock)
      ensures LastWins(targets, seed) && active == map[] && lastRefresh == None
      ensures refreshInterval == if interval > 0 then interval else 30_000_000_000
    {
      this.hasSource := hasSource;
      refreshInterval := if interval > 0 then interval else DEFAULT_INTERVAL;
      active := map[];
      lastRefresh := None;
      targets := map[];
      model := Initial(seed, if interval > 0 then interval else DEFAULT_INTERVAL, clock);
      new;
      targets := EnterAll(seed);
      EnteredIsLastWins(seed);
      NewManagerInv(seed, refreshInterval, clock);
    }

    static method EnterAll(ts: seq<Target>) returns (m: Targets)
      ensures m == Entered(map[], ts)
    {
      m := map[];
      for i := 0 to |ts|
        invariant m == Entered(map[], ts[..i])
      {
        EnteredOneMore(map[], ts[..i], ts[i]);
        assert ts[..i + 1] == ts[..i] + [ts[i]];
        m := m[ts[i].name := ts[i]];
      }
      assert ts[..|ts|] == ts;
    }

    method RegisterTarget(t: Target)
      requires Valid()
      modifies `targets, `model
      ensures Valid() && model == RegisterStep(old(model), t)
      ensures targets == old(targets)[t.name := t]
    {
      RegisterKeepsInv(model, t);
      targets := targets[t.name := t];
      model := RegisterStep(model, t);
    }

    /** `expired` is the state of the caller's context; the clock is read at `now` and at `stamp`. */
    method EnsureTargets(ghost id: Id, ghost purpose: Purpose, expired: bool, now: Time, reply: Reply, stamp: Time)
      returns (ok: bool)
      requires Valid() && id !in model.pending && model.clock <= now <= stamp
      modifies `targets, `lastRefresh, `model
      ensures Valid()
      ensures var l := Ensure(id, purpose, expired || !hasSource, now, reply, stamp);
              ok == Succeeds(old(model), l) && model == Step(old(model), l)
      ensures var young := old(lastRefresh).Some? && now - old(lastRefresh).value < refreshInterval;
              && ok == (!expired && hasSource && (young || reply.Discovered?))
              && (!ok || young ==> targets == old(targets) && lastRefresh == old(lastRefresh))
              && (ok && !young ==> LastWins(targets, reply.ts) && lastRefresh == Some(stamp))
    {
      ghost var refused := expired || !hasSource;
      EnsureKeepsInv(model, id, purpose, refused, now, reply, stamp);
      ghost var after := EnsureStep(model, id, purpose, refused, now, reply, stamp);
      if expired {
        return false;
      }
      if !hasSource {
        return false;
      }
      if Since(lastRefresh, now) < refreshInterval {
        model := after;
        return true;
      }
      if reply.Unavailable? {
        model := after;
        return false;
      }
      targets := EnterAll(reply.ts);
      EnteredIsLastWins(reply.ts);
      lastRefresh := Some(stamp);
      model := after;
      return true;
    }

    /** The second section of Open: look up, dial, enter. */
    method CommitOpen(ghost id: Id, target: string, dialOk: bool, at: Time) returns (ok: bool)
      requires Valid() && id in model.pending && model.pending[id] == target && model.clock <= at
      modifies `active, `model
      ensures Valid() && model == CommitStep(old(model), id, dialOk, at)
      ensures ok == (target in targets && dialOk)
      ensures ok ==> active == old(active)[target := ActiveTunnel(targets[target], at)]
      ensures !ok ==> active == old(active)
    {
      CommitKeepsInv(model, id, dialOk, at);
      ghost var after := CommitStep(model, id, dialOk, at);
      if target !in targets {
        model := after;
        return false;
      }
      var info := targets[target];
      if !dialOk {
        model := after;
        return false;
      }
      active := active[target := ActiveTunnel(info, at)];
      model := after;
      return true;
    }

    method Open(ghost id: Id, target: string, expired: bool, now: Time, reply: Reply, stamp: Time,
                dialOk: bool, at: Time)
      returns (ok: bool)
      requires Valid() && id !in model.pending && model.clock <= now <= stamp <= at
      modifies `targets, `lastRefresh, `active, `model
      ensures Valid()
      ensures var l := Ensure(id, ForOpen(target), expired || !hasSource, now, reply, stamp);
              var mid := Step(old(model), l);
              && ok == (Succeeds(old(model), l) && target in mid.targets && dialOk)
              && model == if Succeeds(old(model), l) then CommitStep(mid, id, dialOk, at) else mid
      ensures var young := old(lastRefresh).Some? && now - old(lastRefresh).value < refreshInterval;
              ok == (!expired && hasSource && (young || reply.Discovered?) && target in targets && dialOk)
      ensures ok ==> active == old(active)[target := ActiveTunnel(targets[target], at)]
      ensures !ok ==> active == old(active)
    {
      ok := EnsureTargets(id, ForOpen(target), expired, now, reply, stamp);
      if !ok {
        return;
      }
      ok := CommitOpen(id, target, dialOk, at);
    }

    method Close(target: string, expired: bool) returns (ok: bool)
      requires Valid()
      modifies `active, `model
      ensures Valid() && model == CloseStep(old(model), target, expired)
      ensures ok == (!expired && target in old(active))
      ensures active == if ok then old(active) - {target} else old(active)
    {
      CloseKeepsInv(model, target, expired);
      if expired {
        return false;
      }
      if target !in active {
        return false;
      }
      active := active - {target};
      model := CloseStep(model, target, expired);
      return true;
    }
  }
}
