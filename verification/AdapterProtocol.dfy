/**
 The frp adapter's Start, Stop and webhook goroutine as atomic steps on shared state.
 Any number of goroutines may call Start and Stop; a label names one atomic step together
 with the choice the environment makes in it, so a run is a sequence of labels and every
 interleaving is a run.
 */
module AdapterProtocol {
  import opened Wrappers

  type Id = nat

  /** Where the restart loop is. */
  datatype LoopPc = AtHead | Launching | Waiting | Sleeping

  datatype StartPc =
    | Entered                        // before the compare-and-swap on `started`
    | Refused                        // returned a validation, handler or already-started error
    | WonStart                       // `started` is set, `cancel` is not
    | HasContext                     // `cancel` is set, the webhook goroutine is not launched
    | InLoop(at: LoopPc)
    | LoopReturned(failed: bool)     // receiving from the webhook's error channel
    | HookJoined(failed: bool)       // about to close the done channel
    | Completed(failed: bool)        // done channel closed, Start has returned

  datatype StopResult = NotStarted | Graceful | TimedOut

  datatype StopPc =
    | Calling                        // before the load of `started`
    | SawStarted                     // before the compare-and-swap on `stopped`
    | WonStop                        // before the nil check on `cancel`
    | Awaiting(called: bool)         // in the final select; `called` tells if cancel was called
    | Done(result: StopResult)

  datatype HookPc =
    | Unborn
    | Validating
    | Listening
    | Serving                        // waiting for the context
    | ShuttingDown
    | Returned(early: bool)          // about to send on the error channel
    | Delivered(early: bool)

  datatype State = State(
    started: bool,
    stopped: bool,
    cancelSet: bool,                 // the cancel field is not nil
    cancelled: bool,                 // the context Start derived is cancelled
    slot: nat,                       // messages in the webhook error channel, capacity one
    closes: nat,                     // times the done channel was closed; a second time panics
    starts: map<Id, StartPc>,
    stops: map<Id, StopPc>,
    hook: HookPc,
    owner: Option<Id>,               // history: who won the swap on `started`
    stopper: Option<Id>)             // history: who won the swap on `stopped`

  const INIT := State(false, false, false, false, 0, 0, map[], map[], Unborn, None, None)

  datatype LoopMove = SeeDone | Launch | LaunchFails | LaunchFailsLast | Launched | Exits | ExitsLast | Timer

  datatype HookMove = Reject | Claim | ListenFails | Listens | ContextDone | ShutDown | Deliver

  datatype StartMove = Enter | Refuse | SwapStarted | AssignCancel | LaunchHook | JoinHook | CloseDone

  datatype StopMove = Arrive | LoadStarted | SwapStopped | CallCancel | SeeClosed | TimeOut

  datatype Label =
    | Start(id: Id, start: StartMove)
    | Loop(id: Id, loop: LoopMove)
    | Stop(id: Id, stop: StopMove)
    | Hook(hook: HookMove)
    | ParentCancel                   // the context given to the running Start is cancelled

  function LoopNext(at: LoopPc, move: LoopMove, cancelled: bool): Option<StartPc> {
    match (at, move)
    case (AtHead, SeeDone) => if cancelled then Some(LoopReturned(false)) else None
    case (AtHead, Launch) => if cancelled then None else Some(InLoop(Launching))
    case (Launching, LaunchFails) => Some(InLoop(Sleeping))
    case (Launching, LaunchFailsLast) => Some(LoopReturned(true))
    case (Launching, Launched) => Some(InLoop(Waiting))
    case (Waiting, SeeDone) => if cancelled then Some(LoopReturned(false)) else None
    case (Waiting, Exits) => if cancelled then None else Some(InLoop(Sleeping))
    case (Waiting, ExitsLast) => if cancelled then None else Some(LoopReturned(true))
    case (Sleeping, SeeDone) => if cancelled then Some(LoopReturned(false)) else None
    case (Sleeping, Timer) => Some(InLoop(AtHead))
    case _ => None
  }

  function HookNext(hook: HookPc, move: HookMove, cancelled: bool): Option<HookPc> {
    match (hook, move)
    case (Validating, Reject) => Some(Returned(true))
    case (Validating, Claim) => Some(Listening)
    case (Listening, ListenFails) => Some(Returned(true))
    case (Listening, Listens) => Some(Serving)
    case (Serving, ContextDone) => if cancelled then Some(ShuttingDown) else None
    case (ShuttingDown, ShutDown) => Some(Returned(false))
    case (Returned(early), Deliver) => Some(Delivered(early))
    case _ => None
  }

  /** The program counter of the Start call that won the swap. */
  function Winner(s: State): StartPc {
    if s.owner.Some? && s.owner.value in s.starts then s.starts[s.owner.value] else Entered
  }

  /** The program counter of the Stop call that won the swap. */
  function StopWinner(s: State): StopPc {
    if s.stopper.Some? && s.stopper.value in s.stops then s.stops[s.stopper.value] else Calling
  }

  predicate StartAt(s: State, id: Id, pc: StartPc) {
    id in s.starts && s.starts[id] == pc
  }

  predicate StopAt(s: State, id: Id, pc: StopPc) {
    id in s.stops && s.stops[id] == pc
  }

  /** Where a move takes a Start call; None where it is not enabled. */
  function StartGoes(s: State, id: Id, m: StartMove): Option<StartPc> {
    if id !in s.starts then (if m.Enter? then Some(Entered) else None)
    else
      match (s.starts[id], m)
      case (Entered, Refuse) => Some(Refused)
      case (Entered, SwapStarted) => Some(if s.started then Refused else WonStart)
      case (WonStart, AssignCancel) => Some(HasContext)
      case (HasContext, LaunchHook) => Some(InLoop(AtHead))
      case (LoopReturned(failed), JoinHook) => if s.slot > 0 then Some(HookJoined(failed)) else None
      case (HookJoined(failed), CloseDone) => Some(Completed(failed))
      case _ => None
  }

  function StartNext(s: State, id: Id, m: StartMove): Option<State> {
    var pc := StartGoes(s, id, m);
    if pc.None? then None
    else
      Some(s.(starts := s.starts[id := pc.value],
              started := s.started || m.SwapStarted?,
              owner := if m.SwapStarted? && !s.started then Some(id) else s.owner,
              cancelSet := s.cancelSet || m.AssignCancel?,
              hook := if m.LaunchHook? then Validating else s.hook,
              slot := if m.JoinHook? && s.slot > 0 then s.slot - 1 else s.slot,
              closes := if m.CloseDone? then s.closes + 1 else s.closes))
  }

  function LoopStep(s: State, id: Id, m: LoopMove): Option<State> {
    if id !in s.starts || !s.starts[id].InLoop? then None
    else
      var next := LoopNext(s.starts[id].at, m, s.cancelled);
      if next.None? then None else Some(s.(starts := s.starts[id := next.value]))
  }

  function StopGoes(s: State, id: Id, m: StopMove): Option<StopPc> {
    if id !in s.stops then (if m.Arrive? then Some(Calling) else None)
    else
      match (s.stops[id], m)
      case (Calling, LoadStarted) => Some(if s.started then SawStarted else Done(NotStarted))
      case (SawStarted, SwapStopped) => Some(if s.stopped then Done(NotStarted) else WonStop)
      case (WonStop, CallCancel) => Some(Awaiting(s.cancelSet))
      case (Awaiting(_), SeeClosed) => if s.closes > 0 then Some(Done(Graceful)) else None
      case (Awaiting(_), TimeOut) => Some(Done(TimedOut))
      case _ => None
  }

  function StopNext(s: State, id: Id, m: StopMove): Option<State> {
    var pc := StopGoes(s, id, m);
    if pc.None? then None
    else
      Some(s.(stops := s.stops[id := pc.value],
              stopped := s.stopped || m.SwapStopped?,
              stopper := if m.SwapStopped? && !s.stopped then Some(id) else s.stopper,
              cancelled := s.cancelled || (m.CallCancel? && s.cancelSet)))
  }

  function HookStep(s: State, m: HookMove): Option<State> {
    var next := HookNext(s.hook, m, s.cancelled);
    if next.None? then None
    else if m.Deliver? then (if s.slot < 1 then Some(s.(hook := next.value, slot := s.slot + 1)) else None)
    else Some(s.(hook := next.value))
  }

  /** One atomic step; None when it is not enabled. */
  function Next(s: State, l: Label): Option<State> {
    match l
    case Start(id, m) => StartNext(s, id, m)
    case Loop(id, m) => LoopStep(s, id, m)
    case Stop(id, m) => StopNext(s, id, m)
    case Hook(m) => HookStep(s, m)
    case ParentCancel => if s.cancelSet then Some(s.(cancelled := true)) else None
  }

  predicate Runs(s: State, run: seq<Label>)
    decreases run
  {
    run == [] || (Next(s, run[0]).Some? && Runs(Next(s, run[0]).value, run[1..]))
  }

  function After(s: State, run: seq<Label>): State
    requires Runs(s, run)
    decreases run
  {
    if run == [] then s else After(Next(s, run[0]).value, run[1..])
  }

  // ---------------------------------------------------------------- safety

  predicate PastSwap(pc: StartPc) {
    !pc.Entered? && !pc.Refused?
  }

  predicate Won(pc: StopPc) {
    pc.WonStop? || pc.Awaiting? || pc == Done(Graceful) || pc == Done(TimedOut)
  }

  ghost predicate Owners(s: State) {
    && (s.started <==> s.owner.Some?)
    && (s.stopped <==> s.stopper.Some?)
    && (s.owner.Some? ==> s.owner.value in s.starts)
    && (s.stopper.Some? ==> s.stopper.value in s.stops)
    && (forall i :: i in s.starts ==> (PastSwap(s.starts[i]) <==> s.owner == Some(i)))
    && (forall i :: i in s.stops ==> (Won(s.stops[i]) <==> s.stopper == Some(i)))
  }

  predicate HookRunsOrRan(pc: StartPc) {
    PastSwap(pc) && !pc.WonStart? && !pc.HasContext?
  }

  predicate Joined(pc: StartPc) {
    pc.HookJoined? || pc.Completed?
  }

  predicate HookStoppedByContext(hook: HookPc) {
    hook.ShuttingDown? || hook == Returned(false) || hook == Delivered(false)
  }

  /** The loop has returned the max-retries error. */
  predicate GaveUp(pc: StartPc) {
    (pc.LoopReturned? || pc.HookJoined? || pc.Completed?) && pc.failed
  }

  predicate LoopReturnedNil(pc: StartPc) {
    (pc.LoopReturned? || pc.HookJoined? || pc.Completed?) && !pc.failed
  }

  predicate Agreement(s: State) {
    var main := Winner(s);
    var stop := StopWinner(s);
    && (s.cancelSet <==> PastSwap(main) && !main.WonStart?)
    && (s.cancelled ==> s.cancelSet)
    && (s.hook.Unborn? <==> !HookRunsOrRan(main))
    && (Joined(main) ==> s.hook.Delivered?)
    && s.slot == (if s.hook.Delivered? && !Joined(main) then 1 else 0)
    && s.closes == (if main.Completed? then 1 else 0)
    && (HookStoppedByContext(s.hook) ==> s.cancelled)
    && (LoopReturnedNil(main) ==> s.cancelled)
    && (stop == Awaiting(true) ==> s.cancelled)
    && (stop == Done(Graceful) ==> s.closes == 1)
  }

  ghost predicate Inv(s: State) {
    Owners(s) && Agreement(s)
  }

  lemma StartKeepsInv(s: State, id: Id, m: StartMove)
    requires Inv(s) && StartNext(s, id, m).Some? && (m.Enter? || m.Refuse? || m.SwapStarted?)
    ensures Inv(StartNext(s, id, m).value)
  {
    var t := StartNext(s, id, m).value;
    assert StopWinner(t) == StopWinner(s);
  }

  lemma WinnerKeepsInv(s: State, id: Id, m: StartMove)
    requires Inv(s) && StartNext(s, id, m).Some? && !m.Enter? && !m.Refuse? && !m.SwapStarted?
    ensures Inv(StartNext(s, id, m).value)
  {
    var t := StartNext(s, id, m).value;
    assert s.owner == Some(id) && Winner(s) == s.starts[id] && Winner(t) == t.starts[id];
    assert StopWinner(t) == StopWinner(s);
  }

  lemma LoopKeepsInv(s: State, id: Id, m: LoopMove)
    requires Inv(s) && LoopStep(s, id, m).Some?
    ensures Inv(LoopStep(s, id, m).value)
  {
    var t := LoopStep(s, id, m).value;
    assert s.owner == Some(id) && Winner(s) == s.starts[id] && Winner(t) == t.starts[id];
    assert StopWinner(t) == StopWinner(s);
  }

  lemma StopKeepsInv(s: State, id: Id, m: StopMove)
    requires Inv(s) && StopNext(s, id, m).Some?
    ensures Inv(StopNext(s, id, m).value)
  {
    var t := StopNext(s, id, m).value;
    assert Winner(t) == Winner(s);
    assert StopWinner(t) == if t.stopper == Some(id) then t.stops[id] else StopWinner(s);
  }

  lemma HookKeepsInv(s: State, m: HookMove)
    requires Inv(s) && HookStep(s, m).Some?
    ensures Inv(HookStep(s, m).value)
  {
    var t := HookStep(s, m).value;
    assert Winner(t) == Winner(s) && StopWinner(t) == StopWinner(s);
  }

  lemma StepKeepsInv(s: State, l: Label)
    requires Inv(s) && Next(s, l).Some?
    ensures Inv(Next(s, l).value)
  {
    match l
    case Start(id, m) =>
      if m.Enter? || m.Refuse? || m.SwapStarted? {
        StartKeepsInv(s, id, m);
      } else {
        WinnerKeepsInv(s, id, m);
      }
    case Loop(id, m) => LoopKeepsInv(s, id, m);
    case Stop(id, m) => StopKeepsInv(s, id, m);
    case Hook(m) => HookKeepsInv(s, m);
    case ParentCancel =>
  }

  lemma {:induction false} RunKeepsInv(s: State, run: seq<Label>)
    requires Inv(s) && Runs(s, run)
    ensures Inv(After(s, run))
    decreases run
  {
    if run != [] {
      StepKeepsInv(s, run[0]);
      RunKeepsInv(Next(s, run[0]).value, run[1..]);
    }
  }

  /** Start has returned from its loop and has received the webhook server's result. */
  ghost predicate BothReturned(s: State) {
    s.hook.Delivered? && exists i :: i in s.starts && s.starts[i].Completed?
  }

  /** What holds at every point of every interleaving. */
  ghost predicate Safe(s: State) {
    && s.closes <= 1
    && (forall i, j :: i in s.starts && j in s.starts && PastSwap(s.starts[i]) && PastSwap(s.starts[j]) ==> i == j)
    && (forall i, j :: i in s.stops && j in s.stops && Won(s.stops[i]) && Won(s.stops[j]) ==> i == j)
    && (forall i :: i in s.stops && s.stops[i] == Done(Graceful) ==> BothReturned(s))
    && (forall i :: i in s.starts && s.starts[i].Completed? ==> s.cancelled || s.hook == Delivered(true))
    && (forall i :: i in s.starts && LoopReturnedNil(s.starts[i]) ==> s.cancelled)
    && (s.hook.Returned? ==> Next(s, Hook(Deliver)).Some?)
  }

  lemma InvIsSafe(s: State)
    requires Inv(s)
    ensures Safe(s)
  {
    forall i | i in s.stops && s.stops[i] == Done(Graceful) ensures BothReturned(s) {
      assert Winner(s).Completed?;
      assert s.starts[s.owner.value].Completed?;
    }
  }

  lemma EveryRunIsSafe(run: seq<Label>)
    requires Runs(INIT, run)
    ensures Safe(After(INIT, run))
  {
    RunKeepsInv(INIT, run);
    InvIsSafe(After(INIT, run));
  }

  // ---------------------------------------------------------------- results, by the steps of the run

  /** This Start's loop made its last allowed attempt, and that attempt failed. */
  predicate LastAttemptFailed(run: seq<Label>, id: Id) {
    Loop(id, LaunchFailsLast) in run || Loop(id, ExitsLast) in run
  }

  ghost predicate SomeStartSwap(run: seq<Label>) {
    exists i :: Start(i, SwapStarted) in run
  }

  ghost predicate SomeStopSwap(run: seq<Label>) {
    exists i :: Stop(i, SwapStopped) in run
  }

  ghost predicate SomeAssignment(run: seq<Label>) {
    exists i :: Start(i, AssignCancel) in run
  }

  /** This Start came to its swap after another. */
  ghost predicate SwapsLate(run: seq<Label>, id: Id) {
    run != [] &&
    var before := run[..|run| - 1];
    SwapsLate(before, id) || (run[|run| - 1] == Start(id, SwapStarted) && SomeStartSwap(before))
  }

  /** This Stop looked before any Start had come to its swap, or came to its own swap after another Stop. */
  ghost predicate StopsInVain(run: seq<Label>, id: Id) {
    run != [] &&
    var before, last := run[..|run| - 1], run[|run| - 1];
    || StopsInVain(before, id)
    || (last == Stop(id, LoadStarted) && !SomeStartSwap(before))
    || (last == Stop(id, SwapStopped) && SomeStopSwap(before))
  }

  /** The caller cancelled its context, or a Stop called a cancel function that was assigned. */
  ghost predicate SomeCancellation(run: seq<Label>) {
    run != [] &&
    var before, last := run[..|run| - 1], run[|run| - 1];
    SomeCancellation(before) || last.ParentCancel? || (last.Stop? && last.stop.CallCancel? && SomeAssignment(before))
  }

  /** The shared flags are what these steps have made of them. */
  ghost predicate FlagsExplained(s: State, run: seq<Label>) {
    && (s.started <==> SomeStartSwap(run))
    && (s.stopped <==> SomeStopSwap(run))
    && (s.cancelSet <==> SomeAssignment(run))
    && (s.cancelled <==> SomeCancellation(run))
    && (FailedEarly(s.hook) <==> Hook(Reject) in run || Hook(ListenFails) in run)
  }

  /** So is what a Start call has come to. */
  ghost predicate StartExplained(s: State, run: seq<Label>, id: Id) {
    && (StartAt(s, id, Refused) <==> Start(id, Refuse) in run || SwapsLate(run, id))
    && (id in s.starts && GaveUp(s.starts[id]) <==> LastAttemptFailed(run, id))
    && (id in s.starts && s.starts[id].Completed? <==> Start(id, CloseDone) in run)
  }

  /** And what a Stop call has. */
  ghost predicate StopExplained(s: State, run: seq<Label>, id: Id) {
    && (StopAt(s, id, Done(NotStarted)) <==> StopsInVain(run, id))
    && (StopAt(s, id, Done(Graceful)) <==> Stop(id, SeeClosed) in run)
    && (StopAt(s, id, Done(TimedOut)) <==> Stop(id, TimeOut) in run)
  }

  /** What one more step does to these readings of a run. */
  lemma OneMoreLabel(run: seq<Label>, l: Label, id: Id)
    ensures SomeStartSwap(run + [l]) <==> SomeStartSwap(run) || (l.Start? && l.start.SwapStarted?)
    ensures SomeStopSwap(run + [l]) <==> SomeStopSwap(run) || (l.Stop? && l.stop.SwapStopped?)
    ensures SomeAssignment(run + [l]) <==> SomeAssignment(run) || (l.Start? && l.start.AssignCancel?)
    ensures SwapsLate(run + [l], id) <==>
              SwapsLate(run, id) || (l == Start(id, SwapStarted) && SomeStartSwap(run))
    ensures StopsInVain(run + [l], id) <==>
              || StopsInVain(run, id)
              || (l == Stop(id, LoadStarted) && !SomeStartSwap(run))
              || (l == Stop(id, SwapStopped) && SomeStopSwap(run))
    ensures SomeCancellation(run + [l]) <==>
              SomeCancellation(run) || l.ParentCancel? || (l.Stop? && l.stop.CallCancel? && SomeAssignment(run))
  {
    assert (run + [l])[..|run|] == run;
    if l.Start? {
      assert l == Start(l.id, l.start) && l in run + [l];
    }
    if l.Stop? {
      assert l == Stop(l.id, l.stop) && l in run + [l];
    }
  }

  lemma StartFlags(s: State, run: seq<Label>, i: Id, m: StartMove)
    requires Inv(s) && FlagsExplained(s, run) && StartNext(s, i, m).Some?
    ensures FlagsExplained(StartNext(s, i, m).value, run + [Start(i, m)])
  {
    OneMoreLabel(run, Start(i, m), i);
    if m.LaunchHook? {
      assert s.owner == Some(i) && s.hook.Unborn?;
    }
  }

  lemma LoopFlags(s: State, run: seq<Label>, i: Id, m: LoopMove)
    requires FlagsExplained(s, run) && LoopStep(s, i, m).Some?
    ensures FlagsExplained(LoopStep(s, i, m).value, run + [Loop(i, m)])
  {
    OneMoreLabel(run, Loop(i, m), i);
  }

  lemma StopFlags(s: State, run: seq<Label>, i: Id, m: StopMove)
    requires FlagsExplained(s, run) && StopNext(s, i, m).Some?
    ensures FlagsExplained(StopNext(s, i, m).value, run + [Stop(i, m)])
  {
    OneMoreLabel(run, Stop(i, m), i);
  }

  lemma EarlyFailures(hook: HookPc, m: HookMove, cancelled: bool)
    requires HookNext(hook, m, cancelled).Some?
    ensures FailedEarly(HookNext(hook, m, cancelled).value) <==> FailedEarly(hook) || m.Reject? || m.ListenFails?
  {
  }

  lemma HookFlags(s: State, run: seq<Label>, m: HookMove)
    requires FlagsExplained(s, run) && HookStep(s, m).Some?
    ensures FlagsExplained(HookStep(s, m).value, run + [Hook(m)])
  {
    OneMoreLabel(run, Hook(m), 0);
    EarlyFailures(s.hook, m, s.cancelled);
  }

  lemma FlagsStep(s: State, run: seq<Label>, l: Label)
    requires Inv(s) && FlagsExplained(s, run) && Next(s, l).Some?
    ensures FlagsExplained(Next(s, l).value, run + [l])
  {
    match l
    case Start(i, m) => StartFlags(s, run, i, m);
    case Loop(i, m) => LoopFlags(s, run, i, m);
    case Stop(i, m) => StopFlags(s, run, i, m);
    case Hook(m) => HookFlags(s, run, m);
    case ParentCancel => OneMoreLabel(run, l, 0);
  }

  lemma StartFates(s: State, id: Id, m: StartMove)
    requires StartGoes(s, id, m).Some?
    ensures var pc := StartGoes(s, id, m).value;
            && (pc.Refused? <==> m.Refuse? || (m.SwapStarted? && s.started))
            && (pc.Completed? <==> m.CloseDone?)
            && (GaveUp(pc) <==> id in s.starts && GaveUp(s.starts[id]))
            && (id in s.starts ==> !s.starts[id].Refused? && !s.starts[id].Completed?)
  {
  }

  lemma OwnStart(s: State, run: seq<Label>, id: Id, m: StartMove)
    requires FlagsExplained(s, run) && StartExplained(s, run, id) && StartNext(s, id, m).Some?
    ensures StartExplained(StartNext(s, id, m).value, run + [Start(id, m)], id)
  {
    StartFates(s, id, m);
    OneMoreLabel(run, Start(id, m), id);
  }

  lemma OwnLoop(s: State, run: seq<Label>, id: Id, m: LoopMove)
    requires StartExplained(s, run, id) && LoopStep(s, id, m).Some?
    ensures StartExplained(LoopStep(s, id, m).value, run + [Loop(id, m)], id)
  {
    OneMoreLabel(run, Loop(id, m), id);
  }

  lemma StartStep(s: State, run: seq<Label>, l: Label, id: Id)
    requires FlagsExplained(s, run) && StartExplained(s, run, id) && Next(s, l).Some?
    ensures StartExplained(Next(s, l).value, run + [l], id)
  {
    OneMoreLabel(run, l, id);
    match l
    case Start(i, m) => if i == id { OwnStart(s, run, id, m); }
    case Loop(i, m) => if i == id { OwnLoop(s, run, id, m); }
    case Stop(i, m) =>
    case Hook(m) =>
    case ParentCancel =>
  }

  lemma OwnStop(s: State, run: seq<Label>, id: Id, m: StopMove)
    requires FlagsExplained(s, run) && StopExplained(s, run, id) && StopNext(s, id, m).Some?
    ensures StopExplained(StopNext(s, id, m).value, run + [Stop(id, m)], id)
  {
    OneMoreLabel(run, Stop(id, m), id);
  }

  lemma StopStep(s: State, run: seq<Label>, l: Label, id: Id)
    requires FlagsExplained(s, run) && StopExplained(s, run, id) && Next(s, l).Some?
    ensures StopExplained(Next(s, l).value, run + [l], id)
  {
    OneMoreLabel(run, l, id);
    match l
    case Start(i, m) =>
    case Loop(i, m) =>
    case Stop(i, m) => if i == id { OwnStop(s, run, id, m); }
    case Hook(m) =>
    case ParentCancel =>
  }

  lemma {:induction false} RunIsExplained(s: State, past: seq<Label>, run: seq<Label>, id: Id)
    requires FlagsExplained(s, past) && StartExplained(s, past, id) && StopExplained(s, past, id)
    requires Inv(s) && Runs(s, run)
    ensures var t := After(s, run);
            FlagsExplained(t, past + run) && StartExplained(t, past + run, id) && StopExplained(t, past + run, id)
    decreases run
  {
    if run == [] {
      assert past + run == past;
    } else {
      StepKeepsInv(s, run[0]);
      FlagsStep(s, past, run[0]);
      StartStep(s, past, run[0], id);
      StopStep(s, past, run[0], id);
      RunIsExplained(Next(s, run[0]).value, past + [run[0]], run[1..], id);
      assert past + [run[0]] + run[1..] == past + run;
    }
  }

  /**
   In every interleaving a Start that completes returns the max-retries error if and only if its
   own last allowed attempt failed; it is refused if and only if it was refused up front or
   came to its swap late. A Stop returns that nothing was started if and only if it looked before
   any Start's swap or came late to its own. The context is cancelled only by its owner or by a
   Stop that found the cancel function.
   */
  lemma EveryResultExplained(run: seq<Label>, id: Id)
    requires Runs(INIT, run)
    ensures var s := After(INIT, run);
            && FlagsExplained(s, run) && StartExplained(s, run, id) && StopExplained(s, run, id)
            && (StartAt(s, id, Completed(true)) <==> Start(id, CloseDone) in run && LastAttemptFailed(run, id))
            && (StartAt(s, id, Completed(false)) <==> Start(id, CloseDone) in run && !LastAttemptFailed(run, id))
  {
    RunIsExplained(INIT, [], run, id);
    assert [] + run == run;
  }

  // ---------------------------------------------------------------- progress after cancellation

  /** Steps of the winning Start, its loop and the webhook goroutine. */
  predicate Core(l: Label) {
    l.Loop? || l.Hook? || (l.Start? && !l.start.Enter? && !l.start.Refuse? && !l.start.SwapStarted?)
  }

  function StartRank(pc: StartPc): nat {
    match pc
    case Completed(_) => 0
    case HookJoined(_) => 1
    case LoopReturned(_) => 2
    case InLoop(at) => (match at case AtHead => 3 case Waiting => 3 case Sleeping => 4 case Launching => 5)
    case HasContext => 4
    case _ => 6
  }

  function HookRank(hook: HookPc): nat {
    match hook
    case Delivered(_) => 0
    case Returned(_) => 1
    case ShuttingDown => 2
    case Serving => 3
    case Listening => 4
    case Validating => 5
    case Unborn => 6
  }

  function Rank(s: State): nat {
    StartRank(Winner(s)) + HookRank(s.hook)
  }

  lemma CoreStepDescends(s: State, l: Label)
    requires Inv(s) && s.cancelled && Next(s, l).Some? && Core(l)
    ensures Rank(Next(s, l).value) < Rank(s)
    ensures Next(s, l).value.cancelled
  {
    if !l.Hook? {
      assert s.owner == Some(l.id);
    }
  }

  lemma OtherStepKeepsRank(s: State, l: Label)
    requires Inv(s) && s.cancelled && Next(s, l).Some? && !Core(l)
    ensures Rank(Next(s, l).value) == Rank(s)
    ensures Next(s, l).value.cancelled
  {
  }

  function CoreSteps(run: seq<Label>): nat {
    if run == [] then 0 else (if Core(run[0]) then 1 else 0) + CoreSteps(run[1..])
  }

  /** A core step that lets things go well: the webhook server does not fail early. */
  function Helpful(s: State): Label
    requires s.owner.Some?
  {
    var id := s.owner.value;
    match Winner(s)
    case HasContext => Start(id, LaunchHook)
    case InLoop(at) =>
      (match at
       case AtHead => Loop(id, SeeDone)
       case Waiting => Loop(id, SeeDone)
       case Sleeping => Loop(id, SeeDone)
       case Launching => Loop(id, Launched))
    case HookJoined(_) => Start(id, CloseDone)
    case _ =>
      match s.hook
      case Validating => Hook(Claim)
      case Listening => Hook(Listens)
      case Serving => Hook(ContextDone)
      case ShuttingDown => Hook(ShutDown)
      case Returned(_) => Hook(Deliver)
      case _ => Start(id, JoinHook)
  }

  /** Once the context is cancelled, some core step is enabled until the done channel is closed. */
  lemma NeverStuck(s: State)
    requires Inv(s) && s.cancelled
    ensures s.owner.Some?
    ensures s.closes == 0 ==> Core(Helpful(s)) && Next(s, Helpful(s)).Some?
    ensures s.closes == 1 <==> Winner(s).Completed?
    ensures s.closes == 0 ==> Rank(s) > 0
  {
  }

  /**
   After cancellation every run makes at most Rank core steps, and where a run has no core
   step left to make, the done channel is closed. So if the core goroutines keep being
   scheduled, and the child and the webhook server react to cancellation, Stop's wait ends.
   */
  lemma {:induction false} CancelledRunDrains(s: State, run: seq<Label>)
    requires Inv(s) && s.cancelled && Runs(s, run)
    ensures CoreSteps(run) + Rank(After(s, run)) <= Rank(s) <= 11
    ensures (forall l :: Core(l) ==> Next(After(s, run), l).None?) ==> After(s, run).closes == 1
    decreases run
  {
    if run == [] {
      NeverStuck(s);
    } else {
      StepKeepsInv(s, run[0]);
      if Core(run[0]) {
        CoreStepDescends(s, run[0]);
      } else {
        OtherStepKeepsRank(s, run[0]);
      }
      CancelledRunDrains(Next(s, run[0]).value, run[1..]);
    }
  }

  // ---------------------------------------------------------------- the window in Start

  /** Neither does the caller of Start cancel its context nor does the webhook server fail early. */
  predicate Quiet(l: Label) {
    l != ParentCancel && l != Hook(Reject) && l != Hook(ListenFails)
  }

  predicate AllQuiet(run: seq<Label>) {
    forall i :: 0 <= i < |run| ==> Quiet(run[i])
  }

  predicate Cancelling(l: Label) {
    l.ParentCancel? || (l.Stop? && l.stop.CallCancel?)
  }

  /** No step cancels the context, be it Stop's or the caller's. */
  predicate NoneCancels(run: seq<Label>) {
    forall i :: 0 <= i < |run| ==> !Cancelling(run[i])
  }

  predicate FailedEarly(hook: HookPc) {
    hook == Returned(true) || hook == Delivered(true)
  }

  /** The one Stop call that could cancel has gone past its nil check without cancelling. */
  ghost predicate Missed(s: State) {
    Inv(s) && s.stopped && !StopWinner(s).WonStop? && !s.cancelled && !FailedEarly(s.hook)
  }

  lemma MissedStaysMissed(s: State, l: Label)
    requires Missed(s) && Next(s, l).Some? && Quiet(l)
    ensures Missed(Next(s, l).value)
  {
    StepKeepsInv(s, l);
    match l
    case Start(id, m) =>
    case Loop(id, m) =>
    case Stop(id, m) => StopStaysMissed(s, id, m);
    case Hook(m) =>
  }

  lemma StopStaysMissed(s: State, id: Id, m: StopMove)
    requires Missed(s) && StopNext(s, id, m).Some?
    ensures var t := StopNext(s, id, m).value;
            t.stopped && !StopWinner(t).WonStop? && !t.cancelled
  {
  }

  /** From there on the done channel stays open and Stop can only time out. */
  lemma {:induction false} MissedCancelNeverCloses(s: State, run: seq<Label>)
    requires Missed(s) && Runs(s, run) && AllQuiet(run)
    ensures Missed(After(s, run)) && After(s, run).closes == 0
    ensures StopWinner(After(s, run)) != Done(Graceful)
    decreases run
  {
    if run != [] {
      MissedStaysMissed(s, run[0]);
      MissedCancelNeverCloses(Next(s, run[0]).value, run[1..]);
    }
  }

  lemma StaysGivenUp(s: State, l: Label)
    requires s.owner.Some? && s.owner.value in s.starts && GaveUp(Winner(s))
    requires Core(l) && Next(s, l).Some?
    ensures GaveUp(Winner(Next(s, l).value))
  {
    match l
    case Start(id, m) => StartStaysGivenUp(s, id, m);
    case Loop(id, m) =>
    case Hook(m) =>
  }

  lemma StartStaysGivenUp(s: State, id: Id, m: StartMove)
    requires s.owner.Some? && s.owner.value in s.starts && GaveUp(Winner(s))
    requires StartNext(s, id, m).Some? && !m.SwapStarted?
    ensures GaveUp(Winner(StartNext(s, id, m).value))
  {
  }

  lemma {:induction false} QuietRunToClose(s: State) returns (run: seq<Label>)
    requires Inv(s) && s.cancelled
    ensures Runs(s, run) && AllQuiet(run) && NoneCancels(run) && After(s, run).closes == 1
    ensures GaveUp(Winner(s)) ==> Winner(After(s, run)) == Completed(true)
    decreases Rank(s)
  {
    NeverStuck(s);
    if s.closes == 1 {
      run := [];
    } else {
      var l := Helpful(s);
      StepKeepsInv(s, l);
      CoreStepDescends(s, l);
      if GaveUp(Winner(s)) {
        StaysGivenUp(s, l);
      }
      var t := Next(s, l).value;
      var rest := QuietRunToClose(t);
      run := OneStep(s, l, After(t, rest), rest);
    }
  }

  /**
   The winning Stop takes effect exactly when it finds the cancel function set. A Stop that
   runs in the window after `started` is swapped and before `cancel` is assigned does not,
   and no later Stop can, because `stopped` is already set.
   */
  lemma StopWorksIffCancelIsSet(s: State, id: Id)
    requires Inv(s) && StopAt(s, id, WonStop) && !s.cancelled && !FailedEarly(s.hook)
    ensures var t := Next(s, Stop(id, CallCancel)).value;
            s.cancelSet <==> exists run :: Runs(t, run) && AllQuiet(run) && After(t, run).closes == 1
  {
    var t := Next(s, Stop(id, CallCancel)).value;
    StepKeepsInv(s, Stop(id, CallCancel));
    assert s.stopper == Some(id);
    if s.cancelSet {
      var run := QuietRunToClose(t);
    } else {
      assert Missed(t);
      forall run | Runs(t, run) && AllQuiet(run) ensures After(t, run).closes == 0 {
        MissedCancelNeverCloses(t, run);
      }
    }
  }

  /** The window exists: a Stop can win between the two assignments of Start. */
  lemma WindowIsReachable()
    ensures var run := [Start(0, Enter), Start(0, SwapStarted),
                        Stop(0, Arrive), Stop(0, LoadStarted), Stop(0, SwapStopped)];
            && Runs(INIT, run)
            && StopAt(After(INIT, run), 0, WonStop)
            && !After(INIT, run).cancelSet
  {
    var s1 := Next(INIT, Start(0, Enter)).value;
    var s2 := Next(s1, Start(0, SwapStarted)).value;
    var s3 := Next(s2, Stop(0, Arrive)).value;
    var s4 := Next(s3, Stop(0, LoadStarted)).value;
    var s5 := Next(s4, Stop(0, SwapStopped)).value;
    assert Runs(s5, []);
    assert Runs(s4, [Stop(0, SwapStopped)]);
    assert Runs(s3, [Stop(0, LoadStarted), Stop(0, SwapStopped)]);
    assert Runs(s2, [Stop(0, Arrive), Stop(0, LoadStarted), Stop(0, SwapStopped)]);
  }

  // ---------------------------------------------------------------- giving up

  /** The loop has given up and nothing has happened that would let Start return. */
  ghost predicate Stranded(s: State) {
    Inv(s) && Winner(s) == LoopReturned(true) && !s.cancelled && !FailedEarly(s.hook)
  }

  lemma StrandedStays(s: State, l: Label)
    requires Stranded(s) && Next(s, l).Some? && !Cancelling(l) && (s.hook == Serving || Quiet(l))
    ensures Stranded(Next(s, l).value)
    ensures s.hook == Serving ==> Next(s, l).value.hook == Serving
  {
    StepKeepsInv(s, l);
    match l
    case Start(id, m) => StrandedStart(s, id, m);
    case Loop(id, m) =>
    case Stop(id, m) =>
    case Hook(m) =>
  }

  lemma StrandedStart(s: State, id: Id, m: StartMove)
    requires Stranded(s) && StartNext(s, id, m).Some?
    ensures Winner(StartNext(s, id, m).value) == LoopReturned(true) && !m.LaunchHook?
  {
    assert s.hook != Delivered(false) && s.slot == 0;
  }

  /**
   When the loop has given up, Start does not return the error: it stays where it is in every
   run in which nobody cancels and the webhook server, if it is not serving yet, does not fail.
   */
  lemma {:induction false} GivenUpStartWaits(s: State, run: seq<Label>)
    requires Stranded(s) && Runs(s, run) && NoneCancels(run) && (s.hook == Serving || AllQuiet(run))
    ensures Stranded(After(s, run)) && After(s, run).closes == 0
    decreases run
  {
    if run != [] {
      StrandedStays(s, run[0]);
      GivenUpStartWaits(Next(s, run[0]).value, run[1..]);
    }
  }

  /** Once the webhook's result is in the channel, Start needs nobody else to return. */
  lemma ReceivesAndReturns(s: State) returns (run: seq<Label>)
    requires s.owner.Some? && Winner(s) == LoopReturned(true) && s.slot > 0
    ensures Runs(s, run) && AllQuiet(run) && NoneCancels(run) && Winner(After(s, run)) == Completed(true)
  {
    var id := s.owner.value;
    var t := Next(s, Start(id, JoinHook)).value;
    var u := Next(t, Start(id, CloseDone)).value;
    run := OneStep(t, Start(id, CloseDone), u, []);
    run := OneStep(s, Start(id, JoinHook), u, run);
  }

  lemma FailedHookRunToClose(s: State) returns (run: seq<Label>)
    requires Inv(s) && Winner(s) == LoopReturned(true) && FailedEarly(s.hook)
    ensures Runs(s, run) && AllQuiet(run) && NoneCancels(run) && Winner(After(s, run)) == Completed(true)
  {
    if s.hook.Returned? {
      var t := Next(s, Hook(Deliver)).value;
      run := ReceivesAndReturns(t);
      run := OneStep(s, Hook(Deliver), After(t, run), run);
    } else {
      run := ReceivesAndReturns(s);
    }
  }

  /**
   "After this many failures, Start returns an error", exactly: once the loop has given up,
   Start can return without anybody cancelling and without a webhook failure still to come if
   and only if the context is cancelled or the webhook server has failed already.
   */
  lemma GivenUpStartReturnsExactly(s: State)
    requires Inv(s) && Winner(s) == LoopReturned(true)
    ensures (exists run :: && Runs(s, run) && AllQuiet(run) && NoneCancels(run)
                           && Winner(After(s, run)) == Completed(true))
       <==> s.cancelled || FailedEarly(s.hook)
  {
    if s.cancelled {
      var run := QuietRunToClose(s);
    } else if FailedEarly(s.hook) {
      var run := FailedHookRunToClose(s);
    } else {
      forall run | Runs(s, run) && AllQuiet(run) && NoneCancels(run)
        ensures !Winner(After(s, run)).Completed?
      {
        GivenUpStartWaits(s, run);
      }
    }
  }

  /** Such a state is reached when the only allowed attempt fails. */
  lemma GivingUpIsReachable()
    ensures exists run :: Runs(INIT, run)
                          && Winner(After(INIT, run)) == LoopReturned(true)
                          && After(INIT, run).hook == Serving && !After(INIT, run).cancelled
  {
    var s1 := Next(INIT, Start(0, Enter)).value;
    var s2 := Next(s1, Start(0, SwapStarted)).value;
    var s3 := Next(s2, Start(0, AssignCancel)).value;
    var s4 := Next(s3, Start(0, LaunchHook)).value;
    var s5 := Next(s4, Hook(Claim)).value;
    var s6 := Next(s5, Hook(Listens)).value;
    var s7 := Next(s6, Loop(0, Launch)).value;
    var s8 := Next(s7, Loop(0, LaunchFailsLast)).value;
    var r := OneStep(s7, Loop(0, LaunchFailsLast), s8, []);
    r := OneStep(s6, Loop(0, Launch), s8, r);
    r := OneStep(s5, Hook(Listens), s8, r);
    r := OneStep(s4, Hook(Claim), s8, r);
    r := OneStep(s3, Start(0, LaunchHook), s8, r);
    r := OneStep(s2, Start(0, AssignCancel), s8, r);
    r := OneStep(s1, Start(0, SwapStarted), s8, r);
    r := OneStep(INIT, Start(0, Enter), s8, r);
  }

  lemma OneStep(s: State, l: Label, end: State, rest: seq<Label>) returns (run: seq<Label>)
    requires Next(s, l).Some? && Runs(Next(s, l).value, rest) && After(Next(s, l).value, rest) == end
    ensures run == [l] + rest && Runs(s, run) && After(s, run) == end
  {
    run := [l] + rest;
    assert run[1..] == rest;
  }
}
