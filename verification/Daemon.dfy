/**
 cloudtapd's shutdown protocol: two server goroutines, the HTTP server's listening helper,
 the goroutine that closes the error channel, and main, as atomic steps on shared state.
 A label names one step together with the environment's choice in it.
 */
module Daemon {
  import opened Wrappers

  /** Errors are compared by identity only. */
  type Err = nat

  /** What ListenAndServe gave the helper goroutine; Stopped stands for ErrServerClosed. */
  datatype HelperResult = Nil | Stopped | Broken(err: Err)

  datatype HttpPc =
    | HttpSelect            // waiting for the context or the helper
    | HttpShutdown          // in server.Shutdown
    | HttpAwait             // receiving the helper's result after a clean shutdown
    | HttpReport(err: Err)  // sending on the error channel
    | HttpLeave             // about to call wg.Done
    | HttpGone

  datatype GrpcPc = GrpcServe | GrpcReport(err: Err) | GrpcLeave | GrpcGone

  datatype CloserPc = CloserWaits | CloserCloses | CloserGone

  datatype MainPc = MainSelect | MainStop | MainDrain | MainEnded

  /** What a server goroutine's run function returned. */
  datatype Outcome = Pending | Fine | Failed(err: Err)

  /** The server error channel, of capacity two. */
  datatype Chan = Chan(
    queue: seq<Err>,
    received: seq<Err>)            // history

  /** Every send so far, in order. */
  function Sent(c: Chan): seq<Err> {
    c.received + c.queue
  }

  predicate HasRoom(c: Chan) {
    |c.queue| < 2
  }

  function Send(c: Chan, e: Err): Chan {
    c.(queue := c.queue + [e])
  }

  function Receive(c: Chan): Chan
    requires c.queue != []
  {
    Chan(c.queue[1..], c.received + [c.queue[0]])
  }

  datatype State = State(
    cancelled: bool,
    http: HttpPc,
    helper: Option<HelperResult>,  // what the helper goroutine sent, once it has
    errCh: Option<HelperResult>,   // the helper's channel, capacity one
    grpc: GrpcPc,
    chan: Chan,
    closed: bool,
    wg: nat,
    closer: CloserPc,
    main: MainPc,
    fatal: Option<Err>,
    httpOutcome: Outcome,          // history
    grpcOutcome: Outcome)          // history

  const INIT := State(false, HttpSelect, None, None, GrpcServe, Chan([], []), false, 2, CloserWaits,
                      MainSelect, None, Pending, Pending)

  datatype HttpMove = SeesDone | ShutDown(failure: Option<Err>) | Receives | HttpSends | HttpLeaves

  datatype GrpcMove = Returns(failure: Option<Err>) | GrpcSends | GrpcLeaves

  datatype CloserMove = Wakes | Closes

  datatype MainMove = MainSeesDone | TakesFirst | SeesClosed | Cancels | Drains | Finishes

  datatype Label =
    | Signal
    | Helper(result: HelperResult)
    | Http(http: HttpMove)
    | Grpc(grpc: GrpcMove)
    | Closer(closer: CloserMove)
    | Main(main: MainMove)

  function HelperNext(s: State, result: HelperResult): Option<State> {
    if s.helper.None? && s.errCh.None? then Some(s.(helper := Some(result), errCh := Some(result))) else None
  }

  function HttpReturn(s: State, failure: Option<Err>): State {
    match failure
    case None => s.(http := HttpLeave, httpOutcome := Fine)
    case Some(e) => s.(http := HttpReport(e), httpOutcome := Failed(e))
  }

  function HttpNext(s: State, m: HttpMove): Option<State> {
    match m
    case SeesDone =>
      if s.http.HttpSelect? && s.cancelled then Some(s.(http := HttpShutdown)) else None
    case ShutDown(failure) =>
      if !s.http.HttpShutdown? then None
      else if failure.Some? then Some(HttpReturn(s, failure))
      else Some(s.(http := HttpAwait))
    case Receives =>
      if (s.http.HttpSelect? || s.http.HttpAwait?) && s.errCh.Some?
      then Some(HttpReturn(s.(errCh := None), if s.errCh.value.Broken? then Some(s.errCh.value.err) else None))
      else None
    case HttpSends =>
      if s.http.HttpReport? && HasRoom(s.chan) && !s.closed
      then Some(s.(http := HttpLeave, chan := Send(s.chan, s.http.err))) else None
    case HttpLeaves =>
      if s.http.HttpLeave? && s.wg > 0 then Some(s.(http := HttpGone, wg := s.wg - 1)) else None
  }

  function GrpcNext(s: State, m: GrpcMove): Option<State> {
    match m
    case Returns(failure) =>
      if !s.grpc.GrpcServe? then None
      else (match failure
            case None => Some(s.(grpc := GrpcLeave, grpcOutcome := Fine))
            case Some(e) => Some(s.(grpc := GrpcReport(e), grpcOutcome := Failed(e))))
    case GrpcSends =>
      if s.grpc.GrpcReport? && HasRoom(s.chan) && !s.closed
      then Some(s.(grpc := GrpcLeave, chan := Send(s.chan, s.grpc.err))) else None
    case GrpcLeaves =>
      if s.grpc.GrpcLeave? && s.wg > 0 then Some(s.(grpc := GrpcGone, wg := s.wg - 1)) else None
  }

  function CloserNext(s: State, m: CloserMove): Option<State> {
    match m
    case Wakes =>
      if s.closer.CloserWaits? && s.wg == 0 then Some(s.(closer := CloserCloses)) else None
    case Closes =>
      if s.closer.CloserCloses? && !s.closed then Some(s.(closer := CloserGone, closed := true)) else None
  }

  function MainNext(s: State, m: MainMove): Option<State> {
    match m
    case MainSeesDone =>
      if s.main.MainSelect? && s.cancelled then Some(s.(main := MainStop)) else None
    case TakesFirst =>
      if s.main.MainSelect? && s.chan.queue != []
      then Some(s.(main := MainStop, fatal := Some(s.chan.queue[0]), chan := Receive(s.chan))) else None
    case SeesClosed =>
      if s.main.MainSelect? && s.chan.queue == [] && s.closed then Some(s.(main := MainStop)) else None
    case Cancels =>
      if s.main.MainStop? then Some(s.(main := MainDrain, cancelled := true)) else None
    case Drains =>
      if s.main.MainDrain? && s.chan.queue != []
      then Some(s.(fatal := if s.fatal.None? then Some(s.chan.queue[0]) else s.fatal,
                   chan := Receive(s.chan))) else None
    case Finishes =>
      if s.main.MainDrain? && s.chan.queue == [] && s.closed then Some(s.(main := MainEnded)) else None
  }

  /** One atomic step; None when it is not enabled. */
  function Next(s: State, l: Label): Option<State> {
    match l
    case Signal => Some(s.(cancelled := true))
    case Helper(result) => HelperNext(s, result)
    case Http(m) => HttpNext(s, m)
    case Grpc(m) => GrpcNext(s, m)
    case Closer(m) => CloserNext(s, m)
    case Main(m) => MainNext(s, m)
  }

  predicate Runs(s: State, run: seq<Label>)
    decreases run
  {
    run == [] || (Next(s, run[0]).Some? && Runs(Next(s, run[0]).value, run[1..]))
  }

  function After(s: State, run: seq<Label>): State
    requires Runs(s, run)
    decreases run
  {
    if run == [] then s else After(Next(s, run[0]).value, run[1..])
  }

  // ---------------------------------------------------------------- safety

  predicate HttpRunning(s: State) {
    s.http.HttpSelect? || s.http.HttpShutdown? || s.http.HttpAwait?
  }

  /** The error a server goroutine returned and has sent. */
  function HttpReported(s: State): Option<Err> {
    if s.httpOutcome.Failed? && !s.http.HttpReport? then Some(s.httpOutcome.err) else None
  }

  function GrpcReported(s: State): Option<Err> {
    if s.grpcOutcome.Failed? && !s.grpc.GrpcReport? then Some(s.grpcOutcome.err) else None
  }

  /** The sends are these errors, in one order or the other. */
  predicate Carries(sent: seq<Err>, http: Option<Err>, grpc: Option<Err>) {
    match (http, grpc)
    case (None, None) => sent == []
    case (Some(h), None) => sent == [h]
    case (None, Some(g)) => sent == [g]
    case (Some(h), Some(g)) => sent == [h, g] || sent == [g, h]
  }

  predicate First(fatal: Option<Err>, received: seq<Err>) {
    fatal == if received == [] then None else Some(received[0])
  }

  predicate Servers(s: State) {
    && (s.httpOutcome.Pending? <==> HttpRunning(s))
    && (s.grpcOutcome.Pending? <==> s.grpc.GrpcServe?)
    && (s.http.HttpReport? ==> s.httpOutcome == Failed(s.http.err))
    && (s.grpc.GrpcReport? ==> s.grpcOutcome == Failed(s.grpc.err))
    && s.wg == (if s.http.HttpGone? then 0 else 1) + (if s.grpc.GrpcGone? then 0 else 1)
    && (!s.closer.CloserWaits? ==> s.wg == 0)
    && (s.closed <==> s.closer.CloserGone?)
    && (s.errCh.Some? ==> s.errCh == s.helper)
    && (HttpRunning(s) ==> s.errCh == s.helper)
    && (s.httpOutcome.Fine? ==> s.helper.Some? && !s.helper.value.Broken?)
  }

  predicate Channel(s: State) {
    && Carries(Sent(s.chan), HttpReported(s), GrpcReported(s))
    && First(s.fatal, s.chan.received)
    && (s.main.MainSelect? ==> s.chan.received == [])
    && (s.main.MainDrain? || s.main.MainEnded? ==> s.cancelled)
    && (s.main.MainEnded? ==> s.closed && s.chan.queue == [])
  }

  predicate Inv(s: State) {
    Servers(s) && Channel(s)
  }

  lemma ReceiveKeepsSent(c: Chan, fatal: Option<Err>)
    requires c.queue != [] && First(fatal, c.received)
    ensures Sent(Receive(c)) == Sent(c) && |Receive(c).queue| == |c.queue| - 1
    ensures First(if fatal.None? then Some(c.queue[0]) else fatal, Receive(c).received)
    ensures Receive(c).received != []
  {
  }

  lemma SendCarries(c: Chan, e: Err, http: Option<Err>, grpc: Option<Err>)
    ensures Carries(Sent(c), None, grpc) && http == Some(e) ==> Carries(Sent(Send(c, e)), http, grpc)
    ensures Carries(Sent(c), http, None) && grpc == Some(e) ==> Carries(Sent(Send(c, e)), http, grpc)
    ensures |Send(c, e).queue| == |c.queue| + 1
  {
    assert Sent(Send(c, e)) == Sent(c) + [e];
  }

  lemma QueueLength(s: State)
    requires Inv(s)
    ensures |s.chan.queue| <= |Sent(s.chan)| <= 2
    ensures s.http.HttpReport? || s.grpc.GrpcReport? ==> HasRoom(s.chan) && !s.closed
    ensures Sent(s.chan) == [] <==> HttpReported(s).None? && GrpcReported(s).None?
  {
  }

  lemma HelperKeepsInv(s: State, result: HelperResult)
    requires Inv(s) && HelperNext(s, result).Some?
    ensures Inv(HelperNext(s, result).value)
  {
  }

  lemma HttpKeepsInv(s: State, m: HttpMove)
    requires Inv(s) && HttpNext(s, m).Some? && (m.SeesDone? || m.HttpLeaves?)
    ensures Inv(HttpNext(s, m).value)
  {
    var t := HttpNext(s, m).value;
    assert HttpReported(t) == HttpReported(s) && t.chan == s.chan;
  }

  lemma HttpReturnKeepsInv(s: State, m: HttpMove)
    requires Inv(s) && HttpNext(s, m).Some? && (m.ShutDown? || m.Receives?)
    ensures Inv(HttpNext(s, m).value)
  {
    var t := HttpNext(s, m).value;
    assert HttpReported(t) == HttpReported(s) == None && t.chan == s.chan;
    assert Channel(t);
  }

  lemma HttpSendKeepsInv(s: State, m: HttpMove)
    requires Inv(s) && HttpNext(s, m).Some? && m.HttpSends?
    ensures Inv(HttpNext(s, m).value)
  {
    SendCarries(s.chan, s.http.err, Some(s.http.err), GrpcReported(s));
  }

  lemma GrpcKeepsInv(s: State, m: GrpcMove)
    requires Inv(s) && GrpcNext(s, m).Some? && m.GrpcLeaves?
    ensures Inv(GrpcNext(s, m).value)
  {
    var t := GrpcNext(s, m).value;
    assert GrpcReported(t) == GrpcReported(s) && t.chan == s.chan;
  }

  lemma GrpcReturnKeepsInv(s: State, m: GrpcMove)
    requires Inv(s) && GrpcNext(s, m).Some? && m.Returns?
    ensures Inv(GrpcNext(s, m).value)
  {
    var t := GrpcNext(s, m).value;
    assert GrpcReported(t) == GrpcReported(s) == None && t.chan == s.chan;
    assert Channel(t);
  }

  lemma GrpcSendKeepsInv(s: State, m: GrpcMove)
    requires Inv(s) && GrpcNext(s, m).Some? && m.GrpcSends?
    ensures Inv(GrpcNext(s, m).value)
  {
    SendCarries(s.chan, s.grpc.err, HttpReported(s), Some(s.grpc.err));
  }

  lemma CloserKeepsInv(s: State, m: CloserMove)
    requires Inv(s) && CloserNext(s, m).Some?
    ensures Inv(CloserNext(s, m).value)
  {
  }

  lemma MainKeepsInv(s: State, m: MainMove)
    requires Inv(s) && MainNext(s, m).Some?
    ensures Inv(MainNext(s, m).value)
  {
    var t := MainNext(s, m).value;
    if s.chan.queue != [] {
      ReceiveKeepsSent(s.chan, s.fatal);
    }
    assert Sent(t.chan) == Sent(s.chan);
    assert Servers(t);
    match m
    case MainSeesDone =>
    case TakesFirst =>
    case SeesClosed =>
    case Cancels =>
    case Drains =>
    case Finishes =>
  }

  lemma StepKeepsInv(s: State, l: Label)
    requires Inv(s) && Next(s, l).Some?
    ensures Inv(Next(s, l).value)
  {
    match l
    case Signal =>
    case Helper(result) => HelperKeepsInv(s, result);
    case Http(m) =>
      if m.HttpSends? {
        HttpSendKeepsInv(s, m);
      } else if m.SeesDone? || m.HttpLeaves? {
        HttpKeepsInv(s, m);
      } else {
        HttpReturnKeepsInv(s, m);
      }
    case Grpc(m) =>
      if m.GrpcSends? {
        GrpcSendKeepsInv(s, m);
      } else if m.Returns? {
        GrpcReturnKeepsInv(s, m);
      } else {
        GrpcKeepsInv(s, m);
      }
    case Closer(m) => CloserKeepsInv(s, m);
    case Main(m) => MainKeepsInv(s, m);
  }

  lemma {:induction false} RunKeepsInv(s: State, run: seq<Label>)
    requires Inv(s) && Runs(s, run)
    ensures Inv(After(s, run))
    decreases run
  {
    if run != [] {
      StepKeepsInv(s, run[0]);
      RunKeepsInv(Next(s, run[0]).value, run[1..]);
    }
  }

  /** What holds at every point of every interleaving. */
  ghost predicate Safe(s: State) {
    // A pending send finds the channel open and with room.
    && (s.http.HttpReport? ==> Next(s, Http(HttpSends)).Some?)
    && (s.grpc.GrpcReport? ==> Next(s, Grpc(GrpcSends)).Some?)
    // So does the helper's one send.
    && (s.helper.None? ==> forall r :: Next(s, Helper(r)).Some?)
    // The HTTP server returns without an error only after its listener has ended without one.
    && (s.httpOutcome.Fine? ==> s.helper.Some? && !s.helper.value.Broken?)
    // wg.Done never takes the counter below zero, and the channel is closed once.
    && (s.http.HttpLeave? || s.grpc.GrpcLeave? ==> s.wg > 0)
    && (s.closer.CloserCloses? ==> !s.closed)
    // Main ends after both servers have returned, with an error exactly if one of them
    // returned one, namely the first that was sent.
    && (s.main.MainEnded? ==>
          && !s.httpOutcome.Pending? && !s.grpcOutcome.Pending?
          && (s.fatal.Some? <==> s.httpOutcome.Failed? || s.grpcOutcome.Failed?)
          && First(s.fatal, Sent(s.chan))
          && Carries(Sent(s.chan), HttpReported(s), GrpcReported(s)))
  }

  lemma InvIsSafe(s: State)
    requires Inv(s)
    ensures Safe(s)
  {
    QueueLength(s);
    if s.main.MainEnded? {
        assert Sent(s.chan) == s.chan.received;
    }
  }

  // ---------------------------------------------------------------- errors, by the steps of the run

  /** The gRPC server was given this error to return. */
  predicate GrpcError(run: seq<Label>, e: Err) {
    Grpc(Returns(Some(e))) in run
  }

  /** The HTTP server's shutdown failed with this error, or its listener's breaking with it was received. */
  predicate HttpError(run: seq<Label>, e: Err) {
    Http(ShutDown(Some(e))) in run || (Http(Receives) in run && Helper(Broken(e)) in run)
  }

  predicate IsSend(l: Label) {
    l == Http(HttpSends) || l == Grpc(GrpcSends)
  }

  /** Which server was the first to send on the error channel. */
  function FirstSend(run: seq<Label>): Option<Label> {
    if run == [] then None
    else
      var before := FirstSend(run[..|run| - 1]);
      if before.None? && IsSend(run[|run| - 1]) then Some(run[|run| - 1]) else before
  }

  /** The HTTP server has returned this error exactly if it was given it, and no error if it was given none. */
  ghost predicate HttpExplained(s: State, run: seq<Label>, e: Err) {
    && (Http(Receives) in run ==> s.helper.Some?)
    && (s.helper == Some(Nil) <==> Helper(Nil) in run)
    && (s.helper == Some(Stopped) <==> Helper(Stopped) in run)
    && (s.helper == Some(Broken(e)) <==> Helper(Broken(e)) in run)
    && (s.httpOutcome == Failed(e) <==> HttpError(run, e))
    && (s.httpOutcome == Fine <==> Http(Receives) in run && (Helper(Nil) in run || Helper(Stopped) in run))
  }

  ghost predicate GrpcExplained(s: State, run: seq<Label>, e: Err) {
    && (s.grpcOutcome == Failed(e) <==> GrpcError(run, e))
    && (s.grpcOutcome == Fine <==> Grpc(Returns(None)) in run)
  }

  /** The first error sent is that of the server that sent first. */
  ghost predicate SendsExplained(s: State, run: seq<Label>) {
    match FirstSend(run)
    case None => Sent(s.chan) == []
    case Some(l) =>
      && Sent(s.chan) != []
      && (l == Http(HttpSends) ==> s.httpOutcome == Failed(Sent(s.chan)[0]))
      && (l == Grpc(GrpcSends) ==> s.grpcOutcome == Failed(Sent(s.chan)[0]))
      && IsSend(l)
  }

  /** Nothing is shut down without a signal or the return of a server. */
  ghost predicate HasReason(s: State, run: seq<Label>) {
    s.cancelled || !s.main.MainSelect? || s.http.HttpShutdown? || s.http.HttpAwait? ==>
      Signal in run || !s.httpOutcome.Pending? || !s.grpcOutcome.Pending?
  }

  ghost predicate Explained(s: State, run: seq<Label>, e: Err) {
    HttpExplained(s, run, e) && GrpcExplained(s, run, e) && SendsExplained(s, run) && HasReason(s, run)
  }

  lemma FirstSendExtends(run: seq<Label>, l: Label)
    ensures FirstSend(run + [l]) == if FirstSend(run).None? && IsSend(l) then Some(l) else FirstSend(run)
  {
    assert (run + [l])[..|run|] == run;
  }

  lemma HttpOwn(s: State, run: seq<Label>, m: HttpMove, e: Err)
    requires Servers(s) && HttpExplained(s, run, e) && HttpNext(s, m).Some?
    ensures HttpExplained(HttpNext(s, m).value, run + [Http(m)], e)
  {
    var t := HttpNext(s, m).value;
    assert t.helper == s.helper;
    assert s.httpOutcome.Pending? || t.httpOutcome == s.httpOutcome;
  }

  lemma HttpStep(s: State, run: seq<Label>, l: Label, e: Err)
    requires Servers(s) && HttpExplained(s, run, e) && Next(s, l).Some?
    ensures HttpExplained(Next(s, l).value, run + [l], e)
  {
    match l
    case Signal =>
    case Helper(r) => assert HelperNext(s, r).Some?;
    case Http(m) => HttpOwn(s, run, m, e);
    case Grpc(m) => assert GrpcNext(s, m).Some?;
    case Closer(m) => assert CloserNext(s, m).Some?;
    case Main(m) => assert MainNext(s, m).Some?;
  }

  lemma GrpcOwn(s: State, run: seq<Label>, m: GrpcMove, e: Err)
    requires Servers(s) && GrpcExplained(s, run, e) && GrpcNext(s, m).Some?
    ensures GrpcExplained(GrpcNext(s, m).value, run + [Grpc(m)], e)
  {
  }

  lemma GrpcStep(s: State, run: seq<Label>, l: Label, e: Err)
    requires Servers(s) && GrpcExplained(s, run, e) && Next(s, l).Some?
    ensures GrpcExplained(Next(s, l).value, run + [l], e)
  {
    match l
    case Signal =>
    case Helper(r) => assert HelperNext(s, r).Some?;
    case Http(m) => assert HttpNext(s, m).Some?;
    case Grpc(m) => GrpcOwn(s, run, m, e);
    case Closer(m) => assert CloserNext(s, m).Some?;
    case Main(m) => assert MainNext(s, m).Some?;
  }

  lemma HttpSendsStep(s: State, run: seq<Label>, m: HttpMove)
    requires Servers(s) && SendsExplained(s, run) && HttpNext(s, m).Some?
    ensures SendsExplained(HttpNext(s, m).value, run + [Http(m)])
  {
    FirstSendExtends(run, Http(m));
    if m.HttpSends? {
      assert Sent(Send(s.chan, s.http.err)) == Sent(s.chan) + [s.http.err];
    }
  }

  lemma GrpcSendsStep(s: State, run: seq<Label>, m: GrpcMove)
    requires Servers(s) && SendsExplained(s, run) && GrpcNext(s, m).Some?
    ensures SendsExplained(GrpcNext(s, m).value, run + [Grpc(m)])
  {
    FirstSendExtends(run, Grpc(m));
    if m.GrpcSends? {
      assert Sent(Send(s.chan, s.grpc.err)) == Sent(s.chan) + [s.grpc.err];
    }
  }

  lemma MainSendsNothing(s: State, m: MainMove)
    requires MainNext(s, m).Some?
    ensures var t := MainNext(s, m).value;
            Sent(t.chan) == Sent(s.chan) && t.httpOutcome == s.httpOutcome && t.grpcOutcome == s.grpcOutcome
  {
    if s.chan.queue != [] {
      assert Sent(Receive(s.chan)) == Sent(s.chan);
    }
  }

  lemma SendsStep(s: State, run: seq<Label>, l: Label)
    requires Servers(s) && SendsExplained(s, run) && Next(s, l).Some?
    ensures SendsExplained(Next(s, l).value, run + [l])
  {
    FirstSendExtends(run, l);
    match l
    case Signal =>
    case Helper(r) =>
    case Http(m) => HttpSendsStep(s, run, m);
    case Grpc(m) => GrpcSendsStep(s, run, m);
    case Closer(m) =>
    case Main(m) => MainSendsNothing(s, m);
  }

  lemma ReasonStep(s: State, run: seq<Label>, l: Label)
    requires Inv(s) && HasReason(s, run) && Next(s, l).Some?
    ensures HasReason(Next(s, l).value, run + [l])
  {
    match l
    case Signal =>
    case Helper(r) =>
    case Http(m) => assert HttpNext(s, m).Some?;
    case Grpc(m) => assert GrpcNext(s, m).Some?;
    case Closer(m) =>
    case Main(m) => QueueLength(s);
  }

  lemma {:induction false} RunExplained(s: State, past: seq<Label>, run: seq<Label>, e: Err)
    requires Inv(s) && Explained(s, past, e) && Runs(s, run)
    ensures Explained(After(s, run), past + run, e)
    decreases run
  {
    if run == [] {
      assert past + run == past;
    } else {
      StepKeepsInv(s, run[0]);
      HttpStep(s, past, run[0], e);
      GrpcStep(s, past, run[0], e);
      SendsStep(s, past, run[0]);
      ReasonStep(s, past, run[0]);
      RunExplained(Next(s, run[0]).value, past + [run[0]], run[1..], e);
      assert past + [run[0]] + run[1..] == past + run;
    }
  }

  /**
   Main ends with exactly this error if and only if the server that was the first to send was
   given it; with none if and only if no server was given any.
   */
  lemma FatalIsFirstError(run: seq<Label>, e: Err)
    requires Runs(INIT, run) && After(INIT, run).main.MainEnded?
    ensures var fatal := After(INIT, run).fatal;
            && (fatal == Some(e) <==>
                  || (FirstSend(run) == Some(Http(HttpSends)) && HttpError(run, e))
                  || (FirstSend(run) == Some(Grpc(GrpcSends)) && GrpcError(run, e)))
            && (HttpError(run, e) || GrpcError(run, e) ==> fatal.Some?)
            && (fatal.Some? ==> HttpError(run, fatal.value) || GrpcError(run, fatal.value))
  {
    RunKeepsInv(INIT, run);
    var s := After(INIT, run);
    InvIsSafe(s);
    RunExplained(INIT, [], run, e);
    assert [] + run == run;
    assert Sent(s.chan) == s.chan.received;
    if s.fatal.Some? {
      RunExplained(INIT, [], run, s.fatal.value);
    }
  }

  /** Main waits on, and the HTTP server serves on, until there is a signal or a server returns. */
  lemma NoShutdownWithoutReason(run: seq<Label>)
    requires Runs(INIT, run) && Signal !in run
    ensures var s := After(INIT, run);
            s.httpOutcome.Pending? && s.grpcOutcome.Pending? ==> s.main.MainSelect? && s.http.HttpSelect?
  {
    RunKeepsInv(INIT, run);
    RunExplained(INIT, [], run, 0);
    assert [] + run == run;
  }

  // ---------------------------------------------------------------- progress

  function HttpRank(http: HttpPc): nat {
    match http
    case HttpSelect => 6
    case HttpShutdown => 5
    case HttpAwait => 4
    case HttpReport(_) => 3
    case HttpLeave => 1
    case HttpGone => 0
  }

  function GrpcRank(grpc: GrpcPc): nat {
    match grpc
    case GrpcServe => 4
    case GrpcReport(_) => 3
    case GrpcLeave => 1
    case GrpcGone => 0
  }

  function CloserRank(closer: CloserPc): nat {
    match closer
    case CloserWaits => 2
    case CloserCloses => 1
    case CloserGone => 0
  }

  function MainRank(main: MainPc): nat {
    match main
    case MainSelect => 3
    case MainStop => 2
    case MainDrain => 1
    case MainEnded => 0
  }

  /** What is left to do; a queued error is one receive. */
  function Rank(s: State): nat {
    HttpRank(s.http) + GrpcRank(s.grpc) + CloserRank(s.closer) + MainRank(s.main)
    + |s.chan.queue| + (if s.helper.Some? then 0 else 1)
  }

  lemma HttpDescends(s: State, m: HttpMove)
    requires HttpNext(s, m).Some?
    ensures Rank(HttpNext(s, m).value) < Rank(s)
  {
    var t := HttpNext(s, m).value;
    assert t.grpc == s.grpc && t.closer == s.closer && t.main == s.main && t.helper == s.helper;
  }

  lemma GrpcDescends(s: State, m: GrpcMove)
    requires GrpcNext(s, m).Some?
    ensures Rank(GrpcNext(s, m).value) < Rank(s)
  {
    var t := GrpcNext(s, m).value;
    assert t.http == s.http && t.closer == s.closer && t.main == s.main && t.helper == s.helper;
  }

  lemma MainDescends(s: State, m: MainMove)
    requires MainNext(s, m).Some?
    ensures Rank(MainNext(s, m).value) < Rank(s)
  {
    var t := MainNext(s, m).value;
    assert t.http == s.http && t.grpc == s.grpc && t.closer == s.closer && t.helper == s.helper;
  }

  /** Every step but a signal leaves less to do. */
  lemma StepDescends(s: State, l: Label)
    requires Next(s, l).Some?
    ensures !l.Signal? ==> Rank(Next(s, l).value) < Rank(s)
    ensures l.Signal? ==> Rank(Next(s, l).value) == Rank(s)
  {
    match l
    case Signal =>
    case Helper(_) =>
    case Http(m) => HttpDescends(s, m);
    case Grpc(m) => GrpcDescends(s, m);
    case Closer(_) =>
    case Main(m) => MainDescends(s, m);
  }

  /** The shutdown has begun: a signal arrived, or a server returned an error or all are gone. */
  predicate Winding(s: State) {
    s.cancelled || s.httpOutcome.Failed? || s.grpcOutcome.Failed? || s.closed
  }

  /**
   Steps that will happen: those of the daemon's own goroutines, a server's return once the
   context is cancelled, and the helper's once the server has been shut down.
   */
  predicate Owed(s: State, l: Label) {
    && Next(s, l).Some?
    && !l.Signal?
    && (l.Grpc? && l.grpc.Returns? ==> s.cancelled)
    && (l.Helper? ==> s.http.HttpAwait?)
  }

  function Helpful(s: State): Label {
    if s.main.MainSelect? && s.cancelled then Main(MainSeesDone)
    else if s.main.MainSelect? && s.chan.queue != [] then Main(TakesFirst)
    else if s.main.MainSelect? && s.closed then Main(SeesClosed)
    else if s.main.MainStop? then Main(Cancels)
    else if s.http.HttpReport? then Http(HttpSends)
    else if s.grpc.GrpcReport? then Grpc(GrpcSends)
    else if s.main.MainDrain? && s.chan.queue != [] then Main(Drains)
    else if s.http.HttpSelect? then Http(SeesDone)
    else if s.http.HttpShutdown? then Http(ShutDown(None))
    else if s.http.HttpAwait? && s.helper.None? then Helper(Stopped)
    else if s.http.HttpAwait? then Http(Receives)
    else if s.http.HttpLeave? then Http(HttpLeaves)
    else if s.grpc.GrpcServe? then Grpc(Returns(None))
    else if s.grpc.GrpcLeave? then Grpc(GrpcLeaves)
    else if s.closer.CloserWaits? then Closer(Wakes)
    else if s.closer.CloserCloses? then Closer(Closes)
    else Main(Finishes)
  }

  lemma NeverStuck(s: State)
    requires Inv(s) && Winding(s) && !s.main.MainEnded?
    ensures Owed(s, Helpful(s))
  {
    QueueLength(s);
  }

  function WorkSteps(run: seq<Label>): nat {
    if run == [] then 0 else (if run[0].Signal? then 0 else 1) + WorkSteps(run[1..])
  }

  /** Each step but a signal is paid for by the rank. */
  lemma {:induction false} RunsAreBounded(s: State, run: seq<Label>)
    requires Inv(s) && Runs(s, run)
    ensures WorkSteps(run) + Rank(After(s, run)) <= Rank(s)
    decreases run
  {
    if run != [] {
      var t := Next(s, run[0]).value;
      StepKeepsInv(s, run[0]);
      StepDescends(s, run[0]);
      RunsAreBounded(t, run[1..]);
    }
  }

  /** In every interleaving the daemon is safe, and makes at most 16 steps besides signals. */
  lemma EveryRunIsSafeAndShort(run: seq<Label>)
    requires Runs(INIT, run)
    ensures Safe(After(INIT, run))
    ensures WorkSteps(run) <= 16
  {
    RunKeepsInv(INIT, run);
    InvIsSafe(After(INIT, run));
    RunsAreBounded(INIT, run);
  }

  /** Once the shutdown has begun, the daemon comes to rest only with main ended. */
  lemma ShutdownCompletes(run: seq<Label>)
    requires Runs(INIT, run) && Winding(After(INIT, run))
    ensures After(INIT, run).main.MainEnded? || exists l :: Owed(After(INIT, run), l)
  {
    RunKeepsInv(INIT, run);
    if !After(INIT, run).main.MainEnded? {
      NeverStuck(After(INIT, run));
    }
  }
}
