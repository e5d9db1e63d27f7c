/**
 The webhook server's request handlers: whom they ask, what they answer frp, and the proxies
 they track. The connection handler is any function of the event it is given.
 */
module Webhook {
  import opened Events
  import opened Tracker
  import opened Wrappers

  datatype Op = Login | NewProxy | CloseProxy | Ping | NewWorkConn | NewUserConn | Unknown

  /** A request, with what its body gives when decoded for each operation; None where decoding fails. */
  datatype PluginRequest = PluginRequest(
    op: Op,
    login: Option<LoginContent>,
    newProxy: Option<NewProxyContent>,
    closeProxy: Option<CloseProxyContent>,
    workConnOk: bool,
    userConn: Option<NewUserConnContent>,
    nonce: string)

  datatype Malformation = BadLogin | BadProxy | BadWorkConn | BadUserConn

  datatype PluginResponse = Unchanged | RejectMalformed(what: Malformation) | RejectDenied(reason: string)

  datatype Decision = Decision(allowed: bool, reason: string)

  type Handler = ConnectionEvent -> Decision

  /** What the handler decides on the event rendered from a notice; nothing if there is no handler. */
  function Decided(handler: Option<Handler>, n: Notice): Option<Decision> {
    if handler.None? then None else Some(handler.value(Render(n)))
  }

  /** The events that the handler is given for a notice. */
  function EventsOf(handler: Option<Handler>, n: Notice): seq<ConnectionEvent> {
    if handler.None? then [] else [Render(n)]
  }

  predicate Allowed(decision: Option<Decision>) {
    decision.Some? && decision.value.allowed
  }

  /** How a decision is put to frp. */
  function Verdict(decision: Option<Decision>): PluginResponse {
    if decision.Some? && !decision.value.allowed then RejectDenied(decision.value.reason) else Unchanged
  }

  /** A request together with what the connection handler decided on it, if it was asked. */
  datatype Served = Served(req: PluginRequest, decision: Option<Decision>)

  /** A well-formed NewProxy that a handler allowed. */
  ghost predicate IsAllowedProxy(s: Served) {
    s.req.op.NewProxy? && s.req.newProxy.Some? && Allowed(s.decision)
  }

  /** A well-formed CloseProxy, with or without a handler. */
  ghost predicate IsClose(s: Served) {
    s.req.op.CloseProxy? && s.req.closeProxy.Some?
  }

  /** The key that a registering or closing request is about. */
  ghost function KeyIn(s: Served): string
    requires IsAllowedProxy(s) || IsClose(s)
  {
    if IsClose(s) then KeyOf(s.req.closeProxy.value.user.runId, s.req.closeProxy.value.proxyName)
    else KeyOf(s.req.newProxy.value.user.runId, s.req.newProxy.value.proxyName)
  }

  ghost predicate Registers(s: Served, key: string) {
    IsAllowedProxy(s) && KeyIn(s) == key
  }

  ghost predicate Closes(s: Served, key: string) {
    IsClose(s) && KeyIn(s) == key
  }

  /** The latest request that concerns the key registered it. */
  ghost predicate Registered(served: seq<Served>, key: string) {
    served != [] &&
    var last := served[|served| - 1];
    if Registers(last, key) then true
    else if Closes(last, key) then false
    else Registered(served[..|served| - 1], key)
  }

  lemma RegisteredExtends(served: seq<Served>, s: Served, key: string)
    ensures Registered(served + [s], key)
         == if Registers(s, key) then true else if Closes(s, key) then false else Registered(served, key)
  {
    assert (served + [s])[..|served|] == served;
  }

  /** How often a request registered a proxy that was registered already. */
  ghost function Reregistrations(served: seq<Served>): nat {
    if served == [] then 0
    else
      var past, last := served[..|served| - 1], served[|served| - 1];
      Reregistrations(past) + if IsAllowedProxy(last) && Registered(past, KeyIn(last)) then 1 else 0
  }

  lemma {:induction false} NoReregistrations(served: seq<Served>)
    ensures Reregistrations(served) == 0 <==>
              forall i, key :: 0 <= i < |served| && Registers(served[i], key) ==> !Registered(served[..i], key)
  {
    if served != [] {
      var past, last := served[..|served| - 1], served[|served| - 1];
      NoReregistrations(past);
      assert served[..|past|] == past;
      assert forall i :: 0 <= i < |past| ==> past[i] == served[i] && past[..i] == served[..i];
      if IsAllowedProxy(last) && Registered(past, KeyIn(last)) {
        assert Registers(served[|past|], KeyIn(last));
      } else {
        assert forall key :: Registers(last, key) ==> !Registered(past, key);
      }
    }
  }

  /** The tracker steps that these requests have taken, each served to its end. */
  ghost function TraceOf(served: seq<Served>): seq<Label> {
    if served == [] then []
    else
      var past, last := served[..|served| - 1], served[|served| - 1];
      if IsAllowedProxy(last) then
        var p := last.req.newProxy.value;
        TraceOf(past) + [Store(0, p.user.runId, p.proxyName)] + [Increment(0)]
      else if IsClose(last) then
        var c := last.req.closeProxy.value;
        TraceOf(past) + [Take(0, c.user.runId, c.proxyName)]
        + if Registered(past, KeyIn(last)) then [Decrement(0)] else []
      else TraceOf(past)
  }

  /** What serving a request does to the tracked keys and adds to the tracker's steps. */
  ghost predicate Effect(s: Served, keys: set<string>, trace: seq<Label>, keys': set<string>, trace': seq<Label>) {
    if IsAllowedProxy(s) then
      var p := s.req.newProxy.value;
      && keys' == keys + {KeyIn(s)}
      && trace' == trace + [Store(0, p.user.runId, p.proxyName)] + [Increment(0)]
    else if IsClose(s) then
      var c := s.req.closeProxy.value;
      && keys' == keys - {KeyIn(s)}
      && trace' == trace + [Take(0, c.user.runId, c.proxyName)] + if KeyIn(s) in keys then [Decrement(0)] else []
    else keys' == keys && trace' == trace
  }

  lemma EffectIsServed(s: Served, served: seq<Served>, keys: set<string>, keys': set<string>, trace': seq<Label>)
    requires forall key :: key in keys <==> Registered(served, key)
    requires Effect(s, keys, TraceOf(served), keys', trace')
    ensures trace' == TraceOf(served + [s])
    ensures forall key :: key in keys' <==> Registered(served + [s], key)
  {
    assert (served + [s])[..|served|] == served;
    forall key ensures key in keys' <==> Registered(served + [s], key) {
      RegisteredExtends(served, s, key);
    }
  }

  lemma LiveExtends(run: seq<Label>, l: Label, key: string)
    ensures Live(run + [l], key) == if Mentions(l, key) then l.Store? else Live(run, key)
  {
    assert (run + [l])[..|run|] == run;
  }

  /** What the tracker holds live is what the requests have left registered. */
  lemma {:induction false} LiveIsRegistered(served: seq<Served>, key: string)
    ensures Live(TraceOf(served), key) <==> Registered(served, key)
  {
    if served != [] {
      var past, last := served[..|served| - 1], served[|served| - 1];
      LiveIsRegistered(past, key);
      var trace := TraceOf(past);
      if IsAllowedProxy(last) {
        var store := Store(0, last.req.newProxy.value.user.runId, last.req.newProxy.value.proxyName);
        LiveExtends(trace, store, key);
        LiveExtends(trace + [store], Increment(0), key);
      } else if IsClose(last) {
        var take := Take(0, last.req.closeProxy.value.user.runId, last.req.closeProxy.value.proxyName);
        LiveExtends(trace, take, key);
        LiveExtends(trace + [take], Decrement(0), key);
        assert trace + [take] + [] == trace + [take];
      }
    }
  }

  /** The tracker's overwrites are the requests that registered a live proxy again. */
  lemma {:induction false} OverwritesAreReregistrations(served: seq<Served>)
    ensures Overwrites(TraceOf(served)) == Reregistrations(served)
  {
    if served != [] {
      var past, last := served[..|served| - 1], served[|served| - 1];
      OverwritesAreReregistrations(past);
      var trace := TraceOf(past);
      if IsAllowedProxy(last) {
        var store := Store(0, last.req.newProxy.value.user.runId, last.req.newProxy.value.proxyName);
        LiveIsRegistered(past, KeyIn(last));
        OneMore(trace, store);
        OneMore(trace + [store], Increment(0));
      } else if IsClose(last) {
        var take := Take(0, last.req.closeProxy.value.user.runId, last.req.closeProxy.value.proxyName);
        OneMore(trace, take);
        OneMore(trace + [take], Decrement(0));
        assert trace + [take] + [] == trace + [take];
      }
    }
  }

  datatype ConnectionState = ConnectionState(
    connectionId: string, user: string, proxyName: string, proxyType: string)

  class WebhookServer {
    var handler: Option<Handler>
    var activeConnections: map<string, ConnectionState>
    var connectionCount: int

    ghost var asked: seq<ConnectionEvent>       // events given to the handler
    ghost var served: seq<Served>               // requests answered
    ghost var trace: seq<Label>                 // tracker steps taken

    constructor ()
      ensures Valid() && handler == None && asked == [] && served == [] && activeConnections == map[]
    {
      handler := None;
      activeConnections := map[];
      connectionCount := 0;
      asked := [];
      served := [];
      trace := [];
    }

    /** The map and the counter are what the tracker steps so far have made of them. */
    ghost predicate Tracks()
      reads this
    {
      && IsRun(trace)
      && After(trace) == State(activeConnections.Keys, connectionCount, {}, {})
    }

    /** In addition, the steps are those of the requests served, and so are the keys in the map. */
    ghost predicate Valid()
      reads this
    {
      && Tracks()
      && trace == TraceOf(served)
      && forall key :: key in activeConnections <==> Registered(served, key)
    }

    method SetHandler(h: Handler)
      requires Valid()
      modifies `handler
      ensures Valid() && handler == Some(h)
    {
      handler := Some(h);
    }

    /** The counter is above the map's size by the requests that registered a live proxy again. */
    lemma CountExplained()
      requires Valid()
      ensures connectionCount == |activeConnections| + Reregistrations(served)
    {
      Conservation(trace);
      OverwritesAreReregistrations(served);
      assert |activeConnections| == |activeConnections.Keys|;
    }

    method ActiveConnections() returns (n: int)
      requires Valid()
      ensures n == |activeConnections| + Reregistrations(served)
      ensures n == |activeConnections| <==>
                forall i, key :: 0 <= i < |served| && Registers(served[i], key) ==> !Registered(served[..i], key)
    {
      CountExplained();
      NoReregistrations(served);
      n := connectionCount;
    }

    /** Builds the event and gives it to the handler. */
    method Ask(n: Notice) returns (decision: Decision)
      requires handler.Some?
      modifies `asked
      ensures Decided(handler, n) == Some(decision) && asked == old(asked) + [Render(n)]
    {
      var event := Build(n);
      asked := asked + [event];
      decision := handler.value(event);
    }

    method HandleLogin(content: Option<LoginContent>) returns (resp: PluginResponse)
      modifies `asked
      ensures content.None? ==> resp == RejectMalformed(BadLogin) && asked == old(asked)
      ensures content.Some? ==>
                && resp == Verdict(Decided(handler, OfLogin(content.value)))
                && asked == old(asked) + EventsOf(handler, OfLogin(content.value))
    {
      if content.None? {
        return RejectMalformed(BadLogin);
      }
      if handler.None? {
        return Unchanged;
      }
      var decision := Ask(OfLogin(content.value));
      if !decision.allowed {
        return RejectDenied(decision.reason);
      }
      return Unchanged;
    }

    /** Stores the proxy and counts it. */
    method Track(proxy: NewProxyContent)
      requires Tracks()
      modifies `activeConnections, `connectionCount, `trace
      ensures Tracks()
      ensures var key := KeyOf(proxy.user.runId, proxy.proxyName);
              var state := ConnectionState(key, proxy.user.user, proxy.proxyName, proxy.proxyType);
              && activeConnections == old(activeConnections)[key := state]
              && connectionCount == old(connectionCount) + 1
              && trace == old(trace) + [Store(0, proxy.user.runId, proxy.proxyName)] + [Increment(0)]
    {
      var key := KeyOf(proxy.user.runId, proxy.proxyName);
      var state := ConnectionState(key, proxy.user.user, proxy.proxyName, proxy.proxyType);
      activeConnections := activeConnections[key := state];
      connectionCount := connectionCount + 1;
      Registration(trace, proxy.user.runId, proxy.proxyName);
      trace := trace + [Store(0, proxy.user.runId, proxy.proxyName)] + [Increment(0)];
    }

    method HandleNewProxy(content: Option<NewProxyContent>) returns (resp: PluginResponse)
      requires Tracks()
      modifies `asked, `activeConnections, `connectionCount, `trace
      ensures Tracks()
      ensures content.None? ==> resp == RejectMalformed(BadProxy) && asked == old(asked)
      ensures content.Some? ==>
                && resp == Verdict(Decided(handler, OfNewProxy(content.value)))
                && asked == old(asked) + EventsOf(handler, OfNewProxy(content.value))
      ensures if content.Some? && Allowed(Decided(handler, OfNewProxy(content.value))) then
                var p := content.value;
                var key := KeyOf(p.user.runId, p.proxyName);
                var state := ConnectionState(key, p.user.user, p.proxyName, p.proxyType);
                && activeConnections == old(activeConnections)[key := state]
                && connectionCount == old(connectionCount) + 1
                && trace == old(trace) + [Store(0, p.user.runId, p.proxyName)] + [Increment(0)]
              else
                && activeConnections == old(activeConnections)
                && connectionCount == old(connectionCount)
                && trace == old(trace)
    {
      if content.None? {
        return RejectMalformed(BadProxy);
      }
      if handler.None? {
        return Unchanged;
      }
      var decision := Ask(OfNewProxy(content.value));
      if !decision.allowed {
        return RejectDenied(decision.reason);
      }
      Track(content.value);
      return Unchanged;
    }

    method HandleCloseProxy(content: Option<CloseProxyContent>) returns (resp: PluginResponse)
      requires Tracks()
      modifies `asked, `activeConnections, `connectionCount, `trace
      ensures Tracks() && resp == Unchanged
      ensures content.None? ==>
                && asked == old(asked)
                && activeConnections == old(activeConnections)
                && connectionCount == old(connectionCount)
                && trace == old(trace)
      ensures content.Some? ==>
                var c := content.value;
                var key := KeyOf(c.user.runId, c.proxyName);
                && asked == old(asked) + EventsOf(handler, OfCloseProxy(c))
                && activeConnections == old(activeConnections) - {key}
                && connectionCount == old(connectionCount) - (if key in old(activeConnections) then 1 else 0)
                && trace == old(trace) + [Take(0, c.user.runId, c.proxyName)]
                            + if key in old(activeConnections) then [Decrement(0)] else []
    {
      if content.None? {
        return Unchanged;
      }
      var close := content.value;
      var key := KeyOf(close.user.runId, close.proxyName);
      var loaded := key in activeConnections;
      Removal(trace, close.user.runId, close.proxyName);
      trace := trace + [Take(0, close.user.runId, close.proxyName)] + if loaded then [Decrement(0)] else [];
      activeConnections := activeConnections - {key};
      if loaded {
        connectionCount := connectionCount - 1;
      }
      if handler.None? {
        return Unchanged;
      }
      var ignored := Ask(OfCloseProxy(close));
      return Unchanged;
    }

    method HandleNewUserConn(content: Option<NewUserConnContent>, nonce: string) returns (resp: PluginResponse)
      modifies `asked
      ensures content.None? ==> resp == RejectMalformed(BadUserConn) && asked == old(asked)
      ensures content.Some? ==>
                && resp == Verdict(Decided(handler, OfUserConn(content.value, nonce)))
                && asked == old(asked) + EventsOf(handler, OfUserConn(content.value, nonce))
    {
      if content.None? {
        return RejectMalformed(BadUserConn);
      }
      if handler.None? {
        return Unchanged;
      }
      var decision := Ask(OfUserConn(content.value, nonce));
      if !decision.allowed {
        return RejectDenied(decision.reason);
      }
      return Unchanged;
    }

    /** Dispatch on the operation, with what it does to the tracker. */
    method Dispatch(req: PluginRequest) returns (resp: PluginResponse)
      requires Tracks()
      modifies `asked, `activeConnections, `connectionCount, `trace
      ensures Tracks()
      ensures resp == Answer(req, DecisionOn(handler, req))
      ensures asked == old(asked) + match NoticeOf(req) case None => [] case Some(n) => EventsOf(handler, n)
      ensures var s := Served(req, DecisionOn(handler, req));
              Effect(s, old(activeConnections.Keys), old(trace), activeConnections.Keys, trace)
    {
      if req.op.Login? {
        resp := HandleLogin(req.login);
      } else if req.op.NewProxy? {
        resp := HandleNewProxy(req.newProxy);
      } else if req.op.CloseProxy? {
        resp := HandleCloseProxy(req.closeProxy);
      } else if req.op.Ping? {
        resp := Unchanged;
      } else if req.op.NewWorkConn? {
        resp := if req.workConnOk then Unchanged else RejectMalformed(BadWorkConn);
      } else if req.op.NewUserConn? {
        resp := HandleNewUserConn(req.userConn, req.nonce);
      } else {
        resp := Unchanged;
      }
    }

    /**
     Whatever is asked, afterwards a proxy is tracked exactly if the latest request about it was
     an allowed NewProxy, the counter is off by the requests that registered a live proxy again,
     and the handler has been asked about the request's event and nothing else.
     */
    method ProcessRequest(req: PluginRequest) returns (resp: PluginResponse)
      requires Valid()
      modifies `asked, `activeConnections, `connectionCount, `trace, `served
      ensures Valid()
      ensures served == old(served) + [Served(req, DecisionOn(handler, req))]
      ensures connectionCount == |activeConnections| + Reregistrations(served)
      ensures resp == Answer(req, DecisionOn(handler, req))
      ensures forall reason :: resp == RejectDenied(reason) <==>
                handler.Some? && (
                  || (req.op.Login? && req.login.Some?
                      && handler.value(LoginEvent(req.login.value)) == Decision(false, reason))
                  || (req.op.NewProxy? && req.newProxy.Some?
                      && handler.value(NewProxyEvent(req.newProxy.value)) == Decision(false, reason))
                  || (req.op.NewUserConn? && req.userConn.Some?
                      && handler.value(UserConnEvent(req.userConn.value, req.nonce)) == Decision(false, reason)))
      ensures resp == RejectMalformed(BadLogin) <==> req.op.Login? && req.login.None?
      ensures resp == RejectMalformed(BadProxy) <==> req.op.NewProxy? && req.newProxy.None?
      ensures resp == RejectMalformed(BadWorkConn) <==> req.op.NewWorkConn? && !req.workConnOk
      ensures resp == RejectMalformed(BadUserConn) <==> req.op.NewUserConn? && req.userConn.None?
      ensures asked == old(asked) + match NoticeOf(req) case None => [] case Some(n) => EventsOf(handler, n)
    {
      ghost var s := Served(req, DecisionOn(handler, req));
      ghost var keys := activeConnections.Keys;
      resp := Dispatch(req);
      AnswersAre(req, handler, resp);
      EffectIsServed(s, served, keys, activeConnections.Keys, trace);
      served := served + [s];
      CountExplained();
    }
  }

  /** The notice that a request makes for the connection handler, if its body is readable. */
  function NoticeOf(req: PluginRequest): Option<Notice> {
    if req.op.Login? && req.login.Some? then Some(OfLogin(req.login.value))
    else if req.op.NewProxy? && req.newProxy.Some? then Some(OfNewProxy(req.newProxy.value))
    else if req.op.CloseProxy? && req.closeProxy.Some? then Some(OfCloseProxy(req.closeProxy.value))
    else if req.op.NewUserConn? && req.userConn.Some? then Some(OfUserConn(req.userConn.value, req.nonce))
    else None
  }

  function DecisionOn(handler: Option<Handler>, req: PluginRequest): Option<Decision> {
    match NoticeOf(req) case None => None case Some(n) => Decided(handler, n)
  }

  /** The operations whose body must be readable. */
  function Malformed(req: PluginRequest): Option<Malformation> {
    if req.op.Login? && req.login.None? then Some(BadLogin)
    else if req.op.NewProxy? && req.newProxy.None? then Some(BadProxy)
    else if req.op.NewWorkConn? && !req.workConnOk then Some(BadWorkConn)
    else if req.op.NewUserConn? && req.userConn.None? then Some(BadUserConn)
    else None
  }

  /** A request is rejected if it is malformed or its event is not allowed; closing is never denied. */
  function Answer(req: PluginRequest, decision: Option<Decision>): PluginResponse {
    if Malformed(req).Some? then RejectMalformed(Malformed(req).value)
    else if req.op.CloseProxy? then Unchanged
    else Verdict(decision)
  }

  /** What is rejected, and how: exactly a handler's denial, with its reason, and exactly the unreadable bodies. */
  lemma AnswersAre(req: PluginRequest, handler: Option<Handler>, resp: PluginResponse)
    requires resp == Answer(req, DecisionOn(handler, req))
    ensures forall reason :: resp == RejectDenied(reason) <==>
              handler.Some? && (
                || (req.op.Login? && req.login.Some?
                    && handler.value(LoginEvent(req.login.value)) == Decision(false, reason))
                || (req.op.NewProxy? && req.newProxy.Some?
                    && handler.value(NewProxyEvent(req.newProxy.value)) == Decision(false, reason))
                || (req.op.NewUserConn? && req.userConn.Some?
                    && handler.value(UserConnEvent(req.userConn.value, req.nonce)) == Decision(false, reason)))
    ensures resp == RejectMalformed(BadLogin) <==> req.op.Login? && req.login.None?
    ensures resp == RejectMalformed(BadProxy) <==> req.op.NewProxy? && req.newProxy.None?
    ensures resp == RejectMalformed(BadWorkConn) <==> req.op.NewWorkConn? && !req.workConnOk
    ensures resp == RejectMalformed(BadUserConn) <==> req.op.NewUserConn? && req.userConn.None?
  {
  }

  /** The events that a request gives the handler, operation by operation. */
  lemma EventsAre(req: PluginRequest, handler: Option<Handler>, events: seq<ConnectionEvent>)
    requires events == match NoticeOf(req) case None => [] case Some(n) => EventsOf(handler, n)
    ensures handler.None? ==> events == []
    ensures handler.Some? && req.op.Login? ==>
              events == match req.login case None => [] case Some(l) => [LoginEvent(l)]
    ensures handler.Some? && req.op.NewProxy? ==>
              events == match req.newProxy case None => [] case Some(p) => [NewProxyEvent(p)]
    ensures handler.Some? && req.op.CloseProxy? ==>
              events == match req.closeProxy case None => [] case Some(c) => [CloseProxyEvent(c)]
    ensures handler.Some? && req.op.NewUserConn? ==>
              events == match req.userConn case None => [] case Some(u) => [UserConnEvent(u, req.nonce)]
    ensures req.op.Ping? || req.op.NewWorkConn? || req.op.Unknown? ==> events == []
  {
  }

  /** Which requests register and close which keys, by the handler and the request's own fields. */
  lemma RegistersExactly(req: PluginRequest, handler: Option<Handler>, key: string)
    ensures var s := Served(req, DecisionOn(handler, req));
            && (Registers(s, key) <==>
                  && req.op.NewProxy? && req.newProxy.Some? && handler.Some?
                  && handler.value(NewProxyEvent(req.newProxy.value)).allowed
                  && key == req.newProxy.value.user.runId + "/" + req.newProxy.value.proxyName)
            && (Closes(s, key) <==>
                  && req.op.CloseProxy? && req.closeProxy.Some?
                  && key == req.closeProxy.value.user.runId + "/" + req.closeProxy.value.proxyName)
  {
  }

  /** Being registered means that some request registered the key and none after it closed it. */
  lemma {:induction false} RegisteredIsLatest(served: seq<Served>, key: string)
    ensures Registered(served, key) <==>
              exists i :: && 0 <= i < |served| && Registers(served[i], key)
                          && forall j :: i < j < |served| ==> !Closes(served[j], key)
  {
    if served != [] {
      var n := |served| - 1;
      RegisteredIsLatest(served[..n], key);
      assert forall j :: 0 <= j < n ==> served[..n][j] == served[j];
      if Registers(served[n], key) {
        assert !Closes(served[n], key);
      }
    }
  }
}
