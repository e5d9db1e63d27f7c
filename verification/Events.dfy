/**
 The events the webhook server builds for the connection handler out of frp's messages.
 */
module Events {
  import opened Metadata

  datatype UserInfo = UserInfo(user: string, metas: Metas, runId: string)

  datatype LoginContent = LoginContent(
    version: string, hostname: string, os: string, arch: string,
    user: string, runId: string, metas: Metas)

  datatype NewProxyContent = NewProxyContent(
    user: UserInfo, proxyName: string, proxyType: string,
    useEncryption: bool, useCompression: bool,
    customDomains: seq<string>, subdomain: string, metas: Metas)

  datatype CloseProxyContent = CloseProxyContent(user: UserInfo, proxyName: string)

  datatype NewUserConnContent = NewUserConnContent(user: UserInfo, proxyName: string, proxyType: string)

  datatype EventType = Connect | Request | Disconnect

  datatype ConnectionEvent = ConnectionEvent(
    connectionId: string, kind: EventType, user: string, protocol: string, metadata: Metas)

  /** What an event is about: the message it is built from. */
  datatype Notice =
    | OfLogin(login: LoginContent)
    | OfNewProxy(proxy: NewProxyContent)
    | OfCloseProxy(close: CloseProxyContent)
    | OfUserConn(conn: NewUserConnContent, nonce: string)  // with the random suffix of its ID

  function Truth(b: bool): string {
    if b then "true" else "false"
  }

  function Join(parts: seq<string>): string {
    if parts == [] then "" else if |parts| == 1 then parts[0] else parts[0] + "," + Join(parts[1..])
  }

  function LoginBase(l: LoginContent): Metas {
    map["frp.op" := "Login", "frp.version" := l.version, "frp.os" := l.os,
        "frp.arch" := l.arch, "frp.hostname" := l.hostname]
  }

  function NewProxyBase(p: NewProxyContent): Metas {
    var entries := map["frp.op" := "NewProxy", "frp.proxy_name" := p.proxyName, "frp.proxy_type" := p.proxyType,
                       "frp.use_encryption" := Truth(p.useEncryption),
                       "frp.use_compression" := Truth(p.useCompression)];
    var entries := if |p.customDomains| > 0 then entries["frp.custom_domains" := Join(p.customDomains)] else entries;
    if p.subdomain != "" then entries["frp.subdomain" := p.subdomain] else entries
  }

  function UserConnBase(u: NewUserConnContent): Metas {
    map["frp.op" := "NewUserConn", "frp.proxy_name" := u.proxyName, "frp.proxy_type" := u.proxyType]
  }

  function LoginEvent(l: LoginContent): ConnectionEvent {
    ConnectionEvent(l.runId, Connect, l.user, "frp", Merged(LoginBase(l), "meta.", l.metas))
  }

  function NewProxyEvent(p: NewProxyContent): ConnectionEvent {
    ConnectionEvent(p.user.runId, Connect, p.user.user, p.proxyType,
                    Merged(Merged(NewProxyBase(p), "user_meta.", p.user.metas), "proxy_meta.", p.metas))
  }

  function CloseProxyEvent(c: CloseProxyContent): ConnectionEvent {
    ConnectionEvent(c.user.runId, Disconnect, c.user.user, "",
                    map["frp.op" := "CloseProxy", "frp.proxy_name" := c.proxyName])
  }

  function UserConnEvent(u: NewUserConnContent, nonce: string): ConnectionEvent {
    ConnectionEvent(u.user.runId + "/" + u.proxyName + "/" + nonce, Request, u.user.user, u.proxyType,
                    Merged(UserConnBase(u), "user_meta.", u.user.metas))
  }

  /** Every key of these maps is reserved for the adapter's own entries. */
  ghost predicate Reserved(m: Metas) {
    forall k :: k in m ==> "frp." <= k
  }

  lemma BasesAreReserved(l: LoginContent, p: NewProxyContent, u: NewUserConnContent)
    ensures Reserved(LoginBase(l)) && Reserved(NewProxyBase(p)) && Reserved(UserConnBase(u))
  {
  }

  lemma FromReserved(base: Metas, prefix: string, metas: Metas)
    requires Reserved(base) && Apart(prefix, "frp.")
    ensures Stripped(prefix, Merged(base, prefix, metas)) == metas
    ensures Stripped("frp.", Merged(base, prefix, metas)) == Stripped("frp.", base)
  {
    forall k | k in base ensures !(prefix <= k) {
      assert k[0] == "frp."[0];
    }
    MergeIsRecoverable(base, prefix, metas);
    MergeKeepsRecoverable(base, prefix, metas, "frp.");
  }

  /** No entry of a NewProxy event is lost: each of the three sources can be read back from it. */
  lemma NewProxyMetadataRecoverable(p: NewProxyContent)
    ensures var m := NewProxyEvent(p).metadata;
            && Stripped("user_meta.", m) == p.user.metas
            && Stripped("proxy_meta.", m) == p.metas
            && Stripped("frp.", m) == Stripped("frp.", NewProxyBase(p))
  {
    var base := NewProxyBase(p);
    var withUser := Merged(base, "user_meta.", p.user.metas);
    BasesAreReserved(LoginContent("", "", "", "", "", "", map[]), p,
                     NewUserConnContent(p.user, "", ""));
    FromReserved(base, "user_meta.", p.user.metas);
    MergeKeepsRecoverable(withUser, "proxy_meta.", p.metas, "user_meta.");
    MergeKeepsRecoverable(withUser, "proxy_meta.", p.metas, "frp.");
    forall k | k in withUser ensures !("proxy_meta." <= k) {
      if k in base {
        assert k[0] == "frp."[0];
      } else {
        assert k[0] == "user_meta."[0];
      }
    }
    MergeIsRecoverable(withUser, "proxy_meta.", p.metas);
  }

  /**
   A NewProxy event is a connect event of the user. Under a reserved key it has the adapter's own
   entry, whatever the metas are.
   */
  lemma NewProxyReserved(p: NewProxyContent, k: string)
    requires "frp." <= k
    ensures var m := NewProxyEvent(p).metadata;
            && (k in m <==> k in NewProxyBase(p))
            && (k in m ==> m[k] == NewProxyBase(p)[k])
    ensures var e := NewProxyEvent(p);
            && e.connectionId == p.user.runId && e.kind == Connect
            && e.user == p.user.user && e.protocol == p.proxyType
  {
    var withUser := Merged(NewProxyBase(p), "user_meta.", p.user.metas);
    MergeLeavesOthers(NewProxyBase(p), "user_meta.", p.user.metas, "frp.", k);
    MergeLeavesOthers(withUser, "proxy_meta.", p.metas, "frp.", k);
  }

  lemma OtherMetadataRecoverable(l: LoginContent, u: NewUserConnContent, nonce: string)
    ensures Stripped("meta.", LoginEvent(l).metadata) == l.metas
    ensures Stripped("frp.", LoginEvent(l).metadata) == Stripped("frp.", LoginBase(l))
    ensures Stripped("user_meta.", UserConnEvent(u, nonce).metadata) == u.user.metas
    ensures Stripped("frp.", UserConnEvent(u, nonce).metadata) == Stripped("frp.", UserConnBase(u))
  {
    BasesAreReserved(l, NewProxyContent(u.user, "", "", false, false, [], "", map[]), u);
    FromReserved(LoginBase(l), "meta.", l.metas);
    FromReserved(UserConnBase(u), "user_meta.", u.user.metas);
  }

  predicate Holds(m: Metas, k: string, v: string) {
    k in m && m[k] == v
  }

  /** What a Login event tells the handler, whatever metas the client sent. */
  lemma LoginEventSays(l: LoginContent)
    ensures var e := LoginEvent(l);
            && e.connectionId == l.runId && e.kind == Connect && e.user == l.user && e.protocol == "frp"
            && Holds(e.metadata, "frp.op", "Login")
            && Holds(e.metadata, "frp.version", l.version)
            && Holds(e.metadata, "frp.os", l.os)
            && Holds(e.metadata, "frp.arch", l.arch)
            && Holds(e.metadata, "frp.hostname", l.hostname)
  {
    var base := LoginBase(l);
    MergeLeavesOthers(base, "meta.", l.metas, "frp.", "frp.op");
    MergeLeavesOthers(base, "meta.", l.metas, "frp.", "frp.version");
    MergeLeavesOthers(base, "meta.", l.metas, "frp.", "frp.os");
    MergeLeavesOthers(base, "meta.", l.metas, "frp.", "frp.arch");
    MergeLeavesOthers(base, "meta.", l.metas, "frp.", "frp.hostname");
  }

  /** The entries that every NewProxy event has; by NewProxyReserved no metas can change them. */
  lemma NewProxyBaseSays(p: NewProxyContent)
    ensures var base := NewProxyBase(p);
            && Holds(base, "frp.op", "NewProxy")
            && Holds(base, "frp.proxy_name", p.proxyName)
            && Holds(base, "frp.proxy_type", p.proxyType)
            && Holds(base, "frp.use_encryption", if p.useEncryption then "true" else "false")
            && Holds(base, "frp.use_compression", if p.useCompression then "true" else "false")
  {
  }

  /** Domains are listed exactly if there are any, and so is a subdomain. */
  lemma NewProxyBaseDomains(p: NewProxyContent)
    ensures var base := NewProxyBase(p);
            && ("frp.custom_domains" in base <==> p.customDomains != [])
            && (p.customDomains != [] ==> Holds(base, "frp.custom_domains", Join(p.customDomains)))
            && ("frp.subdomain" in base <==> p.subdomain != "")
            && (p.subdomain != "" ==> Holds(base, "frp.subdomain", p.subdomain))
  {
  }

  /** What the other two events tell the handler. */
  lemma CloseAndUserConnSay(c: CloseProxyContent, u: NewUserConnContent, nonce: string)
    ensures var e := CloseProxyEvent(c);
            && e.connectionId == c.user.runId && e.kind == Disconnect && e.user == c.user.user && e.protocol == ""
            && Holds(e.metadata, "frp.op", "CloseProxy") && Holds(e.metadata, "frp.proxy_name", c.proxyName)
    ensures var e := UserConnEvent(u, nonce);
            && e.connectionId == u.user.runId + "/" + u.proxyName + "/" + nonce && e.kind == Request
            && e.user == u.user.user && e.protocol == u.proxyType
            && Holds(e.metadata, "frp.op", "NewUserConn")
            && Holds(e.metadata, "frp.proxy_name", u.proxyName) && Holds(e.metadata, "frp.proxy_type", u.proxyType)
  {
    MergeLeavesOthers(UserConnBase(u), "user_meta.", u.user.metas, "frp.", "frp.op");
    MergeLeavesOthers(UserConnBase(u), "user_meta.", u.user.metas, "frp.", "frp.proxy_name");
    MergeLeavesOthers(UserConnBase(u), "user_meta.", u.user.metas, "frp.", "frp.proxy_type");
  }

  /** What lies between commas. */
  function Split(s: string): (parts: seq<string>)
    ensures parts != []
  {
    if s == "" then [""]
    else
      var rest := Split(s[1..]);
      if s[0] == ',' then [""] + rest else [[s[0]] + rest[0]] + rest[1..]
  }

  lemma {:induction false} SplitFirst(part: string, rest: string)
    requires ',' !in part
    ensures Split(part) == [part]
    ensures Split(part + "," + rest) == [part] + Split(rest)
  {
    if part == "" {
      assert part + "," + rest == "," + rest;
    } else {
      SplitFirst(part[1..], rest);
      assert (part + "," + rest)[1..] == part[1..] + "," + rest;
      assert part == [part[0]] + part[1..];
    }
  }

  /** The list of domains can be read back, if none of them has a comma in it. */
  lemma {:induction false} JoinedDomainsRecoverable(parts: seq<string>)
    requires parts != [] && forall i :: 0 <= i < |parts| ==> ',' !in parts[i]
    ensures Split(Join(parts)) == parts
  {
    if |parts| == 1 {
      SplitFirst(parts[0], "");
    } else {
      SplitFirst(parts[0], Join(parts[1..]));
      JoinedDomainsRecoverable(parts[1..]);
    }
  }

  function Render(n: Notice): ConnectionEvent {
    match n
    case OfLogin(l) => LoginEvent(l)
    case OfNewProxy(p) => NewProxyEvent(p)
    case OfCloseProxy(c) => CloseProxyEvent(c)
    case OfUserConn(u, nonce) => UserConnEvent(u, nonce)
  }

  /** The handlers' event building, with its merging loops. */
  method Build(n: Notice) returns (e: ConnectionEvent)
    ensures e == Render(n)
  {
    match n
    case OfLogin(l) =>
      var m := Merge(LoginBase(l), "meta.", l.metas);
      e := ConnectionEvent(l.runId, Connect, l.user, "frp", m);
    case OfNewProxy(p) =>
      var m := Merge(NewProxyBase(p), "user_meta.", p.user.metas);
      m := Merge(m, "proxy_meta.", p.metas);
      e := ConnectionEvent(p.user.runId, Connect, p.user.user, p.proxyType, m);
    case OfCloseProxy(c) =>
      e := ConnectionEvent(c.user.runId, Disconnect, c.user.user, "",
                           map["frp.op" := "CloseProxy", "frp.proxy_name" := c.proxyName]);
    case OfUserConn(u, nonce) =>
      var m := Merge(UserConnBase(u), "user_meta.", u.user.metas);
      e := ConnectionEvent(u.user.runId + "/" + u.proxyName + "/" + nonce, Request, u.user.user, u.proxyType, m);
  }
}
