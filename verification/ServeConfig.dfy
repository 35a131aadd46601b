/**
 The part of upstream's ServeConfig that the publication manager edits: web
 handlers by host:port and mount, TCP port handlers, and Funnel bits. Nil and
 empty maps are one value here, because upstream treats them alike.
 */
module ServeConfigs {
  import opened Basics

  datatype HostPort = HostPort(host: string, port: nat)

  /** reflect.DeepEqual on *ipn.HTTPHandler is equality of this value. */
  datatype Handler = Handler(path: string, proxy: string, text: string)

  datatype TcpHandler = TcpHandler(https: bool, http: bool, forward: string)

  datatype ServeConfig = ServeConfig(
    web: map<HostPort, map<string, Handler>>,
    tcp: map<nat, TcpHandler>,
    funnel: map<HostPort, bool>)

  /** One web handler position: a mount below a host:port. */
  datatype Coordinate = Coordinate(at: HostPort, mount: string)

  function Lookup(sc: ServeConfig, c: Coordinate): (h: Option<Handler>)
  {
    if c.at in sc.web && c.mount in sc.web[c.at] then Some(sc.web[c.at][c.mount]) else None
  }

  predicate FunnelOn(sc: ServeConfig, at: HostPort)
  {
    at in sc.funnel && sc.funnel[at]
  }

  /** A port is forwarding raw TCP when it has a handler that serves no web protocol. */
  predicate IsTcpForwarding(sc: ServeConfig, port: nat)
  {
    port in sc.tcp && !sc.tcp[port].https && !sc.tcp[port].http
  }

  /** strings.TrimSuffix(mount, "/"): drops one trailing slash. */
  function TrimSlash(mount: string): (trimmed: string)
  {
    if mount != "" && mount[|mount| - 1] == '/' then mount[..|mount| - 1] else mount
  }

  /** "/foo" and "/foo/" shadow each other: installing one removes the other. */
  predicate Shadows(mount: string, other: string)
  {
    mount != other && TrimSlash(mount) == TrimSlash(other)
  }

  function SetWebHandler(sc: ServeConfig, handler: Handler, at: HostPort, mount: string, https: bool): (r: ServeConfig)
    ensures Lookup(r, Coordinate(at, mount)) == Some(handler)
    ensures forall c: Coordinate :: c != Coordinate(at, mount) ==>
      Lookup(r, c) == if c.at == at && Shadows(mount, c.mount) then None else Lookup(sc, c)
    ensures r.funnel == sc.funnel && !IsTcpForwarding(r, at.port)
  {
    var prior := if at in sc.web then sc.web[at] else map[];
    var kept := map m | m in prior && m != mount && !Shadows(mount, m) :: prior[m];
    ServeConfig(
      sc.web[at := kept[mount := handler]],
      sc.tcp[at.port := TcpHandler(https, !https, "")],
      sc.funnel)
  }

  function SetFunnel(sc: ServeConfig, at: HostPort, on: bool): (r: ServeConfig)
    ensures FunnelOn(r, at) == on
    ensures forall other :: other != at ==> FunnelOn(r, other) == FunnelOn(sc, other)
    ensures r.web == sc.web && r.tcp == sc.tcp
  {
    sc.(funnel := if on then sc.funnel[at := true] else sc.funnel - {at})
  }

  /**
   Upstream's removal with its cascade: an emptied host:port disappears, takes
   its TCP port handler with it, and takes its Funnel entry if asked to.
   */
  function RemoveWebHandler(sc: ServeConfig, at: HostPort, mount: string, cleanupFunnel: bool): (r: ServeConfig)
    requires at in sc.web
    ensures forall c: Coordinate ::
      Lookup(r, c) == if c == Coordinate(at, mount) then None else Lookup(sc, c)
    ensures !cleanupFunnel ==> r.funnel == sc.funnel
    ensures forall other :: other != at ==> FunnelOn(r, other) == FunnelOn(sc, other)
  {
    var left := sc.web[at] - {mount};
    assert forall m :: m in sc.web[at] && m != mount ==> m in left;
    if left == map[] then
      ServeConfig(
        sc.web - {at},
        sc.tcp - {at.port},
        if cleanupFunnel then sc.funnel - {at} else sc.funnel)
    else
      sc.(web := sc.web[at := left])
  }

  /** removeServeWebHandlerWithFunnelCleanup: upstream panics without a web config, so guard it. */
  function RemoveGuarded(sc: ServeConfig, at: HostPort, mount: string, cleanupFunnel: bool): (r: ServeConfig)
    ensures at.host != "" && at.port != 0 && mount != "" ==> Lookup(r, Coordinate(at, mount)) == None
    ensures forall c: Coordinate :: c != Coordinate(at, mount) ==> Lookup(r, c) == Lookup(sc, c)
    ensures !cleanupFunnel ==> r.funnel == sc.funnel
  {
    if at.host == "" || at.port == 0 || mount == "" || at !in sc.web then sc
    else RemoveWebHandler(sc, at, mount, cleanupFunnel)
  }

  /** Port validation shared by forward and clear. */
  predicate ValidPort(port: int)
  {
    0 < port <= 65535
  }

  /**
   A forward request after its text fields were normalized: `mount` and
   `proxy` are None when normalization refused the path or the local address.
   */
  datatype ForwardRequest = ForwardRequest(
    tailnetPort: int, localPort: int, mount: Option<string>, proxy: Option<string>, https: bool, funnel: bool)

  /** The status fields a forward reads; `host` is "" when the DNS name is missing. */
  datatype NodeStatus = NodeStatus(host: string, httpsAllowed: bool, funnelAllowed: bool)

  /** What one accepted forward installs. It does not depend on the fetched config. */
  datatype Publication = Publication(at: HostPort, mount: string, handler: Handler, https: bool, funnel: bool)

  /** The checks of applyServeForward that do not look at the config. */
  function PlanForward(request: ForwardRequest, status: Option<NodeStatus>): (plan: Option<Publication>)
    ensures plan.Some? ==>
      && status.Some? && request.mount.Some? && ValidPort(request.tailnetPort)
      && plan.value.at == HostPort(status.value.host, request.tailnetPort)
      && plan.value.at.host != ""
      && plan.value.mount == request.mount.value
      && plan.value.funnel == request.funnel
      && (plan.value.funnel ==> plan.value.https && status.value.funnelAllowed)
  {
    if !ValidPort(request.tailnetPort) || !ValidPort(request.localPort) then None
    else if request.proxy.None? || request.mount.None? then None
    else if status.None? || status.value.host == "" then None
    else if request.funnel && !request.https then None
    else if request.https && !status.value.httpsAllowed then None
    else if request.funnel && !status.value.funnelAllowed then None
    else
      Some(Publication(
        HostPort(status.value.host, request.tailnetPort),
        request.mount.value,
        Handler("", request.proxy.value, ""),
        request.https,
        request.funnel))
  }

  /** The config after installing an accepted publication. */
  function InstallPublication(sc: ServeConfig, p: Publication): (r: ServeConfig)
    ensures Lookup(r, Coordinate(p.at, p.mount)) == Some(p.handler)
    ensures FunnelOn(r, p.at) == p.funnel
    ensures forall other :: other != p.at ==> FunnelOn(r, other) == FunnelOn(sc, other)
  {
    SetFunnel(SetWebHandler(sc, p.handler, p.at, p.mount, p.https), p.at, p.funnel)
  }

  /** applyServeClearForHostWithFunnelCleanup once the port is known not to forward TCP. */
  function ClearMount(sc: ServeConfig, at: HostPort, mount: string, funnel: bool, cleanupFunnel: bool): (r: ServeConfig)
    ensures at.host != "" && at.port != 0 && mount != "" ==> Lookup(r, Coordinate(at, mount)) == None
    ensures forall c: Coordinate :: c != Coordinate(at, mount) ==> Lookup(r, c) == Lookup(sc, c)
    ensures !funnel && !cleanupFunnel ==> r.funnel == sc.funnel
  {
    RemoveGuarded(if funnel then SetFunnel(sc, at, false) else sc, at, mount, cleanupFunnel)
  }
}
