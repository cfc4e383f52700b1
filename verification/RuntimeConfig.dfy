/** The desired runtime configuration: how it is reconciled with a node pool and compiled, how each
    request edits it, and the shape that every committed configuration keeps. */
module RuntimeConfig {
  import opened Wrappers
  import opened Text
  import opened Sequences
  import opened RuntimeModel
  import opened Validation
  import opened Canonicity
  import opened Planner
  import opened Closure
  import opened Identity

  /** The operating system and the address parser, which the model does not define. */
  datatype Platform = Platform(mobile: bool, isIP: string -> bool)

  datatype RuntimeSettings = RuntimeSettings(
    listenAddress: string, mixedPort: int, ipv6: bool, proxyMode: ProxyMode, routeMode: RouteMode)

  datatype RuntimeConfig = RuntimeConfig(
    settings: RuntimeSettings, selectors: seq<Selector>, routes: seq<ServiceRoute>, poolRevision: string)

  datatype Pool = Pool(revision: string, nodes: seq<Node>)

  function DefaultConfig(env: Platform): RuntimeConfig {
    RuntimeConfig(
      RuntimeSettings("127.0.0.1", 2080, false, if env.mobile then TunMode else MixedMode, RuleMode),
      [], [], "")
  }

  function CanonicalSettings(env: Platform, s: RuntimeSettings): RuntimeSettings {
    if env.mobile then s.(proxyMode := TunMode) else s
  }

  /** `buildSettings`: the planner settings, or nothing when a required mode is missing or invalid. They
      are valid, name one of the three route modes, and are those of a run rather than a probe. */
  function BuildSettings(env: Platform, s: RuntimeSettings): (r: Option<Settings>)
    ensures r.Some? ==> ValidSettings(r.value) && !r.value.probeOnly
    ensures r.Some? ==> r.value.routeMode == s.routeMode && (s.routeMode.DirectMode? || s.routeMode.RuleMode? || s.routeMode.AllMode?)
    ensures r.Some? && env.mobile ==> r.value.proxyMode.TunMode?
    ensures r.Some? && !env.mobile ==> r.value.proxyMode == s.proxyMode
  {
    if s.routeMode.UnsetMode? || s.routeMode.UnknownRouteMode? then None
    else if !env.mobile && s.proxyMode.UnknownProxyMode? then None
    else
      var settings := Settings(false, s.listenAddress, s.mixedPort, if env.mobile then TunMode else s.proxyMode,
                               s.ipv6, "", s.routeMode);
      if ValidSettings(settings) then Some(settings) else None
  }

  /******* Reconciliation with a pool *******/

  function WithTag(tag: string): Selector -> bool { (s: Selector) => s.tag == tag }
  function WithService(id: string): ServiceRoute -> bool { (r: ServiceRoute) => r.serviceId == id }
  function WithId(id: string): Node -> bool { (n: Node) => n.id == id }

  function FirstAvailable(nodes: seq<Node>): string {
    var i := FindFirst(Available, nodes);
    if i < |nodes| then nodes[i].id else DIRECT
  }

  predicate HasProxy(selectors: seq<Selector>) {
    exists i :: 0 <= i < |selectors| && selectors[i].tag == PROXY
  }

  function WithProxy(selectors: seq<Selector>, nodes: seq<Node>): seq<Selector> {
    if HasProxy(selectors) then selectors else selectors + [Selector(PROXY, [], FirstAvailable(nodes), 0)]
  }

  function SelectableIn(nodes: seq<Node>): string -> bool {
    (id: string) => Selectable(nodes, id)
  }

  /** Unavailable selections fall back to `direct`; unavailable members of a service are dropped. */
  function ReconcileSelector(nodes: seq<Node>, s: Selector): Selector {
    var t := if Selectable(nodes, s.selected) then s else s.(selected := DIRECT);
    if s.tag == PROXY then t
    else
      var ids := Filter(SelectableIn(nodes), s.nodeIds);
      t.(nodeIds := if ids == [] then [DIRECT] else ids)
  }

  function ReconcileIn(nodes: seq<Node>): Selector -> Selector {
    (s: Selector) => ReconcileSelector(nodes, s)
  }

  function Reconciled(selectors: seq<Selector>, nodes: seq<Node>): seq<Selector> {
    Map(ReconcileIn(nodes), WithProxy(selectors, nodes))
  }

  function Desired(cfg: RuntimeConfig, nodes: seq<Node>): RuntimeModel {
    RuntimeModel(nodes, Reconciled(cfg.selectors, nodes), cfg.routes)
  }

  /** The configuration after a successful `normalizeDesired`. */
  function Committed(cfg: RuntimeConfig, nodes: seq<Node>): RuntimeConfig {
    var m := Canonical(Desired(cfg, nodes));
    cfg.(selectors := m.selectors, routes := m.routes)
  }

  /** `prepareRuntimeContent` succeeds, up to the encoder. */
  ghost predicate Builds(env: Platform, cfg: RuntimeConfig, nodes: seq<Node>) {
    var settings := BuildSettings(env, cfg.settings);
    && settings.Some?
    && Accepts(Desired(cfg, nodes))
    && PlanOk(env.isIP, settings.value, Canonical(Desired(cfg, nodes)))
  }

  function Content(env: Platform, cfg: RuntimeConfig, nodes: seq<Node>): Blueprint
    requires BuildSettings(env, cfg.settings).Some?
  {
    Plan(BuildSettings(env, cfg.settings).value, Canonical(Desired(cfg, nodes)))
  }

  method ReconcileRuntimeSelections(selectors: seq<Selector>, nodes: seq<Node>) returns (next: seq<Selector>)
    ensures next == Map(ReconcileIn(nodes), selectors)
  {
    var available := AvailableIds(nodes);
    next := [];
    for i := 0 to |selectors|
      invariant next == Map(ReconcileIn(nodes), selectors[..i])
    {
      var selector := selectors[i];
      MapPrefix(ReconcileIn(nodes), selectors, i);
      if selector.selected != DIRECT && selector.selected !in available {
        selector := selector.(selected := DIRECT);
      }
      if selector.tag != PROXY {
        var filtered := KeepSelectable(selector.nodeIds, nodes);
        if |filtered| == 0 {
          filtered := [DIRECT];
        }
        selector := selector.(nodeIds := filtered);
      }
      assert selector == ReconcileSelector(nodes, selectors[i]);
      next := next + [selector];
    }
    assert selectors[..|selectors|] == selectors;
  }

  method KeepSelectable(ids: seq<string>, nodes: seq<Node>) returns (filtered: seq<string>)
    ensures filtered == Filter(SelectableIn(nodes), ids)
  {
    filtered := [];
    for i := 0 to |ids|
      invariant filtered == Filter(SelectableIn(nodes), ids[..i])
    {
      TakeStep(ids, i);
      FilterAppend(SelectableIn(nodes), ids[..i], ids[i]);
      if ids[i] == DIRECT || ids[i] in AvailableIds(nodes) {
        filtered := filtered + [ids[i]];
      }
    }
    assert ids[..|ids|] == ids;
  }

  /** Completes the proxy selector, reconciles with the pool, normalises, and writes the result back. */
  method NormalizeDesired(cfg: RuntimeConfig, nodes: seq<Node>) returns (r: Result<(RuntimeConfig, RuntimeModel), ConfigError>)
    ensures r.Success? <==> Accepts(Desired(cfg, nodes))
    ensures r.Success? ==> r.value == (Committed(cfg, nodes), Canonical(Desired(cfg, nodes)))
  {
    var hasProxy := false;
    for i := 0 to |cfg.selectors|
      invariant hasProxy <==> HasProxy(cfg.selectors[..i])
    {
      if cfg.selectors[i].tag == PROXY {
        hasProxy := true;
        assert cfg.selectors[..i + 1][i].tag == PROXY;
      }
    }
    assert cfg.selectors[..|cfg.selectors|] == cfg.selectors;
    var selectors := cfg.selectors;
    if !hasProxy {
      selectors := selectors + [Selector(PROXY, [], FirstAvailable(nodes), 0)];
    }
    selectors := ReconcileRuntimeSelections(selectors, nodes);
    var model := NormalizeRuntimeModel(RuntimeModel(nodes, selectors, cfg.routes));
    if model.Failure? {
      return Failure(model.error);
    }
    return Success((cfg.(selectors := model.value.selectors, routes := model.value.routes), model.value));
  }

  /** `prepareRuntimeContent`: settings, normalisation and planning; the encoder is `encodes`. */
  method PrepareContent(env: Platform, cfg: RuntimeConfig, nodes: seq<Node>, encodes: bool)
    returns (r: Option<(RuntimeConfig, Blueprint)>)
    ensures r.Some? <==> Builds(env, cfg, nodes) && encodes
    ensures r.Some? ==> r.value == (Committed(cfg, nodes), Content(env, cfg, nodes))
  {
    var settings := BuildSettings(env, cfg.settings);
    if settings.None? {
      return None;
    }
    var normalized := NormalizeDesired(cfg, nodes);
    if normalized.Failure? {
      return None;
    }
    var (next, model) := normalized.value;
    var plan := PlanRuntimeModel(env.isIP, settings.value, model);
    if plan.Failure? || !encodes {
      return None;
    }
    return Some((next, plan.value));
  }

  /******* Edits *******/

  datatype UpsertRequest = UpsertRequest(
    serviceId: string, displayName: string, domains: seq<string>, nodeId: string, enabled: bool)

  function RouteTag(serviceId: string): string { "route-" + serviceId }

  function FindNode(nodes: seq<Node>, id: string): nat { FindFirst(WithId(id), nodes) }
  function FindSelector(selectors: seq<Selector>, tag: string): nat { FindFirst(WithTag(tag), selectors) }
  function FindRoute(routes: seq<ServiceRoute>, id: string): nat { FindFirst(WithService(id), routes) }

  /** The requested node exists and is available. */
  predicate NodeReady(nodes: seq<Node>, id: string) {
    var i := FindNode(nodes, id);
    i < |nodes| && nodes[i].IsAvailable()
  }

  function PutSelector(selectors: seq<Selector>, s: Selector): seq<Selector> {
    var i := FindSelector(selectors, s.tag);
    if i < |selectors| then selectors[i := s] else selectors + [s]
  }

  function PutRoute(routes: seq<ServiceRoute>, r: ServiceRoute): seq<ServiceRoute> {
    var i := FindRoute(routes, r.serviceId);
    if i < |routes| then routes[i := r] else routes + [r]
  }

  /** The tag a service's selector has: the existing route's, or a fresh one. */
  function TagFor(routes: seq<ServiceRoute>, serviceId: string): string {
    var i := FindRoute(routes, serviceId);
    if i < |routes| then routes[i].selector else RouteTag(serviceId)
  }

  function UpsertEdit(cfg: RuntimeConfig, req: UpsertRequest, nodes: seq<Node>, now: int): RuntimeConfig {
    var tag := TagFor(cfg.routes, req.serviceId);
    cfg.(
      selectors := PutSelector(cfg.selectors, Selector(tag, AvailableIds(nodes) + [DIRECT], req.nodeId, now)),
      routes := PutRoute(cfg.routes, ServiceRoute(req.serviceId, req.displayName, req.domains, tag, req.enabled)))
  }

  function DeleteEdit(cfg: RuntimeConfig, serviceId: string): RuntimeConfig
    requires FindRoute(cfg.routes, serviceId) < |cfg.routes|
  {
    var i := FindRoute(cfg.routes, serviceId);
    var j := FindSelector(cfg.selectors, cfg.routes[i].selector);
    cfg.(
      routes := RemoveAt(cfg.routes, i),
      selectors := if j < |cfg.selectors| then RemoveAt(cfg.selectors, j) else cfg.selectors)
  }

  /** Sets the selection of the selector `tag`, if there is one. */
  function SetSelected(selectors: seq<Selector>, tag: string, nodeId: string, now: int): seq<Selector> {
    var i := FindSelector(selectors, tag);
    if i < |selectors| then selectors[i := selectors[i].(selected := nodeId, selectedAt := now)] else selectors
  }

  function SelectEdit(cfg: RuntimeConfig, nodeId: string, now: int): RuntimeConfig {
    cfg.(selectors :=
      if FindSelector(cfg.selectors, PROXY) < |cfg.selectors| then SetSelected(cfg.selectors, PROXY, nodeId, now)
      else cfg.selectors + [Selector(PROXY, [], nodeId, now)])
  }

  function SelectRouteEdit(cfg: RuntimeConfig, tag: string, nodeId: string, now: int): RuntimeConfig {
    cfg.(selectors := SetSelected(cfg.selectors, tag, nodeId, now))
  }
}
