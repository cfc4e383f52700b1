/** What every committed runtime configuration keeps: services and selectors are paired one to one,
    every service can fall back to `direct`, and so the configuration can be rebuilt for any later
    node pool. */
module Commitments {
  import opened Wrappers
  import opened Text
  import opened Sequences
  import opened RuntimeModel
  import opened Validation
  import opened Canonicity
  import opened Planner
  import opened Closure
  import opened Identity
  import opened RuntimeConfig

  /** A pool as the subscription coordinator produces it: distinct hexadecimal identifiers. */
  ghost predicate HexPool(nodes: seq<Node>) {
    (forall n :: n in nodes ==> IsHex(n.id)) && NoDup(Map(IdOf, nodes))
  }

  function Tags(cfg: RuntimeConfig): seq<string> { Map(TagOf, cfg.selectors) }

  /** Non-proxy selectors and service routes correspond one to one through the tag `route-<service>`. */
  ghost predicate Paired(selectors: seq<Selector>, routes: seq<ServiceRoute>) {
    && NoDup(Map(TagOf, selectors)) && NoDup(Map(ServiceOf, routes))
    && (forall r :: r in routes ==> r.selector == RouteTag(r.serviceId))
    && (forall tag :: tag in Map(TagOf, selectors) && tag != PROXY <==> tag in Map(SelectorOf, routes))
  }

  ghost predicate ListsDirect(selectors: seq<Selector>) {
    forall s :: s in selectors && s.tag != PROXY ==> DIRECT in s.nodeIds
  }

  /** A selector that survives reconciliation with any pool. */
  ghost predicate Durable(s: Selector) {
    && SelectorTagOk(s.tag)
    && (s.tag != PROXY ==> NoDup(s.nodeIds) && DIRECT in s.nodeIds && s.selected in s.nodeIds)
  }

  ghost predicate SettingsOk(env: Platform, s: RuntimeSettings) {
    BuildSettings(env, s).Some? && InboundsOk(env.isIP, BuildSettings(env, s).value)
  }

  ghost predicate WellFormed(env: Platform, cfg: RuntimeConfig) {
    && SettingsOk(env, cfg.settings)
    && Paired(cfg.selectors, cfg.routes)
    && (forall s :: s in cfg.selectors ==> Durable(s))
    && RoutesOk(Tags(cfg), cfg.routes)
    && CanonRoutes(cfg.routes) == cfg.routes
  }

  /** The part of it that compiling needs. */
  ghost predicate Compilable(env: Platform, cfg: RuntimeConfig) {
    && SettingsOk(env, cfg.settings)
    && Paired(cfg.selectors, cfg.routes)
    && (forall s :: s in cfg.selectors ==> Durable(s))
    && RoutesOk(Tags(cfg), cfg.routes)
  }

  /******* Hexadecimal pools *******/

  lemma HexIsOrdinary(id: string)
    requires IsHex(id)
    ensures NodeIdOk(id) && TrimStable(id) && forall service :: id != RouteTag(service)
  {
    assert DIRECT[1] == 'i' && PROXY[0] == 'p' && URLTEST[0] == 'u';
    assert forall service :: RouteTag(service)[0] == 'r';
    WordStable(id);
  }

  lemma RouteTagFree(nodes: seq<Node>, service: string)
    requires HexPool(nodes)
    ensures RouteTag(service) !in AvailableIds(nodes)
  {
    AvailableIdsMember(nodes, RouteTag(service));
    forall n | n in nodes ensures n.id != RouteTag(service) {
      HexIsOrdinary(n.id);
    }
  }

  lemma HexPoolOk(nodes: seq<Node>)
    requires HexPool(nodes)
    ensures PoolOk(nodes) && StableIds(nodes)
    ensures PROXY !in AvailableIds(nodes)
  {
    forall n | n in nodes ensures NodeIdOk(n.id) && TrimStable(n.id) {
      HexIsOrdinary(n.id);
    }
    AvailableIdsMember(nodes, PROXY);
  }

  lemma RouteTagInjective(a: string, b: string)
    requires RouteTag(a) == RouteTag(b)
    ensures a == b
  {
    assert RouteTag(a)[6..] == a && RouteTag(b)[6..] == b;
  }

  lemma RouteTagNotProxy(service: string)
    ensures RouteTag(service) != PROXY
  {
    assert RouteTag(service)[0] == 'r' && PROXY[0] == 'p';
  }

  /** The correspondence read from both sides. */
  lemma PairedOneToOne(selectors: seq<Selector>, routes: seq<ServiceRoute>)
    requires Paired(selectors, routes)
    ensures forall r :: r in routes ==> exists s :: s in selectors && s.tag == RouteTag(r.serviceId) && s.tag != PROXY
    ensures forall s :: s in selectors && s.tag != PROXY ==> exists r :: r in routes && s.tag == RouteTag(r.serviceId)
    ensures forall a, b :: a in routes && b in routes && RouteTag(a.serviceId) == RouteTag(b.serviceId) ==> a == b
    ensures forall a, b :: a in selectors && b in selectors && a.tag == b.tag ==> a == b
  {
    forall r | r in routes ensures exists s :: s in selectors && s.tag == RouteTag(r.serviceId) && s.tag != PROXY {
      MapIn(SelectorOf, routes, r);
      RouteTagNotProxy(r.serviceId);
      var s := MapOrigin(TagOf, selectors, r.selector);
    }
    forall s | s in selectors && s.tag != PROXY ensures exists r :: r in routes && s.tag == RouteTag(r.serviceId) {
      MapIn(TagOf, selectors, s);
      var r := MapOrigin(SelectorOf, routes, s.tag);
    }
    DistinctKeys(ServiceOf, routes);
    DistinctKeys(TagOf, selectors);
    forall a, b | a in routes && b in routes && RouteTag(a.serviceId) == RouteTag(b.serviceId) ensures a == b {
      RouteTagInjective(a.serviceId, b.serviceId);
    }
  }

  /******* Any later pool builds *******/

  /** Reconciling a durable selector gives an acceptable one that stays durable. */
  lemma ReconciledOk(nodes: seq<Node>, s: Selector)
    requires PoolOk(nodes) && Durable(s) && s.tag !in AvailableIds(nodes)
    ensures SelectorOk(nodes, ReconcileSelector(nodes, s))
  {
    var t := ReconcileSelector(nodes, s);
    if s.tag == PROXY {
      ProxyMembersOk(nodes, t.selected);
      assert CanonSelector(nodes, t).nodeIds == ProxySetTo(nodes, t.selected).nodeIds;
    } else {
      ServiceMembersOk(nodes, s);
    }
  }

  lemma ServiceMembersOk(nodes: seq<Node>, s: Selector)
    requires s.tag != PROXY && NoDup(s.nodeIds) && DIRECT in s.nodeIds && s.selected in s.nodeIds
    ensures MembersOk(nodes, CanonSelector(nodes, ReconcileSelector(nodes, s)))
  {
    var t := ReconcileSelector(nodes, s);
    var kept := Filter(SelectableIn(nodes), s.nodeIds);
    assert DIRECT in kept && t.nodeIds == kept;
    NoDupFilter(SelectableIn(nodes), s.nodeIds);
    NoDupPermutation(kept, SortStrings(kept));
    SortMembers(Less, kept);
  }

  lemma ReconciledTags(selectors: seq<Selector>, nodes: seq<Node>)
    ensures Map(TagOf, Reconciled(selectors, nodes)) == Map(TagOf, WithProxy(selectors, nodes))
    ensures Map(TagOf, WithProxy(selectors, nodes)) ==
            if HasProxy(selectors) then Map(TagOf, selectors) else Map(TagOf, selectors) + [PROXY]
    ensures HasProxy(selectors) <==> PROXY in Map(TagOf, selectors)
    ensures NoDup(Map(TagOf, selectors)) ==> NoDup(Map(TagOf, Reconciled(selectors, nodes)))
    ensures forall tag :: tag in Map(TagOf, Reconciled(selectors, nodes)) <==> tag in Map(TagOf, selectors) || tag == PROXY
  {
    var all := WithProxy(selectors, nodes);
    MapCompose(ReconcileIn(nodes), TagOf, TagOf, all);
    MapMember(TagOf, selectors, PROXY);
    if !HasProxy(selectors) {
      MapAppend(TagOf, selectors, Selector(PROXY, [], FirstAvailable(nodes), 0));
      AppendMembers(Map(TagOf, selectors), PROXY);
      NoDupAppend(Map(TagOf, selectors), PROXY);
    }
  }

  lemma RoutesOkSuperset(tags: seq<string>, more: seq<string>, routes: seq<ServiceRoute>)
    requires RoutesOk(tags, routes) && forall tag :: tag in tags ==> tag in more
    ensures RoutesOk(more, routes)
  {
  }

  lemma NewProxyDurable(nodes: seq<Node>)
    ensures Durable(Selector(PROXY, [], FirstAvailable(nodes), 0))
  {
    ProxyTagOk(Selector(PROXY, [], FirstAvailable(nodes), 0).tag);
  }

  lemma DesiredAccepted(env: Platform, cfg: RuntimeConfig, nodes: seq<Node>)
    requires Compilable(env, cfg) && HexPool(nodes)
    ensures Accepts(Desired(cfg, nodes))
  {
    HexPoolOk(nodes);
    ReconciledTags(cfg.selectors, nodes);
    DesiredSelectorsOk(cfg.selectors, cfg.routes, nodes);
    RoutesOkSuperset(Tags(cfg), Map(TagOf, Reconciled(cfg.selectors, nodes)), cfg.routes);
  }

  lemma CompletedDurable(selectors: seq<Selector>, routes: seq<ServiceRoute>, nodes: seq<Node>, s: Selector)
    requires HexPool(nodes) && Paired(selectors, routes) && forall t :: t in selectors ==> Durable(t)
    requires s in WithProxy(selectors, nodes)
    ensures Durable(s) && s.tag !in AvailableIds(nodes)
  {
    if s.tag == PROXY {
      HexPoolOk(nodes);
    } else {
      MapIn(TagOf, selectors, s);
      var r := MapOrigin(SelectorOf, routes, s.tag);
      RouteTagFree(nodes, r.serviceId);
    }
    if s !in selectors {
      NewProxyDurable(nodes);
    }
  }

  lemma DesiredSelectorsOk(selectors: seq<Selector>, routes: seq<ServiceRoute>, nodes: seq<Node>)
    requires HexPool(nodes) && Paired(selectors, routes) && forall s :: s in selectors ==> Durable(s)
    ensures SelectorsOk(nodes, Reconciled(selectors, nodes))
  {
    HexPoolOk(nodes);
    ReconciledTags(selectors, nodes);
    forall t | t in Reconciled(selectors, nodes) ensures SelectorOk(nodes, t) {
      var s := MapOrigin(ReconcileIn(nodes), WithProxy(selectors, nodes), t);
      CompletedDurable(selectors, routes, nodes, s);
      ReconciledOk(nodes, s);
    }
  }

  /** A well-formed configuration compiles for every pool the coordinator can produce later. */
  lemma BuildableLater(env: Platform, cfg: RuntimeConfig, nodes: seq<Node>)
    requires WellFormed(env, cfg) && HexPool(nodes)
    ensures Builds(env, cfg, nodes)
  {
    CompilableBuilds(env, cfg, nodes);
  }

  lemma CompilableBuilds(env: Platform, cfg: RuntimeConfig, nodes: seq<Node>)
    requires Compilable(env, cfg) && HexPool(nodes)
    ensures Builds(env, cfg, nodes)
  {
    DesiredAccepted(env, cfg, nodes);
    HexPoolOk(nodes);
    NormalizingTwice(Desired(cfg, nodes));
    PlanningSucceeds(Canonical(Desired(cfg, nodes)));
  }

  lemma LoopbackAddress(address: string)
    requires address == "127.0.0.1"
    ensures TrimSpace(address) == address && address != "" && '\r' !in address && '\n' !in address
  {
    assert address[0] == '1' && address[8] == '1' && |address| == 9;
    WordStable(address);
  }

  lemma DefaultSettingsOk(env: Platform)
    requires env.mobile || env.isIP("127.0.0.1")
    ensures SettingsOk(env, DefaultConfig(env).settings)
  {
    LoopbackAddress(DefaultConfig(env).settings.listenAddress);
  }

  /** The configuration of a first start. */
  lemma DefaultWellFormed(env: Platform)
    requires env.mobile || env.isIP("127.0.0.1")
    ensures WellFormed(env, DefaultConfig(env))
  {
    DefaultSettingsOk(env);
    EmptyWellFormed(env, DefaultConfig(env));
  }

  lemma EmptyWellFormed(env: Platform, cfg: RuntimeConfig)
    requires SettingsOk(env, cfg.settings) && cfg.selectors == [] && cfg.routes == []
    ensures WellFormed(env, cfg)
  {
    NoRoutes(Tags(cfg));
  }

  lemma NoRoutes(tags: seq<string>)
    ensures RoutesOk(tags, []) && CanonRoutes([]) == []
  {
    assert Map(CanonRoute, []) == [];
    assert Map(Claimed, []) == [];
  }

  /******* Committing keeps the shape *******/

  lemma PairedPermutation(a: seq<Selector>, b: seq<Selector>, x: seq<ServiceRoute>, y: seq<ServiceRoute>)
    requires Paired(a, x)
    requires NoDup(Map(TagOf, b)) && NoDup(Map(ServiceOf, y))
    requires forall tag :: tag in Map(TagOf, b) && tag != PROXY <==> tag in Map(TagOf, a) && tag != PROXY
    requires forall tag :: tag in Map(SelectorOf, y) <==> tag in Map(SelectorOf, x)
    requires forall r :: r in y ==> exists o :: o in x && r.serviceId == o.serviceId && r.selector == o.selector
    ensures Paired(b, y)
  {
  }

  lemma ReconciledListsDirect(selectors: seq<Selector>, nodes: seq<Node>, t: Selector)
    requires ListsDirect(selectors) && t in Reconciled(selectors, nodes) && t.tag != PROXY
    ensures DIRECT in t.nodeIds
  {
    var o := MapOrigin(ReconcileIn(nodes), WithProxy(selectors, nodes), t);
    assert o in selectors;
    assert DIRECT in Filter(SelectableIn(nodes), o.nodeIds);
  }

  lemma CanonDurable(nodes: seq<Node>, t: Selector)
    requires SelectorOk(nodes, t) && (t.tag != PROXY ==> DIRECT in t.nodeIds)
    ensures Durable(CanonSelector(nodes, t))
  {
    if t.tag != PROXY {
      SortMembers(Less, t.nodeIds);
    }
  }

  lemma CommittedDurable(cfg: RuntimeConfig, nodes: seq<Node>, s: Selector)
    requires SelectorsOk(nodes, Reconciled(cfg.selectors, nodes)) && ListsDirect(cfg.selectors)
    requires s in Committed(cfg, nodes).selectors
    ensures Durable(s)
  {
    var reconciled := Reconciled(cfg.selectors, nodes);
    CanonSelectorsElements(nodes, reconciled, s);
    var t :| t in reconciled && s == CanonSelector(nodes, t);
    if t.tag != PROXY {
      ReconciledListsDirect(cfg.selectors, nodes, t);
    }
    CanonDurable(nodes, t);
  }

  lemma CommittedPaired(cfg: RuntimeConfig, nodes: seq<Node>)
    requires Accepts(Desired(cfg, nodes)) && Paired(cfg.selectors, cfg.routes)
    ensures Paired(Committed(cfg, nodes).selectors, Committed(cfg, nodes).routes)
  {
    var next := Committed(cfg, nodes);
    var reconciled := Reconciled(cfg.selectors, nodes);
    ReconciledTags(cfg.selectors, nodes);
    CanonSelectorsSorted(nodes, reconciled);
    SameMembers(Map(TagOf, next.selectors), Map(TagOf, reconciled));
    CanonRoutesSorted(cfg.routes);
    CanonRoutesSelectors(cfg.routes);
    forall r | r in next.routes ensures exists o :: o in cfg.routes && r.serviceId == o.serviceId && r.selector == o.selector {
      CanonRoutesElements([], cfg.routes, r);
    }
    PairedPermutation(cfg.selectors, next.selectors, cfg.routes, next.routes);
  }

  lemma CanonRoutesSelectors(routes: seq<ServiceRoute>)
    ensures multiset(Map(SelectorOf, CanonRoutes(routes))) == multiset(Map(SelectorOf, routes))
    ensures forall tag :: tag in Map(SelectorOf, CanonRoutes(routes)) <==> tag in Map(SelectorOf, routes)
  {
    CanonServices(routes);
    MapPermutation(SelectorOf, CanonRoutes(routes), Map(CanonRoute, routes));
    SameMembers(Map(SelectorOf, CanonRoutes(routes)), Map(SelectorOf, routes));
  }

  /** Whatever builds from a paired configuration commits to a well-formed one. */
  lemma CommitKeeps(env: Platform, cfg: RuntimeConfig, nodes: seq<Node>)
    requires Builds(env, cfg, nodes)
    requires Paired(cfg.selectors, cfg.routes) && ListsDirect(cfg.selectors)
    ensures WellFormed(env, Committed(cfg, nodes))
  {
    var next := Committed(cfg, nodes);
    var m := Desired(cfg, nodes);
    CommittedPaired(cfg, nodes);
    forall s | s in next.selectors ensures Durable(s) {
      CommittedDurable(cfg, nodes, s);
    }
    RoutesTwice(Map(TagOf, m.selectors), m.routes);
    NormalizingTwice(m);
  }
}
