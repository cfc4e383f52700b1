/** Which edits of a committed configuration build, told from the request, and what a commit leaves. */
module Admission {
  import opened Wrappers
  import opened Text
  import opened Sequences
  import opened Domains
  import opened RuntimeModel
  import opened Validation
  import opened Canonicity
  import opened Planner
  import opened Closure
  import opened RuntimeConfig
  import opened Commitments
  import opened Edits
  import opened Effects
  import opened Acceptance

  /******* Settings *******/

  /** A listener or a tunnel can be made of the settings. */
  predicate Acceptable(env: Platform, s: RuntimeSettings) {
    var address := TrimSpace(s.listenAddress);
    && (s.routeMode == RuleMode || s.routeMode == DirectMode || s.routeMode == AllMode)
    && (env.mobile || s.proxyMode == MixedMode || s.proxyMode == TunMode)
    && address != "" && (forall i :: 0 <= i < |address| ==> address[i] != '\r' && address[i] != '\n')
    && 1 <= s.mixedPort <= 65535
  }

  lemma OneLine(address: string)
    ensures '\r' !in address && '\n' !in address <==> forall i :: 0 <= i < |address| ==> address[i] != '\r' && address[i] != '\n'
  {
  }

  /** The planner settings are those of the configuration; a mobile system tunnels whatever was asked. */
  lemma BuiltSettings(env: Platform, s: RuntimeSettings)
    ensures BuildSettings(env, s) ==
            if Acceptable(env, s) then
              Some(Settings(false, s.listenAddress, s.mixedPort, if env.mobile then TunMode else s.proxyMode, s.ipv6, "", s.routeMode))
            else None
  {
    OneLine(TrimSpace(s.listenAddress));
  }

  /** A mixed listener also needs an address that parses. */
  lemma SettingsIff(env: Platform, s: RuntimeSettings)
    ensures SettingsOk(env, s) <==>
            Acceptable(env, s) && (env.mobile || s.proxyMode == TunMode || env.isIP(TrimSpace(s.listenAddress)))
  {
    BuiltSettings(env, s);
  }

  /******* Routes of a paired configuration *******/

  lemma ApartSymmetric(a: ServiceRoute, b: ServiceRoute)
    requires Apart(a, b)
    ensures Apart(b, a)
  {
  }

  /** The claims of routes with distinct services, without positions. */
  ghost predicate ClaimsApart(routes: seq<ServiceRoute>) {
    && (forall r :: r in routes ==> NoRepeats(r))
    && forall a, b :: a in routes && b in routes && a.serviceId != b.serviceId ==> Apart(a, b)
  }

  lemma ClaimsBySet(routes: seq<ServiceRoute>)
    requires NoDup(Map(ServiceOf, routes))
    ensures NoDup(EnabledDomains(routes)) <==> ClaimsApart(routes)
  {
    ClaimsIff(routes);
    assert forall i, j :: 0 <= i < j < |routes| ==> Map(ServiceOf, routes)[i] != Map(ServiceOf, routes)[j];
    if DistinctClaims(routes) {
      forall a, b | a in routes && b in routes && a.serviceId != b.serviceId ensures Apart(a, b) {
        var i :| 0 <= i < |routes| && routes[i] == a;
        var j :| 0 <= j < |routes| && routes[j] == b;
        if j < i {
          ApartSymmetric(b, a);
        }
      }
    }
    if ClaimsApart(routes) {
      forall i, j | 0 <= i < j < |routes| ensures Apart(routes[i], routes[j]) {
        assert routes[i] in routes && routes[j] in routes;
      }
      forall i | 0 <= i < |routes| ensures NoRepeats(routes[i]) {
        assert routes[i] in routes;
      }
    }
  }

  /** What a route must be apart from its selector. */
  ghost predicate OwnOk(r: ServiceRoute) {
    && PlainName(r.serviceId) && r.serviceId != "default"
    && r.domains != [] && forall i :: 0 <= i < |r.domains| ==> IsHostName(CanonicalDomain(r.domains[i]))
  }

  lemma OwnIff(tags: seq<string>, r: ServiceRoute)
    ensures RouteOk(tags, r) <==> OwnOk(r) && r.selector in tags && r.selector != "proxy"
  {
    NameIff(r.serviceId);
    assert forall i :: 0 <= i < |r.domains| ==> CanonicalDomains(r)[i] == CanonicalDomain(r.domains[i]);
  }

  /** Pairing gives the routes their selectors, so the rest is about services and domains. */
  lemma PairedRoutesOk(cfg: RuntimeConfig)
    requires Paired(cfg.selectors, cfg.routes)
    ensures RoutesOk(Tags(cfg), cfg.routes) <==> (forall r :: r in cfg.routes ==> OwnOk(r)) && ClaimsApart(cfg.routes)
  {
    DistinctSelectors(cfg.routes);
    ClaimsBySet(cfg.routes);
    forall r | r in cfg.routes ensures RouteOk(Tags(cfg), r) <==> OwnOk(r) {
      MapIn(SelectorOf, cfg.routes, r);
      RouteTagNotProxy(r.serviceId);
      OwnIff(Tags(cfg), r);
    }
  }

  /******* Upsert *******/

  /** The service can be written: its ID is a name other than `default`, all its domains are host names, and
      if it is enabled no domain is listed twice or taken by another enabled service. */
  ghost predicate Admissible(cfg: RuntimeConfig, req: UpsertRequest) {
    && PlainName(req.serviceId) && req.serviceId != "default"
    && req.domains != [] && (forall i :: 0 <= i < |req.domains| ==> IsHostName(CanonicalDomain(req.domains[i])))
    && (req.enabled ==>
          && (forall k, l :: 0 <= k < l < |req.domains| ==> CanonicalDomain(req.domains[k]) != CanonicalDomain(req.domains[l]))
          && forall r, k, l :: r in cfg.routes && r.enabled && r.serviceId != req.serviceId
                               && 0 <= k < |req.domains| && 0 <= l < |r.domains| ==>
               CanonicalDomain(req.domains[k]) != CanonicalDomain(r.domains[l]))
  }

  lemma AdmissibleIff(cfg: RuntimeConfig, req: UpsertRequest)
    ensures var added := UpsertRoute(cfg, req);
            Admissible(cfg, req) <==>
            OwnOk(added) && NoRepeats(added) && forall r :: r in cfg.routes && r.serviceId != req.serviceId ==> Apart(added, r)
  {
  }

  lemma PutClaims(routes: seq<ServiceRoute>, edited: seq<ServiceRoute>, added: ServiceRoute)
    requires ClaimsApart(routes) && forall r :: r in routes ==> OwnOk(r)
    requires forall r :: r in edited <==> r == added || (r in routes && r.serviceId != added.serviceId)
    ensures (forall r :: r in edited ==> OwnOk(r)) && ClaimsApart(edited) <==>
            OwnOk(added) && NoRepeats(added) && forall r :: r in routes && r.serviceId != added.serviceId ==> Apart(added, r)
  {
    forall r | r in routes && Apart(added, r) ensures Apart(r, added) {
      ApartSymmetric(added, r);
    }
  }

  lemma UpsertRoutesOk(cfg: RuntimeConfig, req: UpsertRequest, nodes: seq<Node>, now: int)
    requires Paired(cfg.selectors, cfg.routes) && ListsDirect(cfg.selectors) && RoutesOk(Tags(cfg), cfg.routes)
    ensures var edited := UpsertEdit(cfg, req, nodes, now); RoutesOk(Tags(edited), edited.routes) <==> Admissible(cfg, req)
  {
    var edited := UpsertEdit(cfg, req, nodes, now);
    UpsertPaired(cfg, req, nodes, now);
    PairedRoutesOk(cfg);
    PairedRoutesOk(edited);
    PutClaims(cfg.routes, edited.routes, UpsertRoute(cfg, req));
    AdmissibleIff(cfg, req);
  }

  lemma RouteTagOk(service: string)
    requires PlainName(service)
    ensures SelectorTagOk("route-" + service)
  {
    var tag := "route-" + service;
    assert tag[0] == 'r' && tag[|tag| - 1] == service[|service| - 1];
    TagIff(tag);
  }

  lemma UpsertDurable(cfg: RuntimeConfig, req: UpsertRequest, seen: seq<Node>, now: int)
    requires Paired(cfg.selectors, cfg.routes) && PlainName(req.serviceId) && HexPool(seen) && req.nodeId in AvailableIds(seen)
    ensures Durable(UpsertSelector(cfg, req, seen, now))
  {
    TagForPaired(cfg.selectors, cfg.routes, req.serviceId);
    RouteTagOk(req.serviceId);
    HexPoolOk(seen);
    AvailableIdsDistinct(seen);
    AppendMembers(AvailableIds(seen), DIRECT);
  }

  lemma CompilableWith(env: Platform, cfg: RuntimeConfig, edited: RuntimeConfig, added: Selector)
    requires WellFormed(env, cfg) && edited.settings == cfg.settings && Durable(added)
    requires forall s :: s in edited.selectors ==> s == added || s in cfg.selectors
    requires Paired(edited.selectors, edited.routes) && RoutesOk(Tags(edited), edited.routes)
    ensures Compilable(env, edited)
  {
  }

  lemma UpsertParts(cfg: RuntimeConfig, req: UpsertRequest, seen: seq<Node>, now: int)
    requires Paired(cfg.selectors, cfg.routes) && ListsDirect(cfg.selectors) && RoutesOk(Tags(cfg), cfg.routes)
    requires Admissible(cfg, req)
    ensures var edited := UpsertEdit(cfg, req, seen, now);
            && edited.settings == cfg.settings
            && (forall s :: s in edited.selectors ==> s == UpsertSelector(cfg, req, seen, now) || s in cfg.selectors)
            && Paired(edited.selectors, edited.routes) && RoutesOk(Tags(edited), edited.routes)
  {
    UpsertPaired(cfg, req, seen, now);
    UpsertRoutesOk(cfg, req, seen, now);
  }

  lemma WellFormedRoutes(env: Platform, cfg: RuntimeConfig)
    requires WellFormed(env, cfg)
    ensures RoutesOk(Tags(cfg), cfg.routes)
  {
  }

  lemma AdmissibleName(cfg: RuntimeConfig, req: UpsertRequest)
    requires Admissible(cfg, req)
    ensures PlainName(req.serviceId)
  {
  }

  lemma UpsertCompilable(env: Platform, cfg: RuntimeConfig, req: UpsertRequest, seen: seq<Node>, now: int)
    requires WellFormed(env, cfg) && HexPool(seen) && req.nodeId in AvailableIds(seen) && Admissible(cfg, req)
    ensures Compilable(env, UpsertEdit(cfg, req, seen, now))
  {
    WellFormedListsDirect(env, cfg);
    WellFormedRoutes(env, cfg);
    AdmissibleName(cfg, req);
    UpsertParts(cfg, req, seen, now);
    UpsertDurable(cfg, req, seen, now);
    CompilableWith(env, cfg, UpsertEdit(cfg, req, seen, now), UpsertSelector(cfg, req, seen, now));
  }

  /** What builds has acceptable routes. */
  lemma BuiltRoutes(env: Platform, cfg: RuntimeConfig, nodes: seq<Node>)
    requires Builds(env, cfg, nodes) && Paired(cfg.selectors, cfg.routes)
    ensures RoutesOk(Tags(cfg), cfg.routes)
  {
    ReconciledTags(cfg.selectors, nodes);
    forall r | r in cfg.routes ensures RouteOk(Tags(cfg), r) {
      MapIn(SelectorOf, cfg.routes, r);
      RouteTagNotProxy(r.serviceId);
    }
  }

  /** An upsert of an available node builds, for whatever pool is published by then, exactly when the
      service can be written. */
  lemma UpsertBuilds(env: Platform, cfg: RuntimeConfig, req: UpsertRequest, seen: seq<Node>, nodes: seq<Node>, now: int)
    requires WellFormed(env, cfg) && HexPool(seen) && HexPool(nodes) && req.nodeId in AvailableIds(seen)
    ensures Builds(env, UpsertEdit(cfg, req, seen, now), nodes) <==> Admissible(cfg, req)
  {
    var edited := UpsertEdit(cfg, req, seen, now);
    WellFormedListsDirect(env, cfg);
    if Admissible(cfg, req) {
      UpsertCompilable(env, cfg, req, seen, now);
      CompilableBuilds(env, edited, nodes);
    }
    if Builds(env, edited, nodes) {
      UpsertPaired(cfg, req, seen, now);
      BuiltRoutes(env, edited, nodes);
      UpsertRoutesOk(cfg, req, seen, now);
    }
  }

  /******* Delete *******/

  lemma FewerRoutesOk(cfg: RuntimeConfig, fewer: RuntimeConfig)
    requires Paired(cfg.selectors, cfg.routes) && RoutesOk(Tags(cfg), cfg.routes) && Paired(fewer.selectors, fewer.routes)
    requires forall r :: r in fewer.routes ==> r in cfg.routes
    ensures RoutesOk(Tags(fewer), fewer.routes)
  {
    PairedRoutesOk(cfg);
    PairedRoutesOk(fewer);
  }

  lemma DeletedSelectors(cfg: RuntimeConfig, id: string)
    requires Paired(cfg.selectors, cfg.routes) && FindRoute(cfg.routes, id) < |cfg.routes|
    ensures forall s :: s in DeleteEdit(cfg, id).selectors <==> s in cfg.selectors && s.tag != RouteTag(id)
  {
    TagForPaired(cfg.selectors, cfg.routes, id);
    RouteFound(cfg.routes, id);
    SelectorFound(cfg.selectors, RouteTag(id));
    var j := FindSelector(cfg.selectors, RouteTag(id));
    RemovedMembers(cfg.selectors, j);
    DistinctMap(TagOf, cfg.selectors);
    DistinctKeys(TagOf, cfg.selectors);
    forall s | s in cfg.selectors && s.tag == RouteTag(id) ensures s == cfg.selectors[j] {
      assert TagOf(s) == TagOf(cfg.selectors[j]);
    }
  }

  /** Deleting a service always builds. */
  lemma DeleteBuilds(env: Platform, cfg: RuntimeConfig, id: string, nodes: seq<Node>)
    requires WellFormed(env, cfg) && HexPool(nodes) && FindRoute(cfg.routes, id) < |cfg.routes|
    ensures Builds(env, DeleteEdit(cfg, id), nodes)
  {
    WellFormedListsDirect(env, cfg);
    DeletePaired(cfg, id);
    DeletedMembers(cfg, id);
    FewerRoutesOk(cfg, DeleteEdit(cfg, id));
    DeletedSelectors(cfg, id);
    FewerCompilable(env, cfg, DeleteEdit(cfg, id));
    CompilableBuilds(env, DeleteEdit(cfg, id), nodes);
  }

  lemma FewerCompilable(env: Platform, cfg: RuntimeConfig, fewer: RuntimeConfig)
    requires WellFormed(env, cfg) && fewer.settings == cfg.settings && forall s :: s in fewer.selectors ==> s in cfg.selectors
    requires Paired(fewer.selectors, fewer.routes) && RoutesOk(Tags(fewer), fewer.routes)
    ensures Compilable(env, fewer)
  {
  }

  /******* What a commit leaves *******/

  /** `t` is what is committed for `s`: the selection, or `direct` if it is gone; the listed members that are
      left, or for the proxy all there are; everything else as it was. */
  ghost predicate IsCommitted(nodes: seq<Node>, s: Selector, t: Selector) {
    && t.tag == s.tag && t.selectedAt == s.selectedAt && Ascending(t.nodeIds)
    && t.selected == (if s.selected == "direct" || Ready(nodes, s.selected) then s.selected else "direct")
    && forall id :: id in t.nodeIds <==> (id == "direct" || Ready(nodes, id)) && (s.tag == "proxy" || id in s.nodeIds)
  }

  lemma KeptMembers(nodes: seq<Node>, s: Selector)
    requires s.tag != PROXY ==> DIRECT in s.nodeIds
    ensures var t := ReconcileSelector(nodes, s);
            && t.tag == s.tag && t.selectedAt == s.selectedAt
            && t.selected == (if s.selected == "direct" || Ready(nodes, s.selected) then s.selected else "direct")
            && (s.tag != PROXY ==> forall id :: id in t.nodeIds <==> id in s.nodeIds && (id == "direct" || Ready(nodes, id)))
  {
    SelectableIff(nodes, s.selected);
    forall id ensures Selectable(nodes, id) <==> id == "direct" || Ready(nodes, id) {
      SelectableIff(nodes, id);
    }
    assert s.tag != PROXY ==> DIRECT in Filter(SelectableIn(nodes), s.nodeIds);
  }

  lemma CommitIff(nodes: seq<Node>, s: Selector, t: Selector)
    requires PoolOk(nodes) && SelectorOk(nodes, ReconcileSelector(nodes, s)) && (s.tag != PROXY ==> DIRECT in s.nodeIds)
    ensures t == CanonSelector(nodes, ReconcileSelector(nodes, s)) <==> IsCommitted(nodes, s, t)
  {
    KeptMembers(nodes, s);
    CanonSelectorIff(nodes, ReconcileSelector(nodes, s), t);
  }

  lemma {:induction false} FirstIsAvailable(nodes: seq<Node>)
    ensures FirstAvailable(nodes) == if AvailableIds(nodes) == [] then "direct" else AvailableIds(nodes)[0]
  {
    if nodes != [] && !Available(nodes[0]) {
      FirstIsAvailable(nodes[1..]);
      var i, j := FindFirst(Available, nodes), FindFirst(Available, nodes[1..]);
      assert i == j + 1;
    }
  }

  /** The proxy selector that a commit adds when there is none: set to the first available node. */
  function FreshProxy(nodes: seq<Node>): Selector {
    Selector("proxy", [], if AvailableIds(nodes) == [] then "direct" else AvailableIds(nodes)[0], 0)
  }

  lemma CompletedIs(selectors: seq<Selector>, nodes: seq<Node>, s: Selector)
    ensures s in WithProxy(selectors, nodes) <==>
            s in selectors || ((forall t :: t in selectors ==> t.tag != "proxy") && s == FreshProxy(nodes))
  {
    FirstIsAvailable(nodes);
    assert HasProxy(selectors) <==> exists t :: t in selectors && t.tag == "proxy";
  }

  /** A commit leaves exactly what is committed for each selector, and a proxy selector if there was none. */
  lemma CommittedAre(cfg: RuntimeConfig, nodes: seq<Node>, t: Selector)
    requires Accepts(Desired(cfg, nodes)) && ListsDirect(cfg.selectors)
    ensures t in Committed(cfg, nodes).selectors <==>
            || (exists s :: s in cfg.selectors && IsCommitted(nodes, s, t))
            || ((forall s :: s in cfg.selectors ==> s.tag != "proxy") && IsCommitted(nodes, FreshProxy(nodes), t))
  {
    CommittedFrom(cfg, nodes, t);
    if s :| s in WithProxy(cfg.selectors, nodes) && IsCommitted(nodes, s, t) {
      CompletedIs(cfg.selectors, nodes, s);
    }
    if s :| s in cfg.selectors && IsCommitted(nodes, s, t) {
      CompletedIs(cfg.selectors, nodes, s);
    }
    CompletedIs(cfg.selectors, nodes, FreshProxy(nodes));
  }

  lemma CommittedFrom(cfg: RuntimeConfig, nodes: seq<Node>, t: Selector)
    requires Accepts(Desired(cfg, nodes)) && ListsDirect(cfg.selectors)
    ensures t in Committed(cfg, nodes).selectors <==> exists s :: s in WithProxy(cfg.selectors, nodes) && IsCommitted(nodes, s, t)
  {
    CommittedMembers(cfg, nodes, t);
    forall s | s in WithProxy(cfg.selectors, nodes)
      ensures t == CanonSelector(nodes, ReconcileSelector(nodes, s)) <==> IsCommitted(nodes, s, t)
    {
      CommitsAs(cfg, nodes, s, t);
    }
  }

  lemma CommitsAs(cfg: RuntimeConfig, nodes: seq<Node>, s: Selector, t: Selector)
    requires Accepts(Desired(cfg, nodes)) && ListsDirect(cfg.selectors) && s in WithProxy(cfg.selectors, nodes)
    ensures t == CanonSelector(nodes, ReconcileSelector(nodes, s)) <==> IsCommitted(nodes, s, t)
  {
    MapIn(ReconcileIn(nodes), WithProxy(cfg.selectors, nodes), s);
    CommitIff(nodes, s, t);
  }

  /** The committed routes are the canonical ones, in order of their services; nothing else changes. */
  lemma CommittedRoutes(cfg: RuntimeConfig, nodes: seq<Node>)
    requires Accepts(Desired(cfg, nodes))
    ensures forall t :: t in Committed(cfg, nodes).routes <==> exists r :: r in cfg.routes && IsCanonRoute(r, t)
    ensures Ascending(Map(ServiceOf, Committed(cfg, nodes).routes)) && Ascending(Tags(Committed(cfg, nodes)))
    ensures Committed(cfg, nodes).settings == cfg.settings && Committed(cfg, nodes).poolRevision == cfg.poolRevision
  {
    AllCanonRoutes(cfg.routes);
    CanonTagsAscend(nodes, Reconciled(cfg.selectors, nodes));
  }
}
