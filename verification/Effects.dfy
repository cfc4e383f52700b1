/** The effect of committed route edits: which routes and selectors change, and that adding a service
    and deleting it again restores the configuration. */
module Effects {
  import opened Wrappers
  import opened Text
  import opened Sequences
  import opened RuntimeModel
  import opened Validation
  import opened Canonicity
  import opened Planner
  import opened Closure
  import opened Identity
  import opened RuntimeConfig
  import opened Commitments
  import opened Edits

  /******* Settled configurations *******/

  /** Committing `cfg` against `nodes` changes nothing. */
  ghost predicate Settled(cfg: RuntimeConfig, nodes: seq<Node>) {
    Accepts(Desired(cfg, nodes)) && Committed(cfg, nodes) == cfg
  }

  /** Reconciliation with an accepted pool does not touch a canonical selector. */
  lemma AcceptedReconciled(nodes: seq<Node>, s: Selector)
    requires PoolOk(nodes) && SelectorOk(nodes, s) && CanonSelector(nodes, s) == s
    ensures ReconcileSelector(nodes, s) == s
    ensures s.selected != "" && Selectable(nodes, s.selected)
  {
    AvailableIdsMember(nodes, "");
    FilterAll(SelectableIn(nodes), s.nodeIds);
  }

  lemma CommittedElements(cfg: RuntimeConfig, nodes: seq<Node>, s: Selector)
    requires Accepts(Desired(cfg, nodes)) && s in Committed(cfg, nodes).selectors
    ensures SelectorOk(nodes, s) && CanonSelector(nodes, s) == s && ReconcileSelector(nodes, s) == s
    ensures s.selected != "" && Selectable(nodes, s.selected)
  {
    var reconciled := Reconciled(cfg.selectors, nodes);
    SelectorsTwice(nodes, reconciled);
    CanonSelectorsElements(nodes, reconciled, s);
    AcceptedReconciled(nodes, s);
  }

  lemma CommittedHasProxy(cfg: RuntimeConfig, nodes: seq<Node>)
    requires Accepts(Desired(cfg, nodes))
    ensures HasProxy(Committed(cfg, nodes).selectors)
    ensures NoDup(Map(TagOf, Committed(cfg, nodes).selectors))
  {
    var reconciled := Reconciled(cfg.selectors, nodes);
    ReconciledTags(cfg.selectors, nodes);
    CanonSelectorsSorted(nodes, reconciled);
    SameMembers(Map(TagOf, CanonSelectors(nodes, reconciled)), Map(TagOf, reconciled));
    ReconciledTags(CanonSelectors(nodes, reconciled), nodes);
  }

  /** Committing twice against the same pool is committing once, and compiles to the same content. */
  lemma CommittedIsSettled(cfg: RuntimeConfig, nodes: seq<Node>)
    requires Accepts(Desired(cfg, nodes))
    ensures Settled(Committed(cfg, nodes), nodes)
    ensures Canonical(Desired(Committed(cfg, nodes), nodes)) == Canonical(Desired(cfg, nodes))
  {
    var next := Committed(cfg, nodes);
    CommittedHasProxy(cfg, nodes);
    forall s | s in next.selectors ensures ReconcileIn(nodes)(s) == s {
      CommittedElements(cfg, nodes, s);
    }
    MapFixed(ReconcileIn(nodes), next.selectors);
    assert Desired(next, nodes) == Canonical(Desired(cfg, nodes));
    NormalizingTwice(Desired(cfg, nodes));
  }

  /******* Permuted edits *******/

  /** Reordering a configuration's lists does not show in what it commits to. */
  lemma CommittedPermutation(a: RuntimeConfig, b: RuntimeConfig, nodes: seq<Node>)
    requires multiset(a.selectors) == multiset(b.selectors) && multiset(a.routes) == multiset(b.routes)
    requires Accepts(Desired(a, nodes))
    ensures Accepts(Desired(b, nodes))
    ensures Canonical(Desired(a, nodes)) == Canonical(Desired(b, nodes))
  {
    WithProxyPermutation(a.selectors, b.selectors, nodes);
    MapPermutation(ReconcileIn(nodes), WithProxy(a.selectors, nodes), WithProxy(b.selectors, nodes));
    MapPermutation(ViewSelector, Reconciled(a.selectors, nodes), Reconciled(b.selectors, nodes));
    MapPermutation(ViewRoute, a.routes, b.routes);
    OrderIrrelevant(Desired(a, nodes), Desired(b, nodes));
  }

  lemma WithProxyPermutation(a: seq<Selector>, b: seq<Selector>, nodes: seq<Node>)
    requires multiset(a) == multiset(b)
    ensures multiset(WithProxy(a, nodes)) == multiset(WithProxy(b, nodes))
  {
    ReconciledTags(a, nodes);
    ReconciledTags(b, nodes);
    MapPermutation(TagOf, a, b);
    SameMembers(Map(TagOf, a), Map(TagOf, b));
  }

  /******* Adding a fresh service *******/

  lemma ReconciledOneMore(selectors: seq<Selector>, nodes: seq<Node>, s: Selector)
    requires HasProxy(selectors) && Map(ReconcileIn(nodes), selectors) == selectors
    ensures Reconciled(selectors + [s], nodes) == selectors + [ReconcileSelector(nodes, s)]
  {
    var i :| 0 <= i < |selectors| && selectors[i].tag == PROXY;
    assert (selectors + [s])[i].tag == PROXY;
    MapAppend(ReconcileIn(nodes), selectors, s);
  }

  lemma SortOneMore(nodes: seq<Node>, selectors: seq<Selector>, t: Selector)
    requires Map(CanonSelectorIn(nodes), selectors) == selectors
    ensures multiset(CanonSelectors(nodes, selectors + [t])) == multiset(selectors) + multiset{CanonSelector(nodes, t)}
  {
    MapAppend(CanonSelectorIn(nodes), selectors, t);
  }

  /** Committing settled selectors and one more adds just that one. */
  lemma CommitOneMore(cfg: RuntimeConfig, nodes: seq<Node>, s: Selector)
    requires Settled(cfg, nodes)
    ensures multiset(CanonSelectors(nodes, Reconciled(cfg.selectors + [s], nodes))) ==
            multiset(cfg.selectors) + multiset{CanonSelector(nodes, ReconcileSelector(nodes, s))}
  {
    CommittedHasProxy(cfg, nodes);
    SettledFixed(cfg, nodes);
    ReconciledOneMore(cfg.selectors, nodes, s);
    SortOneMore(nodes, cfg.selectors, ReconcileSelector(nodes, s));
  }

  lemma SettledFixed(cfg: RuntimeConfig, nodes: seq<Node>)
    requires Settled(cfg, nodes)
    ensures Map(ReconcileIn(nodes), cfg.selectors) == cfg.selectors
    ensures Map(CanonSelectorIn(nodes), cfg.selectors) == cfg.selectors
  {
    forall s | s in cfg.selectors ensures ReconcileIn(nodes)(s) == s && CanonSelectorIn(nodes)(s) == s {
      CommittedElements(cfg, nodes, s);
    }
    MapFixed(ReconcileIn(nodes), cfg.selectors);
    MapFixed(CanonSelectorIn(nodes), cfg.selectors);
  }

  lemma CanonRoutesOneMore(routes: seq<ServiceRoute>, r: ServiceRoute)
    requires Map(CanonRoute, routes) == routes
    ensures multiset(CanonRoutes(routes + [r])) == multiset(routes) + multiset{CanonRoute(r)}
  {
    MapAppend(CanonRoute, routes, r);
  }

  lemma CanonRoutesFixed(tags: seq<string>, routes: seq<ServiceRoute>)
    requires CanonRoutes(routes) == routes && RoutesOk(tags, routes)
    ensures Map(CanonRoute, routes) == routes
  {
    forall r | r in routes ensures CanonRoute(r) == r {
      CanonRoutesElements(tags, routes, r);
    }
    MapFixed(CanonRoute, routes);
  }

  /** A fresh service adds one selector and one route to a settled configuration. */
  lemma UpsertFresh(env: Platform, cfg: RuntimeConfig, req: UpsertRequest, nodes: seq<Node>, now: int)
    requires WellFormed(env, cfg) && Settled(cfg, nodes)
    requires req.serviceId !in Map(ServiceOf, cfg.routes)
    ensures var next := Committed(UpsertEdit(cfg, req, nodes, now), nodes);
            && (exists s: Selector :: s.tag == RouteTag(req.serviceId) && multiset(next.selectors) == multiset(cfg.selectors) + multiset{s})
            && (exists r: ServiceRoute :: r.serviceId == req.serviceId && multiset(next.routes) == multiset(cfg.routes) + multiset{r})
  {
    var s, r := UpsertSelector(cfg, req, nodes, now), UpsertRoute(cfg, req);
    TagForPaired(cfg.selectors, cfg.routes, req.serviceId);
    SelectorFound(cfg.selectors, s.tag);
    RouteFound(cfg.routes, req.serviceId);
    CommitOneMore(cfg, nodes, s);
    CanonRoutesFixed(Tags(cfg), cfg.routes);
    CanonRoutesOneMore(cfg.routes, r);
    var t := CanonSelector(nodes, ReconcileSelector(nodes, s));
    assert t.tag == RouteTag(req.serviceId);
    assert CanonRoute(r).serviceId == req.serviceId;
  }

  /** Finding and removing by key the one element that was added. */
  lemma FoundIsAdded<T(!new)>(key: T -> string, p: T -> bool, s: seq<T>, before: seq<T>, x: T)
    requires NoDup(Map(key, s)) && multiset(s) == multiset(before) + multiset{x}
    requires forall y :: y in s ==> (p(y) <==> key(y) == key(x))
    ensures var i := FindFirst(p, s);
            i < |s| && s[i] == x && multiset(RemoveAt(s, i)) == multiset(before)
  {
    var i := FindFirst(p, s);
    AddedIn(s, before, x);
    FoundByKey(key, p, s, x);
    WithoutAdded(s, before, x, i);
  }

  lemma AddedIn<T>(s: seq<T>, before: seq<T>, x: T)
    requires multiset(s) == multiset(before) + multiset{x}
    ensures x in s
  {
    assert x in multiset(s);
  }

  lemma FoundByKey<T(!new)>(key: T -> string, p: T -> bool, s: seq<T>, x: T)
    requires NoDup(Map(key, s)) && x in s
    requires forall y :: y in s ==> (p(y) <==> key(y) == key(x))
    ensures FindFirst(p, s) < |s| && s[FindFirst(p, s)] == x
  {
    FindByKey(key, p, s, key(x));
    MapIn(key, s, x);
    var i := FindFirst(p, s);
    var j :| 0 <= j < |s| && s[j] == x;
    assert Map(key, s)[i] == Map(key, s)[j];
  }

  lemma WithoutAdded<T>(s: seq<T>, before: seq<T>, x: T, i: nat)
    requires multiset(s) == multiset(before) + multiset{x} && i < |s| && s[i] == x
    ensures multiset(RemoveAt(s, i)) == multiset(before)
  {
    RemoveOne(s, i);
  }

  /** Deleting a service that was added to `before` gives back the contents of `before`. */
  lemma DeleteAdded(before: RuntimeConfig, cfg: RuntimeConfig, id: string, s: Selector, r: ServiceRoute)
    requires Paired(cfg.selectors, cfg.routes)
    requires s.tag == RouteTag(id) && multiset(cfg.selectors) == multiset(before.selectors) + multiset{s}
    requires r.serviceId == id && multiset(cfg.routes) == multiset(before.routes) + multiset{r}
    ensures FindRoute(cfg.routes, id) < |cfg.routes|
    ensures var next := DeleteEdit(cfg, id);
            multiset(next.selectors) == multiset(before.selectors) && multiset(next.routes) == multiset(before.routes)
  {
    FoundIsAdded(ServiceOf, WithService(id), cfg.routes, before.routes, r);
    assert r in multiset(cfg.routes);
    assert r.selector == RouteTag(id);
    FoundIsAdded(TagOf, WithTag(RouteTag(id)), cfg.selectors, before.selectors, s);
  }

  /** From a configuration committed against the current pool, adding a fresh service and deleting it
      again succeeds and restores selectors, routes and settings exactly. */
  lemma UpsertThenDelete(env: Platform, cfg: RuntimeConfig, req: UpsertRequest, nodes: seq<Node>, now: int)
    requires WellFormed(env, cfg) && Settled(cfg, nodes) && HexPool(nodes)
    requires req.serviceId !in Map(ServiceOf, cfg.routes)
    requires Builds(env, UpsertEdit(cfg, req, nodes, now), nodes)
    ensures var added := Committed(UpsertEdit(cfg, req, nodes, now), nodes);
            && FindRoute(added.routes, req.serviceId) < |added.routes|
            && Builds(env, DeleteEdit(added, req.serviceId), nodes)
            && Committed(DeleteEdit(added, req.serviceId), nodes) == cfg
  {
    var edited := UpsertEdit(cfg, req, nodes, now);
    var added := Committed(edited, nodes);
    WellFormedListsDirect(env, cfg);
    UpsertPaired(cfg, req, nodes, now);
    CommitKeeps(env, edited, nodes);
    WellFormedListsDirect(env, added);
    UpsertFresh(env, cfg, req, nodes, now);
    var s: Selector :| s.tag == RouteTag(req.serviceId) && multiset(added.selectors) == multiset(cfg.selectors) + multiset{s};
    var r: ServiceRoute :| r.serviceId == req.serviceId && multiset(added.routes) == multiset(cfg.routes) + multiset{r};
    DeleteAdded(cfg, added, req.serviceId, s, r);
    RestoredBuilds(env, cfg, DeleteEdit(added, req.serviceId), nodes);
  }

  lemma WellFormedListsDirect(env: Platform, cfg: RuntimeConfig)
    requires WellFormed(env, cfg)
    ensures Paired(cfg.selectors, cfg.routes) && ListsDirect(cfg.selectors)
  {
  }

  /** A reordering of a settled configuration builds and commits to it. */
  lemma RestoredBuilds(env: Platform, cfg: RuntimeConfig, other: RuntimeConfig, nodes: seq<Node>)
    requires WellFormed(env, cfg) && Settled(cfg, nodes) && HexPool(nodes)
    requires multiset(other.selectors) == multiset(cfg.selectors) && multiset(other.routes) == multiset(cfg.routes)
    requires other.settings == cfg.settings && other.poolRevision == cfg.poolRevision
    ensures Builds(env, other, nodes) && Committed(other, nodes) == cfg
  {
    BuildableLater(env, cfg, nodes);
    CommittedPermutation(cfg, other, nodes);
  }

  /******* What one edit changes *******/

  /** After an upsert the routes are the others, untouched, and the requested one in canonical form. */
  lemma UpsertEffect(env: Platform, cfg: RuntimeConfig, req: UpsertRequest, seen: seq<Node>, nodes: seq<Node>, now: int)
    requires WellFormed(env, cfg) && Builds(env, UpsertEdit(cfg, req, seen, now), nodes)
    ensures var next := Committed(UpsertEdit(cfg, req, seen, now), nodes);
            forall r :: r in next.routes <==>
                        r == CanonRoute(UpsertRoute(cfg, req)) || (r in cfg.routes && r.serviceId != req.serviceId)
  {
    var edited, added := UpsertEdit(cfg, req, seen, now), UpsertRoute(cfg, req);
    CanonRoutesFixed(Tags(cfg), cfg.routes);
    PutRouteMembers(cfg.routes, added);
    forall r ensures r in CanonRoutes(edited.routes) <==>
                     r == CanonRoute(added) || (r in cfg.routes && r.serviceId != req.serviceId)
    {
      SortMembers(ServiceBefore, Map(CanonRoute, edited.routes));
      CanonMembers(cfg.routes, edited.routes, added, r);
    }
  }

  lemma CanonMembers(kept: seq<ServiceRoute>, edited: seq<ServiceRoute>, added: ServiceRoute, r: ServiceRoute)
    requires Map(CanonRoute, kept) == kept
    requires forall x :: x in edited <==> x == added || (x in kept && x.serviceId != added.serviceId)
    ensures r in Map(CanonRoute, edited) <==> r == CanonRoute(added) || (r in kept && r.serviceId != added.serviceId)
  {
    if r in Map(CanonRoute, edited) {
      var o := MapOrigin(CanonRoute, edited, r);
      if o != added {
        FixedMember(CanonRoute, kept, o);
      }
    }
    if r in kept && r.serviceId != added.serviceId {
      FixedMember(CanonRoute, kept, r);
      MapIn(CanonRoute, edited, r);
    }
    MapIn(CanonRoute, edited, added);
  }

  lemma FixedMember<T>(f: T -> T, s: seq<T>, x: T)
    requires Map(f, s) == s && x in s
    ensures f(x) == x
  {
    var i :| 0 <= i < |s| && s[i] == x;
    assert Map(f, s)[i] == f(x);
  }

  /** After an upsert the service's selector is set to the requested node, or to `direct` if the node
      was gone by the time the pool was read again. */
  lemma UpsertSelects(env: Platform, cfg: RuntimeConfig, req: UpsertRequest, seen: seq<Node>, nodes: seq<Node>, now: int)
    requires WellFormed(env, cfg) && Builds(env, UpsertEdit(cfg, req, seen, now), nodes)
    ensures var next := Committed(UpsertEdit(cfg, req, seen, now), nodes);
            exists s :: s in next.selectors && s.tag == RouteTag(req.serviceId)
                        && s.selected == if Selectable(nodes, req.nodeId) then req.nodeId else DIRECT
  {
    var edited, added := UpsertEdit(cfg, req, seen, now), UpsertSelector(cfg, req, seen, now);
    TagForPaired(cfg.selectors, cfg.routes, req.serviceId);
    PutSelectorIn(cfg.selectors, added);
    CommittedSelection(edited, nodes, added);
  }

  lemma CommittedMembers(cfg: RuntimeConfig, nodes: seq<Node>, t: Selector)
    ensures t in Committed(cfg, nodes).selectors <==>
            exists s :: s in WithProxy(cfg.selectors, nodes) && t == CanonSelector(nodes, ReconcileSelector(nodes, s))
  {
    var all := WithProxy(cfg.selectors, nodes);
    if t in Committed(cfg, nodes).selectors {
      CanonSelectorsElements(nodes, Reconciled(cfg.selectors, nodes), t);
      var u :| u in Reconciled(cfg.selectors, nodes) && t == CanonSelector(nodes, u);
      var s := MapOrigin(ReconcileIn(nodes), all, u);
    }
    if s :| s in all && t == CanonSelector(nodes, ReconcileSelector(nodes, s)) {
      MapIn(ReconcileIn(nodes), all, s);
      CanonSelectorsMember(nodes, Reconciled(cfg.selectors, nodes), ReconcileSelector(nodes, s));
    }
  }

  lemma SameOthers(a: seq<Selector>, b: seq<Selector>, nodes: seq<Node>, tag: string, s: Selector)
    requires tag != PROXY && forall t: Selector :: t.tag != tag ==> (t in a <==> t in b)
    requires s.tag != tag
    ensures s in WithProxy(a, nodes) <==> s in WithProxy(b, nodes)
  {
    assert HasProxy(a) == HasProxy(b) by {
      if i :| 0 <= i < |a| && a[i].tag == PROXY {
        assert a[i] in b;
      }
      if i :| 0 <= i < |b| && b[i].tag == PROXY {
        assert b[i] in a;
      }
    }
  }

  /** An upsert leaves every other selector as committing without it would. */
  lemma UpsertOthers(env: Platform, cfg: RuntimeConfig, req: UpsertRequest, seen: seq<Node>, nodes: seq<Node>, now: int, t: Selector)
    requires WellFormed(env, cfg) && t.tag != RouteTag(req.serviceId)
    ensures t in Committed(UpsertEdit(cfg, req, seen, now), nodes).selectors <==> t in Committed(cfg, nodes).selectors
  {
    var edited, tag := UpsertEdit(cfg, req, seen, now), RouteTag(req.serviceId);
    WellFormedListsDirect(env, cfg);
    UpsertPaired(cfg, req, seen, now);
    RouteTagNotProxy(req.serviceId);
    CommittedMembers(cfg, nodes, t);
    CommittedMembers(edited, nodes, t);
    forall s | t == CanonSelector(nodes, ReconcileSelector(nodes, s))
      ensures s in WithProxy(edited.selectors, nodes) <==> s in WithProxy(cfg.selectors, nodes)
    {
      CommittedFields(nodes, s);
      SameOthers(edited.selectors, cfg.selectors, nodes, tag, s);
    }
  }

  lemma PutSelectorIn(selectors: seq<Selector>, s: Selector)
    ensures s in PutSelector(selectors, s)
  {
    var i := FindSelector(selectors, s.tag);
    if i < |selectors| {
      assert PutSelector(selectors, s)[i] == s;
    }
  }

  lemma CanonSelectorsMember(nodes: seq<Node>, selectors: seq<Selector>, t: Selector)
    requires t in selectors
    ensures CanonSelector(nodes, t) in CanonSelectors(nodes, selectors)
  {
    MapIn(CanonSelectorIn(nodes), selectors, t);
    SortMembers(TagBefore, Map(CanonSelectorIn(nodes), selectors));
  }

  lemma ReconciledMember(nodes: seq<Node>, selectors: seq<Selector>, s: Selector)
    requires s in selectors
    ensures ReconcileSelector(nodes, s) in Reconciled(selectors, nodes)
  {
    assert s in WithProxy(selectors, nodes);
    MapIn(ReconcileIn(nodes), WithProxy(selectors, nodes), s);
  }

  /** Committing a selector keeps its tag and its selection, unless the node is gone. */
  lemma CommittedSelection(cfg: RuntimeConfig, nodes: seq<Node>, s: Selector)
    requires s in cfg.selectors
    ensures exists t :: t in Committed(cfg, nodes).selectors && t.tag == s.tag
                        && t.selected == if Selectable(nodes, s.selected) then s.selected else DIRECT
  {
    ReconciledMember(nodes, cfg.selectors, s);
    CanonSelectorsMember(nodes, Reconciled(cfg.selectors, nodes), ReconcileSelector(nodes, s));
    CommittedFields(nodes, s);
  }

  lemma CommittedFields(nodes: seq<Node>, s: Selector)
    ensures var t := CanonSelector(nodes, ReconcileSelector(nodes, s));
            t.tag == s.tag && t.selected == if Selectable(nodes, s.selected) then s.selected else DIRECT
  {
  }

  /** A delete leaves every other route and selector tag as it was. */
  lemma DeleteEffect(env: Platform, cfg: RuntimeConfig, id: string, nodes: seq<Node>)
    requires WellFormed(env, cfg) && FindRoute(cfg.routes, id) < |cfg.routes|
    requires Builds(env, DeleteEdit(cfg, id), nodes)
    ensures var next := Committed(DeleteEdit(cfg, id), nodes);
            && (forall r :: r in next.routes <==> r in cfg.routes && r.serviceId != id)
            && (forall tag :: tag in Tags(next) && tag != PROXY <==> tag in Tags(cfg) && tag != PROXY && tag != RouteTag(id))
  {
    WellFormedListsDirect(env, cfg);
    DeletePaired(cfg, id);
    DeletedMembers(cfg, id);
    CanonRoutesFixed(Tags(cfg), cfg.routes);
    CanonOfFixed(cfg.routes, DeleteEdit(cfg, id).routes);
    CommittedTags(DeleteEdit(cfg, id), nodes);
  }

  lemma CanonOfFixed(routes: seq<ServiceRoute>, fewer: seq<ServiceRoute>)
    requires Map(CanonRoute, routes) == routes && forall r :: r in fewer ==> r in routes
    ensures forall r :: r in CanonRoutes(fewer) <==> r in fewer
  {
    forall r | r in fewer ensures CanonRoute(r) == r {
      FixedMember(CanonRoute, routes, r);
    }
    MapFixed(CanonRoute, fewer);
    SortMembers(ServiceBefore, fewer);
  }

  lemma CommittedTags(cfg: RuntimeConfig, nodes: seq<Node>)
    requires NoDup(Tags(cfg))
    ensures forall tag :: tag in Tags(Committed(cfg, nodes)) <==> tag in Tags(cfg) || tag == PROXY
  {
    ReconciledTags(cfg.selectors, nodes);
    CanonSelectorsSorted(nodes, Reconciled(cfg.selectors, nodes));
    SameMembers(Tags(Committed(cfg, nodes)), Map(TagOf, Reconciled(cfg.selectors, nodes)));
  }

  lemma DeletedMembers(cfg: RuntimeConfig, id: string)
    requires Paired(cfg.selectors, cfg.routes) && FindRoute(cfg.routes, id) < |cfg.routes|
    ensures var next := DeleteEdit(cfg, id);
            && (forall r :: r in next.routes <==> r in cfg.routes && r.serviceId != id)
            && (forall tag :: tag in Tags(next) <==> tag in Tags(cfg) && tag != RouteTag(id))
  {
    var i := FindRoute(cfg.routes, id);
    RouteFound(cfg.routes, id);
    TagForPaired(cfg.selectors, cfg.routes, id);
    SelectorFound(cfg.selectors, RouteTag(id));
    var j := FindSelector(cfg.selectors, RouteTag(id));
    RemovedMembers(cfg.routes, i);
    DistinctMap(ServiceOf, cfg.routes);
    DistinctKeys(ServiceOf, cfg.routes);
    forall r | r in cfg.routes && r.serviceId == id ensures r == cfg.routes[i] {
      assert ServiceOf(r) == ServiceOf(cfg.routes[i]);
    }
    MapRemoveAt(TagOf, cfg.selectors, j);
    RemovedMembers(Tags(cfg), j);
  }
}
