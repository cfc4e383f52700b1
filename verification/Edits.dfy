/** What the route and selection requests do to a committed configuration. */
module Edits {
  import opened Wrappers
  import opened Text
  import opened Sequences
  import opened RuntimeModel
  import opened Validation
  import opened Canonicity
  import opened Planner
  import opened Closure
  import opened Identity
  import opened RuntimeConfig
  import opened Commitments

  /******* Lookups *******/

  lemma FindByKey<T>(key: T -> string, p: T -> bool, s: seq<T>, k: string)
    requires forall x :: x in s ==> (p(x) <==> key(x) == k)
    ensures FindFirst(p, s) < |s| <==> k in Map(key, s)
    ensures FindFirst(p, s) < |s| ==> key(s[FindFirst(p, s)]) == k
  {
    var i := FindFirst(p, s);
    if i < |s| {
      assert s[i] in s;
      MapIn(key, s, s[i]);
    }
    if k in Map(key, s) {
      var j :| 0 <= j < |s| && Map(key, s)[j] == k;
      assert s[j] in s;
    }
  }

  lemma SelectorFound(selectors: seq<Selector>, tag: string)
    ensures FindSelector(selectors, tag) < |selectors| <==> tag in Map(TagOf, selectors)
    ensures FindSelector(selectors, tag) < |selectors| ==> selectors[FindSelector(selectors, tag)].tag == tag
  {
    FindByKey(TagOf, WithTag(tag), selectors, tag);
  }

  lemma RouteFound(routes: seq<ServiceRoute>, id: string)
    ensures FindRoute(routes, id) < |routes| <==> id in Map(ServiceOf, routes)
    ensures FindRoute(routes, id) < |routes| ==> routes[FindRoute(routes, id)].serviceId == id
  {
    FindByKey(ServiceOf, WithService(id), routes, id);
  }

  lemma ReadyIsAvailable(nodes: seq<Node>, id: string)
    requires NodeReady(nodes, id)
    ensures id in AvailableIds(nodes)
  {
    var i := FindNode(nodes, id);
    assert nodes[i] in nodes;
    AvailableIdsMember(nodes, id);
  }

  /** In a pool with distinct IDs, looking a node up and checking it is asking for an available node. */
  lemma NodeReadyIff(nodes: seq<Node>, id: string)
    requires NoDup(Map(IdOf, nodes))
    ensures NodeReady(nodes, id) <==> id in AvailableIds(nodes)
  {
    AvailableIdsMember(nodes, id);
    FindByKey(IdOf, WithId(id), nodes, id);
    var i := FindNode(nodes, id);
    if n :| n in nodes && n.IsAvailable() && n.id == id {
      MapIn(IdOf, nodes, n);
      DistinctKeys(IdOf, nodes);
      assert nodes[i] in nodes && IdOf(nodes[i]) == IdOf(n);
    }
    if i < |nodes| {
      assert nodes[i] in nodes;
    }
  }

  /******* Replacing by key *******/

  lemma UpdateKeys<T(!new)>(key: T -> string, s: seq<T>, i: nat, x: T)
    requires i < |s| && key(s[i]) == key(x)
    ensures Map(key, s[i := x]) == Map(key, s)
    ensures forall y :: y in s[i := x] ==> y == x || y in s
  {
    forall y | y in s[i := x] && y != x ensures y in s {
      var k :| 0 <= k < |s| && s[i := x][k] == y;
      assert s[k] == y;
    }
  }

  /** Replacing the element with a key leaves exactly the elements with other keys. */
  lemma ReplacedMembers<T(!new)>(key: T -> string, s: seq<T>, i: nat, x: T)
    requires NoDup(Map(key, s)) && i < |s| && key(s[i]) == key(x)
    ensures forall y :: y in s[i := x] <==> y == x || (y in s && key(y) != key(x))
  {
    var t := s[i := x];
    forall y | y in t && y != x ensures y in s && key(y) != key(x) {
      var k :| 0 <= k < |s| && t[k] == y;
      assert s[k] == y && Map(key, s)[k] != Map(key, s)[i];
    }
    forall y | y in s && key(y) != key(x) ensures y in t {
      var k :| 0 <= k < |s| && s[k] == y;
      assert t[k] == y;
    }
    assert t[i] == x;
  }

  lemma PutSelectorMembers(selectors: seq<Selector>, s: Selector)
    requires NoDup(Map(TagOf, selectors))
    ensures forall t :: t in PutSelector(selectors, s) <==> t == s || (t in selectors && t.tag != s.tag)
  {
    SelectorFound(selectors, s.tag);
    var i := FindSelector(selectors, s.tag);
    if i < |selectors| {
      ReplacedMembers(TagOf, selectors, i, s);
    } else {
      AppendMembers(selectors, s);
      AbsentKey(TagOf, selectors, s.tag);
    }
  }

  lemma PutRouteMembers(routes: seq<ServiceRoute>, added: ServiceRoute)
    requires NoDup(Map(ServiceOf, routes))
    ensures forall r :: r in PutRoute(routes, added) <==> r == added || (r in routes && r.serviceId != added.serviceId)
  {
    RouteFound(routes, added.serviceId);
    var i := FindRoute(routes, added.serviceId);
    if i < |routes| {
      ReplacedMembers(ServiceOf, routes, i, added);
    } else {
      AppendMembers(routes, added);
      AbsentKey(ServiceOf, routes, added.serviceId);
    }
  }

  lemma AbsentKey<T(!new)>(key: T -> string, s: seq<T>, k: string)
    requires k !in Map(key, s)
    ensures forall x :: x in s ==> key(x) != k
  {
    forall x | x in s ensures key(x) != k {
      MapIn(key, s, x);
    }
  }

  lemma PutSelectorTags(selectors: seq<Selector>, s: Selector)
    ensures Map(TagOf, PutSelector(selectors, s)) ==
            if s.tag in Map(TagOf, selectors) then Map(TagOf, selectors) else Map(TagOf, selectors) + [s.tag]
    ensures forall t :: t in PutSelector(selectors, s) ==> t == s || t in selectors
  {
    SelectorFound(selectors, s.tag);
    var i := FindSelector(selectors, s.tag);
    if i < |selectors| {
      UpdateKeys(TagOf, selectors, i, s);
    } else {
      MapAppend(TagOf, selectors, s);
    }
  }

  lemma PutRouteServices(routes: seq<ServiceRoute>, r: ServiceRoute)
    ensures Map(ServiceOf, PutRoute(routes, r)) ==
            if r.serviceId in Map(ServiceOf, routes) then Map(ServiceOf, routes) else Map(ServiceOf, routes) + [r.serviceId]
    ensures forall t :: t in PutRoute(routes, r) ==> t == r || t in routes
  {
    RouteFound(routes, r.serviceId);
    var i := FindRoute(routes, r.serviceId);
    if i < |routes| {
      UpdateKeys(ServiceOf, routes, i, r);
    } else {
      MapAppend(ServiceOf, routes, r);
    }
  }

  lemma PutRouteSelectors(routes: seq<ServiceRoute>, r: ServiceRoute)
    requires r.selector == TagFor(routes, r.serviceId)
    ensures Map(SelectorOf, PutRoute(routes, r)) ==
            if r.serviceId in Map(ServiceOf, routes) then Map(SelectorOf, routes) else Map(SelectorOf, routes) + [r.selector]
  {
    RouteFound(routes, r.serviceId);
    var i := FindRoute(routes, r.serviceId);
    if i < |routes| {
      UpdateKeys(SelectorOf, routes, i, r);
    } else {
      MapAppend(SelectorOf, routes, r);
    }
  }

  /******* Upsert *******/

  function UpsertRoute(cfg: RuntimeConfig, req: UpsertRequest): ServiceRoute {
    ServiceRoute(req.serviceId, req.displayName, req.domains, TagFor(cfg.routes, req.serviceId), req.enabled)
  }

  function UpsertSelector(cfg: RuntimeConfig, req: UpsertRequest, nodes: seq<Node>, now: int): Selector {
    Selector(TagFor(cfg.routes, req.serviceId), AvailableIds(nodes) + [DIRECT], req.nodeId, now)
  }

  lemma TagForPaired(selectors: seq<Selector>, routes: seq<ServiceRoute>, id: string)
    requires Paired(selectors, routes)
    ensures TagFor(routes, id) == RouteTag(id)
    ensures RouteTag(id) in Map(TagOf, selectors) <==> id in Map(ServiceOf, routes)
    ensures RouteTag(id) in Map(SelectorOf, routes) <==> id in Map(ServiceOf, routes)
  {
    RouteFound(routes, id);
    RouteTagNotProxy(id);
    var i := FindRoute(routes, id);
    if i < |routes| {
      assert routes[i] in routes;
      MapIn(SelectorOf, routes, routes[i]);
    }
    if RouteTag(id) in Map(SelectorOf, routes) {
      var r := MapOrigin(SelectorOf, routes, RouteTag(id));
      RouteTagInjective(r.serviceId, id);
      MapIn(ServiceOf, routes, r);
    }
  }

  /** An upsert adds one pair or rewrites one, and leaves every other selector and route as it is. */
  lemma UpsertPaired(cfg: RuntimeConfig, req: UpsertRequest, nodes: seq<Node>, now: int)
    requires Paired(cfg.selectors, cfg.routes) && ListsDirect(cfg.selectors)
    ensures var next := UpsertEdit(cfg, req, nodes, now);
            Paired(next.selectors, next.routes) && ListsDirect(next.selectors)
    ensures var next, tag := UpsertEdit(cfg, req, nodes, now), RouteTag(req.serviceId);
            && Tags(next) == (if tag in Tags(cfg) then Tags(cfg) else Tags(cfg) + [tag])
            && (forall t :: t in next.selectors <==>
                  t == UpsertSelector(cfg, req, nodes, now) || (t in cfg.selectors && t.tag != tag))
            && UpsertSelector(cfg, req, nodes, now).tag == tag
    ensures var next, id, services := UpsertEdit(cfg, req, nodes, now), req.serviceId, Map(ServiceOf, cfg.routes);
            && Map(ServiceOf, next.routes) == (if id in services then services else services + [id])
            && (forall r :: r in next.routes <==> r == UpsertRoute(cfg, req) || (r in cfg.routes && r.serviceId != id))
  {
    PutSelectorMembers(cfg.selectors, UpsertSelector(cfg, req, nodes, now));
    PutRouteMembers(cfg.routes, UpsertRoute(cfg, req));
    var s, r := UpsertSelector(cfg, req, nodes, now), UpsertRoute(cfg, req);
    TagForPaired(cfg.selectors, cfg.routes, req.serviceId);
    RouteTagNotProxy(req.serviceId);
    PutSelectorTags(cfg.selectors, s);
    PutRouteServices(cfg.routes, r);
    PutRouteSelectors(cfg.routes, r);
    NoDupAppend(Map(TagOf, cfg.selectors), s.tag);
    NoDupAppend(Map(ServiceOf, cfg.routes), r.serviceId);
    AppendMembers(Map(TagOf, cfg.selectors), s.tag);
    AppendMembers(Map(SelectorOf, cfg.routes), r.selector);
  }

  /******* Delete *******/

  /** A delete removes exactly one pair. */
  lemma DeletePaired(cfg: RuntimeConfig, id: string)
    requires Paired(cfg.selectors, cfg.routes) && ListsDirect(cfg.selectors)
    requires FindRoute(cfg.routes, id) < |cfg.routes|
    ensures var next := DeleteEdit(cfg, id);
            && Paired(next.selectors, next.routes) && ListsDirect(next.selectors)
            && multiset(cfg.routes) == multiset(next.routes) + multiset{cfg.routes[FindRoute(cfg.routes, id)]}
            && FindSelector(cfg.selectors, RouteTag(id)) < |cfg.selectors|
            && multiset(cfg.selectors) == multiset(next.selectors) + multiset{cfg.selectors[FindSelector(cfg.selectors, RouteTag(id))]}
  {
    var i := FindRoute(cfg.routes, id);
    RouteFound(cfg.routes, id);
    TagForPaired(cfg.selectors, cfg.routes, id);
    SelectorFound(cfg.selectors, RouteTag(id));
    var j := FindSelector(cfg.selectors, RouteTag(id));
    RemoveAtMultiset(cfg.routes, i);
    RemoveAtMultiset(cfg.selectors, j);
    RemovedMembers(cfg.routes, i);
    RemovedMembers(cfg.selectors, j);
    PairRemoved(cfg.selectors, j, cfg.routes, i);
  }

  lemma PairRemoved(selectors: seq<Selector>, j: nat, routes: seq<ServiceRoute>, i: nat)
    requires Paired(selectors, routes) && j < |selectors| && i < |routes| && selectors[j].tag == routes[i].selector
    requires selectors[j].tag != PROXY
    ensures Paired(RemoveAt(selectors, j), RemoveAt(routes, i))
  {
    MapRemoveAt(TagOf, selectors, j);
    MapRemoveAt(ServiceOf, routes, i);
    MapRemoveAt(SelectorOf, routes, i);
    RemovedMembers(Map(TagOf, selectors), j);
    RemovedMembers(Map(ServiceOf, routes), i);
    RemovedMembers(routes, i);
    DistinctSelectors(routes);
    RemovedMembers(Map(SelectorOf, routes), i);
  }

  lemma DistinctSelectors(routes: seq<ServiceRoute>)
    requires NoDup(Map(ServiceOf, routes)) && forall r :: r in routes ==> r.selector == RouteTag(r.serviceId)
    ensures NoDup(Map(SelectorOf, routes))
  {
    forall i, j | 0 <= i < j < |routes| ensures routes[i].selector != routes[j].selector {
      assert routes[i] in routes && routes[j] in routes;
      assert Map(ServiceOf, routes)[i] != Map(ServiceOf, routes)[j];
      if routes[i].selector == routes[j].selector {
        RouteTagInjective(routes[i].serviceId, routes[j].serviceId);
      }
    }
  }

  /******* Selections *******/

  lemma SetSelectedKeeps(selectors: seq<Selector>, routes: seq<ServiceRoute>, tag: string, id: string, now: int)
    requires Paired(selectors, routes) && ListsDirect(selectors)
    ensures Paired(SetSelected(selectors, tag, id, now), routes)
    ensures ListsDirect(SetSelected(selectors, tag, id, now))
  {
    var i := FindSelector(selectors, tag);
    if i < |selectors| {
      assert selectors[i] in selectors;
      UpdateKeys(TagOf, selectors, i, selectors[i].(selected := id, selectedAt := now));
    }
  }

  /** Selecting a node leaves the pairing alone. */
  lemma SelectPaired(cfg: RuntimeConfig, id: string, now: int)
    requires Paired(cfg.selectors, cfg.routes) && ListsDirect(cfg.selectors)
    ensures var next := SelectEdit(cfg, id, now);
            Paired(next.selectors, next.routes) && ListsDirect(next.selectors)
  {
    SelectorFound(cfg.selectors, PROXY);
    SetSelectedKeeps(cfg.selectors, cfg.routes, PROXY, id, now);
    var added := Selector(PROXY, [], id, now);
    MapAppend(TagOf, cfg.selectors, added);
    NoDupAppend(Map(TagOf, cfg.selectors), PROXY);
    AppendMembers(Map(TagOf, cfg.selectors), PROXY);
    AppendMembers(cfg.selectors, added);
  }
}
