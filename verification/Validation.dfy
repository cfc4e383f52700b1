/** `NormalizeRuntimeModel`: which models are accepted and what their canonical form is. */
module Validation {
  import opened Wrappers
  import opened Text
  import opened Sequences
  import opened Domains
  import opened RuntimeModel

  /******* Orders *******/

  predicate TagBefore(a: Selector, b: Selector) { Less(a.tag, b.tag) }
  predicate ServiceBefore(a: ServiceRoute, b: ServiceRoute) { Less(a.serviceId, b.serviceId) }

  function SortStrings(s: seq<string>): (r: seq<string>)
    ensures multiset(r) == multiset(s)
  {
    Sort(Less, s)
  }

  lemma StringOrder(s: seq<string>)
    ensures WeakOrder(Less) && TiesAreEqual(Less, s)
  {
    forall x: string, y: string, z: string
      ensures Less(x, y) ==> !Less(y, x)
      ensures !Less(x, y) && !Less(y, z) ==> !Less(x, z)
      ensures !Less(x, y) && !Less(y, x) ==> x == y
    {
      LessIsOrder(x, y, z);
    }
  }

  lemma SelectorOrder(s: seq<Selector>)
    ensures WeakOrder(TagBefore)
    ensures NoDup(Map(TagOf, s)) ==> TiesAreEqual(TagBefore, s)
  {
    forall x: Selector, y: Selector, z: Selector
      ensures TagBefore(x, y) ==> !TagBefore(y, x)
      ensures !TagBefore(x, y) && !TagBefore(y, z) ==> !TagBefore(x, z)
      ensures !TagBefore(x, y) && !TagBefore(y, x) ==> x.tag == y.tag
    {
      LessIsOrder(x.tag, y.tag, z.tag);
    }
    if NoDup(Map(TagOf, s)) {
      DistinctKeys(TagOf, s);
    }
  }

  lemma RouteOrder(s: seq<ServiceRoute>)
    ensures WeakOrder(ServiceBefore)
    ensures NoDup(Map(ServiceOf, s)) ==> TiesAreEqual(ServiceBefore, s)
  {
    forall x: ServiceRoute, y: ServiceRoute, z: ServiceRoute
      ensures ServiceBefore(x, y) ==> !ServiceBefore(y, x)
      ensures !ServiceBefore(x, y) && !ServiceBefore(y, z) ==> !ServiceBefore(x, z)
      ensures !ServiceBefore(x, y) && !ServiceBefore(y, x) ==> x.serviceId == y.serviceId
    {
      LessIsOrder(x.serviceId, y.serviceId, z.serviceId);
    }
    if NoDup(Map(ServiceOf, s)) {
      DistinctKeys(ServiceOf, s);
    }
  }

  lemma DistinctKeys<T>(key: T -> string, s: seq<T>)
    requires NoDup(Map(key, s))
    ensures forall x, y :: x in s && y in s && key(x) == key(y) ==> x == y
  {
    forall x, y | x in s && y in s && key(x) == key(y) ensures x == y {
      var i :| 0 <= i < |s| && s[i] == x;
      var j :| 0 <= j < |s| && s[j] == y;
      assert Map(key, s)[i] == Map(key, s)[j];
    }
  }

  /******* Acceptance and canonical form *******/

  predicate NodeIdOk(id: string) {
    id != "" && id != DIRECT && id != PROXY && id != URLTEST
  }

  ghost predicate PoolOk(nodes: seq<Node>) {
    && (forall n :: n in nodes ==> NodeIdOk(n.id))
    && NoDup(Map(IdOf, nodes))
  }

  function AvailableIds(nodes: seq<Node>): seq<string> {
    Map(IdOf, Filter(Available, nodes))
  }

  /** The identifiers a selector may list. */
  predicate Selectable(nodes: seq<Node>, id: string) {
    id == DIRECT || id in AvailableIds(nodes)
  }

  /** The canonical selector: sorted members, and for the proxy selector every available node. */
  function CanonSelector(nodes: seq<Node>, s: Selector): Selector {
    s.(nodeIds := SortStrings(if s.tag == PROXY then AvailableIds(nodes) + [DIRECT] else s.nodeIds))
  }

  function CanonSelectorIn(nodes: seq<Node>): Selector -> Selector {
    (s: Selector) => CanonSelector(nodes, s)
  }

  predicate SelectorTagOk(tag: string) {
    tag != "" && TrimStable(tag) && tag != DIRECT && tag != URLTEST
  }

  ghost predicate SelectorOk(nodes: seq<Node>, s: Selector) {
    && SelectorTagOk(s.tag)
    && s.tag !in AvailableIds(nodes)
    && MembersOk(nodes, CanonSelector(nodes, s))
  }

  ghost predicate MembersOk(nodes: seq<Node>, s: Selector) {
    && NoDup(s.nodeIds)
    && (forall id :: id in s.nodeIds ==> Selectable(nodes, id))
    && s.selected in s.nodeIds
  }

  ghost predicate SelectorsOk(nodes: seq<Node>, selectors: seq<Selector>) {
    && (forall s :: s in selectors ==> SelectorOk(nodes, s))
    && NoDup(Map(TagOf, selectors))
  }

  function CanonicalDomains(r: ServiceRoute): seq<string> {
    Map(CanonicalDomain, r.domains)
  }

  function CanonRoute(r: ServiceRoute): ServiceRoute {
    r.(domains := SortStrings(CanonicalDomains(r)))
  }

  /** The domains a route takes from every other service: none while it is disabled. */
  function Claimed(r: ServiceRoute): seq<string> {
    if r.enabled then CanonicalDomains(r) else []
  }

  function EnabledDomains(routes: seq<ServiceRoute>): seq<string> {
    Flatten(Map(Claimed, routes))
  }

  ghost predicate HostNames(names: seq<string>) {
    forall i :: 0 <= i < |names| ==> IsHostName(names[i])
  }

  ghost predicate RouteOk(tags: seq<string>, r: ServiceRoute) {
    && r.serviceId != "" && TrimStable(r.serviceId) && r.serviceId != DEFAULT_SERVICE_ID
    && r.selector in tags && r.selector != PROXY
    && r.domains != []
    && HostNames(CanonicalDomains(r))
  }

  ghost predicate RoutesOk(tags: seq<string>, routes: seq<ServiceRoute>) {
    && (forall r :: r in routes ==> RouteOk(tags, r))
    && NoDup(Map(ServiceOf, routes))
    && NoDup(Map(SelectorOf, routes))
    && NoDup(EnabledDomains(routes))
  }

  ghost predicate Accepts(m: RuntimeModel) {
    && PoolOk(m.nodes)
    && SelectorsOk(m.nodes, m.selectors)
    && RoutesOk(Map(TagOf, m.selectors), m.routes)
  }

  function Canonical(m: RuntimeModel): RuntimeModel {
    RuntimeModel(
      m.nodes,
      Sort(TagBefore, Map(CanonSelectorIn(m.nodes), m.selectors)),
      Sort(ServiceBefore, Map(CanonRoute, m.routes)))
  }

  /******* The algorithm *******/

  method CollectNodes(nodes: seq<Node>) returns (r: Result<set<string>, ConfigError>)
    ensures r.Success? <==> PoolOk(nodes)
    ensures r.Success? ==> forall id :: id in r.value <==> id in AvailableIds(nodes)
  {
    var ready: set<string> := {};
    var nodeIds: set<string> := {};
    for i := 0 to |nodes|
      invariant forall id :: id in nodeIds <==> exists k :: 0 <= k < i && nodes[k].id == id
      invariant forall id :: id in ready <==> exists k :: 0 <= k < i && nodes[k].id == id && nodes[k].IsAvailable()
      invariant forall k :: 0 <= k < i ==> NodeIdOk(nodes[k].id)
      invariant forall k, l :: 0 <= k < l < i ==> nodes[k].id != nodes[l].id
    {
      var node := nodes[i];
      if !NodeIdOk(node.id) || node.id in nodeIds {
        if node.id in nodeIds {
          ghost var k :| 0 <= k < i && nodes[k].id == node.id;
          assert Map(IdOf, nodes)[k] == Map(IdOf, nodes)[i];
        }
        return Failure(InvalidSource("invalid or duplicate node ID"));
      }
      nodeIds := nodeIds + {node.id};
      if node.outbound.Some? && node.phase != NODE_FAILED {
        ready := ready + {node.id};
      }
    }
    forall id ensures id in ready <==> id in AvailableIds(nodes) {
      AvailableIdsMember(nodes, id);
    }
    return Success(ready);
  }

  lemma AvailableIdsMember(nodes: seq<Node>, id: string)
    ensures id in AvailableIds(nodes) <==> exists n :: n in nodes && n.IsAvailable() && n.id == id
  {
    var ready := Filter(Available, nodes);
    MapMember(IdOf, ready, id);
    if exists n :: n in nodes && n.IsAvailable() && n.id == id {
      var n :| n in nodes && n.IsAvailable() && n.id == id;
      assert n in ready;
    }
  }

  lemma AvailableIdsDistinct(nodes: seq<Node>)
    requires PoolOk(nodes)
    ensures NoDup(AvailableIds(nodes)) && DIRECT !in AvailableIds(nodes)
    ensures NoDup(AvailableIds(nodes) + [DIRECT])
  {
    FilterKeys(Available, IdOf, nodes);
    AvailableIdsMember(nodes, DIRECT);
    NoDupAppend(AvailableIds(nodes), DIRECT);
  }

  lemma SameSet<T(!new)>(a: seq<T>, b: seq<T>)
    requires NoDup(a) && NoDup(b) && forall x :: x in a <==> x in b
    ensures multiset(a) == multiset(b)
  {
    NoDupCount(a);
    NoDupCount(b);
    forall x ensures multiset(a)[x] == multiset(b)[x] {
      assert x in a <==> x in multiset(a);
      assert x in b <==> x in multiset(b);
    }
  }

  /** Lists a set in an arbitrary order, as `range` over a Go map does. */
  method Enumerate<T(!new)>(s: set<T>) returns (r: seq<T>)
    ensures NoDup(r) && forall x :: x in r <==> x in s
  {
    r := [];
    var rest := s;
    while rest != {}
      invariant NoDup(r)
      invariant rest <= s
      invariant forall x :: x in r <==> x in s && x !in rest
      decreases rest
    {
      var x :| x in rest;
      NoDupAppend(r, x);
      r, rest := r + [x], rest - {x};
    }
  }

  method CheckMembers(ghost nodes: seq<Node>, ready: set<string>, s: Selector) returns (r: Result<(), ConfigError>)
    requires forall id :: id in ready <==> id in AvailableIds(nodes)
    ensures r.Success? <==> MembersOk(nodes, s)
  {
    var found := false;
    var seen: set<string> := {};
    for i := 0 to |s.nodeIds|
      invariant found <==> s.selected in s.nodeIds[..i]
      invariant forall id :: id in seen <==> id in s.nodeIds[..i]
      invariant NoDup(s.nodeIds[..i])
      invariant forall k :: 0 <= k < i ==> Selectable(nodes, s.nodeIds[k])
    {
      var id := s.nodeIds[i];
      assert s.nodeIds[..i + 1] == s.nodeIds[..i] + [id];
      if (id !in ready && id != DIRECT) || id in seen {
        assert id in s.nodeIds && !(NoDup(s.nodeIds) && Selectable(nodes, id));
        return Failure(InvalidSource("selector contains missing or duplicate node"));
      }
      NoDupAppend(s.nodeIds[..i], id);
      seen := seen + {id};
      if id == s.selected {
        found := true;
      }
    }
    assert s.nodeIds[..|s.nodeIds|] == s.nodeIds;
    if !found {
      return Failure(InvalidSource("selector requires an explicit selected member"));
    }
    return Success(());
  }

  /** The proxy selector's members do not depend on the order in which the ready nodes are listed. */
  lemma ProxyMembers(nodes: seq<Node>, ids: seq<string>)
    requires PoolOk(nodes) && NoDup(ids) && forall id :: id in ids <==> id in AvailableIds(nodes)
    ensures SortStrings(ids + [DIRECT]) == SortStrings(AvailableIds(nodes) + [DIRECT])
  {
    AvailableIdsDistinct(nodes);
    SameSet(ids, AvailableIds(nodes));
    StringOrder(ids + [DIRECT]);
    SortPermutation(Less, ids + [DIRECT], AvailableIds(nodes) + [DIRECT]);
  }

  method NormalizeSelector(ghost nodes: seq<Node>, ready: set<string>, s: Selector) returns (r: Result<Selector, ConfigError>)
    requires PoolOk(nodes) && forall id :: id in ready <==> id in AvailableIds(nodes)
    ensures r.Success? <==> MembersOk(nodes, CanonSelector(nodes, s))
    ensures r.Success? ==> r.value == CanonSelector(nodes, s)
  {
    var nodeIds := s.nodeIds;
    if s.tag == PROXY {
      var ids := Enumerate(ready);
      ProxyMembers(nodes, ids);
      nodeIds := ids + [DIRECT];
    }
    var selector := s.(nodeIds := SortStrings(nodeIds));
    assert selector == CanonSelector(nodes, s);
    var checked := CheckMembers(nodes, ready, selector);
    if checked.Failure? {
      return Failure(checked.error);
    }
    return Success(selector);
  }

  /** `m` holds the canonical form of each of `selectors` under its tag. */
  ghost predicate Collected(nodes: seq<Node>, selectors: seq<Selector>, m: map<string, Selector>) {
    && (forall tag :: tag in m <==> tag in Map(TagOf, selectors))
    && forall s :: s in selectors ==> s.tag in m && m[s.tag] == CanonSelector(nodes, s)
  }

  lemma CollectedStep(nodes: seq<Node>, selectors: seq<Selector>, m: map<string, Selector>, s: Selector)
    requires Collected(nodes, selectors, m) && s.tag !in m
    ensures Collected(nodes, selectors + [s], m[s.tag := CanonSelector(nodes, s)])
  {
    MapAppend(TagOf, selectors, s);
    AppendMembers(Map(TagOf, selectors), s.tag);
    var next := m[s.tag := CanonSelector(nodes, s)];
    forall t | t in selectors + [s] ensures t.tag in next && next[t.tag] == CanonSelector(nodes, t) {
      if t in selectors {
        MapIn(TagOf, selectors, t);
      }
    }
  }

  lemma CollectedKey(nodes: seq<Node>, selectors: seq<Selector>, m: map<string, Selector>, tag: string)
    requires Collected(nodes, selectors, m)
    ensures tag in m <==> tag in Map(TagOf, selectors)
  {
  }

  lemma CollectedTake(nodes: seq<Node>, selectors: seq<Selector>, i: nat, m: map<string, Selector>)
    requires i < |selectors| && Collected(nodes, selectors[..i], m) && selectors[i].tag !in m
    ensures Collected(nodes, selectors[..i + 1], m[selectors[i].tag := CanonSelector(nodes, selectors[i])])
  {
    TakeStep(selectors, i);
    CollectedStep(nodes, selectors[..i], m, selectors[i]);
  }

  lemma SelectorsOkStep(nodes: seq<Node>, selectors: seq<Selector>, i: nat)
    requires i < |selectors|
    ensures SelectorsOk(nodes, selectors[..i + 1]) <==>
            SelectorsOk(nodes, selectors[..i]) && SelectorOk(nodes, selectors[i]) &&
            selectors[i].tag !in Map(TagOf, selectors[..i])
    ensures SelectorsOk(nodes, selectors) ==> SelectorsOk(nodes, selectors[..i + 1])
  {
    assert selectors[..i + 1] == selectors[..i] + [selectors[i]];
    MapPrefix(TagOf, selectors, i);
    NoDupAppend(Map(TagOf, selectors[..i]), selectors[i].tag);
    if SelectorsOk(nodes, selectors) {
      var tags := Map(TagOf, selectors);
      assert tags == tags[..i + 1] + tags[i + 1..];
      assert Map(TagOf, selectors[..i + 1]) == tags[..i + 1];
    }
  }

  method CollectSelector(ghost nodes: seq<Node>, ready: set<string>, collected: map<string, Selector>, selector: Selector)
    returns (r: Result<Selector, ConfigError>)
    requires PoolOk(nodes) && forall id :: id in ready <==> id in AvailableIds(nodes)
    ensures r.Success? <==> SelectorOk(nodes, selector) && selector.tag !in collected
    ensures r.Success? ==> r.value == CanonSelector(nodes, selector)
  {
    if !SelectorTagOk(selector.tag) || selector.tag in ready {
      return Failure(InvalidSource("invalid selector tag"));
    }
    if selector.tag in collected {
      return Failure(InvalidSource("duplicate selector"));
    }
    r := NormalizeSelector(nodes, ready, selector);
  }

  method CollectSelectors(ghost nodes: seq<Node>, ready: set<string>, selectors: seq<Selector>)
    returns (r: Result<map<string, Selector>, ConfigError>)
    requires PoolOk(nodes) && forall id :: id in ready <==> id in AvailableIds(nodes)
    ensures r.Success? <==> SelectorsOk(nodes, selectors)
    ensures r.Success? ==> Collected(nodes, selectors, r.value)
  {
    var collected: map<string, Selector> := map[];
    for i := 0 to |selectors|
      invariant SelectorsOk(nodes, selectors[..i])
      invariant Collected(nodes, selectors[..i], collected)
    {
      var selector := selectors[i];
      SelectorsOkStep(nodes, selectors, i);
      CollectedKey(nodes, selectors[..i], collected, selector.tag);
      var normalized := CollectSelector(nodes, ready, collected, selector);
      if normalized.Failure? {
        return Failure(normalized.error);
      }
      CollectedTake(nodes, selectors, i, collected);
      collected := collected[selector.tag := normalized.value];
    }
    assert selectors[..|selectors|] == selectors;
    return Success(collected);
  }

  ghost predicate Fresh(names: seq<string>, taken: set<string>) {
    NoDup(names) && forall d :: d in names ==> d !in taken
  }

  lemma FreshStep(names: seq<string>, taken: set<string>, i: nat)
    requires i < |names|
    ensures Fresh(names[..i + 1], taken) <==> Fresh(names[..i], taken) && names[i] !in taken && names[i] !in names[..i]
    ensures Fresh(names, taken) ==> Fresh(names[..i + 1], taken)
  {
    assert names[..i + 1] == names[..i] + [names[i]];
    NoDupAppend(names[..i], names[i]);
  }

  lemma HostNamesStep(names: seq<string>, i: nat)
    requires i < |names|
    ensures HostNames(names[..i + 1]) <==> HostNames(names[..i]) && IsHostName(names[i])
    ensures HostNames(names) ==> HostNames(names[..i + 1])
  {
    assert names[..i + 1] == names[..i] + [names[i]];
    assert names[..i + 1][i] == names[i];
  }

  /** Appends the canonical form of each domain, claiming it when the route is enabled. */
  method NormalizeDomains(route: ServiceRoute, taken: set<string>) returns (r: Result<(seq<string>, set<string>), ConfigError>)
    ensures r.Success? <==> HostNames(CanonicalDomains(route)) && Fresh(Claimed(route), taken)
    ensures r.Success? ==> r.value.0 == CanonicalDomains(route)
    ensures r.Success? ==> forall d :: d in r.value.1 <==> d in taken || d in Claimed(route)
  {
    var domains: seq<string> := [];
    var claimed := taken;
    ghost var full := CanonicalDomains(route);
    for i := 0 to |route.domains|
      invariant domains == full[..i]
      invariant HostNames(full[..i])
      invariant route.enabled ==> Fresh(full[..i], taken)
      invariant forall d :: d in claimed <==> d in taken || (route.enabled && d in full[..i])
    {
      HostNamesStep(full, i);
      FreshStep(full, taken, i);
      var domain := CanonicalDomain(route.domains[i]);
      TakeStep(full, i);
      var valid := ValidDomain(domain);
      if !valid {
        return Failure(InvalidSource("invalid service domain: " + route.domains[i]));
      }
      if route.enabled {
        if domain in claimed {
          return Failure(InvalidSource("duplicate domain in services"));
        }
        claimed := claimed + {domain};
      }
      domains := domains + [domain];
    }
    assert full[..|full|] == full;
    return Success((domains, claimed));
  }

  /** The checks and the rewriting of one route, against what earlier routes have taken. */
  method NormalizeRoute(selectors: set<string>, ghost tags: seq<string>, route: ServiceRoute,
                        services: set<string>, owners: set<string>, domains: set<string>)
    returns (r: Result<(ServiceRoute, set<string>), ConfigError>)
    requires forall tag :: tag in selectors <==> tag in tags
    ensures r.Success? <==> RouteOk(tags, route) && route.serviceId !in services && route.selector !in owners
                            && Fresh(Claimed(route), domains)
    ensures r.Success? ==> r.value.0 == CanonRoute(route)
    ensures r.Success? ==> forall d :: d in r.value.1 <==> d in domains || d in Claimed(route)
  {
    if TrimSpace(route.serviceId) == "" || route.serviceId != TrimSpace(route.serviceId) {
      return Failure(InvalidSource("service ID is required"));
    }
    if route.serviceId == DEFAULT_SERVICE_ID {
      return Failure(InvalidSource("default service takes no route"));
    }
    if route.serviceId in services {
      return Failure(InvalidSource("duplicate service"));
    }
    if route.selector !in selectors || route.selector == PROXY || route.selector in owners {
      return Failure(InvalidSource("service requires an independent selector"));
    }
    if |route.domains| == 0 {
      return Failure(InvalidSource("service requires domains"));
    }
    var result := NormalizeDomains(route, domains);
    if result.Failure? {
      return Failure(result.error);
    }
    return Success((route.(domains := SortStrings(result.value.0)), result.value.1));
  }

  method CollectRoutes(selectors: set<string>, ghost tags: seq<string>, routes: seq<ServiceRoute>)
    returns (r: Result<seq<ServiceRoute>, ConfigError>)
    requires forall tag :: tag in selectors <==> tag in tags
    ensures r.Success? <==> RoutesOk(tags, routes)
    ensures r.Success? ==> r.value == Map(CanonRoute, routes)
  {
    var services: set<string> := {};
    var owners: set<string> := {};
    var domains: set<string> := {};
    var normalized: seq<ServiceRoute> := [];
    for i := 0 to |routes|
      invariant normalized == Map(CanonRoute, routes[..i])
      invariant RoutesOk(tags, routes[..i])
      invariant forall x :: x in services <==> x in Map(ServiceOf, routes[..i])
      invariant forall x :: x in owners <==> x in Map(SelectorOf, routes[..i])
      invariant forall x :: x in domains <==> x in EnabledDomains(routes[..i])
    {
      var route := routes[i];
      RoutesOkStep(tags, routes, i);
      var result := NormalizeRoute(selectors, tags, route, services, owners, domains);
      if result.Failure? {
        return Failure(result.error);
      }
      MapPrefix(CanonRoute, routes, i);
      MapPrefix(ServiceOf, routes, i);
      MapPrefix(SelectorOf, routes, i);
      EnabledDomainsPrefix(routes, i);
      owners := owners + {route.selector};
      services := services + {route.serviceId};
      domains := result.value.1;
      normalized := normalized + [result.value.0];
    }
    assert routes[..|routes|] == routes;
    return Success(normalized);
  }

  lemma EnabledDomainsPrefix(routes: seq<ServiceRoute>, i: nat)
    requires i < |routes|
    ensures EnabledDomains(routes[..i + 1]) == EnabledDomains(routes[..i]) + Claimed(routes[i])
  {
    MapPrefix(Claimed, routes, i);
    FlattenAppend(Map(Claimed, routes[..i]), Claimed(routes[i]));
  }

  lemma FlattenConcat<T>(a: seq<seq<T>>, b: seq<seq<T>>)
    ensures Flatten(a + b) == Flatten(a) + Flatten(b)
  {
    if a == [] {
      assert a + b == b;
    } else {
      assert (a + b)[1..] == a[1..] + b;
    }
  }

  /** What one more route must satisfy, and that a rejected prefix rejects the list. */
  lemma RoutesOkStep(tags: seq<string>, routes: seq<ServiceRoute>, i: nat)
    requires i < |routes|
    ensures RoutesOk(tags, routes[..i + 1]) <==>
            && RoutesOk(tags, routes[..i]) && RouteOk(tags, routes[i])
            && routes[i].serviceId !in Map(ServiceOf, routes[..i])
            && routes[i].selector !in Map(SelectorOf, routes[..i])
            && NoDup(Claimed(routes[i])) && forall d :: d in Claimed(routes[i]) ==> d !in EnabledDomains(routes[..i])
    ensures RoutesOk(tags, routes) ==> RoutesOk(tags, routes[..i + 1])
  {
    var prefix := routes[..i];
    assert routes[..i + 1] == prefix + [routes[i]];
    MapPrefix(ServiceOf, routes, i);
    MapPrefix(SelectorOf, routes, i);
    EnabledDomainsPrefix(routes, i);
    AppendMembers(prefix, routes[i]);
    NoDupAppend(Map(ServiceOf, prefix), routes[i].serviceId);
    NoDupAppend(Map(SelectorOf, prefix), routes[i].selector);
    NoDupConcat(EnabledDomains(prefix), Claimed(routes[i]));
    if RoutesOk(tags, routes) {
      RoutesOkPrefix(tags, routes, i + 1);
    }
  }

  lemma RoutesOkPrefix(tags: seq<string>, routes: seq<ServiceRoute>, i: nat)
    requires i <= |routes| && RoutesOk(tags, routes)
    ensures RoutesOk(tags, routes[..i])
  {
    assert routes == routes[..i] + routes[i..];
    assert Map(ServiceOf, routes) == Map(ServiceOf, routes[..i]) + Map(ServiceOf, routes[i..]);
    assert Map(SelectorOf, routes) == Map(SelectorOf, routes[..i]) + Map(SelectorOf, routes[i..]);
    assert Map(Claimed, routes) == Map(Claimed, routes[..i]) + Map(Claimed, routes[i..]);
    FlattenConcat(Map(Claimed, routes[..i]), Map(Claimed, routes[i..]));
    NoDupConcat(Map(ServiceOf, routes[..i]), Map(ServiceOf, routes[i..]));
    NoDupConcat(Map(SelectorOf, routes[..i]), Map(SelectorOf, routes[i..]));
    NoDupConcat(EnabledDomains(routes[..i]), EnabledDomains(routes[i..]));
  }

  /** Lists the collected selectors in an arbitrary order. */
  method ListSelectors(selectors: map<string, Selector>) returns (listed: seq<Selector>)
    requires forall tag :: tag in selectors ==> selectors[tag].tag == tag
    ensures NoDup(Map(TagOf, listed))
    ensures forall s :: s in listed <==> s.tag in selectors && selectors[s.tag] == s
  {
    var tags := Enumerate(selectors.Keys);
    listed := [];
    for i := 0 to |tags|
      invariant |listed| == i
      invariant forall k :: 0 <= k < i ==> listed[k] == selectors[tags[k]]
    {
      listed := listed + [selectors[tags[i]]];
    }
    assert Map(TagOf, listed) == tags;
    forall s: Selector | s.tag in selectors && selectors[s.tag] == s ensures s in listed {
      assert s.tag in tags;
      var k :| 0 <= k < |tags| && tags[k] == s.tag;
      assert listed[k] == s;
    }
  }

  /** The whole of `NormalizeRuntimeModel`. The maps are read back in an arbitrary order. */
  method NormalizeRuntimeModel(model: RuntimeModel) returns (r: Result<RuntimeModel, ConfigError>)
    ensures r.Success? <==> Accepts(model)
    ensures r.Success? ==> r.value == Canonical(model)
  {
    var nodes := CollectNodes(model.nodes);
    if nodes.Failure? {
      return Failure(nodes.error);
    }
    var selectors := CollectSelectors(model.nodes, nodes.value, model.selectors);
    if selectors.Failure? {
      return Failure(selectors.error);
    }
    var routes := CollectRoutes(selectors.value.Keys, Map(TagOf, model.selectors), model.routes);
    if routes.Failure? {
      return Failure(routes.error);
    }
    CollectedTags(model.nodes, model.selectors, selectors.value);
    var listed := ListSelectors(selectors.value);
    ReadBack(model.nodes, model.selectors, selectors.value, listed);
    return Success(RuntimeModel(model.nodes, Sort(TagBefore, listed), Sort(ServiceBefore, routes.value)));
  }

  lemma CollectedTags(nodes: seq<Node>, selectors: seq<Selector>, m: map<string, Selector>)
    requires Collected(nodes, selectors, m)
    ensures forall tag :: tag in m ==> exists s :: s in selectors && s.tag == tag && m[tag] == CanonSelector(nodes, s)
    ensures forall tag :: tag in m ==> m[tag].tag == tag
  {
    forall tag | tag in m ensures exists s :: s in selectors && s.tag == tag && m[tag] == CanonSelector(nodes, s) {
      MapMember(TagOf, selectors, tag);
      var i :| 0 <= i < |selectors| && TagOf(selectors[i]) == tag;
      assert selectors[i] in selectors;
    }
  }

  /** Reading the selector map back in any order and sorting gives the canonical selectors. */
  lemma ReadBack(nodes: seq<Node>, selectors: seq<Selector>, m: map<string, Selector>, listed: seq<Selector>)
    requires NoDup(Map(TagOf, selectors)) && Collected(nodes, selectors, m)
    requires NoDup(Map(TagOf, listed)) && forall s :: s in listed <==> s.tag in m && m[s.tag] == s
    ensures Sort(TagBefore, listed) == Sort(TagBefore, Map(CanonSelectorIn(nodes), selectors))
  {
    var expected := Map(CanonSelectorIn(nodes), selectors);
    assert Map(TagOf, expected) == Map(TagOf, selectors);
    forall k | 0 <= k < |listed| ensures listed[k] in expected {
      CollectedTags(nodes, selectors, m);
      var s :| s in selectors && s.tag == listed[k].tag && m[s.tag] == CanonSelector(nodes, s);
      var i :| 0 <= i < |selectors| && selectors[i] == s;
      assert expected[i] == listed[k];
    }
    forall k | 0 <= k < |expected| ensures expected[k] in listed {
      assert selectors[k] in selectors;
    }
    ReadBackSort(nodes, listed, expected);
  }

  lemma ReadBackSort(nodes: seq<Node>, listed: seq<Selector>, expected: seq<Selector>)
    requires NoDup(Map(TagOf, listed)) && NoDup(Map(TagOf, expected))
    requires forall k :: 0 <= k < |listed| ==> listed[k] in expected
    requires forall k :: 0 <= k < |expected| ==> expected[k] in listed
    ensures Sort(TagBefore, listed) == Sort(TagBefore, expected)
  {
    DistinctMap(TagOf, listed);
    DistinctMap(TagOf, expected);
    SameSet(listed, expected);
    SelectorOrder(listed);
    SortPermutation(TagBefore, listed, expected);
  }

  lemma DistinctMap<T, U>(f: T -> U, s: seq<T>)
    requires NoDup(Map(f, s))
    ensures NoDup(s)
  {
    forall i, j | 0 <= i < j < |s| ensures s[i] != s[j] {
      assert Map(f, s)[i] != Map(f, s)[j];
    }
  }
}
