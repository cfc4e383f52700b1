/** `NormalizeRuntimeModel` is canonical: the order of its lists never matters, and normalising an
    accepted result again changes nothing. */
module Canonicity {
  import opened Text
  import opened Sequences
  import opened Domains
  import opened RuntimeModel
  import opened Validation

  /** A selector and a route with the order of their lists forgotten. */
  datatype SelectorView = SelectorView(tag: string, nodeIds: multiset<string>, selected: string, selectedAt: int)
  datatype RouteView = RouteView(
    serviceId: string, displayName: string, domains: multiset<string>, selector: string, enabled: bool)

  function ViewSelector(s: Selector): SelectorView {
    SelectorView(s.tag, multiset(s.nodeIds), s.selected, s.selectedAt)
  }

  function ViewRoute(r: ServiceRoute): RouteView {
    RouteView(r.serviceId, r.displayName, multiset(r.domains), r.selector, r.enabled)
  }

  /** The models differ at most in the order of selectors, routes, node-ID lists and domain lists. */
  ghost predicate SameUpToOrder(a: RuntimeModel, b: RuntimeModel) {
    && a.nodes == b.nodes
    && multiset(Map(ViewSelector, a.selectors)) == multiset(Map(ViewSelector, b.selectors))
    && multiset(Map(ViewRoute, a.routes)) == multiset(Map(ViewRoute, b.routes))
  }

  /******* Order does not matter *******/

  lemma SortStringsPermutation(a: seq<string>, b: seq<string>)
    requires multiset(a) == multiset(b)
    ensures SortStrings(a) == SortStrings(b)
  {
    StringOrder(a);
    SortPermutation(Less, a, b);
  }

  lemma CanonSelectorView(nodes: seq<Node>, x: Selector, y: Selector)
    requires ViewSelector(x) == ViewSelector(y)
    ensures CanonSelector(nodes, x) == CanonSelector(nodes, y)
    ensures SelectorOk(nodes, x) <==> SelectorOk(nodes, y)
  {
    SortStringsPermutation(x.nodeIds, y.nodeIds);
  }

  lemma CanonRouteView(tags: seq<string>, x: ServiceRoute, y: ServiceRoute)
    requires ViewRoute(x) == ViewRoute(y)
    ensures multiset(CanonicalDomains(x)) == multiset(CanonicalDomains(y))
    ensures CanonRoute(x) == CanonRoute(y)
    ensures RouteOk(tags, x) <==> RouteOk(tags, y)
  {
    MapPermutation(CanonicalDomain, x.domains, y.domains);
    SortStringsPermutation(CanonicalDomains(x), CanonicalDomains(y));
    HostNamesPermutation(CanonicalDomains(x), CanonicalDomains(y));
    assert |x.domains| == |multiset(x.domains)| && |y.domains| == |multiset(y.domains)|;
  }

  lemma HostNamesPermutation(a: seq<string>, b: seq<string>)
    requires multiset(a) == multiset(b)
    ensures HostNames(a) <==> HostNames(b)
  {
    SameMembers(a, b);
    if HostNames(a) {
      forall i | 0 <= i < |b| ensures IsHostName(b[i]) {
        assert b[i] in b;
        var j :| 0 <= j < |a| && a[j] == b[i];
      }
    }
    if HostNames(b) {
      forall i | 0 <= i < |a| ensures IsHostName(a[i]) {
        assert a[i] in a;
        var j :| 0 <= j < |b| && b[j] == a[i];
      }
    }
  }

  lemma SelectorsOrder(nodes: seq<Node>, a: seq<Selector>, b: seq<Selector>)
    requires multiset(Map(ViewSelector, a)) == multiset(Map(ViewSelector, b))
    requires SelectorsOk(nodes, a)
    ensures SelectorsOk(nodes, b)
    ensures multiset(Map(TagOf, a)) == multiset(Map(TagOf, b))
    ensures Sort(TagBefore, Map(CanonSelectorIn(nodes), a)) == Sort(TagBefore, Map(CanonSelectorIn(nodes), b))
  {
    forall y | y in b ensures SelectorOk(nodes, y) {
      SameViews(ViewSelector, b, a, y);
      var x :| x in a && ViewSelector(x) == ViewSelector(y);
      CanonSelectorView(nodes, x, y);
    }
    MapThrough(ViewSelector, TagOf, a, b);
    NoDupPermutation(Map(TagOf, a), Map(TagOf, b));
    forall x, y | x in a && y in b && ViewSelector(x) == ViewSelector(y)
      ensures CanonSelectorIn(nodes)(x) == CanonSelectorIn(nodes)(y)
    {
      CanonSelectorView(nodes, x, y);
    }
    MapThrough(ViewSelector, CanonSelectorIn(nodes), a, b);
    CanonTags(nodes, a);
    SelectorOrder(Map(CanonSelectorIn(nodes), a));
    SortPermutation(TagBefore, Map(CanonSelectorIn(nodes), a), Map(CanonSelectorIn(nodes), b));
  }

  lemma CanonTags(nodes: seq<Node>, selectors: seq<Selector>)
    ensures Map(TagOf, Map(CanonSelectorIn(nodes), selectors)) == Map(TagOf, selectors)
  {
  }

  lemma CanonServices(routes: seq<ServiceRoute>)
    ensures Map(ServiceOf, Map(CanonRoute, routes)) == Map(ServiceOf, routes)
    ensures Map(SelectorOf, Map(CanonRoute, routes)) == Map(SelectorOf, routes)
  {
  }

  function ClaimedBag(r: ServiceRoute): multiset<string> { multiset(Claimed(r)) }

  lemma EnabledDomainsBag(a: seq<ServiceRoute>, b: seq<ServiceRoute>)
    requires multiset(Map(ClaimedBag, a)) == multiset(Map(ClaimedBag, b))
    ensures multiset(EnabledDomains(a)) == multiset(EnabledDomains(b))
  {
    assert Map(BagOf<string>, Map(Claimed, a)) == Map(ClaimedBag, a);
    assert Map(BagOf<string>, Map(Claimed, b)) == Map(ClaimedBag, b);
    FlattenMultiset(Map(Claimed, a), Map(Claimed, b));
  }

  lemma KeysOrder<T, V>(view: T -> V, key: T -> string, a: seq<T>, b: seq<T>)
    requires multiset(Map(view, a)) == multiset(Map(view, b))
    requires forall x, y :: x in a && y in b && view(x) == view(y) ==> key(x) == key(y)
    ensures NoDup(Map(key, a)) <==> NoDup(Map(key, b))
  {
    MapThrough(view, key, a, b);
    NoDupPermutation(Map(key, a), Map(key, b));
  }

  lemma RouteKeysOrder(tags: seq<string>, a: seq<ServiceRoute>, b: seq<ServiceRoute>)
    requires multiset(Map(ViewRoute, a)) == multiset(Map(ViewRoute, b))
    ensures NoDup(Map(ServiceOf, a)) <==> NoDup(Map(ServiceOf, b))
    ensures NoDup(Map(SelectorOf, a)) <==> NoDup(Map(SelectorOf, b))
    ensures NoDup(EnabledDomains(a)) <==> NoDup(EnabledDomains(b))
  {
    KeysOrder(ViewRoute, ServiceOf, a, b);
    KeysOrder(ViewRoute, SelectorOf, a, b);
    forall x, y | x in a && y in b && ViewRoute(x) == ViewRoute(y) ensures ClaimedBag(x) == ClaimedBag(y) {
      CanonRouteView(tags, x, y);
    }
    MapThrough(ViewRoute, ClaimedBag, a, b);
    EnabledDomainsBag(a, b);
    NoDupPermutation(EnabledDomains(a), EnabledDomains(b));
  }

  lemma RoutesSortOrder(tags: seq<string>, a: seq<ServiceRoute>, b: seq<ServiceRoute>)
    requires multiset(Map(ViewRoute, a)) == multiset(Map(ViewRoute, b)) && NoDup(Map(ServiceOf, a))
    ensures Sort(ServiceBefore, Map(CanonRoute, a)) == Sort(ServiceBefore, Map(CanonRoute, b))
  {
    forall x, y | x in a && y in b && ViewRoute(x) == ViewRoute(y) ensures CanonRoute(x) == CanonRoute(y) {
      CanonRouteView(tags, x, y);
    }
    MapThrough(ViewRoute, CanonRoute, a, b);
    CanonServices(a);
    RouteOrder(Map(CanonRoute, a));
    SortPermutation(ServiceBefore, Map(CanonRoute, a), Map(CanonRoute, b));
  }

  lemma RoutesOrder(tagsA: seq<string>, tagsB: seq<string>, a: seq<ServiceRoute>, b: seq<ServiceRoute>)
    requires multiset(tagsA) == multiset(tagsB)
    requires multiset(Map(ViewRoute, a)) == multiset(Map(ViewRoute, b))
    requires RoutesOk(tagsA, a)
    ensures RoutesOk(tagsB, b)
    ensures Sort(ServiceBefore, Map(CanonRoute, a)) == Sort(ServiceBefore, Map(CanonRoute, b))
  {
    SameMembers(tagsA, tagsB);
    forall y | y in b ensures RouteOk(tagsB, y) {
      SameViews(ViewRoute, b, a, y);
      var x :| x in a && ViewRoute(x) == ViewRoute(y);
      CanonRouteView(tagsA, x, y);
    }
    RouteKeysOrder(tagsA, a, b);
    RoutesSortOrder(tagsA, a, b);
  }

  lemma OrderForward(a: RuntimeModel, b: RuntimeModel)
    requires SameUpToOrder(a, b) && Accepts(a)
    ensures Accepts(b) && Canonical(a) == Canonical(b)
  {
    SelectorsOrder(a.nodes, a.selectors, b.selectors);
    RoutesOrder(Map(TagOf, a.selectors), Map(TagOf, b.selectors), a.routes, b.routes);
  }

  /** Acceptance and the accepted result are the same for every order of the input's lists. */
  lemma OrderIrrelevant(a: RuntimeModel, b: RuntimeModel)
    requires SameUpToOrder(a, b)
    ensures Accepts(a) <==> Accepts(b)
    ensures Accepts(a) ==> Canonical(a) == Canonical(b)
  {
    if Accepts(a) { OrderForward(a, b); }
    if Accepts(b) { OrderForward(b, a); }
  }

  /******* Normalising twice *******/

  lemma CanonSelectorTwice(nodes: seq<Node>, s: Selector)
    ensures CanonSelector(nodes, CanonSelector(nodes, s)) == CanonSelector(nodes, s)
  {
    var ids := if s.tag == PROXY then AvailableIds(nodes) + [DIRECT] else s.nodeIds;
    SortStringsPermutation(SortStrings(ids), ids);
  }

  lemma CanonicalNames(names: seq<string>)
    requires HostNames(names)
    ensures Map(CanonicalDomain, names) == names
  {
    forall i | 0 <= i < |names| ensures CanonicalDomain(names[i]) == names[i] {
      HostNameIsCanonical(names[i]);
    }
  }

  lemma CanonRouteTwice(r: ServiceRoute)
    requires HostNames(CanonicalDomains(r))
    ensures CanonRoute(CanonRoute(r)) == CanonRoute(r)
    ensures CanonicalDomains(CanonRoute(r)) == SortStrings(CanonicalDomains(r))
    ensures ClaimedBag(CanonRoute(r)) == ClaimedBag(r)
    ensures HostNames(CanonicalDomains(CanonRoute(r)))
  {
    var names := CanonicalDomains(r);
    HostNamesPermutation(names, SortStrings(names));
    CanonicalNames(SortStrings(names));
    SortStringsPermutation(SortStrings(names), names);
  }

  function CanonSelectors(nodes: seq<Node>, selectors: seq<Selector>): seq<Selector> {
    Sort(TagBefore, Map(CanonSelectorIn(nodes), selectors))
  }

  function CanonRoutes(routes: seq<ServiceRoute>): seq<ServiceRoute> {
    Sort(ServiceBefore, Map(CanonRoute, routes))
  }

  lemma CanonSelectorsElements(nodes: seq<Node>, selectors: seq<Selector>, s: Selector)
    requires s in CanonSelectors(nodes, selectors)
    ensures exists o :: o in selectors && s == CanonSelector(nodes, o)
    ensures CanonSelector(nodes, s) == s
  {
    var mapped := Map(CanonSelectorIn(nodes), selectors);
    SortMembers(TagBefore, mapped);
    var j :| 0 <= j < |mapped| && mapped[j] == s;
    assert selectors[j] in selectors;
    CanonSelectorTwice(nodes, selectors[j]);
  }

  /** The canonical selectors keep the tags, and are sorted by them. */
  lemma CanonSelectorsSorted(nodes: seq<Node>, selectors: seq<Selector>)
    requires NoDup(Map(TagOf, selectors))
    ensures var canon := CanonSelectors(nodes, selectors);
            && multiset(Map(TagOf, canon)) == multiset(Map(TagOf, selectors))
            && NoDup(Map(TagOf, canon))
            && Sorted(TagBefore, canon) && TiesAreEqual(TagBefore, canon)
            && Sort(TagBefore, canon) == canon
  {
    var mapped := Map(CanonSelectorIn(nodes), selectors);
    var canon := CanonSelectors(nodes, selectors);
    CanonTags(nodes, selectors);
    MapPermutation(TagOf, canon, mapped);
    NoDupPermutation(Map(TagOf, canon), Map(TagOf, mapped));
    SelectorOrder(canon);
    SortSorted(TagBefore, mapped);
    SortOfSorted(TagBefore, canon);
  }

  /** The canonical selectors are accepted and fixed by canonicalisation. */
  lemma SelectorsTwice(nodes: seq<Node>, selectors: seq<Selector>)
    requires SelectorsOk(nodes, selectors)
    ensures SelectorsOk(nodes, CanonSelectors(nodes, selectors))
    ensures CanonSelectors(nodes, CanonSelectors(nodes, selectors)) == CanonSelectors(nodes, selectors)
  {
    var canon := CanonSelectors(nodes, selectors);
    CanonSelectorsSorted(nodes, selectors);
    var f := CanonSelectorIn(nodes);
    forall s | s in canon ensures SelectorOk(nodes, s) {
      CanonSelectorsElements(nodes, selectors, s);
    }
    forall s | s in canon ensures f(s) == s {
      CanonSelectorsElements(nodes, selectors, s);
    }
    MapFixed(f, canon);
  }

  lemma CanonRoutesElements(tags: seq<string>, routes: seq<ServiceRoute>, r: ServiceRoute)
    requires r in CanonRoutes(routes)
    ensures exists o :: o in routes && r == CanonRoute(o)
    ensures RoutesOk(tags, routes) ==> RouteOk(tags, r) && CanonRoute(r) == r
  {
    var mapped := Map(CanonRoute, routes);
    SortMembers(ServiceBefore, mapped);
    var j :| 0 <= j < |mapped| && mapped[j] == r;
    assert routes[j] in routes;
    if RoutesOk(tags, routes) {
      CanonRouteTwice(routes[j]);
      SortMembers(Less, CanonicalDomains(routes[j]));
    }
  }

  /** The canonical routes keep services and selectors, and are sorted by service. */
  lemma CanonRoutesSorted(routes: seq<ServiceRoute>)
    requires NoDup(Map(ServiceOf, routes)) && NoDup(Map(SelectorOf, routes))
    ensures var canon := CanonRoutes(routes);
            && multiset(Map(ServiceOf, canon)) == multiset(Map(ServiceOf, routes))
            && NoDup(Map(ServiceOf, canon)) && NoDup(Map(SelectorOf, canon))
            && Sorted(ServiceBefore, canon) && TiesAreEqual(ServiceBefore, canon)
            && Sort(ServiceBefore, canon) == canon
  {
    var mapped := Map(CanonRoute, routes);
    var canon := CanonRoutes(routes);
    CanonServices(routes);
    MapPermutation(ServiceOf, canon, mapped);
    NoDupPermutation(Map(ServiceOf, canon), Map(ServiceOf, mapped));
    MapPermutation(SelectorOf, canon, mapped);
    NoDupPermutation(Map(SelectorOf, canon), Map(SelectorOf, mapped));
    RouteOrder(canon);
    SortSorted(ServiceBefore, mapped);
    SortOfSorted(ServiceBefore, canon);
  }

  lemma CanonRoutesDomains(tags: seq<string>, routes: seq<ServiceRoute>)
    requires RoutesOk(tags, routes)
    ensures multiset(EnabledDomains(CanonRoutes(routes))) == multiset(EnabledDomains(routes))
  {
    var mapped := Map(CanonRoute, routes);
    assert Map(ClaimedBag, mapped) == Map(ClaimedBag, routes) by {
      forall j | 0 <= j < |routes| ensures ClaimedBag(mapped[j]) == ClaimedBag(routes[j]) {
        assert routes[j] in routes;
        CanonRouteTwice(routes[j]);
      }
    }
    MapPermutation(ClaimedBag, CanonRoutes(routes), mapped);
    EnabledDomainsBag(CanonRoutes(routes), routes);
  }

  /** The canonical routes are accepted and fixed by canonicalisation. */
  lemma RoutesTwice(tags: seq<string>, routes: seq<ServiceRoute>)
    requires RoutesOk(tags, routes)
    ensures RoutesOk(tags, CanonRoutes(routes))
    ensures CanonRoutes(CanonRoutes(routes)) == CanonRoutes(routes)
  {
    var canon := CanonRoutes(routes);
    CanonRoutesSorted(routes);
    CanonRoutesDomains(tags, routes);
    NoDupPermutation(EnabledDomains(canon), EnabledDomains(routes));
    forall r | r in canon ensures RouteOk(tags, r) && CanonRoute(r) == r {
      CanonRoutesElements(tags, routes, r);
    }
    MapFixed(CanonRoute, canon);
  }

  lemma RoutesOkTags(a: seq<string>, b: seq<string>, routes: seq<ServiceRoute>)
    requires multiset(a) == multiset(b) && RoutesOk(a, routes)
    ensures RoutesOk(b, routes)
  {
    SameMembers(a, b);
  }

  /** An accepted result is accepted again and returned unchanged. */
  lemma NormalizingTwice(m: RuntimeModel)
    requires Accepts(m)
    ensures Accepts(Canonical(m))
    ensures Canonical(Canonical(m)) == Canonical(m)
  {
    SelectorsTwice(m.nodes, m.selectors);
    CanonSelectorsSorted(m.nodes, m.selectors);
    RoutesTwice(Map(TagOf, m.selectors), m.routes);
    var canon := Canonical(m);
    RoutesOkTags(Map(TagOf, m.selectors), Map(TagOf, canon.selectors), canon.routes);
  }
}
