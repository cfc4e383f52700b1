/** Which models `NormalizeRuntimeModel` accepts and what it returns, told element by element: an
    independent reading of `Accepts` and `Canonical`. */
module Acceptance {
  import opened Wrappers
  import opened Text
  import opened Sequences
  import opened Domains
  import opened RuntimeModel
  import opened Validation
  import opened Canonicity

  /******* Acceptance *******/

  /** An available node has this ID. */
  ghost predicate Ready(nodes: seq<Node>, id: string) {
    exists n :: n in nodes && n.outbound.Some? && n.phase != "failed" && n.id == id
  }

  ghost predicate PlainNodes(nodes: seq<Node>) {
    && (forall n :: n in nodes ==> n.id != "" && n.id != "direct" && n.id != "proxy" && n.id != "urltest")
    && forall i, j :: 0 <= i < j < |nodes| ==> nodes[i].id != nodes[j].id
  }

  /** Neither empty nor with white space at an end. */
  predicate PlainName(name: string) {
    name != "" && !IsSpace(name[0]) && !IsSpace(name[|name| - 1])
  }

  ghost predicate PlainSelector(nodes: seq<Node>, s: Selector) {
    && PlainName(s.tag) && s.tag != "direct" && s.tag != "urltest" && !Ready(nodes, s.tag)
    && (s.selected == "direct" || Ready(nodes, s.selected))
    && (s.tag != "proxy" ==>
          && s.selected in s.nodeIds
          && (forall i :: 0 <= i < |s.nodeIds| ==> s.nodeIds[i] == "direct" || Ready(nodes, s.nodeIds[i]))
          && forall i, j :: 0 <= i < j < |s.nodeIds| ==> s.nodeIds[i] != s.nodeIds[j])
  }

  ghost predicate PlainRoute(selectors: seq<Selector>, r: ServiceRoute) {
    && PlainName(r.serviceId) && r.serviceId != "default"
    && r.selector != "proxy" && (exists s :: s in selectors && s.tag == r.selector)
    && r.domains != [] && forall i :: 0 <= i < |r.domains| ==> IsHostName(CanonicalDomain(r.domains[i]))
  }

  /** The route lists no domain twice, unless it is disabled. */
  ghost predicate NoRepeats(r: ServiceRoute) {
    r.enabled ==> forall k, l :: 0 <= k < l < |r.domains| ==> CanonicalDomain(r.domains[k]) != CanonicalDomain(r.domains[l])
  }

  /** The routes have no domain in common, unless one of them is disabled. */
  ghost predicate Apart(a: ServiceRoute, b: ServiceRoute) {
    a.enabled && b.enabled ==>
      forall k, l :: 0 <= k < |a.domains| && 0 <= l < |b.domains| ==> CanonicalDomain(a.domains[k]) != CanonicalDomain(b.domains[l])
  }

  ghost predicate DistinctClaims(routes: seq<ServiceRoute>) {
    && (forall i :: 0 <= i < |routes| ==> NoRepeats(routes[i]))
    && forall i, j :: 0 <= i < j < |routes| ==> Apart(routes[i], routes[j])
  }

  lemma ReadyIff(nodes: seq<Node>, id: string)
    ensures Ready(nodes, id) <==> id in AvailableIds(nodes)
  {
    AvailableIdsMember(nodes, id);
    if n :| n in nodes && n.IsAvailable() && n.id == id {
      assert n.outbound.Some? && n.phase != "failed";
    }
    if n :| n in nodes && n.outbound.Some? && n.phase != "failed" && n.id == id {
      assert n.IsAvailable();
    }
  }

  lemma NodesIff(nodes: seq<Node>)
    ensures PoolOk(nodes) <==> PlainNodes(nodes)
  {
    assert forall i :: 0 <= i < |nodes| ==> Map(IdOf, nodes)[i] == nodes[i].id;
  }

  lemma NameIff(name: string)
    ensures PlainName(name) <==> name != "" && TrimStable(name)
  {
    TrimStableEnds(name);
  }

  lemma TagIff(tag: string)
    ensures SelectorTagOk(tag) <==> PlainName(tag) && tag != "direct" && tag != "urltest"
  {
    NameIff(tag);
  }

  lemma ListedIff(nodes: seq<Node>, s: Selector, ids: seq<string>)
    ensures MembersOk(nodes, s.(nodeIds := SortStrings(ids))) <==>
            && s.selected in ids && (forall i :: 0 <= i < |ids| ==> Selectable(nodes, ids[i])) && NoDup(ids)
  {
    SortMembers(Less, ids);
    NoDupPermutation(SortStrings(ids), ids);
    assert forall i :: 0 <= i < |ids| ==> ids[i] in ids;
  }

  lemma SelectableIff(nodes: seq<Node>, id: string)
    ensures Selectable(nodes, id) <==> id == "direct" || Ready(nodes, id)
    ensures id in AvailableIds(nodes) + [DIRECT] <==> id == "direct" || Ready(nodes, id)
  {
    ReadyIff(nodes, id);
    AppendMembers(AvailableIds(nodes), DIRECT);
  }

  lemma MembersIff(nodes: seq<Node>, s: Selector)
    requires PoolOk(nodes)
    ensures MembersOk(nodes, CanonSelector(nodes, s)) <==>
            && (s.selected == "direct" || Ready(nodes, s.selected))
            && (s.tag != "proxy" ==>
                  && s.selected in s.nodeIds
                  && (forall i :: 0 <= i < |s.nodeIds| ==> s.nodeIds[i] == "direct" || Ready(nodes, s.nodeIds[i]))
                  && NoDup(s.nodeIds))
  {
    SelectableIff(nodes, s.selected);
    if s.tag == PROXY {
      var ids := AvailableIds(nodes) + [DIRECT];
      AvailableIdsDistinct(nodes);
      ListedIff(nodes, s, ids);
    } else {
      ListedIff(nodes, s, s.nodeIds);
      forall i | 0 <= i < |s.nodeIds| ensures Selectable(nodes, s.nodeIds[i]) <==> s.nodeIds[i] == "direct" || Ready(nodes, s.nodeIds[i]) {
        SelectableIff(nodes, s.nodeIds[i]);
      }
    }
  }

  lemma SelectorIff(nodes: seq<Node>, s: Selector)
    requires PoolOk(nodes)
    ensures SelectorOk(nodes, s) <==> PlainSelector(nodes, s)
  {
    MembersIff(nodes, s);
    ReadyIff(nodes, s.tag);
    TagIff(s.tag);
  }

  lemma RouteIff(selectors: seq<Selector>, r: ServiceRoute)
    ensures RouteOk(Map(TagOf, selectors), r) <==> PlainRoute(selectors, r)
  {
    NameIff(r.serviceId);
    if r.selector in Map(TagOf, selectors) {
      var s := MapOrigin(TagOf, selectors, r.selector);
    }
    if s :| s in selectors && s.tag == r.selector {
      MapIn(TagOf, selectors, s);
    }
    assert forall i :: 0 <= i < |r.domains| ==> CanonicalDomains(r)[i] == CanonicalDomain(r.domains[i]);
  }

  lemma RepeatsIff(r: ServiceRoute)
    ensures NoDup(Claimed(r)) <==> NoRepeats(r)
  {
  }

  lemma ApartIff(a: ServiceRoute, b: ServiceRoute)
    ensures (forall x :: x in Claimed(a) ==> x !in Claimed(b)) <==> Apart(a, b)
  {
    forall k | 0 <= k < |a.domains| && a.enabled ensures CanonicalDomain(a.domains[k]) in Claimed(a) {
      assert CanonicalDomains(a)[k] == CanonicalDomain(a.domains[k]);
    }
    forall k | 0 <= k < |b.domains| && b.enabled ensures CanonicalDomain(b.domains[k]) in Claimed(b) {
      assert CanonicalDomains(b)[k] == CanonicalDomain(b.domains[k]);
    }
  }

  lemma ClaimsIff(routes: seq<ServiceRoute>)
    ensures NoDup(EnabledDomains(routes)) <==> DistinctClaims(routes)
  {
    var claims := Map(Claimed, routes);
    FlattenNoDup(claims);
    forall i | 0 <= i < |routes| ensures NoDup(claims[i]) <==> NoRepeats(routes[i]) {
      RepeatsIff(routes[i]);
    }
    forall i, j | 0 <= i < j < |routes| ensures (forall x :: x in claims[i] ==> x !in claims[j]) <==> Apart(routes[i], routes[j]) {
      ApartIff(routes[i], routes[j]);
    }
    DisjointPairs(claims);
  }

  lemma DisjointPairs<T(!new)>(s: seq<seq<T>>)
    ensures Disjoint(s) <==> forall i, j :: 0 <= i < j < |s| ==> forall x :: x in s[i] ==> x !in s[j]
  {
  }

  /** A model is accepted exactly when: node IDs are distinct, not empty and not reserved; selector tags are
      distinct names other than `direct`, `urltest` and the available nodes' IDs; every selection is `direct`
      or an available node and, except for the proxy selector, one of the listed members, which are distinct
      and `direct` or available; service IDs are distinct names other than `default`; every service has a
      selector of its own other than the proxy's and at least one domain, and all its domains are host
      names; and no domain occurs twice among the enabled services. */
  lemma AcceptedIff(m: RuntimeModel)
    ensures Accepts(m) <==>
            && PlainNodes(m.nodes)
            && (forall s :: s in m.selectors ==> PlainSelector(m.nodes, s))
            && (forall i, j :: 0 <= i < j < |m.selectors| ==> m.selectors[i].tag != m.selectors[j].tag)
            && (forall r :: r in m.routes ==> PlainRoute(m.selectors, r))
            && (forall i, j :: 0 <= i < j < |m.routes| ==>
                  m.routes[i].serviceId != m.routes[j].serviceId && m.routes[i].selector != m.routes[j].selector)
            && DistinctClaims(m.routes)
  {
    NodesIff(m.nodes);
    if PoolOk(m.nodes) {
      forall s ensures SelectorOk(m.nodes, s) <==> PlainSelector(m.nodes, s) {
        SelectorIff(m.nodes, s);
      }
    }
    forall r ensures RouteOk(Map(TagOf, m.selectors), r) <==> PlainRoute(m.selectors, r) {
      RouteIff(m.selectors, r);
    }
    ClaimsIff(m.routes);
  }

  /******* The canonical form *******/

  ghost predicate Ascending(names: seq<string>) {
    forall i, j :: 0 <= i < j < |names| ==> Less(names[i], names[j])
  }

  lemma SortedAscending(names: seq<string>)
    requires NoDup(names)
    ensures Ascending(SortStrings(names)) && forall x :: x in SortStrings(names) <==> x in names
  {
    var r := SortStrings(names);
    StringOrder(names);
    SortSorted(Less, names);
    SortMembers(Less, names);
    NoDupPermutation(r, names);
    forall i, j | 0 <= i < j < |r| ensures Less(r[i], r[j]) {
      LessTotal(r[i], r[j]);
    }
  }

  /** `t` is `s` with its members in ascending order; the proxy selector has `direct` and every available
      node. */
  ghost predicate IsCanonSelector(nodes: seq<Node>, s: Selector, t: Selector) {
    && t.tag == s.tag && t.selected == s.selected && t.selectedAt == s.selectedAt && Ascending(t.nodeIds)
    && forall id :: id in t.nodeIds <==> if s.tag == "proxy" then id == "direct" || Ready(nodes, id) else id in s.nodeIds
  }

  /** `t` is `r` with its domains in canonical spelling and in order, none added and none lost. */
  ghost predicate IsCanonRoute(r: ServiceRoute, t: ServiceRoute) {
    && t.serviceId == r.serviceId && t.displayName == r.displayName && t.selector == r.selector && t.enabled == r.enabled
    && multiset(t.domains) == multiset(seq(|r.domains|, i requires 0 <= i < |r.domains| => CanonicalDomain(r.domains[i])))
    && forall i, j :: 0 <= i < j < |t.domains| ==> !Less(t.domains[j], t.domains[i])
  }

  lemma {:induction false} AscendingUnique(a: seq<string>, b: seq<string>)
    requires Ascending(a) && Ascending(b) && forall x :: x in a <==> x in b
    ensures a == b
  {
    forall i, j | 0 <= i < j < |a| ensures a[i] != a[j] && !Less(a[j], a[i]) {
      LessIsOrder(a[i], a[j], a[i]);
    }
    forall i, j | 0 <= i < j < |b| ensures b[i] != b[j] && !Less(b[j], b[i]) {
      LessIsOrder(b[i], b[j], b[i]);
    }
    SameSet(a, b);
    StringOrder(a);
    SortedUnique(Less, a, b);
  }

  lemma CanonSelectorIff(nodes: seq<Node>, s: Selector, t: Selector)
    requires PoolOk(nodes) && SelectorOk(nodes, s)
    ensures t == CanonSelector(nodes, s) <==> IsCanonSelector(nodes, s, t)
  {
    var ids := if s.tag == PROXY then AvailableIds(nodes) + [DIRECT] else s.nodeIds;
    NoDupPermutation(SortStrings(ids), ids);
    SortedAscending(ids);
    AppendMembers(AvailableIds(nodes), DIRECT);
    forall id ensures Ready(nodes, id) <==> id in AvailableIds(nodes) {
      ReadyIff(nodes, id);
    }
    assert IsCanonSelector(nodes, s, CanonSelector(nodes, s));
    if IsCanonSelector(nodes, s, t) {
      AscendingUnique(t.nodeIds, SortStrings(ids));
    }
  }

  lemma CanonRouteIff(r: ServiceRoute, t: ServiceRoute)
    ensures t == CanonRoute(r) <==> IsCanonRoute(r, t)
  {
    var names := CanonicalDomains(r);
    assert names == seq(|r.domains|, i requires 0 <= i < |r.domains| => CanonicalDomain(r.domains[i]));
    StringOrder(names);
    SortSorted(Less, names);
    if IsCanonRoute(r, t) {
      StringOrder(t.domains);
      SortedUnique(Less, t.domains, SortStrings(names));
    }
  }

  /** The result keeps the nodes, and holds exactly the canonical form of each selector and of each route,
      in ascending order of tags and of service IDs. */
  lemma CanonicalIs(m: RuntimeModel)
    requires Accepts(m)
    ensures Canonical(m).nodes == m.nodes
    ensures forall t :: t in Canonical(m).selectors <==> exists s :: s in m.selectors && IsCanonSelector(m.nodes, s, t)
    ensures forall t :: t in Canonical(m).routes <==> exists r :: r in m.routes && IsCanonRoute(r, t)
    ensures Ascending(Map(TagOf, Canonical(m).selectors)) && Ascending(Map(ServiceOf, Canonical(m).routes))
  {
    AllCanonSelectors(m.nodes, m.selectors);
    AllCanonRoutes(m.routes);
  }

  lemma AllCanonSelectors(nodes: seq<Node>, selectors: seq<Selector>)
    requires PoolOk(nodes) && SelectorsOk(nodes, selectors)
    ensures forall t :: t in CanonSelectors(nodes, selectors) <==> exists s :: s in selectors && IsCanonSelector(nodes, s, t)
    ensures Ascending(Map(TagOf, CanonSelectors(nodes, selectors)))
  {
    forall t ensures t in CanonSelectors(nodes, selectors) <==> exists s :: s in selectors && IsCanonSelector(nodes, s, t) {
      CanonSelectorsAre(nodes, selectors, t);
    }
    CanonTagsAscend(nodes, selectors);
  }

  lemma CanonTagsAscend(nodes: seq<Node>, selectors: seq<Selector>)
    requires NoDup(Map(TagOf, selectors))
    ensures Ascending(Map(TagOf, CanonSelectors(nodes, selectors)))
  {
    CanonSelectorsSorted(nodes, selectors);
    TagsAscend(CanonSelectors(nodes, selectors));
  }

  lemma AllCanonRoutes(routes: seq<ServiceRoute>)
    requires NoDup(Map(ServiceOf, routes)) && NoDup(Map(SelectorOf, routes))
    ensures forall t :: t in CanonRoutes(routes) <==> exists r :: r in routes && IsCanonRoute(r, t)
    ensures Ascending(Map(ServiceOf, CanonRoutes(routes)))
  {
    forall t ensures t in CanonRoutes(routes) <==> exists r :: r in routes && IsCanonRoute(r, t) {
      CanonRoutesAre(routes, t);
    }
    CanonRoutesSorted(routes);
    ServicesAscend(CanonRoutes(routes));
  }

  lemma CanonSelectorsAre(nodes: seq<Node>, selectors: seq<Selector>, t: Selector)
    requires PoolOk(nodes) && forall s :: s in selectors ==> SelectorOk(nodes, s)
    ensures t in CanonSelectors(nodes, selectors) <==> exists s :: s in selectors && IsCanonSelector(nodes, s, t)
  {
    SortMembers(TagBefore, Map(CanonSelectorIn(nodes), selectors));
    forall s | s in selectors ensures CanonSelectorIn(nodes)(s) == t <==> IsCanonSelector(nodes, s, t) {
      CanonSelectorIff(nodes, s, t);
    }
    ImageOf(CanonSelectorIn(nodes), selectors, t);
  }

  lemma ImageOf<T, U>(f: T -> U, s: seq<T>, y: U)
    ensures y in Map(f, s) <==> exists x :: x in s && f(x) == y
  {
    if y in Map(f, s) {
      var x := MapOrigin(f, s, y);
    }
    if x :| x in s && f(x) == y {
      MapIn(f, s, x);
    }
  }

  lemma CanonRoutesAre(routes: seq<ServiceRoute>, t: ServiceRoute)
    ensures t in CanonRoutes(routes) <==> exists r :: r in routes && IsCanonRoute(r, t)
  {
    SortMembers(ServiceBefore, Map(CanonRoute, routes));
    forall r ensures t == CanonRoute(r) <==> IsCanonRoute(r, t) {
      CanonRouteIff(r, t);
    }
    ImageOf(CanonRoute, routes, t);
  }

  lemma TagsAscend(selectors: seq<Selector>)
    requires Sorted(TagBefore, selectors) && NoDup(Map(TagOf, selectors))
    ensures Ascending(Map(TagOf, selectors))
  {
    forall i, j | 0 <= i < j < |selectors| ensures Less(selectors[i].tag, selectors[j].tag) {
      assert !TagBefore(selectors[j], selectors[i]) && Map(TagOf, selectors)[i] != Map(TagOf, selectors)[j];
      LessTotal(selectors[i].tag, selectors[j].tag);
    }
  }

  lemma ServicesAscend(routes: seq<ServiceRoute>)
    requires Sorted(ServiceBefore, routes) && NoDup(Map(ServiceOf, routes))
    ensures Ascending(Map(ServiceOf, routes))
  {
    forall i, j | 0 <= i < j < |routes| ensures Less(routes[i].serviceId, routes[j].serviceId) {
      assert !ServiceBefore(routes[j], routes[i]) && Map(ServiceOf, routes)[i] != Map(ServiceOf, routes)[j];
      LessTotal(routes[i].serviceId, routes[j].serviceId);
    }
  }
}
