/** Totality and reference closure of the compiler: on a normalised model planning never fails and
    every name in the result is defined, under conditions on the node pool that are exact. */
module Closure {
  import opened Wrappers
  import opened Text
  import opened Sequences
  import opened Domains
  import opened RuntimeModel
  import opened Validation
  import opened Canonicity
  import opened Planner

  /** A model as `NormalizeRuntimeModel` returns it. */
  ghost predicate Normalized(m: RuntimeModel) {
    Accepts(m) && Canonical(m) == m
  }

  ghost predicate StableIds(nodes: seq<Node>) {
    forall n :: n in nodes && n.IsAvailable() ==> TrimStable(n.id)
  }

  ghost predicate NoURLTestNodes(nodes: seq<Node>) {
    forall n :: n in nodes && Emitted(n) ==> n.outbound.value.kind != URLTEST
  }

  ghost predicate Defines(outbounds: seq<Outbound>, tag: string) {
    exists o :: o in outbounds && o.tag == tag
  }

  /** Every name an outbound mentions is defined, and a default is one of the members. */
  ghost predicate RefersTo(outbounds: seq<Outbound>, o: Outbound) {
    match o.options
    case SelectorOptions(members, default) =>
      default in members && forall tag :: tag in members ==> Defines(outbounds, tag)
    case URLTestOptions(candidates) => forall tag :: tag in candidates ==> Defines(outbounds, tag)
    case _ => true
  }

  ghost predicate OutboundsClosed(outbounds: seq<Outbound>) {
    && NoDup(Map(TagOfOutbound, outbounds))
    && forall o :: o in outbounds ==> RefersTo(outbounds, o)
  }

  ghost predicate RulesClosed(outbounds: seq<Outbound>, route: RoutePlan) {
    && Defines(outbounds, route.final)
    && (forall r :: r in route.rules && r.action.RouteTo? ==> Defines(outbounds, r.action.outbound))
    && forall r, tag :: r in route.rules && tag in r.ruleSets ==> tag in route.ruleSets
  }

  ghost predicate Closed(p: Blueprint) {
    OutboundsClosed(p.outbounds) && RulesClosed(p.outbounds, p.route)
  }

  /******* Normalised models *******/

  lemma NormalizedSelector(m: RuntimeModel, s: Selector)
    requires Normalized(m) && s in m.selectors
    ensures SelectorOk(m.nodes, s) && CanonSelector(m.nodes, s) == s && MembersOk(m.nodes, s)
    ensures s.tag == PROXY ==> s.nodeIds == SortStrings(AvailableIds(m.nodes) + [DIRECT])
    ensures s.selected != "" && Selectable(m.nodes, s.selected)
  {
    CanonSelectorsElements(m.nodes, m.selectors, s);
    AvailableIdsMember(m.nodes, "");
  }

  lemma NormalizedRoute(m: RuntimeModel, r: ServiceRoute)
    requires Normalized(m) && r in m.routes
    ensures RouteOk(Map(TagOf, m.selectors), r) && CanonRoute(r) == r
    ensures forall d :: d in r.domains <==> d in CanonicalDomains(r)
    ensures exists s :: s in m.selectors && s.tag == r.selector && IsService(s)
  {
    CanonRoutesElements(Map(TagOf, m.selectors), m.routes, r);
    SortMembers(Less, CanonicalDomains(r));
    MapMember(TagOf, m.selectors, r.selector);
    var i :| 0 <= i < |m.selectors| && TagOf(m.selectors[i]) == r.selector;
    assert m.selectors[i] in m.selectors;
  }

  /** With trim-stable identifiers the emitted node tags are the available identifiers. */
  lemma StableTags(nodes: seq<Node>)
    requires StableIds(nodes) && forall n :: n in nodes ==> NodeIdOk(n.id)
    ensures NodeTags(nodes) == AvailableIds(nodes)
  {
    FilterCongruent(Emitted, Available, nodes);
    MapCongruent(NodeTag, IdOf, Filter(Available, nodes));
  }

  lemma {:induction false} AllMembers(tags: seq<string>, ids: seq<string>)
    requires forall id :: id in ids ==> id in tags || id == DIRECT
    ensures Members(tags, ids) == ids
  {
    if ids != [] {
      var init, last := ids[..|ids| - 1], ids[|ids| - 1];
      assert ids == init + [last];
      AllMembers(tags, init);
    }
  }

  /** A service selector of a normalised model is emitted with exactly its members and selection. */
  lemma ServiceEmitted(m: RuntimeModel, s: Selector)
    requires Normalized(m) && StableIds(m.nodes) && s in m.selectors && IsService(s)
    ensures ServiceOk(NodeTags(m.nodes), s)
    ensures EmitService(NodeTags(m.nodes))(s) == EmitSelector(s.tag, s.nodeIds, s.selected)
  {
    NormalizedSelector(m, s);
    StableTags(m.nodes);
    AllMembers(NodeTags(m.nodes), s.nodeIds);
  }

  lemma ServiceTags(selectors: seq<Selector>)
    requires NoDup(Map(TagOf, selectors)) && forall s :: s in selectors ==> TrimStable(s.tag)
    ensures Map(SelectorTag, Services(selectors)) == Map(TagOf, Services(selectors))
    ensures NoDup(Map(TagOf, Services(selectors)))
  {
    MapCongruent(SelectorTag, TagOf, Services(selectors));
    FilterKeys(IsService, TagOf, selectors);
  }

  /** Planning a normalised model never fails. */
  lemma PlanningSucceeds(m: RuntimeModel)
    requires Normalized(m) && StableIds(m.nodes)
    ensures OutboundsOk(m.nodes, m.selectors)
  {
    StableTags(m.nodes);
    AvailableIdsDistinct(m.nodes);
    forall tag | tag in AvailableIds(m.nodes) ensures !Reserved(tag) {
      AvailableIdsMember(m.nodes, tag);
    }
    forall s | s in Services(m.selectors) ensures ServiceOk(NodeTags(m.nodes), s) {
      ServiceEmitted(m, s);
    }
    ServiceTags(m.selectors);
  }

  /******* Which outbounds are emitted *******/

  lemma NodesEmitted(nodes: seq<Node>, selectors: seq<Selector>)
    ensures DIRECT_OUTBOUND in PlannedOutbounds(nodes, selectors)
    ensures forall n :: n in nodes && Emitted(n) ==> EmitNode(n) in PlannedOutbounds(nodes, selectors)
  {
    forall n | n in nodes && Emitted(n) ensures EmitNode(n) in NodeOutbounds(nodes) {
      MapIn(EmitNode, Filter(Emitted, nodes), n);
    }
  }

  lemma GroupsEmitted(nodes: seq<Node>, selectors: seq<Selector>)
    requires NodeTags(nodes) != []
    ensures URLTestGroup(NodeTags(nodes)) in PlannedOutbounds(nodes, selectors)
    ensures ProxyGroup(NodeTags(nodes), selectors) in PlannedOutbounds(nodes, selectors)
  {
    var tags := NodeTags(nodes);
    var groups := [URLTestGroup(tags), ProxyGroup(tags, selectors)];
    assert groups[0] in groups && groups[1] in groups;
    assert forall o :: o in groups ==> o in GroupOutbounds(tags, selectors);
  }

  /** What is emitted for one selector. */
  function EmittedFor(tags: seq<string>, s: Selector): Outbound {
    if tags == [] then EmitDirectSelector(s) else EmitService(tags)(s)
  }

  lemma SelectorEmitted(nodes: seq<Node>, selectors: seq<Selector>, s: Selector)
    requires s in selectors && (IsService(s) || NodeTags(nodes) == [])
    ensures EmittedFor(NodeTags(nodes), s) in PlannedOutbounds(nodes, selectors)
  {
    var tags := NodeTags(nodes);
    if tags == [] {
      MapIn(EmitDirectSelector, selectors, s);
    } else {
      MapIn(EmitService(tags), Services(selectors), s);
    }
  }

  lemma NodeTagEmitted(nodes: seq<Node>, selectors: seq<Selector>, tag: string)
    requires tag in NodeTags(nodes) || tag == DIRECT
    ensures exists o :: o in PlannedOutbounds(nodes, selectors) && o.tag == tag && !o.options.SelectorOptions?
                        && (NoURLTestNodes(nodes) ==> NotURLTest(o))
  {
    NodesEmitted(nodes, selectors);
    if tag in NodeTags(nodes) {
      var n := MapOrigin(NodeTag, Filter(Emitted, nodes), tag);
      assert EmitNode(n) in PlannedOutbounds(nodes, selectors);
    } else {
      assert DIRECT_OUTBOUND in PlannedOutbounds(nodes, selectors);
    }
  }

  /******* Distinct tags *******/

  function GroupTags(tags: seq<string>, selectors: seq<Selector>): seq<string> {
    if tags == [] then Map(TagOf, selectors) else [URLTEST, PROXY] + Map(SelectorTag, Services(selectors))
  }

  lemma GroupTagList(tags: seq<string>, selectors: seq<Selector>)
    ensures Map(TagOfOutbound, GroupOutbounds(tags, selectors)) == GroupTags(tags, selectors)
  {
    if tags == [] {
      MapCompose(EmitDirectSelector, TagOfOutbound, TagOf, selectors);
    } else {
      var groups := [URLTestGroup(tags), ProxyGroup(tags, selectors)];
      var services := Services(selectors);
      MapCompose(EmitService(tags), TagOfOutbound, SelectorTag, services);
      MapConcat(TagOfOutbound, groups, Map(EmitService(tags), services));
      assert Map(TagOfOutbound, groups) == [URLTEST, PROXY];
    }
  }

  lemma PlannedTagList(nodes: seq<Node>, selectors: seq<Selector>)
    ensures Map(TagOfOutbound, PlannedOutbounds(nodes, selectors)) ==
            NodeTags(nodes) + [DIRECT] + GroupTags(NodeTags(nodes), selectors)
  {
    GroupTagList(NodeTags(nodes), selectors);
    MapCompose(EmitNode, TagOfOutbound, NodeTag, Filter(Emitted, nodes));
    MapConcat(TagOfOutbound, NodeOutbounds(nodes), [DIRECT_OUTBOUND]);
    MapConcat(TagOfOutbound, NodeOutbounds(nodes) + [DIRECT_OUTBOUND], GroupOutbounds(NodeTags(nodes), selectors));
    assert Map(TagOfOutbound, [DIRECT_OUTBOUND]) == [DIRECT];
  }

  lemma GroupTagsDistinct(tags: seq<string>, selectors: seq<Selector>)
    requires NoDup(Map(TagOf, selectors)) && forall s :: s in selectors ==> s.tag != DIRECT
    requires tags != [] ==> ServicesOk(tags, Services(selectors))
    ensures NoDup(GroupTags(tags, selectors))
    ensures NodeTagsOk(tags) ==> forall tag :: tag in GroupTags(tags, selectors) ==> tag !in tags && tag != DIRECT
  {
    if tags == [] {
      forall tag | tag in Map(TagOf, selectors) ensures tag != DIRECT {
        var s := MapOrigin(TagOf, selectors, tag);
      }
    } else {
      GroupsDistinct(tags, Services(selectors));
    }
  }

  lemma GroupsDistinct(tags: seq<string>, services: seq<Selector>)
    requires ServicesOk(tags, services)
    ensures var groups := [URLTEST, PROXY] + Map(SelectorTag, services);
            NoDup(groups) && (NodeTagsOk(tags) ==> forall tag :: tag in groups ==> tag !in tags && tag != DIRECT)
  {
    var serviceTags := Map(SelectorTag, services);
    forall tag | tag in serviceTags ensures tag !in tags && !Reserved(tag) {
      var s := MapOrigin(SelectorTag, services, tag);
    }
    TwoMore(URLTEST, PROXY, serviceTags);
  }

  lemma TwoMore(a: string, b: string, s: seq<string>)
    requires a != b && NoDup(s) && a !in s && b !in s
    ensures NoDup([a, b] + s)
    ensures forall x :: x in [a, b] + s <==> x == a || x == b || x in s
  {
    NoDupConcat([a, b], s);
  }

  lemma PlannedTagsDistinct(m: RuntimeModel)
    requires Normalized(m) && (StableIds(m.nodes) || NodeTags(m.nodes) == [])
    ensures NoDup(Map(TagOfOutbound, PlannedOutbounds(m.nodes, m.selectors)))
  {
    var tags := NodeTags(m.nodes);
    PlannedTagList(m.nodes, m.selectors);
    if tags != [] {
      PlanningSucceeds(m);
    }
    GroupTagsDistinct(tags, m.selectors);
    NoDupAppend(tags, DIRECT);
    NoDupConcat(tags + [DIRECT], GroupTags(tags, m.selectors));
  }

  /******* Closure *******/

  lemma {:induction false} ProxyDefaultOk(selectors: seq<Selector>, first: string)
    ensures ProxyDefault(selectors, first) == first
            || exists s :: s in selectors && s.tag == PROXY && ProxyDefault(selectors, first) == s.selected
  {
    if selectors != [] && selectors[|selectors| - 1].tag != PROXY {
      ProxyDefaultOk(selectors[..|selectors| - 1], first);
    }
  }

  lemma ProxyGroupReferences(m: RuntimeModel)
    requires Normalized(m) && StableIds(m.nodes) && NodeTags(m.nodes) != []
    ensures ProxyDefault(m.selectors, NodeTags(m.nodes)[0]) in NodeTags(m.nodes) + [DIRECT]
  {
    var tags := NodeTags(m.nodes);
    StableTags(m.nodes);
    ProxyDefaultOk(m.selectors, tags[0]);
    if s :| s in m.selectors && s.tag == PROXY && ProxyDefault(m.selectors, tags[0]) == s.selected {
      NormalizedSelector(m, s);
    }
  }

  /** An outbound refers to nodes and `direct` only, and its default is a member. */
  ghost predicate RefersToNodes(tags: seq<string>, o: Outbound) {
    match o.options
    case SelectorOptions(members, default) =>
      default in members && forall tag :: tag in members ==> tag in tags || tag == DIRECT
    case URLTestOptions(candidates) => forall tag :: tag in candidates ==> tag in tags
    case _ => true
  }

  lemma ServiceReferences(m: RuntimeModel, s: Selector)
    requires Normalized(m) && StableIds(m.nodes) && s in m.selectors && IsService(s)
    ensures RefersToNodes(NodeTags(m.nodes), EmitService(NodeTags(m.nodes))(s))
  {
    NormalizedSelector(m, s);
    ServiceEmitted(m, s);
    StableTags(m.nodes);
  }

  lemma PlannedReferences(m: RuntimeModel, o: Outbound)
    requires Normalized(m) && (StableIds(m.nodes) || NodeTags(m.nodes) == [])
    requires o in PlannedOutbounds(m.nodes, m.selectors)
    ensures RefersToNodes(NodeTags(m.nodes), o)
  {
    if o in NodeOutbounds(m.nodes) {
      var n := MapOrigin(EmitNode, Filter(Emitted, m.nodes), o);
    } else if o in GroupOutbounds(NodeTags(m.nodes), m.selectors) {
      if NodeTags(m.nodes) != [] {
        ProxyGroupReferences(m);
        forall s | s in Services(m.selectors)
          ensures RefersToNodes(NodeTags(m.nodes), EmitService(NodeTags(m.nodes))(s))
        {
          ServiceReferences(m, s);
        }
      }
      GroupReferences(NodeTags(m.nodes), m.selectors, o);
    }
  }

  lemma GroupReferences(tags: seq<string>, selectors: seq<Selector>, o: Outbound)
    requires tags != [] ==> ProxyDefault(selectors, tags[0]) in tags + [DIRECT]
    requires tags != [] ==> forall s :: s in Services(selectors) ==> RefersToNodes(tags, EmitService(tags)(s))
    requires o in GroupOutbounds(tags, selectors)
    ensures RefersToNodes(tags, o)
  {
    if tags == [] {
      var s := MapOrigin(EmitDirectSelector, selectors, o);
    } else if o in Map(EmitService(tags), Services(selectors)) {
      var s := MapOrigin(EmitService(tags), Services(selectors), o);
    } else {
      assert o == URLTestGroup(tags) || o == ProxyGroup(tags, selectors);
      AppendMembers(tags, DIRECT);
    }
  }

  lemma DefinesKept(nodes: seq<Node>, selectors: seq<Selector>, probeOnly: bool, tag: string)
    requires tag in NodeTags(nodes) || tag == DIRECT
    requires probeOnly ==> NoURLTestNodes(nodes)
    ensures Defines(EmittedOutbounds(nodes, selectors, probeOnly), tag)
  {
    NodeTagEmitted(nodes, selectors, tag);
  }

  function EmittedOutbounds(nodes: seq<Node>, selectors: seq<Selector>, probeOnly: bool): seq<Outbound> {
    if probeOnly then Filter(NotURLTest, PlannedOutbounds(nodes, selectors)) else PlannedOutbounds(nodes, selectors)
  }

  lemma OutboundsAreClosed(m: RuntimeModel, probeOnly: bool)
    requires Normalized(m) && (StableIds(m.nodes) || NodeTags(m.nodes) == [])
    requires probeOnly ==> NoURLTestNodes(m.nodes)
    ensures OutboundsClosed(EmittedOutbounds(m.nodes, m.selectors, probeOnly))
  {
    var out := EmittedOutbounds(m.nodes, m.selectors, probeOnly);
    PlannedTagsDistinct(m);
    FilterKeys(NotURLTest, TagOfOutbound, PlannedOutbounds(m.nodes, m.selectors));
    forall o | o in out ensures RefersTo(out, o) {
      PlannedReferences(m, o);
      forall tag | tag in NodeTags(m.nodes) || tag == DIRECT ensures Defines(out, tag) {
        DefinesKept(m.nodes, m.selectors, probeOnly, tag);
      }
    }
  }

  lemma SelectorDefined(m: RuntimeModel, probeOnly: bool, s: Selector)
    requires s in m.selectors && IsService(s) && TrimStable(s.tag)
    ensures Defines(EmittedOutbounds(m.nodes, m.selectors, probeOnly), s.tag)
  {
    SelectorEmitted(m.nodes, m.selectors, s);
    var o := EmittedFor(NodeTags(m.nodes), s);
    assert NotURLTest(o) && o.tag == s.tag && o in EmittedOutbounds(m.nodes, m.selectors, probeOnly);
  }

  lemma ServiceRuleOrigin(routes: seq<ServiceRoute>, rule: Rule)
    ensures rule in ServiceRules(routes) <==>
            exists r, d :: r in routes && r.enabled && d in r.domains && rule == SuffixRule(d, r.selector)
  {
    FlattenMember(Map(RulesOf, routes), rule);
    if rule in ServiceRules(routes) {
      var i :| 0 <= i < |routes| && rule in Map(RulesOf, routes)[i];
      var d := MapOrigin(RulesFor(routes[i].selector), routes[i].domains, rule);
      assert routes[i] in routes;
    }
    if r, d :| r in routes && r.enabled && d in r.domains && rule == SuffixRule(d, r.selector) {
      var i :| 0 <= i < |routes| && routes[i] == r;
      MapIn(RulesFor(r.selector), r.domains, d);
      assert rule in Map(RulesOf, routes)[i];
    }
  }

  lemma PlannedRuleKinds(s: Settings, routes: seq<ServiceRoute>, rule: Rule)
    requires rule in PlannedRules(s, routes)
    ensures rule == SniffRule() || rule == HijackRule() || rule == GeoIPRule() || rule in ServiceRules(routes)
  {
    SortMembers(RuleBefore, ServiceRules(routes));
  }

  /** Only the mainland rule names a rule set, and only rule mode has that rule. */
  lemma RuleSetsDefined(s: Settings, routes: seq<ServiceRoute>, final: string, rule: Rule, tag: string)
    requires rule in PlannedRules(s, routes) && tag in rule.ruleSets
    ensures tag in PlanRoute(final, s).ruleSets
  {
    SortMembers(RuleBefore, ServiceRules(routes));
    if rule in ServiceRules(routes) {
      ServiceRuleOrigin(routes, rule);
    }
  }

  lemma FinalDefined(nodes: seq<Node>, selectors: seq<Selector>, probeOnly: bool)
    requires probeOnly ==> NoURLTestNodes(nodes)
    ensures Defines(EmittedOutbounds(nodes, selectors, probeOnly), DIRECT)
    ensures Defines(EmittedOutbounds(nodes, selectors, probeOnly), FinalTag(nodes))
  {
    DefinesKept(nodes, selectors, probeOnly, DIRECT);
    if NodeTags(nodes) != [] {
      GroupsEmitted(nodes, selectors);
      var proxy := ProxyGroup(NodeTags(nodes), selectors);
      assert NotURLTest(proxy) && proxy in EmittedOutbounds(nodes, selectors, probeOnly);
    }
  }

  lemma ServiceRuleDefined(m: RuntimeModel, probeOnly: bool, rule: Rule)
    requires Normalized(m) && rule in ServiceRules(m.routes)
    ensures rule.action.RouteTo? && Defines(EmittedOutbounds(m.nodes, m.selectors, probeOnly), rule.action.outbound)
  {
    ServiceRuleOrigin(m.routes, rule);
    var service, d :| service in m.routes && service.enabled && d in service.domains && rule == SuffixRule(d, service.selector);
    NormalizedRoute(m, service);
    var owned :| owned in m.selectors && owned.tag == service.selector && IsService(owned);
    SelectorDefined(m, probeOnly, owned);
  }

  lemma RulesAreClosed(m: RuntimeModel, s: Settings)
    requires Normalized(m)
    requires s.probeOnly ==> NoURLTestNodes(m.nodes)
    ensures RulesClosed(Plan(s, m).outbounds, Plan(s, m).route)
  {
    var out := EmittedOutbounds(m.nodes, m.selectors, s.probeOnly);
    FinalDefined(m.nodes, m.selectors, s.probeOnly);
    forall r | r in Plan(s, m).route.rules && r.action.RouteTo? ensures Defines(out, r.action.outbound) {
      PlannedRuleKinds(s, m.routes, r);
      if r in ServiceRules(m.routes) {
        ServiceRuleDefined(m, s.probeOnly, r);
      }
    }
    forall r, tag | r in Plan(s, m).route.rules && tag in r.ruleSets ensures tag in Plan(s, m).route.ruleSets {
      RuleSetsDefined(s, m.routes, FinalTag(m.nodes), r, tag);
    }
  }

  /** Outside probe runs the plan is closed; in a probe run it is closed exactly when no emitted node
      is itself of the type the probe filter drops. */
  lemma PlanIsClosed(isIP: string -> bool, s: Settings, m: RuntimeModel)
    requires Normalized(m) && StableIds(m.nodes) && ValidSettings(s) && InboundsOk(isIP, s)
    ensures PlanOk(isIP, s, m)
    ensures Closed(Plan(s, m)) <==> !s.probeOnly || NoURLTestNodes(m.nodes)
  {
    PlanningSucceeds(m);
    if !s.probeOnly || NoURLTestNodes(m.nodes) {
      OutboundsAreClosed(m, s.probeOnly);
      RulesAreClosed(m, s);
    } else {
      var n :| n in m.nodes && Emitted(n) && n.outbound.value.kind == URLTEST;
      DroppedNodeDangles(m, s, n);
    }
  }

  /** A dropped node is still listed by the proxy selector. */
  lemma DroppedNodeDangles(m: RuntimeModel, s: Settings, n: Node)
    requires Normalized(m) && StableIds(m.nodes) && s.probeOnly
    requires n in m.nodes && Emitted(n) && n.outbound.value.kind == URLTEST
    ensures !Closed(Plan(s, m))
  {
    var all, tags := PlannedOutbounds(m.nodes, m.selectors), NodeTags(m.nodes);
    MapIn(NodeTag, Filter(Emitted, m.nodes), n);
    NodesEmitted(m.nodes, m.selectors);
    GroupsEmitted(m.nodes, m.selectors);
    PlannedTagsDistinct(m);
    DanglingMember(all, EmitNode(n), ProxyGroup(tags, m.selectors));
  }

  lemma DanglingMember(all: seq<Outbound>, dropped: Outbound, group: Outbound)
    requires NoDup(Map(TagOfOutbound, all)) && dropped in all && group in all
    requires !NotURLTest(dropped) && NotURLTest(group)
    requires group.options.SelectorOptions? && dropped.tag in group.options.members
    ensures !OutboundsClosed(Filter(NotURLTest, all))
  {
    var out := Filter(NotURLTest, all);
    DistinctOutbounds(all);
    assert group in out && !Defines(out, dropped.tag);
  }

  lemma DistinctOutbounds(out: seq<Outbound>)
    requires NoDup(Map(TagOfOutbound, out))
    ensures forall a, b :: a in out && b in out && a.tag == b.tag ==> a == b
  {
    forall a, b | a in out && b in out && a.tag == b.tag ensures a == b {
      var i :| 0 <= i < |out| && out[i] == a;
      var j :| 0 <= j < |out| && out[j] == b;
      assert Map(TagOfOutbound, out)[i] == Map(TagOfOutbound, out)[j];
    }
  }

  /******* Trim-stability is needed *******/

  /** For every choice of selectors and routes that normalises over `nodes`, planning succeeds and
      leaves no dangling name. */
  ghost predicate AlwaysCompiles(nodes: seq<Node>, s: Settings) {
    forall selectors: seq<Selector>, routes: seq<ServiceRoute> ::
      Normalized(RuntimeModel(nodes, selectors, routes)) ==>
        OutboundsOk(nodes, selectors) && Closed(Plan(s, RuntimeModel(nodes, selectors, routes)))
  }

  /** The pool compiles for every choice exactly when its available identifiers are their own trim, or
      all of them are blank, and, for a probe run, no emitted node is of the dropped type. */
  lemma AlwaysCompilesIff(nodes: seq<Node>, s: Settings)
    requires PoolOk(nodes)
    ensures AlwaysCompiles(nodes, s) <==>
            (StableIds(nodes) || NodeTags(nodes) == []) && (s.probeOnly ==> NoURLTestNodes(nodes))
  {
    if !StableIds(nodes) && NodeTags(nodes) != [] {
      var n :| n in nodes && n.IsAvailable() && !TrimStable(n.id);
      UnstableIdDangles(nodes, s, n);
    } else if s.probeOnly && !NoURLTestNodes(nodes) {
      var n :| n in nodes && Emitted(n) && n.outbound.value.kind == URLTEST;
      URLTestNodeDangles(nodes, s, n);
    } else {
      forall selectors: seq<Selector>, routes: seq<ServiceRoute> | Normalized(RuntimeModel(nodes, selectors, routes))
        ensures OutboundsOk(nodes, selectors) && Closed(Plan(s, RuntimeModel(nodes, selectors, routes)))
      {
        CompilesClosed(RuntimeModel(nodes, selectors, routes), s);
      }
    }
  }

  lemma CompilesClosed(m: RuntimeModel, s: Settings)
    requires Normalized(m) && (StableIds(m.nodes) || NodeTags(m.nodes) == []) && (s.probeOnly ==> NoURLTestNodes(m.nodes))
    ensures OutboundsOk(m.nodes, m.selectors) && Closed(Plan(s, m))
  {
    if StableIds(m.nodes) {
      PlanningSucceeds(m);
    }
    OutboundsAreClosed(m, s.probeOnly);
    RulesAreClosed(m, s);
  }

  lemma URLTestNodeDangles(nodes: seq<Node>, s: Settings, n: Node)
    requires PoolOk(nodes) && s.probeOnly && (StableIds(nodes) || NodeTags(nodes) == [])
    requires n in nodes && Emitted(n) && n.outbound.value.kind == URLTEST
    ensures !AlwaysCompiles(nodes, s)
  {
    var proxy := ProxySetTo(nodes, n.id);
    MapIn(NodeTag, Filter(Emitted, nodes), n);
    AvailableIdsMember(nodes, n.id);
    SelectProxyNormalizes(nodes, n.id);
    DroppedNodeDangles(RuntimeModel(nodes, [proxy], []), s, n);
    assert Normalized(RuntimeModel(nodes, [proxy], []));
  }

  /** The proxy selector set to an available node. */
  function ProxySetTo(nodes: seq<Node>, id: string): Selector {
    CanonSelector(nodes, Selector(PROXY, [], id, 0))
  }

  lemma UnstableIdDangles(nodes: seq<Node>, s: Settings, n: Node)
    requires PoolOk(nodes) && NodeTags(nodes) != []
    requires n in nodes && n.IsAvailable() && !TrimStable(n.id)
    ensures !AlwaysCompiles(nodes, s)
  {
    var proxy := ProxySetTo(nodes, n.id);
    AvailableIdsMember(nodes, n.id);
    SelectProxyNormalizes(nodes, n.id);
    DanglingDefault(nodes, s, proxy);
    assert Normalized(RuntimeModel(nodes, [proxy], []));
  }

  lemma DanglingDefault(nodes: seq<Node>, s: Settings, proxy: Selector)
    requires NodeTags(nodes) != []
    requires proxy.tag == PROXY && !TrimStable(proxy.selected)
    ensures !Closed(Plan(s, RuntimeModel(nodes, [proxy], [])))
  {
    GroupsEmitted(nodes, [proxy]);
    UnstableIsNoTag(nodes, proxy.selected);
    if proxy.selected == DIRECT {
      ReservedStable(proxy.selected);
    }
    AppendMembers(NodeTags(nodes), DIRECT);
    SingleProxy(proxy, NodeTags(nodes)[0]);
    SelectorKept(ProxyGroup(NodeTags(nodes), [proxy]));
    NotAMember(EmittedOutbounds(nodes, [proxy], s.probeOnly), ProxyGroup(NodeTags(nodes), [proxy]));
  }

  /** The probe filter keeps selectors. */
  lemma SelectorKept(o: Outbound)
    requires o.kind == SELECTOR
    ensures NotURLTest(o)
  {
    assert |SELECTOR| == 8 && |URLTEST| == 7;
  }

  lemma NotAMember(out: seq<Outbound>, group: Outbound)
    requires group in out && group.options.SelectorOptions? && group.options.default !in group.options.members
    ensures !OutboundsClosed(out)
  {
    assert !RefersTo(out, group);
  }

  lemma SingleProxy(proxy: Selector, first: string)
    requires proxy.tag == PROXY
    ensures ProxyDefault([proxy], first) == proxy.selected
  {
  }

  lemma ReservedStable(tag: string)
    requires tag == DIRECT || tag == PROXY
    ensures TrimStable(tag)
  {
    WordStable(tag);
  }

  lemma WordStable(word: string)
    requires word != "" && !IsSpace(word[0]) && !IsSpace(word[|word| - 1])
    ensures TrimStable(word)
  {
    TrimStableEnds(word);
  }

  lemma UnstableIsNoTag(nodes: seq<Node>, id: string)
    requires !TrimStable(id)
    ensures id !in NodeTags(nodes)
  {
    if id in NodeTags(nodes) {
      var n := MapOrigin(NodeTag, Filter(Emitted, nodes), id);
      TrimIdempotent(n.id);
    }
  }

  /** The model with the proxy selector alone is normalised. */
  lemma SelectProxyNormalizes(nodes: seq<Node>, id: string)
    requires PoolOk(nodes) && id in AvailableIds(nodes)
    ensures Normalized(RuntimeModel(nodes, [ProxySetTo(nodes, id)], []))
  {
    var proxy := ProxySetTo(nodes, id);
    ProxySelectorOk(nodes, id);
    CanonSelectorTwice(nodes, Selector(PROXY, [], id, 0));
    MapFixed(CanonSelectorIn(nodes), [proxy]);
    SortOne(proxy);
    assert Map(CanonRoute, []) == [];
  }

  lemma SortOne(s: Selector)
    ensures Sort(TagBefore, [s]) == [s]
  {
  }

  lemma ProxySelectorOk(nodes: seq<Node>, id: string)
    requires PoolOk(nodes) && (id in AvailableIds(nodes) || id == DIRECT)
    ensures SelectorOk(nodes, ProxySetTo(nodes, id))
  {
    ProxyMembersOk(nodes, id);
    AvailableIdsMember(nodes, PROXY);
    CanonSelectorTwice(nodes, Selector(PROXY, [], id, 0));
    ProxyTagOk(ProxySetTo(nodes, id).tag);
    SelectorOkFixed(nodes, ProxySetTo(nodes, id));
  }

  lemma ProxyTagOk(tag: string)
    requires tag == PROXY
    ensures SelectorTagOk(tag)
  {
    assert |tag| == 5 && tag[0] == 'p' && tag[4] == 'y';
    FiveLetters(tag);
  }

  lemma FiveLetters(word: string)
    requires |word| == 5 && !IsSpace(word[0]) && !IsSpace(word[4])
    ensures SelectorTagOk(word)
  {
    WordStable(word);
    assert |DIRECT| == 6 && |URLTEST| == 7;
  }

  lemma SelectorOkFixed(nodes: seq<Node>, s: Selector)
    requires CanonSelector(nodes, s) == s && MembersOk(nodes, s)
    requires SelectorTagOk(s.tag) && s.tag !in AvailableIds(nodes)
    ensures SelectorOk(nodes, s)
  {
  }

  lemma ProxyMembersOk(nodes: seq<Node>, id: string)
    requires PoolOk(nodes) && (id in AvailableIds(nodes) || id == DIRECT)
    ensures MembersOk(nodes, ProxySetTo(nodes, id))
  {
    var ids := AvailableIds(nodes) + [DIRECT];
    AvailableIdsDistinct(nodes);
    NoDupPermutation(ids, SortStrings(ids));
    SortMembers(Less, ids);
  }
}
