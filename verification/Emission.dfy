/** What a compiled plan holds, object by object: every outbound with its options, every rule in its
    place, and the outbound that finally carries a connection. */
module Emission {
  import opened Wrappers
  import opened Text
  import opened Sequences
  import opened RuntimeModel
  import opened Validation
  import opened Planner
  import opened Closure
  import opened Meaning

  /******* Node outbounds *******/

  lemma GroupHasNoNode(tags: seq<string>, selectors: seq<Selector>, o: Outbound)
    requires o in GroupOutbounds(tags, selectors)
    ensures !o.options.NodeOptions?
  {
    if tags == [] {
      var s := MapOrigin(EmitDirectSelector, selectors, o);
    } else if o in Map(EmitService(tags), Services(selectors)) {
      var s := MapOrigin(EmitService(tags), Services(selectors), o);
    } else {
      assert o == URLTestGroup(tags) || o == ProxyGroup(tags, selectors);
    }
  }

  lemma NodeEmitted(nodes: seq<Node>, o: Outbound)
    ensures o in NodeOutbounds(nodes) <==> exists n :: n in nodes && Emitted(n) && o == EmitNode(n)
  {
    if o in NodeOutbounds(nodes) {
      var n := MapOrigin(EmitNode, Filter(Emitted, nodes), o);
    }
    if n :| n in nodes && Emitted(n) && o == EmitNode(n) {
      MapIn(EmitNode, Filter(Emitted, nodes), n);
    }
  }

  lemma NodesPlanned(nodes: seq<Node>, selectors: seq<Selector>, o: Outbound)
    requires o.options.NodeOptions?
    ensures o in PlannedOutbounds(nodes, selectors) <==> o in NodeOutbounds(nodes)
  {
    if o in GroupOutbounds(NodeTags(nodes), selectors) {
      GroupHasNoNode(NodeTags(nodes), selectors, o);
    }
  }

  /** Every available node with an ID is emitted under its trimmed ID with its own type and settings, and
      nothing else is emitted as a node; a probe run drops the nodes that are URL tests themselves. */
  lemma NodesCarried(s: Settings, m: RuntimeModel, kind: string, tag: string, options: string)
    ensures Outbound(kind, tag, NodeOptions(options)) in Plan(s, m).outbounds <==>
            && tag != "" && (s.probeOnly ==> kind != "urltest")
            && exists n :: n in m.nodes && n.outbound == Some(NodeOutbound(kind, options)) && n.phase != "failed"
                           && TrimSpace(n.id) == tag
  {
    var o := Outbound(kind, tag, NodeOptions(options));
    NodesPlanned(m.nodes, m.selectors, o);
    NodeEmitted(m.nodes, o);
    if n :| n in m.nodes && n.outbound == Some(NodeOutbound(kind, options)) && n.phase != "failed" && TrimSpace(n.id) == tag {
      assert EmitNode(n) == o;
    }
  }

  /******* Groups *******/

  lemma GroupPlanned(nodes: seq<Node>, selectors: seq<Selector>, o: Outbound)
    requires !o.options.NodeOptions?
    ensures o in PlannedOutbounds(nodes, selectors) <==> o == DIRECT_OUTBOUND || o in GroupOutbounds(NodeTags(nodes), selectors)
  {
    if o in NodeOutbounds(nodes) {
      NodeEmitted(nodes, o);
    }
  }

  /** The default of the proxy selector: its selection, or the first available node. */
  ghost predicate DefaultsTo(m: RuntimeModel, id: string) {
    && (forall t :: t in m.selectors && t.tag == "proxy" ==> t.selected == id)
    && ((forall t :: t in m.selectors ==> t.tag != "proxy") ==> AvailableIds(m.nodes) != [] && AvailableIds(m.nodes)[0] == id)
  }

  lemma ProxyDefaultsTo(m: RuntimeModel, id: string)
    requires NoDup(Map(TagOf, m.selectors)) && AvailableIds(m.nodes) != []
    ensures DefaultsTo(m, id) <==> ProxyDefault(m.selectors, AvailableIds(m.nodes)[0]) == id
  {
    ProxyDefaultFinds(m.selectors, AvailableIds(m.nodes)[0]);
    DistinctKeys(TagOf, m.selectors);
    forall a, b | a in m.selectors && b in m.selectors && a.tag == b.tag ensures a == b {
      assert TagOf(a) == TagOf(b);
    }
  }

  lemma ServicesPlanned(m: RuntimeModel, o: Outbound)
    requires Normalized(m) && StableIds(m.nodes)
    ensures o in Map(EmitService(NodeTags(m.nodes)), Services(m.selectors)) <==>
            exists t :: t in m.selectors && t.tag != "proxy" && o == Outbound("selector", t.tag, SelectorOptions(t.nodeIds, t.selected))
  {
    var emit := EmitService(NodeTags(m.nodes));
    forall t | t in Services(m.selectors) ensures emit(t) == Outbound("selector", t.tag, SelectorOptions(t.nodeIds, t.selected)) {
      ServiceEmitted(m, t);
    }
    if o in Map(emit, Services(m.selectors)) {
      var t := MapOrigin(emit, Services(m.selectors), o);
    }
    if t :| t in m.selectors && t.tag != "proxy" && o == Outbound("selector", t.tag, SelectorOptions(t.nodeIds, t.selected)) {
      MapIn(emit, Services(m.selectors), t);
    }
  }

  /** What a normalised model with available nodes emits besides them. */
  ghost predicate IsGroup(m: RuntimeModel, o: Outbound) {
    || o == Outbound("urltest", "urltest", URLTestOptions(AvailableIds(m.nodes)))
    || (exists id :: DefaultsTo(m, id) && o == Outbound("selector", "proxy", SelectorOptions(AvailableIds(m.nodes) + ["direct"], id)))
    || (exists t :: t in m.selectors && t.tag != "proxy" && o == Outbound("selector", t.tag, SelectorOptions(t.nodeIds, t.selected)))
  }

  lemma GroupsSplit(tags: seq<string>, selectors: seq<Selector>, o: Outbound)
    requires tags != []
    ensures o in GroupOutbounds(tags, selectors) <==>
            o == URLTestGroup(tags) || o == ProxyGroup(tags, selectors) || o in Map(EmitService(tags), Services(selectors))
  {
    var groups := [URLTestGroup(tags), ProxyGroup(tags, selectors)];
    assert groups[0] in groups && groups[1] in groups;
  }

  lemma ProxyIs(m: RuntimeModel, o: Outbound)
    requires NoDup(Map(TagOf, m.selectors)) && AvailableIds(m.nodes) != []
    ensures o == ProxyGroup(AvailableIds(m.nodes), m.selectors) <==>
            exists id :: DefaultsTo(m, id) && o == Outbound("selector", "proxy", SelectorOptions(AvailableIds(m.nodes) + ["direct"], id))
  {
    ProxyDefaultsTo(m, ProxyDefault(m.selectors, AvailableIds(m.nodes)[0]));
    forall id | DefaultsTo(m, id) ensures ProxyDefault(m.selectors, AvailableIds(m.nodes)[0]) == id {
      ProxyDefaultsTo(m, id);
    }
  }

  lemma GroupsAre(m: RuntimeModel, o: Outbound)
    requires Normalized(m) && StableIds(m.nodes) && AvailableIds(m.nodes) != []
    ensures o in GroupOutbounds(NodeTags(m.nodes), m.selectors) <==> IsGroup(m, o)
  {
    StableTags(m.nodes);
    ServicesPlanned(m, o);
    ProxyIs(m, o);
    GroupsSplit(NodeTags(m.nodes), m.selectors, o);
  }

  lemma DirectGroups(selectors: seq<Selector>, o: Outbound)
    ensures o in GroupOutbounds([], selectors) <==>
            exists t :: t in selectors && o == Outbound("selector", t.tag, SelectorOptions(["direct"], "direct"))
  {
    if o in GroupOutbounds([], selectors) {
      var t := MapOrigin(EmitDirectSelector, selectors, o);
    }
    if t :| t in selectors && o == Outbound("selector", t.tag, SelectorOptions(["direct"], "direct")) {
      MapIn(EmitDirectSelector, selectors, t);
    }
  }

  /** Besides the nodes a plan holds exactly: the direct outbound; with nodes, the URL test over all of
      them, the proxy selector over all of them and `direct`, and each service's selector with its members
      and its selection; without nodes, each selector set to `direct` alone. A probe has no URL test. */
  lemma GroupsCarried(s: Settings, m: RuntimeModel, o: Outbound)
    requires Normalized(m) && StableIds(m.nodes) && !o.options.NodeOptions?
    ensures o in Plan(s, m).outbounds <==>
            && (s.probeOnly ==> o.kind != "urltest")
            && (o == Outbound("direct", "direct", DirectOptions)
                || if AvailableIds(m.nodes) != [] then IsGroup(m, o)
                   else exists t :: t in m.selectors && o == Outbound("selector", t.tag, SelectorOptions(["direct"], "direct")))
  {
    GroupPlanned(m.nodes, m.selectors, o);
    if AvailableIds(m.nodes) != [] {
      GroupsAre(m, o);
    } else {
      StableTags(m.nodes);
      DirectGroups(m.selectors, o);
    }
  }

  /******* Rules *******/

  /** The rules are: sniffing; in TUN mode, the DNS hijack; outside direct mode, one rule for each domain of
      each enabled service, to its selector, longer suffixes first; in rule mode, mainland addresses go
      direct. The rule set that the last one names is defined. */
  lemma RulesCarried(s: Settings, m: RuntimeModel) returns (services: seq<Rule>)
    ensures Plan(s, m).route.rules ==
            (if s.proxyMode.TunMode? then [Rule([], [], [], Sniff), Rule([53], [], [], HijackDNS)] else [Rule([], [], [], Sniff)])
            + services + if s.routeMode.RuleMode? then [Rule([], [], ["geoip-cn"], RouteTo("direct"))] else []
    ensures s.routeMode.DirectMode? ==> services == []
    ensures !s.routeMode.DirectMode? ==> forall rule :: rule in services <==>
              exists r, d :: r in m.routes && r.enabled && d in r.domains && rule == Rule([], [d], [], RouteTo(r.selector))
    ensures forall rule :: rule in services ==> |rule.suffixes| == 1
    ensures forall i, j :: 0 <= i < j < |services| ==> |services[i].suffixes[0]| >= |services[j].suffixes[0]|
    ensures Plan(s, m).route.ruleSets == if s.routeMode.RuleMode? then ["geoip-cn"] else []
  {
    if s.routeMode.DirectMode? {
      services := [];
    } else {
      services := Sort(RuleBefore, ServiceRules(m.routes));
      ServiceRulesSorted(m.routes);
      SortMembers(RuleBefore, ServiceRules(m.routes));
      forall rule ensures rule in services <==>
                    exists r, d :: r in m.routes && r.enabled && d in r.domains && rule == Rule([], [d], [], RouteTo(r.selector))
      {
        ServiceRuleOrigin(m.routes, rule);
      }
      LongerFirst(services);
    }
  }

  lemma LongerFirst(rules: seq<Rule>)
    requires Sorted(RuleBefore, rules) && forall r :: r in rules ==> IsSuffixRule(r)
    ensures forall r :: r in rules ==> |r.suffixes| == 1
    ensures forall i, j :: 0 <= i < j < |rules| ==> |rules[i].suffixes[0]| >= |rules[j].suffixes[0]|
  {
    forall i, j | 0 <= i < j < |rules| ensures |Suffix(rules[i])| >= |Suffix(rules[j])| {
      assert !RuleBefore(rules[j], rules[i]);
    }
    forall r | r in rules ensures r.suffixes == [Suffix(r)] {
      assert IsSuffixRule(r);
    }
    assert forall i :: 0 <= i < |rules| ==> rules[i] in rules && rules[i].suffixes[0] == Suffix(rules[i]);
  }

  /******* The outbound that carries a connection *******/

  /** The outbound that a target names: the direct one, or that of the available node with this ID, with
      the node's own type and settings. */
  ghost predicate NodeOf(nodes: seq<Node>, id: string, o: Outbound) {
    || (id == "direct" && o == Outbound("direct", "direct", DirectOptions))
    || exists n :: n in nodes && n.outbound.Some? && n.phase != "failed" && n.id == id
                   && o == Outbound(n.outbound.value.kind, id, NodeOptions(n.outbound.value.options))
  }

  lemma OutboundFound(s: Settings, m: RuntimeModel, o: Outbound)
    requires Normalized(m) && StableIds(m.nodes) && (s.probeOnly ==> NoURLTestNodes(m.nodes))
    requires o in Plan(s, m).outbounds
    ensures Find(Plan(s, m).outbounds, o.tag) == Some(o)
  {
    OutboundsAreClosed(m, s.probeOnly);
    FindDistinct(EmittedOutbounds(m.nodes, m.selectors, s.probeOnly), o);
  }

  lemma NodeCarried(s: Settings, m: RuntimeModel, id: string) returns (o: Outbound)
    requires StableIds(m.nodes) && (s.probeOnly ==> NoURLTestNodes(m.nodes)) && id in AvailableIds(m.nodes) && id != ""
    ensures o in Plan(s, m).outbounds && o.tag == id && NodeOf(m.nodes, id, o)
  {
    AvailableIdsMember(m.nodes, id);
    var n :| n in m.nodes && n.IsAvailable() && n.id == id;
    o := EmitNode(n);
    NodesEmitted(m.nodes, m.selectors);
  }

  lemma NodeFound(s: Settings, m: RuntimeModel, id: string)
    requires Normalized(m) && StableIds(m.nodes) && (s.probeOnly ==> NoURLTestNodes(m.nodes))
    requires Selectable(m.nodes, id)
    ensures exists o :: Find(Plan(s, m).outbounds, id) == Some(o) && NodeOf(m.nodes, id, o)
  {
    var o := DIRECT_OUTBOUND;
    if id == DIRECT {
      NodesEmitted(m.nodes, m.selectors);
    } else {
      AvailableIdsMember(m.nodes, id);
      o := NodeCarried(s, m, id);
    }
    OutboundFound(s, m, o);
  }

  lemma MeantIsSelectable(s: Settings, m: RuntimeModel, c: Connection, id: string)
    requires Means(s, m, c, RouteTo(id)) && forall t :: t in m.selectors ==> Selectable(m.nodes, t.selected)
    ensures Selectable(m.nodes, id)
  {
  }

  /** A connection that the model sends to a node is carried by the outbound with that node's type and
      settings, and one that it sends to `direct` by the direct outbound. */
  lemma CarriedByNode(s: Settings, m: RuntimeModel, c: Connection, id: string)
    requires Normalized(m) && StableIds(m.nodes) && (s.probeOnly ==> NoURLTestNodes(m.nodes))
    requires Means(s, m, c, RouteTo(id))
    ensures Decide(Plan(s, m), c) == RouteTo(id)
    ensures exists o :: Find(Plan(s, m).outbounds, id) == Some(o) && NodeOf(m.nodes, id, o)
  {
    MeaningPreserved(s, m, c, RouteTo(id));
    forall t | t in m.selectors ensures Selectable(m.nodes, t.selected) {
      NormalizedSelector(m, t);
    }
    MeantIsSelectable(s, m, c, id);
    NodeFound(s, m, id);
  }
}
