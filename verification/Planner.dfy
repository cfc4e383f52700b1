/** The configuration compiler: from a normalised runtime model to outbounds and an ordered list of
    first-match rules. */
module Planner {
  import opened Wrappers
  import opened Text
  import opened Sequences
  import opened RuntimeModel

  /******* Settings *******/

  datatype ProxyMode = MixedMode | TunMode | UnknownProxyMode
  datatype RouteMode = RuleMode | DirectMode | AllMode | UnsetMode | UnknownRouteMode

  datatype Settings = Settings(
    probeOnly: bool, listenAddress: string, mixedPort: int, proxyMode: ProxyMode, ipv6: bool,
    cacheFilePath: string, routeMode: RouteMode)

  /** `Settings.Validate`. An unset route mode passes; the default is written to a copy only. */
  predicate ValidSettings(s: Settings) {
    var address := TrimSpace(s.listenAddress);
    && address != "" && '\r' !in address && '\n' !in address
    && 0 < s.mixedPort < 65536
    && (s.proxyMode.MixedMode? || s.proxyMode.TunMode?)
    && !s.routeMode.UnknownRouteMode?
  }

  /** `buildInbounds` succeeds: only the mixed listener parses its address. */
  predicate InboundsOk(isIP: string -> bool, s: Settings) {
    !s.probeOnly && s.proxyMode.MixedMode? ==> isIP(TrimSpace(s.listenAddress))
  }

  /******* Emitted objects *******/

  datatype Options =
    | NodeOptions(options: string)
    | DirectOptions
    | SelectorOptions(members: seq<string>, default: string)
    | URLTestOptions(candidates: seq<string>)

  datatype Outbound = Outbound(kind: string, tag: string, options: Options)

  const SELECTOR := "selector"
  const GEOIP_CN := "geoip-cn"
  const DNS_PORT := 53

  datatype Action = Sniff | HijackDNS | RouteTo(outbound: string)

  datatype Rule = Rule(ports: seq<int>, suffixes: seq<string>, ruleSets: seq<string>, action: Action)

  datatype RoutePlan = RoutePlan(rules: seq<Rule>, ruleSets: seq<string>, final: string)

  /** The inbound, DNS and runtime sections are functions of the settings alone, which stand for them. */
  datatype Blueprint = Blueprint(settings: Settings, outbounds: seq<Outbound>, route: RoutePlan)

  function TagOfOutbound(o: Outbound): string { o.tag }

  /******* Outbounds *******/

  predicate Reserved(tag: string) {
    tag == DIRECT || tag == URLTEST || tag == PROXY
  }

  function NodeTag(n: Node): string { TrimSpace(n.id) }

  predicate Emitted(n: Node) {
    n.IsAvailable() && NodeTag(n) != ""
  }

  function NodeTags(nodes: seq<Node>): seq<string> {
    Map(NodeTag, Filter(Emitted, nodes))
  }

  function EmitNode(n: Node): Outbound {
    if n.outbound.Some? then Outbound(n.outbound.value.kind, NodeTag(n), NodeOptions(n.outbound.value.options))
    else Outbound("", NodeTag(n), NodeOptions(""))
  }

  const DIRECT_OUTBOUND := Outbound(DIRECT, DIRECT, DirectOptions)

  function EmitSelector(tag: string, members: seq<string>, default: string): Outbound {
    Outbound(SELECTOR, tag, SelectorOptions(members, default))
  }

  function EmitDirectSelector(s: Selector): Outbound {
    EmitSelector(s.tag, [DIRECT], DIRECT)
  }

  predicate IsService(s: Selector) { s.tag != PROXY }

  /** The proxy selection: that of the last proxy selector, or the first node. */
  function ProxyDefault(selectors: seq<Selector>, first: string): string {
    if selectors == [] then first
    else
      var last := selectors[|selectors| - 1];
      if last.tag == PROXY then last.selected else ProxyDefault(selectors[..|selectors| - 1], first)
  }

  /** The listed identifiers that name an emitted node or `direct`. */
  function Members(tags: seq<string>, ids: seq<string>): seq<string> {
    if ids == [] then []
    else
      var init, last := ids[..|ids| - 1], ids[|ids| - 1];
      if last in tags || last == DIRECT then Members(tags, init) + [last] else Members(tags, init)
  }

  function Chosen(tags: seq<string>, s: Selector): string {
    var members := Members(tags, s.nodeIds);
    if s.selected == "" && members != [] then members[0] else s.selected
  }

  function SelectorTag(s: Selector): string { TrimSpace(s.tag) }

  function EmitService(tags: seq<string>): Selector -> Outbound {
    (s: Selector) => EmitSelector(SelectorTag(s), Members(tags, s.nodeIds), Chosen(tags, s))
  }

  ghost predicate NodeTagsOk(tags: seq<string>) {
    NoDup(tags) && forall tag :: tag in tags ==> !Reserved(tag)
  }

  predicate ServiceOk(tags: seq<string>, s: Selector) {
    && SelectorTag(s) != "" && SelectorTag(s) !in tags && !Reserved(SelectorTag(s))
    && Members(tags, s.nodeIds) != [] && Chosen(tags, s) in Members(tags, s.nodeIds)
  }

  ghost predicate ServicesOk(tags: seq<string>, services: seq<Selector>) {
    && (forall s :: s in services ==> ServiceOk(tags, s))
    && NoDup(Map(SelectorTag, services))
  }

  ghost predicate OutboundsOk(nodes: seq<Node>, selectors: seq<Selector>) {
    var tags := NodeTags(nodes);
    NodeTagsOk(tags) && (tags != [] ==> ServicesOk(tags, Filter(IsService, selectors)))
  }

  function NodeOutbounds(nodes: seq<Node>): seq<Outbound> {
    Map(EmitNode, Filter(Emitted, nodes))
  }

  function URLTestGroup(tags: seq<string>): Outbound {
    Outbound(URLTEST, URLTEST, URLTestOptions(tags))
  }

  function ProxyGroup(tags: seq<string>, selectors: seq<Selector>): Outbound
    requires tags != []
  {
    EmitSelector(PROXY, tags + [DIRECT], ProxyDefault(selectors, tags[0]))
  }

  function Services(selectors: seq<Selector>): seq<Selector> {
    Filter(IsService, selectors)
  }

  function GroupOutbounds(tags: seq<string>, selectors: seq<Selector>): seq<Outbound> {
    if tags == [] then Map(EmitDirectSelector, selectors)
    else [URLTestGroup(tags), ProxyGroup(tags, selectors)] + Map(EmitService(tags), Services(selectors))
  }

  function PlannedOutbounds(nodes: seq<Node>, selectors: seq<Selector>): seq<Outbound> {
    NodeOutbounds(nodes) + [DIRECT_OUTBOUND] + GroupOutbounds(NodeTags(nodes), selectors)
  }

  function FinalTag(nodes: seq<Node>): string {
    if NodeTags(nodes) == [] then DIRECT else PROXY
  }

  method PlanNodes(nodes: seq<Node>) returns (r: Result<(seq<Outbound>, seq<string>, set<string>), ConfigError>)
    ensures r.Success? <==> NodeTagsOk(NodeTags(nodes))
    ensures r.Success? ==> r.value.0 == Map(EmitNode, Filter(Emitted, nodes)) && r.value.1 == NodeTags(nodes)
    ensures r.Success? ==> forall tag :: tag in r.value.2 <==> Reserved(tag) || tag in NodeTags(nodes)
  {
    var outbounds: seq<Outbound> := [];
    var nodeTags: seq<string> := [];
    var used := {DIRECT, URLTEST, PROXY};
    for i := 0 to |nodes|
      invariant outbounds == Map(EmitNode, Filter(Emitted, nodes[..i]))
      invariant nodeTags == NodeTags(nodes[..i])
      invariant NodeTagsOk(nodeTags)
      invariant forall tag :: tag in used <==> Reserved(tag) || tag in nodeTags
    {
      var node := nodes[i];
      FilterStep(Emitted, EmitNode, nodes, i);
      FilterStep(Emitted, NodeTag, nodes, i);
      if node.phase == NODE_FAILED || node.outbound.None? {
        continue;
      }
      var tag := TrimSpace(node.id);
      if tag == "" {
        continue;
      }
      NodeTagsOkExtend(nodeTags, tag);
      if tag in used {
        NodeTagsOkPrefix(nodes, i + 1);
        return Failure(InvalidSource("outbound tag is reserved or duplicated"));
      }
      outbounds := outbounds + [EmitNode(node)];
      nodeTags := nodeTags + [tag];
      used := used + {tag};
    }
    assert nodes[..|nodes|] == nodes;
    return Success((outbounds, nodeTags, used));
  }

  lemma NodeTagsOkExtend(tags: seq<string>, tag: string)
    ensures NodeTagsOk(tags + [tag]) <==> NodeTagsOk(tags) && !Reserved(tag) && tag !in tags
  {
    NoDupAppend(tags, tag);
  }

  lemma NodeTagsOkPrefix(nodes: seq<Node>, i: nat)
    requires i <= |nodes|
    ensures NodeTagsOk(NodeTags(nodes)) ==> NodeTagsOk(NodeTags(nodes[..i]))
  {
    FilterPrefix(Emitted, nodes, i);
    var tags, prefix := NodeTags(nodes), NodeTags(nodes[..i]);
    assert prefix <= tags;
    if NodeTagsOk(tags) {
      NoDupPrefix(prefix, tags);
    }
  }

  method CollectMembers(nodeTags: seq<string>, ids: seq<string>) returns (members: seq<string>)
    ensures members == Members(nodeTags, ids)
  {
    members := [];
    for i := 0 to |ids|
      invariant members == Members(nodeTags, ids[..i])
    {
      assert ids[..i + 1][..i] == ids[..i];
      if ids[i] in nodeTags || ids[i] == DIRECT {
        members := members + [ids[i]];
      }
    }
    assert ids[..|ids|] == ids;
  }

  method Contains(members: seq<string>, selected: string) returns (valid: bool)
    ensures valid <==> selected in members
  {
    valid := false;
    for i := 0 to |members|
      invariant valid <==> selected in members[..i]
    {
      TakeStep(members, i);
      if members[i] == selected {
        valid := true;
      }
    }
    assert members[..|members|] == members;
  }

  method PlanService(nodeTags: seq<string>, used: set<string>, s: Selector) returns (r: Result<Outbound, ConfigError>)
    requires forall tag :: tag in nodeTags || Reserved(tag) ==> tag in used
    ensures r.Success? <==> ServiceOk(nodeTags, s) && SelectorTag(s) !in used
    ensures r.Success? ==> r.value == EmitService(nodeTags)(s)
  {
    var tag := TrimSpace(s.tag);
    if tag == "" || tag in used {
      return Failure(InvalidSource("invalid selector tag"));
    }
    var members := CollectMembers(nodeTags, s.nodeIds);
    if |members| == 0 {
      return Failure(InvalidSource("selector has no valid nodes"));
    }
    var selected := s.selected;
    if selected == "" {
      selected := members[0];
    }
    var valid := Contains(members, selected);
    if !valid {
      return Failure(InvalidSource("selector selected outbound is not a member"));
    }
    return Success(EmitSelector(tag, members, selected));
  }

  method ProxySelection(selectors: seq<Selector>, first: string) returns (defaultNode: string)
    ensures defaultNode == ProxyDefault(selectors, first)
  {
    defaultNode := first;
    for i := 0 to |selectors|
      invariant defaultNode == ProxyDefault(selectors[..i], first)
    {
      assert selectors[..i + 1][..i] == selectors[..i];
      if selectors[i].tag == PROXY {
        defaultNode := selectors[i].selected;
      }
    }
    assert selectors[..|selectors|] == selectors;
  }

  method PlanServices(nodeTags: seq<string>, reserved: set<string>, selectors: seq<Selector>)
    returns (r: Result<seq<Outbound>, ConfigError>)
    requires forall tag :: tag in reserved <==> Reserved(tag) || tag in nodeTags
    ensures r.Success? <==> ServicesOk(nodeTags, Filter(IsService, selectors))
    ensures r.Success? ==> r.value == Map(EmitService(nodeTags), Filter(IsService, selectors))
  {
    var outbounds: seq<Outbound> := [];
    var used := reserved;
    for i := 0 to |selectors|
      invariant ServicesOk(nodeTags, Filter(IsService, selectors[..i]))
      invariant outbounds == Map(EmitService(nodeTags), Filter(IsService, selectors[..i]))
      invariant Used(used, reserved, Filter(IsService, selectors[..i]))
    {
      var selector := selectors[i];
      FilterStep(IsService, EmitService(nodeTags), selectors, i);
      if selector.tag == PROXY {
        continue;
      }
      UsedTags(used, reserved, nodeTags, selectors, i);
      ServicesStep(nodeTags, selectors, i);
      var planned := PlanService(nodeTags, used, selector);
      if planned.Failure? {
        if ServicesOk(nodeTags, Filter(IsService, selectors)) {
          ServicesPrefix(nodeTags, selectors, i + 1);
        }
        return Failure(planned.error);
      }
      UsedStep(used, reserved, selectors, i);
      outbounds := outbounds + [planned.value];
      used := used + {TrimSpace(selector.tag)};
    }
    assert selectors[..|selectors|] == selectors;
    return Success(outbounds);
  }

  /** The tags taken by what was planned so far. */
  ghost predicate Used(used: set<string>, reserved: set<string>, services: seq<Selector>) {
    forall tag :: tag in used <==> tag in reserved || tag in Map(SelectorTag, services)
  }

  /** A service's tag is free exactly when no earlier service has it, unless a node or the plan has. */
  lemma UsedTags(used: set<string>, reserved: set<string>, nodeTags: seq<string>, selectors: seq<Selector>, i: nat)
    requires i < |selectors| && Used(used, reserved, Filter(IsService, selectors[..i]))
    requires forall tag :: tag in reserved <==> Reserved(tag) || tag in nodeTags
    ensures ServiceOk(nodeTags, selectors[i]) ==>
              (SelectorTag(selectors[i]) in used <==>
               SelectorTag(selectors[i]) in Map(SelectorTag, Filter(IsService, selectors[..i])))
    ensures SelectorTag(selectors[i]) !in used ==>
              SelectorTag(selectors[i]) !in Map(SelectorTag, Filter(IsService, selectors[..i]))
    ensures forall tag :: tag in nodeTags || Reserved(tag) ==> tag in used
  {
  }

  lemma UsedStep(used: set<string>, reserved: set<string>, selectors: seq<Selector>, i: nat)
    requires i < |selectors| && IsService(selectors[i]) && Used(used, reserved, Filter(IsService, selectors[..i]))
    ensures Used(used + {TrimSpace(selectors[i].tag)}, reserved, Filter(IsService, selectors[..i + 1]))
  {
    FilterStep(IsService, SelectorTag, selectors, i);
    AppendMembers(Map(SelectorTag, Filter(IsService, selectors[..i])), SelectorTag(selectors[i]));
  }

  /** What one more service selector must satisfy. */
  lemma ServicesStep(tags: seq<string>, selectors: seq<Selector>, i: nat)
    requires i < |selectors| && IsService(selectors[i])
    ensures ServicesOk(tags, Filter(IsService, selectors[..i + 1])) <==>
            && ServicesOk(tags, Filter(IsService, selectors[..i])) && ServiceOk(tags, selectors[i])
            && SelectorTag(selectors[i]) !in Map(SelectorTag, Filter(IsService, selectors[..i]))
  {
    FilterStep(IsService, SelectorTag, selectors, i);
    ServicesOkExtend(tags, Filter(IsService, selectors[..i]), selectors[i]);
  }

  /** A rejected prefix rejects the list. */
  lemma ServicesPrefix(tags: seq<string>, selectors: seq<Selector>, i: nat)
    requires i <= |selectors| && ServicesOk(tags, Filter(IsService, selectors))
    ensures ServicesOk(tags, Filter(IsService, selectors[..i]))
  {
    FilterPrefix(IsService, selectors, i);
    ServicesOkPrefix(tags, Filter(IsService, selectors[..i]), Filter(IsService, selectors));
  }

  lemma ServicesOkExtend(tags: seq<string>, services: seq<Selector>, s: Selector)
    ensures ServicesOk(tags, services + [s]) <==>
            ServicesOk(tags, services) && ServiceOk(tags, s) && SelectorTag(s) !in Map(SelectorTag, services)
  {
    MapAppend(SelectorTag, services, s);
    NoDupAppend(Map(SelectorTag, services), SelectorTag(s));
    PrefixMembers(services, services + [s]);
    assert (services + [s])[|services|] == s;
  }

  lemma ServicesOkPrefix(tags: seq<string>, a: seq<Selector>, b: seq<Selector>)
    requires a <= b
    ensures ServicesOk(tags, b) ==> ServicesOk(tags, a)
  {
    if ServicesOk(tags, b) {
      PrefixMembers(a, b);
      MapPrefixOf(SelectorTag, a, b);
      NoDupPrefix(Map(SelectorTag, a), Map(SelectorTag, b));
    }
  }

  method PlanOutboundsWithSelectors(nodes: seq<Node>, selectors: seq<Selector>)
    returns (r: Result<(seq<Outbound>, string), ConfigError>)
    ensures r.Success? <==> OutboundsOk(nodes, selectors)
    ensures r.Success? ==> r.value == (PlannedOutbounds(nodes, selectors), FinalTag(nodes))
  {
    var planned := PlanNodes(nodes);
    if planned.Failure? {
      return Failure(planned.error);
    }
    var (nodeOutbounds, nodeTags, used) := planned.value;
    var outbounds := nodeOutbounds + [DIRECT_OUTBOUND];
    if |nodeTags| == 0 {
      return Success((outbounds + Map(EmitDirectSelector, selectors), DIRECT));
    }
    var defaultNode := ProxySelection(selectors, nodeTags[0]);
    var groups := [URLTestGroup(nodeTags), EmitSelector(PROXY, nodeTags + [DIRECT], defaultNode)];
    var services := PlanServices(nodeTags, used, selectors);
    if services.Failure? {
      return Failure(services.error);
    }
    return Success((outbounds + (groups + services.value), PROXY));
  }

  /******* Rules *******/

  function SniffRule(): Rule { Rule([], [], [], Sniff) }
  function HijackRule(): Rule { Rule([DNS_PORT], [], [], HijackDNS) }
  function GeoIPRule(): Rule { Rule([], [], [GEOIP_CN], RouteTo(DIRECT)) }
  function SuffixRule(suffix: string, outbound: string): Rule { Rule([], [suffix], [], RouteTo(outbound)) }

  /** The rules before and after the place where service rules go. */
  function HeadRules(s: Settings): seq<Rule> {
    if s.proxyMode.TunMode? then [SniffRule(), HijackRule()] else [SniffRule()]
  }

  function TailRules(s: Settings): seq<Rule> {
    if s.routeMode.RuleMode? then [GeoIPRule()] else []
  }

  function PlanRoute(finalOutbound: string, s: Settings): RoutePlan {
    var rules := HeadRules(s) + TailRules(s);
    match s.routeMode
    case DirectMode => RoutePlan(rules, [], DIRECT)
    case RuleMode => RoutePlan(rules, [GEOIP_CN], finalOutbound)
    case _ => RoutePlan(rules, [], finalOutbound)
  }

  function Suffix(r: Rule): string {
    if r.suffixes == [] then "" else r.suffixes[0]
  }

  /** Longer suffixes first; lexical order breaks ties. */
  predicate RuleBefore(a: Rule, b: Rule) {
    if |Suffix(a)| != |Suffix(b)| then |Suffix(a)| > |Suffix(b)| else Less(Suffix(a), Suffix(b))
  }

  function RulesFor(selector: string): string -> Rule {
    (domain: string) => SuffixRule(domain, selector)
  }

  function RulesOf(r: ServiceRoute): seq<Rule> {
    if r.enabled then Map(RulesFor(r.selector), r.domains) else []
  }

  function ServiceRules(routes: seq<ServiceRoute>): seq<Rule> {
    Flatten(Map(RulesOf, routes))
  }

  function PlannedRules(s: Settings, routes: seq<ServiceRoute>): seq<Rule> {
    if s.routeMode.DirectMode? then HeadRules(s) + TailRules(s)
    else HeadRules(s) + Sort(RuleBefore, ServiceRules(routes)) + TailRules(s)
  }

  method CollectRules(routes: seq<ServiceRoute>) returns (rules: seq<Rule>)
    ensures rules == ServiceRules(routes)
  {
    rules := [];
    for i := 0 to |routes|
      invariant rules == ServiceRules(routes[..i])
    {
      var service := routes[i];
      MapPrefix(RulesOf, routes, i);
      FlattenAppend(Map(RulesOf, routes[..i]), RulesOf(service));
      if !service.enabled {
        continue;
      }
      ghost var before := rules;
      for j := 0 to |service.domains|
        invariant rules == before + Map(RulesFor(service.selector), service.domains[..j])
      {
        MapPrefix(RulesFor(service.selector), service.domains, j);
        rules := rules + [SuffixRule(service.domains[j], service.selector)];
      }
      assert service.domains[..|service.domains|] == service.domains;
    }
    assert routes[..|routes|] == routes;
  }

  /** Inserts the sorted service rules after the sniff and DNS rules. */
  method PlanRules(finalOutbound: string, s: Settings, routes: seq<ServiceRoute>) returns (rules: seq<Rule>)
    ensures rules == PlannedRules(s, routes)
  {
    rules := PlanRoute(finalOutbound, s).rules;
    if !s.routeMode.DirectMode? {
      var serviceRules := CollectRules(routes);
      serviceRules := Sort(RuleBefore, serviceRules);
      var prefix := 1;
      if s.proxyMode.TunMode? {
        prefix := prefix + 1;
      }
      Splice(HeadRules(s), serviceRules, TailRules(s));
      rules := rules[..prefix] + serviceRules + rules[prefix..];
    }
  }

  /******* The whole plan *******/

  predicate NotURLTest(o: Outbound) { o.kind != URLTEST }

  /** The probe filter works over the array it reads. */
  method DropURLTest(outbounds: seq<Outbound>) returns (kept: seq<Outbound>)
    ensures kept == Filter(NotURLTest, outbounds)
  {
    var a := new Outbound[|outbounds|](i requires 0 <= i < |outbounds| => outbounds[i]);
    assert a[..] == outbounds;
    var n := Compact(a, NotURLTest);
    kept := a[..n];
  }

  function Plan(s: Settings, m: RuntimeModel): Blueprint {
    var outbounds := PlannedOutbounds(m.nodes, m.selectors);
    Blueprint(
      s,
      if s.probeOnly then Filter(NotURLTest, outbounds) else outbounds,
      PlanRoute(FinalTag(m.nodes), s).(rules := PlannedRules(s, m.routes)))
  }

  ghost predicate PlanOk(isIP: string -> bool, s: Settings, m: RuntimeModel) {
    ValidSettings(s) && InboundsOk(isIP, s) && OutboundsOk(m.nodes, m.selectors)
  }

  method PlanRuntimeModel(isIP: string -> bool, s: Settings, m: RuntimeModel) returns (r: Result<Blueprint, ConfigError>)
    ensures r.Success? <==> PlanOk(isIP, s, m)
    ensures r.Success? ==> r.value == Plan(s, m)
  {
    if !ValidSettings(s) {
      return Failure(InvalidSettings("invalid build settings"));
    }
    if !InboundsOk(isIP, s) {
      return Failure(InvalidSettings("listen address is not a valid IP address"));
    }
    var planned := PlanOutboundsWithSelectors(m.nodes, m.selectors);
    if planned.Failure? {
      return Failure(planned.error);
    }
    var (outbounds, finalOutbound) := planned.value;
    if s.probeOnly {
      outbounds := DropURLTest(outbounds);
    }
    var rules := PlanRules(finalOutbound, s, m.routes);
    return Success(Blueprint(s, outbounds, PlanRoute(finalOutbound, s).(rules := rules)));
  }
}
