/** The meaning of a runtime model, the meaning of an emitted plan, and their agreement. */
module Meaning {
  import opened Text
  import opened Sequences
  import opened Domains
  import opened Wrappers
  import opened RuntimeModel
  import opened Validation
  import opened Canonicity
  import opened Planner
  import opened Closure

  /** A connection as the router sees it; `inChina` is the verdict of the geoip-cn rule set. */
  datatype Connection = Connection(host: string, port: int, inChina: bool)

  /******* What the emitted plan does *******/

  predicate Matches(r: Rule, c: Connection) {
    && (r.ports == [] || c.port in r.ports)
    && (r.suffixes == [] || exists i :: 0 <= i < |r.suffixes| && SuffixMatch(r.suffixes[i], c.host))
    && (r.ruleSets == [] || (GEOIP_CN in r.ruleSets && c.inChina))
  }

  /** The first matching rule decides; sniffing only inspects and lets evaluation go on. */
  function FirstMatch(rules: seq<Rule>, final: string, c: Connection): Action {
    if rules == [] then RouteTo(final)
    else if !rules[0].action.Sniff? && Matches(rules[0], c) then rules[0].action
    else FirstMatch(rules[1..], final, c)
  }

  function Find(outbounds: seq<Outbound>, tag: string): Option<Outbound> {
    if outbounds == [] then None
    else if outbounds[0].tag == tag then Some(outbounds[0])
    else Find(outbounds[1..], tag)
  }

  /** Follows selector defaults to the outbound that carries the traffic. */
  function Resolve(outbounds: seq<Outbound>, tag: string, hops: nat): string
    decreases hops
  {
    match Find(outbounds, tag)
    case Some(Outbound(_, _, SelectorOptions(_, default))) =>
      if hops == 0 then tag else Resolve(outbounds, default, hops - 1)
    case _ => tag
  }

  function Decide(p: Blueprint, c: Connection): Action {
    match FirstMatch(p.route.rules, p.route.final, c)
    case RouteTo(tag) => RouteTo(Resolve(p.outbounds, tag, |p.outbounds|))
    case other => other
  }

  /******* What the model means *******/

  /** Enabled service `r` lists `domain`, which covers `host`. */
  ghost predicate Serves(m: RuntimeModel, r: ServiceRoute, domain: string, host: string) {
    r in m.routes && r.enabled && domain in r.domains && SuffixMatch(domain, host)
  }

  /** `r` owns `host`: no enabled service covers it with a longer domain. */
  ghost predicate Owns(m: RuntimeModel, r: ServiceRoute, host: string) {
    exists domain :: Serves(m, r, domain, host) && Longest(m, domain, host)
  }

  ghost predicate Longest(m: RuntimeModel, domain: string, host: string) {
    forall r, d :: Serves(m, r, d, host) ==> |d| <= |domain|
  }

  ghost predicate Selects(m: RuntimeModel, tag: string, id: string) {
    exists s :: s in m.selectors && s.tag == tag && s.selected == id
  }

  /** The default route: the proxy selection, else the first available node, else `direct`. */
  ghost predicate ProxyMeans(m: RuntimeModel, target: string) {
    if AvailableIds(m.nodes) == [] then target == DIRECT
    else if exists s :: s in m.selectors && s.tag == PROXY then Selects(m, PROXY, target)
    else target == AvailableIds(m.nodes)[0]
  }

  /** `target` is where the model sends `c`. */
  ghost predicate Means(s: Settings, m: RuntimeModel, c: Connection, target: Action) {
    if s.proxyMode.TunMode? && c.port == DNS_PORT then target == HijackDNS
    else
      target.RouteTo? &&
      if s.routeMode.DirectMode? then target.outbound == DIRECT
      else if exists r :: Owns(m, r, c.host) then
        exists r :: Owns(m, r, c.host) && Selects(m, r.selector, target.outbound)
      else if s.routeMode.RuleMode? && c.inChina then target.outbound == DIRECT
      else ProxyMeans(m, target.outbound)
  }

  /******* First match over sorted suffixes *******/

  lemma RuleOrder(rules: seq<Rule>)
    ensures WeakOrder(RuleBefore)
  {
    forall x: Rule, y: Rule, z: Rule
      ensures RuleBefore(x, y) ==> !RuleBefore(y, x)
      ensures !RuleBefore(x, y) && !RuleBefore(y, z) ==> !RuleBefore(x, z)
    {
      LessIsOrder(Suffix(x), Suffix(y), Suffix(z));
    }
  }

  ghost predicate IsSuffixRule(r: Rule) {
    r.action.RouteTo? && r == SuffixRule(Suffix(r), r.action.outbound)
  }

  lemma SuffixRuleMatches(r: Rule, c: Connection)
    requires IsSuffixRule(r)
    ensures Matches(r, c) <==> SuffixMatch(Suffix(r), c.host)
  {
    assert r.suffixes == [Suffix(r)];
  }

  lemma {:induction false} NoMatchSkips(rules: seq<Rule>, rest: seq<Rule>, final: string, c: Connection)
    requires forall r :: r in rules ==> r.action.Sniff? || !Matches(r, c)
    ensures FirstMatch(rules + rest, final, c) == FirstMatch(rest, final, c)
  {
    if rules == [] {
      assert rules + rest == rest;
    } else {
      assert (rules + rest)[1..] == rules[1..] + rest;
      assert rules[0] in rules;
      NoMatchSkips(rules[1..], rest, final, c);
    }
  }

  lemma HeadIsLongest(rules: seq<Rule>)
    requires Sorted(RuleBefore, rules)
    ensures forall r :: r in rules ==> |Suffix(r)| <= |Suffix(rules[0])|
  {
    forall r | r in rules ensures |Suffix(r)| <= |Suffix(rules[0])| {
      var i :| 0 <= i < |rules| && rules[i] == r;
      if i > 0 {
        assert !RuleBefore(rules[i], rules[0]);
      }
    }
  }

  /** Among sorted suffix rules the first match has the longest matching suffix. */
  lemma {:induction false} FirstIsLongest(rules: seq<Rule>, rest: seq<Rule>, final: string, c: Connection) returns (hit: Rule)
    requires Sorted(RuleBefore, rules) && forall r :: r in rules ==> r.action.RouteTo?
    requires exists r :: r in rules && Matches(r, c)
    ensures hit in rules && Matches(hit, c) && FirstMatch(rules + rest, final, c) == hit.action
    ensures forall r :: r in rules && Matches(r, c) ==> |Suffix(r)| <= |Suffix(hit)|
  {
    assert rules == [rules[0]] + rules[1..];
    assert (rules + rest)[1..] == rules[1..] + rest;
    if Matches(rules[0], c) {
      hit := rules[0];
      HeadIsLongest(rules);
    } else {
      SortedTail(RuleBefore, rules);
      hit := FirstIsLongest(rules[1..], rest, final, c);
    }
  }

  /******* Ownership *******/

  lemma ServiceRulesSorted(routes: seq<ServiceRoute>)
    ensures var rules := Sort(RuleBefore, ServiceRules(routes));
            && Sorted(RuleBefore, rules)
            && forall r :: r in rules ==> IsSuffixRule(r)
  {
    RuleOrder([]);
    SortSorted(RuleBefore, ServiceRules(routes));
    SortMembers(RuleBefore, ServiceRules(routes));
    forall r | r in ServiceRules(routes) ensures IsSuffixRule(r) {
      ServiceRuleOrigin(routes, r);
    }
  }

  lemma ServesIsRule(m: RuntimeModel, r: ServiceRoute, d: string, c: Connection)
    requires Serves(m, r, d, c.host)
    ensures SuffixRule(d, r.selector) in ServiceRules(m.routes) && Matches(SuffixRule(d, r.selector), c)
  {
    ServiceRuleOrigin(m.routes, SuffixRule(d, r.selector));
    SuffixRuleMatches(SuffixRule(d, r.selector), c);
  }

  lemma RuleServes(m: RuntimeModel, rule: Rule, c: Connection) returns (r: ServiceRoute)
    requires rule in ServiceRules(m.routes) && Matches(rule, c)
    ensures Serves(m, r, Suffix(rule), c.host) && rule == SuffixRule(Suffix(rule), r.selector)
  {
    ServiceRuleOrigin(m.routes, rule);
    var route, d :| route in m.routes && route.enabled && d in route.domains && rule == SuffixRule(d, route.selector);
    r := route;
    SuffixRuleMatches(rule, c);
  }

  /** A domain of an enabled route is claimed, and claimed by one route only. */
  lemma ClaimedOnce(m: RuntimeModel, a: ServiceRoute, b: ServiceRoute, d: string)
    requires Normalized(m) && a in m.routes && b in m.routes && a.enabled && b.enabled
    requires d in a.domains && d in b.domains
    ensures a == b
  {
    NormalizedRoute(m, a);
    NormalizedRoute(m, b);
    var i :| 0 <= i < |m.routes| && m.routes[i] == a;
    var j :| 0 <= j < |m.routes| && m.routes[j] == b;
    FlattenDistinct(Map(Claimed, m.routes), i, j, d);
  }

  /** Two service rules that the sort does not tell apart are the same rule, so every sorting algorithm
      gives the same rule list. */
  lemma RuleTies(m: RuntimeModel)
    requires Normalized(m)
    ensures TiesAreEqual(RuleBefore, ServiceRules(m.routes))
  {
    var rules := ServiceRules(m.routes);
    forall x, y | x in rules && y in rules && !RuleBefore(x, y) && !RuleBefore(y, x) ensures x == y {
      LessIsOrder(Suffix(x), Suffix(y), Suffix(x));
      ServiceRuleOrigin(m.routes, x);
      ServiceRuleOrigin(m.routes, y);
      var a, d :| a in m.routes && a.enabled && d in a.domains && x == SuffixRule(d, a.selector);
      var b, e :| b in m.routes && b.enabled && e in b.domains && y == SuffixRule(e, b.selector);
      assert Suffix(x) == d && Suffix(y) == e;
      ClaimedOnce(m, a, b, d);
    }
  }

  lemma InTail<T>(s: seq<seq<T>>, i: nat, x: T)
    requires 0 < i < |s| && x in s[i]
    ensures x in Flatten(s[1..])
  {
    FlattenMember(s[1..], x);
    assert x in s[1..][i - 1];
  }

  lemma {:induction false} FlattenDistinct<T(!new)>(s: seq<seq<T>>, i: nat, j: nat, x: T)
    requires NoDup(Flatten(s)) && i < |s| && j < |s| && x in s[i] && x in s[j]
    ensures i == j
  {
    NoDupConcat(s[0], Flatten(s[1..]));
    if i > 0 { InTail(s, i, x); }
    if j > 0 { InTail(s, j, x); }
    if i > 0 && j > 0 {
      FlattenDistinct(s[1..], i - 1, j - 1, x);
    }
  }

  ghost predicate ClaimsUnique(m: RuntimeModel) {
    forall a, b, d :: a in m.routes && b in m.routes && a.enabled && b.enabled && d in a.domains && d in b.domains ==> a == b
  }

  /** At most one service owns a host. */
  lemma OwnerUnique(m: RuntimeModel, a: ServiceRoute, b: ServiceRoute, host: string)
    requires ClaimsUnique(m) && Owns(m, a, host) && Owns(m, b, host)
    ensures a == b
  {
    var x :| Serves(m, a, x, host) && Longest(m, x, host);
    var y :| Serves(m, b, y, host) && Longest(m, y, host);
    assert |x| == |y|;
    SuffixDetermined(x, y, host);
  }

  /** Over the service rules, first match finds the owner's selector or nothing at all. */
  lemma ServiceRulesDecide(m: RuntimeModel, rest: seq<Rule>, final: string, c: Connection)
    ensures var rules := Sort(RuleBefore, ServiceRules(m.routes));
            || (FirstMatch(rules + rest, final, c) == FirstMatch(rest, final, c) && forall r :: !Owns(m, r, c.host))
            || exists r :: Owns(m, r, c.host) && FirstMatch(rules + rest, final, c) == RouteTo(r.selector)
  {
    var rules := Sort(RuleBefore, ServiceRules(m.routes));
    ServiceRulesSorted(m.routes);
    SortMembers(RuleBefore, ServiceRules(m.routes));
    if exists r :: r in rules && Matches(r, c) {
      var hit := FirstIsLongest(rules, rest, final, c);
      var owner := RuleServes(m, hit, c);
      forall r, d | Serves(m, r, d, c.host) ensures |d| <= |Suffix(hit)| {
        ServesIsRule(m, r, d, c);
        assert Suffix(SuffixRule(d, r.selector)) == d;
      }
      assert Longest(m, Suffix(hit), c.host);
      assert Owns(m, owner, c.host);
    } else {
      NoMatchSkips(rules, rest, final, c);
      forall r ensures !Owns(m, r, c.host) {
        if d :| Serves(m, r, d, c.host) && Longest(m, d, c.host) {
          ServesIsRule(m, r, d, c);
        }
      }
    }
  }

  /******* Resolution *******/

  lemma {:induction false} FindDistinct(outbounds: seq<Outbound>, o: Outbound)
    requires NoDup(Map(TagOfOutbound, outbounds)) && o in outbounds
    ensures Find(outbounds, o.tag) == Some(o)
  {
    var tags := Map(TagOfOutbound, outbounds);
    NoDupCons(tags);
    assert tags[1..] == Map(TagOfOutbound, outbounds[1..]);
    if outbounds[0] != o {
      assert o in outbounds[1..];
      MapIn(TagOfOutbound, outbounds[1..], o);
      FindDistinct(outbounds[1..], o);
    }
  }

  ghost predicate Leaf(out: seq<Outbound>, tag: string) {
    Find(out, tag).Some? ==> !Find(out, tag).value.options.SelectorOptions?
  }

  /** In `out`, selectors lead to node tags or `direct` in one hop, and those are not selectors. */
  ghost predicate OneHop(out: seq<Outbound>, tags: seq<string>) {
    && NoDup(Map(TagOfOutbound, out))
    && (forall o :: o in out ==> RefersToNodes(tags, o))
    && (forall tag :: tag in tags || tag == DIRECT ==> Leaf(out, tag))
  }

  lemma EmittedOneHop(m: RuntimeModel, probeOnly: bool)
    requires Normalized(m) && StableIds(m.nodes) && (probeOnly ==> NoURLTestNodes(m.nodes))
    ensures OneHop(EmittedOutbounds(m.nodes, m.selectors, probeOnly), NodeTags(m.nodes))
  {
    var out := EmittedOutbounds(m.nodes, m.selectors, probeOnly);
    OutboundsAreClosed(m, probeOnly);
    forall o | o in out ensures RefersToNodes(NodeTags(m.nodes), o) {
      PlannedReferences(m, o);
    }
    forall tag | tag in NodeTags(m.nodes) || tag == DIRECT ensures Leaf(out, tag) {
      LeafEmitted(m.nodes, m.selectors, probeOnly, tag);
    }
  }

  lemma LeafEmitted(nodes: seq<Node>, selectors: seq<Selector>, probeOnly: bool, tag: string)
    requires NoDup(Map(TagOfOutbound, EmittedOutbounds(nodes, selectors, probeOnly)))
    requires probeOnly ==> NoURLTestNodes(nodes)
    requires tag in NodeTags(nodes) || tag == DIRECT
    ensures Leaf(EmittedOutbounds(nodes, selectors, probeOnly), tag)
  {
    NodeTagEmitted(nodes, selectors, tag);
    var o :| o in PlannedOutbounds(nodes, selectors) && o.tag == tag && !o.options.SelectorOptions?
             && (NoURLTestNodes(nodes) ==> NotURLTest(o));
    FindDistinct(EmittedOutbounds(nodes, selectors, probeOnly), o);
  }

  /** A selector's tag resolves to its default. */
  lemma ResolveSelector(out: seq<Outbound>, tags: seq<string>, o: Outbound)
    requires OneHop(out, tags) && o in out && o.options.SelectorOptions?
    ensures Resolve(out, o.tag, |out|) == o.options.default
  {
    FindDistinct(out, o);
    assert RefersToNodes(tags, o);
    assert Leaf(out, o.options.default);
  }

  lemma SelectorUnique(m: RuntimeModel, a: Selector, b: Selector)
    requires Normalized(m) && a in m.selectors && b in m.selectors && a.tag == b.tag
    ensures a == b
  {
    DistinctKeys(TagOf, m.selectors);
  }

  /** Without nodes a normalised selector can only be set to `direct`. */
  lemma NoNodesDirect(m: RuntimeModel, s: Selector)
    requires Normalized(m) && s in m.selectors && AvailableIds(m.nodes) == []
    ensures s.selected == DIRECT
  {
    NormalizedSelector(m, s);
  }

  /** Routing to a service's selector reaches the selected node. */
  lemma ResolveService(m: RuntimeModel, probeOnly: bool, r: ServiceRoute, target: string)
    requires Normalized(m) && StableIds(m.nodes) && (probeOnly ==> NoURLTestNodes(m.nodes))
    requires r in m.routes
    ensures var out := EmittedOutbounds(m.nodes, m.selectors, probeOnly);
            Selects(m, r.selector, target) <==> Resolve(out, r.selector, |out|) == target
  {
    NormalizedRoute(m, r);
    var s :| s in m.selectors && s.tag == r.selector && IsService(s);
    var o := ServiceOutbound(m, s);
    var out := EmittedOutbounds(m.nodes, m.selectors, probeOnly);
    SelectorEmitted(m.nodes, m.selectors, s);
    assert NotURLTest(o) && o in out;
    EmittedOneHop(m, probeOnly);
    ResolveSelector(out, NodeTags(m.nodes), o);
    forall t | t in m.selectors && t.tag == s.tag ensures t == s {
      SelectorUnique(m, t, s);
    }
  }

  lemma ServiceOutbound(m: RuntimeModel, s: Selector) returns (o: Outbound)
    requires Normalized(m) && StableIds(m.nodes) && s in m.selectors && IsService(s)
    ensures o == EmittedFor(NodeTags(m.nodes), s)
    ensures o.tag == s.tag && o.kind == SELECTOR && o.options.SelectorOptions? && o.options.default == s.selected
  {
    o := EmittedFor(NodeTags(m.nodes), s);
    if NodeTags(m.nodes) == [] {
      StableTags(m.nodes);
      NoNodesDirect(m, s);
    } else {
      ServiceEmitted(m, s);
    }
  }

  lemma {:induction false} ProxyDefaultFinds(selectors: seq<Selector>, first: string)
    ensures (forall s :: s in selectors ==> s.tag != PROXY) ==> ProxyDefault(selectors, first) == first
    ensures (exists s :: s in selectors && s.tag == PROXY) ==>
              exists s :: s in selectors && s.tag == PROXY && ProxyDefault(selectors, first) == s.selected
  {
    if selectors != [] {
      var init, last := selectors[..|selectors| - 1], selectors[|selectors| - 1];
      assert selectors == init + [last];
      ProxyDefaultFinds(init, first);
    }
  }

  /** The final outbound reaches the default route. */
  lemma ResolveFinal(m: RuntimeModel, probeOnly: bool, target: string)
    requires Normalized(m) && StableIds(m.nodes) && (probeOnly ==> NoURLTestNodes(m.nodes))
    ensures var out := EmittedOutbounds(m.nodes, m.selectors, probeOnly);
            ProxyMeans(m, target) <==> Resolve(out, FinalTag(m.nodes), |out|) == target
  {
    var tags, out := NodeTags(m.nodes), EmittedOutbounds(m.nodes, m.selectors, probeOnly);
    StableTags(m.nodes);
    EmittedOneHop(m, probeOnly);
    if tags == [] {
      assert Leaf(out, DIRECT);
    } else {
      GroupsEmitted(m.nodes, m.selectors);
      var group := ProxyGroup(tags, m.selectors);
      assert NotURLTest(group) && group in out;
      ResolveSelector(out, tags, group);
      ProxyDefaultMeans(m, tags, target);
    }
  }

  lemma ProxyDefaultMeans(m: RuntimeModel, tags: seq<string>, target: string)
    requires NoDup(Map(TagOf, m.selectors)) && tags == AvailableIds(m.nodes) && tags != []
    ensures ProxyMeans(m, target) <==> ProxyDefault(m.selectors, tags[0]) == target
  {
    ProxyDefaultFinds(m.selectors, tags[0]);
    DistinctKeys(TagOf, m.selectors);
    if s :| s in m.selectors && s.tag == PROXY && ProxyDefault(m.selectors, tags[0]) == s.selected {
      forall t | t in m.selectors && t.tag == PROXY ensures t == s {
        assert TagOf(t) == TagOf(s);
      }
    }
  }

  /******* Compilation preserves meaning *******/

  lemma HeadAndTail(s: Settings, middle: seq<Rule>, final: string, c: Connection)
    ensures s.proxyMode.TunMode? && c.port == DNS_PORT ==> FirstMatch(HeadRules(s) + middle, final, c) == HijackDNS
    ensures !(s.proxyMode.TunMode? && c.port == DNS_PORT) ==>
              FirstMatch(HeadRules(s) + middle, final, c) == FirstMatch(middle, final, c)
    ensures FirstMatch(TailRules(s), final, c) ==
            if s.routeMode.RuleMode? && c.inChina then RouteTo(DIRECT) else RouteTo(final)
  {
    var rest := (HeadRules(s) + middle)[1..];
    assert s.proxyMode.TunMode? ==> rest == [HijackRule()] + middle && rest[1..] == middle;
    assert !s.proxyMode.TunMode? ==> rest == middle;
  }

  /** Resolution in `out` agrees with the model's selections, and owners are unique. */
  ghost predicate Carries(m: RuntimeModel, out: seq<Outbound>) {
    && ClaimsUnique(m)
    && Resolve(out, DIRECT, |out|) == DIRECT
    && (forall r, target :: r in m.routes && r.enabled ==> (Selects(m, r.selector, target) <==> Resolve(out, r.selector, |out|) == target))
    && (forall target :: ProxyMeans(m, target) <==> Resolve(out, FinalTag(m.nodes), |out|) == target)
  }

  lemma EmittedCarries(m: RuntimeModel, probeOnly: bool)
    requires Normalized(m) && StableIds(m.nodes) && (probeOnly ==> NoURLTestNodes(m.nodes))
    ensures Carries(m, EmittedOutbounds(m.nodes, m.selectors, probeOnly))
  {
    var out := EmittedOutbounds(m.nodes, m.selectors, probeOnly);
    forall a, b, d | a in m.routes && b in m.routes && a.enabled && b.enabled && d in a.domains && d in b.domains
      ensures a == b
    {
      ClaimedOnce(m, a, b, d);
    }
    EmittedOneHop(m, probeOnly);
    assert Leaf(out, DIRECT);
    forall r, target | r in m.routes ensures Selects(m, r.selector, target) <==> Resolve(out, r.selector, |out|) == target {
      ResolveService(m, probeOnly, r, target);
    }
    forall target ensures ProxyMeans(m, target) <==> Resolve(out, FinalTag(m.nodes), |out|) == target {
      ResolveFinal(m, probeOnly, target);
    }
  }

  /** The tag the rules must reach for `c`, by the model's case analysis. */
  ghost predicate Reaches(s: Settings, m: RuntimeModel, c: Connection, tag: string) {
    if s.routeMode.DirectMode? then tag == DIRECT
    else if exists r :: Owns(m, r, c.host) then exists r :: Owns(m, r, c.host) && tag == r.selector
    else if s.routeMode.RuleMode? && c.inChina then tag == DIRECT
    else tag == FinalTag(m.nodes)
  }

  lemma ReachedMeaning(s: Settings, m: RuntimeModel, c: Connection, out: seq<Outbound>, tag: string, target: string)
    requires Carries(m, out) && Reaches(s, m, c, tag)
    requires !(s.proxyMode.TunMode? && c.port == DNS_PORT)
    ensures Means(s, m, c, RouteTo(target)) <==> Resolve(out, tag, |out|) == target
  {
    if !s.routeMode.DirectMode? && exists r :: Owns(m, r, c.host) {
      var r :| Owns(m, r, c.host) && tag == r.selector;
      forall o | Owns(m, o, c.host) ensures o == r {
        OwnerUnique(m, o, r, c.host);
      }
      assert r in m.routes && r.enabled;
    }
  }

  /** For every normalised model and connection, the emitted rules followed by selector defaults give
      exactly the target that the model means. */
  lemma MeaningPreserved(s: Settings, m: RuntimeModel, c: Connection, target: Action)
    requires Normalized(m) && StableIds(m.nodes) && (s.probeOnly ==> NoURLTestNodes(m.nodes))
    ensures Means(s, m, c, target) <==> target == Decide(Plan(s, m), c)
  {
    EmittedCarries(m, s.probeOnly);
    DecisionMeaning(s, m, Plan(s, m), c, target);
  }

  /** First match reaches the tag that the model's case analysis names. */
  lemma RulesReach(s: Settings, m: RuntimeModel, c: Connection)
    requires !(s.proxyMode.TunMode? && c.port == DNS_PORT)
    ensures var route := Plan(s, m).route;
            var action := FirstMatch(route.rules, route.final, c);
            action.RouteTo? && Reaches(s, m, c, action.outbound)
  {
    var route := Plan(s, m).route;
    var services := Sort(RuleBefore, ServiceRules(m.routes));
    if s.routeMode.DirectMode? {
      HeadAndTail(s, TailRules(s), route.final, c);
    } else {
      assert route.rules == HeadRules(s) + (services + TailRules(s));
      HeadAndTail(s, services + TailRules(s), route.final, c);
      ServiceRulesDecide(m, TailRules(s), route.final, c);
    }
  }

  lemma HijackFirst(s: Settings, m: RuntimeModel, c: Connection)
    requires s.proxyMode.TunMode? && c.port == DNS_PORT
    ensures FirstMatch(Plan(s, m).route.rules, Plan(s, m).route.final, c) == HijackDNS
  {
    var route := Plan(s, m).route;
    var middle := route.rules[|HeadRules(s)|..];
    assert route.rules == HeadRules(s) + middle;
    HeadAndTail(s, middle, route.final, c);
  }

  /** What a plan with the model's rules does, if its outbounds carry the model's selections. */
  lemma DecisionMeaning(s: Settings, m: RuntimeModel, p: Blueprint, c: Connection, target: Action)
    requires p.route == Plan(s, m).route && Carries(m, p.outbounds)
    ensures Means(s, m, c, target) <==> target == Decide(p, c)
  {
    if s.proxyMode.TunMode? && c.port == DNS_PORT {
      HijackFirst(s, m, c);
    } else {
      RulesReach(s, m, c);
      if target.RouteTo? {
        ReachedMeaning(s, m, c, p.outbounds, FirstMatch(p.route.rules, p.route.final, c).outbound, target.outbound);
      }
    }
  }
}
