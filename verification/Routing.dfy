/** Where the connections go: in every state of every run, a started daemon sends every connection where
    the committed model says exactly when the live choices that matter are the committed ones, and a run
    keeps this exactly when each of its live selections meets a condition on its pool and answers. */
module Routing {
  import opened Wrappers
  import opened Text
  import opened Sequences
  import opened Domains
  import opened RuntimeModel
  import opened Validation
  import opened Canonicity
  import opened Planner
  import opened Closure
  import opened Meaning
  import opened RuntimeConfig
  import opened Commitments
  import opened Edits
  import opened Effects
  import opened Selections
  import opened Protocol
  import opened Runs
  import opened Agreement
  import opened InForce

  /******* What the daemon has loaded *******/

  ghost predicate SameShape(a: RuntimeConfig, b: RuntimeConfig) {
    && a.settings == b.settings && a.routes == b.routes
    && forall tag :: tag in Tags(a) <==> tag in Tags(b)
  }

  /** The daemon loaded the build of `cfg` for `loaded`; since then only selections changed. */
  ghost predicate LoadedFrom(env: Platform, d: Daemon, current: RuntimeConfig, nodes: seq<Node>, cfg: RuntimeConfig, loaded: seq<Node>) {
    && HexPool(loaded) && Builds(env, cfg, loaded) && Settled(cfg, loaded)
    && d.loaded == Some(Content(env, cfg, loaded))
    && SameShape(cfg, current)
    && (AvailableIds(loaded) == [] <==> AvailableIds(nodes) == [])
    && (forall tag :: tag in Tags(cfg) ==> tag in d.live)
    && ChoicesOffered(d)
  }

  ghost predicate Rooted(env: Platform, t: Trace) {
    !t.lost && t.state.daemon.Running() ==>
      t.basis.Some?
      && exists cfg, loaded :: LoadedFrom(env, t.state.daemon, t.state.runtimeConfig, t.basis.value.nodes, cfg, loaded)
  }

  /******* What its outbounds do under the live choices *******/

  function Chosen(d: Daemon, outbounds: seq<Outbound>): seq<Outbound> {
    Map(ChoiceIn(d.live), outbounds)
  }

  lemma ChoiceKeeps(live: map<string, string>, o: Outbound)
    ensures var p := ChoiceIn(live)(o);
            && p.tag == o.tag && (p.options.SelectorOptions? <==> o.options.SelectorOptions?)
            && (!o.options.SelectorOptions? ==> p == o)
            && (o.options.SelectorOptions? ==>
                  (p.options.members == o.options.members
                   && p.options.default == if o.tag in live then live[o.tag] else o.options.default))
  {
  }

  lemma {:induction false} FindChosen(outbounds: seq<Outbound>, live: map<string, string>, tag: string)
    ensures Find(Map(ChoiceIn(live), outbounds), tag) ==
            if Find(outbounds, tag).Some? then Some(ChoiceIn(live)(Find(outbounds, tag).value)) else None
  {
    if outbounds != [] {
      assert Map(ChoiceIn(live), outbounds)[1..] == Map(ChoiceIn(live), outbounds[1..]);
      ChoiceKeeps(live, outbounds[0]);
      FindChosen(outbounds[1..], live, tag);
    }
  }

  lemma ChosenTags(outbounds: seq<Outbound>, live: map<string, string>)
    ensures Map(TagOfOutbound, Map(ChoiceIn(live), outbounds)) == Map(TagOfOutbound, outbounds)
  {
    forall o | o in outbounds ensures TagOfOutbound(ChoiceIn(live)(o)) == TagOfOutbound(o) {
      ChoiceKeeps(live, o);
    }
    MapCompose(ChoiceIn(live), TagOfOutbound, TagOfOutbound, outbounds);
  }

  /** A live choice is offered by the selector that has it. */
  lemma ChoiceRefers(outbounds: seq<Outbound>, live: map<string, string>, tags: seq<string>, o: Outbound)
    requires OneHop(outbounds, tags) && o in outbounds && AllOffered(outbounds, live)
    ensures RefersToNodes(tags, ChoiceIn(live)(o))
  {
    ChoiceKeeps(live, o);
    assert RefersToNodes(tags, o);
    if o.options.SelectorOptions? && o.tag in live {
      var i :| 0 <= i < |outbounds| && outbounds[i].tag == o.tag && outbounds[i].options.SelectorOptions?
               && live[o.tag] in outbounds[i].options.members;
      DistinctOutbounds(outbounds);
      assert outbounds[i] == o;
    }
  }

  lemma ChosenOneHop(outbounds: seq<Outbound>, live: map<string, string>, tags: seq<string>)
    requires OneHop(outbounds, tags) && AllOffered(outbounds, live)
    ensures OneHop(Map(ChoiceIn(live), outbounds), tags)
  {
    var out := Map(ChoiceIn(live), outbounds);
    ChosenTags(outbounds, live);
    forall p | p in out ensures RefersToNodes(tags, p) {
      var o := MapOrigin(ChoiceIn(live), outbounds, p);
      ChoiceRefers(outbounds, live, tags, o);
    }
    forall tag | tag in tags || tag == DIRECT ensures Leaf(out, tag) {
      assert Leaf(outbounds, tag);
      FindChosen(outbounds, live, tag);
      if Find(outbounds, tag).Some? {
        ChoiceKeeps(live, Find(outbounds, tag).value);
      }
    }
  }

  lemma LoadedModel(env: Platform, cfg: RuntimeConfig, nodes: seq<Node>)
    requires HexPool(nodes) && Builds(env, cfg, nodes) && Settled(cfg, nodes)
    ensures var m := RuntimeModel(nodes, cfg.selectors, cfg.routes);
            && Normalized(m) && StableIds(nodes) && NodeTags(nodes) == AvailableIds(nodes)
            && BuildSettings(env, cfg.settings).Some? && Content(env, cfg, nodes) == Plan(BuildSettings(env, cfg.settings).value, m)
            && OneHop(Content(env, cfg, nodes).outbounds, NodeTags(nodes))
  {
    SettledSorted(cfg, nodes);
    HexPoolOk(nodes);
    StableTags(nodes);
    NormalizingTwice(Desired(cfg, nodes));
    EmittedOneHop(RuntimeModel(nodes, cfg.selectors, cfg.routes), false);
  }

  lemma DirectStays(out: seq<Outbound>, tags: seq<string>)
    requires OneHop(out, tags)
    ensures Resolve(out, DIRECT, |out|) == DIRECT
  {
    assert Leaf(out, DIRECT);
  }

  ghost predicate AllOffered(outbounds: seq<Outbound>, live: map<string, string>) {
    forall tag :: tag in live ==> Offers(outbounds, tag, live[tag])
  }

  lemma OfferedBy(d: Daemon, outbounds: seq<Outbound>)
    requires ChoicesOffered(d) && d.loaded.Some? && d.loaded.value.outbounds == outbounds
    ensures AllOffered(outbounds, d.live)
  {
    forall tag | tag in d.live ensures Offers(outbounds, tag, d.live[tag]) {
      assert d.Accepts(tag, d.live[tag]);
    }
  }

  lemma ResolveChosen(outbounds: seq<Outbound>, live: map<string, string>, tags: seq<string>, o: Outbound)
    requires OneHop(outbounds, tags) && AllOffered(outbounds, live)
    requires o in outbounds && o.options.SelectorOptions? && o.tag in live
    ensures var out := Map(ChoiceIn(live), outbounds); Resolve(out, o.tag, |out|) == live[o.tag]
    ensures live[o.tag] in tags || live[o.tag] == DIRECT
  {
    ChosenOneHop(outbounds, live, tags);
    ChoiceKeeps(live, o);
    MapIn(ChoiceIn(live), outbounds, o);
    ResolveSelector(Map(ChoiceIn(live), outbounds), tags, ChoiceIn(live)(o));
    ChoiceRefers(outbounds, live, tags, o);
  }

  lemma LiveOneHop(env: Platform, d: Daemon, current: RuntimeConfig, nodes: seq<Node>, cfg: RuntimeConfig, loaded: seq<Node>)
    requires LoadedFrom(env, d, current, nodes, cfg, loaded)
    ensures OneHop(d.loaded.value.outbounds, NodeTags(loaded)) && AllOffered(d.loaded.value.outbounds, d.live)
    ensures var out := Chosen(d, d.loaded.value.outbounds); Resolve(out, DIRECT, |out|) == DIRECT
  {
    LoadedModel(env, cfg, loaded);
    OfferedBy(d, d.loaded.value.outbounds);
    ChosenOneHop(d.loaded.value.outbounds, d.live, NodeTags(loaded));
    DirectStays(Chosen(d, d.loaded.value.outbounds), NodeTags(loaded));
  }

  lemma LoadedSelector(env: Platform, cfg: RuntimeConfig, nodes: seq<Node>, tag: string) returns (o: Outbound)
    requires HexPool(nodes) && Builds(env, cfg, nodes) && Settled(cfg, nodes) && tag in Tags(cfg)
    ensures o in Content(env, cfg, nodes).outbounds && o.tag == tag && o.options.SelectorOptions?
    ensures NodeTags(nodes) == AvailableIds(nodes)
  {
    LoadedModel(env, cfg, nodes);
    var s := MapOrigin(TagOf, cfg.selectors, tag);
    o := SelectorDefault(RuntimeModel(nodes, cfg.selectors, cfg.routes), s);
  }

  /** A selector's tag leads to its live choice. */
  lemma ResolveLive(env: Platform, d: Daemon, current: RuntimeConfig, nodes: seq<Node>, cfg: RuntimeConfig, loaded: seq<Node>, tag: string)
    requires LoadedFrom(env, d, current, nodes, cfg, loaded) && tag in Tags(current)
    ensures tag in d.live
    ensures var out := Chosen(d, d.loaded.value.outbounds); Resolve(out, tag, |out|) == d.live[tag]
    ensures d.live[tag] in AvailableIds(loaded) || d.live[tag] == DIRECT
  {
    LiveOneHop(env, d, current, nodes, cfg, loaded);
    var o := LoadedSelector(env, cfg, loaded, tag);
    ResolveChosen(d.loaded.value.outbounds, d.live, NodeTags(loaded), o);
  }

  /******* When a plan under live choices routes as a model means *******/

  /** Selectors that connections can reach: the proxy selector and those of enabled services, except in
      direct mode. */
  predicate Matters(mode: RouteMode, routes: seq<ServiceRoute>, tag: string) {
    !mode.DirectMode? && (tag == PROXY || exists i :: 0 <= i < |routes| && routes[i].enabled && routes[i].selector == tag)
  }

  function MattersIn(mode: RouteMode, routes: seq<ServiceRoute>): string -> bool {
    (tag: string) => Matters(mode, routes, tag)
  }

  ghost predicate RoutesAs(s: Settings, m: RuntimeModel, p: Blueprint, c: Connection) {
    forall target :: Means(s, m, c, target) <==> target == Decide(p, c)
  }

  /** `p` has the model's rules, and its selectors lead to the live choices. */
  ghost predicate Follows(s: Settings, m: RuntimeModel, p: Blueprint, live: map<string, string>) {
    && p.route == Plan(s, m).route
    && Resolve(p.outbounds, DIRECT, |p.outbounds|) == DIRECT
    && (forall tag :: tag in Map(TagOf, m.selectors) ==> tag in live && Resolve(p.outbounds, tag, |p.outbounds|) == live[tag])
    && PROXY in Map(TagOf, m.selectors) && (AvailableIds(m.nodes) == [] ==> live[PROXY] == DIRECT)
  }

  lemma SelectedBy(m: RuntimeModel, tag: string, target: string) returns (s: Selector)
    requires Normalized(m) && tag in Map(TagOf, m.selectors)
    ensures s in m.selectors && s.tag == tag && (Selects(m, tag, target) <==> target == s.selected)
  {
    s := MapOrigin(TagOf, m.selectors, tag);
    forall t | t in m.selectors && t.tag == tag ensures t == s {
      SelectorUnique(m, t, s);
    }
  }

  lemma RouteSelector(m: RuntimeModel, r: ServiceRoute)
    requires Normalized(m) && r in m.routes
    ensures r.selector in Map(TagOf, m.selectors) && r.domains != []
  {
    NormalizedRoute(m, r);
    var s :| s in m.selectors && s.tag == r.selector && IsService(s);
    MapIn(TagOf, m.selectors, s);
  }

  lemma EnabledMatters(mode: RouteMode, routes: seq<ServiceRoute>, r: ServiceRoute)
    requires !mode.DirectMode? && r in routes && r.enabled
    ensures Matters(mode, routes, r.selector)
  {
    var i :| 0 <= i < |routes| && routes[i] == r;
  }

  lemma FollowsProxy(s: Settings, m: RuntimeModel, p: Blueprint, live: map<string, string>, target: string)
    requires Normalized(m) && StableIds(m.nodes) && Follows(s, m, p, live) && !s.routeMode.DirectMode?
    requires AgreesOn(MattersIn(s.routeMode, m.routes), live, m.selectors)
    ensures ProxyMeans(m, target) <==> Resolve(p.outbounds, FinalTag(m.nodes), |p.outbounds|) == target
  {
    StableTags(m.nodes);
    if AvailableIds(m.nodes) != [] {
      var proxy := SelectedBy(m, PROXY, target);
      assert MattersIn(s.routeMode, m.routes)(proxy.tag);
    }
  }

  lemma FollowsRoute(s: Settings, m: RuntimeModel, p: Blueprint, live: map<string, string>, r: ServiceRoute, target: string)
    requires Normalized(m) && Follows(s, m, p, live) && !s.routeMode.DirectMode? && r in m.routes && r.enabled
    requires AgreesOn(MattersIn(s.routeMode, m.routes), live, m.selectors)
    ensures Selects(m, r.selector, target) <==> Resolve(p.outbounds, r.selector, |p.outbounds|) == target
  {
    RouteSelector(m, r);
    var selector := SelectedBy(m, r.selector, target);
    EnabledMatters(s.routeMode, m.routes, r);
    assert MattersIn(s.routeMode, m.routes)(selector.tag);
  }

  lemma UniqueClaims(m: RuntimeModel)
    requires Normalized(m)
    ensures ClaimsUnique(m)
  {
    forall a, b, d | a in m.routes && b in m.routes && a.enabled && b.enabled && d in a.domains && d in b.domains
      ensures a == b
    {
      ClaimedOnce(m, a, b, d);
    }
  }

  lemma AgreeingCarries(s: Settings, m: RuntimeModel, p: Blueprint, live: map<string, string>)
    requires Normalized(m) && StableIds(m.nodes) && Follows(s, m, p, live) && !s.routeMode.DirectMode?
    requires AgreesOn(MattersIn(s.routeMode, m.routes), live, m.selectors)
    ensures Carries(m, p.outbounds)
  {
    UniqueClaims(m);
    forall r, target | r in m.routes && r.enabled
      ensures Selects(m, r.selector, target) <==> Resolve(p.outbounds, r.selector, |p.outbounds|) == target
    {
      FollowsRoute(s, m, p, live, r, target);
    }
    forall target ensures ProxyMeans(m, target) <==> Resolve(p.outbounds, FinalTag(m.nodes), |p.outbounds|) == target {
      FollowsProxy(s, m, p, live, target);
    }
  }

  /** Direct mode looks at no selector. */
  lemma DirectDecides(s: Settings, m: RuntimeModel, p: Blueprint, c: Connection, target: Action)
    requires s.routeMode.DirectMode? && p.route == Plan(s, m).route && Resolve(p.outbounds, DIRECT, |p.outbounds|) == DIRECT
    ensures Means(s, m, c, target) <==> target == Decide(p, c)
  {
    if s.proxyMode.TunMode? && c.port == DNS_PORT {
      HijackFirst(s, m, c);
    } else {
      RulesReach(s, m, c);
    }
  }

  lemma AgreeingRoutes(s: Settings, m: RuntimeModel, p: Blueprint, live: map<string, string>, c: Connection)
    requires Normalized(m) && StableIds(m.nodes) && Follows(s, m, p, live)
    requires AgreesOn(MattersIn(s.routeMode, m.routes), live, m.selectors)
    ensures RoutesAs(s, m, p, c)
  {
    forall target ensures Means(s, m, c, target) <==> target == Decide(p, c) {
      if s.routeMode.DirectMode? {
        DirectDecides(s, m, p, c, target);
      } else {
        AgreeingCarries(s, m, p, live);
        DecisionMeaning(s, m, p, c, target);
      }
    }
  }

  /** A connection that reaches only one tag is sent to what that tag leads to. */
  lemma ReachDecides(s: Settings, m: RuntimeModel, p: Blueprint, c: Connection, tag: string)
    requires p.route == Plan(s, m).route && !(s.proxyMode.TunMode? && c.port == DNS_PORT)
    requires forall x :: Meaning.Reaches(s, m, c, x) ==> x == tag
    ensures Decide(p, c) == RouteTo(Resolve(p.outbounds, tag, |p.outbounds|))
  {
    RulesReach(s, m, c);
  }

  /** The host that is an enabled service's own domain belongs to that service. */
  lemma OwnDomain(m: RuntimeModel, r: ServiceRoute)
    requires Normalized(m) && r in m.routes && r.enabled && r.domains != []
    ensures Owns(m, r, r.domains[0])
  {
    var d := r.domains[0];
    assert Serves(m, r, d, d);
    forall other, x | Serves(m, other, x, d) ensures |x| <= |d| {
    }
    assert Longest(m, d, d);
  }

  lemma OwnerReached(s: Settings, m: RuntimeModel, c: Connection, r: ServiceRoute)
    requires ClaimsUnique(m) && !s.routeMode.DirectMode? && Owns(m, r, c.host)
    ensures forall x :: Meaning.Reaches(s, m, c, x) ==> x == r.selector
  {
    forall x | Meaning.Reaches(s, m, c, x) ensures x == r.selector {
      var o :| Owns(m, o, c.host) && x == o.selector;
      OwnerUnique(m, o, r, c.host);
    }
  }

  lemma OwnerMeans(s: Settings, m: RuntimeModel, c: Connection, r: ServiceRoute, id: string)
    requires !(s.proxyMode.TunMode? && c.port == DNS_PORT) && !s.routeMode.DirectMode?
    requires Owns(m, r, c.host) && Selects(m, r.selector, id)
    ensures Means(s, m, c, RouteTo(id))
  {
  }

  /** Where a connection is sent, in the plan and in the model, once both are known. */
  lemma SentTo(s: Settings, m: RuntimeModel, p: Blueprint, c: Connection, meant: string, sent: string)
    requires RoutesAs(s, m, p, c) && Means(s, m, c, RouteTo(meant)) && Decide(p, c) == RouteTo(sent)
    ensures meant == sent
  {
  }

  lemma ServiceReached(s: Settings, m: RuntimeModel, p: Blueprint, live: map<string, string>, c: Connection, r: ServiceRoute, t: Selector)
    requires ClaimsUnique(m) && Follows(s, m, p, live) && !s.routeMode.DirectMode? && Owns(m, r, c.host)
    requires !(s.proxyMode.TunMode? && c.port == DNS_PORT) && t in m.selectors && t.tag == r.selector
    ensures t.tag in live && Means(s, m, c, RouteTo(t.selected)) && Decide(p, c) == RouteTo(live[t.tag])
  {
    MapIn(TagOf, m.selectors, t);
    OwnerReached(s, m, c, r);
    ReachDecides(s, m, p, c, r.selector);
    assert Selects(m, r.selector, t.selected);
    OwnerMeans(s, m, c, r, t.selected);
  }

  lemma NoOwner(m: RuntimeModel, r: ServiceRoute)
    requires Normalized(m)
    ensures !Owns(m, r, "")
  {
    if d :| Serves(m, r, d, "") && Longest(m, d, "") {
      NormalizedRoute(m, r);
      assert IsHostName(d) by {
        var i :| 0 <= i < |CanonicalDomains(r)| && CanonicalDomains(r)[i] == d;
      }
      HostNameChars(d);
      assert false;
    }
  }

  lemma FinalReached(s: Settings, m: RuntimeModel, c: Connection)
    requires !s.routeMode.DirectMode? && (forall r :: !Owns(m, r, c.host)) && !c.inChina
    ensures forall x :: Meaning.Reaches(s, m, c, x) ==> x == FinalTag(m.nodes)
  {
  }

  lemma FinalMeans(s: Settings, m: RuntimeModel, c: Connection, id: string)
    requires !(s.proxyMode.TunMode? && c.port == DNS_PORT) && !s.routeMode.DirectMode?
    requires (forall r :: !Owns(m, r, c.host)) && !c.inChina && ProxyMeans(m, id)
    ensures Means(s, m, c, RouteTo(id))
  {
  }

  lemma ProxyReached(s: Settings, m: RuntimeModel, p: Blueprint, live: map<string, string>, c: Connection, t: Selector)
    requires Follows(s, m, p, live) && !s.routeMode.DirectMode? && NodeTags(m.nodes) == AvailableIds(m.nodes) != []
    requires !(s.proxyMode.TunMode? && c.port == DNS_PORT) && !c.inChina && forall r :: !Owns(m, r, c.host)
    requires t in m.selectors && t.tag == PROXY
    ensures Means(s, m, c, RouteTo(t.selected)) && Decide(p, c) == RouteTo(live[PROXY])
  {
    FinalReached(s, m, c);
    ReachDecides(s, m, p, c, PROXY);
    assert Selects(m, PROXY, t.selected);
    FinalMeans(s, m, c, t.selected);
  }

  ghost predicate AllRouted(s: Settings, m: RuntimeModel, p: Blueprint) {
    forall c :: RoutesAs(s, m, p, c)
  }

  lemma ProxyAgrees(s: Settings, m: RuntimeModel, p: Blueprint, live: map<string, string>, t: Selector)
    requires Follows(s, m, p, live) && !s.routeMode.DirectMode? && NodeTags(m.nodes) == AvailableIds(m.nodes) != []
    requires (forall r :: !Owns(m, r, "")) && t in m.selectors && t.tag == PROXY && AllRouted(s, m, p)
    ensures live[PROXY] == t.selected
  {
    var c := Connection("", 0, false);
    ProxyReached(s, m, p, live, c, t);
    SentTo(s, m, p, c, t.selected, live[PROXY]);
  }

  lemma ServiceAgrees(s: Settings, m: RuntimeModel, p: Blueprint, live: map<string, string>, host: string, r: ServiceRoute, t: Selector)
    requires ClaimsUnique(m) && Follows(s, m, p, live) && !s.routeMode.DirectMode? && Owns(m, r, host)
    requires t in m.selectors && t.tag == r.selector && AllRouted(s, m, p)
    ensures t.tag in live && live[t.tag] == t.selected
  {
    var c := Connection(host, 0, false);
    ServiceReached(s, m, p, live, c, r, t);
    SentTo(s, m, p, c, t.selected, live[t.tag]);
  }

  /** What the two lemmas above need of a normalised model. */
  ghost predicate Probes(m: RuntimeModel, t: Selector) {
    && ClaimsUnique(m) && NodeTags(m.nodes) == AvailableIds(m.nodes) && (forall r :: !Owns(m, r, ""))
    && (AvailableIds(m.nodes) == [] ==> t.selected == DIRECT)
    && (forall r :: r in m.routes && r.enabled ==> r.domains != [] && Owns(m, r, r.domains[0]))
  }

  lemma NormalizedProbes(m: RuntimeModel, t: Selector)
    requires Normalized(m) && StableIds(m.nodes) && t in m.selectors
    ensures Probes(m, t)
  {
    StableTags(m.nodes);
    UniqueClaims(m);
    forall r ensures !Owns(m, r, "") {
      NoOwner(m, r);
    }
    if AvailableIds(m.nodes) == [] {
      NoNodesDirect(m, t);
    }
    forall r | r in m.routes && r.enabled ensures r.domains != [] && Owns(m, r, r.domains[0]) {
      RouteSelector(m, r);
      OwnDomain(m, r);
    }
  }

  lemma MatteringRoute(mode: RouteMode, routes: seq<ServiceRoute>, tag: string) returns (r: ServiceRoute)
    requires Matters(mode, routes, tag) && tag != PROXY
    ensures r in routes && r.enabled && r.selector == tag
  {
    var i :| 0 <= i < |routes| && routes[i].enabled && routes[i].selector == tag;
    r := routes[i];
  }

  lemma RoutingAgreesProxy(s: Settings, m: RuntimeModel, p: Blueprint, live: map<string, string>, t: Selector)
    requires Probes(m, t) && Follows(s, m, p, live) && t in m.selectors && t.tag == PROXY
    requires !s.routeMode.DirectMode? && AllRouted(s, m, p)
    ensures live[PROXY] == t.selected
  {
    if AvailableIds(m.nodes) != [] {
      ProxyAgrees(s, m, p, live, t);
    }
  }

  lemma ProbeRoute(m: RuntimeModel, t: Selector, r: ServiceRoute)
    requires Probes(m, t) && r in m.routes && r.enabled
    ensures ClaimsUnique(m) && r.domains != [] && Owns(m, r, r.domains[0])
  {
  }

  lemma RoutingAgrees(s: Settings, m: RuntimeModel, p: Blueprint, live: map<string, string>, t: Selector)
    requires Probes(m, t) && Follows(s, m, p, live) && t in m.selectors
    requires Matters(s.routeMode, m.routes, t.tag) && AllRouted(s, m, p)
    ensures t.tag in live && live[t.tag] == t.selected
  {
    if t.tag == PROXY {
      RoutingAgreesProxy(s, m, p, live, t);
    } else {
      var r := MatteringRoute(s.routeMode, m.routes, t.tag);
      ProbeRoute(m, t, r);
      ServiceAgrees(s, m, p, live, r.domains[0], r, t);
    }
  }

  lemma RoutedAgrees(s: Settings, m: RuntimeModel, p: Blueprint, live: map<string, string>)
    requires Normalized(m) && StableIds(m.nodes) && Follows(s, m, p, live) && AllRouted(s, m, p)
    ensures AgreesOn(MattersIn(s.routeMode, m.routes), live, m.selectors)
  {
    forall t | t in m.selectors && MattersIn(s.routeMode, m.routes)(t.tag) ensures t.tag in live && live[t.tag] == t.selected {
      NormalizedProbes(m, t);
      RoutingAgrees(s, m, p, live, t);
    }
  }

  /** Every connection goes where the model says exactly when the live choices that matter are the
      model's selections. */
  lemma RoutedIffAgrees(s: Settings, m: RuntimeModel, p: Blueprint, live: map<string, string>)
    requires Normalized(m) && StableIds(m.nodes) && Follows(s, m, p, live)
    ensures AllRouted(s, m, p) <==> AgreesOn(MattersIn(s.routeMode, m.routes), live, m.selectors)
  {
    if AgreesOn(MattersIn(s.routeMode, m.routes), live, m.selectors) {
      forall c ensures RoutesAs(s, m, p, c) {
        AgreeingRoutes(s, m, p, live, c);
      }
    }
    if AllRouted(s, m, p) {
      RoutedAgrees(s, m, p, live);
    }
  }

  /******* States *******/

  /** The daemon sends `c` exactly where the committed model says, for the pool it was built for. */
  ghost predicate RoutesAsCommitted(env: Platform, t: Trace, c: Connection) {
    && t.basis.Some? && BuildSettings(env, t.state.runtimeConfig.settings).Some? && Effective(t.state.daemon).Some?
    && RoutesAs(BuildSettings(env, t.state.runtimeConfig.settings).value,
                RuntimeModel(t.basis.value.nodes, t.state.runtimeConfig.selectors, t.state.runtimeConfig.routes),
                Effective(t.state.daemon).value, c)
  }

  /** Until data loss is reported, a started daemon sends every connection where the committed model says. */
  ghost predicate Routed(env: Platform, t: Trace) {
    !t.lost && t.state.daemon.Running() ==> forall c :: RoutesAsCommitted(env, t, c)
  }

  function Mattering(cfg: RuntimeConfig): string -> bool { MattersIn(cfg.settings.routeMode, cfg.routes) }

  /** The live choices that matter are the committed selections. */
  ghost predicate RoutedSync(t: Trace) {
    !t.lost && t.state.daemon.Running() ==>
      AgreesOn(Mattering(t.state.runtimeConfig), t.state.daemon.live, t.state.runtimeConfig.selectors)
  }

  lemma CurrentModel(env: Platform, cfg: RuntimeConfig, nodes: seq<Node>)
    requires HexPool(nodes) && Builds(env, cfg, nodes) && Settled(cfg, nodes)
    ensures var m := RuntimeModel(nodes, cfg.selectors, cfg.routes);
            Normalized(m) && StableIds(nodes) && NodeTags(nodes) == AvailableIds(nodes) && PROXY in Tags(cfg)
  {
    LoadedModel(env, cfg, nodes);
    SettledSelections(cfg, nodes);
  }

  lemma SameRoute(s: Settings, a: RuntimeModel, b: RuntimeModel)
    requires a.routes == b.routes && FinalTag(a.nodes) == FinalTag(b.nodes)
    ensures Plan(s, a).route == Plan(s, b).route
  {
  }

  lemma EffectiveIs(d: Daemon, content: Blueprint)
    requires d.loaded == Some(content)
    ensures Effective(d) == Some(content.(outbounds := Chosen(d, content.outbounds)))
  {
  }

  lemma SameFinal(a: seq<Node>, b: seq<Node>)
    requires NodeTags(a) == AvailableIds(a) && NodeTags(b) == AvailableIds(b)
    requires AvailableIds(a) == [] <==> AvailableIds(b) == []
    ensures FinalTag(a) == FinalTag(b)
  {
  }

  lemma LiveRoute(env: Platform, d: Daemon, current: RuntimeConfig, nodes: seq<Node>, cfg: RuntimeConfig, loaded: seq<Node>)
    requires HexPool(nodes) && Builds(env, current, nodes) && Settled(current, nodes)
    requires LoadedFrom(env, d, current, nodes, cfg, loaded)
    ensures BuildSettings(env, current.settings).Some?
    ensures d.loaded.value.route ==
            Plan(BuildSettings(env, current.settings).value, RuntimeModel(nodes, current.selectors, current.routes)).route
  {
    CurrentModel(env, current, nodes);
    LoadedModel(env, cfg, loaded);
    SameFinal(nodes, loaded);
    SameRoute(BuildSettings(env, current.settings).value, RuntimeModel(nodes, current.selectors, current.routes),
              RuntimeModel(loaded, cfg.selectors, cfg.routes));
  }

  lemma FollowsFrom(s: Settings, m: RuntimeModel, p: Blueprint, live: map<string, string>)
    requires p.route == Plan(s, m).route && Resolve(p.outbounds, DIRECT, |p.outbounds|) == DIRECT
    requires forall tag :: tag in Map(TagOf, m.selectors) ==> tag in live && Resolve(p.outbounds, tag, |p.outbounds|) == live[tag]
    requires PROXY in Map(TagOf, m.selectors) && (AvailableIds(m.nodes) == [] ==> live[PROXY] == DIRECT)
    ensures Follows(s, m, p, live)
  {
  }

  lemma StateFollows(env: Platform, d: Daemon, current: RuntimeConfig, nodes: seq<Node>, cfg: RuntimeConfig, loaded: seq<Node>)
    requires HexPool(nodes) && Builds(env, current, nodes) && Settled(current, nodes)
    requires LoadedFrom(env, d, current, nodes, cfg, loaded)
    ensures BuildSettings(env, current.settings).Some? && Effective(d).Some?
    ensures Follows(BuildSettings(env, current.settings).value, RuntimeModel(nodes, current.selectors, current.routes),
                    Effective(d).value, d.live)
  {
    CurrentModel(env, current, nodes);
    EffectiveIs(d, d.loaded.value);
    LiveRoute(env, d, current, nodes, cfg, loaded);
    LiveOneHop(env, d, current, nodes, cfg, loaded);
    var out := Chosen(d, d.loaded.value.outbounds);
    forall tag | tag in Tags(current) ensures tag in d.live && Resolve(out, tag, |out|) == d.live[tag] {
      ResolveLive(env, d, current, nodes, cfg, loaded, tag);
    }
    ResolveLive(env, d, current, nodes, cfg, loaded, PROXY);
    FollowsFrom(BuildSettings(env, current.settings).value, RuntimeModel(nodes, current.selectors, current.routes),
                Effective(d).value, d.live);
  }

  lemma RoutedState(env: Platform, d: Daemon, current: RuntimeConfig, nodes: seq<Node>, cfg: RuntimeConfig, loaded: seq<Node>)
    requires HexPool(nodes) && Builds(env, current, nodes) && Settled(current, nodes)
    requires LoadedFrom(env, d, current, nodes, cfg, loaded)
    ensures BuildSettings(env, current.settings).Some? && Effective(d).Some?
    ensures AllRouted(BuildSettings(env, current.settings).value, RuntimeModel(nodes, current.selectors, current.routes), Effective(d).value)
            <==> AgreesOn(Mattering(current), d.live, current.selectors)
  {
    StateFollows(env, d, current, nodes, cfg, loaded);
    CurrentModel(env, current, nodes);
    RoutedIffAgrees(BuildSettings(env, current.settings).value, RuntimeModel(nodes, current.selectors, current.routes),
                    Effective(d).value, d.live);
  }

  /** In every reachable state, connections go where the committed model says exactly when the live
      choices that matter are the committed ones. */
  lemma RoutedIffSync(env: Platform, t: Trace)
    requires Invariant(env, t) && Rooted(env, t)
    ensures Routed(env, t) <==> RoutedSync(t)
  {
    if !t.lost && t.state.daemon.Running() {
      var current, nodes := t.state.runtimeConfig, t.basis.value.nodes;
      var cfg, loaded :| LoadedFrom(env, t.state.daemon, current, nodes, cfg, loaded);
      RoutedState(env, t.state.daemon, current, nodes, cfg, loaded);
      RoutedCommitted(env, t);
    }
  }

  lemma RoutedCommitted(env: Platform, t: Trace)
    requires t.basis.Some? && BuildSettings(env, t.state.runtimeConfig.settings).Some? && Effective(t.state.daemon).Some?
    ensures (forall c :: RoutesAsCommitted(env, t, c)) <==>
            AllRouted(BuildSettings(env, t.state.runtimeConfig.settings).value,
                      RuntimeModel(t.basis.value.nodes, t.state.runtimeConfig.selectors, t.state.runtimeConfig.routes),
                      Effective(t.state.daemon).value)
  {
    var s := BuildSettings(env, t.state.runtimeConfig.settings).value;
    var m := RuntimeModel(t.basis.value.nodes, t.state.runtimeConfig.selectors, t.state.runtimeConfig.routes);
    forall c ensures RoutesAsCommitted(env, t, c) <==> RoutesAs(s, m, Effective(t.state.daemon).value, c) {
    }
  }

  /******* Requests that load *******/

  lemma LoadedBuilt(env: Platform, d: Daemon, cfg: RuntimeConfig, nodes: seq<Node>)
    requires HexPool(nodes) && Builds(env, cfg, nodes) && Settled(cfg, nodes) && d == Load(Content(env, cfg, nodes))
    ensures LoadedFrom(env, d, cfg, nodes, cfg, nodes) && Agrees(d.live, cfg.selectors)
  {
    LoadedInSync(env, cfg, nodes);
    forall tag | tag in Tags(cfg) ensures tag in d.live {
      var s := MapOrigin(TagOf, cfg.selectors, tag);
    }
  }

  /** The daemon runs `config` afresh. */
  ghost predicate Fresh(u: Trace) {
    u.state.config.Some? && u.state.daemon == Load(u.state.config.value)
  }

  ghost predicate Unchanged(t: Trace, u: Trace) {
    && t.lost == u.lost && u.state.daemon == t.state.daemon
    && u.state.runtimeConfig == t.state.runtimeConfig && u.basis == t.basis
  }

  /** The result of a request that loads: the daemon runs `config` afresh, or it does not run, or all is
      as before. */
  ghost predicate Reloads(t: Trace, u: Trace) {
    !u.lost && u.state.daemon.Running() ==> Fresh(u) || Unchanged(t, u)
  }

  lemma ReloadRooted(env: Platform, t: Trace, u: Trace)
    requires Invariant(env, u) && Rooted(env, t) && Reloads(t, u)
    ensures Rooted(env, u) && (RoutedSync(t) ==> RoutedSync(u))
  {
    if !u.lost && u.state.daemon.Running() {
      if Fresh(u) {
        FreshRooted(env, u);
      } else {
        UnchangedRooted(env, t, u);
      }
    }
  }

  lemma UnchangedRooted(env: Platform, t: Trace, u: Trace)
    requires Rooted(env, t) && Unchanged(t, u)
    ensures Rooted(env, u) && (RoutedSync(t) ==> RoutedSync(u))
  {
  }

  lemma FreshRooted(env: Platform, u: Trace)
    requires Invariant(env, u) && Fresh(u)
    ensures Rooted(env, u) && RoutedSync(u) && InSync(u) && Faithful(u)
  {
    if !u.lost {
      LoadedBuilt(env, u.state.daemon, u.state.runtimeConfig, u.basis.value.nodes);
      ContentEffective(env, u.state.runtimeConfig, u.basis.value.nodes);
    }
  }

  lemma LoadReloads(env: Platform, t: Trace, e: Event, r: (Runtime, Outcome), next: RuntimeConfig, pool: Pool)
    requires !Selecting(e.request) && LoadsOrKeeps(env, t.state, next, pool, r)
    requires r.1.Done? && r.0.daemon.Running() ==> CommittedTo(env, r.0, next, pool)
    requires !r.1.Done? ==> Aborted(t.state, r.0, r.1)
    ensures Reloads(t, Extend(t, e, r)) && (r.1.Done? && r.0.daemon.Running() ==> Fresh(Extend(t, e, r)))
  {
  }

  lemma RequestReloads(env: Platform, t: Trace, e: Event, r: (Runtime, Outcome))
    requires Invariant(env, t) && !Selecting(e.request) && !e.request.Stop? && !e.request.Crash?
    requires r == Step(env, t.state, e.request, e.world)
    ensures Reloads(t, Extend(t, e, r)) && (r.1.Done? && r.0.daemon.Running() ==> Fresh(Extend(t, e, r)))
  {
    StepLoads(env, t.state, e);
    StepCommits(env, t.state, e);
    LoadReloads(env, t, e, r, Target(env, t.state, e), BuildPool(e));
  }

  lemma StopReloads(t: Trace, e: Event, r: (Runtime, Outcome))
    requires Aborted(t.state, r.0, r.1) && (r.1.Done? ==> !r.0.daemon.Running())
    requires r.0.daemon.Running() ==> r.0.daemon == t.state.daemon
    ensures Reloads(t, Extend(t, e, r))
  {
  }

  lemma StepReloads(env: Platform, t: Trace, e: Event)
    requires Invariant(env, t) && !Selecting(e.request)
    ensures Reloads(t, Next(env, t, e))
  {
    if e.request.Stop? {
      StopAborts(t.state, e.world);
      StopKeeps(t.state, e.world);
      StopStep(env, t.state, e.world);
      StopReloads(t, e, DoStop(t.state, e.world));
    } else if e.request.Crash? {
      CrashAborts(t.state);
      CrashStep(env, t.state, e.world);
      StopReloads(t, e, DoCrash(t.state));
    } else {
      RequestReloads(env, t, e, Step(env, t.state, e.request, e.world));
    }
  }

  /** A request that loads, and is done. */
  ghost predicate Activation(env: Platform, t: Trace, e: Event) {
    && !Selecting(e.request) && !e.request.Stop? && !e.request.Crash?
    && Step(env, t.state, e.request, e.world).1.Done?
  }

  lemma StoppedGood(env: Platform, u: Trace)
    requires !u.state.daemon.Running()
    ensures Rooted(env, u) && RoutedSync(u) && InSync(u) && Faithful(u)
  {
  }

  lemma ActivationFresh(env: Platform, t: Trace, e: Event)
    requires Invariant(env, t) && Activation(env, t, e)
    ensures Next(env, t, e).state.daemon.Running() ==> Fresh(Next(env, t, e))
  {
    RequestReloads(env, t, e, Step(env, t.state, e.request, e.world));
  }

  /** A request that loads and is done repairs everything, whatever the choices were before it: the
      agreement, the configuration in force, and where connections go. */
  lemma ActivationRestores(env: Platform, t: Trace, e: Event)
    requires Invariant(env, t) && Possible(e) && Activation(env, t, e)
    ensures var u := Next(env, t, e); Rooted(env, u) && InSync(u) && Faithful(u) && RoutedSync(u) && Routed(env, u)
  {
    StepInvariant(env, t, e);
    ActivationFresh(env, t, e);
    RestoredState(env, Next(env, t, e));
  }

  lemma RestoredState(env: Platform, u: Trace)
    requires Invariant(env, u) && (u.state.daemon.Running() ==> Fresh(u))
    ensures Rooted(env, u) && InSync(u) && Faithful(u) && RoutedSync(u) && Routed(env, u)
  {
    if u.state.daemon.Running() {
      FreshRooted(env, u);
    } else {
      StoppedGood(env, u);
    }
    RoutedIffSync(env, u);
  }

  /******* Live selections *******/

  lemma OfferedNode(outbounds: seq<Outbound>, tags: seq<string>, group: string, id: string)
    requires OneHop(outbounds, tags) && Offers(outbounds, group, id)
    ensures id in tags || id == DIRECT
  {
    var i :| 0 <= i < |outbounds| && outbounds[i].tag == group && outbounds[i].options.SelectorOptions?
             && id in outbounds[i].options.members;
    assert RefersToNodes(tags, outbounds[i]);
  }

  lemma AcceptsNode(env: Platform, d: Daemon, current: RuntimeConfig, nodes: seq<Node>, cfg: RuntimeConfig, loaded: seq<Node>,
                    tag: string, id: string)
    requires LoadedFrom(env, d, current, nodes, cfg, loaded) && d.Accepts(tag, id)
    ensures id in AvailableIds(loaded) || id == DIRECT
  {
    LoadedModel(env, cfg, loaded);
    OfferedNode(d.loaded.value.outbounds, NodeTags(loaded), tag, id);
  }

  lemma MovedLoaded(env: Platform, d: Daemon, current: RuntimeConfig, nodes: seq<Node>, cfg: RuntimeConfig, loaded: seq<Node>,
                    tag: string, id: string, later: RuntimeConfig, pool: seq<Node>)
    requires LoadedFrom(env, d, current, nodes, cfg, loaded) && d.Accepts(tag, id) && SameShape(current, later)
    requires AvailableIds(nodes) == [] <==> AvailableIds(pool) == []
    ensures LoadedFrom(env, d.(live := d.live[tag := id]), later, pool, cfg, loaded)
  {
    ChoicesStayOffered(d, tag, id);
  }

  lemma SelectionShape(cfg: RuntimeConfig, next: RuntimeConfig, nodes: seq<Node>, pool: seq<Node>, tag: string, id: string, now: int)
    requires Settled(cfg, nodes) && tag in Tags(cfg)
    requires next == cfg.(selectors := SetSelected(cfg.selectors, tag, id, now), poolRevision := next.poolRevision)
    ensures SameShape(cfg, Committed(next, pool)) && NoDup(Tags(next)) && HasProxy(next.selectors)
    ensures SelectsNode(cfg.selectors, next.selectors, tag, id)
  {
    SettledSorted(cfg, nodes);
    SettledSelections(cfg, nodes);
    SetSelectedSelects(cfg.selectors, tag, id, now);
    ReconciledTags(next.selectors, pool);
    CommittedTags(next, pool);
  }

  /** How a selection that the daemon was asked for ends. */
  ghost predicate LiveEnds(s: Runtime, moves: bool, tag: string, id: string, w: World, r: (Runtime, Outcome)) {
    var previous := SelectionOf(s.runtimeConfig.selectors, tag);
    if !moves then Refused(s, r)
    else if w.saves then
      r.1.Done? && r.0.daemon == s.daemon.(live := s.daemon.live[tag := id])
    else
      && r.1.Failed? && r.1 != Failed(DataLoss)
      && r.0 == s.(daemon := s.daemon.(live := s.daemon.live[
           tag := if w.reverts && previous != "" && s.daemon.Accepts(tag, previous) then previous else id]))
  }

  lemma CommitEnds(s: Runtime, next: RuntimeConfig, content: Blueprint, tag: string, id: string, w: World, r: (Runtime, Outcome))
    requires s.daemon.Running()
    requires var c := CommitLiveSelector(s, next, content, tag, id, SelectionOf(s.runtimeConfig.selectors, tag), true, w);
             r == c || r == AsInternal(c)
    ensures LiveEnds(s, w.selects && s.daemon.Accepts(tag, id), tag, id, w, r)
    ensures r.1.Done? ==> r.0.runtimeConfig == next
  {
    var previous := SelectionOf(s.runtimeConfig.selectors, tag);
    assert s.daemon.live[tag := id][tag := previous] == s.daemon.live[tag := previous];
  }

  lemma LiveEndsWhen(env: Platform, s: Runtime, reaches: bool, tag: string, id: string, w: World, r: (Runtime, Outcome))
    requires s.daemon.Running() && LiveWhen(reaches, env, s, tag, id, w, r)
    ensures LiveEnds(s, reaches && w.selects && s.daemon.Accepts(tag, id), tag, id, w, r)
  {
    if reaches {
      var next :| LiveResult(env, s, next, tag, id, w, r);
      CommitEnds(s, Committed(next, w.pool.nodes), Content(env, next, w.pool.nodes), tag, id, w, r);
    }
  }

  /** What a live selection does in any running state, in agreement or not. */
  lemma SelectionEnds(env: Platform, t: Trace, e: Event)
    requires Invariant(env, t) && !t.lost && t.state.daemon.Running() && Selecting(e.request)
    ensures LiveEnds(t.state, Moves(env, t.state, e), SelectedTag(t.state, e.request), SelectedId(e.request), e.world,
                     Step(env, t.state, e.request, e.world))
  {
    SettledSelections(t.state.runtimeConfig, t.basis.value.nodes);
    SelectionLive(env, t.state, e);
    LiveEndsWhen(env, t.state, Agreement.Reaches(env, t.state, e), SelectedTag(t.state, e.request), SelectedId(e.request), e.world,
                 Step(env, t.state, e.request, e.world));
  }

  /** A saved selection leaves the daemon running what it had loaded. */
  lemma SavedLoaded(env: Platform, d: Daemon, current: RuntimeConfig, nodes: seq<Node>, cfg: RuntimeConfig, loaded: seq<Node>,
                    next: RuntimeConfig, tag: string, id: string, now: int, pool: seq<Node>)
    requires LoadedFrom(env, d, current, nodes, cfg, loaded) && Settled(current, nodes) && HexPool(pool)
    requires id in AvailableIds(pool) && tag in Tags(current) && d.Accepts(tag, id)
    requires next == current.(selectors := SetSelected(current.selectors, tag, id, now), poolRevision := next.poolRevision)
    ensures LoadedFrom(env, d.(live := d.live[tag := id]), Committed(next, pool), pool, cfg, loaded)
  {
    SelectionShape(current, next, nodes, pool, tag, id, now);
    NotDirect(pool, id);
    AcceptsNode(env, d, current, nodes, cfg, loaded, tag, id);
    MovedLoaded(env, d, current, nodes, cfg, loaded, tag, id, Committed(next, pool), pool);
  }

  lemma SavedSync(live: map<string, string>, current: RuntimeConfig, nodes: seq<Node>, next: RuntimeConfig, tag: string, id: string,
                  now: int, pool: seq<Node>)
    requires Settled(current, nodes) && id in AvailableIds(pool) && tag in Tags(current)
    requires next == current.(selectors := SetSelected(current.selectors, tag, id, now), poolRevision := next.poolRevision)
    requires AgreesOn(Mattering(current), live, current.selectors)
    ensures AgreesOn(Mattering(Committed(next, pool)), live[tag := id], Committed(next, pool).selectors)
            <==> OthersSelectableOn(Mattering(current), current.selectors, tag, pool)
  {
    SelectionShape(current, next, nodes, pool, tag, id, now);
    LiveSelectionOn(Mattering(current), live, current, next, tag, id, pool);
    SameMattering(current, Committed(next, pool));
  }

  lemma SameMattering(a: RuntimeConfig, b: RuntimeConfig)
    requires SameShape(a, b)
    ensures Mattering(a) == Mattering(b)
  {
  }

  lemma SavedRooted(env: Platform, t: Trace, u: Trace, next: RuntimeConfig, tag: string, id: string, now: int, pool: Pool)
    requires Invariant(env, t) && Rooted(env, t) && !t.lost && t.state.daemon.Running() && HexPool(pool.nodes)
    requires id in AvailableIds(pool.nodes) && tag in Tags(t.state.runtimeConfig) && t.state.daemon.Accepts(tag, id)
    requires next == t.state.runtimeConfig.(selectors := SetSelected(t.state.runtimeConfig.selectors, tag, id, now), poolRevision := next.poolRevision)
    requires u.state.daemon == t.state.daemon.(live := t.state.daemon.live[tag := id])
    requires u.state.runtimeConfig == Committed(next, pool.nodes) && u.basis == Some(pool)
    ensures Rooted(env, u)
  {
    var cfg, loaded :| LoadedFrom(env, t.state.daemon, t.state.runtimeConfig, t.basis.value.nodes, cfg, loaded);
    SavedLoaded(env, t.state.daemon, t.state.runtimeConfig, t.basis.value.nodes, cfg, loaded, next, tag, id, now, pool.nodes);
  }

  lemma NotDirect(nodes: seq<Node>, id: string)
    requires HexPool(nodes) && id in AvailableIds(nodes)
    ensures id != DIRECT && AvailableIds(nodes) != []
  {
    HexPoolOk(nodes);
    AvailableIdsMember(nodes, id);
  }

  /** A selection that is done: the state it leaves, and when it keeps the choices that matter. */
  lemma SavedStep(env: Platform, t: Trace, e: Event, reaches: bool, tag: string, id: string, r: (Runtime, Outcome))
    requires Invariant(env, t) && Rooted(env, t) && !t.lost && t.state.daemon.Running() && Possible(e) && Selecting(e.request)
    requires LiveWhen(reaches, env, t.state, tag, id, e.world, r) && r.1.Done?
    ensures Rooted(env, Extend(t, e, r))
    ensures RoutedSync(t) ==>
              (RoutedSync(Extend(t, e, r)) <==>
               OthersSelectableOn(Mattering(t.state.runtimeConfig), t.state.runtimeConfig.selectors, tag, e.world.pool.nodes))
  {
    var current, pool := t.state.runtimeConfig, e.world.pool;
    var next :| LiveResult(env, t.state, next, tag, id, e.world, r);
    DoneLive(t.state, Committed(next, pool.nodes), Content(env, next, pool.nodes), tag, id, SelectionOf(current.selectors, tag), e.world, r);
    ReadyIsAvailable(pool.nodes, id);
    SavedTrace(t, e, r);
    SavedRooted(env, t, Extend(t, e, r), next, tag, id, e.world.now, pool);
    if RoutedSync(t) {
      SavedSync(t.state.daemon.live, current, t.basis.value.nodes, next, tag, id, e.world.now, pool.nodes);
    }
  }

  lemma SavedTrace(t: Trace, e: Event, r: (Runtime, Outcome))
    requires !t.lost && Selecting(e.request) && r.1.Done? && r.0.daemon.Running()
    ensures var u := Extend(t, e, r); u.state == r.0 && u.basis == Some(e.world.pool) && !u.lost
  {
  }

  lemma ChoiceOn(on: string -> bool, live: map<string, string>, selectors: seq<Selector>, tag: string, id: string)
    requires AgreesOn(on, live, selectors) && tag in Map(TagOf, selectors) && NoDup(Map(TagOf, selectors))
    ensures AgreesOn(on, live[tag := id], selectors) <==> (on(tag) ==> id == SelectionOf(selectors, tag))
  {
    SelectionFound(selectors, tag);
    DistinctKeys(TagOf, selectors);
    var s :| s in selectors && s.tag == tag && s.selected == SelectionOf(selectors, tag);
    forall t | t in selectors && t.tag == tag ensures t == s {
      assert TagOf(t) == TagOf(s);
    }
  }

  lemma SyncedPrevious(d: Daemon, on: string -> bool, selectors: seq<Selector>, tag: string)
    requires AgreesOn(on, d.live, selectors) && ChoicesOffered(d) && tag in Map(TagOf, selectors) && on(tag)
    ensures d.Accepts(tag, SelectionOf(selectors, tag))
  {
    SelectionFound(selectors, tag);
  }

  /** A selection that is not saved: the daemon keeps what it had loaded, and the choices that matter are
      kept exactly if the previous choice was restored, was the same, or does not matter. */
  lemma UnsavedState(env: Platform, d: Daemon, current: RuntimeConfig, nodes: seq<Node>, cfg: RuntimeConfig, loaded: seq<Node>,
                     tag: string, id: string, reverts: bool)
    requires LoadedFrom(env, d, current, nodes, cfg, loaded) && Settled(current, nodes) && tag in Tags(current) && d.Accepts(tag, id)
    ensures var previous := SelectionOf(current.selectors, tag);
            var kept := d.(live := d.live[tag := if reverts && previous != "" && d.Accepts(tag, previous) then previous else id]);
            && LoadedFrom(env, kept, current, nodes, cfg, loaded)
            && (AgreesOn(Mattering(current), d.live, current.selectors) ==>
                  (AgreesOn(Mattering(current), kept.live, current.selectors) <==>
                   reverts || id == previous || !Mattering(current)(tag)))
  {
    var previous := SelectionOf(current.selectors, tag);
    var chosen := if reverts && previous != "" && d.Accepts(tag, previous) then previous else id;
    SettledSelections(current, nodes);
    SelectionFound(current.selectors, tag);
    MovedLoaded(env, d, current, nodes, cfg, loaded, tag, chosen, current, nodes);
    if AgreesOn(Mattering(current), d.live, current.selectors) {
      ChoiceOn(Mattering(current), d.live, current.selectors, tag, chosen);
      if Mattering(current)(tag) {
        SyncedPrevious(d, Mattering(current), current.selectors, tag);
      }
    }
  }

  lemma UnsavedStep(env: Platform, t: Trace, e: Event, moves: bool, tag: string, id: string, r: (Runtime, Outcome))
    requires Invariant(env, t) && Rooted(env, t) && !t.lost && t.state.daemon.Running()
    requires LiveEnds(t.state, moves, tag, id, e.world, r) && !r.1.Done?
    requires moves ==> tag in Tags(t.state.runtimeConfig) && t.state.daemon.Accepts(tag, id)
    ensures Rooted(env, Extend(t, e, r))
    ensures RoutedSync(t) ==>
              (RoutedSync(Extend(t, e, r)) <==>
               (moves ==> e.world.reverts || id == SelectionOf(t.state.runtimeConfig.selectors, tag)
                          || !Mattering(t.state.runtimeConfig)(tag)))
  {
    if moves {
      var cfg, loaded :| LoadedFrom(env, t.state.daemon, t.state.runtimeConfig, t.basis.value.nodes, cfg, loaded);
      UnsavedState(env, t.state.daemon, t.state.runtimeConfig, t.basis.value.nodes, cfg, loaded, tag, id, e.world.reverts);
    }
  }

  /******* Runs *******/

  /** What the pool and the answers must be for a live selection not to change where connections should
      go: a choice that the daemon takes is either saved, with every other selection that matters still
      possible in the pool, or taken back, or it is the committed one or one that does not matter. */
  ghost predicate KeepsRouting(env: Platform, t: Trace, e: Event) {
    Selecting(e.request) && !t.lost && t.state.daemon.Running() && Moves(env, t.state, e) ==>
      var cfg, tag := t.state.runtimeConfig, SelectedTag(t.state, e.request);
      if e.world.saves then OthersSelectableOn(Mattering(cfg), cfg.selectors, tag, e.world.pool.nodes)
      else e.world.reverts || SelectedId(e.request) == SelectionOf(cfg.selectors, tag) || !Mattering(cfg)(tag)
  }

  /** Keeping the agreement keeps the routing. */
  lemma ChoicesKeepRouting(env: Platform, t: Trace, e: Event)
    requires KeepsChoices(env, t, e)
    ensures KeepsRouting(env, t, e)
  {
  }

  lemma MovingTag(env: Platform, t: Trace, e: Event)
    requires Invariant(env, t) && !t.lost && t.state.daemon.Running() && Selecting(e.request) && Moves(env, t.state, e)
    ensures SelectedTag(t.state, e.request) in Tags(t.state.runtimeConfig)
  {
    SettledSelections(t.state.runtimeConfig, t.basis.value.nodes);
    SelectionLive(env, t.state, e);
  }

  lemma SelectingRouting(env: Platform, t: Trace, e: Event)
    requires Invariant(env, t) && Rooted(env, t) && Possible(e) && Selecting(e.request) && !t.lost && t.state.daemon.Running()
    ensures Rooted(env, Next(env, t, e))
    ensures RoutedSync(t) ==> (RoutedSync(Next(env, t, e)) <==> KeepsRouting(env, t, e))
  {
    var tag, id := SelectedTag(t.state, e.request), SelectedId(e.request);
    var r := Step(env, t.state, e.request, e.world);
    SelectionEnds(env, t, e);
    if Moves(env, t.state, e) {
      MovingTag(env, t, e);
    }
    if r.1.Done? {
      SettledSelections(t.state.runtimeConfig, t.basis.value.nodes);
      SelectionLive(env, t.state, e);
      SavedStep(env, t, e, Agreement.Reaches(env, t.state, e), tag, id, r);
    } else {
      UnsavedStep(env, t, e, Moves(env, t.state, e), tag, id, r);
    }
  }

  /** Every request keeps the choices that matter, except exactly a live selection outside that
      condition. */
  lemma StepRouting(env: Platform, t: Trace, e: Event)
    requires Invariant(env, t) && Rooted(env, t) && Possible(e)
    ensures Rooted(env, Next(env, t, e))
    ensures RoutedSync(t) ==> (RoutedSync(Next(env, t, e)) <==> KeepsRouting(env, t, e))
  {
    if !Selecting(e.request) {
      StepInvariant(env, t, e);
      StepReloads(env, t, e);
      ReloadRooted(env, t, Next(env, t, e));
    } else if !t.lost && t.state.daemon.Running() {
      SelectingRouting(env, t, e);
    } else {
      SelectionKeepsStatus(env, t.state, e);
    }
  }

  /** After one live selection every connection goes where the committed model says exactly when the
      selection meets the condition; in direct mode nothing matters. */
  lemma SelectionTraffic(env: Platform, t: Trace, e: Event)
    requires Invariant(env, t) && Rooted(env, t) && Routed(env, t) && Possible(e) && Selecting(e.request)
    ensures Routed(env, Next(env, t, e)) <==> KeepsRouting(env, t, e)
  {
    RoutedIffSync(env, t);
    StepInvariant(env, t, e);
    StepRouting(env, t, e);
    RoutedIffSync(env, Next(env, t, e));
  }

  ghost predicate RoutingRun(env: Platform, t: Trace, events: seq<Event>) {
    events == [] ||
    (RoutingRun(env, t, events[..|events| - 1]) && KeepsRouting(env, Run(env, t, events[..|events| - 1]), events[|events| - 1]))
  }

  /** A run that keeps every choice in agreement keeps the routing. */
  lemma {:induction false} AgreementKeepsRouting(env: Platform, t: Trace, events: seq<Event>)
    requires ChoicesRun(env, t, events)
    ensures RoutingRun(env, t, events)
  {
    if events != [] {
      AgreementKeepsRouting(env, t, events[..|events| - 1]);
      ChoicesKeepRouting(env, Run(env, t, events[..|events| - 1]), events[|events| - 1]);
    }
  }

  ghost predicate RoutedThroughout(env: Platform, t: Trace, events: seq<Event>) {
    Routed(env, t) && (events == [] || (RoutedThroughout(env, t, events[..|events| - 1]) && Routed(env, Run(env, t, events))))
  }

  lemma {:induction false} RunRooted(env: Platform, t: Trace, events: seq<Event>)
    requires Invariant(env, t) && Rooted(env, t) && forall e :: e in events ==> Possible(e)
    ensures Rooted(env, Run(env, t, events))
  {
    if events != [] {
      RunSafe(env, t, events[..|events| - 1]);
      RunRooted(env, t, events[..|events| - 1]);
      StepRouting(env, Run(env, t, events[..|events| - 1]), events[|events| - 1]);
    }
  }

  lemma {:induction false} RunRouted(env: Platform, t: Trace, events: seq<Event>)
    requires Invariant(env, t) && Rooted(env, t) && RoutedSync(t) && forall e :: e in events ==> Possible(e)
    ensures RoutedThroughout(env, t, events) <==> RoutingRun(env, t, events)
    ensures RoutingRun(env, t, events) ==> RoutedSync(Run(env, t, events))
  {
    RoutedIffSync(env, t);
    if events != [] {
      var init := events[..|events| - 1];
      RunSafe(env, t, init);
      RunRooted(env, t, init);
      RunRouted(env, t, init);
      LastRouted(env, Run(env, t, init), events[|events| - 1]);
    }
  }

  lemma LastRouted(env: Platform, t: Trace, e: Event)
    requires Invariant(env, t) && Rooted(env, t) && Possible(e)
    ensures Rooted(env, Next(env, t, e)) && (RoutedSync(Next(env, t, e)) <==> Routed(env, Next(env, t, e)))
    ensures RoutedSync(t) ==> (RoutedSync(Next(env, t, e)) <==> KeepsRouting(env, t, e))
  {
    StepInvariant(env, t, e);
    StepRouting(env, t, e);
    RoutedIffSync(env, Next(env, t, e));
  }

  /** The run has just begun, or its last request loaded and was done. */
  ghost predicate JustLoaded(env: Platform, t: Trace, events: seq<Event>) {
    events != [] ==> Activation(env, Run(env, t, events[..|events| - 1]), events[|events| - 1])
  }

  lemma JustLoadedGood(env: Platform, t: Trace, events: seq<Event>)
    requires Invariant(env, t) && !t.state.daemon.Running() && JustLoaded(env, t, events)
    requires forall e :: e in events ==> Possible(e)
    ensures var u := Run(env, t, events); Invariant(env, u) && Rooted(env, u) && RoutedSync(u) && InSync(u) && Faithful(u)
  {
    RunSafe(env, t, events);
    if events == [] {
      StoppedGood(env, t);
    } else {
      RunSafe(env, t, events[..|events| - 1]);
      ActivationRestores(env, Run(env, t, events[..|events| - 1]), events[|events| - 1]);
    }
  }

  /** From any start on, after any requests and failures, and from the last request on that loaded: until
      data loss is reported, a started daemon sends every connection where the committed model says,
      throughout the run, exactly when each live selection of the run meets its condition. */
  lemma RunTraffic(env: Platform, stored: Option<RuntimeConfig>, saves: bool, before: seq<Event>, events: seq<Event>)
    requires env.mobile || env.isIP("127.0.0.1")
    requires stored.Some? ==> WellFormed(env, stored.value)
    requires Boot(env, stored, saves).Some? && JustLoaded(env, Booted(Boot(env, stored, saves).value), before)
    requires (forall e :: e in before ==> Possible(e)) && forall e :: e in events ==> Possible(e)
    ensures var t := Run(env, Booted(Boot(env, stored, saves).value), before);
            RoutedThroughout(env, t, events) <==> RoutingRun(env, t, events)
  {
    BootSafe(env, stored, saves);
    JustLoadedGood(env, Booted(Boot(env, stored, saves).value), before);
    RunRouted(env, Run(env, Booted(Boot(env, stored, saves).value), before), events);
  }

  /** The same for the agreement of all choices and for the configuration in force. */
  lemma RunRestored(env: Platform, stored: Option<RuntimeConfig>, saves: bool, before: seq<Event>, events: seq<Event>)
    requires env.mobile || env.isIP("127.0.0.1")
    requires stored.Some? ==> WellFormed(env, stored.value)
    requires Boot(env, stored, saves).Some? && JustLoaded(env, Booted(Boot(env, stored, saves).value), before)
    requires (forall e :: e in before ==> Possible(e)) && forall e :: e in events ==> Possible(e)
    ensures var t := Run(env, Booted(Boot(env, stored, saves).value), before);
            && (InSyncThroughout(env, t, events) <==> ChoicesRun(env, t, events))
            && (FaithfulThroughout(env, t, events) <==> ConfigRun(env, t, events))
  {
    BootSafe(env, stored, saves);
    var t := Run(env, Booted(Boot(env, stored, saves).value), before);
    JustLoadedGood(env, Booted(Boot(env, stored, saves).value), before);
    RunInSync(env, t, events);
    RunFaithful(env, t, events);
  }
}
