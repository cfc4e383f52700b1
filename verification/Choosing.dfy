/** Selecting a node: when the two requests succeed, told from what the committed configuration lists, and
    what a successful one leaves. */
module Choosing {
  import opened Wrappers
  import opened Text
  import opened Sequences
  import opened RuntimeModel
  import opened Validation
  import opened Planner
  import opened Closure
  import opened Meaning
  import opened RuntimeConfig
  import opened Commitments
  import opened Edits
  import opened Effects
  import opened Selections
  import opened Protocol
  import opened Runs
  import opened Agreement
  import opened InForce
  import opened Routing
  import opened Progress
  import opened Acceptance
  import opened Admission

  /******* What a running daemon offers *******/

  lemma ChosenOffers(outbounds: seq<Outbound>, live: map<string, string>, tag: string, id: string)
    ensures Offers(Map(ChoiceIn(live), outbounds), tag, id) <==> Offers(outbounds, tag, id)
  {
    forall o ensures ChoiceIn(live)(o).tag == o.tag && ChoiceIn(live)(o).options.SelectorOptions? == o.options.SelectorOptions?
    {
      ChoiceKeeps(live, o);
    }
  }

  /** The outbound of a selector lists the selector's members. */
  lemma ListedMembers(m: RuntimeModel, t: Selector) returns (o: Outbound)
    requires Normalized(m) && StableIds(m.nodes) && t in m.selectors
    ensures o in PlannedOutbounds(m.nodes, m.selectors) && o.tag == t.tag && o.options.SelectorOptions?
    ensures forall id :: id in o.options.members <==> id in t.nodeIds
  {
    StableTags(m.nodes);
    NormalizedSelector(m, t);
    if NodeTags(m.nodes) == [] {
      o := EmitDirectSelector(t);
      SelectorEmitted(m.nodes, m.selectors, t);
    } else if t.tag == PROXY {
      o := ProxyGroup(NodeTags(m.nodes), m.selectors);
      GroupsEmitted(m.nodes, m.selectors);
      SortMembers(Less, AvailableIds(m.nodes) + [DIRECT]);
    } else {
      o := EmitService(NodeTags(m.nodes))(t);
      ServiceEmitted(m, t);
      SelectorEmitted(m.nodes, m.selectors, t);
    }
  }

  lemma OffersListed(outbounds: seq<Outbound>, o: Outbound, id: string)
    requires NoDup(Map(TagOfOutbound, outbounds)) && o in outbounds && o.options.SelectorOptions?
    ensures Offers(outbounds, o.tag, id) <==> id in o.options.members
  {
    DistinctOutbounds(outbounds);
    var k :| 0 <= k < |outbounds| && outbounds[k] == o;
    if i :| 0 <= i < |outbounds| && outbounds[i].tag == o.tag && outbounds[i].options.SelectorOptions? && id in outbounds[i].options.members {
      assert outbounds[i] in outbounds;
    }
  }

  lemma ContentOffers(env: Platform, cfg: RuntimeConfig, nodes: seq<Node>, t: Selector, id: string)
    requires HexPool(nodes) && Builds(env, cfg, nodes) && Settled(cfg, nodes) && t in cfg.selectors
    ensures Offers(Content(env, cfg, nodes).outbounds, t.tag, id) <==> id in t.nodeIds
  {
    LoadedModel(env, cfg, nodes);
    var m := RuntimeModel(nodes, cfg.selectors, cfg.routes);
    var o := ListedMembers(m, t);
    assert Content(env, cfg, nodes).outbounds == PlannedOutbounds(m.nodes, m.selectors);
    OffersListed(Content(env, cfg, nodes).outbounds, o, id);
  }

  /** While the configuration is in force the daemon takes exactly the choices that the configuration lists. */
  lemma AcceptsListed(env: Platform, d: Daemon, cfg: RuntimeConfig, nodes: seq<Node>, t: Selector, id: string)
    requires HexPool(nodes) && Builds(env, cfg, nodes) && Settled(cfg, nodes) && t in cfg.selectors
    requires Effective(d) == Some(Content(env, cfg, nodes))
    ensures d.Accepts(t.tag, id) <==> id in t.nodeIds
  {
    ContentOffers(env, cfg, nodes, t, id);
    ChosenOffers(d.loaded.value.outbounds, d.live, t.tag, id);
  }

  /******* The default node *******/

  lemma SettledProxy(cfg: RuntimeConfig, nodes: seq<Node>) returns (t: Selector)
    requires Settled(cfg, nodes)
    ensures t in cfg.selectors && t.tag == PROXY
    ensures forall id :: id in t.nodeIds <==> id in AvailableIds(nodes) || id == DIRECT
  {
    SettledSelections(cfg, nodes);
    t := MapOrigin(TagOf, cfg.selectors, PROXY);
    CommittedElements(cfg, nodes, t);
    SortMembers(Less, AvailableIds(nodes) + [DIRECT]);
    AppendMembers(AvailableIds(nodes), DIRECT);
  }

  lemma AvailableIsHex(nodes: seq<Node>, id: string)
    requires HexPool(nodes) && id in AvailableIds(nodes)
    ensures id != "" && id != DIRECT && !Blank(id) && NodeReady(nodes, id)
  {
    AvailableIdsMember(nodes, id);
    var n :| n in nodes && n.IsAvailable() && n.id == id;
    HexIsOrdinary(n.id);
    BlankIsTrimmed(id);
    NodeReadyIff(nodes, id);
  }

  lemma DoneWhenMoved(env: Platform, t: Trace, e: Event)
    requires Invariant(env, t) && InSync(t) && !t.lost && t.state.daemon.Running() && Selecting(e.request)
    ensures Step(env, t.state, e.request, e.world).1.Done? <==> Moves(env, t.state, e) && e.world.saves
  {
    SelectionOutcome(env, t, e);
  }

  /** In every safe running state, an available node of whatever pool is published by then is selected
      exactly when the save succeeds and the node is one of the pool in use. */
  lemma SelectNodeSucceeds(env: Platform, t: Trace, id: string, w: World)
    requires Invariant(env, t) && InSync(t) && Faithful(t) && !t.lost && t.state.daemon.Running()
    requires HexPool(w.pool.nodes) && id in AvailableIds(w.pool.nodes) && Answers(w)
    ensures Step(env, t.state, SelectNode(id), w).1.Done? <==> w.saves && id in AvailableIds(t.basis.value.nodes)
  {
    var nodes := t.basis.value.nodes;
    var proxy := SettledProxy(t.state.runtimeConfig, nodes);
    AvailableIsHex(w.pool.nodes, id);
    NodePasses(env, t.state, id, w);
    AcceptsListed(env, t.state.daemon, t.state.runtimeConfig, nodes, proxy, id);
    DoneWhenMoved(env, t, Event(SelectNode(id), w));
    NodeSelection(env, t.state, id, w);
  }

  /******* A service's node *******/

  /** A service selection is let through exactly for an available node and a service that exists. */
  lemma RouteChosen(env: Platform, cfg: RuntimeConfig, nodes: seq<Node>, service: string, id: string)
    requires WellFormed(env, cfg) && NoDup(Map(IdOf, nodes))
    ensures RouteToSelect(cfg, nodes, service, id) == Success("route-" + service) <==>
            !Blank(service) && !Blank(id) && id in AvailableIds(nodes) && service in Map(ServiceOf, cfg.routes)
    ensures RouteToSelect(cfg, nodes, service, id) ==
            if Blank(service) || Blank(id) then Failure(InvalidArgument)
            else if id !in AvailableIds(nodes) || service !in Map(ServiceOf, cfg.routes) then Failure(NotFound)
            else Success("route-" + service)
  {
    NodeReadyIff(nodes, id);
    RouteFound(cfg.routes, service);
    TagForPaired(cfg.selectors, cfg.routes, service);
    SelectorFound(cfg.selectors, RouteTag(service));
  }

  lemma SelectedCompilable(env: Platform, cfg: RuntimeConfig, t: Selector, id: string, now: int)
    requires WellFormed(env, cfg) && t in cfg.selectors && t.tag != PROXY && id in t.nodeIds
    ensures Compilable(env, SelectRouteEdit(cfg, t.tag, id, now))
  {
    var next := SelectRouteEdit(cfg, t.tag, id, now);
    var chosen := t.(selected := id, selectedAt := now);
    WellFormedListsDirect(env, cfg);
    SetSelectedKeeps(cfg.selectors, cfg.routes, t.tag, id, now);
    SetSelectedMembers(cfg.selectors, t, id, now);
    SelectedDurable(t, id, now);
    CompilableWith(env, cfg, next, chosen);
  }

  lemma SelectedDurable(t: Selector, id: string, now: int)
    requires Durable(t) && id in t.nodeIds
    ensures Durable(t.(selected := id, selectedAt := now))
  {
  }

  lemma SetSelectedMembers(selectors: seq<Selector>, t: Selector, id: string, now: int)
    requires NoDup(Map(TagOf, selectors)) && t in selectors
    ensures var edited := SetSelected(selectors, t.tag, id, now);
            && Map(TagOf, edited) == Map(TagOf, selectors)
            && forall s :: s in edited <==> s == t.(selected := id, selectedAt := now) || (s in selectors && s.tag != t.tag)
  {
    MapIn(TagOf, selectors, t);
    SelectorFound(selectors, t.tag);
    DistinctKeys(TagOf, selectors);
    var i := FindSelector(selectors, t.tag);
    assert selectors[i] in selectors && TagOf(selectors[i]) == TagOf(t);
    UpdateKeys(TagOf, selectors, i, t.(selected := id, selectedAt := now));
    ReplacedMembers(TagOf, selectors, i, t.(selected := id, selectedAt := now));
  }

  lemma UnlistedRejected(cfg: RuntimeConfig, t: Selector, id: string, now: int, nodes: seq<Node>)
    requires NoDup(Map(TagOf, cfg.selectors)) && t in cfg.selectors && t.tag != PROXY && DIRECT in t.nodeIds
    requires id in AvailableIds(nodes) && Accepts(Desired(SelectRouteEdit(cfg, t.tag, id, now), nodes))
    ensures id in t.nodeIds
  {
    var next, chosen := SelectRouteEdit(cfg, t.tag, id, now), t.(selected := id, selectedAt := now);
    SetSelectedMembers(cfg.selectors, t, id, now);
    ReconciledMember(nodes, next.selectors, chosen);
    ReadyIff(nodes, id);
    KeptMembers(nodes, chosen);
    ChosenListed(nodes, ReconcileSelector(nodes, chosen));
  }

  lemma ChosenListed(nodes: seq<Node>, s: Selector)
    requires SelectorOk(nodes, s) && s.tag != PROXY
    ensures s.selected in s.nodeIds
  {
    SortMembers(Less, s.nodeIds);
  }

  /** Selecting an available node for a service builds exactly when the service's selector lists the node,
      whatever pool is published by then. */
  lemma SelectRouteBuilds(env: Platform, cfg: RuntimeConfig, t: Selector, id: string, now: int, nodes: seq<Node>)
    requires WellFormed(env, cfg) && t in cfg.selectors && t.tag != PROXY && HexPool(nodes) && id in AvailableIds(nodes)
    ensures Builds(env, SelectRouteEdit(cfg, t.tag, id, now), nodes) <==> id in t.nodeIds
  {
    WellFormedListsDirect(env, cfg);
    if id in t.nodeIds {
      SelectedCompilable(env, cfg, t, id, now);
      CompilableBuilds(env, SelectRouteEdit(cfg, t.tag, id, now), nodes);
    }
    if Builds(env, SelectRouteEdit(cfg, t.tag, id, now), nodes) {
      UnlistedRejected(cfg, t, id, now, nodes);
    }
  }

  lemma NamedNotBlank(name: string)
    requires name != "" && TrimStable(name)
    ensures !Blank(name)
  {
    BlankIsTrimmed(name);
  }

  lemma RoutesNamed(tags: seq<string>, routes: seq<ServiceRoute>, service: string)
    requires RoutesOk(tags, routes) && service in Map(ServiceOf, routes)
    ensures !Blank(service)
  {
    var r := MapOrigin(ServiceOf, routes, service);
    NamedNotBlank(r.serviceId);
  }

  lemma RouteTagged(selectors: seq<Selector>, routes: seq<ServiceRoute>, service: string)
    requires Paired(selectors, routes) && service in Map(ServiceOf, routes)
    ensures ServiceTag(routes, service) == "route-" + service != PROXY
  {
    RouteTagNotProxy(service);
    TagForPaired(selectors, routes, service);
    RouteFound(routes, service);
  }

  /** A selection for an existing service is let through, for an available node. */
  lemma RoutePasses(env: Platform, cfg: RuntimeConfig, nodes: seq<Node>, service: string, id: string)
    requires WellFormed(env, cfg) && HexPool(nodes) && id in AvailableIds(nodes) && service in Map(ServiceOf, cfg.routes)
    ensures RouteToSelect(cfg, nodes, service, id) == Success(ServiceTag(cfg.routes, service))
    ensures ServiceTag(cfg.routes, service) != PROXY
  {
    WellFormedListsDirect(env, cfg);
    WellFormedRoutes(env, cfg);
    RouteTagged(cfg.selectors, cfg.routes, service);
    RoutesNamed(Tags(cfg), cfg.routes, service);
    AvailableIsHex(nodes, id);
    RouteChosen(env, cfg, nodes, service, id);
  }

  /** In every safe running state, an available node of whatever pool is published by then is selected for a
      service exactly when the save succeeds and the service's selector lists the node. */
  lemma SelectRouteNodeSucceeds(env: Platform, t: Trace, service: string, listed: Selector, id: string, w: World)
    requires Invariant(env, t) && InSync(t) && Faithful(t) && !t.lost && t.state.daemon.Running()
    requires HexPool(w.pool.nodes) && id in AvailableIds(w.pool.nodes) && Answers(w)
    requires service in Map(ServiceOf, t.state.runtimeConfig.routes)
    requires listed in t.state.runtimeConfig.selectors && listed.tag == ServiceTag(t.state.runtimeConfig.routes, service)
    ensures Step(env, t.state, SelectRouteNode(service, id), w).1.Done? <==> w.saves && id in listed.nodeIds
  {
    var cfg := t.state.runtimeConfig;
    RoutePasses(env, cfg, w.pool.nodes, service, id);
    SelectRouteBuilds(env, cfg, listed, id, w.now, w.pool.nodes);
    AcceptsListed(env, t.state.daemon, cfg, t.basis.value.nodes, listed, id);
    RouteMoves(env, t.state, service, id, listed.tag, w);
    DoneWhenMoved(env, t, Event(SelectRouteNode(service, id), w));
  }

  lemma RouteMoves(env: Platform, s: Runtime, service: string, id: string, tag: string, w: World)
    requires RouteToSelect(s.runtimeConfig, w.pool.nodes, service, id) == Success(tag)
    requires ServiceTag(s.runtimeConfig.routes, service) == tag && Answers(w) && DaemonOk(s.daemon)
    ensures Moves(env, s, Event(SelectRouteNode(service, id), w)) <==>
            Builds(env, SelectRouteEdit(s.runtimeConfig, tag, id, w.now), w.pool.nodes) && s.daemon.Accepts(tag, id)
  {
  }

  /******* Selecting while nothing runs *******/

  /** Saved or not, the daemon and its configuration stay. */
  predicate SavedOnly(s: Runtime, ok: bool, r: (Runtime, Outcome)) {
    (r.1.Done? <==> ok) && r.0.daemon == s.daemon && r.0.config == s.config
  }

  lemma CommitStopped(env: Platform, s: Runtime, next: RuntimeConfig, tag: string, id: string, w: World)
    requires !s.daemon.Running() && DaemonOk(s.daemon) && w.settles && w.encodes
    ensures SavedOnly(s, Builds(env, next, w.pool.nodes) && w.saves, CommitSelection(env, s, next, tag, id, w))
  {
  }

  /** How a prepared selection ends: with the first of these failures that applies, or done. */
  lemma SelectionCodes(env: Platform, s: Runtime, next: RuntimeConfig, tag: string, id: string, w: World)
    requires DaemonOk(s.daemon)
    ensures CommitSelection(env, s, next, tag, id, w).1 ==
            if !Builds(env, next, w.pool.nodes) || !w.encodes then Failed(Unbuildable)
            else if !w.settles then Failed(Unavailable)
            else if s.daemon.Running() && !(w.selects && s.daemon.Accepts(tag, id)) then Failed(DaemonError)
            else if w.saves then Done
            else Failed(StoreError)
  {
  }

  lemma NodeStep(env: Platform, s: Runtime, id: string, w: World)
    requires id != "" && NodeReady(w.pool.nodes, id)
    ensures var next := SelectEdit(s.runtimeConfig.(poolRevision := w.pool.revision), id, w.now);
            Step(env, s, SelectNode(id), w) == AsInternal(CommitSelection(env, s, next, PROXY, id, w))
  {
  }

  /** What selecting the default node refuses at once; errors of the daemon and of the store are internal. */
  lemma NodeRefusals(env: Platform, s: Runtime, id: string, w: World)
    requires NoDup(Map(IdOf, w.pool.nodes))
    ensures id == "" ==> Step(env, s, SelectNode(id), w) == (s, Failed(InvalidArgument))
    ensures id != "" && id !in AvailableIds(w.pool.nodes) ==> Step(env, s, SelectNode(id), w) == (s, Failed(NotFound))
    ensures Step(env, s, SelectNode(id), w).1 != Failed(DaemonError) && Step(env, s, SelectNode(id), w).1 != Failed(StoreError)
  {
    NodeReadyIff(w.pool.nodes, id);
    if id != "" && NodeReady(w.pool.nodes, id) {
      NodeStep(env, s, id, w);
    }
  }

  lemma RefusedStep(env: Platform, s: Runtime, service: string, id: string, w: World, code: Code)
    requires RouteToSelect(s.runtimeConfig, w.pool.nodes, service, id) == Failure(code)
    ensures Step(env, s, SelectRouteNode(service, id), w) == (s, Failed(code))
  {
  }

  /** What selecting a node for a service refuses at once. */
  lemma RouteRefusals(env: Platform, s: Runtime, service: string, id: string, w: World)
    requires WellFormed(env, s.runtimeConfig) && NoDup(Map(IdOf, w.pool.nodes))
    requires Blank(service) || Blank(id) || id !in AvailableIds(w.pool.nodes) || service !in Map(ServiceOf, s.runtimeConfig.routes)
    ensures Step(env, s, SelectRouteNode(service, id), w) ==
            (s, Failed(if Blank(service) || Blank(id) then InvalidArgument else NotFound))
  {
    RouteChosen(env, s.runtimeConfig, w.pool.nodes, service, id);
    RefusedStep(env, s, service, id, w, if Blank(service) || Blank(id) then InvalidArgument else NotFound);
  }

  lemma RouteStep(env: Platform, s: Runtime, service: string, id: string, tag: string, w: World)
    requires RouteToSelect(s.runtimeConfig, w.pool.nodes, service, id) == Success(tag)
    ensures Step(env, s, SelectRouteNode(service, id), w) ==
            CommitSelection(env, s, SelectRouteEdit(s.runtimeConfig, tag, id, w.now), tag, id, w)
  {
  }

  lemma InternalSaved(s: Runtime, ok: bool, r: (Runtime, Outcome))
    requires SavedOnly(s, ok, r)
    ensures SavedOnly(s, ok, AsInternal(r))
  {
  }

  lemma SelectNodeStopped(env: Platform, s: Runtime, id: string, w: World)
    requires NodeReaches(env, s, id, w) && !s.daemon.Running() && DaemonOk(s.daemon)
    ensures SavedOnly(s, w.saves, Step(env, s, SelectNode(id), w))
  {
    var next := SelectEdit(s.runtimeConfig.(poolRevision := w.pool.revision), id, w.now);
    NodeStep(env, s, id, w);
    CommitStopped(env, s, next, PROXY, id, w);
    InternalSaved(s, w.saves, CommitSelection(env, s, next, PROXY, id, w));
  }

  lemma SelectRouteStopped(env: Platform, s: Runtime, service: string, id: string, tag: string, w: World)
    requires RouteToSelect(s.runtimeConfig, w.pool.nodes, service, id) == Success(tag)
    requires !s.daemon.Running() && DaemonOk(s.daemon) && w.settles && w.encodes
    ensures SavedOnly(s, Builds(env, SelectRouteEdit(s.runtimeConfig, tag, id, w.now), w.pool.nodes) && w.saves,
                      Step(env, s, SelectRouteNode(service, id), w))
  {
    RouteStep(env, s, service, id, tag, w);
    CommitStopped(env, s, SelectRouteEdit(s.runtimeConfig, tag, id, w.now), tag, id, w);
  }

  /** While nothing runs, a selection is saved for the next start and the daemon is left alone: an available
      node is selected exactly when the save succeeds, and for a service if its selector lists the node. */
  lemma SavedSelection(env: Platform, s: Runtime, service: string, listed: Selector, id: string, w: World)
    requires WellFormed(env, s.runtimeConfig) && DaemonOk(s.daemon) && !s.daemon.Running() && w.settles && w.encodes
    requires HexPool(w.pool.nodes) && id in AvailableIds(w.pool.nodes)
    requires service in Map(ServiceOf, s.runtimeConfig.routes)
    requires listed in s.runtimeConfig.selectors && listed.tag == ServiceTag(s.runtimeConfig.routes, service)
    ensures SavedOnly(s, w.saves, Step(env, s, SelectNode(id), w))
    ensures SavedOnly(s, w.saves && id in listed.nodeIds, Step(env, s, SelectRouteNode(service, id), w))
  {
    AvailableIsHex(w.pool.nodes, id);
    NodePasses(env, s, id, w);
    SelectNodeStopped(env, s, id, w);
    RoutePasses(env, s.runtimeConfig, w.pool.nodes, service, id);
    SelectRouteBuilds(env, s.runtimeConfig, listed, id, w.now, w.pool.nodes);
    SelectRouteStopped(env, s, service, id, listed.tag, w);
  }

  /******* What a selection leaves *******/

  /** The committed selectors after setting the selection of a service's selector `tag`: each is what is committed for the selector
      as it was, except that the selected one has the new choice and time. */
  ghost predicate SelectionLeaves(before: seq<Selector>, after: seq<Selector>, tag: string, id: string, now: int, nodes: seq<Node>) {
    forall t :: t in after <==>
      || (exists s :: s in before && s.tag != tag && IsCommitted(nodes, s, t))
      || (exists s :: s in before && s.tag == tag && IsCommitted(nodes, s.(selected := id, selectedAt := now), t))
      || ((forall s :: s in before ==> s.tag != "proxy") && IsCommitted(nodes, FreshProxy(nodes), t))
  }

  /** The same after selecting the default node: the proxy selector, made if need be, has the new choice. */
  ghost predicate NodeSelectionLeaves(before: seq<Selector>, after: seq<Selector>, id: string, now: int, nodes: seq<Node>) {
    forall t :: t in after <==>
      || (exists s :: s in before && s.tag != "proxy" && IsCommitted(nodes, s, t))
      || IsCommitted(nodes, Selector("proxy", [], id, now), t)
  }

  lemma RouteSelectionLeaves(cfg: RuntimeConfig, tag: string, id: string, now: int, nodes: seq<Node>)
    requires NoDup(Tags(cfg)) && ListsDirect(cfg.selectors) && tag in Tags(cfg) && tag != PROXY
    requires Accepts(Desired(SelectRouteEdit(cfg, tag, id, now), nodes))
    ensures SelectionLeaves(cfg.selectors, Committed(SelectRouteEdit(cfg, tag, id, now), nodes).selectors, tag, id, now, nodes)
  {
    var next := SelectRouteEdit(cfg, tag, id, now);
    var chosen := MapOrigin(TagOf, cfg.selectors, tag);
    SetSelectedMembers(cfg.selectors, chosen, id, now);
    forall t ensures t in Committed(next, nodes).selectors <==> IsLeft(next.selectors, nodes, t) {
      CommittedAre(next, nodes, t);
    }
    EditedLeaves(cfg.selectors, next.selectors, Committed(next, nodes).selectors, chosen, id, now, nodes);
  }

  /** What a commit makes of a list of selectors. */
  ghost predicate IsLeft(selectors: seq<Selector>, nodes: seq<Node>, t: Selector) {
    || (exists s :: s in selectors && IsCommitted(nodes, s, t))
    || ((forall s :: s in selectors ==> s.tag != "proxy") && IsCommitted(nodes, FreshProxy(nodes), t))
  }

  lemma EditedLeaves(before: seq<Selector>, edited: seq<Selector>, after: seq<Selector>, chosen: Selector, id: string, now: int,
                     nodes: seq<Node>)
    requires NoDup(Map(TagOf, before)) && chosen in before && chosen.tag != PROXY
    requires forall s :: s in edited <==> s == chosen.(selected := id, selectedAt := now) || (s in before && s.tag != chosen.tag)
    requires forall t :: t in after <==> IsLeft(edited, nodes, t)
    ensures SelectionLeaves(before, after, chosen.tag, id, now, nodes)
  {
    DistinctKeys(TagOf, before);
    forall s | s in before && s.tag == chosen.tag ensures s == chosen {
      assert TagOf(s) == TagOf(chosen);
    }
    ProxyStays(before, edited, chosen, id, now);
  }

  lemma ProxyStays(before: seq<Selector>, edited: seq<Selector>, chosen: Selector, id: string, now: int)
    requires chosen.tag != PROXY
    requires forall s :: s in edited <==> s == chosen.(selected := id, selectedAt := now) || (s in before && s.tag != chosen.tag)
    ensures (forall s :: s in edited ==> s.tag != "proxy") <==> (forall s :: s in before ==> s.tag != "proxy")
  {
  }

  lemma SelectEditMembers(cfg: RuntimeConfig, id: string, now: int)
    requires NoDup(Tags(cfg))
    ensures forall s :: s in SelectEdit(cfg, id, now).selectors && s.tag != PROXY <==> s in cfg.selectors && s.tag != PROXY
    ensures exists s :: s in SelectEdit(cfg, id, now).selectors && s.tag == PROXY
    ensures forall s :: s in SelectEdit(cfg, id, now).selectors && s.tag == PROXY ==> s.selected == id && s.selectedAt == now
  {
    SelectorFound(cfg.selectors, PROXY);
    var i := FindSelector(cfg.selectors, PROXY);
    if i < |cfg.selectors| {
      SetSelectedMembers(cfg.selectors, cfg.selectors[i], id, now);
    } else {
      AppendMembers(cfg.selectors, Selector(PROXY, [], id, now));
      AbsentKey(TagOf, cfg.selectors, PROXY);
    }
  }

  lemma NodeEditLeaves(before: seq<Selector>, edited: seq<Selector>, after: seq<Selector>, id: string, now: int, nodes: seq<Node>)
    requires forall s :: s in edited && s.tag != PROXY <==> s in before && s.tag != PROXY
    requires exists s :: s in edited && s.tag == PROXY
    requires forall s :: s in edited && s.tag == PROXY ==> s.selected == id && s.selectedAt == now
    requires forall t :: t in after <==> IsLeft(edited, nodes, t)
    ensures NodeSelectionLeaves(before, after, id, now, nodes)
  {
    var proxy :| proxy in edited && proxy.tag == PROXY;
    forall t, s | s in edited && s.tag == PROXY
      ensures IsCommitted(nodes, s, t) <==> IsCommitted(nodes, Selector("proxy", [], id, now), t)
    {
    }
  }

  lemma NodeLeaves(cfg: RuntimeConfig, id: string, now: int, nodes: seq<Node>)
    requires Paired(cfg.selectors, cfg.routes) && ListsDirect(cfg.selectors)
    requires Accepts(Desired(SelectEdit(cfg, id, now), nodes))
    ensures NodeSelectionLeaves(cfg.selectors, Committed(SelectEdit(cfg, id, now), nodes).selectors, id, now, nodes)
  {
    var next := SelectEdit(cfg, id, now);
    SelectPaired(cfg, id, now);
    SelectEditMembers(cfg, id, now);
    forall t ensures t in Committed(next, nodes).selectors <==> IsLeft(next.selectors, nodes, t) {
      CommittedAre(next, nodes, t);
    }
    NodeEditLeaves(cfg.selectors, next.selectors, Committed(next, nodes).selectors, id, now, nodes);
  }

  /** Everything but the selectors stays. */
  ghost predicate OthersStay(before: RuntimeConfig, t: Runtime, revision: string) {
    && t.persisted == t.runtimeConfig
    && t.runtimeConfig.settings == before.settings && t.runtimeConfig.routes == before.routes
    && t.runtimeConfig.poolRevision == revision
  }

  lemma CommittedStays(env: Platform, before: RuntimeConfig, next: RuntimeConfig, pool: Pool, t: Runtime)
    requires WellFormed(env, before) && CommittedTo(env, t, next, pool)
    requires next.settings == before.settings && next.routes == before.routes
    ensures OthersStay(before, t, next.poolRevision) && t.runtimeConfig == Committed(next, pool.nodes)
    ensures Accepts(Desired(next, pool.nodes))
  {
  }

  lemma SelectNodeServed(env: Platform, s: Runtime, id: string, w: World, r: (Runtime, Outcome))
    requires DaemonOk(s.daemon) && r == Step(env, s, SelectNode(id), w) && r.1.Done?
    ensures CommittedTo(env, r.0, SelectEdit(s.runtimeConfig.(poolRevision := w.pool.revision), id, w.now), w.pool)
  {
    SelectCommits(env, s, id, w);
  }

  lemma SelectRouteServed(env: Platform, s: Runtime, service: string, id: string, w: World, r: (Runtime, Outcome))
    requires DaemonOk(s.daemon) && r == Step(env, s, SelectRouteNode(service, id), w) && r.1.Done?
    ensures CommittedTo(env, r.0, RouteSelection(s.runtimeConfig, service, id, w.now), w.pool)
  {
    SelectRouteCommits(env, s, service, id, w);
  }

  lemma NodeCommitted(env: Platform, before: RuntimeConfig, id: string, now: int, pool: Pool, t: Runtime)
    requires WellFormed(env, before) && CommittedTo(env, t, SelectEdit(before.(poolRevision := pool.revision), id, now), pool)
    ensures OthersStay(before, t, pool.revision)
    ensures NodeSelectionLeaves(before.selectors, t.runtimeConfig.selectors, id, now, pool.nodes)
  {
    var cfg := before.(poolRevision := pool.revision);
    CommittedStays(env, before, SelectEdit(cfg, id, now), pool, t);
    WellFormedListsDirect(env, before);
    NodeLeaves(cfg, id, now, pool.nodes);
  }

  lemma RouteCommitted(env: Platform, before: RuntimeConfig, tag: string, id: string, now: int, pool: Pool, t: Runtime)
    requires WellFormed(env, before) && tag in Tags(before) && tag != PROXY
    requires CommittedTo(env, t, SelectRouteEdit(before, tag, id, now), pool)
    ensures OthersStay(before, t, before.poolRevision)
    ensures SelectionLeaves(before.selectors, t.runtimeConfig.selectors, tag, id, now, pool.nodes)
  {
    CommittedStays(env, before, SelectRouteEdit(before, tag, id, now), pool, t);
    WellFormedListsDirect(env, before);
    RouteSelectionLeaves(before, tag, id, now, pool.nodes);
  }

  lemma RouteSelectionTag(env: Platform, cfg: RuntimeConfig, service: string, id: string, now: int)
    requires WellFormed(env, cfg) && service in Map(ServiceOf, cfg.routes)
    ensures RouteSelection(cfg, service, id, now) == SelectRouteEdit(cfg, "route-" + service, id, now)
    ensures "route-" + service in Tags(cfg) && "route-" + service != PROXY
  {
    WellFormedListsDirect(env, cfg);
    RouteTagged(cfg.selectors, cfg.routes, service);
    TagForPaired(cfg.selectors, cfg.routes, service);
    RouteFound(cfg.routes, service);
  }

  /** A selection of the default node leaves its choice and its time in the proxy selector, in memory and in
      the store, with every other selector as committing leaves it, and the revision of the pool it read. */
  lemma SelectNodeOutcome(env: Platform, s: Runtime, id: string, w: World, r: (Runtime, Outcome))
    requires WellFormed(env, s.runtimeConfig) && DaemonOk(s.daemon)
    requires r == Step(env, s, SelectNode(id), w) && r.1.Done?
    ensures OthersStay(s.runtimeConfig, r.0, w.pool.revision)
    ensures NodeSelectionLeaves(s.runtimeConfig.selectors, r.0.runtimeConfig.selectors, id, w.now, w.pool.nodes)
  {
    SelectNodeServed(env, s, id, w, r);
    NodeCommitted(env, s.runtimeConfig, id, w.now, w.pool, r.0);
  }

  /** The same for a service, except that the revision stays the one of the last commit. */
  lemma SelectRouteNodeOutcome(env: Platform, s: Runtime, service: string, id: string, w: World, r: (Runtime, Outcome))
    requires WellFormed(env, s.runtimeConfig) && DaemonOk(s.daemon) && service in Map(ServiceOf, s.runtimeConfig.routes)
    requires r == Step(env, s, SelectRouteNode(service, id), w) && r.1.Done?
    ensures OthersStay(s.runtimeConfig, r.0, s.runtimeConfig.poolRevision)
    ensures SelectionLeaves(s.runtimeConfig.selectors, r.0.runtimeConfig.selectors, "route-" + service, id, w.now, w.pool.nodes)
  {
    SelectRouteServed(env, s, service, id, w, r);
    RouteSelectionTag(env, s.runtimeConfig, service, id, w.now);
    RouteCommitted(env, s.runtimeConfig, "route-" + service, id, w.now, w.pool, r.0);
  }

  /** A selection that is done on a running daemon is its choice from then on, and changes no other. */
  lemma SelectionRuns(env: Platform, t: Trace, e: Event)
    requires Invariant(env, t) && !t.lost && t.state.daemon.Running() && Selecting(e.request)
    requires Step(env, t.state, e.request, e.world).1.Done?
    ensures var d := t.state.daemon;
            Step(env, t.state, e.request, e.world).0.daemon == d.(live := d.live[SelectedTag(t.state, e.request) := SelectedId(e.request)])
  {
    SelectionEnds(env, t, e);
  }
}
