/** Whether the running daemon does what the manager's `config` says: its loaded configuration under the
    live selector choices is the configuration in memory, outbound by outbound. */
module InForce {
  import opened Wrappers
  import opened Text
  import opened Sequences
  import opened RuntimeModel
  import opened Validation
  import opened Canonicity
  import opened Planner
  import opened Closure
  import opened Meaning
  import opened RuntimeConfig
  import opened Commitments
  import opened Edits
  import opened Effects
  import opened Selections
  import opened Protocol
  import opened Runs
  import opened Agreement

  /** An outbound whose default is the running choice. */
  function ChoiceIn(live: map<string, string>): Outbound -> Outbound {
    (o: Outbound) =>
      match o.options
      case SelectorOptions(members, _) => if o.tag in live then o.(options := SelectorOptions(members, live[o.tag])) else o
      case _ => o
  }

  /** What a daemon does: its loaded configuration under its running choices. */
  function Effective(d: Daemon): Option<Blueprint> {
    match d.loaded
    case Some(content) => Some(content.(outbounds := Map(ChoiceIn(d.live), content.outbounds)))
    case None => None
  }

  lemma LoadedEffective(content: Blueprint)
    requires NoDup(Map(TagOfOutbound, content.outbounds))
    ensures Effective(Load(content)) == Some(content)
  {
    var outbounds := content.outbounds;
    var live := Defaults(outbounds);
    forall o | o in outbounds ensures ChoiceIn(live)(o) == o {
      if o.options.SelectorOptions? {
        DefaultsAt(outbounds, o);
      }
    }
    MapFixed(ChoiceIn(live), outbounds);
  }

  /******* A live selection, seen from the plan *******/

  /** The selection of `tag` set to `id`, in a selector and in an emitted outbound. */
  function Select(tag: string, id: string, now: int): Selector -> Selector {
    (s: Selector) => if s.tag == tag then s.(selected := id, selectedAt := now) else s
  }

  function Switch(tag: string, id: string): Outbound -> Outbound {
    (o: Outbound) =>
      match o.options
      case SelectorOptions(members, _) => if o.tag == tag then o.(options := SelectorOptions(members, id)) else o
      case _ => o
  }

  lemma SelectsEach(selectors: seq<Selector>, tag: string, id: string, now: int)
    requires NoDup(Map(TagOf, selectors)) && tag in Map(TagOf, selectors)
    ensures SetSelected(selectors, tag, id, now) == Map(Select(tag, id, now), selectors)
  {
    SelectorFound(selectors, tag);
    var i := FindSelector(selectors, tag);
    forall k | 0 <= k < |selectors| && k != i ensures selectors[k].tag != tag {
      if k < i {
        assert Map(TagOf, selectors)[k] != Map(TagOf, selectors)[i];
      } else {
        assert Map(TagOf, selectors)[i] != Map(TagOf, selectors)[k];
      }
    }
  }

  lemma ServicesSwitch(tags: seq<string>, services: seq<Selector>, tag: string, id: string, now: int)
    requires id != "" && forall s :: s in services ==> TrimStable(s.tag)
    ensures Map(EmitService(tags), Map(Select(tag, id, now), services)) == Map(Switch(tag, id), Map(EmitService(tags), services))
  {
  }

  lemma {:induction false} ProxyDefaultSelect(selectors: seq<Selector>, tag: string, id: string, now: int, first: string)
    requires NoDup(Map(TagOf, selectors))
    ensures ProxyDefault(Map(Select(tag, id, now), selectors), first) ==
            if tag == PROXY && PROXY in Map(TagOf, selectors) then id else ProxyDefault(selectors, first)
  {
    if selectors != [] {
      var init, last := selectors[..|selectors| - 1], selectors[|selectors| - 1];
      assert selectors == init + [last];
      MapAppend(TagOf, init, last);
      AppendMembers(Map(TagOf, init), last.tag);
      NoDupAppend(Map(TagOf, init), last.tag);
      MapAppend(Select(tag, id, now), init, last);
      ProxyDefaultSelect(init, tag, id, now, first);
    }
  }

  lemma ProxySwitch(tags: seq<string>, selectors: seq<Selector>, tag: string, id: string, now: int)
    requires tags != [] && NoDup(Map(TagOf, selectors)) && tag in Map(TagOf, selectors)
    ensures ProxyGroup(tags, Map(Select(tag, id, now), selectors)) == Switch(tag, id)(ProxyGroup(tags, selectors))
  {
    ProxyDefaultSelect(selectors, tag, id, now, tags[0]);
  }

  lemma NodesSwitch(nodes: seq<Node>, tag: string, id: string)
    ensures Map(Switch(tag, id), NodeOutbounds(nodes) + [DIRECT_OUTBOUND]) == NodeOutbounds(nodes) + [DIRECT_OUTBOUND]
  {
  }

  lemma ServiceGroupsSwitch(tags: seq<string>, selectors: seq<Selector>, tag: string, id: string, now: int)
    requires id != "" && forall s :: s in selectors ==> TrimStable(s.tag)
    ensures Map(EmitService(tags), Services(Map(Select(tag, id, now), selectors))) ==
            Map(Switch(tag, id), Map(EmitService(tags), Services(selectors)))
  {
    MapFilter(IsService, Select(tag, id, now), selectors);
    ServicesSwitch(tags, Services(selectors), tag, id, now);
  }

  lemma TestSwitch(tags: seq<string>, tag: string, id: string)
    ensures Switch(tag, id)(URLTestGroup(tags)) == URLTestGroup(tags)
  {
  }

  lemma GroupsForm(tags: seq<string>, selectors: seq<Selector>)
    requires tags != []
    ensures GroupOutbounds(tags, selectors) ==
            [URLTestGroup(tags), ProxyGroup(tags, selectors)] + Map(EmitService(tags), Services(selectors))
  {
  }

  lemma GroupsSwitch(tags: seq<string>, selectors: seq<Selector>, tag: string, id: string, now: int)
    requires tags != [] && id != ""
    requires NoDup(Map(TagOf, selectors)) && tag in Map(TagOf, selectors)
    requires forall s :: s in selectors ==> TrimStable(s.tag)
    ensures GroupOutbounds(tags, Map(Select(tag, id, now), selectors)) == Map(Switch(tag, id), GroupOutbounds(tags, selectors))
  {
    var next := Map(Select(tag, id, now), selectors);
    ServiceGroupsSwitch(tags, selectors, tag, id, now);
    ProxySwitch(tags, selectors, tag, id, now);
    TestSwitch(tags, tag, id);
    var before, after := Map(EmitService(tags), Services(selectors)), Map(EmitService(tags), Services(next));
    MapPair(Switch(tag, id), URLTestGroup(tags), ProxyGroup(tags, selectors), before, ProxyGroup(tags, next), after);
    GroupsForm(tags, selectors);
    GroupsForm(tags, next);
  }

  /** Planning after the selection is switching the choice in the plan from before. */
  lemma PlannedSwitch(nodes: seq<Node>, selectors: seq<Selector>, tag: string, id: string, now: int)
    requires NodeTags(nodes) != [] && id != ""
    requires NoDup(Map(TagOf, selectors)) && tag in Map(TagOf, selectors)
    requires forall s :: s in selectors ==> TrimStable(s.tag)
    ensures PlannedOutbounds(nodes, Map(Select(tag, id, now), selectors)) == Map(Switch(tag, id), PlannedOutbounds(nodes, selectors))
  {
    GroupsSwitch(NodeTags(nodes), selectors, tag, id, now);
    NodesSwitch(nodes, tag, id);
    MapConcat(Switch(tag, id), NodeOutbounds(nodes) + [DIRECT_OUTBOUND], GroupOutbounds(NodeTags(nodes), selectors));
  }

  /******* A live selection, seen from the configuration *******/

  lemma SelectedFixed(nodes: seq<Node>, s: Selector, tag: string, id: string, now: int)
    requires ReconcileSelector(nodes, s) == s && CanonSelector(nodes, s) == s && Selectable(nodes, id)
    ensures var t := Select(tag, id, now)(s); ReconcileSelector(nodes, t) == t && CanonSelector(nodes, t) == t
  {
  }

  lemma SortedSelect(selectors: seq<Selector>, tag: string, id: string, now: int)
    requires Sorted(TagBefore, selectors) && NoDup(Map(TagOf, selectors))
    ensures var next := Map(Select(tag, id, now), selectors);
            Sort(TagBefore, next) == next && Map(TagOf, next) == Map(TagOf, selectors)
  {
    var next := Map(Select(tag, id, now), selectors);
    assert Map(TagOf, next) == Map(TagOf, selectors);
    forall i, j | 0 <= i < j < |next| ensures !TagBefore(next[j], next[i]) {
      assert !TagBefore(selectors[j], selectors[i]);
    }
    SelectorOrder(next);
    SortOfSorted(TagBefore, next);
  }

  lemma SettledSorted(cfg: RuntimeConfig, nodes: seq<Node>)
    requires Settled(cfg, nodes)
    ensures Sorted(TagBefore, cfg.selectors) && NoDup(Map(TagOf, cfg.selectors)) && CanonRoutes(cfg.routes) == cfg.routes
    ensures Canonical(Desired(cfg, nodes)) == RuntimeModel(nodes, cfg.selectors, cfg.routes)
  {
    CommittedHasProxy(cfg, nodes);
    ReconciledTags(cfg.selectors, nodes);
    CanonSelectorsSorted(nodes, Reconciled(cfg.selectors, nodes));
  }

  /** Selecting on a settled configuration changes that selection and nothing else. */
  lemma SelectionCommits(cfg: RuntimeConfig, next: RuntimeConfig, tag: string, id: string, now: int, nodes: seq<Node>)
    requires Settled(cfg, nodes) && Selectable(nodes, id)
    requires next == cfg.(selectors := Map(Select(tag, id, now), cfg.selectors), poolRevision := next.poolRevision)
    ensures Canonical(Desired(next, nodes)) == RuntimeModel(nodes, next.selectors, next.routes)
  {
    SettledSorted(cfg, nodes);
    SettledSelections(cfg, nodes);
    SortedSelect(cfg.selectors, tag, id, now);
    ReconciledTags(next.selectors, nodes);
    forall t | t in next.selectors ensures ReconcileIn(nodes)(t) == t && CanonSelectorIn(nodes)(t) == t {
      var s := MapOrigin(Select(tag, id, now), cfg.selectors, t);
      CommittedElements(cfg, nodes, s);
      SelectedFixed(nodes, s, tag, id, now);
    }
    MapFixed(ReconcileIn(nodes), next.selectors);
    MapFixed(CanonSelectorIn(nodes), next.selectors);
  }

  /******* Loaded, chosen, configured *******/

  /** Until data loss is reported, a started daemon does what the configuration in memory says. */
  ghost predicate Faithful(t: Trace) {
    !t.lost && t.state.daemon.Running() ==> Effective(t.state.daemon) == t.state.config
  }

  lemma ContentEffective(env: Platform, cfg: RuntimeConfig, nodes: seq<Node>)
    requires Builds(env, cfg, nodes) && HexPool(nodes)
    ensures Effective(Load(Content(env, cfg, nodes))) == Some(Content(env, cfg, nodes))
  {
    HexPoolOk(nodes);
    NormalizingTwice(Desired(cfg, nodes));
    OutboundsAreClosed(Canonical(Desired(cfg, nodes)), false);
    LoadedEffective(Content(env, cfg, nodes));
  }

  /** The content after a selection is the old content with one choice switched. */
  lemma SelectedContent(env: Platform, cfg: RuntimeConfig, next: RuntimeConfig, tag: string, id: string, now: int, nodes: seq<Node>)
    requires Settled(cfg, nodes) && Builds(env, cfg, nodes) && HexPool(nodes) && id in AvailableIds(nodes)
    requires tag in Map(TagOf, cfg.selectors)
    requires next == cfg.(selectors := SetSelected(cfg.selectors, tag, id, now), poolRevision := next.poolRevision)
    ensures BuildSettings(env, next.settings).Some?
    ensures var content := Content(env, cfg, nodes);
            Content(env, next, nodes) == content.(outbounds := Map(Switch(tag, id), content.outbounds))
  {
    SettledSorted(cfg, nodes);
    SelectsEach(cfg.selectors, tag, id, now);
    SelectionCommits(cfg, next, tag, id, now, nodes);
    ReadyTags(nodes, id);
    SettledTags(cfg, nodes);
    PlannedSwitch(nodes, cfg.selectors, tag, id, now);
  }

  lemma ReadyTags(nodes: seq<Node>, id: string)
    requires HexPool(nodes) && id in AvailableIds(nodes)
    ensures NodeTags(nodes) != [] && id != ""
  {
    HexPoolOk(nodes);
    StableTags(nodes);
    AvailableIdsMember(nodes, id);
  }

  lemma SettledTags(cfg: RuntimeConfig, nodes: seq<Node>)
    requires Settled(cfg, nodes)
    ensures forall s :: s in cfg.selectors ==> TrimStable(s.tag)
  {
    forall s | s in cfg.selectors ensures TrimStable(s.tag) {
      CommittedElements(cfg, nodes, s);
    }
  }

  lemma SwitchedChoices(outbounds: seq<Outbound>, live: map<string, string>, tag: string, id: string)
    ensures Map(ChoiceIn(live[tag := id]), outbounds) == Map(Switch(tag, id), Map(ChoiceIn(live), outbounds))
  {
  }

  lemma SwitchedEffective(d: Daemon, tag: string, id: string, content: Blueprint)
    requires Effective(d) == Some(content)
    ensures Effective(d.(live := d.live[tag := id])) == Some(content.(outbounds := Map(Switch(tag, id), content.outbounds)))
  {
    SwitchedChoices(d.loaded.value.outbounds, d.live, tag, id);
  }

  /******* Pools that emit the same nodes *******/

  /** The pools have the same available nodes, with the same outbounds in the same order. */
  ghost predicate SameEmission(a: seq<Node>, b: seq<Node>) {
    NodeOutbounds(a) == NodeOutbounds(b)
  }

  lemma EmittedTags(nodes: seq<Node>)
    requires HexPool(nodes)
    ensures AvailableIds(nodes) == NodeTags(nodes) == Map(TagOfOutbound, NodeOutbounds(nodes))
    ensures forall o :: o in NodeOutbounds(nodes) ==> o.tag != DIRECT
  {
    HexPoolOk(nodes);
    StableTags(nodes);
    MapCompose(EmitNode, TagOfOutbound, NodeTag, Filter(Emitted, nodes));
    AvailableIdsMember(nodes, DIRECT);
    forall o | o in NodeOutbounds(nodes) ensures o.tag != DIRECT {
      MapIn(TagOfOutbound, NodeOutbounds(nodes), o);
    }
  }

  lemma SameSelectors(selectors: seq<Selector>, a: seq<Node>, b: seq<Node>)
    requires HasProxy(selectors) && AvailableIds(a) == AvailableIds(b)
    ensures CanonSelectors(a, Reconciled(selectors, a)) == CanonSelectors(b, Reconciled(selectors, b))
  {
    forall s | s in selectors ensures ReconcileIn(a)(s) == ReconcileIn(b)(s) {
      FilterCongruent(SelectableIn(a), SelectableIn(b), s.nodeIds);
    }
    MapCongruent(ReconcileIn(a), ReconcileIn(b), selectors);
    MapCongruent(CanonSelectorIn(a), CanonSelectorIn(b), Reconciled(selectors, a));
  }

  lemma EmissionContent(env: Platform, cfg: RuntimeConfig, a: seq<Node>, b: seq<Node>)
    requires BuildSettings(env, cfg.settings).Some? && HasProxy(cfg.selectors)
    requires HexPool(a) && HexPool(b) && SameEmission(a, b)
    ensures Content(env, cfg, a) == Content(env, cfg, b)
  {
    EmittedTags(a);
    EmittedTags(b);
    SameSelectors(cfg.selectors, a, b);
  }

  /** What stands before the first `direct` outbound is determined. */
  lemma NodePart(a: seq<Outbound>, b: seq<Outbound>, x: seq<Outbound>, y: seq<Outbound>)
    requires a + [DIRECT_OUTBOUND] + x == b + [DIRECT_OUTBOUND] + y
    requires (forall o :: o in a ==> o.tag != DIRECT) && forall o :: o in b ==> o.tag != DIRECT
    ensures a == b
  {
    var s, t := a + [DIRECT_OUTBOUND] + x, b + [DIRECT_OUTBOUND] + y;
    assert s[|a|].tag == DIRECT && t[|b|].tag == DIRECT;
    assert forall k :: 0 <= k < |a| ==> s[k] == a[k];
    assert forall k :: 0 <= k < |b| ==> t[k] == b[k];
    assert |a| == |b|;
    assert a == s[..|a|] && b == t[..|b|];
  }

  lemma SwitchedNodes(nodes: seq<Node>, selectors: seq<Selector>, tag: string, id: string)
    ensures Map(Switch(tag, id), PlannedOutbounds(nodes, selectors)) ==
            NodeOutbounds(nodes) + [DIRECT_OUTBOUND] + Map(Switch(tag, id), GroupOutbounds(NodeTags(nodes), selectors))
  {
    NodesSwitch(nodes, tag, id);
    MapConcat(Switch(tag, id), NodeOutbounds(nodes) + [DIRECT_OUTBOUND], GroupOutbounds(NodeTags(nodes), selectors));
  }

  /** A configuration prepared with another pool is the old one with a choice switched only if both
      pools emit the same nodes. */
  lemma EmissionNeeded(env: Platform, cfg: RuntimeConfig, next: RuntimeConfig, a: seq<Node>, b: seq<Node>, tag: string, id: string)
    requires BuildSettings(env, cfg.settings).Some? && BuildSettings(env, next.settings).Some? && HexPool(a) && HexPool(b)
    requires Content(env, next, b).outbounds == Map(Switch(tag, id), Content(env, cfg, a).outbounds)
    ensures SameEmission(a, b)
  {
    var m, n := Canonical(Desired(cfg, a)), Canonical(Desired(next, b));
    SwitchedNodes(a, m.selectors, tag, id);
    EmittedTags(a);
    EmittedTags(b);
    NodePart(NodeOutbounds(a), NodeOutbounds(b), Map(Switch(tag, id), GroupOutbounds(NodeTags(a), m.selectors)),
             GroupOutbounds(NodeTags(b), n.selectors));
  }

  /** A successful live selection leaves the daemon doing what `config` says exactly when the pool it
      was prepared with emits the nodes of the pool in use. */
  lemma SelectedFaithful(env: Platform, s: Runtime, nodes: seq<Node>, next: RuntimeConfig, tag: string, id: string, w: World,
                         r: (Runtime, Outcome))
    requires s.daemon.Running() && Effective(s.daemon) == s.config && HexPool(w.pool.nodes)
    requires HexPool(nodes) && Builds(env, s.runtimeConfig, nodes) && Settled(s.runtimeConfig, nodes)
    requires s.config == Some(Content(env, s.runtimeConfig, nodes))
    requires LiveResult(env, s, next, tag, id, w, r) && r.1.Done?
    ensures Effective(r.0.daemon) == r.0.config <==> SameEmission(nodes, w.pool.nodes)
  {
    var content := Content(env, s.runtimeConfig, nodes);
    SwitchedEffective(s.daemon, tag, id, content);
    DoneConfig(s, Committed(next, w.pool.nodes), Content(env, next, w.pool.nodes), tag, id,
               SelectionOf(s.runtimeConfig.selectors, tag), w, r);
    if SameEmission(nodes, w.pool.nodes) {
      SameEmissionSelected(env, s.runtimeConfig, next, tag, id, w, nodes);
    }
    if Content(env, next, w.pool.nodes).outbounds == Map(Switch(tag, id), content.outbounds) {
      EmissionNeeded(env, s.runtimeConfig, next, nodes, w.pool.nodes, tag, id);
    }
  }

  lemma SameEmissionSelected(env: Platform, cfg: RuntimeConfig, next: RuntimeConfig, tag: string, id: string, w: World, nodes: seq<Node>)
    requires HexPool(nodes) && Builds(env, cfg, nodes) && Settled(cfg, nodes) && tag in Map(TagOf, cfg.selectors)
    requires HexPool(w.pool.nodes) && NodeReady(w.pool.nodes, id) && SameEmission(nodes, w.pool.nodes)
    requires next == cfg.(selectors := SetSelected(cfg.selectors, tag, id, w.now), poolRevision := next.poolRevision)
    ensures BuildSettings(env, next.settings).Some?
    ensures var content := Content(env, cfg, nodes);
            Content(env, next, w.pool.nodes) == content.(outbounds := Map(Switch(tag, id), content.outbounds))
  {
    EmittedTags(nodes);
    EmittedTags(w.pool.nodes);
    ReadyIsAvailable(w.pool.nodes, id);
    SelectedContent(env, cfg, next, tag, id, w.now, nodes);
    SettledSelections(cfg, nodes);
    SetSelectedSelects(cfg.selectors, tag, id, w.now);
    ReconciledTags(next.selectors, nodes);
    EmissionContent(env, next, nodes, w.pool.nodes);
  }

  lemma DoneConfig(s: Runtime, next: RuntimeConfig, content: Blueprint, tag: string, id: string, previous: string, w: World,
                   r: (Runtime, Outcome))
    requires s.daemon.Running()
    requires var c := CommitLiveSelector(s, next, content, tag, id, previous, true, w); r == c || r == AsInternal(c)
    requires r.1.Done?
    ensures r.0.daemon == s.daemon.(live := s.daemon.live[tag := id]) && r.0.config == Some(content)
  {
  }

  /******* Live selections *******/

  /** What the pool and the answers must be for a live selection to leave `config` in force: a choice that
      the daemon takes is either saved, with a pool that emits the same nodes, or taken back. */
  ghost predicate KeepsConfig(env: Platform, t: Trace, e: Event) {
    Selecting(e.request) && !t.lost && t.state.daemon.Running() && Moves(env, t.state, e) ==>
      if e.world.saves then t.basis.Some? && SameEmission(t.basis.value.nodes, e.world.pool.nodes)
      else e.world.reverts || SelectedId(e.request) == SelectionOf(t.state.runtimeConfig.selectors, SelectedTag(t.state, e.request))
  }

  /** A pool that emits the same nodes still has every selection. */
  lemma ConfigKeepsChoices(env: Platform, t: Trace, e: Event)
    requires Invariant(env, t) && Possible(e) && KeepsConfig(env, t, e)
    ensures KeepsChoices(env, t, e)
  {
    if Selecting(e.request) && !t.lost && t.state.daemon.Running() && Moves(env, t.state, e) && e.world.saves {
      StillSelectable(t.state.runtimeConfig, t.basis.value.nodes, e.world.pool.nodes);
    }
  }

  lemma StillSelectable(cfg: RuntimeConfig, a: seq<Node>, b: seq<Node>)
    requires Settled(cfg, a) && HexPool(a) && HexPool(b) && SameEmission(a, b)
    ensures forall s :: s in cfg.selectors ==> Selectable(b, s.selected)
  {
    EmittedTags(a);
    EmittedTags(b);
    SettledSelections(cfg, a);
  }

  lemma SelectionFaithful(env: Platform, t: Trace, e: Event, r: (Runtime, Outcome), reaches: bool, tag: string, id: string)
    requires Invariant(env, t) && Faithful(t) && !t.lost && t.state.daemon.Running() && HexPool(e.world.pool.nodes)
    requires LiveWhen(reaches, env, t.state, tag, id, e.world, r) && r.1.Done? && Selecting(e.request)
    ensures Faithful(Extend(t, e, r)) <==> SameEmission(t.basis.value.nodes, e.world.pool.nodes)
  {
    var next :| LiveResult(env, t.state, next, tag, id, e.world, r);
    SelectedFaithful(env, t.state, t.basis.value.nodes, next, tag, id, e.world, r);
    DoneLive(t.state, Committed(next, e.world.pool.nodes), Content(env, next, e.world.pool.nodes), tag, id,
             SelectionOf(t.state.runtimeConfig.selectors, tag), e.world, r);
  }

  /** A stray choice makes the daemon do something else than `config` says. */
  lemma StrayUnfaithful(env: Platform, t: Trace, e: Event, strays: bool, tag: string, id: string, r: (Runtime, Outcome))
    requires Invariant(env, t) && Faithful(t) && !t.lost && t.state.daemon.Running() && Leaves(t.state, strays, tag, id, r)
    requires strays ==> tag in Map(TagOf, t.state.runtimeConfig.selectors) && id != SelectionOf(t.state.runtimeConfig.selectors, tag)
    ensures Faithful(Extend(t, e, r)) <==> !strays
  {
    if strays {
      StrayEffective(env, t.state.daemon, t.state.runtimeConfig, t.basis.value.nodes, tag, id);
    }
  }

  lemma StrayEffective(env: Platform, d: Daemon, cfg: RuntimeConfig, nodes: seq<Node>, tag: string, id: string)
    requires Builds(env, cfg, nodes) && Settled(cfg, nodes) && HexPool(nodes)
    requires Effective(d) == Some(Content(env, cfg, nodes))
    requires tag in Map(TagOf, cfg.selectors) && id != SelectionOf(cfg.selectors, tag)
    ensures Effective(d.(live := d.live[tag := id])) != Effective(d)
  {
    SwitchedEffective(d, tag, id, Content(env, cfg, nodes));
    SwitchedElsewhere(env, cfg, nodes, tag, id);
  }

  lemma SwitchedElsewhere(env: Platform, cfg: RuntimeConfig, nodes: seq<Node>, tag: string, id: string)
    requires Builds(env, cfg, nodes) && Settled(cfg, nodes) && HexPool(nodes)
    requires tag in Map(TagOf, cfg.selectors) && id != SelectionOf(cfg.selectors, tag)
    ensures var outbounds := Content(env, cfg, nodes).outbounds; Map(Switch(tag, id), outbounds) != outbounds
  {
    SettledSorted(cfg, nodes);
    HexPoolOk(nodes);
    NormalizingTwice(Desired(cfg, nodes));
    SelectionFound(cfg.selectors, tag);
    var s :| s in cfg.selectors && s.tag == tag && s.selected == SelectionOf(cfg.selectors, tag);
    var o := SelectorDefault(RuntimeModel(nodes, cfg.selectors, cfg.routes), s);
    SwitchMoves(PlannedOutbounds(nodes, cfg.selectors), o, tag, id);
  }

  lemma SwitchMoves(outbounds: seq<Outbound>, o: Outbound, tag: string, id: string)
    requires o in outbounds && o.tag == tag && o.options.SelectorOptions? && o.options.default != id
    ensures Map(Switch(tag, id), outbounds) != outbounds
  {
    var i :| 0 <= i < |outbounds| && outbounds[i] == o;
    assert Map(Switch(tag, id), outbounds)[i] == Switch(tag, id)(o);
  }

  lemma SelectingFaithful(env: Platform, t: Trace, e: Event)
    requires Invariant(env, t) && InSync(t) && Faithful(t) && Selecting(e.request) && Possible(e)
    requires !t.lost && t.state.daemon.Running()
    ensures Faithful(Next(env, t, e)) <==> KeepsConfig(env, t, e)
  {
    var s, tag, id := t.state, SelectedTag(t.state, e.request), SelectedId(e.request);
    var r := Step(env, s, e.request, e.world);
    SelectionOutcome(env, t, e);
    if r.1.Done? {
      SettledSelections(s.runtimeConfig, t.basis.value.nodes);
      SelectionLive(env, s, e);
      SelectionFaithful(env, t, e, r, Agreement.Reaches(env, s, e), tag, id);
    } else {
      StrayTag(env, t, e);
      StrayUnfaithful(env, t, e, Strays(env, s, e), tag, id, r);
    }
  }

  lemma CommittedConfig(env: Platform, r: (Runtime, Outcome), next: RuntimeConfig, pool: Pool)
    requires CommittedTo(env, r.0, next, pool) && r.0.daemon.Running()
    requires r.0.daemon == Load(Content(env, next, pool.nodes)) && HexPool(pool.nodes)
    ensures Effective(r.0.daemon) == r.0.config
  {
    ContentEffective(env, next, pool.nodes);
  }

  lemma LoadedFaithful(env: Platform, t: Trace, e: Event, r: (Runtime, Outcome), next: RuntimeConfig, pool: Pool)
    requires Invariant(env, t) && Faithful(t) && !Selecting(e.request) && HexPool(pool.nodes)
    requires LoadsOrKeeps(env, t.state, next, pool, r)
    requires r.1.Done? && r.0.daemon.Running() ==> CommittedTo(env, r.0, next, pool)
    requires !r.1.Done? ==> Aborted(t.state, r.0, r.1)
    ensures Faithful(Extend(t, e, r))
  {
    var s := t.state;
    if r.0.daemon.Running() && r.1 != Failed(DataLoss) {
      if r.1.Done? {
        CommittedConfig(env, r, next, pool);
      } else if !t.lost && r.0.daemon != s.daemon {
        ContentEffective(env, s.runtimeConfig, t.basis.value.nodes);
      }
    }
  }

  lemma ActivatingFaithful(env: Platform, t: Trace, e: Event, r: (Runtime, Outcome))
    requires Invariant(env, t) && Faithful(t) && !Selecting(e.request) && Possible(e)
    requires !e.request.Stop? && !e.request.Crash? && r == Step(env, t.state, e.request, e.world)
    ensures Faithful(Extend(t, e, r))
  {
    StepLoads(env, t.state, e);
    StepCommits(env, t.state, e);
    LoadedFaithful(env, t, e, r, Target(env, t.state, e), BuildPool(e));
  }

  lemma StoppingFaithful(env: Platform, t: Trace, e: Event, r: (Runtime, Outcome))
    requires Faithful(t) && Aborted(t.state, r.0, r.1) && (r.1.Done? ==> !r.0.daemon.Running())
    requires r.0.daemon.Running() ==> r.0.daemon == t.state.daemon
    ensures Faithful(Extend(t, e, r))
  {
  }

  lemma StopFaithful(env: Platform, t: Trace, e: Event)
    requires Invariant(env, t) && Faithful(t) && e.request.Stop?
    ensures Faithful(Next(env, t, e))
  {
    var r := DoStop(t.state, e.world);
    StopAborts(t.state, e.world);
    StopKeeps(t.state, e.world);
    StoppingFaithful(env, t, e, r);
    StopStep(env, t.state, e.world);
  }

  lemma StopKeeps(s: Runtime, w: World)
    ensures DoStop(s, w).0.daemon.Running() ==> DoStop(s, w).0.daemon == s.daemon
  {
  }

  lemma StopStep(env: Platform, s: Runtime, w: World)
    ensures Step(env, s, Stop, w) == DoStop(s, w)
  {
  }

  lemma CrashFaithful(env: Platform, t: Trace, e: Event)
    requires Invariant(env, t) && Faithful(t) && e.request.Crash?
    ensures Faithful(Next(env, t, e))
  {
    CrashAborts(t.state);
    StoppingFaithful(env, t, e, DoCrash(t.state));
    CrashStep(env, t.state, e.world);
  }

  /** Every request keeps the daemon doing what `config` says, except a live selection outside that
      condition. */
  lemma StepFaithful(env: Platform, t: Trace, e: Event)
    requires Invariant(env, t) && InSync(t) && Faithful(t) && Possible(e)
    ensures Faithful(Next(env, t, e)) <==> KeepsConfig(env, t, e)
  {
    if e.request.Stop? {
      StopFaithful(env, t, e);
    } else if e.request.Crash? {
      CrashFaithful(env, t, e);
    } else if !Selecting(e.request) {
      ActivatingFaithful(env, t, e, Step(env, t.state, e.request, e.world));
    } else {
      SelectionKeepsStatus(env, t.state, e);
      if !t.lost && t.state.daemon.Running() {
        SelectingFaithful(env, t, e);
      }
    }
  }

  ghost predicate ConfigRun(env: Platform, t: Trace, events: seq<Event>) {
    events == [] ||
    (ConfigRun(env, t, events[..|events| - 1]) && KeepsConfig(env, Run(env, t, events[..|events| - 1]), events[|events| - 1]))
  }

  ghost predicate FaithfulThroughout(env: Platform, t: Trace, events: seq<Event>) {
    Faithful(t) && (events == [] || (FaithfulThroughout(env, t, events[..|events| - 1]) && Faithful(Run(env, t, events))))
  }

  /** Throughout a run, until data loss is reported, a started daemon does what `config` says: exactly
      when every live selection of the run keeps the condition. */
  lemma {:induction false} RunFaithful(env: Platform, t: Trace, events: seq<Event>)
    requires Invariant(env, t) && InSync(t) && Faithful(t) && forall e :: e in events ==> Possible(e)
    ensures FaithfulThroughout(env, t, events) <==> ConfigRun(env, t, events)
    ensures ConfigRun(env, t, events) ==> Faithful(Run(env, t, events)) && InSync(Run(env, t, events))
  {
    if events != [] {
      var init, last := events[..|events| - 1], events[|events| - 1];
      RunSafe(env, t, init);
      RunFaithful(env, t, init);
      if ConfigRun(env, t, init) {
        StepFaithful(env, Run(env, t, init), last);
        if KeepsConfig(env, Run(env, t, init), last) {
          ConfigKeepsChoices(env, Run(env, t, init), last);
          StepInSync(env, Run(env, t, init), last);
        }
      }
    }
  }
}
