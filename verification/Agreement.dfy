/** Agreement of the daemon's running choices with the committed configuration, over runs with live
    selections, failed saves and rollbacks. */
module Agreement {
  import opened Wrappers
  import opened Text
  import opened Sequences
  import opened RuntimeModel
  import opened Validation
  import opened Planner
  import opened RuntimeConfig
  import opened Commitments
  import opened Edits
  import opened Effects
  import opened Selections
  import opened Protocol
  import opened Runs

  /** Every running choice is offered by its selector. */
  ghost predicate ChoicesOffered(d: Daemon) {
    forall tag :: tag in d.live ==> d.Accepts(tag, d.live[tag])
  }

  /** Until data loss is reported, the running choices are the committed selections. */
  ghost predicate InSync(t: Trace) {
    !t.lost && t.state.daemon.Running() ==>
      Agrees(t.state.daemon.live, t.state.runtimeConfig.selectors) && ChoicesOffered(t.state.daemon)
  }

  lemma LoadedInSync(env: Platform, cfg: RuntimeConfig, nodes: seq<Node>)
    requires Builds(env, cfg, nodes) && HexPool(nodes)
    ensures var d := Load(Content(env, cfg, nodes));
            Agrees(d.live, Committed(cfg, nodes).selectors) && ChoicesOffered(d)
  {
    ContentAgrees(env, cfg, nodes);
  }

  /** Where a daemon that still runs after a request got its choices. */
  ghost predicate LoadsOrKeeps(env: Platform, s: Runtime, next: RuntimeConfig, pool: Pool, r: (Runtime, Outcome)) {
    r.0.daemon.Running() && r.1 != Failed(DataLoss) ==>
      if r.1.Done? then Builds(env, next, pool.nodes) && r.0.daemon == Load(Content(env, next, pool.nodes))
                        && r.0.runtimeConfig == Committed(next, pool.nodes)
      else r.0.runtimeConfig == s.runtimeConfig && s.daemon.Running()
           && (r.0.daemon == s.daemon || (s.config.Some? && r.0.daemon == Load(s.config.value)))
  }

  lemma SnapshotLoads(s: Runtime, next: RuntimeConfig, content: Blueprint, activate: bool, w: World)
    requires s.daemon.Running() ==> activate
    ensures var r := ApplySnapshot(s, next, content, activate, s.daemon.Running(), w);
            r.0.daemon.Running() && r.1 != Failed(DataLoss) ==>
              if r.1.Done? then r.0.daemon == Load(content) && r.0.runtimeConfig == next
              else r.0.runtimeConfig == s.runtimeConfig && s.daemon.Running()
                   && (r.0.daemon == s.daemon || (s.config.Some? && r.0.daemon == Load(s.config.value)))
  {
  }

  lemma ApplyDesiredLoads(env: Platform, s: Runtime, edited: RuntimeConfig, pool: Pool, w: World)
    ensures LoadsOrKeeps(env, s, edited.(poolRevision := pool.revision), pool, ApplyDesired(env, s, edited, pool, w))
  {
    var next := edited.(poolRevision := pool.revision);
    if Builds(env, next, pool.nodes) {
      SnapshotLoads(s, Committed(next, pool.nodes), Content(env, next, pool.nodes), s.daemon.Running(), w);
    }
  }

  lemma ActivateSavedLoads(env: Platform, s: Runtime, w: World)
    ensures LoadsOrKeeps(env, s, s.runtimeConfig.(poolRevision := w.pool.revision), w.pool,
                         ActivateSaved(env, s, s.daemon.Running(), w))
  {
    var next := s.runtimeConfig.(poolRevision := w.pool.revision);
    if Builds(env, next, w.pool.nodes) {
      SnapshotLoads(s, Committed(next, w.pool.nodes), Content(env, next, w.pool.nodes), true, w.(cancelled := false));
    }
  }

  lemma KeptLoads(env: Platform, s: Runtime, next: RuntimeConfig, pool: Pool, code: Code)
    ensures LoadsOrKeeps(env, s, next, pool, (s, Failed(code)))
  {
  }

  lemma StartLoads(env: Platform, s: Runtime, w: World)
    ensures LoadsOrKeeps(env, s, s.runtimeConfig.(poolRevision := w.pool.revision), w.pool, DoStart(env, s, w))
  {
    var next := s.runtimeConfig.(poolRevision := w.pool.revision);
    if !w.statusRead {
      KeptLoads(env, s, next, w.pool, Unavailable);
    } else if s.daemon.Running() || s.daemon.status.Starting? {
      KeptLoads(env, s, next, w.pool, FailedPrecondition);
    } else {
      ActivateSavedLoads(env, s, w);
    }
  }

  lemma RestartLoads(env: Platform, s: Runtime, w: World)
    ensures LoadsOrKeeps(env, s, s.runtimeConfig.(poolRevision := w.pool.revision), w.pool, DoRestart(env, s, w))
  {
    if w.statusRead {
      ActivateSavedLoads(env, s, w);
    } else {
      KeptLoads(env, s, s.runtimeConfig.(poolRevision := w.pool.revision), w.pool, Unavailable);
    }
  }

  lemma UpdateLoads(env: Platform, s: Runtime, settings: RuntimeSettings, w: World)
    ensures LoadsOrKeeps(env, s, s.runtimeConfig.(settings := CanonicalSettings(env, settings)).(poolRevision := w.pool.revision),
                         w.pool, DoUpdate(env, s, Some(settings), w))
  {
    ApplyDesiredLoads(env, s, s.runtimeConfig.(settings := CanonicalSettings(env, settings)), w.pool, w);
  }

  lemma UpsertLoads(env: Platform, s: Runtime, req: UpsertRequest, w: World)
    ensures LoadsOrKeeps(env, s, UpsertEdit(s.runtimeConfig, req, w.pool.nodes, w.now).(poolRevision := w.laterPool.revision),
                         w.laterPool, DoUpsert(env, s, req, w))
  {
    var edited := UpsertEdit(s.runtimeConfig, req, w.pool.nodes, w.now);
    if Blank(req.serviceId) || req.domains == [] {
      KeptLoads(env, s, edited.(poolRevision := w.laterPool.revision), w.laterPool, InvalidArgument);
    } else if !NodeReady(w.pool.nodes, req.nodeId) {
      KeptLoads(env, s, edited.(poolRevision := w.laterPool.revision), w.laterPool, NotFound);
    } else {
      ApplyDesiredLoads(env, s, edited, w.laterPool, w);
    }
  }

  lemma DeleteLoads(env: Platform, s: Runtime, id: string, w: World)
    requires FindRoute(s.runtimeConfig.routes, id) < |s.runtimeConfig.routes|
    ensures LoadsOrKeeps(env, s, DeleteEdit(s.runtimeConfig, id).(poolRevision := w.pool.revision), w.pool, DoDelete(env, s, id, w))
  {
    if Blank(id) {
      KeptLoads(env, s, DeleteEdit(s.runtimeConfig, id).(poolRevision := w.pool.revision), w.pool, InvalidArgument);
    } else {
      ApplyDesiredLoads(env, s, DeleteEdit(s.runtimeConfig, id), w.pool, w);
    }
  }

  /** Requests that do not select a node load a configuration or keep the daemon as it is. */
  lemma StepLoads(env: Platform, s: Runtime, e: Event)
    requires !Selecting(e.request)
    ensures LoadsOrKeeps(env, s, Target(env, s, e), BuildPool(e), Step(env, s, e.request, e.world))
  {
    var w := e.world;
    if e.request.Start? {
      StartLoads(env, s, w);
    } else if e.request.Restart? {
      RestartLoads(env, s, w);
    } else if e.request.Upsert? {
      UpsertLoads(env, s, e.request.req, w);
    } else if e.request.UpdateConfig? {
      if e.request.settings.Some? {
        UpdateLoads(env, s, e.request.settings.value, w);
      }
    } else if e.request.Delete? {
      if FindRoute(s.runtimeConfig.routes, e.request.serviceId) < |s.runtimeConfig.routes| {
        DeleteLoads(env, s, e.request.serviceId, w);
      }
    }
  }

  /******* Requests that load *******/

  lemma LoadedStaysInSync(env: Platform, t: Trace, e: Event, r: (Runtime, Outcome), next: RuntimeConfig, pool: Pool)
    requires Invariant(env, t) && InSync(t) && !Selecting(e.request)
    requires LoadsOrKeeps(env, t.state, next, pool, r) && HexPool(pool.nodes)
    ensures InSync(Extend(t, e, r))
  {
    var s := t.state;
    if r.0.daemon.Running() && r.1 != Failed(DataLoss) {
      if r.1.Done? {
        LoadedInSync(env, next, pool.nodes);
      } else if !t.lost && r.0.daemon != s.daemon {
        LoadedInSync(env, s.runtimeConfig, t.basis.value.nodes);
      }
    }
  }

  /******* Requests that select *******/

  /** The selector that a selection is about. */
  function SelectedTag(s: Runtime, request: Request): string {
    if request.SelectRouteNode? then ServiceTag(s.runtimeConfig.routes, request.serviceId) else PROXY
  }

  function ServiceTag(routes: seq<ServiceRoute>, service: string): string {
    var i := FindRoute(routes, service);
    if i < |routes| then routes[i].selector else ""
  }

  function SelectedId(request: Request): string
    requires Selecting(request)
  {
    request.nodeId
  }

  /** The result `r` of a selection on a running daemon that was not refused before it began. */
  ghost predicate LiveResult(env: Platform, s: Runtime, next: RuntimeConfig, tag: string, id: string, w: World, r: (Runtime, Outcome)) {
    && NodeReady(w.pool.nodes, id) && Builds(env, next, w.pool.nodes)
    && next == s.runtimeConfig.(selectors := SetSelected(s.runtimeConfig.selectors, tag, id, w.now), poolRevision := next.poolRevision)
    && tag in Map(TagOf, s.runtimeConfig.selectors)
    && var c := CommitLiveSelector(s, Committed(next, w.pool.nodes), Content(env, next, w.pool.nodes), tag, id,
                                   SelectionOf(s.runtimeConfig.selectors, tag), true, w);
       (r == c || r == AsInternal(c))
  }

  ghost predicate Refused(s: Runtime, r: (Runtime, Outcome)) {
    r.0 == s && r.1.Failed? && r.1 != Failed(DataLoss)
  }

  /** A prepared selection gets as far as the daemon: it builds, encodes, and the daemon has settled. */
  ghost predicate Passes(env: Platform, s: Runtime, next: RuntimeConfig, w: World) {
    Builds(env, next, w.pool.nodes) && w.encodes && Settles(s, w)
  }

  ghost predicate NodeReaches(env: Platform, s: Runtime, id: string, w: World) {
    && id != "" && NodeReady(w.pool.nodes, id)
    && Passes(env, s, SelectEdit(s.runtimeConfig.(poolRevision := w.pool.revision), id, w.now), w)
  }

  ghost predicate RouteReaches(env: Platform, s: Runtime, service: string, id: string, w: World) {
    var tag := RouteToSelect(s.runtimeConfig, w.pool.nodes, service, id);
    tag.Success? && Passes(env, s, SelectRouteEdit(s.runtimeConfig, tag.value, id, w.now), w)
  }

  /** The request's own guards let the selection through to the daemon. */
  ghost predicate Reaches(env: Platform, s: Runtime, e: Event)
    requires Selecting(e.request)
  {
    match e.request
    case SelectNode(id) => NodeReaches(env, s, id, e.world)
    case SelectRouteNode(service, id) => RouteReaches(env, s, service, id, e.world)
  }

  /** A selection that reaches the daemon takes the live protocol, and any other is refused. */
  ghost predicate LiveWhen(reaches: bool, env: Platform, s: Runtime, tag: string, id: string, w: World, r: (Runtime, Outcome)) {
    if reaches then exists next :: LiveResult(env, s, next, tag, id, w, r) else Refused(s, r)
  }

  lemma CommitSelectionLive(env: Platform, s: Runtime, next: RuntimeConfig, tag: string, id: string, w: World)
    requires s.daemon.Running() && NodeReady(w.pool.nodes, id) && tag in Map(TagOf, s.runtimeConfig.selectors)
    requires next == s.runtimeConfig.(selectors := SetSelected(s.runtimeConfig.selectors, tag, id, w.now), poolRevision := next.poolRevision)
    ensures var r := CommitSelection(env, s, next, tag, id, w);
            if Passes(env, s, next, w) then LiveResult(env, s, next, tag, id, w, r) else Refused(s, r)
  {
  }

  lemma SelectNodeLive(env: Platform, s: Runtime, id: string, w: World)
    requires s.daemon.Running() && PROXY in Map(TagOf, s.runtimeConfig.selectors)
    ensures LiveWhen(NodeReaches(env, s, id, w), env, s, PROXY, id, w, DoSelectNode(env, s, id, w))
  {
    var next := SelectEdit(s.runtimeConfig.(poolRevision := w.pool.revision), id, w.now);
    SelectorFound(s.runtimeConfig.selectors, PROXY);
    if id != "" && NodeReady(w.pool.nodes, id) {
      CommitSelectionLive(env, s, next, PROXY, id, w);
      AsInternalLive(env, s, next, PROXY, id, w, CommitSelection(env, s, next, PROXY, id, w));
    }
  }

  lemma AsInternalLive(env: Platform, s: Runtime, next: RuntimeConfig, tag: string, id: string, w: World, r: (Runtime, Outcome))
    requires if Passes(env, s, next, w) then LiveResult(env, s, next, tag, id, w, r) else Refused(s, r)
    ensures LiveWhen(Passes(env, s, next, w), env, s, tag, id, w, AsInternal(r))
  {
    if Passes(env, s, next, w) {
      InternalOnce(CommitLiveSelector(s, Committed(next, w.pool.nodes), Content(env, next, w.pool.nodes), tag, id,
                                      SelectionOf(s.runtimeConfig.selectors, tag), true, w));
      assert LiveResult(env, s, next, tag, id, w, AsInternal(r));
    }
  }

  lemma InternalOnce(r: (Runtime, Outcome))
    ensures AsInternal(AsInternal(r)) == AsInternal(r)
  {
  }

  lemma SelectRouteLive(env: Platform, s: Runtime, service: string, id: string, w: World)
    requires s.daemon.Running()
    ensures LiveWhen(RouteReaches(env, s, service, id, w), env, s, ServiceTag(s.runtimeConfig.routes, service), id, w,
                     DoSelectRouteNode(env, s, service, id, w))
  {
    var tag := RouteToSelect(s.runtimeConfig, w.pool.nodes, service, id);
    if tag.Success? {
      SelectorFound(s.runtimeConfig.selectors, tag.value);
      CommitSelectionLive(env, s, SelectRouteEdit(s.runtimeConfig, tag.value, id, w.now), tag.value, id, w);
    }
  }

  lemma SelectionLiveNode(env: Platform, s: Runtime, id: string, w: World)
    requires s.daemon.Running() && PROXY in Map(TagOf, s.runtimeConfig.selectors)
    ensures LiveWhen(NodeReaches(env, s, id, w), env, s, PROXY, id, w, Step(env, s, SelectNode(id), w))
  {
    SelectNodeLive(env, s, id, w);
  }

  lemma SelectionLiveService(env: Platform, s: Runtime, service: string, id: string, w: World)
    requires s.daemon.Running()
    ensures LiveWhen(RouteReaches(env, s, service, id, w), env, s, ServiceTag(s.runtimeConfig.routes, service), id, w,
                     Step(env, s, SelectRouteNode(service, id), w))
  {
    SelectRouteLive(env, s, service, id, w);
  }

  /** A selection on a running daemon takes the live protocol exactly when its guards let it. */
  lemma SelectionLive(env: Platform, s: Runtime, e: Event)
    requires Selecting(e.request) && s.daemon.Running() && PROXY in Map(TagOf, s.runtimeConfig.selectors)
    ensures LiveWhen(Reaches(env, s, e), env, s, SelectedTag(s, e.request), SelectedId(e.request), e.world,
                     Step(env, s, e.request, e.world))
  {
    match e.request {
      case SelectNode(id) => SelectionLiveNode(env, s, id, e.world);
      case SelectRouteNode(service, id) => SelectionLiveService(env, s, service, id, e.world);
    }
  }

  /******* What the running daemon knows *******/

  lemma SettledSelections(cfg: RuntimeConfig, nodes: seq<Node>)
    requires Settled(cfg, nodes)
    ensures PROXY in Map(TagOf, cfg.selectors) && NoDup(Map(TagOf, cfg.selectors)) && HasProxy(cfg.selectors)
    ensures forall s :: s in cfg.selectors ==> s.selected != "" && Selectable(nodes, s.selected)
  {
    CommittedHasProxy(cfg, nodes);
    ReconciledTags(cfg.selectors, nodes);
    forall s | s in cfg.selectors ensures s.selected != "" && Selectable(nodes, s.selected) {
      CommittedElements(cfg, nodes, s);
    }
  }

  lemma SelectionFound(selectors: seq<Selector>, tag: string)
    requires tag in Map(TagOf, selectors)
    ensures exists s :: s in selectors && s.tag == tag && s.selected == SelectionOf(selectors, tag)
  {
    SelectorFound(selectors, tag);
    assert selectors[FindSelector(selectors, tag)] in selectors;
  }

  /** In every safe running state the choice a failed save has to restore is known, and the daemon
      still offers it: the guard against an empty previous selection never skips the revert. */
  lemma PreviousKnown(env: Platform, t: Trace, tag: string)
    requires Invariant(env, t) && InSync(t) && !t.lost && t.state.daemon.Running()
    requires tag in Map(TagOf, t.state.runtimeConfig.selectors)
    ensures var previous := SelectionOf(t.state.runtimeConfig.selectors, tag);
            && previous != "" && tag in t.state.daemon.live && t.state.daemon.live[tag] == previous
            && t.state.daemon.Accepts(tag, previous)
  {
    SettledSelections(t.state.runtimeConfig, t.basis.value.nodes);
    SelectionFound(t.state.runtimeConfig.selectors, tag);
  }

  /** The daemon takes the choice. */
  ghost predicate Moves(env: Platform, s: Runtime, e: Event)
    requires Selecting(e.request)
  {
    Reaches(env, s, e) && e.world.selects && s.daemon.Accepts(SelectedTag(s, e.request), SelectedId(e.request))
  }

  /** The daemon takes a new choice that is neither saved nor taken back. */
  ghost predicate Strays(env: Platform, s: Runtime, e: Event)
    requires Selecting(e.request)
  {
    && Moves(env, s, e) && SelectedId(e.request) != SelectionOf(s.runtimeConfig.selectors, SelectedTag(s, e.request))
    && !e.world.saves && !e.world.reverts
  }

  /** The live protocol when the previous choice is known: it is done exactly when the daemon takes the
      choice and the save succeeds; otherwise it leaves a trace exactly when the choice strays. */
  lemma LiveOutcome(s: Runtime, next: RuntimeConfig, content: Blueprint, tag: string, id: string, previous: string, w: World,
                    r: (Runtime, Outcome))
    requires s.daemon.Running() && previous != "" && tag in s.daemon.live && s.daemon.live[tag] == previous
    requires s.daemon.Accepts(tag, previous)
    requires var c := CommitLiveSelector(s, next, content, tag, id, previous, true, w); r == c || r == AsInternal(c)
    ensures r.1.Done? <==> w.selects && s.daemon.Accepts(tag, id) && w.saves
    ensures r.1.Failed? ==>
              r.0 == if w.selects && s.daemon.Accepts(tag, id) && id != previous && !w.reverts
                     then s.(daemon := s.daemon.(live := s.daemon.live[tag := id])) else s
  {
    var moved := s.daemon.live[tag := id];
    assert moved[tag := previous] == s.daemon.live;
    if id == previous {
      assert moved == s.daemon.live;
    }
  }

  /** Only the choice of `tag` changed, and only if it strayed. */
  ghost predicate Leaves(s: Runtime, strays: bool, tag: string, id: string, r: (Runtime, Outcome)) {
    && r.1.Failed? && r.1 != Failed(DataLoss)
    && r.0 == if strays then s.(daemon := s.daemon.(live := s.daemon.live[tag := id])) else s
  }

  lemma LiveLeaves(env: Platform, t: Trace, next: RuntimeConfig, tag: string, id: string, w: World, r: (Runtime, Outcome))
    requires Invariant(env, t) && InSync(t) && !t.lost && t.state.daemon.Running()
    requires LiveResult(env, t.state, next, tag, id, w, r)
    ensures var s := t.state;
            var moves := w.selects && s.daemon.Accepts(tag, id);
            if moves && w.saves then r.1.Done?
            else Leaves(s, moves && id != SelectionOf(s.runtimeConfig.selectors, tag) && !w.saves && !w.reverts, tag, id, r)
  {
    PreviousKnown(env, t, tag);
    LiveOutcome(t.state, Committed(next, w.pool.nodes), Content(env, next, w.pool.nodes), tag, id,
                SelectionOf(t.state.runtimeConfig.selectors, tag), w, r);
  }

  lemma OutcomeWhen(env: Platform, t: Trace, reaches: bool, tag: string, id: string, w: World, r: (Runtime, Outcome))
    requires Invariant(env, t) && InSync(t) && !t.lost && t.state.daemon.Running()
    requires LiveWhen(reaches, env, t.state, tag, id, w, r)
    ensures var s := t.state;
            var moves := reaches && w.selects && s.daemon.Accepts(tag, id);
            if moves && w.saves then r.1.Done?
            else Leaves(s, moves && id != SelectionOf(s.runtimeConfig.selectors, tag) && !w.saves && !w.reverts, tag, id, r)
  {
    if reaches {
      var next :| LiveResult(env, t.state, next, tag, id, w, r);
      LiveLeaves(env, t, next, tag, id, w, r);
    }
  }

  /** When a live selection succeeds, and that a failed one leaves nothing behind unless it strays. */
  lemma SelectionOutcome(env: Platform, t: Trace, e: Event)
    requires Invariant(env, t) && InSync(t) && !t.lost && t.state.daemon.Running() && Selecting(e.request)
    ensures var s, r := t.state, Step(env, t.state, e.request, e.world);
            if Moves(env, s, e) && e.world.saves then r.1.Done?
            else Leaves(s, Strays(env, s, e), SelectedTag(s, e.request), SelectedId(e.request), r)
  {
    SettledSelections(t.state.runtimeConfig, t.basis.value.nodes);
    SelectionLive(env, t.state, e);
    OutcomeWhen(env, t, Reaches(env, t.state, e), SelectedTag(t.state, e.request), SelectedId(e.request), e.world,
                Step(env, t.state, e.request, e.world));
  }

  /** A failed live selection costs the agreement exactly when the daemon took a new choice that was
      neither saved nor taken back. */
  lemma FailedSelection(env: Platform, t: Trace, e: Event)
    requires Invariant(env, t) && InSync(t) && !t.lost && t.state.daemon.Running() && Selecting(e.request)
    requires Step(env, t.state, e.request, e.world).1.Failed?
    ensures InSync(Next(env, t, e)) <==> !Strays(env, t.state, e)
  {
    SelectionOutcome(env, t, e);
    StrayTag(env, t, e);
    Left(t, e, Strays(env, t.state, e), SelectedTag(t.state, e.request), SelectedId(e.request), Step(env, t.state, e.request, e.world));
  }

  lemma Left(t: Trace, e: Event, strays: bool, tag: string, id: string, r: (Runtime, Outcome))
    requires InSync(t) && !t.lost && t.state.daemon.Running() && Leaves(t.state, strays, tag, id, r)
    requires strays ==> tag in Map(TagOf, t.state.runtimeConfig.selectors) && id != SelectionOf(t.state.runtimeConfig.selectors, tag)
    ensures InSync(Extend(t, e, r)) <==> !strays
  {
    if strays {
      MovedDisagrees(t.state, tag, id);
    }
  }

  lemma StrayTag(env: Platform, t: Trace, e: Event)
    requires Invariant(env, t) && !t.lost && t.state.daemon.Running() && Selecting(e.request)
    ensures Strays(env, t.state, e) ==> SelectedTag(t.state, e.request) in Map(TagOf, t.state.runtimeConfig.selectors)
  {
    SettledSelections(t.state.runtimeConfig, t.basis.value.nodes);
    SelectionLive(env, t.state, e);
  }

  lemma MovedDisagrees(s: Runtime, tag: string, id: string)
    requires tag in Map(TagOf, s.runtimeConfig.selectors)
    ensures id != SelectionOf(s.runtimeConfig.selectors, tag) ==> !Agrees(s.daemon.live[tag := id], s.runtimeConfig.selectors)
  {
    SelectionFound(s.runtimeConfig.selectors, tag);
  }

  lemma DoneLive(s: Runtime, next: RuntimeConfig, content: Blueprint, tag: string, id: string, previous: string, w: World,
                 r: (Runtime, Outcome))
    requires s.daemon.Running()
    requires var c := CommitLiveSelector(s, next, content, tag, id, previous, true, w); r == c || r == AsInternal(c)
    requires r.1.Done?
    ensures r.0.daemon == s.daemon.(live := s.daemon.live[tag := id]) && s.daemon.Accepts(tag, id)
    ensures r.0.runtimeConfig == next
  {
  }

  lemma ChoicesStayOffered(d: Daemon, tag: string, id: string)
    requires ChoicesOffered(d) && d.Accepts(tag, id)
    ensures ChoicesOffered(d.(live := d.live[tag := id]))
  {
  }

  /** A successful live selection keeps the agreement exactly when the pool it was prepared with still
      has every other committed selection. */
  lemma SuccessfulSelection(env: Platform, t: Trace, e: Event)
    requires Invariant(env, t) && InSync(t) && !t.lost && t.state.daemon.Running() && Selecting(e.request)
    requires Step(env, t.state, e.request, e.world).1.Done?
    ensures InSync(Next(env, t, e)) <==>
            OthersSelectable(t.state.runtimeConfig.selectors, SelectedTag(t.state, e.request), e.world.pool.nodes)
  {
    var s, tag, id := t.state, SelectedTag(t.state, e.request), SelectedId(e.request);
    var r := Step(env, s, e.request, e.world);
    SettledSelections(s.runtimeConfig, t.basis.value.nodes);
    SelectionLive(env, s, e);
    var next :| LiveResult(env, s, next, tag, id, e.world, r);
    SelectedLive(env, s, next, tag, id, e.world, r);
  }

  lemma SelectedLive(env: Platform, s: Runtime, next: RuntimeConfig, tag: string, id: string, w: World, r: (Runtime, Outcome))
    requires s.daemon.Running() && Agrees(s.daemon.live, s.runtimeConfig.selectors) && ChoicesOffered(s.daemon)
    requires HasProxy(s.runtimeConfig.selectors) && NoDup(Map(TagOf, s.runtimeConfig.selectors))
    requires LiveResult(env, s, next, tag, id, w, r) && r.1.Done?
    ensures r.0.daemon.Running() && ChoicesOffered(r.0.daemon)
    ensures Agrees(r.0.daemon.live, r.0.runtimeConfig.selectors) <==> OthersSelectable(s.runtimeConfig.selectors, tag, w.pool.nodes)
  {
    var selectors, nodes := s.runtimeConfig.selectors, w.pool.nodes;
    DoneLive(s, Committed(next, nodes), Content(env, next, nodes), tag, id, SelectionOf(selectors, tag), w, r);
    ChoicesStayOffered(s.daemon, tag, id);
    ReadyIsAvailable(nodes, id);
    SetSelectedSelects(selectors, tag, id, w.now);
    ReconciledTags(selectors, nodes);
    ReconciledTags(next.selectors, nodes);
    LiveSelection(s.daemon.live, s.runtimeConfig, next, tag, id, nodes);
  }

  /******* Runs *******/

  /** What the pool and the answers must be for a live selection not to cost the agreement: a choice
      that the daemon takes is either saved, with every other selection still possible, or taken back. */
  ghost predicate KeepsChoices(env: Platform, t: Trace, e: Event) {
    Selecting(e.request) && !t.lost && t.state.daemon.Running() && Moves(env, t.state, e) ==>
      var selectors, tag := t.state.runtimeConfig.selectors, SelectedTag(t.state, e.request);
      if e.world.saves then OthersSelectable(selectors, tag, e.world.pool.nodes)
      else e.world.reverts || SelectedId(e.request) == SelectionOf(selectors, tag)
  }

  ghost predicate ChoicesRun(env: Platform, t: Trace, events: seq<Event>) {
    events == [] ||
    (ChoicesRun(env, t, events[..|events| - 1]) && KeepsChoices(env, Run(env, t, events[..|events| - 1]), events[|events| - 1]))
  }

  lemma SelectingInSync(env: Platform, t: Trace, e: Event)
    requires Invariant(env, t) && InSync(t) && Selecting(e.request)
    requires !t.lost && t.state.daemon.Running()
    ensures InSync(Next(env, t, e)) <==> KeepsChoices(env, t, e)
  {
    SelectionOutcome(env, t, e);
    if Step(env, t.state, e.request, e.world).1.Done? {
      SuccessfulSelection(env, t, e);
    } else {
      FailedSelection(env, t, e);
    }
  }

  /** A selection never starts the daemon. */
  lemma SelectionKeepsStatus(env: Platform, s: Runtime, e: Event)
    requires Selecting(e.request)
    ensures var r := Step(env, s, e.request, e.world);
            r.0.daemon.status == s.daemon.status && r.1 != Failed(DataLoss)
  {
  }

  /** Every request keeps the agreement, except a live selection outside that condition. */
  lemma StepInSync(env: Platform, t: Trace, e: Event)
    requires Invariant(env, t) && InSync(t) && Possible(e)
    ensures InSync(Next(env, t, e)) <==> KeepsChoices(env, t, e)
  {
    if !Selecting(e.request) {
      StepLoads(env, t.state, e);
      LoadedStaysInSync(env, t, e, Step(env, t.state, e.request, e.world), Target(env, t.state, e), BuildPool(e));
    } else {
      SelectionKeepsStatus(env, t.state, e);
      if !t.lost && t.state.daemon.Running() {
        SelectingInSync(env, t, e);
      }
    }
  }

  ghost predicate InSyncThroughout(env: Platform, t: Trace, events: seq<Event>) {
    InSync(t) && (events == [] || (InSyncThroughout(env, t, events[..|events| - 1]) && InSync(Run(env, t, events))))
  }

  /** Throughout a run, until data loss is reported, the choice of every selector of a started daemon
      is the committed selection: exactly when every live selection of the run keeps the condition. */
  lemma {:induction false} RunInSync(env: Platform, t: Trace, events: seq<Event>)
    requires Invariant(env, t) && InSync(t) && forall e :: e in events ==> Possible(e)
    ensures InSyncThroughout(env, t, events) <==> ChoicesRun(env, t, events)
    ensures ChoicesRun(env, t, events) ==> InSync(Run(env, t, events))
  {
    if events != [] {
      var init := events[..|events| - 1];
      RunSafe(env, t, init);
      RunInSync(env, t, init);
      if InSync(Run(env, t, init)) {
        StepInSync(env, Run(env, t, init), events[|events| - 1]);
      }
    }
  }
}
