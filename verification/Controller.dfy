/** The manager: the object whose methods carry out each request step by step. Every method is proved
    to make exactly the step that `Protocol` describes, so what `Runs` and `Agreement` prove of those
    steps holds of every sequence of calls. */
module Controller {
  import opened Wrappers
  import opened Text
  import opened Sequences
  import opened RuntimeModel
  import opened Validation
  import opened Planner
  import opened RuntimeConfig
  import opened Selections
  import opened Protocol
  import opened Runs

  /******* Edits of the cloned configuration *******/

  /** `UpsertRoute` on the clone: find or append the selector and the route, then overwrite them. */
  method EditUpsert(cfg: RuntimeConfig, req: UpsertRequest, nodes: seq<Node>, now: int) returns (next: RuntimeConfig)
    ensures next == UpsertEdit(cfg, req, nodes, now)
  {
    var selectors, routes := cfg.selectors, cfg.routes;
    var i := FindRoute(routes, req.serviceId);
    var tag := RouteTag(req.serviceId);
    if i < |routes| {
      tag := routes[i].selector;
    }
    var j := FindSelector(selectors, tag);
    if j == |selectors| {
      selectors := selectors + [Selector(tag, [], "", 0)];
    }
    selectors := selectors[j := selectors[j].(nodeIds := AvailableIds(nodes) + [DIRECT], selected := req.nodeId, selectedAt := now)];
    if i == |routes| {
      routes := routes + [ServiceRoute(req.serviceId, "", [], tag, false)];
    }
    routes := routes[i := routes[i].(domains := req.domains, enabled := req.enabled, displayName := req.displayName)];
    next := cfg.(selectors := selectors, routes := routes);
    assert WithTag(tag)(selectors[j]) && WithService(req.serviceId)(routes[i]);
  }

  /** `DeleteRoute` on the clone: splice out the first such route and the first selector it names. */
  method EditDelete(cfg: RuntimeConfig, serviceId: string) returns (r: Option<RuntimeConfig>)
    ensures r.Some? <==> FindRoute(cfg.routes, serviceId) < |cfg.routes|
    ensures r.Some? ==> r.value == DeleteEdit(cfg, serviceId)
  {
    var index := FindRoute(cfg.routes, serviceId);
    if index == |cfg.routes| {
      return None;
    }
    var routes := cfg.routes[..index] + cfg.routes[index + 1..];
    var selectors := cfg.selectors;
    var i := FindSelector(selectors, cfg.routes[index].selector);
    if i < |selectors| {
      selectors := selectors[..i] + selectors[i + 1..];
    }
    return Some(cfg.(routes := routes, selectors := selectors));
  }

  /** `SelectNode` on the clone; `previous` is what a failed save has to restore. */
  method EditSelect(cfg: RuntimeConfig, nodeId: string, now: int) returns (next: RuntimeConfig, previous: string)
    ensures next == SelectEdit(cfg, nodeId, now) && previous == SelectionOf(cfg.selectors, PROXY)
  {
    var selectors := cfg.selectors;
    var i := FindSelector(selectors, PROXY);
    previous := "";
    if i < |selectors| {
      next, previous := EditSelected(cfg, PROXY, nodeId, now);
    } else {
      next := cfg.(selectors := selectors + [Selector(PROXY, [], nodeId, now)]);
    }
  }

  method EditSelected(cfg: RuntimeConfig, tag: string, nodeId: string, now: int) returns (next: RuntimeConfig, previous: string)
    requires FindSelector(cfg.selectors, tag) < |cfg.selectors|
    ensures next == SelectRouteEdit(cfg, tag, nodeId, now) && previous == SelectionOf(cfg.selectors, tag)
  {
    var selectors := cfg.selectors;
    var i := FindSelector(selectors, tag);
    previous := selectors[i].selected;
    selectors := selectors[i := selectors[i].(selected := nodeId, selectedAt := now)];
    next := cfg.(selectors := selectors);
  }

  method FindReadyNode(nodes: seq<Node>, id: string) returns (ready: bool)
    ensures ready == NodeReady(nodes, id)
  {
    var node := FindNode(nodes, id);
    return node < |nodes| && nodes[node].IsAvailable();
  }

  method FindRouteToSelect(cfg: RuntimeConfig, nodes: seq<Node>, serviceId: string, nodeId: string)
    returns (r: Result<string, Code>)
    ensures r == RouteToSelect(cfg, nodes, serviceId, nodeId)
  {
    if Blank(serviceId) || Blank(nodeId) {
      return Failure(InvalidArgument);
    }
    var ready := FindReadyNode(nodes, nodeId);
    if !ready {
      return Failure(NotFound);
    }
    var route := FindRoute(cfg.routes, serviceId);
    if route == |cfg.routes| {
      return Failure(NotFound);
    }
    var tag := cfg.routes[route].selector;
    if FindSelector(cfg.selectors, tag) == |cfg.selectors| {
      return Failure(Internal);
    }
    return Success(tag);
  }

  class Manager {
    const env: Platform
    var daemon: Daemon
    var persisted: RuntimeConfig
    var runtimeConfig: RuntimeConfig
    var config: Option<Blueprint>

    function State(): Runtime
      reads this
    {
      Runtime(daemon, persisted, runtimeConfig, config)
    }

    constructor (env: Platform, s: Runtime)
      ensures State() == s && this.env == env
    {
      this.env := env;
      daemon, persisted, runtimeConfig, config := s.daemon, s.persisted, s.runtimeConfig, s.config;
    }

    /******* External calls *******/

    /** sing-box closes the old instance before it attempts the new one, and cannot load nothing. */
    method ApplyConfig(content: Option<Blueprint>, applies: bool) returns (ok: bool)
      modifies this`daemon
      ensures ok <==> content.Some? && applies
      ensures daemon == if ok then Load(content.value) else BROKEN
    {
      ok := content.Some? && applies;
      daemon := if ok then Load(content.value) else BROKEN;
    }

    method CloseService(closing: Closing) returns (ok: bool)
      modifies this`daemon
      ensures ok <==> closing.Closed?
      ensures daemon == Close(old(daemon), closing)
    {
      daemon := Close(daemon, closing);
      return closing.Closed?;
    }

    method SelectOutbound(group: string, id: string, selects: bool) returns (ok: bool)
      modifies this`daemon
      ensures ok <==> selects && old(daemon).Accepts(group, id)
      ensures daemon == if ok then old(daemon).(live := old(daemon).live[group := id]) else old(daemon)
    {
      ok := selects && daemon.Accepts(group, id);
      if ok {
        daemon := daemon.(live := daemon.live[group := id]);
      }
    }

    method SaveSnapshot(next: RuntimeConfig, saves: bool) returns (ok: bool)
      modifies this`persisted
      ensures ok == saves
      ensures persisted == if ok then next else old(persisted)
    {
      if saves {
        persisted := next;
      }
      return saves;
    }

    method SwapRuntime(next: RuntimeConfig, content: Blueprint, activate: bool)
      modifies this`runtimeConfig, this`config
      ensures runtimeConfig == next && config == if activate then Some(content) else old(config)
    {
      runtimeConfig := next;
      if activate {
        config := Some(content);
      }
    }

    /******* The transactions *******/

    method RollbackTo(previousContent: Option<Blueprint>, wasRunning: bool, w: World) returns (outcome: Outcome)
      requires previousContent == config
      modifies this`daemon
      ensures (State(), outcome) == Rollback(old(State()), wasRunning, w)
    {
      if wasRunning {
        var restored := ApplyConfig(previousContent, w.restores);
        if !restored {
          return Failed(DataLoss);
        }
      } else {
        var closed := CloseService(w.closing);
        if !closed {
          return Failed(DataLoss);
        }
      }
      return Failed(Internal);
    }

    method ApplySnapshot(next: RuntimeConfig, content: Blueprint, activate: bool, wasRunning: bool, w: World)
      returns (outcome: Outcome)
      modifies this
      ensures (State(), outcome) == Protocol.ApplySnapshot(old(State()), next, content, activate, wasRunning, w)
    {
      if !w.checks {
        return Failed(InvalidArgument);
      }
      if w.cancelled {
        return Failed(Cancelled);
      }
      var previousContent := config;
      if activate {
        var applied := ApplyConfig(Some(content), w.applies);
        if !applied {
          outcome := RollbackTo(previousContent, wasRunning, w);
          return;
        }
      }
      var saved := SaveSnapshot(next, w.saves);
      if !saved {
        if activate {
          outcome := RollbackTo(previousContent, wasRunning, w);
          return;
        }
        return Failed(Internal);
      }
      SwapRuntime(next, content, activate);
      return Done;
    }

    method CommitLiveSelector(next: RuntimeConfig, content: Blueprint, tag: string, nodeId: string, previous: string,
                              running: bool, w: World) returns (outcome: Outcome)
      modifies this
      ensures (State(), outcome) == Protocol.CommitLiveSelector(old(State()), next, content, tag, nodeId, previous, running, w)
    {
      if running {
        var selected := SelectOutbound(tag, nodeId, w.selects);
        if !selected {
          return Failed(DaemonError);
        }
      }
      var saved := SaveSnapshot(next, w.saves);
      if !saved {
        if running && previous != "" {
          var reverted := SelectOutbound(tag, previous, w.reverts);
        }
        return Failed(StoreError);
      }
      SwapRuntime(next, content, running);
      return Done;
    }

    method ApplyDesired(edited: RuntimeConfig, pool: Pool, w: World) returns (outcome: Outcome)
      modifies this
      ensures (State(), outcome) == Protocol.ApplyDesired(env, old(State()), edited, pool, w)
    {
      var prepared := PrepareContent(env, edited.(poolRevision := pool.revision), pool.nodes, w.encodes);
      if prepared.None? {
        return Failed(Unbuildable);
      }
      if !Settles(State(), w) {
        return Failed(Unavailable);
      }
      var running := daemon.Running();
      outcome := ApplySnapshot(prepared.value.0, prepared.value.1, running, running, w);
    }

    method ActivateSavedRuntime(wasRunning: bool, w: World) returns (outcome: Outcome)
      modifies this
      ensures (State(), outcome) == ActivateSaved(env, old(State()), wasRunning, w)
    {
      var prepared := PrepareContent(env, runtimeConfig.(poolRevision := w.pool.revision), w.pool.nodes, w.encodes);
      if prepared.None? {
        return Failed(Unbuildable);
      }
      outcome := ApplySnapshot(prepared.value.0, prepared.value.1, true, wasRunning, w.(cancelled := false));
    }

    /******* Requests *******/

    method StartRuntime(w: World) returns (outcome: Outcome)
      modifies this
      ensures (State(), outcome) == DoStart(env, old(State()), w)
    {
      if !w.statusRead {
        return Failed(Unavailable);
      }
      if daemon.status.Started? || daemon.status.Starting? {
        return Failed(FailedPrecondition);
      }
      outcome := ActivateSavedRuntime(false, w);
    }

    method RestartRuntime(w: World) returns (outcome: Outcome)
      modifies this
      ensures (State(), outcome) == DoRestart(env, old(State()), w)
    {
      if !w.statusRead {
        return Failed(Unavailable);
      }
      outcome := ActivateSavedRuntime(daemon.Running(), w);
    }

    method StopService(w: World) returns (outcome: Outcome)
      modifies this
      ensures (State(), outcome) == DoStop(old(State()), w)
    {
      if !w.statusRead {
        return Failed(Unavailable);
      }
      if daemon.status.Idle? || daemon.status.Fatal? {
        return Done;
      }
      var closed := CloseService(w.closing);
      return if closed then Done else Failed(Internal);
    }

    method UpdateRuntimeConfig(settings: Option<RuntimeSettings>, w: World) returns (outcome: Outcome)
      modifies this
      ensures (State(), outcome) == DoUpdate(env, old(State()), settings, w)
    {
      if settings.None? {
        return Failed(InvalidArgument);
      }
      var next := runtimeConfig.(settings := CanonicalSettings(env, settings.value));
      outcome := ApplyDesired(next, w.pool, w);
    }

    method UpsertRoute(req: UpsertRequest, w: World) returns (outcome: Outcome)
      modifies this
      ensures (State(), outcome) == DoUpsert(env, old(State()), req, w)
    {
      if Blank(req.serviceId) || |req.domains| == 0 {
        return Failed(InvalidArgument);
      }
      var ready := FindReadyNode(w.pool.nodes, req.nodeId);
      if !ready {
        return Failed(NotFound);
      }
      var next := EditUpsert(runtimeConfig, req, w.pool.nodes, w.now);
      outcome := ApplyDesired(next, w.laterPool, w);
    }

    method DeleteRoute(serviceId: string, w: World) returns (outcome: Outcome)
      modifies this
      ensures (State(), outcome) == DoDelete(env, old(State()), serviceId, w)
    {
      if Blank(serviceId) {
        return Failed(InvalidArgument);
      }
      var next := EditDelete(runtimeConfig, serviceId);
      if next.None? {
        return Failed(NotFound);
      }
      outcome := ApplyDesired(next.value, w.pool, w);
    }

    method SelectNode(nodeId: string, w: World) returns (outcome: Outcome)
      modifies this
      ensures (State(), outcome) == DoSelectNode(env, old(State()), nodeId, w)
    {
      if nodeId == "" {
        return Failed(InvalidArgument);
      }
      var ready := FindReadyNode(w.pool.nodes, nodeId);
      if !ready {
        return Failed(NotFound);
      }
      outcome := SelectProxyNode(nodeId, w);
      if outcome == Failed(DaemonError) || outcome == Failed(StoreError) {
        outcome := Failed(Internal);
      }
    }

    method SelectProxyNode(nodeId: string, w: World) returns (outcome: Outcome)
      modifies this
      ensures var next := SelectEdit(old(runtimeConfig).(poolRevision := w.pool.revision), nodeId, w.now);
              (State(), outcome) == CommitSelection(env, old(State()), next, PROXY, nodeId, w)
    {
      var next, previous := EditSelect(runtimeConfig.(poolRevision := w.pool.revision), nodeId, w.now);
      outcome := PersistSelection(next, PROXY, nodeId, previous, w);
    }

    method SelectRouteNode(serviceId: string, nodeId: string, w: World) returns (outcome: Outcome)
      modifies this
      ensures (State(), outcome) == DoSelectRouteNode(env, old(State()), serviceId, nodeId, w)
    {
      var tag := FindRouteToSelect(runtimeConfig, w.pool.nodes, serviceId, nodeId);
      if tag.Failure? {
        return Failed(tag.error);
      }
      outcome := SelectTagged(tag.value, nodeId, w);
    }

    method SelectTagged(tag: string, nodeId: string, w: World) returns (outcome: Outcome)
      requires FindSelector(runtimeConfig.selectors, tag) < |runtimeConfig.selectors|
      modifies this
      ensures var next := SelectRouteEdit(old(runtimeConfig), tag, nodeId, w.now);
              (State(), outcome) == CommitSelection(env, old(State()), next, tag, nodeId, w)
    {
      var next, previous := EditSelected(runtimeConfig, tag, nodeId, w.now);
      outcome := PersistSelection(next, tag, nodeId, previous, w);
    }

    /** The common end of both selections: build, wait for the daemon, commit. */
    method PersistSelection(next: RuntimeConfig, tag: string, nodeId: string, previous: string, w: World) returns (outcome: Outcome)
      requires previous == SelectionOf(runtimeConfig.selectors, tag)
      modifies this
      ensures (State(), outcome) == CommitSelection(env, old(State()), next, tag, nodeId, w)
    {
      var prepared := PrepareContent(env, next, w.pool.nodes, w.encodes);
      if prepared.None? {
        return Failed(Unbuildable);
      }
      if !Settles(State(), w) {
        return Failed(Unavailable);
      }
      var running := daemon.Running();
      outcome := CommitLiveSelector(prepared.value.0, prepared.value.1, tag, nodeId, previous, running, w);
    }

    /** The daemon dies on its own. */
    method Die() returns (outcome: Outcome)
      modifies this`daemon
      ensures (State(), outcome) == DoCrash(old(State()))
    {
      daemon := BROKEN;
      return Done;
    }

    /******* Serving requests *******/

    method Serve(request: Request, w: World) returns (outcome: Outcome)
      modifies this
      ensures (State(), outcome) == Step(env, old(State()), request, w)
    {
      match request {
        case Start => outcome := StartRuntime(w);
        case Restart => outcome := RestartRuntime(w);
        case Stop => outcome := StopService(w);
        case UpdateConfig(settings) => outcome := UpdateRuntimeConfig(settings, w);
        case Upsert(req) => outcome := UpsertRoute(req, w);
        case Delete(serviceId) => outcome := DeleteRoute(serviceId, w);
        case SelectNode(nodeId) => outcome := SelectNode(nodeId, w);
        case SelectRouteNode(serviceId, nodeId) => outcome := SelectRouteNode(serviceId, nodeId, w);
        case Crash => outcome := Die();
      }
    }

    /** Any number of requests, one after the other, make the run that `Runs` reasons about. */
    method ServeAll(events: seq<Event>)
      modifies this
      ensures State() == Run(env, Booted(old(State())), events).state
    {
      for i := 0 to |events|
        invariant State() == Run(env, Booted(old(State())), events[..i]).state
      {
        assert events[..i + 1][..i] == events[..i];
        var outcome := Serve(events[i].request, events[i].world);
      }
      assert events[..|events|] == events;
    }
  }

  /** `New`: load or create the configuration, make its settings canonical, and check them. */
  method Open(env: Platform, stored: Option<RuntimeConfig>, saves: bool) returns (r: Option<Manager>)
    ensures r.Some? <==> Boot(env, stored, saves).Some?
    ensures r.Some? ==> fresh(r.value) && r.value.env == env && r.value.State() == Boot(env, stored, saves).value
  {
    var cfg := DefaultConfig(env);
    if stored.Some? {
      cfg := stored.value;
    } else if !saves {
      return None;
    }
    var canonical := CanonicalSettings(env, cfg.settings);
    if canonical != cfg.settings {
      cfg := cfg.(settings := canonical);
      if !saves {
        return None;
      }
    }
    if BuildSettings(env, cfg.settings).None? {
      return None;
    }
    var m := new Manager(env, Runtime(STOPPED, cfg, cfg, None));
    return Some(m);
  }
}
