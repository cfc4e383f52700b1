/** What the other requests do, told from their arguments: which refusal they meet, when they succeed, and
    what they leave in memory, in the store and in the daemon. */
module Requests {
  import opened Wrappers
  import opened Text
  import opened Sequences
  import opened RuntimeModel
  import opened Validation
  import opened Planner
  import opened Closure
  import opened RuntimeConfig
  import opened Commitments
  import opened Edits
  import opened Effects
  import opened Selections
  import opened Protocol
  import opened Runs
  import opened Agreement
  import opened Routing
  import opened Progress
  import opened Acceptance
  import opened Admission
  import opened Emission
  import opened Choosing

  /******* What building needs *******/

  lemma RevisionIff(env: Platform, cfg: RuntimeConfig, revision: string, nodes: seq<Node>)
    ensures Builds(env, cfg.(poolRevision := revision), nodes) <==> Builds(env, cfg, nodes)
  {
  }

  /** The outside world lets an edit through: the encoder, the status, the check, the caller, the store, and,
      if the daemon runs, the daemon. */
  predicate Lets(s: Runtime, w: World) {
    w.encodes && w.settles && w.checks && !w.cancelled && w.saves && (s.daemon.Running() ==> w.applies)
  }

  /** Undoing a failed activation works. */
  predicate Undoes(s: Runtime, wasRunning: bool, w: World) {
    if wasRunning then s.config.Some? && w.restores else w.closing == Closed
  }

  /** How an edit ends: done exactly when it builds and the world lets it; otherwise with the first of these
      failures that applies, of which only a failed activation touches the daemon. */
  lemma AppliedOutcome(env: Platform, s: Runtime, edited: RuntimeConfig, pool: Pool, w: World)
    requires DaemonOk(s.daemon)
    ensures var r := ApplyDesired(env, s, edited, pool, w);
            && (r.1.Done? <==> Builds(env, edited, pool.nodes) && Lets(s, w))
            && r.1 == (if !Builds(env, edited, pool.nodes) || !w.encodes then Failed(Unbuildable)
                       else if !w.settles then Failed(Unavailable)
                       else if !w.checks then Failed(InvalidArgument)
                       else if w.cancelled then Failed(Cancelled)
                       else if w.saves && (s.daemon.Running() ==> w.applies) then Done
                       else if s.daemon.Running() && !Undoes(s, true, w) then Failed(DataLoss)
                       else Failed(Internal))
            && (r.1.Failed? && !s.daemon.Running() ==> r.0 == s)
            && (r.1.Failed? ==> r.0 == s.(daemon := r.0.daemon))
            && (r.1 == Failed(Unbuildable) || r.1 == Failed(Unavailable) || r.1 == Failed(InvalidArgument) || r.1 == Failed(Cancelled) ==>
                  r.0 == s)
  {
    RevisionIff(env, edited, pool.revision, pool.nodes);
  }

  /** How an activation ends; the caller cannot cancel it. */
  lemma ActivatedOutcome(env: Platform, s: Runtime, wasRunning: bool, w: World)
    ensures ActivateSaved(env, s, wasRunning, w).1 ==
            if !Builds(env, s.runtimeConfig, w.pool.nodes) || !w.encodes then Failed(Unbuildable)
            else if !w.checks then Failed(InvalidArgument)
            else if w.saves && w.applies then Done
            else if !Undoes(s, wasRunning, w) then Failed(DataLoss)
            else Failed(Internal)
  {
    RevisionIff(env, s.runtimeConfig, w.pool.revision, w.pool.nodes);
  }

  /******* Settings *******/

  lemma SettingsBuild(env: Platform, cfg: RuntimeConfig, settings: RuntimeSettings, nodes: seq<Node>)
    requires WellFormed(env, cfg) && HexPool(nodes)
    ensures Builds(env, cfg.(settings := settings), nodes) <==> SettingsOk(env, settings)
  {
    var next := cfg.(settings := settings);
    if SettingsOk(env, settings) {
      assert Compilable(env, next);
      CompilableBuilds(env, next, nodes);
    }
  }

  lemma AcceptableMobile(env: Platform, asked: RuntimeSettings)
    ensures Acceptable(env, CanonicalSettings(env, asked)) <==> Acceptable(env, asked)
    ensures CanonicalSettings(env, asked).listenAddress == asked.listenAddress
    ensures env.mobile || CanonicalSettings(env, asked).proxyMode == asked.proxyMode
  {
  }

  lemma MobileSettings(env: Platform, asked: RuntimeSettings)
    ensures SettingsOk(env, CanonicalSettings(env, asked)) <==>
            Acceptable(env, asked) && (env.mobile || asked.proxyMode == TunMode || env.isIP(TrimSpace(asked.listenAddress)))
  {
    AcceptableMobile(env, asked);
    SettingsIff(env, CanonicalSettings(env, asked));
  }

  lemma UpdateStep(env: Platform, s: Runtime, asked: RuntimeSettings, w: World)
    ensures Step(env, s, UpdateConfig(Some(asked)), w) ==
            ApplyDesired(env, s, s.runtimeConfig.(settings := CanonicalSettings(env, asked)), w.pool, w)
    ensures Step(env, s, UpdateConfig(None), w) == (s, Failed(InvalidArgument))
  {
  }

  /** If the world lets them, settings are accepted exactly when a route mode and, except on a mobile
      system, a proxy mode are named, the address is a line of text, the port is one of 1 to 65535, and the
      address of a mixed listener parses. */
  lemma UpdateSucceeds(env: Platform, s: Runtime, asked: RuntimeSettings, w: World)
    requires WellFormed(env, s.runtimeConfig) && DaemonOk(s.daemon) && HexPool(w.pool.nodes)
    ensures Step(env, s, UpdateConfig(Some(asked)), w).1.Done? <==>
            Lets(s, w) && Acceptable(env, asked) && (env.mobile || asked.proxyMode == TunMode || env.isIP(TrimSpace(asked.listenAddress)))
  {
    UpdateStep(env, s, asked, w);
    AppliedOutcome(env, s, s.runtimeConfig.(settings := CanonicalSettings(env, asked)), w.pool, w);
    SettingsBuild(env, s.runtimeConfig, CanonicalSettings(env, asked), w.pool.nodes);
    MobileSettings(env, asked);
  }

  lemma UpdateServed(env: Platform, s: Runtime, asked: RuntimeSettings, w: World, r: (Runtime, Outcome))
    requires r == Step(env, s, UpdateConfig(Some(asked)), w) && r.1.Done?
    ensures var next := s.runtimeConfig.(settings := CanonicalSettings(env, asked)).(poolRevision := w.pool.revision);
            r.0.persisted == r.0.runtimeConfig == Committed(next, w.pool.nodes)
  {
    UpdateStep(env, s, asked, w);
  }

  /** Settings that are done are those asked for, in memory and in the store, except that a mobile system
      tunnels; the rest is what committing against the pool leaves. */
  lemma UpdateOutcome(env: Platform, s: Runtime, asked: RuntimeSettings, w: World, r: (Runtime, Outcome))
    requires r == Step(env, s, UpdateConfig(Some(asked)), w) && r.1.Done?
    ensures r.0.persisted == r.0.runtimeConfig
    ensures r.0.runtimeConfig.settings == if env.mobile then asked.(proxyMode := TunMode) else asked
    ensures r.0.runtimeConfig ==
            Committed(s.runtimeConfig, w.pool.nodes).(settings := r.0.runtimeConfig.settings, poolRevision := w.pool.revision)
  {
    UpdateServed(env, s, asked, w, r);
  }

  /** A start takes the stored configuration, or this first one, with the proxy mode of a mobile system set to
      TUN and nothing else changed; it is refused exactly when the settings are unacceptable or a change
      cannot be saved. Nothing runs at first. */
  lemma BootIs(env: Platform, stored: Option<RuntimeConfig>, saves: bool)
    ensures var found := if stored.Some? then stored.value
                         else RuntimeConfig(RuntimeSettings("127.0.0.1", 2080, false, if env.mobile then TunMode else MixedMode, RuleMode),
                                            [], [], "");
            var cfg := if env.mobile then found.(settings := found.settings.(proxyMode := TunMode)) else found;
            Boot(env, stored, saves) ==
            if Acceptable(env, found.settings) && (saves || stored == Some(cfg)) then Some(Runtime(Daemon(Idle, None, map[]), cfg, cfg, None))
            else None
  {
    var found := if stored.Some? then stored.value else DefaultConfig(env);
    BuiltSettings(env, CanonicalSettings(env, found.settings));
  }

  /******* Upsert *******/

  lemma UpsertStep(env: Platform, s: Runtime, req: UpsertRequest, w: World)
    requires NoDup(Map(IdOf, w.pool.nodes))
    ensures Step(env, s, Upsert(req), w) ==
            if Blank(req.serviceId) || req.domains == [] then (s, Failed(InvalidArgument))
            else if req.nodeId !in AvailableIds(w.pool.nodes) then (s, Failed(NotFound))
            else ApplyDesired(env, s, UpsertEdit(s.runtimeConfig, req, w.pool.nodes, w.now), w.laterPool, w)
  {
    NodeReadyIff(w.pool.nodes, req.nodeId);
  }

  lemma AdmissibleArguments(cfg: RuntimeConfig, req: UpsertRequest)
    requires Admissible(cfg, req)
    ensures !Blank(req.serviceId) && req.domains != []
  {
    assert !IsSpace(req.serviceId[0]);
  }

  /** If the world lets it, a service is written exactly when its node is available and the service
      is admissible: a proper name, host names, and no domain taken. */
  lemma UpsertSucceeds(env: Platform, s: Runtime, req: UpsertRequest, w: World)
    requires WellFormed(env, s.runtimeConfig) && DaemonOk(s.daemon)
    requires HexPool(w.pool.nodes) && HexPool(w.laterPool.nodes)
    ensures Step(env, s, Upsert(req), w).1.Done? <==> Lets(s, w) && req.nodeId in AvailableIds(w.pool.nodes) && Admissible(s.runtimeConfig, req)
  {
    UpsertStep(env, s, req, w);
    if Admissible(s.runtimeConfig, req) {
      AdmissibleArguments(s.runtimeConfig, req);
    }
    if req.nodeId in AvailableIds(w.pool.nodes) {
      AppliedOutcome(env, s, UpsertEdit(s.runtimeConfig, req, w.pool.nodes, w.now), w.laterPool, w);
      UpsertBuilds(env, s.runtimeConfig, req, w.pool.nodes, w.laterPool.nodes, w.now);
    }
  }

  /** The committed selectors after writing the service's: it lists what was available when the node was
      checked and still is, and every other selector is as committing leaves it. */
  ghost predicate UpsertLeaves(before: seq<Selector>, after: seq<Selector>, written: Selector, nodes: seq<Node>) {
    forall t :: t in after <==>
      || IsCommitted(nodes, written, t)
      || (exists s :: s in before && s.tag != written.tag && IsCommitted(nodes, s, t))
      || ((forall s :: s in before ==> s.tag != "proxy") && IsCommitted(nodes, FreshProxy(nodes), t))
  }

  lemma WrittenLeaves(before: seq<Selector>, edited: seq<Selector>, after: seq<Selector>, written: Selector, nodes: seq<Node>)
    requires written.tag != PROXY && forall s :: s in edited <==> s == written || (s in before && s.tag != written.tag)
    requires forall t :: t in after <==> IsLeft(edited, nodes, t)
    ensures UpsertLeaves(before, after, written, nodes)
  {
    assert (forall s :: s in edited ==> s.tag != "proxy") <==> forall s :: s in before ==> s.tag != "proxy";
  }

  lemma AllLeft(cfg: RuntimeConfig, nodes: seq<Node>)
    requires Accepts(Desired(cfg, nodes)) && ListsDirect(cfg.selectors)
    ensures forall t :: t in Committed(cfg, nodes).selectors <==> IsLeft(cfg.selectors, nodes, t)
  {
    forall t ensures t in Committed(cfg, nodes).selectors <==> IsLeft(cfg.selectors, nodes, t) {
      CommittedAre(cfg, nodes, t);
    }
  }

  lemma UpsertSelectors(cfg: RuntimeConfig, req: UpsertRequest, seen: seq<Node>, nodes: seq<Node>, now: int)
    requires Paired(cfg.selectors, cfg.routes) && ListsDirect(cfg.selectors)
    requires Accepts(Desired(UpsertEdit(cfg, req, seen, now), nodes))
    ensures UpsertLeaves(cfg.selectors, Committed(UpsertEdit(cfg, req, seen, now), nodes).selectors,
                         Selector("route-" + req.serviceId, AvailableIds(seen) + ["direct"], req.nodeId, now), nodes)
  {
    var edited := UpsertEdit(cfg, req, seen, now);
    UpsertPaired(cfg, req, seen, now);
    TagForPaired(cfg.selectors, cfg.routes, req.serviceId);
    RouteTagNotProxy(req.serviceId);
    AllLeft(edited, nodes);
    WrittenLeaves(cfg.selectors, edited.selectors, Committed(edited, nodes).selectors, UpsertSelector(cfg, req, seen, now), nodes);
  }

  /** The committed routes: the others as they were, and the one asked for with its name, its domains in
      canonical spelling, its own selector and its switch. */
  ghost predicate RoutesLeft(before: seq<ServiceRoute>, after: seq<ServiceRoute>, req: UpsertRequest) {
    forall x :: x in after <==>
      || IsCanonRoute(ServiceRoute(req.serviceId, req.displayName, req.domains, "route-" + req.serviceId, req.enabled), x)
      || (x in before && x.serviceId != req.serviceId)
  }

  lemma UpsertRoutes(env: Platform, cfg: RuntimeConfig, req: UpsertRequest, seen: seq<Node>, nodes: seq<Node>, now: int)
    requires WellFormed(env, cfg) && Builds(env, UpsertEdit(cfg, req, seen, now), nodes)
    ensures RoutesLeft(cfg.routes, Committed(UpsertEdit(cfg, req, seen, now), nodes).routes, req)
  {
    var written := ServiceRoute(req.serviceId, req.displayName, req.domains, "route-" + req.serviceId, req.enabled);
    WellFormedListsDirect(env, cfg);
    TagForPaired(cfg.selectors, cfg.routes, req.serviceId);
    UpsertEffect(env, cfg, req, seen, nodes, now);
    RoutesFrom(cfg.routes, Committed(UpsertEdit(cfg, req, seen, now), nodes).routes, req, written);
  }

  lemma RoutesFrom(before: seq<ServiceRoute>, after: seq<ServiceRoute>, req: UpsertRequest, written: ServiceRoute)
    requires written == ServiceRoute(req.serviceId, req.displayName, req.domains, "route-" + req.serviceId, req.enabled)
    requires forall r :: r in after <==> r == CanonRoute(written) || (r in before && r.serviceId != req.serviceId)
    ensures RoutesLeft(before, after, req)
  {
    forall x ensures x == CanonRoute(written) <==> IsCanonRoute(written, x) {
      CanonRouteIff(written, x);
    }
  }

  lemma UpsertCommitted(env: Platform, cfg: RuntimeConfig, req: UpsertRequest, seen: seq<Node>, pool: Pool, now: int, t: Runtime)
    requires WellFormed(env, cfg) && CommittedTo(env, t, UpsertEdit(cfg, req, seen, now).(poolRevision := pool.revision), pool)
    ensures t.persisted == t.runtimeConfig && t.runtimeConfig.settings == cfg.settings && t.runtimeConfig.poolRevision == pool.revision
    ensures t.runtimeConfig == Committed(UpsertEdit(cfg, req, seen, now), pool.nodes).(poolRevision := pool.revision)
    ensures Builds(env, UpsertEdit(cfg, req, seen, now), pool.nodes)
  {
    RevisionIff(env, UpsertEdit(cfg, req, seen, now), pool.revision, pool.nodes);
  }

  /** A served upsert leaves, in memory and in the store, the service as it was asked for and its selector set
      to the node (or to `direct` if the node was gone by then); settings and other services stay. */
  lemma UpsertOutcome(env: Platform, s: Runtime, req: UpsertRequest, w: World, r: (Runtime, Outcome))
    requires WellFormed(env, s.runtimeConfig) && DaemonOk(s.daemon)
    requires r == Step(env, s, Upsert(req), w) && r.1.Done?
    ensures r.0.persisted == r.0.runtimeConfig && r.0.runtimeConfig.settings == s.runtimeConfig.settings
    ensures r.0.runtimeConfig.poolRevision == w.laterPool.revision
    ensures RoutesLeft(s.runtimeConfig.routes, r.0.runtimeConfig.routes, req)
    ensures UpsertLeaves(s.runtimeConfig.selectors, r.0.runtimeConfig.selectors,
                         Selector("route-" + req.serviceId, AvailableIds(w.pool.nodes) + ["direct"], req.nodeId, w.now), w.laterPool.nodes)
  {
    var cfg := s.runtimeConfig;
    UpsertServed(env, s, req, w, r);
    UpsertCommitted(env, cfg, req, w.pool.nodes, w.laterPool, w.now, r.0);
    UpsertRoutes(env, cfg, req, w.pool.nodes, w.laterPool.nodes, w.now);
    WellFormedListsDirect(env, cfg);
    UpsertSelectors(cfg, req, w.pool.nodes, w.laterPool.nodes, w.now);
  }

  /******* Delete *******/

  lemma DeleteStep(env: Platform, s: Runtime, id: string, w: World)
    ensures Step(env, s, Delete(id), w) ==
            if Blank(id) then (s, Failed(InvalidArgument))
            else if id !in Map(ServiceOf, s.runtimeConfig.routes) then (s, Failed(NotFound))
            else if FindRoute(s.runtimeConfig.routes, id) < |s.runtimeConfig.routes|
              then ApplyDesired(env, s, DeleteEdit(s.runtimeConfig, id), w.pool, w)
            else (s, Failed(NotFound))
    ensures FindRoute(s.runtimeConfig.routes, id) < |s.runtimeConfig.routes| <==> id in Map(ServiceOf, s.runtimeConfig.routes)
  {
    RouteFound(s.runtimeConfig.routes, id);
  }

  /** If the world lets it, a service is deleted exactly when it exists. */
  lemma DeleteSucceeds(env: Platform, s: Runtime, id: string, w: World)
    requires WellFormed(env, s.runtimeConfig) && DaemonOk(s.daemon) && HexPool(w.pool.nodes)
    ensures Step(env, s, Delete(id), w).1.Done? <==> Lets(s, w) && id in Map(ServiceOf, s.runtimeConfig.routes)
  {
    DeleteStep(env, s, id, w);
    if id in Map(ServiceOf, s.runtimeConfig.routes) {
      WellFormedRoutes(env, s.runtimeConfig);
      RoutesNamed(Tags(s.runtimeConfig), s.runtimeConfig.routes, id);
      AppliedOutcome(env, s, DeleteEdit(s.runtimeConfig, id), w.pool, w);
      DeleteBuilds(env, s.runtimeConfig, id, w.pool.nodes);
    }
  }

  lemma DeleteLeaves(cfg: RuntimeConfig, id: string, nodes: seq<Node>)
    requires Paired(cfg.selectors, cfg.routes) && ListsDirect(cfg.selectors) && FindRoute(cfg.routes, id) < |cfg.routes|
    requires Accepts(Desired(DeleteEdit(cfg, id), nodes))
    ensures DeletionLeaves(cfg.selectors, Committed(DeleteEdit(cfg, id), nodes).selectors, "route-" + id, nodes)
  {
    DeletePaired(cfg, id);
    DeletedSelectors(cfg, id);
    RouteTagNotProxy(id);
    AllLeft(DeleteEdit(cfg, id), nodes);
    FewerLeaves(cfg.selectors, DeleteEdit(cfg, id).selectors, Committed(DeleteEdit(cfg, id), nodes).selectors, RouteTag(id), nodes);
  }

  lemma FewerLeaves(before: seq<Selector>, edited: seq<Selector>, after: seq<Selector>, tag: string, nodes: seq<Node>)
    requires tag != PROXY && forall s :: s in edited <==> s in before && s.tag != tag
    requires forall t :: t in after <==> IsLeft(edited, nodes, t)
    ensures DeletionLeaves(before, after, tag, nodes)
  {
    assert (forall s :: s in edited ==> s.tag != "proxy") <==> forall s :: s in before ==> s.tag != "proxy";
  }

  /** The committed selectors without the one of the deleted service. */
  ghost predicate DeletionLeaves(before: seq<Selector>, after: seq<Selector>, tag: string, nodes: seq<Node>) {
    forall t :: t in after <==>
      || (exists s :: s in before && s.tag != tag && IsCommitted(nodes, s, t))
      || ((forall s :: s in before ==> s.tag != "proxy") && IsCommitted(nodes, FreshProxy(nodes), t))
  }

  lemma DeleteCommitted(env: Platform, cfg: RuntimeConfig, id: string, pool: Pool, t: Runtime)
    requires FindRoute(cfg.routes, id) < |cfg.routes|
    requires CommittedTo(env, t, DeleteEdit(cfg, id).(poolRevision := pool.revision), pool)
    ensures t.persisted == t.runtimeConfig && t.runtimeConfig.settings == cfg.settings && t.runtimeConfig.poolRevision == pool.revision
    ensures t.runtimeConfig == Committed(DeleteEdit(cfg, id), pool.nodes).(poolRevision := pool.revision)
    ensures Builds(env, DeleteEdit(cfg, id), pool.nodes)
  {
    RevisionIff(env, DeleteEdit(cfg, id), pool.revision, pool.nodes);
  }

  /** A served delete leaves the other services as they were, and the other selectors as committing does. */
  lemma DeleteOutcome(env: Platform, s: Runtime, id: string, w: World, r: (Runtime, Outcome))
    requires WellFormed(env, s.runtimeConfig) && DaemonOk(s.daemon)
    requires r == Step(env, s, Delete(id), w) && r.1.Done?
    ensures r.0.persisted == r.0.runtimeConfig && r.0.runtimeConfig.settings == s.runtimeConfig.settings
    ensures r.0.runtimeConfig.poolRevision == w.pool.revision
    ensures forall x :: x in r.0.runtimeConfig.routes <==> x in s.runtimeConfig.routes && x.serviceId != id
    ensures DeletionLeaves(s.runtimeConfig.selectors, r.0.runtimeConfig.selectors, "route-" + id, w.pool.nodes)
  {
    var cfg := s.runtimeConfig;
    DeleteStep(env, s, id, w);
    DeleteServed(env, s, id, w, r);
    DeleteCommitted(env, cfg, id, w.pool, r.0);
    DeleteEffect(env, cfg, id, w.pool.nodes);
    WellFormedListsDirect(env, cfg);
    DeleteLeaves(cfg, id, w.pool.nodes);
  }

  /******* Start, restart, stop *******/

  /** Reading the status, or a daemon that is already started, stops these requests before they do anything. */
  lemma DaemonRefusals(env: Platform, s: Runtime, w: World)
    ensures !w.statusRead ==>
              Step(env, s, Start, w) == Step(env, s, Restart, w) == Step(env, s, Stop, w) == (s, Failed(Unavailable))
    ensures w.statusRead && (s.daemon.status.Started? || s.daemon.status.Starting?) ==>
              Step(env, s, Start, w) == (s, Failed(FailedPrecondition))
  {
  }

  lemma StartStep(env: Platform, s: Runtime, w: World)
    requires w.statusRead && DaemonOk(s.daemon)
    ensures !s.daemon.Running() ==> Step(env, s, Start, w) == ActivateSaved(env, s, false, w)
    ensures Step(env, s, Restart, w) == ActivateSaved(env, s, s.daemon.Running(), w)
  {
  }

  /** Whatever pool is published, a stopped daemon is started, and any daemon restarted, exactly when the status
      can be read, the encoder, the check and the daemon take the configuration, and it can be saved. */
  lemma StartOutcome(env: Platform, s: Runtime, w: World)
    requires WellFormed(env, s.runtimeConfig) && DaemonOk(s.daemon) && HexPool(w.pool.nodes)
    ensures Step(env, s, Restart, w).1.Done? <==> w.statusRead && w.encodes && w.checks && w.applies && w.saves
    ensures Step(env, s, Start, w).1.Done? <==>
            !s.daemon.Running() && w.statusRead && w.encodes && w.checks && w.applies && w.saves
  {
    DaemonRefusals(env, s, w);
    BuildableLater(env, s.runtimeConfig, w.pool.nodes);
    ActivatedOutcome(env, s, false, w);
    ActivatedOutcome(env, s, s.daemon.Running(), w);
    if w.statusRead {
      StartStep(env, s, w);
    }
  }

  /** A stop is done exactly when nothing runs or closing succeeds; then nothing runs, and memory and store
      stay. */
  lemma StopOutcome(env: Platform, s: Runtime, w: World)
    requires DaemonOk(s.daemon)
    ensures var r := Step(env, s, Stop, w);
            && (r.1.Done? <==> w.statusRead && (!s.daemon.Running() || w.closing == Closed))
            && (r.1.Done? ==> r.0 == if s.daemon.Running() then s.(daemon := Daemon(Idle, None, map[])) else s)
            && (r.1.Failed? ==> r.1.code == if w.statusRead then Internal else Unavailable)
            && r.0 == s.(daemon := r.0.daemon)
  {
  }

  /******* What the daemon has loaded *******/

  lemma ContentSettings(env: Platform, cfg: RuntimeConfig, nodes: seq<Node>)
    requires Builds(env, cfg, nodes)
    ensures var s := cfg.settings;
            Content(env, cfg, nodes).settings ==
            Settings(false, s.listenAddress, s.mixedPort, if env.mobile then TunMode else s.proxyMode, s.ipv6, "", s.routeMode)
  {
    BuiltSettings(env, cfg.settings);
  }

  /** The plan has a node outbound with these fields exactly when an available node of the pool has them. */
  ghost predicate HasNode(p: Blueprint, nodes: seq<Node>, kind: string, id: string, options: string) {
    Outbound(kind, id, NodeOptions(options)) in p.outbounds <==>
      exists n :: n in nodes && n.outbound == Some(NodeOutbound(kind, options)) && n.phase != "failed" && n.id == id
  }

  lemma ContentNodes(env: Platform, cfg: RuntimeConfig, nodes: seq<Node>, kind: string, id: string, options: string)
    requires Builds(env, cfg, nodes) && HexPool(nodes)
    ensures HasNode(Content(env, cfg, nodes), nodes, kind, id, options)
  {
    NodesCarried(BuildSettings(env, cfg.settings).value, Canonical(Desired(cfg, nodes)), kind, id, options);
    HexPoolOk(nodes);
    if n :| n in nodes && n.outbound == Some(NodeOutbound(kind, options)) && n.phase != "failed" && n.id == id {
      assert n.IsAvailable() && NodeIdOk(n.id);
    }
    if n :| n in nodes && n.outbound == Some(NodeOutbound(kind, options)) && n.phase != "failed" && TrimSpace(n.id) == id {
      assert n.IsAvailable() && TrimStable(n.id);
    }
  }

  /** The plan has every available node of the pool, each with its own type and settings, and no other node. */
  ghost predicate HasNodes(p: Blueprint, nodes: seq<Node>) {
    forall kind, id, options :: HasNode(p, nodes, kind, id, options)
  }

  /** Besides, it listens as the settings say. */
  ghost predicate Carries(env: Platform, p: Blueprint, s: RuntimeSettings, nodes: seq<Node>) {
    && p.settings == Settings(false, s.listenAddress, s.mixedPort, if env.mobile then TunMode else s.proxyMode, s.ipv6, "", s.routeMode)
    && HasNodes(p, nodes)
  }

  lemma ContentHasNodes(env: Platform, cfg: RuntimeConfig, nodes: seq<Node>)
    requires Builds(env, cfg, nodes) && HexPool(nodes)
    ensures HasNodes(Content(env, cfg, nodes), nodes)
  {
    forall kind, id, options ensures HasNode(Content(env, cfg, nodes), nodes, kind, id, options) {
      ContentNodes(env, cfg, nodes, kind, id, options);
    }
  }

  lemma ContentCarries(env: Platform, cfg: RuntimeConfig, nodes: seq<Node>)
    requires Builds(env, cfg, nodes) && HexPool(nodes)
    ensures Carries(env, Content(env, cfg, nodes), cfg.settings, nodes)
  {
    ContentSettings(env, cfg, nodes);
    ContentHasNodes(env, cfg, nodes);
  }

  /** A request that is done and leaves the daemon running has loaded the committed settings and the nodes of
      the pool it read. */
  lemma LoadedCarries(env: Platform, s: Runtime, e: Event, r: (Runtime, Outcome))
    requires !Selecting(e.request) && HexPool(BuildPool(e).nodes)
    requires r == Step(env, s, e.request, e.world) && r.1.Done? && r.0.daemon.Running()
    ensures r.0.daemon.loaded.Some? && Carries(env, r.0.daemon.loaded.value, r.0.runtimeConfig.settings, BuildPool(e).nodes)
  {
    StepLoads(env, s, e);
    LoadedFromTarget(env, s, Target(env, s, e), BuildPool(e), r);
  }

  lemma LoadedFromTarget(env: Platform, s: Runtime, next: RuntimeConfig, pool: Pool, r: (Runtime, Outcome))
    requires LoadsOrKeeps(env, s, next, pool, r) && r.1.Done? && r.0.daemon.Running() && HexPool(pool.nodes)
    ensures r.0.daemon.loaded.Some? && Carries(env, r.0.daemon.loaded.value, r.0.runtimeConfig.settings, pool.nodes)
  {
    ContentCarries(env, next, pool.nodes);
  }

  /** Until data loss is reported, a started daemon has the nodes of one pool that some request read. */
  ghost predicate NodesOfPool(t: Trace) {
    !t.lost && t.state.daemon.Running() ==> t.state.daemon.loaded.Some? && FromPool(t.state.daemon.loaded.value, t.read)
  }

  ghost predicate FromPool(p: Blueprint, read: seq<Pool>) {
    exists pool :: pool in read && HasNodes(p, pool.nodes)
  }

  lemma StillFromPool(p: Blueprint, read: seq<Pool>, more: seq<Pool>)
    requires FromPool(p, read)
    ensures FromPool(p, read + more)
  {
    var pool :| pool in read && HasNodes(p, pool.nodes);
    assert pool in read + more;
  }

  lemma LoadingNodes(env: Platform, t: Trace, e: Event, r: (Runtime, Outcome), next: RuntimeConfig)
    requires Invariant(env, t) && Possible(e) && NodesOfPool(t)
    requires LoadsOrKeeps(env, t.state, next, BuildPool(e), r) && !Selecting(e.request)
    ensures NodesOfPool(Extend(t, e, r))
  {
    var read := [e.world.pool, e.world.laterPool];
    if r.0.daemon.Running() && r.1 != Failed(DataLoss) {
      if r.1.Done? {
        ContentHasNodes(env, next, BuildPool(e).nodes);
        PoolWasRead(t.read, e);
      } else if !t.lost {
        if r.0.daemon == t.state.daemon {
          StillFromPool(t.state.daemon.loaded.value, t.read, read);
        } else {
          ContentHasNodes(env, t.state.runtimeConfig, t.basis.value.nodes);
          StillFromPool(t.state.config.value, t.read, read);
        }
      }
    }
  }

  lemma SelectingNodes(env: Platform, t: Trace, e: Event)
    requires Invariant(env, t) && NodesOfPool(t) && Selecting(e.request)
    ensures NodesOfPool(Next(env, t, e))
  {
    SelectionKeepsStatus(env, t.state, e);
    if !t.lost && t.state.daemon.Running() {
      SelectionEnds(env, t, e);
      StillFromPool(t.state.daemon.loaded.value, t.read, [e.world.pool, e.world.laterPool]);
    }
  }

  /** Over every run, whatever is published, selected, applied or rolled back, a started daemon has exactly the
      available nodes of one pool that was read, each with its own type and settings, until data loss. */
  lemma {:induction false} RunNodes(env: Platform, t: Trace, events: seq<Event>)
    requires Invariant(env, t) && NodesOfPool(t) && forall e :: e in events ==> Possible(e)
    ensures NodesOfPool(Run(env, t, events))
  {
    if events != [] {
      var before, last := Run(env, t, events[..|events| - 1]), events[|events| - 1];
      RunNodes(env, t, events[..|events| - 1]);
      RunSafe(env, t, events[..|events| - 1]);
      if Selecting(last.request) {
        SelectingNodes(env, before, last);
      } else {
        StepLoads(env, before.state, last);
        LoadingNodes(env, before, last, Step(env, before.state, last.request, last.world), Target(env, before.state, last));
      }
    }
  }
}
