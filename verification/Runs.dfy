/** Safety of the transaction protocol over every run: any sequence of requests, node pools and
    failures. */
module Runs {
  import opened Wrappers
  import opened Text
  import opened Sequences
  import opened RuntimeModel
  import opened Validation
  import opened Canonicity
  import opened Planner
  import opened Closure
  import opened Identity
  import opened RuntimeConfig
  import opened Commitments
  import opened Edits
  import opened Effects
  import opened Selections
  import opened Protocol

  datatype Event = Event(request: Request, world: World)

  /** The coordinator's pools have distinct hexadecimal identifiers. */
  ghost predicate Possible(e: Event) {
    HexPool(e.world.pool.nodes) && HexPool(e.world.laterPool.nodes)
  }

  /** A state with its history: the pools that were read, the pool that `config` was last built for,
      and whether data loss was reported since the last activation. */
  datatype Trace = Trace(state: Runtime, read: seq<Pool>, basis: Option<Pool>, lost: bool)

  /** The pool a request builds with. */
  function BuildPool(e: Event): Pool {
    if e.request.Upsert? then e.world.laterPool else e.world.pool
  }

  predicate Selecting(request: Request) {
    request.SelectNode? || request.SelectRouteNode?
  }

  /** The trace after a request that ended with `r`. */
  function Extend(t: Trace, e: Event, r: (Runtime, Outcome)): Trace {
    var committed := r.1.Done? && r.0.daemon.Running();
    Trace(
      r.0,
      t.read + [e.world.pool, e.world.laterPool],
      if committed then Some(BuildPool(e)) else t.basis,
      if r.1 == Failed(DataLoss) then true
      else if committed && !Selecting(e.request) then false
      else t.lost)
  }

  ghost function Next(env: Platform, t: Trace, e: Event): Trace {
    Extend(t, e, Step(env, t.state, e.request, e.world))
  }

  ghost function Run(env: Platform, t: Trace, events: seq<Event>): Trace {
    if events == [] then t else Next(env, Run(env, t, events[..|events| - 1]), events[|events| - 1])
  }

  function Booted(s: Runtime): Trace { Trace(s, [], None, false) }

  /******* The invariant *******/

  /** `config` is the build of `runtimeConfig` for `pool`, and that pool would leave it unchanged. */
  ghost predicate BuiltFor(env: Platform, s: Runtime, pool: Pool) {
    && HexPool(pool.nodes)
    && Builds(env, s.runtimeConfig, pool.nodes) && Settled(s.runtimeConfig, pool.nodes)
    && s.config == Some(Content(env, s.runtimeConfig, pool.nodes))
  }

  /** Between requests the daemon is idle, started or broken, and a started one has content loaded. */
  ghost predicate DaemonOk(d: Daemon) {
    && !d.status.Starting? && !d.status.Stopping?
    && (d.Running() ==> d.loaded.Some?)
  }

  ghost predicate Invariant(env: Platform, t: Trace) {
    && t.state.persisted == t.state.runtimeConfig
    && WellFormed(env, t.state.runtimeConfig)
    && DaemonOk(t.state.daemon)
    && (!t.lost && t.state.daemon.Running() ==>
          t.basis.Some? && t.basis.value in t.read && BuiltFor(env, t.state, t.basis.value))
  }

  /******* Steps *******/

  /** What a step may do when it does not commit: only the daemon changes, and unless data loss is
      reported a daemon that still runs was running before. */
  ghost predicate Aborted(s: Runtime, t: Runtime, outcome: Outcome) {
    && t == s.(daemon := t.daemon) && DaemonOk(t.daemon)
    && (t.daemon.Running() && outcome != Failed(DataLoss) ==> s.daemon.Running())
  }

  /** Memory and store hold `next`; `config` holds `content` if the daemon runs. */
  ghost predicate Swapped(t: Runtime, next: RuntimeConfig, content: Blueprint) {
    && t.persisted == t.runtimeConfig == next
    && DaemonOk(t.daemon) && (t.daemon.Running() ==> t.config == Some(content))
  }

  ghost predicate CommittedTo(env: Platform, t: Runtime, next: RuntimeConfig, pool: Pool) {
    Builds(env, next, pool.nodes) && Swapped(t, Committed(next, pool.nodes), Content(env, next, pool.nodes))
  }

  /** A request that either commits `next` for `pool` or aborts. */
  ghost predicate CommitsOrAborts(env: Platform, s: Runtime, next: RuntimeConfig, pool: Pool, r: (Runtime, Outcome)) {
    if r.1.Done? then CommittedTo(env, r.0, next, pool) else Aborted(s, r.0, r.1)
  }

  lemma SnapshotCommits(s: Runtime, next: RuntimeConfig, content: Blueprint, activate: bool, w: World)
    requires DaemonOk(s.daemon) && (s.daemon.Running() ==> activate)
    ensures var r := ApplySnapshot(s, next, content, activate, s.daemon.Running(), w);
            if r.1.Done? then Swapped(r.0, next, content) else Aborted(s, r.0, r.1)
  {
  }

  lemma LiveCommits(s: Runtime, next: RuntimeConfig, content: Blueprint, tag: string, id: string, previous: string, w: World)
    requires DaemonOk(s.daemon)
    ensures var r := CommitLiveSelector(s, next, content, tag, id, previous, s.daemon.Running(), w);
            if r.1.Done? then Swapped(r.0, next, content) else Aborted(s, r.0, r.1)
  {
  }

  lemma ApplyDesiredCommits(env: Platform, s: Runtime, edited: RuntimeConfig, pool: Pool, w: World)
    requires DaemonOk(s.daemon)
    ensures CommitsOrAborts(env, s, edited.(poolRevision := pool.revision), pool, ApplyDesired(env, s, edited, pool, w))
  {
    var next := edited.(poolRevision := pool.revision);
    if Builds(env, next, pool.nodes) {
      SnapshotCommits(s, Committed(next, pool.nodes), Content(env, next, pool.nodes), s.daemon.Running(), w);
    }
  }

  lemma ActivateSavedCommits(env: Platform, s: Runtime, w: World)
    requires DaemonOk(s.daemon)
    ensures CommitsOrAborts(env, s, s.runtimeConfig.(poolRevision := w.pool.revision), w.pool,
                            ActivateSaved(env, s, s.daemon.Running(), w))
  {
    var next := s.runtimeConfig.(poolRevision := w.pool.revision);
    if Builds(env, next, w.pool.nodes) {
      SnapshotCommits(s, Committed(next, w.pool.nodes), Content(env, next, w.pool.nodes), true, w.(cancelled := false));
    }
  }

  lemma CommitSelectionCommits(env: Platform, s: Runtime, next: RuntimeConfig, tag: string, nodeId: string, w: World)
    requires DaemonOk(s.daemon)
    ensures CommitsOrAborts(env, s, next, w.pool, CommitSelection(env, s, next, tag, nodeId, w))
  {
    if Builds(env, next, w.pool.nodes) {
      LiveCommits(s, Committed(next, w.pool.nodes), Content(env, next, w.pool.nodes), tag, nodeId,
                  SelectionOf(s.runtimeConfig.selectors, tag), w);
    }
  }

  /** What each request tries to commit. */
  ghost function Target(env: Platform, s: Runtime, e: Event): RuntimeConfig {
    var cfg, w := s.runtimeConfig, e.world;
    match e.request
    case UpdateConfig(settings) =>
      if settings.None? then cfg
      else cfg.(settings := CanonicalSettings(env, settings.value)).(poolRevision := w.pool.revision)
    case Upsert(req) => UpsertEdit(cfg, req, w.pool.nodes, w.now).(poolRevision := w.laterPool.revision)
    case Delete(id) =>
      if FindRoute(cfg.routes, id) == |cfg.routes| then cfg else DeleteEdit(cfg, id).(poolRevision := w.pool.revision)
    case SelectNode(id) => SelectEdit(cfg.(poolRevision := w.pool.revision), id, w.now)
    case SelectRouteNode(service, id) => RouteSelection(cfg, service, id, w.now)
    case _ => cfg.(poolRevision := w.pool.revision)
  }

  function RouteSelection(cfg: RuntimeConfig, service: string, id: string, now: int): RuntimeConfig {
    var i := FindRoute(cfg.routes, service);
    if i == |cfg.routes| then cfg else SelectRouteEdit(cfg, cfg.routes[i].selector, id, now)
  }

  ghost predicate Shaped(cfg: RuntimeConfig) {
    Paired(cfg.selectors, cfg.routes) && ListsDirect(cfg.selectors)
  }

  lemma ShapedUpsert(cfg: RuntimeConfig, req: UpsertRequest, w: World)
    requires Shaped(cfg)
    ensures Shaped(UpsertEdit(cfg, req, w.pool.nodes, w.now).(poolRevision := w.laterPool.revision))
  {
    UpsertPaired(cfg, req, w.pool.nodes, w.now);
  }

  lemma ShapedDelete(cfg: RuntimeConfig, id: string, w: World)
    requires Shaped(cfg) && FindRoute(cfg.routes, id) < |cfg.routes|
    ensures Shaped(DeleteEdit(cfg, id).(poolRevision := w.pool.revision))
  {
    DeletePaired(cfg, id);
  }

  lemma ShapedSelect(cfg: RuntimeConfig, id: string, w: World)
    requires Shaped(cfg)
    ensures Shaped(SelectEdit(cfg.(poolRevision := w.pool.revision), id, w.now))
  {
    SelectPaired(cfg.(poolRevision := w.pool.revision), id, w.now);
  }

  lemma ShapedRouteSelection(cfg: RuntimeConfig, service: string, id: string, now: int)
    requires Shaped(cfg)
    ensures Shaped(RouteSelection(cfg, service, id, now))
  {
    var i := FindRoute(cfg.routes, service);
    if i < |cfg.routes| {
      SetSelectedKeeps(cfg.selectors, cfg.routes, cfg.routes[i].selector, id, now);
    }
  }

  lemma ShapedSettings(cfg: RuntimeConfig, settings: RuntimeSettings, revision: string)
    requires Shaped(cfg)
    ensures Shaped(cfg.(settings := settings).(poolRevision := revision))
    ensures Shaped(cfg.(poolRevision := revision))
  {
  }

  /** No request breaks the pairing of services and selectors or a service's way back to `direct`. */
  lemma TargetShape(env: Platform, s: Runtime, e: Event)
    requires Shaped(s.runtimeConfig)
    ensures Shaped(Target(env, s, e))
  {
    var cfg, w := s.runtimeConfig, e.world;
    if e.request.Upsert? {
      ShapedUpsert(cfg, e.request.req, w);
    } else if e.request.Delete? {
      if FindRoute(cfg.routes, e.request.serviceId) < |cfg.routes| {
        ShapedDelete(cfg, e.request.serviceId, w);
      }
    } else if e.request.SelectNode? {
      ShapedSelect(cfg, e.request.nodeId, w);
    } else if e.request.SelectRouteNode? {
      ShapedRouteSelection(cfg, e.request.serviceId, e.request.nodeId, w.now);
    } else if e.request.UpdateConfig? && e.request.settings.Some? {
      ShapedSettings(cfg, CanonicalSettings(env, e.request.settings.value), w.pool.revision);
    } else {
      ShapedSettings(cfg, cfg.settings, w.pool.revision);
    }
  }

  lemma StartCommits(env: Platform, s: Runtime, w: World)
    requires DaemonOk(s.daemon)
    ensures CommitsOrAborts(env, s, s.runtimeConfig.(poolRevision := w.pool.revision), w.pool, DoStart(env, s, w))
    ensures CommitsOrAborts(env, s, s.runtimeConfig.(poolRevision := w.pool.revision), w.pool, DoRestart(env, s, w))
  {
    ActivateSavedCommits(env, s, w);
  }

  lemma UpdateCommits(env: Platform, s: Runtime, settings: RuntimeSettings, w: World)
    requires DaemonOk(s.daemon)
    ensures CommitsOrAborts(env, s, s.runtimeConfig.(settings := CanonicalSettings(env, settings)).(poolRevision := w.pool.revision),
                            w.pool, DoUpdate(env, s, Some(settings), w))
  {
    ApplyDesiredCommits(env, s, s.runtimeConfig.(settings := CanonicalSettings(env, settings)), w.pool, w);
  }

  lemma UpsertCommits(env: Platform, s: Runtime, req: UpsertRequest, w: World)
    requires DaemonOk(s.daemon)
    ensures CommitsOrAborts(env, s, UpsertEdit(s.runtimeConfig, req, w.pool.nodes, w.now).(poolRevision := w.laterPool.revision),
                            w.laterPool, DoUpsert(env, s, req, w))
  {
    ApplyDesiredCommits(env, s, UpsertEdit(s.runtimeConfig, req, w.pool.nodes, w.now), w.laterPool, w);
  }

  lemma DeleteCommits(env: Platform, s: Runtime, id: string, w: World)
    requires DaemonOk(s.daemon) && FindRoute(s.runtimeConfig.routes, id) < |s.runtimeConfig.routes|
    ensures CommitsOrAborts(env, s, DeleteEdit(s.runtimeConfig, id).(poolRevision := w.pool.revision), w.pool, DoDelete(env, s, id, w))
  {
    ApplyDesiredCommits(env, s, DeleteEdit(s.runtimeConfig, id), w.pool, w);
  }

  lemma SelectCommits(env: Platform, s: Runtime, id: string, w: World)
    requires DaemonOk(s.daemon)
    ensures CommitsOrAborts(env, s, SelectEdit(s.runtimeConfig.(poolRevision := w.pool.revision), id, w.now), w.pool,
                            DoSelectNode(env, s, id, w))
  {
    var next := SelectEdit(s.runtimeConfig.(poolRevision := w.pool.revision), id, w.now);
    if id == "" || !NodeReady(w.pool.nodes, id) {
      Rejected(env, s, next, w.pool, if id == "" then InvalidArgument else NotFound);
    } else {
      CommitSelectionCommits(env, s, next, PROXY, id, w);
      AsInternalCommits(env, s, next, w.pool, CommitSelection(env, s, next, PROXY, id, w));
    }
  }

  lemma AsInternalCommits(env: Platform, s: Runtime, next: RuntimeConfig, pool: Pool, r: (Runtime, Outcome))
    requires CommitsOrAborts(env, s, next, pool, r)
    ensures CommitsOrAborts(env, s, next, pool, AsInternal(r))
  {
  }

  lemma SelectRouteCommits(env: Platform, s: Runtime, service: string, id: string, w: World)
    requires DaemonOk(s.daemon)
    ensures CommitsOrAborts(env, s, RouteSelection(s.runtimeConfig, service, id, w.now), w.pool,
                            DoSelectRouteNode(env, s, service, id, w))
  {
    var i := FindRoute(s.runtimeConfig.routes, service);
    var r := DoSelectRouteNode(env, s, service, id, w);
    if r.0 == s && r.1.Failed? {
      Rejected(env, s, RouteSelection(s.runtimeConfig, service, id, w.now), w.pool, r.1.code);
    } else {
      CommitSelectionCommits(env, s, RouteSelection(s.runtimeConfig, service, id, w.now), s.runtimeConfig.routes[i].selector, id, w);
    }
  }

  lemma Rejected(env: Platform, s: Runtime, next: RuntimeConfig, pool: Pool, code: Code)
    requires DaemonOk(s.daemon)
    ensures CommitsOrAborts(env, s, next, pool, (s, Failed(code)))
  {
  }

  lemma StepCommits(env: Platform, s: Runtime, e: Event)
    requires DaemonOk(s.daemon) && !e.request.Stop? && !e.request.Crash?
    ensures CommitsOrAborts(env, s, Target(env, s, e), BuildPool(e), Step(env, s, e.request, e.world))
  {
    var w := e.world;
    if e.request.Start? || e.request.Restart? {
      StartCommits(env, s, w);
    } else if e.request.Upsert? {
      UpsertCommits(env, s, e.request.req, w);
    } else if e.request.SelectNode? {
      SelectCommits(env, s, e.request.nodeId, w);
    } else if e.request.SelectRouteNode? {
      SelectRouteCommits(env, s, e.request.serviceId, e.request.nodeId, w);
    } else if e.request.Delete? {
      StepCommitsDelete(env, s, e);
    } else {
      StepCommitsUpdate(env, s, e);
    }
  }

  lemma StepCommitsDelete(env: Platform, s: Runtime, e: Event)
    requires DaemonOk(s.daemon) && e.request.Delete?
    ensures CommitsOrAborts(env, s, Target(env, s, e), BuildPool(e), Step(env, s, e.request, e.world))
  {
    var id := e.request.serviceId;
    if FindRoute(s.runtimeConfig.routes, id) < |s.runtimeConfig.routes| {
      DeleteCommits(env, s, id, e.world);
    } else {
      Rejected(env, s, s.runtimeConfig, e.world.pool, if Blank(id) then InvalidArgument else NotFound);
    }
  }

  lemma StepCommitsUpdate(env: Platform, s: Runtime, e: Event)
    requires DaemonOk(s.daemon) && e.request.UpdateConfig?
    ensures CommitsOrAborts(env, s, Target(env, s, e), BuildPool(e), Step(env, s, e.request, e.world))
  {
    if e.request.settings.Some? {
      UpdateCommits(env, s, e.request.settings.value, e.world);
    } else {
      Rejected(env, s, s.runtimeConfig, e.world.pool, InvalidArgument);
    }
  }

  /** Committing against `pool` leaves a configuration that is built for it. */
  lemma CommittedIsBuilt(env: Platform, t: Runtime, next: RuntimeConfig, pool: Pool)
    requires CommittedTo(env, t, next, pool) && HexPool(pool.nodes)
    requires Paired(next.selectors, next.routes) && ListsDirect(next.selectors)
    ensures WellFormed(env, t.runtimeConfig)
    ensures t.daemon.Running() ==> BuiltFor(env, t, pool)
  {
    CommitKeeps(env, next, pool.nodes);
    CommittedIsSettled(next, pool.nodes);
    BuildableLater(env, Committed(next, pool.nodes), pool.nodes);
    SameContent(env, next, pool.nodes);
  }

  lemma SameContent(env: Platform, cfg: RuntimeConfig, nodes: seq<Node>)
    requires Builds(env, cfg, nodes) && Builds(env, Committed(cfg, nodes), nodes)
    ensures Content(env, Committed(cfg, nodes), nodes) == Content(env, cfg, nodes)
  {
    CommittedIsSettled(cfg, nodes);
  }

  /** A request that aborts keeps the invariant. */
  lemma AbortInvariant(env: Platform, t: Trace, e: Event, r: (Runtime, Outcome))
    requires Invariant(env, t) && Aborted(t.state, r.0, r.1) && (r.1.Done? ==> !r.0.daemon.Running())
    ensures Invariant(env, Extend(t, e, r))
  {
  }

  lemma CommitInvariant(env: Platform, t: Trace, e: Event, r: (Runtime, Outcome), next: RuntimeConfig)
    requires Possible(e) && Shaped(next) && r.1.Done? && CommittedTo(env, r.0, next, BuildPool(e))
    ensures Invariant(env, Extend(t, e, r))
  {
    CommittedIsBuilt(env, r.0, next, BuildPool(e));
    PoolWasRead(t.read, e);
  }

  lemma PoolWasRead(read: seq<Pool>, e: Event)
    ensures BuildPool(e) in read + [e.world.pool, e.world.laterPool]
  {
    var all := read + [e.world.pool, e.world.laterPool];
    assert all[|read|] == e.world.pool && all[|read| + 1] == e.world.laterPool;
  }

  lemma StopAborts(s: Runtime, w: World)
    requires DaemonOk(s.daemon)
    ensures var r := DoStop(s, w); Aborted(s, r.0, r.1) && (r.1.Done? ==> !r.0.daemon.Running())
  {
  }

  lemma StopInvariant(env: Platform, t: Trace, e: Event)
    requires Invariant(env, t) && e.request.Stop?
    ensures Invariant(env, Next(env, t, e))
  {
    StopAborts(t.state, e.world);
    AbortInvariant(env, t, e, DoStop(t.state, e.world));
  }

  lemma CrashInvariant(env: Platform, t: Trace, e: Event)
    requires Invariant(env, t) && e.request.Crash?
    ensures Invariant(env, Next(env, t, e))
  {
    var r := DoCrash(t.state);
    CrashAborts(t.state);
    AbortInvariant(env, t, e, r);
    CrashStep(env, t.state, e.world);
  }

  lemma CrashStep(env: Platform, s: Runtime, w: World)
    ensures Step(env, s, Crash, w) == DoCrash(s)
  {
  }

  lemma CrashAborts(s: Runtime)
    ensures var r := DoCrash(s); Aborted(s, r.0, r.1) && !r.0.daemon.Running()
  {
  }

  /** Every step keeps the invariant, whatever the pool and whatever fails. */
  lemma StepInvariant(env: Platform, t: Trace, e: Event)
    requires Invariant(env, t) && Possible(e)
    ensures Invariant(env, Next(env, t, e))
  {
    if e.request.Stop? {
      StopInvariant(env, t, e);
    } else if e.request.Crash? {
      CrashInvariant(env, t, e);
    } else {
      RequestInvariant(env, t, e, Step(env, t.state, e.request, e.world));
    }
  }

  lemma RequestInvariant(env: Platform, t: Trace, e: Event, r: (Runtime, Outcome))
    requires Invariant(env, t) && Possible(e) && !e.request.Stop? && !e.request.Crash?
    requires r == Step(env, t.state, e.request, e.world)
    ensures Invariant(env, Extend(t, e, r))
  {
    StepCommits(env, t.state, e);
    WellFormedListsDirect(env, t.state.runtimeConfig);
    TargetShape(env, t.state, e);
    if r.1.Done? {
      CommitInvariant(env, t, e, r, Target(env, t.state, e));
    } else {
      AbortInvariant(env, t, e, r);
    }
  }

  /** Over every run the persisted configuration is the one in memory and is well formed; until data
      loss is reported, a started daemon's configuration is the build of `runtimeConfig` for a pool
      that some request read. */
  lemma {:induction false} RunSafe(env: Platform, t: Trace, events: seq<Event>)
    requires Invariant(env, t) && forall e :: e in events ==> Possible(e)
    ensures Invariant(env, Run(env, t, events))
  {
    if events != [] {
      RunSafe(env, t, events[..|events| - 1]);
      StepInvariant(env, Run(env, t, events[..|events| - 1]), events[|events| - 1]);
    }
  }

  /******* Boot and restart *******/

  lemma CanonicalSettingsOk(env: Platform, s: RuntimeSettings)
    requires SettingsOk(env, s)
    ensures SettingsOk(env, CanonicalSettings(env, s))
  {
  }

  lemma CanonicalWellFormed(env: Platform, cfg: RuntimeConfig)
    requires WellFormed(env, cfg)
    ensures WellFormed(env, cfg.(settings := CanonicalSettings(env, cfg.settings)))
  {
    CanonicalSettingsOk(env, cfg.settings);
  }

  /** A first start is safe, and so is every later start from what a run has persisted: it is refused
      only when the store fails, and it loses nothing. */
  lemma BootSafe(env: Platform, stored: Option<RuntimeConfig>, saves: bool)
    requires env.mobile || env.isIP("127.0.0.1")
    requires stored.Some? ==> WellFormed(env, stored.value)
    ensures saves ==> Boot(env, stored, saves).Some?
    ensures Boot(env, stored, saves).Some? ==> Invariant(env, Booted(Boot(env, stored, saves).value))
    ensures Boot(env, stored, saves).Some? && stored.Some? ==>
              Boot(env, stored, saves).value.runtimeConfig ==
              if env.mobile then stored.value.(settings := stored.value.settings.(proxyMode := TunMode)) else stored.value
  {
    if stored.None? {
      DefaultWellFormed(env);
    }
    BootFrom(env, if stored.Some? then stored.value else DefaultConfig(env));
  }

  lemma BootFrom(env: Platform, found: RuntimeConfig)
    requires WellFormed(env, found)
    ensures var cfg := found.(settings := CanonicalSettings(env, found.settings));
            BuildSettings(env, cfg.settings).Some? && Invariant(env, Booted(Runtime(STOPPED, cfg, cfg, None)))
  {
    CanonicalWellFormed(env, found);
  }

  /** Every reachable committed configuration compiles for any later node pool. */
  lemma ReachableBuildable(env: Platform, stored: Option<RuntimeConfig>, saves: bool, events: seq<Event>, nodes: seq<Node>)
    requires env.mobile || env.isIP("127.0.0.1")
    requires stored.Some? ==> WellFormed(env, stored.value)
    requires Boot(env, stored, saves).Some? && HexPool(nodes)
    requires forall e :: e in events ==> Possible(e)
    ensures var cfg := Run(env, Booted(Boot(env, stored, saves).value), events).state.persisted;
            Builds(env, cfg, nodes) && Paired(cfg.selectors, cfg.routes)
  {
    BootSafe(env, stored, saves);
    RunSafe(env, Booted(Boot(env, stored, saves).value), events);
    BuildableLater(env, Run(env, Booted(Boot(env, stored, saves).value), events).state.persisted, nodes);
  }

  /******* Progress *******/

  predicate Healthy(w: World) {
    w.statusRead && w.settles && w.encodes && w.checks && !w.cancelled && w.applies && w.saves
  }

  lemma ActivationSucceeds(env: Platform, s: Runtime, w: World, wasRunning: bool)
    requires Healthy(w) && Builds(env, s.runtimeConfig.(poolRevision := w.pool.revision), w.pool.nodes)
    ensures var r := ActivateSaved(env, s, wasRunning, w); r.1.Done? && r.0.daemon.Running()
  {
  }

  lemma RevisionIrrelevant(env: Platform, cfg: RuntimeConfig, revision: string)
    requires WellFormed(env, cfg)
    ensures WellFormed(env, cfg.(poolRevision := revision))
  {
  }

  lemma StartHealthy(env: Platform, s: Runtime, w: World)
    requires Healthy(w) && Builds(env, s.runtimeConfig.(poolRevision := w.pool.revision), w.pool.nodes)
    ensures DoRestart(env, s, w).1.Done? && DoRestart(env, s, w).0.daemon.Running()
    ensures !s.daemon.Running() && !s.daemon.status.Starting? ==>
              DoStart(env, s, w).1.Done? && DoStart(env, s, w).0.daemon.Running()
  {
    ActivationSucceeds(env, s, w, false);
    ActivationSucceeds(env, s, w, s.daemon.Running());
  }

  ghost predicate Activates(env: Platform, s: Runtime, e: Event) {
    var r := Step(env, s, e.request, e.world); r.1.Done? && r.0.daemon.Running()
  }

  /** When every external call succeeds, a stopped daemon starts and a started one restarts, whatever
      pool is published by then, also after a data loss. */
  lemma StartSucceeds(env: Platform, t: Trace, e: Event)
    requires Invariant(env, t) && Possible(e) && Healthy(e.world)
    requires e.request.Restart? || (e.request.Start? && !t.state.daemon.Running())
    ensures Activates(env, t.state, e)
  {
    BuildsNow(env, t.state.runtimeConfig, e.world.pool);
    HealthyStep(env, t.state, e);
  }

  lemma BuildsNow(env: Platform, cfg: RuntimeConfig, pool: Pool)
    requires WellFormed(env, cfg) && HexPool(pool.nodes)
    ensures Builds(env, cfg.(poolRevision := pool.revision), pool.nodes)
  {
    RevisionIrrelevant(env, cfg, pool.revision);
    BuildableLater(env, cfg.(poolRevision := pool.revision), pool.nodes);
  }

  lemma HealthyStep(env: Platform, s: Runtime, e: Event)
    requires Healthy(e.world) && DaemonOk(s.daemon)
    requires Builds(env, s.runtimeConfig.(poolRevision := e.world.pool.revision), e.world.pool.nodes)
    requires e.request.Restart? || (e.request.Start? && !s.daemon.Running())
    ensures Activates(env, s, e)
  {
    StartHealthy(env, s, e.world);
  }
}
