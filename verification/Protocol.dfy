/** The runtime transaction protocol as a state machine: every request is a step over the daemon, the
    persisted configuration and the two configurations in memory, and every external call it makes
    succeeds or fails as the step's `World` says. */
module Protocol {
  import opened Wrappers
  import opened Text
  import opened Sequences
  import opened RuntimeModel
  import opened Planner
  import opened RuntimeConfig
  import opened Selections

  /******* State *******/

  datatype Status = Idle | Starting | Started | Stopping | Fatal

  /** The sing-box daemon: what it has loaded and the running choice of every selector. */
  datatype Daemon = Daemon(status: Status, loaded: Option<Blueprint>, live: map<string, string>) {
    predicate Running() { status.Started? }

    predicate Accepts(group: string, id: string) {
      loaded.Some? && Offers(loaded.value.outbounds, group, id)
    }
  }

  const STOPPED := Daemon(Idle, None, map[])
  const BROKEN := Daemon(Fatal, None, map[])

  function Load(content: Blueprint): Daemon {
    Daemon(Started, Some(content), Defaults(content.outbounds))
  }

  /** `persisted` is the store's configuration; `runtimeConfig` and `config` are the manager's fields,
      where `config` is absent until a first activation. */
  datatype Runtime = Runtime(
    daemon: Daemon, persisted: RuntimeConfig, runtimeConfig: RuntimeConfig, config: Option<Blueprint>)

  datatype Code =
    | InvalidArgument | Cancelled | NotFound | FailedPrecondition | Internal | DataLoss
    | Unavailable   // the daemon's status could not be read or did not settle
    | Unbuildable   // settings, normalisation, planning or encoding failed
    | DaemonError | StoreError   // an error of the daemon or of the store, passed on

  datatype Outcome = Done | Failed(code: Code)

  /** How closing the daemon ends; a failed close may or may not have stopped it. */
  datatype Closing = Closed | ClosedWithError | NotClosed

  /** What the outside world answers during one request. `laterPool` is the pool read by the second of
      two reads. */
  datatype World = World(
    pool: Pool, laterPool: Pool, now: int, statusRead: bool, settles: bool, encodes: bool, checks: bool,
    cancelled: bool, applies: bool, saves: bool, restores: bool, closing: Closing, selects: bool, reverts: bool)

  /******* Applying a snapshot *******/

  function Close(d: Daemon, closing: Closing): Daemon {
    match closing
    case Closed => STOPPED
    case ClosedWithError => BROKEN
    case NotClosed => d
  }

  /** Undoing a failed activation: reload the previous content, or stop what was not running before. */
  function Rollback(s: Runtime, wasRunning: bool, w: World): (Runtime, Outcome) {
    if wasRunning then
      if s.config.Some? && w.restores then (s.(daemon := Load(s.config.value)), Failed(Internal))
      else (s.(daemon := BROKEN), Failed(DataLoss))
    else
      (s.(daemon := Close(s.daemon, w.closing)), Failed(if w.closing.Closed? then Internal else DataLoss))
  }

  /** All or nothing: success commits everywhere; failure commits nowhere and, unless it is reported as
      data loss, leaves the daemon running the old content if and only if it was running. */
  function ApplySnapshot(s: Runtime, next: RuntimeConfig, content: Blueprint, activate: bool, wasRunning: bool, w: World)
    : (r: (Runtime, Outcome))
    ensures r.1.Done? <==> w.checks && !w.cancelled && w.saves && (activate ==> w.applies)
    ensures r.1.Done? ==> r.0.persisted == r.0.runtimeConfig == next
    ensures r.1.Done? && activate ==> r.0.daemon == Load(content) && r.0.config == Some(content)
    ensures r.1.Done? && !activate ==> r.0.daemon == s.daemon && r.0.config == s.config
    ensures !r.1.Done? ==> r.0 == s.(daemon := r.0.daemon)
    ensures r.1 == Failed(InvalidArgument) || r.1 == Failed(Cancelled) || (!r.1.Done? && !activate) ==> r.0 == s
    ensures r.1 == Failed(Internal) && activate && wasRunning ==> s.config.Some? && r.0.daemon == Load(s.config.value)
    ensures r.1 == Failed(Internal) && activate && !wasRunning ==> r.0.daemon == STOPPED
    ensures r.1 == Failed(DataLoss) <==>
              && w.checks && !w.cancelled && activate && !(w.applies && w.saves)
              && (if wasRunning then s.config.None? || !w.restores else !w.closing.Closed?)
  {
    if !w.checks then (s, Failed(InvalidArgument))
    else if w.cancelled then (s, Failed(Cancelled))
    else if activate && !w.applies then Rollback(s.(daemon := BROKEN), wasRunning, w)
    else
      var daemon := if activate then Load(content) else s.daemon;
      if w.saves then (Runtime(daemon, next, next, if activate then Some(content) else s.config), Done)
      else if activate then Rollback(s.(daemon := daemon), wasRunning, w)
      else (s, Failed(Internal))
  }

  /******* Live selection *******/

  /** Selects on the daemon, persists, and on a failed save selects the previous node again. */
  function CommitLiveSelector(s: Runtime, next: RuntimeConfig, content: Blueprint, tag: string, nodeId: string,
                              previous: string, running: bool, w: World)
    : (r: (Runtime, Outcome))
    ensures r.0.daemon.status == s.daemon.status && r.1 != Failed(DataLoss)
  {
    if running && !(w.selects && s.daemon.Accepts(tag, nodeId)) then (s, Failed(DaemonError))
    else
      var daemon := if running then s.daemon.(live := s.daemon.live[tag := nodeId]) else s.daemon;
      if w.saves then (Runtime(daemon, next, next, if running then Some(content) else s.config), Done)
      else if running && previous != "" && w.reverts && daemon.Accepts(tag, previous) then
        (s.(daemon := daemon.(live := daemon.live[tag := previous])), Failed(StoreError))
      else (s.(daemon := daemon), Failed(StoreError))
  }

  function AsInternal(r: (Runtime, Outcome)): (Runtime, Outcome) {
    if r.1 == Failed(DaemonError) || r.1 == Failed(StoreError) then (r.0, Failed(Internal)) else r
  }

  /******* Requests *******/

  datatype Request =
    | Start
    | Restart
    | Stop
    | UpdateConfig(settings: Option<RuntimeSettings>)
    | Upsert(req: UpsertRequest)
    | Delete(serviceId: string)
    | SelectNode(nodeId: string)
    | SelectRouteNode(serviceId: string, nodeId: string)
    | Crash   // the daemon dies on its own

  /** `waitForStableStatus` returns a status. */
  predicate Settles(s: Runtime, w: World) {
    w.settles && !s.daemon.status.Starting? && !s.daemon.status.Stopping?
  }

  ghost function ApplyDesired(env: Platform, s: Runtime, edited: RuntimeConfig, pool: Pool, w: World): (Runtime, Outcome) {
    var next := edited.(poolRevision := pool.revision);
    if !(Builds(env, next, pool.nodes) && w.encodes) then (s, Failed(Unbuildable))
    else if !Settles(s, w) then (s, Failed(Unavailable))
    else ApplySnapshot(s, Committed(next, pool.nodes), Content(env, next, pool.nodes), s.daemon.Running(), s.daemon.Running(), w)
  }

  ghost function ActivateSaved(env: Platform, s: Runtime, wasRunning: bool, w: World): (Runtime, Outcome) {
    var next := s.runtimeConfig.(poolRevision := w.pool.revision);
    if !(Builds(env, next, w.pool.nodes) && w.encodes) then (s, Failed(Unbuildable))
    else ApplySnapshot(s, Committed(next, w.pool.nodes), Content(env, next, w.pool.nodes), true, wasRunning, w.(cancelled := false))
  }

  ghost function DoStart(env: Platform, s: Runtime, w: World): (Runtime, Outcome) {
    if !w.statusRead then (s, Failed(Unavailable))
    else if s.daemon.status.Started? || s.daemon.status.Starting? then (s, Failed(FailedPrecondition))
    else ActivateSaved(env, s, false, w)
  }

  ghost function DoRestart(env: Platform, s: Runtime, w: World): (Runtime, Outcome) {
    if !w.statusRead then (s, Failed(Unavailable)) else ActivateSaved(env, s, s.daemon.Running(), w)
  }

  function DoCrash(s: Runtime): (Runtime, Outcome) { (s.(daemon := BROKEN), Done) }

  function DoStop(s: Runtime, w: World): (Runtime, Outcome) {
    if !w.statusRead then (s, Failed(Unavailable))
    else if s.daemon.status.Idle? || s.daemon.status.Fatal? then (s, Done)
    else (s.(daemon := Close(s.daemon, w.closing)), if w.closing.Closed? then Done else Failed(Internal))
  }

  ghost function DoUpdate(env: Platform, s: Runtime, settings: Option<RuntimeSettings>, w: World): (Runtime, Outcome) {
    if settings.None? then (s, Failed(InvalidArgument))
    else ApplyDesired(env, s, s.runtimeConfig.(settings := CanonicalSettings(env, settings.value)), w.pool, w)
  }

  /** Reads the pool to check the node, and again to build. */
  ghost function DoUpsert(env: Platform, s: Runtime, req: UpsertRequest, w: World): (Runtime, Outcome) {
    if Blank(req.serviceId) || req.domains == [] then (s, Failed(InvalidArgument))
    else if !NodeReady(w.pool.nodes, req.nodeId) then (s, Failed(NotFound))
    else ApplyDesired(env, s, UpsertEdit(s.runtimeConfig, req, w.pool.nodes, w.now), w.laterPool, w)
  }

  ghost function DoDelete(env: Platform, s: Runtime, serviceId: string, w: World): (Runtime, Outcome) {
    if Blank(serviceId) then (s, Failed(InvalidArgument))
    else if FindRoute(s.runtimeConfig.routes, serviceId) == |s.runtimeConfig.routes| then (s, Failed(NotFound))
    else ApplyDesired(env, s, DeleteEdit(s.runtimeConfig, serviceId), w.pool, w)
  }

  function SelectionOf(selectors: seq<Selector>, tag: string): string {
    var i := FindSelector(selectors, tag);
    if i < |selectors| then selectors[i].selected else ""
  }

  /** A prepared selection: committed live while running, saved for the next start otherwise. */
  ghost function CommitSelection(env: Platform, s: Runtime, next: RuntimeConfig, tag: string, nodeId: string, w: World)
    : (r: (Runtime, Outcome))
    ensures r.0.daemon.status == s.daemon.status && r.1 != Failed(DataLoss)
  {
    if !(Builds(env, next, w.pool.nodes) && w.encodes) then (s, Failed(Unbuildable))
    else if !Settles(s, w) then (s, Failed(Unavailable))
    else CommitLiveSelector(s, Committed(next, w.pool.nodes), Content(env, next, w.pool.nodes), tag, nodeId,
                            SelectionOf(s.runtimeConfig.selectors, tag), s.daemon.Running(), w)
  }

  ghost function DoSelectNode(env: Platform, s: Runtime, nodeId: string, w: World): (r: (Runtime, Outcome))
    ensures r.0.daemon.status == s.daemon.status && r.1 != Failed(DataLoss)
  {
    if nodeId == "" then (s, Failed(InvalidArgument))
    else if !NodeReady(w.pool.nodes, nodeId) then (s, Failed(NotFound))
    else
      var next := SelectEdit(s.runtimeConfig.(poolRevision := w.pool.revision), nodeId, w.now);
      AsInternal(CommitSelection(env, s, next, PROXY, nodeId, w))
  }

  /** The tag of the service's selector, if the selection is not refused at once. */
  function RouteToSelect(cfg: RuntimeConfig, nodes: seq<Node>, serviceId: string, nodeId: string): (r: Result<string, Code>)
    ensures r.Failure? ==> r.error != DataLoss
    ensures r.Success? ==>
              && NodeReady(nodes, nodeId) && FindSelector(cfg.selectors, r.value) < |cfg.selectors|
              && FindRoute(cfg.routes, serviceId) < |cfg.routes|
              && cfg.routes[FindRoute(cfg.routes, serviceId)].selector == r.value
  {
    if Blank(serviceId) || Blank(nodeId) then Failure(InvalidArgument)
    else if !NodeReady(nodes, nodeId) then Failure(NotFound)
    else
      var i := FindRoute(cfg.routes, serviceId);
      if i == |cfg.routes| then Failure(NotFound)
      else if FindSelector(cfg.selectors, cfg.routes[i].selector) == |cfg.selectors| then Failure(Internal)
      else Success(cfg.routes[i].selector)
  }

  ghost function DoSelectRouteNode(env: Platform, s: Runtime, serviceId: string, nodeId: string, w: World): (r: (Runtime, Outcome))
    ensures r.0.daemon.status == s.daemon.status && r.1 != Failed(DataLoss)
  {
    match RouteToSelect(s.runtimeConfig, w.pool.nodes, serviceId, nodeId)
    case Failure(code) => (s, Failed(code))
    case Success(tag) => CommitSelection(env, s, SelectRouteEdit(s.runtimeConfig, tag, nodeId, w.now), tag, nodeId, w)
  }

  ghost function Step(env: Platform, s: Runtime, request: Request, w: World): (Runtime, Outcome) {
    match request
    case Start => DoStart(env, s, w)
    case Restart => DoRestart(env, s, w)
    case Stop => DoStop(s, w)
    case UpdateConfig(settings) => DoUpdate(env, s, settings, w)
    case Upsert(req) => DoUpsert(env, s, req, w)
    case Delete(serviceId) => DoDelete(env, s, serviceId, w)
    case SelectNode(nodeId) => DoSelectNode(env, s, nodeId, w)
    case SelectRouteNode(serviceId, nodeId) => DoSelectRouteNode(env, s, serviceId, nodeId, w)
    case Crash => DoCrash(s)
  }

  /******* Starting the manager *******/

  /** `New`: load or create the configuration, make its settings canonical, and check them. */
  function Boot(env: Platform, stored: Option<RuntimeConfig>, saves: bool): Option<Runtime> {
    var found := if stored.Some? then stored.value else DefaultConfig(env);
    var cfg := found.(settings := CanonicalSettings(env, found.settings));
    if (stored.None? || cfg != found) && !saves then None
    else if BuildSettings(env, cfg.settings).None? then None
    else Some(Runtime(STOPPED, cfg, cfg, None))
  }
}
