/** A live selection of an available node gets as far as the daemon, and a served upsert followed by the
    deletion gives the configuration back. */
module Progress {
  import opened Wrappers
  import opened Text
  import opened Sequences
  import opened RuntimeModel
  import opened Validation
  import opened Canonicity
  import opened Planner
  import opened Closure
  import opened Identity
  import opened RuntimeConfig
  import opened Commitments
  import opened Edits
  import opened Effects
  import opened Selections
  import opened Protocol
  import opened Runs
  import opened Agreement
  import opened InForce

  /******* Selecting a node of the pool in use *******/

  lemma SelectDurable(selectors: seq<Selector>, id: string, now: int, s: Selector)
    requires forall t :: t in selectors ==> Durable(t)
    requires var i := FindSelector(selectors, PROXY);
             s in if i < |selectors| then SetSelected(selectors, PROXY, id, now) else selectors + [Selector(PROXY, [], id, now)]
    ensures Durable(s)
  {
    var i := FindSelector(selectors, PROXY);
    SelectorFound(selectors, PROXY);
    if s !in selectors {
      assert s.tag == PROXY;
      ProxyTagOk(s.tag);
    }
  }

  /** Selecting a proxy node keeps a configuration well formed, so it compiles for any pool. */
  lemma SelectWellFormed(env: Platform, cfg: RuntimeConfig, id: string, now: int)
    requires WellFormed(env, cfg)
    ensures WellFormed(env, SelectEdit(cfg, id, now))
  {
    var next := SelectEdit(cfg, id, now);
    WellFormedListsDirect(env, cfg);
    SelectPaired(cfg, id, now);
    forall s | s in next.selectors ensures Durable(s) {
      SelectDurable(cfg.selectors, id, now, s);
    }
    SelectTags(cfg, id, now);
    RoutesOkSuperset(Tags(cfg), Tags(next), cfg.routes);
  }

  lemma SelectTags(cfg: RuntimeConfig, id: string, now: int)
    ensures forall tag :: tag in Tags(cfg) ==> tag in Tags(SelectEdit(cfg, id, now))
  {
    var i := FindSelector(cfg.selectors, PROXY);
    if i < |cfg.selectors| {
      UpdateKeys(TagOf, cfg.selectors, i, cfg.selectors[i].(selected := id, selectedAt := now));
    } else {
      MapAppend(TagOf, cfg.selectors, Selector(PROXY, [], id, now));
    }
  }

  lemma ProxyOffers(outbounds: seq<Outbound>, live: map<string, string>, tags: seq<string>, selectors: seq<Selector>, id: string)
    requires tags != [] && id in tags && ProxyGroup(tags, selectors) in Map(ChoiceIn(live), outbounds)
    ensures Offers(outbounds, PROXY, id)
  {
    var o := MapOrigin(ChoiceIn(live), outbounds, ProxyGroup(tags, selectors));
    var i :| 0 <= i < |outbounds| && outbounds[i] == o;
  }

  lemma FaithfulAccepts(env: Platform, d: Daemon, cfg: RuntimeConfig, nodes: seq<Node>, id: string)
    requires Builds(env, cfg, nodes) && Settled(cfg, nodes) && HexPool(nodes) && id in AvailableIds(nodes)
    requires Effective(d) == Some(Content(env, cfg, nodes))
    ensures d.Accepts(PROXY, id)
  {
    EmittedTags(nodes);
    SettledSorted(cfg, nodes);
    GroupsEmitted(nodes, cfg.selectors);
    ProxyOffers(d.loaded.value.outbounds, d.live, NodeTags(nodes), cfg.selectors, id);
  }

  /** The answers a live selection needs before it is saved. */
  predicate Answers(w: World) {
    w.settles && w.encodes && w.selects
  }

  lemma NodePasses(env: Platform, s: Runtime, id: string, w: World)
    requires WellFormed(env, s.runtimeConfig) && DaemonOk(s.daemon) && HexPool(w.pool.nodes) && NodeReady(w.pool.nodes, id)
    requires w.settles && w.encodes
    ensures NodeReaches(env, s, id, w)
  {
    var cfg := s.runtimeConfig.(poolRevision := w.pool.revision);
    RevisionIrrelevant(env, s.runtimeConfig, w.pool.revision);
    SelectWellFormed(env, cfg, id, w.now);
    BuildableLater(env, SelectEdit(cfg, id, w.now), w.pool.nodes);
    ReadyIsAvailable(w.pool.nodes, id);
    ReadyTags(w.pool.nodes, id);
  }

  /** In every safe running state any available node of the pool in use can be selected live: the
      request builds, and the daemon offers the node. */
  lemma SelectNodeMoves(env: Platform, t: Trace, id: string, w: World)
    requires Invariant(env, t) && Faithful(t) && !t.lost && t.state.daemon.Running()
    requires HexPool(w.pool.nodes) && SameEmission(t.basis.value.nodes, w.pool.nodes)
    requires NodeReady(w.pool.nodes, id) && Answers(w)
    ensures Moves(env, t.state, Event(SelectNode(id), w))
  {
    NodePasses(env, t.state, id, w);
    StillAvailable(t.basis.value.nodes, w.pool.nodes, id);
    FaithfulAccepts(env, t.state.daemon, t.state.runtimeConfig, t.basis.value.nodes, id);
    NodeMoves(env, t.state, id, w);
  }

  lemma StillAvailable(a: seq<Node>, b: seq<Node>, id: string)
    requires HexPool(a) && HexPool(b) && SameEmission(a, b) && NodeReady(b, id)
    ensures id in AvailableIds(a)
  {
    EmittedTags(a);
    EmittedTags(b);
    ReadyIsAvailable(b, id);
  }

  lemma NodeMoves(env: Platform, s: Runtime, id: string, w: World)
    requires NodeReaches(env, s, id, w) && w.selects && s.daemon.Accepts(PROXY, id)
    ensures Moves(env, s, Event(SelectNode(id), w))
  {
    NodeSelection(env, s, id, w);
  }

  lemma NodeSelection(env: Platform, s: Runtime, id: string, w: World)
    ensures var e := Event(SelectNode(id), w);
            && SelectedTag(s, e.request) == PROXY && SelectedId(e.request) == id
            && (NodeReaches(env, s, id, w) ==> Agreement.Reaches(env, s, e))
  {
  }

  /******* Adding a service and deleting it again *******/

  lemma SettledRevision(cfg: RuntimeConfig, revision: string, nodes: seq<Node>)
    requires Settled(cfg, nodes)
    ensures Settled(cfg.(poolRevision := revision), nodes)
  {
  }

  lemma RevisionCommutes(cfg: RuntimeConfig, revision: string, req: UpsertRequest, nodes: seq<Node>, now: int)
    ensures UpsertEdit(cfg.(poolRevision := revision), req, nodes, now) == UpsertEdit(cfg, req, nodes, now).(poolRevision := revision)
  {
  }

  lemma DeleteKeepsRevision(cfg: RuntimeConfig, id: string)
    requires FindRoute(cfg.routes, id) < |cfg.routes|
    ensures DeleteEdit(cfg, id).(poolRevision := cfg.poolRevision) == DeleteEdit(cfg, id)
  {
  }

  /** The two commits, whatever the requests were that made them. */
  lemma CommittedRoundTrip(env: Platform, cfg: RuntimeConfig, req: UpsertRequest, pool: Pool, now: int, added: Runtime)
    requires WellFormed(env, cfg) && Settled(cfg, pool.nodes) && HexPool(pool.nodes)
    requires req.serviceId !in Map(ServiceOf, cfg.routes)
    requires CommittedTo(env, added, UpsertEdit(cfg, req, pool.nodes, now).(poolRevision := pool.revision), pool)
    ensures FindRoute(added.runtimeConfig.routes, req.serviceId) < |added.runtimeConfig.routes|
    ensures var next := DeleteEdit(added.runtimeConfig, req.serviceId).(poolRevision := pool.revision);
            Builds(env, next, pool.nodes) && Committed(next, pool.nodes) == cfg.(poolRevision := pool.revision)
  {
    var before := cfg.(poolRevision := pool.revision);
    RevisionIrrelevant(env, cfg, pool.revision);
    SettledRevision(cfg, pool.revision, pool.nodes);
    RevisionCommutes(cfg, pool.revision, req, pool.nodes, now);
    UpsertThenDelete(env, before, req, pool.nodes, now);
    DeleteKeepsRevision(added.runtimeConfig, req.serviceId);
  }

  /** On a configuration committed against the current pool, serving an upsert of a fresh service and
      then its deletion leaves the original configuration in memory and in the store. */
  lemma ServedRoundTrip(env: Platform, s: Runtime, req: UpsertRequest, w: World, later: World)
    requires WellFormed(env, s.runtimeConfig) && DaemonOk(s.daemon)
    requires HexPool(w.pool.nodes) && Settled(s.runtimeConfig, w.pool.nodes) && w.laterPool == later.pool == w.pool
    requires req.serviceId !in Map(ServiceOf, s.runtimeConfig.routes)
    requires Step(env, s, Upsert(req), w).1.Done?
    requires Step(env, Step(env, s, Upsert(req), w).0, Delete(req.serviceId), later).1.Done?
    ensures var t := Step(env, Step(env, s, Upsert(req), w).0, Delete(req.serviceId), later).0;
            t.persisted == t.runtimeConfig == s.runtimeConfig.(poolRevision := w.pool.revision)
  {
    var first := Step(env, s, Upsert(req), w);
    UpsertServed(env, s, req, w, first);
    CommittedRoundTrip(env, s.runtimeConfig, req, w.pool, w.now, first.0);
    DeleteServed(env, first.0, req.serviceId, later, Step(env, first.0, Delete(req.serviceId), later));
  }

  lemma UpsertServed(env: Platform, s: Runtime, req: UpsertRequest, w: World, r: (Runtime, Outcome))
    requires DaemonOk(s.daemon) && r == Step(env, s, Upsert(req), w) && r.1.Done?
    ensures CommittedTo(env, r.0, UpsertEdit(s.runtimeConfig, req, w.pool.nodes, w.now).(poolRevision := w.laterPool.revision), w.laterPool)
  {
    UpsertCommits(env, s, req, w);
  }

  lemma DeleteServed(env: Platform, s: Runtime, id: string, w: World, r: (Runtime, Outcome))
    requires DaemonOk(s.daemon) && FindRoute(s.runtimeConfig.routes, id) < |s.runtimeConfig.routes|
    requires r == Step(env, s, Delete(id), w) && r.1.Done?
    ensures CommittedTo(env, r.0, DeleteEdit(s.runtimeConfig, id).(poolRevision := w.pool.revision), w.pool)
  {
    DeleteCommits(env, s, id, w);
  }
}
