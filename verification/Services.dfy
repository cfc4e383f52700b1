/** What a served upsert does to connections: the hosts that the service claims go to the requested node. */
module Services {
  import opened Wrappers
  import opened Text
  import opened Sequences
  import opened Domains
  import opened RuntimeModel
  import opened Validation
  import opened Planner
  import opened Meaning
  import opened RuntimeConfig
  import opened Commitments
  import opened Edits
  import opened Effects
  import opened Protocol
  import opened Runs
  import opened InForce
  import opened Progress
  import opened Routing

  /** Of the domains that cover the host, none is longer than `domain`, which the request lists: neither
      another one of the request nor one of another enabled service. */
  ghost predicate Claims(cfg: RuntimeConfig, req: UpsertRequest, domain: string, host: string) {
    && req.enabled && domain in CanonicalDomains(UpsertRoute(cfg, req)) && SuffixMatch(domain, host)
    && (forall d :: d in CanonicalDomains(UpsertRoute(cfg, req)) && SuffixMatch(d, host) ==> |d| <= |domain|)
    && (forall r, d :: r in cfg.routes && r.serviceId != req.serviceId && r.enabled && d in r.domains && SuffixMatch(d, host) ==>
          |d| <= |domain|)
  }

  lemma RevisionCommit(cfg: RuntimeConfig, revision: string, nodes: seq<Node>)
    ensures Committed(cfg.(poolRevision := revision), nodes) == Committed(cfg, nodes).(poolRevision := revision)
  {
  }

  lemma RevisionBuilds(env: Platform, cfg: RuntimeConfig, revision: string, nodes: seq<Node>)
    requires Builds(env, cfg.(poolRevision := revision), nodes)
    ensures Builds(env, cfg, nodes)
  {
  }

  lemma CanonDomains(r: ServiceRoute, d: string)
    ensures d in CanonRoute(r).domains <==> d in CanonicalDomains(r)
  {
    SortMembers(Less, CanonicalDomains(r));
  }

  /** The committed service owns the host. */
  lemma UpsertOwns(env: Platform, cfg: RuntimeConfig, req: UpsertRequest, seen: seq<Node>, nodes: seq<Node>, now: int, m: RuntimeModel,
                   domain: string, host: string)
    requires WellFormed(env, cfg) && Builds(env, UpsertEdit(cfg, req, seen, now), nodes) && Claims(cfg, req, domain, host)
    requires m.routes == Committed(UpsertEdit(cfg, req, seen, now), nodes).routes
    ensures Owns(m, CanonRoute(UpsertRoute(cfg, req)), host)
  {
    var added := UpsertRoute(cfg, req);
    UpsertEffect(env, cfg, req, seen, nodes, now);
    CanonDomains(added, domain);
    assert Serves(m, CanonRoute(added), domain, host);
    forall r, d | Serves(m, r, d, host) ensures |d| <= |domain| {
      if r == CanonRoute(added) {
        CanonDomains(added, d);
      }
    }
    assert Longest(m, domain, host);
  }

  /** Where the request sends its hosts: to its node, or to `direct` if the node was gone by the second
      time the pool was read. */
  function Wanted(req: UpsertRequest, pool: Pool): string {
    if Selectable(pool.nodes, req.nodeId) then req.nodeId else DIRECT
  }

  lemma UpsertMeans(env: Platform, cfg: RuntimeConfig, req: UpsertRequest, seen: seq<Node>, pool: Pool, now: int, s: Settings,
                    m: RuntimeModel, domain: string, c: Connection)
    requires WellFormed(env, cfg) && Builds(env, UpsertEdit(cfg, req, seen, now), pool.nodes) && Claims(cfg, req, domain, c.host)
    requires m.routes == Committed(UpsertEdit(cfg, req, seen, now), pool.nodes).routes
    requires m.selectors == Committed(UpsertEdit(cfg, req, seen, now), pool.nodes).selectors
    requires !s.routeMode.DirectMode? && c.port != DNS_PORT
    ensures Means(s, m, c, RouteTo(Wanted(req, pool)))
  {
    UpsertOwns(env, cfg, req, seen, pool.nodes, now, m, domain, c.host);
    UpsertSelects(env, cfg, req, seen, pool.nodes, now);
    WellFormedListsDirect(env, cfg);
    TagForPaired(cfg.selectors, cfg.routes, req.serviceId);
    OwnerMeans(s, m, c, CanonRoute(UpsertRoute(cfg, req)), Wanted(req, pool));
  }

  lemma RoutedTo(env: Platform, t: Trace, c: Connection, id: string)
    requires RoutesAsCommitted(env, t, c)
    requires Means(BuildSettings(env, t.state.runtimeConfig.settings).value,
                   RuntimeModel(t.basis.value.nodes, t.state.runtimeConfig.selectors, t.state.runtimeConfig.routes), c, RouteTo(id))
    ensures Decide(Effective(t.state.daemon).value, c) == RouteTo(id)
  {
  }

  lemma UpsertCommitted(env: Platform, t: Trace, req: UpsertRequest, w: World)
    requires Invariant(env, t) && Possible(Event(Upsert(req), w)) && Step(env, t.state, Upsert(req), w).1.Done?
    ensures var edited, u := UpsertEdit(t.state.runtimeConfig, req, w.pool.nodes, w.now), Next(env, t, Event(Upsert(req), w));
            && Builds(env, edited, w.laterPool.nodes)
            && u.state.runtimeConfig == Committed(edited, w.laterPool.nodes).(poolRevision := w.laterPool.revision)
            && (u.state.daemon.Running() ==> !u.lost && u.basis == Some(w.laterPool))
  {
    var edited := UpsertEdit(t.state.runtimeConfig, req, w.pool.nodes, w.now);
    UpsertServed(env, t.state, req, w, Step(env, t.state, Upsert(req), w));
    RevisionCommit(edited, w.laterPool.revision, w.laterPool.nodes);
    RevisionBuilds(env, edited, w.laterPool.revision, w.laterPool.nodes);
  }

  lemma UpsertActivates(env: Platform, t: Trace, req: UpsertRequest, w: World)
    requires Step(env, t.state, Upsert(req), w).1.Done?
    ensures Activation(env, t, Event(Upsert(req), w))
  {
  }

  /** After a served upsert of an enabled service outside direct mode, a started daemon sends every
      connection to a host that the service claims to the requested node. */
  lemma UpsertTraffic(env: Platform, t: Trace, req: UpsertRequest, w: World, domain: string, c: Connection)
    requires Invariant(env, t) && Possible(Event(Upsert(req), w)) && Step(env, t.state, Upsert(req), w).1.Done?
    requires Next(env, t, Event(Upsert(req), w)).state.daemon.Running()
    requires !t.state.runtimeConfig.settings.routeMode.DirectMode? && c.port != DNS_PORT
    requires Claims(t.state.runtimeConfig, req, domain, c.host)
    ensures var d := Next(env, t, Event(Upsert(req), w)).state.daemon;
            Effective(d).Some? && Decide(Effective(d).value, c) == RouteTo(Wanted(req, w.laterPool))
  {
    var u := Next(env, t, Event(Upsert(req), w));
    UpsertCommitted(env, t, req, w);
    UpsertActivates(env, t, req, w);
    ActivationRestores(env, t, Event(Upsert(req), w));
    UpsertState(env, t.state.runtimeConfig, u, req, w, domain, c);
  }

  lemma UpsertState(env: Platform, cfg: RuntimeConfig, u: Trace, req: UpsertRequest, w: World, domain: string, c: Connection)
    requires WellFormed(env, cfg) && Claims(cfg, req, domain, c.host) && !cfg.settings.routeMode.DirectMode? && c.port != DNS_PORT
    requires var edited := UpsertEdit(cfg, req, w.pool.nodes, w.now);
             && Builds(env, edited, w.laterPool.nodes)
             && u.state.runtimeConfig == Committed(edited, w.laterPool.nodes).(poolRevision := w.laterPool.revision)
    requires Routed(env, u) && u.state.daemon.Running() && !u.lost && u.basis == Some(w.laterPool)
    ensures Effective(u.state.daemon).Some? && Decide(Effective(u.state.daemon).value, c) == RouteTo(Wanted(req, w.laterPool))
  {
    assert RoutesAsCommitted(env, u, c);
    var current := u.state.runtimeConfig;
    UpsertMeans(env, cfg, req, w.pool.nodes, w.laterPool, w.now, BuildSettings(env, current.settings).value,
                RuntimeModel(u.basis.value.nodes, current.selectors, current.routes), domain, c);
    RoutedTo(env, u, c, Wanted(req, w.laterPool));
  }
}
