/** Concrete runs: two nodes and a first start, followed by a selection whose save and revert both fail,
    and by one that is saved with a pool that has grown. */
module Witness {
  import opened Wrappers
  import opened Sequences
  import opened RuntimeModel
  import opened Validation
  import opened Closure
  import opened Identity
  import opened RuntimeConfig
  import opened Commitments
  import opened Edits
  import opened Effects
  import opened Selections
  import opened Protocol
  import opened Runs
  import opened Agreement
  import opened InForce
  import opened Progress
  import opened Routing

  const PHONE := Platform(true, (address: string) => true)

  function ReadyNode(id: string): Node {
    Node(id, "", id, "vless", "", "", 0, "ready", "", Null, Some(NodeOutbound("vless", "")))
  }

  const POOL := Pool("", [ReadyNode("a"), ReadyNode("b")])

  const HEALTHY := World(POOL, POOL, 0, true, true, true, true, false, true, true, true, Closed, true, true)

  const FIRST_START := Event(Start, HEALTHY)

  lemma TwoNodes(a: string, b: string)
    requires a != b && IsHex(a) && IsHex(b)
    ensures var nodes := [ReadyNode(a), ReadyNode(b)]; HexPool(nodes) && NodeReady(nodes, a) && NodeReady(nodes, b)
  {
    var nodes := [ReadyNode(a), ReadyNode(b)];
    assert nodes[0].id == a && nodes[1].id == b;
    FindFirstIs(WithId(a), nodes, 0);
    FindFirstIs(WithId(b), nodes, 1);
  }

  lemma PoolIsHex()
    ensures HexPool(POOL.nodes) && NodeReady(POOL.nodes, "a") && NodeReady(POOL.nodes, "b") && "a" != "b"
  {
    var a, b := "a", "b";
    assert a[0] == 'a' && b[0] == 'b';
    TwoNodes(a, b);
  }

  /** What is known after a healthy start. */
  ghost predicate Started(env: Platform, t: Trace, pool: Pool) {
    && Invariant(env, t) && Rooted(env, t) && InSync(t) && Faithful(t) && RoutedSync(t) && Routed(env, t)
    && t.state.daemon.Running() && !t.lost && t.basis == Some(pool)
  }

  lemma StartedWell(env: Platform, t: Trace, e: Event)
    requires Invariant(env, t) && !t.state.daemon.Running() && e.request.Start? && Possible(e) && Healthy(e.world)
    ensures Started(env, Next(env, t, e), e.world.pool)
    ensures Next(env, t, e).state.runtimeConfig.settings == t.state.runtimeConfig.settings
  {
    StartSucceeds(env, t, e);
    StepInvariant(env, t, e);
    StartActivation(env, t, e);
    ActivationRestores(env, t, e);
    StartNext(env, t, e);
  }

  lemma StartActivation(env: Platform, t: Trace, e: Event)
    requires e.request.Start? && Activates(env, t.state, e)
    ensures Activation(env, t, e)
  {
  }

  lemma StartNext(env: Platform, t: Trace, e: Event)
    requires e.request.Start? && Activates(env, t.state, e)
    ensures var next := Next(env, t, e);
            && next.state.daemon.Running() && !next.lost && next.basis == Some(e.world.pool)
            && next.state.runtimeConfig.settings == t.state.runtimeConfig.settings
  {
    StartKeepsSettings(env, t.state, e.world);
    StartedTrace(t, e, DoStart(env, t.state, e.world));
  }

  /** A start commits the settings it found. */
  lemma StartKeepsSettings(env: Platform, s: Runtime, w: World)
    ensures DoStart(env, s, w).1.Done? ==> DoStart(env, s, w).0.runtimeConfig.settings == s.runtimeConfig.settings
  {
  }

  lemma StartedTrace(t: Trace, e: Event, r: (Runtime, Outcome))
    requires r.1.Done? && r.0.daemon.Running() && e.request.Start?
    ensures var next := Extend(t, e, r); next.state.daemon.Running() && !next.lost && next.basis == Some(e.world.pool)
  {
  }

  lemma NodeStrays(env: Platform, s: Runtime, id: string, w: World)
    requires Moves(env, s, Event(SelectNode(id), w))
    requires id != SelectionOf(s.runtimeConfig.selectors, PROXY) && !w.saves && !w.reverts
    ensures Strays(env, s, Event(SelectNode(id), w))
  {
    NodeSelection(env, s, id, w);
  }

  lemma StrayLoses(env: Platform, t: Trace, e: Event, pool: Pool)
    requires Started(env, t, pool) && Possible(e) && Selecting(e.request) && Strays(env, t.state, e)
    ensures !InSync(Next(env, t, e)) && !Faithful(Next(env, t, e))
    ensures Mattering(t.state.runtimeConfig)(SelectedTag(t.state, e.request)) ==> !Routed(env, Next(env, t, e))
  {
    SelectingInSync(env, t, e);
    SelectingFaithful(env, t, e);
    SelectionTraffic(env, t, e);
  }

  /** After a healthy start, selecting another available node when neither the save nor the revert
      succeeds loses the agreement and, outside direct mode, sends connections elsewhere. */
  lemma OtherNodeStrays(env: Platform, t: Trace, id: string, w: World)
    requires Started(env, t, w.pool) && Possible(Event(SelectNode(id), w)) && NodeReady(w.pool.nodes, id) && Answers(w)
    requires id != SelectionOf(t.state.runtimeConfig.selectors, PROXY) && !w.saves && !w.reverts
    ensures var e := Event(SelectNode(id), w);
            && Strays(env, t.state, e) && !InSync(Next(env, t, e)) && !Faithful(Next(env, t, e))
            && (!t.state.runtimeConfig.settings.routeMode.DirectMode? ==> !Routed(env, Next(env, t, e)))
  {
    var e := Event(SelectNode(id), w);
    SelectNodeMoves(env, t, id, w);
    NodeStrays(env, t.state, id, w);
    NodeSelection(env, t.state, id, w);
    StrayLoses(env, t, e, w.pool);
  }

  /** The condition of `FailedSelection` occurs: on a phone with two nodes, after a first start. */
  lemma StrayExample() returns (booted: Runtime, id: string)
    ensures Boot(PHONE, None, true) == Some(booted)
    ensures var t := Next(PHONE, Booted(booted), FIRST_START);
            var e := Event(SelectNode(id), HEALTHY.(saves := false, reverts := false));
            && Started(PHONE, t, POOL) && Possible(e)
            && Strays(PHONE, t.state, e) && !InSync(Next(PHONE, t, e)) && !Faithful(Next(PHONE, t, e)) && !Routed(PHONE, Next(PHONE, t, e))
  {
    booted := FirstBoot();
    var t := Next(PHONE, Booted(booted), FIRST_START);
    id := if SelectionOf(t.state.runtimeConfig.selectors, PROXY) == "a" then "b" else "a";
    OtherNodeStrays(PHONE, t, id, HEALTHY.(saves := false, reverts := false));
  }

  lemma FirstBoot() returns (booted: Runtime)
    ensures Boot(PHONE, None, true) == Some(booted)
    ensures var t := Next(PHONE, Booted(booted), FIRST_START);
            Started(PHONE, t, POOL) && !t.state.runtimeConfig.settings.routeMode.DirectMode?
    ensures HexPool(POOL.nodes) && NodeReady(POOL.nodes, "a") && NodeReady(POOL.nodes, "b") && "a" != "b"
  {
    BootSafe(PHONE, None, true);
    PoolIsHex();
    booted := Boot(PHONE, None, true).value;
    StartedWell(PHONE, Booted(booted), FIRST_START);
    PhoneSettings(booted);
  }

  lemma PhoneSettings(booted: Runtime)
    requires Boot(PHONE, None, true) == Some(booted)
    ensures booted.runtimeConfig.settings.routeMode.RuleMode?
  {
  }

  /******* A grown pool *******/

  lemma GrownEmission(pool: seq<Node>, grown: seq<Node>, extra: string)
    requires HexPool(pool) && HexPool(grown) && extra in AvailableIds(grown) && extra !in AvailableIds(pool)
    ensures !SameEmission(pool, grown)
  {
    EmittedTags(pool);
    EmittedTags(grown);
  }

  lemma GrownSelectable(cfg: RuntimeConfig, pool: seq<Node>, grown: seq<Node>, tag: string)
    requires Settled(cfg, pool) && forall id :: id in AvailableIds(pool) ==> id in AvailableIds(grown)
    ensures OthersSelectableOn(Mattering(cfg), cfg.selectors, tag, grown)
  {
    SettledSelections(cfg, pool);
  }

  /** After a healthy start, a selection saved with a pool that has grown leaves every connection where
      the committed model says, although `config` is no longer what the daemon has in force. */
  lemma GrownPool(env: Platform, t: Trace, pool: Pool, id: string, w: World, extra: string)
    requires Started(env, t, pool) && Possible(Event(SelectNode(id), w)) && HexPool(pool.nodes)
    requires NodeReady(w.pool.nodes, id) && id in AvailableIds(pool.nodes) && Answers(w) && w.saves
    requires (forall x :: x in AvailableIds(pool.nodes) ==> x in AvailableIds(w.pool.nodes))
    requires extra in AvailableIds(w.pool.nodes) && extra !in AvailableIds(pool.nodes)
    ensures var e := Event(SelectNode(id), w); Routed(env, Next(env, t, e)) && !Faithful(Next(env, t, e))
  {
    var e := Event(SelectNode(id), w);
    NodePasses(env, t.state, id, w);
    FaithfulAccepts(env, t.state.daemon, t.state.runtimeConfig, pool.nodes, id);
    NodeMoves(env, t.state, id, w);
    GrownEmission(pool.nodes, w.pool.nodes, extra);
    GrownSelectable(t.state.runtimeConfig, pool.nodes, w.pool.nodes, SelectedTag(t.state, e.request));
    GrownOutcome(env, t, e, pool);
  }

  lemma GrownOutcome(env: Platform, t: Trace, e: Event, pool: Pool)
    requires Started(env, t, pool) && Possible(e) && Selecting(e.request) && Moves(env, t.state, e) && e.world.saves
    requires !SameEmission(pool.nodes, e.world.pool.nodes)
    requires var cfg := t.state.runtimeConfig;
             OthersSelectableOn(Mattering(cfg), cfg.selectors, SelectedTag(t.state, e.request), e.world.pool.nodes)
    ensures Routed(env, Next(env, t, e)) && !Faithful(Next(env, t, e))
  {
    SelectingFaithful(env, t, e);
    SelectionTraffic(env, t, e);
  }

  const GROWN := Pool("", [ReadyNode("a"), ReadyNode("b"), ReadyNode("c")])

  lemma ThreeNodes(a: string, b: string, c: string)
    requires a != b && b != c && a != c && IsHex(a) && IsHex(b) && IsHex(c)
    ensures var small, large := [ReadyNode(a), ReadyNode(b)], [ReadyNode(a), ReadyNode(b), ReadyNode(c)];
            && HexPool(large) && NodeReady(large, a)
            && (forall id :: id in AvailableIds(small) <==> id == a || id == b)
            && (forall id :: id in AvailableIds(large) <==> id == a || id == b || id == c)
  {
    var small, large := [ReadyNode(a), ReadyNode(b)], [ReadyNode(a), ReadyNode(b), ReadyNode(c)];
    assert large[0].id == a && large[1].id == b && large[2].id == c;
    assert small[0] in small && small[1] in small && large[0] in large && large[1] in large && large[2] in large;
    FindFirstIs(WithId(a), large, 0);
    forall id ensures id in AvailableIds(small) <==> id == a || id == b {
      AvailableIdsMember(small, id);
    }
    forall id ensures id in AvailableIds(large) <==> id == a || id == b || id == c {
      AvailableIdsMember(large, id);
    }
  }

  lemma GrownFacts()
    ensures HexPool(POOL.nodes) && HexPool(GROWN.nodes) && NodeReady(GROWN.nodes, "a") && "a" in AvailableIds(POOL.nodes)
    ensures forall x :: x in AvailableIds(POOL.nodes) ==> x in AvailableIds(GROWN.nodes)
    ensures "c" in AvailableIds(GROWN.nodes) && "c" !in AvailableIds(POOL.nodes)
  {
    var a, b, c := "a", "b", "c";
    assert a[0] == 'a' && b[0] == 'b' && c[0] == 'c';
    TwoNodes(a, b);
    ThreeNodes(a, b, c);
  }

  const GROWN_WORLD := HEALTHY.(pool := GROWN)
  const GROWN_SELECTION := Event(SelectNode("a"), GROWN_WORLD)

  lemma GrownAfter(t: Trace)
    requires Started(PHONE, t, POOL)
    ensures Routed(PHONE, Next(PHONE, t, GROWN_SELECTION)) && !Faithful(Next(PHONE, t, GROWN_SELECTION))
  {
    GrownFacts();
    GrownPool(PHONE, t, POOL, "a", GROWN_WORLD, "c");
  }

  /** Keeping connections right asks less than keeping `config` in force. */
  lemma GrownExample() returns (booted: Runtime)
    ensures Boot(PHONE, None, true) == Some(booted)
    ensures var t := Next(PHONE, Booted(booted), FIRST_START);
            && Started(PHONE, t, POOL)
            && Routed(PHONE, Next(PHONE, t, GROWN_SELECTION)) && !Faithful(Next(PHONE, t, GROWN_SELECTION))
  {
    booted := FirstBoot();
    GrownAfter(Next(PHONE, Booted(booted), FIRST_START));
  }
}
