/** Subscriptions and runtime together: runtime requests build with the pools that the coordinator
    publishes, while coordinator commands run at any time, even between two reads of one request. */
module ControlPlane {
  import opened Wrappers
  import opened Sequences
  import opened RuntimeModel
  import opened Identity
  import opened NodePool
  import opened RuntimeConfig
  import opened Commitments
  import Protocol
  import Runs
  import Routing
  import Updates
  import Interleavings

  datatype Plane = Plane(subscriptions: Updates.System, runtime: Runs.Trace)

  /** One coordinator command, or one runtime request during which the coordinator runs `between` its
      two reads of the pool. */
  datatype Action =
    | Command(command: Updates.Event)
    | Call(call: Runs.Event, between: seq<Updates.Event>)

  ghost function Act(env: Platform, options: Updates.Options, p: Plane, a: Action): Plane {
    match a
    case Command(e) => p.(subscriptions := Updates.Step(options, p.subscriptions, e))
    case Call(e, between) =>
      Plane(Updates.Run(options, p.subscriptions, between), Runs.Next(env, p.runtime, e))
  }

  ghost function RunPlane(env: Platform, options: Updates.Options, p: Plane, actions: seq<Action>): Plane {
    if actions == [] then p
    else Act(env, options, RunPlane(env, options, p, actions[..|actions| - 1]), actions[|actions| - 1])
  }

  /** `pool` is what reading this snapshot gives, in some iteration order. */
  ghost predicate ReadFrom(items: Snapshot, pool: Pool) {
    exists order :: IterationOrder(items, order) && pool.nodes == PoolNodes(items, order)
  }

  /** A request's pools come from the snapshots published when it reads them. */
  ghost predicate Honest(options: Updates.Options, p: Plane, a: Action) {
    match a
    case Command(e) => Updates.Possible(e)
    case Call(e, between) =>
      && (forall c :: c in between ==> Updates.Possible(c))
      && ReadFrom(p.subscriptions.items, e.world.pool)
      && ReadFrom(Updates.Run(options, p.subscriptions, between).items, e.world.laterPool)
  }

  ghost predicate HonestRun(env: Platform, options: Updates.Options, p: Plane, actions: seq<Action>) {
    actions == [] ||
    (HonestRun(env, options, p, actions[..|actions| - 1])
     && Honest(options, RunPlane(env, options, p, actions[..|actions| - 1]), actions[|actions| - 1]))
  }

  ghost predicate PlaneOk(env: Platform, options: Updates.Options, p: Plane) {
    Updates.AllOk(options.codec, p.subscriptions) && Runs.Invariant(env, p.runtime)
  }

  lemma ReadPool(options: Updates.Options, s: Updates.System, pool: Pool)
    requires Sound(options.codec) && Updates.AllOk(options.codec, s) && ReadFrom(s.items, pool)
    ensures HexPool(pool.nodes)
  {
    var order :| IterationOrder(s.items, order) && pool.nodes == PoolNodes(s.items, order);
    PoolWellFormed(options.codec, s.items, order);
  }

  lemma ActOk(env: Platform, options: Updates.Options, p: Plane, a: Action)
    requires Sound(options.codec) && PlaneOk(env, options, p) && Honest(options, p, a)
    ensures PlaneOk(env, options, Act(env, options, p, a))
  {
    match a {
      case Command(e) => Updates.StepOk(options, p.subscriptions, e);
      case Call(e, between) =>
        Updates.RunOk(options, p.subscriptions, between);
        ReadPool(options, p.subscriptions, e.world.pool);
        ReadPool(options, Updates.Run(options, p.subscriptions, between), e.world.laterPool);
        Runs.StepInvariant(env, p.runtime, e);
    }
  }

  /** From a first start on, under every interleaving of subscription commands, updates in flight and
      runtime requests, and with every failure: records stay sound, the persisted configuration is the
      one in memory and well formed, and until data loss a started daemon's configuration is the build
      of `runtimeConfig` for a pool that was read. */
  lemma {:induction false} PlaneSafe(env: Platform, options: Updates.Options, p: Plane, actions: seq<Action>)
    requires Sound(options.codec) && PlaneOk(env, options, p) && HonestRun(env, options, p, actions)
    ensures PlaneOk(env, options, RunPlane(env, options, p, actions))
  {
    if actions != [] {
      PlaneSafe(env, options, p, actions[..|actions| - 1]);
      ActOk(env, options, RunPlane(env, options, p, actions[..|actions| - 1]), actions[|actions| - 1]);
    }
  }

  /** Whatever pool is published then, the committed configuration compiles with it. */
  lemma PlaneBuildable(env: Platform, options: Updates.Options, actions: seq<Action>, saves: bool, pool: Pool)
    requires Sound(options.codec) && (env.mobile || env.isIP("127.0.0.1"))
    requires Protocol.Boot(env, None, saves).Some?
    requires var p := FirstPlane(env, saves);
             HonestRun(env, options, p, actions) && ReadFrom(RunPlane(env, options, p, actions).subscriptions.items, pool)
    ensures Builds(env, RunPlane(env, options, FirstPlane(env, saves), actions).runtime.state.persisted, pool.nodes)
  {
    var p := FirstPlane(env, saves);
    FirstPlaneOk(env, options, saves);
    PlaneSafe(env, options, p, actions);
    ReadPool(options, RunPlane(env, options, p, actions).subscriptions, pool);
    BuildableLater(env, RunPlane(env, options, p, actions).runtime.state.persisted, pool.nodes);
  }

  /******* Traffic and progress with published pools *******/

  /** The plane of a first start. */
  function FirstPlane(env: Platform, saves: bool): Plane
    requires Protocol.Boot(env, None, saves).Some?
  {
    Plane(Updates.EMPTY, Runs.Booted(Protocol.Boot(env, None, saves).value))
  }

  /** Every live selection of the run meets its condition, on the pool that it read. */
  ghost predicate RoutingPlane(env: Platform, options: Updates.Options, p: Plane, actions: seq<Action>) {
    actions == [] ||
    (RoutingPlane(env, options, p, actions[..|actions| - 1])
     && KeepsAct(env, RunPlane(env, options, p, actions[..|actions| - 1]), actions[|actions| - 1]))
  }

  ghost predicate KeepsAct(env: Platform, p: Plane, a: Action) {
    a.Call? ==> Routing.KeepsRouting(env, p.runtime, a.call)
  }

  ghost predicate RoutedPlane(env: Platform, options: Updates.Options, p: Plane, actions: seq<Action>) {
    Routing.Routed(env, p.runtime) &&
    (actions == [] ||
     (RoutedPlane(env, options, p, actions[..|actions| - 1]) && Routing.Routed(env, RunPlane(env, options, p, actions).runtime)))
  }

  /** The history is empty, or its last action is a request that loaded and was done. */
  ghost predicate JustLoaded(env: Platform, options: Updates.Options, p: Plane, actions: seq<Action>) {
    actions != [] ==>
      var last := actions[|actions| - 1];
      last.Call? && Routing.Activation(env, RunPlane(env, options, p, actions[..|actions| - 1]).runtime, last.call)
  }

  lemma CallPossible(env: Platform, options: Updates.Options, p: Plane, a: Action)
    requires Sound(options.codec) && PlaneOk(env, options, p) && Honest(options, p, a) && a.Call?
    ensures Runs.Possible(a.call)
  {
    Updates.RunOk(options, p.subscriptions, a.between);
    ReadPool(options, p.subscriptions, a.call.world.pool);
    ReadPool(options, Updates.Run(options, p.subscriptions, a.between), a.call.world.laterPool);
  }

  lemma ActRouting(env: Platform, options: Updates.Options, p: Plane, a: Action)
    requires Sound(options.codec) && PlaneOk(env, options, p) && Honest(options, p, a) && Routing.Rooted(env, p.runtime)
    ensures var q := Act(env, options, p, a);
            && Routing.Rooted(env, q.runtime) && (Routing.RoutedSync(q.runtime) <==> Routing.Routed(env, q.runtime))
            && (Routing.RoutedSync(p.runtime) ==> (Routing.RoutedSync(q.runtime) <==> KeepsAct(env, p, a)))
  {
    if a.Call? {
      CallPossible(env, options, p, a);
      Routing.LastRouted(env, p.runtime, a.call);
    } else {
      Routing.RoutedIffSync(env, p.runtime);
    }
  }

  lemma {:induction false} PlaneRooted(env: Platform, options: Updates.Options, p: Plane, actions: seq<Action>)
    requires Sound(options.codec) && PlaneOk(env, options, p) && Routing.Rooted(env, p.runtime) && HonestRun(env, options, p, actions)
    ensures Routing.Rooted(env, RunPlane(env, options, p, actions).runtime)
  {
    if actions != [] {
      var init := actions[..|actions| - 1];
      PlaneSafe(env, options, p, init);
      PlaneRooted(env, options, p, init);
      ActRouting(env, options, RunPlane(env, options, p, init), actions[|actions| - 1]);
    }
  }

  lemma {:induction false} PlaneRouted(env: Platform, options: Updates.Options, p: Plane, actions: seq<Action>)
    requires Sound(options.codec) && PlaneOk(env, options, p) && Routing.Rooted(env, p.runtime) && Routing.RoutedSync(p.runtime)
    requires HonestRun(env, options, p, actions)
    ensures RoutedPlane(env, options, p, actions) <==> RoutingPlane(env, options, p, actions)
    ensures RoutingPlane(env, options, p, actions) ==> Routing.RoutedSync(RunPlane(env, options, p, actions).runtime)
  {
    Routing.RoutedIffSync(env, p.runtime);
    if actions != [] {
      var init := actions[..|actions| - 1];
      PlaneSafe(env, options, p, init);
      PlaneRooted(env, options, p, init);
      PlaneRouted(env, options, p, init);
      ActRouting(env, options, RunPlane(env, options, p, init), actions[|actions| - 1]);
    }
  }

  lemma FirstPlaneOk(env: Platform, options: Updates.Options, saves: bool)
    requires (env.mobile || env.isIP("127.0.0.1")) && Protocol.Boot(env, None, saves).Some?
    ensures var p := FirstPlane(env, saves);
            PlaneOk(env, options, p) && Routing.Rooted(env, p.runtime) && Routing.RoutedSync(p.runtime)
  {
    Runs.BootSafe(env, None, saves);
    Interleavings.EmptySound(options);
    Routing.StoppedGood(env, FirstPlane(env, saves).runtime);
  }

  lemma PlaneLoaded(env: Platform, options: Updates.Options, p: Plane, actions: seq<Action>)
    requires Sound(options.codec) && PlaneOk(env, options, p) && Routing.Rooted(env, p.runtime) && Routing.RoutedSync(p.runtime)
    requires HonestRun(env, options, p, actions) && JustLoaded(env, options, p, actions)
    ensures var q := RunPlane(env, options, p, actions);
            PlaneOk(env, options, q) && Routing.Rooted(env, q.runtime) && Routing.RoutedSync(q.runtime)
  {
    PlaneSafe(env, options, p, actions);
    if actions != [] {
      var init, last := actions[..|actions| - 1], actions[|actions| - 1];
      PlaneSafe(env, options, p, init);
      CallPossible(env, options, RunPlane(env, options, p, init), last);
      Routing.ActivationRestores(env, RunPlane(env, options, p, init).runtime, last.call);
    }
  }

  /** From a first start on, whatever the coordinator publishes and the runtime is asked to do, and from
      the last request on that loaded: until data loss is reported, a started daemon sends every
      connection where the committed model says, throughout the run, exactly when each live selection
      meets its condition on the published pool that it read. */
  lemma PlaneTraffic(env: Platform, options: Updates.Options, saves: bool, before: seq<Action>, actions: seq<Action>)
    requires Sound(options.codec) && (env.mobile || env.isIP("127.0.0.1")) && Protocol.Boot(env, None, saves).Some?
    requires HonestRun(env, options, FirstPlane(env, saves), before) && JustLoaded(env, options, FirstPlane(env, saves), before)
    requires HonestRun(env, options, RunPlane(env, options, FirstPlane(env, saves), before), actions)
    ensures var p := RunPlane(env, options, FirstPlane(env, saves), before);
            RoutedPlane(env, options, p, actions) <==> RoutingPlane(env, options, p, actions)
  {
    FirstPlaneOk(env, options, saves);
    PlaneLoaded(env, options, FirstPlane(env, saves), before);
    PlaneRouted(env, options, RunPlane(env, options, FirstPlane(env, saves), before), actions);
  }

  /** After any such history a start, or a restart, with the published pool succeeds when every external
      call does. */
  lemma PlaneStarts(env: Platform, options: Updates.Options, saves: bool, actions: seq<Action>, a: Action)
    requires Sound(options.codec) && (env.mobile || env.isIP("127.0.0.1")) && Protocol.Boot(env, None, saves).Some?
    requires HonestRun(env, options, FirstPlane(env, saves), actions)
    requires a.Call? && Honest(options, RunPlane(env, options, FirstPlane(env, saves), actions), a) && Runs.Healthy(a.call.world)
    requires var t := RunPlane(env, options, FirstPlane(env, saves), actions).runtime;
             a.call.request.Restart? || (a.call.request.Start? && !t.state.daemon.Running())
    ensures Runs.Activates(env, RunPlane(env, options, FirstPlane(env, saves), actions).runtime.state, a.call)
  {
    var p := RunPlane(env, options, FirstPlane(env, saves), actions);
    FirstPlaneOk(env, options, saves);
    PlaneSafe(env, options, FirstPlane(env, saves), actions);
    CallPossible(env, options, p, a);
    Runs.StartSucceeds(env, p.runtime, a.call);
  }
}
