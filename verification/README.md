# TargetLib control plane: a verified model

TargetLib drives a sing-box daemon. Three parts of it decide what the daemon does, and this project
models them and proves properties of them:

* **The configuration compiler** (`config/`): `NormalizeRuntimeModel` accepts and canonicalises nodes,
  selectors and service routes; `planRuntimeModel` compiles them to outbounds and a first-match rule list.
* **The runtime protocol** (`manager/`): start, restart, stop, settings updates, route upserts and deletes
  and two kinds of node selection. Each one builds the next configuration, applies it to a daemon that can
  fail, saves it to a store that can fail, swaps memory, and rolls back what failed.
* **The subscription coordinator** (`subscriptions/`, `profile/`): a single writer publishes snapshots and
  writes a store, while updates in flight interleave with other commands. Its node pools are what the
  runtime builds with.

The main results span the parts. `Routing.RunTraffic`: from any start, after any requests and failures, and from
the last request on that loaded a configuration, a started daemon sends every connection where the committed
model says, throughout the run and until data loss is reported, exactly when each live selection of the run meets
one condition: a choice that the daemon takes is saved with every other selection that matters still possible in
the pool, or taken back, or is the committed one or one that no connection reaches. `Witness.StrayExample` is a
concrete run that breaks it. `ControlPlane.PlaneSafe`: every interleaving of coordinator and runtime keeps records
sound, store and memory equal, and the configuration well formed and compilable; `ControlPlane.PlaneTraffic` and
`ControlPlane.PlaneStarts` restate the routing equivalence and progress with the pools that the coordinator
publishes. `Emission.CarriedByNode`: the outbound that carries a connection has the settings of the node that the
model sends it to. `Choosing` and `Requests` say of every request exactly when it succeeds and what it leaves, and
`Commands` the same of every coordinator command, with how long its effect lasts.

## How the model is organised

| module | part of the program |
|---|---|
| `Text`, `Sequences`, `Domains` | strings, lists up to reordering, host names and suffix match |
| `RuntimeModel`, `Validation`, `Canonicity`, `Acceptance` | model data, `NormalizeRuntimeModel`, its canonical form, both told element by element |
| `Planner`, `Closure`, `Meaning`, `Emission` | the compiler, reference closure, preservation of meaning, the emitted objects one by one |
| `RuntimeConfig`, `Commitments`, `Edits`, `Effects`, `Selections`, `Admission` | desired configuration, what commits keep, what edits change, which edits build |
| `Protocol`, `Runs`, `Agreement`, `InForce`, `Routing` | the transaction protocol as steps, and what holds over its runs |
| `Choosing`, `Requests` | each request told from its arguments: refusals, exactly when it succeeds, what it leaves |
| `Progress`, `Services`, `Witness` | served round trips, what a served upsert does to connections, concrete runs |
| `Controller` | `class Manager`: the same operations imperatively, proved equal to the steps |
| `Identity`, `Codecs`, `Country`, `NodePool` | content-derived node IDs, an encoding that meets their assumption, whole-word search, the pool of a snapshot |
| `Subscriptions`, `Store`, `Updates`, `Interleavings`, `Commands` | records, the transactional store, coordinator steps and runs, each command field by field |
| `Coordinator` | `class SubscriptionManager`: the commands imperatively, proved equal to the steps |
| `ControlPlane` | coordinator and runtime together |

Where the source works step by step on fields, lists and maps, the model has methods and classes whose
`ensures` equate the result with a specification function (`Protocol.*`, `Updates.*`, `Canonical`, `Plan`,
`WithSource`). The properties are proved of those functions; `Acceptance`, `Emission`, `Admission`, `Choosing`,
`Requests` and `Commands` say what the functions compute without naming their parts. Go's map iteration is an arbitrary choice
(`Validation.Enumerate`, `:|`). Every external call is an input: `Protocol.World` says what the daemon, the
store, `checkConfig` and the encoder answer during one request, `storeOk` whether a store transaction succeeds.

Assumptions and readings of the source:

* SHA-256 and JSON encoding are a parameter `Codec`; `Identity.Sound` assumes they do not confuse inputs,
  digests are hexadecimal, and encoded JSON holds no raw NUL. `Codecs.SoundCodec` shows that this can be met. The
  values of a document stand for compacted and HTML-escaped JSON text, on which encoding is injective.
* A failed `applyConfig` leaves no service running (manager/runtime_controller.go:197-198). Restoring the
  previous content when there is none counts as a failed restore.
* The meaning that compilation preserves is the decision diagram of `docs/GRPC.md:260-269`: service routes, then
  the mainland rule, then the default node. Which service wins when several match is the code's longest suffix
  (config/build.go:156-165).
* Data loss stays in force until the next successful activation (`Runs.Extend`).
* `Settings.Validate` accepts an unset route mode and writes the default to a copy only
  (config/settings.go:57-59); an unset mode therefore compiles like `all`. `buildSettings` refuses it earlier.
* `UpsertRoute` reads the pool once to check the node and again to build, so it has two pools.
* Library sorts are unstable; `Sequences.SortedUnique` shows that a sort whose ties are
  equalities has one possible result. Tags, service IDs and node IDs are distinct on accepted input, and
  `Meaning.RuleTies` covers the rule sort.
* A service's selector lists the nodes that were available at its last upsert, so a node published later cannot be
  selected for it (`Choosing.SelectRouteNodeSucceeds`). Selecting the default node records the revision of the pool
  it read, selecting for a service does not (manager/node_selection.go:30, manager/routes.go:126-135).
* Between requests the daemon's status is idle, started or fatal; `Crash` lets it die at any such point.

## Model

| member | source | states |
|---|---|---|
| Text.BlankIsTrimmed | manager/routes.go:16-18 | a string of white space only is exactly one that trims to nothing, which is how the model says the argument checks |
| Domains.ValidDomain | config/runtime_validation.go:110-125 | the loops accept a name exactly when it has at most 253 characters and every label is an LDH label of 1 to 63 characters without outer hyphens |
| Domains.HostNameGrammar | config/runtime_validation.go:110-125 | the accepted names are exactly the dot-joins of labels of 1 to 63 lower-case letters, digits and hyphens without outer hyphens, said without a parser |
| Domains.HostNameIsCanonical | config/runtime_validation.go:81-93 | an accepted name is unchanged by trimming, dropping a final dot and lower-casing |
| Domains.CanonicalSpelling | config/runtime_validation.go:81-93 | of a text with white space around it and perhaps a final dot, canonicalising leaves the text, character by character in lower case |
| Domains.SpellingAccepted | config/runtime_validation.go:81-93 | a host name in any letter case, dot-terminated or not, is canonicalised to its lower-case form |
| Domains.SuffixMatchLabels | config/build.go:149-153 | a domain suffix matches a host exactly when its labels are the host's last labels; no label is cut |
| Validation.NormalizeRuntimeModel | config/runtime_validation.go:11-108 | succeeds exactly on `Accepts` models and returns `Canonical`, whatever order the maps are read back in |
| Validation.CollectNodes | config/runtime_validation.go:15-25 | accepts exactly pools with distinct, unreserved IDs; the ready set is the available IDs |
| Validation.CollectSelectors | config/runtime_validation.go:26-58 | accepts exactly when every selector is acceptable and tags are distinct; the map holds each canonical selector under its tag |
| Canonicity.OrderIrrelevant | config/runtime_validation.go:11-108 | models that differ only in the order of selectors, routes, node-ID lists and domain lists are accepted alike and have one result |
| Canonicity.NormalizingTwice | config/runtime_validation.go:11-108 | an accepted result is accepted again and returned unchanged |
| Acceptance.AcceptedIff | config/runtime_validation.go:11-108 | a model is accepted exactly under the listed conditions on node IDs, tags, members, selections, services and domains, each said of elements and positions |
| Acceptance.CanonicalIs | config/runtime_validation.go:11-108 | the result holds exactly each selector with its members, for the proxy every available node and direct, in ascending order, and each route with the same fields and its domains in canonical spelling, in ascending order of tags and services |
| Planner.PlanOutboundsWithSelectors | config/build.go:181-262 | succeeds exactly when node tags and service selectors are well formed, and emits nodes, direct, groups and services in order |
| Planner.PlanRules | config/build.go:142-173 | service rules, longest suffix first, are spliced in after sniffing and DNS hijacking and before the China rule |
| Planner.DropURLTest | config/build.go:133-141 | the filter over its own array keeps exactly the outbounds of other types, in order |
| Planner.PlanRuntimeModel | config/build.go:121-179 | fails exactly on invalid settings, an unparsable listen address or bad outbounds, and otherwise returns the whole plan |
| Closure.PlanningSucceeds | config/build.go:181-262 | planning a normalised model with trim-stable IDs never fails |
| Closure.PlanIsClosed | config/build.go:121-179 | tags are distinct, each default is a member, and every member, rule outbound, final tag and rule set of a rule is emitted; in a probe run exactly when no emitted node is itself of the dropped type |
| Closure.AlwaysCompilesIff | config/build.go:133-201 | a pool compiles and closes for every normalised choice of selectors and routes exactly when its available IDs equal their own trim, or all of them are blank, and, for a probe run, no emitted node is itself of the dropped type |
| Meaning.MeaningPreserved | config/build.go:142-173 | for every accepted model, mode, host and port, first match plus selector defaults gives exactly the model's meaning: the selected node of the enabled service with the longest matching suffix, else direct for China in rule mode, else the proxy selection |
| Emission.NodesCarried | config/build.go:184-202 | the emitted nodes are exactly the available nodes with a non-blank ID, each under its trimmed ID with its own type and settings |
| Emission.GroupsCarried | config/build.go:203-262 | the other outbounds are exactly the direct one, the URL test over all nodes, the proxy selector over all nodes and direct with its selection or the first node, and each service's selector with its members and selection; without nodes, each selector set to direct |
| Emission.RulesCarried | config/build.go:142-173 | the rules are exactly sniffing, the DNS hijack in TUN mode, one rule per domain of each enabled service, longer suffixes first, and the mainland rule in rule mode, whose rule set is defined |
| Emission.CarriedByNode | config/build.go:121-262 | a connection that the model sends to a node is carried by the outbound with that node's own type and settings, and one sent to direct by the direct outbound |
| Meaning.RuleTies | config/build.go:156-165 | two service rules that the sort does not tell apart are the same rule, so the rule list does not depend on the sorting algorithm |
| Country.ContainsWord | profile/country.go:88-104 | true exactly when some occurrence of the word has no lowercase letter next to it; advancing by one misses no overlapping occurrence |
| Identity.ComputeWithSource | profile/identity.go:13-34 | the loop decodes, identifies, keeps the first node of each ID and sorts by ID |
| Identity.WithSourceFixed | profile/identity.go:13-34 | the lists it leaves alone are exactly the strictly sorted lists whose nodes carry the key of their own settings |
| Identity.WithSourceIdempotent | profile/identity.go:13-34 | applying it twice is applying it once |
| Identity.WithSourceMembers | profile/identity.go:13-34 | the result holds exactly, of the nodes whose document decodes, the first with each ID, under that ID and its subscription and otherwise unchanged |
| Identity.KeyInjective | profile/identity.go:17-24 | two nodes share an ID exactly when they share the subscription and their documents have the same keys and values apart from the display name; the NUL separator is unambiguous |
| Identity.RenameKeepsKey | profile/identity.go:11-24 | setting the display name to anything, or dropping it, leaves the ID as it is, for every codec |
| Codecs.SoundCodec | profile/identity.go:22-24 | some codec meets the assumption on encoding and digest, so nothing is proved of no codec |
| Identity.IdSequence | profile/identity.go:11-12 | two inputs get the same ID sequence exactly when they have the same set of documents up to display names; order does not matter |
| Store.MemoryStoreTx.Put | subscriptions/store.go:61-70 | is map update, keeps IDs unique, and an existing record keeps its place |
| Store.MemoryStoreTx.Delete | subscriptions/store.go:72-80 | is map removal of the first match and keeps the order of the rest |
| Store.MemoryStore.Update | subscriptions/store.go:42-54 | a cancelled context or a callback error at any point leaves every item and metadata value; success runs the whole script on the maps |
| RuntimeConfig.BuildSettings | manager/config.go:33-71 | what it returns is valid, names one of the three route modes and is not a probe; mobile systems always tunnel |
| RuntimeConfig.ReconcileRuntimeSelections | manager/runtime_controller.go:167-195 | unavailable selections become direct, unavailable members are dropped, an empty list becomes direct |
| RuntimeConfig.NormalizeDesired | manager/runtime_controller.go:134-165 | completes the proxy selector, reconciles, normalises and writes back exactly `Committed` |
| RuntimeConfig.PrepareContent | manager/runtime_controller.go:71-89 | succeeds exactly when settings, normalisation, planning and encoding do |
| Commitments.BuildableLater | manager/runtime_controller.go:134-195 | a well-formed configuration compiles for every later pool of distinct hexadecimal IDs |
| Commitments.CommitKeeps | manager/runtime_controller.go:134-195 | whatever builds from a paired configuration whose services list direct commits to a well-formed one |
| Commitments.DefaultWellFormed | manager/runtime_config.go:17-30 | the configuration of a first start is well formed |
| Commitments.PairedOneToOne | manager/routes.go:31-48 | non-proxy selectors and services correspond one to one through the tag `route-<service>` |
| Edits.UpsertPaired | manager/routes.go:30-51 | an upsert adds one pair or rewrites one: the lists of tags and services grow by that one at most, every other selector and route stays as it is, and the correspondence and the way back to direct are kept |
| Edits.DeletePaired | manager/routes.go:66-83 | a delete removes exactly one pair and keeps the correspondence |
| Edits.SelectPaired | manager/node_selection.go:32-48 | selecting a node, creating the proxy selector if need be, leaves pairing and the way back to direct alone |
| Admission.BuiltSettings | manager/config.go:33-71 | settings are accepted exactly with one of three route modes, a proxy mode unless the system is mobile, a one-line address and a port of 1 to 65535; address, port and IPv6 are passed on, and a mobile system tunnels |
| Admission.UpsertBuilds | manager/routes.go:21-51 | an upsert of an available node builds, for any later pool, exactly when the service ID is a name other than default, all domains are host names, and, if enabled, none is repeated or taken by another enabled service |
| Admission.DeleteBuilds | manager/routes.go:66-83 | deleting an existing service builds for any later pool |
| Admission.CommittedAre | manager/runtime_controller.go:134-195 | a commit leaves exactly, for each selector, its selection if it is still there and direct otherwise, with the listed members that are left, or for the proxy all there are, and adds a proxy selector set to the first available node if there was none |
| Effects.CommittedIsSettled | manager/runtime_controller.go:134-165 | committing twice against one pool is committing once, and compiles to the same content |
| Effects.UpsertEffect | manager/routes.go:15-57 | afterwards the routes are the others, untouched, and the requested one in canonical form |
| Effects.UpsertSelects | manager/routes.go:41-44 | the service's selector selects the requested node, or direct if the node was gone at the second read |
| Effects.UpsertOthers | manager/routes.go:36-44 | every other selector is what committing without the upsert would give |
| Effects.DeleteEffect | manager/routes.go:59-88 | exactly the named route and its selector tag are gone |
| Effects.UpsertThenDelete | manager/routes.go:15-88 | on a configuration committed against the current pool, adding a fresh service and deleting it succeeds and restores selectors, routes and settings exactly |
| Progress.ServedRoundTrip | manager/routes.go:15-88 | serving the upsert of a fresh service and then its deletion with one pool leaves the original configuration in memory and in the store |
| Selections.ContentAgrees | config/build.go:214-262 | freshly loaded content starts with the committed selection of every selector, and each choice is offered |
| Selections.LiveSelection | manager/runtime_controller.go:252-273 | after one live choice the running choices agree with the new configuration exactly when no other selection was lost with the pool |
| Protocol.ApplySnapshot | manager/runtime_controller.go:197-237 | all or nothing: success exactly when checked, not cancelled, applied and saved, and then store and memory hold `next`; failure changes neither store nor memory; Internal means the old content runs again, or nothing if nothing ran; DataLoss exactly when undoing failed |
| Controller.Manager.ApplySnapshot | manager/runtime_controller.go:197-237 | the statements, with their early returns and rollback closure, make that step |
| Controller.Manager.CommitLiveSelector | manager/runtime_controller.go:252-273 | select, save, revert on a failed save, swap: exactly the protocol step |
| Controller.Manager.ApplyDesired | manager/runtime_controller.go:101-120 | builds, waits for a stable status and applies; the daemon is activated exactly when it was running |
| Controller.Manager.ActivateSavedRuntime | manager/runtime_controller.go:122-132 | rebuilds the saved configuration for the current pool and activates it without a cancellable context |
| Controller.Manager.StartRuntime | manager/manager.go:214-225 | refuses a started or starting daemon, otherwise activates; nothing was running |
| Controller.Manager.RestartRuntime | manager/manager.go:227-235 | activates, with rollback to the old content if the daemon was started |
| Controller.Manager.StopService | manager/manager.go:237-251 | does nothing to an idle or fatal daemon, otherwise closes it |
| Controller.Manager.UpdateRuntimeConfig | manager/runtime_config.go:58-68 | commits the canonical settings with everything else unchanged |
| Controller.Manager.UpsertRoute | manager/routes.go:15-57 | checks arguments and node, edits the clone, applies it with the second pool |
| Controller.Manager.DeleteRoute | manager/routes.go:59-88 | splices route and selector out of the clone and applies it |
| Controller.Manager.SelectNode | manager/node_selection.go:16-83 | the proxy selection, live while running and saved otherwise; daemon and store errors become Internal |
| Controller.Manager.SelectRouteNode | manager/routes.go:115-151 | the same for a service's selector, with its own errors passed on |
| Controller.EditUpsert | manager/routes.go:30-51 | find or append the selector and the route, then overwrite them: `UpsertEdit` |
| Controller.EditDelete | manager/routes.go:66-83 | none for an unknown service, otherwise `DeleteEdit` |
| Choosing.RouteChosen | manager/routes.go:115-134 | a service selection is let through, with the tag `route-<service>`, exactly for an available node and an existing service; the other answers are the source's refusals |
| Controller.FindRouteToSelect | manager/routes.go:115-134 | the selector to change, or which of the five refusals applies |
| Controller.Open | manager/manager.go:100-130 | loads or creates the configuration, makes its settings canonical, saves what changed, refuses settings that do not build |
| Choosing.SelectRouteNodeSucceeds | manager/routes.go:115-151 | in every safe running state an available node of any pool is selected for a service exactly when the save succeeds and the service's selector lists the node |
| Choosing.SavedSelection | manager/node_selection.go:61-76 | while nothing runs, both selections leave the daemon alone and are done exactly when the save succeeds and, for a service, its selector lists the node |
| Choosing.SelectNodeOutcome | manager/node_selection.go:29-53 | afterwards the proxy selector has the choice and the time, every other selector is what committing leaves, routes and settings stay, and the revision is that of the pool read |
| Choosing.SelectRouteNodeOutcome | manager/routes.go:126-151 | the same for the selector of the service, with the revision of the last commit |
| Choosing.SelectionCodes | manager/runtime_controller.go:252-273 | a prepared selection ends with the first failure that applies: not buildable, no stable status, the daemon, the store; else it is done |
| Requests.AppliedOutcome | manager/runtime_controller.go:101-120 | an edit is done exactly when it builds and encoder, status, check, caller, store and, if it runs, the daemon let it; otherwise which failure it is, and that only a failed activation touches the daemon |
| Requests.UpdateSucceeds | manager/runtime_config.go:58-68 | settings are done exactly when they are acceptable, a mixed listener's address parses, and the world lets them |
| Requests.UpdateOutcome | manager/runtime_config.go:43-68 | the committed and stored settings are those asked for, except that a mobile system tunnels |
| Requests.BootIs | manager/manager.go:100-130 | a start takes the stored configuration, or the given first one, changes nothing but the proxy mode of a mobile system, and is refused exactly for unacceptable settings or a change that cannot be saved |
| Requests.UpsertSucceeds | manager/routes.go:15-57 | an upsert is done exactly when the node is available, the service admissible and the world lets it |
| Requests.UpsertOutcome | manager/routes.go:30-57 | afterwards memory and store hold the service with its name, canonical domains, own selector and switch; the selector lists what was available and still is, with the node and the time; settings and others stay |
| Requests.DeleteSucceeds | manager/routes.go:59-88 | a delete is done exactly when the service exists and the world lets it |
| Requests.DeleteOutcome | manager/routes.go:66-88 | afterwards exactly the other routes are there, and the other selectors as committing leaves them |
| Requests.StartOutcome | manager/manager.go:214-235 | start, of a stopped daemon, and restart are done exactly when status, encoder, check, daemon and store let them, whatever pool is published; a cancelled caller does not matter |
| Requests.StopOutcome | manager/manager.go:237-251 | a stop is done exactly when nothing runs or closing succeeds; then nothing runs, and memory and store stay |
| Requests.LoadedCarries | manager/runtime_controller.go:101-132 | a request that is done and leaves the daemon running has loaded the committed settings and exactly the available nodes of its pool, each with its own type and settings |
| Requests.RunNodes | manager/runtime_controller.go:101-273 | over every run, until data loss, a started daemon has exactly the available nodes of one pool that was read, each with its own type and settings |
| Controller.Manager.ServeAll | manager/manager.go:193-212 | serving requests one after the other makes the run that the run theorems are about |
| Runs.StepInvariant | manager/runtime_controller.go:101-273 | every request keeps: persisted equals memory, well formed, and until data loss a started daemon's `config` is the build of `runtimeConfig` for a pool that was read |
| Runs.RunSafe | manager/runtime_controller.go:101-273 | that holds over every run with arbitrary pools and failures |
| Runs.BootSafe | manager/manager.go:100-130 | a first start and every restart from a persisted configuration establish it; starting is refused only when the store fails, and changes nothing but the proxy mode of a mobile system |
| Runs.ReachableBuildable | manager/runtime_controller.go:134-195 | every configuration persisted in any run compiles for any later pool and stays paired |
| Runs.StartSucceeds | manager/manager.go:214-235 | when every external call succeeds, start and restart succeed in every reachable state for whatever pool is published |
| Agreement.PreviousKnown | manager/runtime_controller.go:264-269 | in every safe running state the previous selection is non-empty, is the running choice and is still offered, so the guard never skips the revert |
| Agreement.SelectionOutcome | manager/runtime_controller.go:255-273 | a live selection is done exactly when its guards, the daemon and the save let it; otherwise it changes nothing, or, when it strays as in the next row, exactly the running choice of its selector |
| Agreement.FailedSelection | manager/runtime_controller.go:255-270 | a failed live selection loses the agreement exactly when the request's guards let it through, the daemon took a choice that differs from the committed one, and neither the save nor the revert succeeded |
| Agreement.SuccessfulSelection | manager/runtime_controller.go:255-273 | a successful selection keeps the agreement exactly when the pool still has every other committed selection |
| Agreement.StepInSync | manager/runtime_controller.go:199-273 | every request keeps the agreement, except exactly a live selection outside that condition on its pool and answers |
| Agreement.RunInSync | manager/runtime_controller.go:199-273 | until data loss, the running choices are the committed selections throughout a run exactly when every selection that the daemon takes is saved with all other selections still possible, or taken back |
| InForce.PlannedSwitch | config/build.go:211-262 | planning after a selection equals switching that one choice in the plan from before |
| InForce.SelectionCommits | manager/node_selection.go:29-53 | selecting on a settled configuration changes that selection and nothing else |
| InForce.SelectedFaithful | manager/runtime_controller.go:255-273 | after a successful live selection the loaded configuration under the live choices equals `config` exactly when the pool it was prepared with emits the nodes of the pool in use |
| InForce.StepFaithful | manager/runtime_controller.go:199-273 | the loaded configuration under the live choices stays equal to `config` under every request, except exactly a live selection that is saved with a pool emitting other nodes, or neither saved nor taken back |
| InForce.RunFaithful | manager/runtime_controller.go:199-273 | until data loss, that equality holds throughout a run exactly when every live selection of the run keeps that condition |
| Routing.RoutedIffSync | config/build.go:142-173 | in every reachable state, every connection goes where the committed model says exactly when the live choices that connections can reach, none in direct mode, are the committed selections |
| Routing.ActivationRestores | manager/runtime_controller.go:101-132 | a request that loads and is done restores the agreement, the configuration in force and the routing, whatever the choices were before |
| Routing.StepRouting | manager/runtime_controller.go:199-273 | every request keeps the choices that matter, except exactly a live selection outside the condition on its pool and answers |
| Routing.SelectionTraffic | manager/runtime_controller.go:255-273 | one live selection keeps all connections right exactly when direct mode is on, or it is saved with every other selector that is the proxy or serves an enabled route still selectable in the pool, or it is taken back, the committed choice, or of no such selector |
| Routing.RunTraffic | manager/runtime_controller.go:101-273 | from any start and from the last request on that loaded: until data loss, every connection goes where the committed model says throughout a run exactly when each of its live selections meets the condition |
| Routing.AgreementKeepsRouting | manager/runtime_controller.go:255-273 | a run whose live selections keep every choice in agreement also meets the condition for connections |
| Routing.RunRestored | manager/runtime_controller.go:199-273 | the equivalences for the agreement of all choices and for the configuration in force, from the last request on that loaded |
| Services.UpsertTraffic | manager/routes.go:15-57 | after a served upsert of an enabled service outside direct mode, a started daemon sends every connection to a host that the service claims with the longest domain to the requested node, or direct if the node was gone at the second read |
| Choosing.SelectNodeSucceeds | manager/node_selection.go:16-83 | in every safe running state an available node of any pool is selected live exactly when the save succeeds and the pool in use has the node |
| Witness.StrayExample | manager/runtime_controller.go:264-270 | a concrete run, two nodes and a first start, in which a failed save with a refused revert loses the agreement, the configuration in force and the routing |
| Witness.GrownExample | manager/runtime_controller.go:252-273 | a concrete run in which a selection saved with a grown pool leaves `config` not in force and every connection right |
| NodePool.ReadNodePool | subscriptions/node_pool.go:19-31 | the pool is the enabled entries' nodes in some iteration order, sorted by ID |
| NodePool.PoolWellFormed | subscriptions/node_pool.go:19-31 | the pool is strictly sorted with distinct hexadecimal IDs and holds exactly the enabled subscriptions' nodes |
| NodePool.PoolOrderIrrelevant | subscriptions/node_pool.go:19-27 | every iteration order gives the same pool |
| NodePool.AcrossSubscriptions | profile/identity.go:20-25 | nodes of two subscriptions never share an ID |
| Updates.FailureDelay | subscriptions/manager.go:533-542 | an eighth of the interval, but between 1 and 30 minutes, and at most a fifth of the interval exactly when the interval reaches 5 minutes |
| Updates.StepOk | subscriptions/manager.go:93-201 | every command keeps records filed under their own ID, nodes fixed by `WithSource`, and at least 5 minutes between automatic updates, in snapshot, store and copies in flight |
| Updates.RunOk | subscriptions/manager.go:93-201 | so does every interleaving |
| Updates.StepNoStuck | subscriptions/manager.go:390-442 | an entry is updating only while an update of it is in flight |
| Updates.RunNoStuck | subscriptions/manager.go:253-442 | no interleaving leaves an update stuck |
| Interleavings.UpdateEnds | subscriptions/manager.go:273-321 | however an update ends, stored or not, its entry is not updating then or later, until another update of it begins |
| Updates.StepAgree | subscriptions/manager.go:390-458 | every command keeps snapshot and store in agreement up to status, stage and error; a commit that cannot be stored does so exactly when the store still holds the copy taken at the beginning |
| Interleavings.RunCoherent | subscriptions/manager.go:390-458 | in every interleaving whose unstored commits are of subscriptions not added, removed or modified since their update began, the agreement holds |
| Interleavings.RenameDuringUpdate | subscriptions/manager.go:417-431 | the end of an update that began before a rename publishes the old name; stored, it overwrites the new name in the store too, not stored, it leaves snapshot and store apart |
| Interleavings.SettingSurvives | subscriptions/manager.go:176-201 | a rename, a switch, automatic updates or a configured interval stay in snapshot and store in every later run that does not touch them again exactly when no update is in flight that holds another value |
| Interleavings.RemovedForGood | subscriptions/manager.go:417-421 | a removed subscription stays away in every later run that does not add it exactly when no update of it was in flight |
| Interleavings.RestartRecovers | subscriptions/manager.go:93-112 | under the agreement, loading rebuilds the snapshot up to status, stage and error, nothing is updating, and recomputing identities changes no profile |
| Interleavings.UpdateDefers | subscriptions/manager.go:284-310 | after a stored update, whatever interleaves except another update, reconfiguration or removal: not due for 5 minutes after a success and 1 after a failure; due, if enabled and automatic, one interval after a success and within half an hour and a fifth of the interval after a failure |
| Interleavings.ReachablePool | subscriptions/node_pool.go:19-31 | the pool of every reachable snapshot has distinct hexadecimal IDs in ascending order |
| Commands.AddOutcome | subscriptions/manager.go:114-153 | adding ends with the first error that applies, or puts the requested record, with its ID or the generated one, trimmed name, URL, interval, headers and switches, into snapshot and store |
| Commands.RenameOutcome | subscriptions/manager.go:176-182 | a blank name is refused; otherwise the trimmed name is in snapshot and store and everything else stays |
| Commands.ConfigureOutcome | subscriptions/manager.go:184-197 | automatic updates need five minutes and become due at once; a positive interval is kept, and everything else stays |
| Commands.RemoveOutcome | subscriptions/manager.go:155-174 | the entry is gone from snapshot and store, and every other stays |
| Commands.AddLasts | subscriptions/manager.go:114-153 | what a successful addition sets stays, in snapshot and store, in every later run that does not touch it exactly when no update is in flight that holds another value |
| Commands.ChangeLasts | subscriptions/manager.go:176-201 | the same for what a successful rename, switch or reconfiguration sets |
| Commands.RemovalLasts | subscriptions/manager.go:155-174 | a successful removal lasts, in every later run that does not add the ID, exactly when no update of it is in flight |
| Commands.FinishOutcome | subscriptions/manager.go:273-348 | by what was fetched, the ended record's status, error, document, validators, headers, interval and times; the request's fields stay; stored, it is in snapshot and store, not stored, the copy is published |
| Commands.ReloadOutcome | subscriptions/manager.go:93-112 | loading publishes exactly the stored records with an ID, identities recomputed, interrupted updates idle, everything else as stored |
| Coordinator.SubscriptionManager.Apply | subscriptions/coordinator.go:40-56 | one round of the loop: store, then publish the next state, or the failure state, or nothing |
| Coordinator.SubscriptionManager.Load | subscriptions/manager.go:93-112 | the loop over stored records rebuilds the snapshot and stores nothing |
| Coordinator.SubscriptionManager.AddRequest | subscriptions/manager.go:114-153 | defaults, errors in the source's order, then one stored record |
| Coordinator.SubscriptionManager.Remove | subscriptions/manager.go:155-174 | removes from snapshot and store together or changes nothing |
| Coordinator.SubscriptionManager.ModifyEntry | subscriptions/manager.go:176-201 | argument errors first, then the changed record is stored and published |
| Coordinator.SubscriptionManager.BeginUpdate | subscriptions/manager.go:390-404 | publishes the entry as updating, keeps a copy, stores nothing; a second update joins the first |
| Coordinator.SubscriptionManager.ReportStage | subscriptions/manager.go:405-416 | changes the stage of a published entry only |
| Coordinator.SubscriptionManager.FinishUpdate | subscriptions/manager.go:273-321 | computes the record of the four outcomes and commits it; success is reported exactly when the fetch succeeded and the commit was stored |
| Coordinator.SubscriptionManager.Commit | subscriptions/manager.go:417-431 | the record replaces the entry, or the copy is published again |
| Coordinator.SubscriptionManager.DueUpdates | subscriptions/manager.go:459-470 | lists exactly the enabled automatic subscriptions whose time has come |
| Coordinator.SubscriptionManager.ServeAll | subscriptions/coordinator.go:32-58 | any sequence of commands makes the run that the interleaving theorems are about |
| Coordinator.ApplyHeaderMetadata | subscriptions/manager.go:325-348 | headers override only what the server provides; a suggested interval below the minimum is ignored |
| ControlPlane.PlaneSafe | subscriptions/node_pool.go:19-31 | every interleaving of coordinator commands and runtime requests that read the published pools keeps both parts' invariants |
| ControlPlane.PlaneBuildable | manager/runtime_controller.go:134-195 | from a first start, the committed configuration compiles with whatever pool is published later |
| ControlPlane.PlaneTraffic | manager/runtime_controller.go:101-273 | from a first start, with published pools throughout and from the last request on that loaded: until data loss every connection goes where the committed model says throughout a run exactly when each of its live selections meets the condition on the pool it read |
| ControlPlane.PlaneStarts | manager/manager.go:214-235 | after any such history, start and restart with the published pool succeed when every external call does |

## Supporting statements

Two one-step facts stand behind rows above: `Updates.FinishedNotUpdating` (the end of one update) and
`Interleavings.FinishedSchedule` (the arithmetic of one schedule).

## Left out

- gRPC, protobuf, authentication, streams, relays, HTTP fetching, Badger and the keyring: transport and libraries; the store is `MemoryStore`'s contract with failing transactions.
- `Emit`, `checkConfig` and sing-box itself: the encoder and the check are inputs; the daemon is its status, loaded plan and running choices. Inbounds, DNS and the runtime section are functions of the settings alone and are represented by them.
- `ServiceReload`: it reads `config` before it takes the operation lock, so it can reload a configuration that a concurrent operation just replaced.
- Replies (`routeInfo`, `operationResponse`, `GetProxyStatus`, `ListRoutes`) and error texts; error codes of building are one code, `Unbuildable`, and of reading the status another, `Unavailable`.
- Starting and stopping statuses during an operation: between requests the model's daemon is idle, started or fatal.
- Removed subscriptions staying removed and renames surviving an update: false of the code in general; `Interleavings.RemovedForGood` and `Interleavings.SettingSurvives` say exactly when each holds.
- Pool changes under live selections: `commitLiveSelector` saves other selectors' reconciled values without telling the daemon; `Agreement.SuccessfulSelection` says exactly when that loses the agreement, `Routing.SelectionTraffic` when it changes where connections go, and `InForce.SelectedFaithful` when `config` stops being in force.
- `NormalizeSubscriptionURL` and `validateURL`: an input of `AddRequest`, absent when refused. The subscription parser and `ResolveEndpoints` are inputs of the fetch outcome.
- Events, subscribers, views and the limit of four concurrent scheduled updates; cancellation before a command reaches the coordinator is a command that does not happen.
- Aliasing: snapshots, configurations and transactions are values here, so the source's deep clones have no counterpart; the probe filter is the one place where storage is shared, and it is modelled on an array.
- Integer widths: ports, times and intervals are unbounded; the source only adds and divides them.
- Country inference beyond the word search: the alias table is iterated in map order and returns its first hit.
- Identity.KeyInjective: holds for a codec that is injective on whole documents, which a 256-bit digest is only in practice.
- Interleavings.UpdateDefers: says when the scheduler would find an entry due, not the clock that drives it.
