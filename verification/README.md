# KDCT control plane: a verified model

KDCT is a self-hosted deployment server (`kdcts`) with a tunnel (`tunnel`): client machines
connect over control channels, get a stable identity, and run containers whose ports are exposed
through a pool of server ports and a path-routing proxy. This project models the stateful core of
that server and proves what it keeps over every run.

| component | files | what is proved |
|---|---|---|
| node identity | `Identity`, `IdentityTheorems`, `IdentityHandlers`, `IdentityRaces`, `IdentityServer`, `IdentityMirror` | every interleaving of lock regions of any number of channels, event drains and restarts keeps one inductive invariant; a stored uuid keeps its owner for ever; handlers as single steps refine the lock regions; the exact conditions under which the registry and the handles go wrong; a caught-up database shows online exactly the listed nodes |
| the whole plane | `ControlPlane` | channels, deployments and connection rows under one event loop: no deployment outlives its node, over every run; once the loop has caught up every route has a forward over a running channel, unless a name was taken over; exactly which moves lose a deployment or leave a deployed row without one |
| two-key map | `MultiMap` | the two raw-pointer indexes refine a set of triples; every box is freed exactly once |
| resources | `PortPool`, `PortSpec`, `Routes`, `Deploy`, `DeployTheorems`, `DeployServer`, `Bridges`, `Connections` | partition of the pool, longest-prefix routing, end-to-end wiring of a deployment, ownership of routes, the bijection of rows and reserved ports, consistency of connection rows |
| data channels | `Sessions`, `Matching` | a stream reaches only the channel whose key its client derived; streams and waiting visitors are matched first-in first-out |
| codecs | `Wire`, `Percent`, `Text` | frames, UDP packets, messages, port specifications and percent coding round-trip, with the exact limits |

`Basics` holds the shared value types and `Chains` the generic notion of a finite run.

How the source is mapped:

* `Identity.Action` has one constructor per lock-protected region of `ControlChannel::run`, of the
  cleanup task and of the event loop, so a `Run` interleaves them freely. `IdentityHandlers.Handler`
  has one constructor per whole handler, and `HandlerIsLockRun` connects the two levels.
* New v4 uuids, channel ids and nonces are choices of names that were not used before. SHA-256 is a
  parameter; results that need it to tell inputs apart ask for no collision among just the inputs used.
* Tables are maps with their key and foreign-key rules. Whether the database can be opened, whether a
  container starts and whether another process holds a port are parameters.
* Objects that the source updates in place are classes (`Server`, `MultiMap`, `PortPool`, `RouteTable`,
  `Deployments`, `BridgeApi`, `Database`, `Acceptor`, `DataLane`, `Stream`); each method is proved against
  a function of the abstract state, and the theorems are about those functions.

Where the code does not do what its documentation says, the model follows the code, shows the
failing runs and proves exactly when the promise holds:

* Stopping a connection or losing its node frees pool ports that bridge rows still store
  (`crates/kdcts/src/deploy.rs:229`, `crates/kdcts/src/deployment_tracker.rs:104`), although `README.md:106`
  and `README.md:108` say the bridge keeps them, and a restart frees them all: `Bridges.StepKeepsBijectionIff`,
  `Bridges.StoppedPortIsGivenAway`. Rows can then share a pool port: `Bridges.StepKeepsDistinctIff`.
* The exit of a stale channel removes the registry entry of the channel that replaced it
  (`crates/tunnel/src/server.rs:519`): `IdentityRaces.CloseSparesOthersIff`, `IdentityRaces.StaleExitUnlists`. Its
  disconnection also tears down the deployments of the reconnected node (`crates/kdcts/src/main.rs:321`), and
  so does any disconnection that is taken only after the node has come back:
  `ControlPlane.DrainSparesServedIff`, `ControlPlane.StaleExitTearsDown`, `ControlPlane.LateDrainTearsDown`.
* Two clients without a claim can both be given the same uuid. At lock granularity they only need to
  interleave between the snapshot and the registry entry: `IdentityRaces.ClaimlessResolveSharesIff`,
  `IdentityRaces.ClaimlessRestoreRace`. With atomic handlers it still happens after a stale exit, because the
  code looks at the listed uuids and not at the running channels: `IdentityRaces.ClaimlessReportSharesIff`,
  `IdentityRaces.AtomicRestoreRace`.
* A channel's handle is stored after its task is started, so a channel that ends at once leaves it
  behind: `IdentityRaces.HandleLeaksIff`, `IdentityRaces.HandleOutlivesChannel`.
* Failing to read the rows at startup counts as having none (`crates/kdcts/src/main.rs:265`), after which stored
  uuids can change owner: `IdentityTheorems.RestartAgreesIff`, `IdentityRaces.ForgottenRowChangesOwner`.
  Only the results about stored rows ask for runs whose restarts forget no owner (`RestartsLoad`); all
  others hold over every run.
* `crates/tunnel/src/registry.rs:24-27` promises any offline uuid of a digest to a client without a claim; the code
  restores one only if it is the digest's sole uuid: `IdentityTheorems.PromiseKeptIff`,
  `IdentityTheorems.TwoUuidsMeanANewOne`.
* Deployments are tracked by connection name, which is not unique: `DeployTheorems.StepKeepsTrackedIff`,
  `DeployTheorems.SharedNameLosesRoutes`.
* Losing a node takes its tracker entries and routes but not its forwards, and deploying again adds a
  second entry for each port: `DeployTheorems.LossKeepsForwardsIff`, `DeployTheorems.RedeployDoublesForwards`.
  The loop of the older entry, whose channel is gone, ends only at its next visitor
  (`crates/tunnel/src/server.rs:916-918`); until then two loops compete: `DeployTheorems.EndToEnd`,
  `DeployTheorems.AllSoleIff`.
* Rows stay deployed without a deployment after a restart, after a disconnection that the database
  missed, and after the stop of another row of the same name and node, and exactly then:
  `ControlPlane.MoveKeepsBackedIff`. They are not deployed again: `Connections.DeployedIsNeverRedeployed`.
* A commit that is refused a path half-way leaves routes and a tracker entry under a pending row, which
  no edit of the row removes and which blocks every further try: `ControlPlane.CutShortSticks`,
  `ControlPlane.PendingEditStopsNothing`.
* A node that offers all 65536 ports is refused, because its count wraps to zero: `Deploy.TooFewPortsIff`.
* The percent decoder turns each byte into a character of its own, so only ASCII text comes back as it
  was: `Percent.TextRoundTripIff`, `Percent.PlainTextIff`, `Percent.AccentIsGarbled`. It also accepts `%+5` and
  reads two bytes that are not UTF-8 as zero: `Percent.PairIsStandardIff`.
* A stream can overtake the callback that should wait for it: `Matching.CoveredIff`, `Matching.OvertakenLoopStarves`.

## Model

| member | source | states |
|---|---|---|
| Identity.ResolveClaim | crates/tunnel/src/server.rs:631-692 | the resolved uuid is bound to the asking digest, no existing binding changes and no other uuid is bound, a claim is kept exactly when nobody else owns it, and a client without a claim is given an old uuid exactly when its digest has a sole uuid and that is offline, and otherwise a new one |
| IdentityTheorems.StepKeepsInv | crates/tunnel/src/server.rs:504-757 | every lock region of every channel, every event drain and every restart keeps the invariant (channels, queue, index, registry, handles) |
| IdentityTheorems.RunKeepsInv | crates/tunnel/src/server.rs:504-757 | the invariant holds in every state of every interleaving, whatever the restarts read |
| IdentityTheorems.StepKeepsBindings | crates/kdcts/src/main.rs:262-269 | within one server lifetime no binding is rebound, and a restart binds exactly the stored rows, or nothing |
| IdentityTheorems.StepKeepsRowsInv | crates/kdcts/src/main.rs:262-305 | a step keeps rows and bindings in agreement exactly when it is not a restart that fails to read existing rows |
| IdentityTheorems.RowsKeepTheirOwner | crates/kdcts/src/db.rs:571-615 | once a uuid's row is in the database, rows and bindings name the same digest for it in every later state of every run whose restarts forget no rows |
| IdentityTheorems.OnlyTheOwnerResolves | crates/tunnel/src/server.rs:634-645 | no channel of another digest ever resolves, serves or is listed under a stored uuid |
| IdentityTheorems.StoredClaimIsHonouredIff | crates/tunnel/src/server.rs:633-656 | a claim of a stored uuid is accepted silently if and only if the client has the row's digest; otherwise the client is told a new uuid |
| IdentityTheorems.PromiseKeptIff | crates/tunnel/src/registry.rs:24-27 | a client without a claim gets an offline uuid of its digest if there is one and else a new one exactly when all uuids of the digest are online or it has just one |
| IdentityTheorems.TwoUuidsMeanANewOne | crates/tunnel/src/server.rs:664-690 | a digest with two uuids gets a new one without a claim, even if both are offline |
| IdentityTheorems.ChannelsKeepTheirIdentity | crates/tunnel/src/server.rs:625-702 | a resolved channel keeps its uuid and digest for life and is sent AssignNodeUuid at most once, naming that uuid |
| IdentityTheorems.NoSecondUuid | crates/tunnel/src/server.rs:704-710 | the branch that drops the registry entry of a previous, different uuid is never taken |
| IdentityTheorems.IndexIsInjective | crates/tunnel/src/server.rs:718-723 | two uuids never share a serving channel, and a serving channel resolved that uuid with the bound digest and has not cleaned up |
| IdentityTheorems.IndexHandover | crates/tunnel/src/server.rs:512-517 | an index entry is lost only to the channel's own cleanup, a restart, or a channel of the same digest that resolved the same uuid |
| IdentityTheorems.HandleHandover | crates/tunnel/src/server.rs:724-732 | a stored handle is dropped only by its own cleanup, a restart, or a channel that took over the same uuid with the same digest |
| IdentityTheorems.RestartAgreesIff | crates/kdcts/src/main.rs:265-267 | after a restart rows and bindings agree exactly when the rows were read or there were none |
| IdentityHandlers.HandlerIsLockRun | crates/tunnel/src/server.rs:593-776 | each handler's closed form is what its lock regions do when run one after the other |
| IdentityHandlers.HandlerKeepsInv | crates/tunnel/src/server.rs:593-776 | whole handlers keep the lock-level invariant |
| IdentityRaces.ListedChannelsServe | crates/tunnel/src/server.rs:718-757 | with atomic handlers, in every reachable state the registry is a submap of the index, every serving channel is running, and no finished channel keeps a handle, whatever the restarts read |
| IdentityRaces.OneHandlePerUuid | crates/tunnel/src/server.rs:712-732 | with atomic handlers, in every reachable state each uuid has at most one stored handle, that of the channel serving it |
| IdentityRaces.ToldUnlessClaimed | crates/tunnel/src/server.rs:694-702 | the first report of a channel is answered with AssignNodeUuid exactly when the resolved uuid is not the claimed one |
| IdentityRaces.ClaimlessReportIsUnlisted | crates/tunnel/src/server.rs:657-690 | with atomic handlers a report without a claim never lands on a listed uuid; a channel it displaces has the same digest and was unlisted |
| IdentityRaces.ClaimlessReportSharesIff | crates/tunnel/src/server.rs:618-690 | with atomic handlers a claimless report lands on the uuid of another running channel exactly when the digest's sole uuid is unlisted and such a channel has resolved it |
| IdentityRaces.ClaimlessResolveSharesIff | crates/tunnel/src/server.rs:618-690 | the same at lock granularity, with the snapshot in place of the registry |
| IdentityRaces.CloseSparesOthersIff | crates/tunnel/src/server.rs:509-520 | a closing channel leaves other channels' registry entries alone exactly when its uuid is not listed for another channel |
| IdentityRaces.StaleExitUnlists | crates/tunnel/src/server.rs:509-520 | from every state with a resolved channel, a reconnect followed by the stale exit leaves a serving channel unlisted |
| IdentityRaces.ClaimlessRestoreRace | crates/tunnel/src/server.rs:618-682 | two claimless channels of one digest whose snapshots come first are both given the sole uuid; the exact condition is `ClaimlessResolveSharesIff` |
| IdentityRaces.AtomicRestoreRace | crates/tunnel/src/server.rs:504-690 | with atomic handlers, from every state with a running channel that holds a sole uuid, a run after which two claimless channels are both told that uuid and run |
| IdentityRaces.ListingKeptIff | crates/tunnel/src/server.rs:718-757 | at lock granularity, exactly which regions keep the registry a submap of the index |
| IdentityRaces.ListingRace | crates/tunnel/src/server.rs:718-757 | interleaved index and registry regions of one uuid leave the registry naming the replaced channel |
| IdentityRaces.HandleLeaksIff | crates/tunnel/src/server.rs:290-305 | a step leaves a handle of a finished channel behind exactly when it stores the handle after the channel has finished |
| IdentityRaces.HandleOutlivesChannel | crates/tunnel/src/server.rs:504-526 | in every state a new channel can finish its cleanup before its handle is stored |
| IdentityRaces.ForgottenRowChangesOwner | crates/kdcts/src/main.rs:262-305 | after a restart that could not read the rows, any client can take over any stored uuid |
| IdentityServer.Server.OnHandshake | crates/tunnel/src/server.rs:275-305 | a new channel starts without identity and its handle is stored |
| IdentityServer.Server.ResolveUnderLock | crates/tunnel/src/server.rs:631-692 | the branching under the binding lock computes `ResolveClaim` |
| IdentityServer.Server.BoundTo | crates/tunnel/src/server.rs:664-668 | the collected uuids are exactly those bound to the digest, each once |
| IdentityServer.Server.EvictPrevious | crates/tunnel/src/server.rs:718-732 | the channel takes the index entry and unhooks the one it displaces, and no other |
| IdentityServer.Server.OnReport | crates/tunnel/src/server.rs:593-777 | the whole report handler does what `Handle` says |
| IdentityServer.Server.OnExit | crates/tunnel/src/server.rs:504-526 | the exit and its cleanup do what `Handle` says |
| IdentityServer.Server.OnUpdate | crates/kdcts/src/main.rs:292-312 | one queued update is written to the node rows, or lost when the database cannot be opened |
| IdentityServer.Server.CatchUp | crates/kdcts/src/main.rs:292-312 | draining the queue writes every update to the node rows in order and touches nothing else of the server |
| IdentityServer.Server.OnRestart | crates/kdcts/src/main.rs:245-269 | a restart forgets all channels and events, marks every row offline and reseeds the bindings, or leaves none if the rows cannot be read |
| IdentityServer.Server.LoadBindings | crates/kdcts/src/main.rs:263-267 | the seeding loop binds every row's uuid to its digest and nothing else |
| IdentityServer.LastUpdateWins | crates/kdcts/src/main.rs:292-320 | after a caught-up queue each uuid's row shows what its last update said |
| IdentityMirror.RowsMirrorRegistry | crates/kdcts/src/main.rs:292-320 | with atomic handlers, whenever the queue is empty the database shows online exactly the listed nodes, with the digests of their channels, over every run whose lost updates are harmless and even after restarts that could not read the rows |
| IdentityMirror.LastDecides | crates/kdcts/src/main.rs:292-320 | a node's last queued update decides whether it will be shown online |
| IdentityMirror.LostUpdateIsHarmlessIff | crates/kdcts/src/main.rs:295-312 | an update lost because the database could not be opened does no harm to the nodes shown online or to their digests exactly when a later one about the node is queued or the row already shows what it says |
| ControlPlane.RunIsSound | crates/kdcts/src/main.rs:292-327 | over every run of channels, lost updates, restarts, deployments under any names and edits, the node of every tracked deployment is listed or its disconnection is queued, no reserved path is routed, listed channels serve, rows are consistent, and the node rows the deployments look at show what was stored about each uuid |
| ControlPlane.PoolKeepsItsPorts | crates/tunnel/src/port_pool.rs:62-102 | over every run, restarts included, the pool consists of the ports it started with, each free or held |
| ControlPlane.RoutesLeadToRunningChannels | crates/kdcts/src/deploy.rs:86-171 | over every run in which no deployment takes a tracked name for other ports, once the event loop has caught up, each routed port belongs to a tracked deployment and has a forward whose channel is in its loop and has resolved the listed node of that deployment |
| ControlPlane.DeploymentLostIff | crates/kdcts/src/deployment_tracker.rs:53-108 | a tracked deployment is lost exactly to an edit that stops its name on its node, a restart, or the taking of a disconnection of its node |
| ControlPlane.DeploymentsLast | crates/kdcts/src/deployment_tracker.rs:53-108 | over every run a deployment stays tracked as long as none of these happens |
| ControlPlane.DrainSparesServedIff | crates/kdcts/src/main.rs:309-327 | taking a disconnection spares every deployment on a served node exactly when its node is not served or has no deployment |
| ControlPlane.CloseQueuesServedIff | crates/tunnel/src/server.rs:504-526 | an exit queues the disconnection of a node that is served at that moment exactly when another channel serves its uuid |
| ControlPlane.StaleExitTearsDown | crates/kdcts/src/main.rs:309-327 | a reconnect followed by the stale exit ends with every deployment of the node torn down while the new channel serves it |
| ControlPlane.LateDrainTearsDown | crates/kdcts/src/main.rs:309-327 | a disconnection taken after the node has reconnected and been deployed to tears the new deployment down while the new channel is listed and serves |
| ControlPlane.MoveKeepsBackedIff | crates/kdcts/src/main.rs:240-327 | every deployed row keeps a tracked deployment exactly through the moves that do not restart over deployed rows, lose the disconnection of a node with deployed rows, or stop a row that shares name and node with another deployed one |
| ControlPlane.DeployedRowsStayBacked | crates/kdcts/src/deploy.rs:137-242 | over every run of such moves each deployed row has a tracked deployment on a node that is listed or whose disconnection is queued |
| ControlPlane.DeployKeepsBacked | crates/kdcts/src/deploy.rs:137-174 | a deployment that succeeds leaves every deployed row with a tracked deployment |
| ControlPlane.DeployMarksRowIff | crates/kdcts/src/deploy.rs:125-174 | a deployment marks its row deployed with the container name exactly when the container started, no path was taken and the paths are distinct and not reserved |
| ControlPlane.RefusedDeployChangesNothing | crates/kdcts/src/deploy.rs:61-135 | a deployment whose container does not start, or one of whose paths is taken, changes nothing |
| ControlPlane.EditStopsDeployment | crates/kdcts/src/api.rs:363-402 | deleting a deployed row or patching its node takes away the deployment of its name on its node and all routes to its ports |
| ControlPlane.OtherEditsStopNothing | crates/kdcts/src/api.rs:199-402 | no other edit touches the deployments |
| ControlPlane.CutShortSticks | crates/kdcts/src/deploy.rs:61-71 | a deployment cut short after routing something leaves its row pending and its entry tracked, and every further try for the same bridge changes nothing |
| ControlPlane.PendingEditStopsNothing | crates/kdcts/src/api.rs:363-402 | patching or deleting a row that is not deployed stops no deployment |
| ControlPlane.EventLoop.OnUpdate | crates/kdcts/src/main.rs:292-327 | one update is a drain move of the whole plane: the node row and the connection rows if the database opens, and the deployments of a node that is gone in any case |
| MultiMap.RemovalsAgree | crates/tunnel/src/multi_map.rs:95-107 | removal by either key of an item gives the same value and map, and the item can be put back |
| MultiMap.MultiMap.KeysUnique | crates/tunnel/src/multi_map.rs:12-15 | the stored triples have unique first and unique second keys |
| MultiMap.MultiMap.Insert | crates/tunnel/src/multi_map.rs:58-69 | fails exactly when either key is present, returning its arguments, and otherwise adds the triple with one new box |
| MultiMap.MultiMap.Lookup1 | crates/tunnel/src/multi_map.rs:71-75 | the value stored under the first key, reading live boxes only |
| MultiMap.MultiMap.Lookup2 | crates/tunnel/src/multi_map.rs:83-87 | the value stored under the second key, reading live boxes only |
| MultiMap.MultiMap.Remove1 | crates/tunnel/src/multi_map.rs:95-100 | removes the triple from both indexes, frees its box and never reads a freed key |
| MultiMap.MultiMap.Remove2 | crates/tunnel/src/multi_map.rs:102-107 | the same by the second key |
| MultiMap.MultiMap.Drop | crates/tunnel/src/multi_map.rs:110-117 | every box ever made has then been freed exactly once |
| MultiMap.Lifetime | crates/tunnel/src/multi_map.rs:51-117 | over any sequence of operations ending in drop, every answer is that of the set of triples and every allocated box is freed exactly once |
| PortPool.RunKeepsPartition | crates/tunnel/src/port_pool.rs:137-223 | over every run free and held ports partition the bound set and their counts add up to its size |
| PortPool.LowestSize | crates/tunnel/src/port_pool.rs:153-156 | a set of n ports has an i-th smallest port for each i below n, so assignments are well defined |
| PortPool.AssignThenReleaseIff | crates/tunnel/src/port_pool.rs:137-185 | assigning and releasing a client restores the pool exactly when it held nothing before |
| PortPool.AssignsInOrder | crates/tunnel/src/port_pool.rs:153-164 | for each i the i-th smallest free port is held by the client with the i-th local port |
| PortPool.ReleaseIsExact | crates/tunnel/src/port_pool.rs:170-185 | exactly the ports of the digest become free; every other port stays as it is |
| PortPool.ReserveThenRelease | crates/tunnel/src/port_pool.rs:188-223 | a reserved port given straight back leaves the pool unchanged |
| PortPool.PortPool.Assign | crates/tunnel/src/port_pool.rs:137-167 | all or nothing; the i-th local port gets the i-th smallest free port, and a repeated local port is mapped to its last one |
| PortPool.PortPool.ReleaseClient | crates/tunnel/src/port_pool.rs:170-185 | exactly the client's ports become free |
| PortPool.PortPool.ReleaseByPort | crates/tunnel/src/port_pool.rs:188-195 | a held port becomes free, anything else changes nothing |
| PortPool.PortPool.ReserveOne | crates/tunnel/src/port_pool.rs:216-223 | the smallest free port is reserved for nobody, and none exactly when no port is free |
| PortPool.Open | crates/tunnel/src/port_pool.rs:67-101 | succeeds exactly when there are ports, none but 0 is taken and none but 0 is listed twice; fails at the first port that cannot be bound; and otherwise every listed port is free |
| PortPool.New | crates/tunnel/src/port_pool.rs:65-102 | a specification is refused for its syntax or a taken port, never for being empty |
| PortPool.TotalCounts | crates/tunnel/src/port_pool.rs:74-93 | for a list that could be bound, the 16-bit total is the number of ports exactly when the surplus listings of port 0 are a multiple of 65536 and not all 65536 ports are bound; without port 0 it always is |
| PortSpec.ParseParts | crates/tunnel/src/port_pool.rs:18-48 | succeeds exactly when every part parses, and then with at least one port |
| PortSpec.ParsePortRange | crates/tunnel/src/port_pool.rs:18-48 | the nested loops compute `ParseParts` and stop at the first error |
| PortSpec.ParseInvertsPrint | crates/tunnel/src/port_pool.rs:18-48 | every nonempty list of ports and ranges, printed, parses back to its ports in order |
| PortSpec.EveryParseIsAPrint | crates/tunnel/src/port_pool.rs:18-48 | every text that parses gives the ports of some printed list, one item for each part |
| PortSpec.SpelledSpec | crates/tunnel/src/port_pool.rs:20-45 | a specification with white space anywhere around its parts and numbers parses to the ports of its items |
| PortSpec.PaddedRange | crates/tunnel/src/port_pool.rs:22-41 | a range with white space around its numbers gives its ports, or is refused for its start, its end, or running backwards, in this order |
| PortSpec.PaddedPort | crates/tunnel/src/port_pool.rs:42-45 | a number with white space around it is one port, or refused beyond 65535 |
| PortSpec.BadPartIsRefused | crates/tunnel/src/port_pool.rs:42-45 | blank parts and parts that are not a number are refused |
| PortSpec.FirstErrorWins | crates/tunnel/src/port_pool.rs:20-47 | the first bad part gives the error |
| Text.SplitJoin | crates/tunnel/src/port_pool.rs:20 | splitting undoes joining |
| Text.TrimStrips | crates/tunnel/src/port_pool.rs:21-34 | trimming takes away exactly the white space at both ends |
| Text.DecimalIsBaseTen | crates/tunnel/src/port_pool.rs:28 | numbers are written in base ten, the highest digit first |
| Text.SignAndZeros | crates/tunnel/src/port_pool.rs:28 | a plus sign and leading zeros change nothing |
| Routes.LongestIsUnique | crates/kdcts/src/proxy.rs:51-65 | a path has at most one longest routed prefix, so the map's order cannot matter |
| Routes.ResolvesIff | crates/kdcts/src/proxy.rs:47-66 | a path resolves exactly when some prefix of it is routed |
| Routes.ExactMatch | crates/kdcts/src/proxy.rs:48-50 | the exact-match shortcut agrees with the search |
| Routes.RouteTable.Set | crates/kdcts/src/proxy.rs:31-41 | reserved and taken paths are refused unchanged, others are added |
| Routes.RouteTable.RemoveByPort | crates/kdcts/src/proxy.rs:43-45 | exactly the routes to the port disappear |
| Routes.RouteTable.Resolve | crates/kdcts/src/proxy.rs:47-66 | for every iteration order the port of the unique longest routed prefix |
| Routes.PanelIsSafe | crates/kdcts/src/proxy.rs:103-138 | no route takes a request from the panel; a tunnel is reached exactly outside it and under a routed prefix |
| Routes.DispatchIsLongest | crates/kdcts/src/proxy.rs:115-138 | a request for the right host outside the panel goes to the port of its longest routed prefix |
| Routes.WrongHostIsNotFound | crates/kdcts/src/proxy.rs:103-108 | a request for another host is not found, whatever its path |
| Routes.ReservedIff | crates/kdcts/src/proxy.rs:16-18 | exactly "/admin" and what starts with "/admin/" is reserved |
| Deploy.PlanPorts | crates/kdcts/src/deploy.rs:44-103 | refuses with the first failed check and otherwise counts client ports up in 16 bits, noting where the counter overflows |
| Deploy.PlanIsSound | crates/kdcts/src/deploy.rs:48-103 | client ports are distinct and within the node's range, and only the unused increment past 65535 can overflow |
| Deploy.PlanOverflowsIff | crates/kdcts/src/deploy.rs:48-81 | for any number of ports, the counter overflows early exactly when the ports do not fit above the start |
| Deploy.TooFewPortsIff | crates/kdcts/src/deploy.rs:48-52 | the refusal for too few ports comes exactly when the node has fewer ports than needed or offers all 65536 |
| Deploy.FullRangeIsRefused | crates/kdcts/src/deploy.rs:49-52 | a node offering ports 0 to 65535 is refused; the exact condition is `TooFewPortsIff` |
| Deploy.PrecheckCases | crates/kdcts/src/deploy.rs:43-59 | a bridge without ports is refused as such, and a missing pool port is reported for the first such port |
| DeployTheorems.CommitSucceedsIff | crates/kdcts/src/deploy.rs:61-71 | after the conflict check a commit completes exactly when the wanted paths are distinct and none is reserved |
| DeployTheorems.NoConflictIff | crates/kdcts/src/deploy.rs:61-71 | the conflict check refuses exactly a path of any mode with a routed prefix |
| DeployTheorems.RouteModePortsAreRouted | crates/kdcts/src/deploy.rs:142-149 | after a completed commit every bridge port in mode "route" with a path resolves it to its pool port, every new route comes from such a port, and older routes stay |
| DeployTheorems.LoopsStarted | crates/kdcts/src/deploy.rs:151-169 | a UDP loop is started exactly when udp is among the listed protocols, a TCP loop when tcp is or udp is not |
| DeployTheorems.NoListMeansTcp | crates/kdcts/src/deploy.rs:151 | without a list there is a TCP loop only |
| DeployTheorems.EndToEnd | crates/kdcts/src/deploy.rs:73-171 | the i-th path resolves to the i-th pool port, whose loop, if the port is not udp alone, makes the client connect to start + i, which docker maps to the i-th container port only; and no other entry of the active forwards, running or about to end, has that port exactly when it is neither shared nor forwarded already |
| DeployTheorems.AllSoleIff | crates/kdcts/src/deploy.rs:143-171 | all forwards of a commit are alone on their ports exactly when the pool ports are distinct and none was forwarded before |
| DeployTheorems.ClientTargetOf | crates/tunnel/src/client.rs:261-273 | the framed forward command makes the client connect to the local port it names |
| DeployTheorems.CommitThenStopIff | crates/kdcts/src/deploy.rs:224-240 | a commit, complete or cut short, followed by a stop restores the routes exactly when none of its ports was routed before |
| DeployTheorems.StopUndoesCommitIff | crates/kdcts/src/deploy.rs:137-240 | a commit and a stop leave routes, forwards and tracker as they were exactly when the key was new and none of the ports was routed or forwarded; the ports are given back in any case |
| DeployTheorems.StopGivesBack | crates/kdcts/src/deploy.rs:224-240 | a stop gives back every pool port of the deployment and no other, and takes its routes and forwards and no others |
| DeployTheorems.LossGivesBack | crates/kdcts/src/deployment_tracker.rs:86-108 | a lost node gives back every pool port of its deployments and no other, and takes their routes and no others |
| DeployTheorems.LossKeepsForwardsIff | crates/kdcts/src/deployment_tracker.rs:86-108 | while deployments do not share ports, losing a node leaves every forward tracked exactly when none of its ports is forwarded |
| DeployTheorems.ForwardsStayTracked | crates/kdcts/src/deploy.rs:137-240 | over every run of deployments that take no forward's only owner, stops, and losses of nodes without forwards, every forward belongs to a tracked deployment |
| DeployTheorems.RedeployDoublesForwards | crates/kdcts/src/deployment_tracker.rs:86-108 | whatever was deployable is deployed again after its node was lost, and each port then has two entries among the active forwards |
| DeployTheorems.RoutesStayTracked | crates/kdcts/src/deployment_tracker.rs:86-108 | over every run in which no deployment reuses a key so that a route loses its only owner, each routed port belongs to a tracked deployment |
| DeployTheorems.NoReservedPathIsRouted | crates/kdcts/src/proxy.rs:31-41 | over every run no reserved path is ever routed |
| DeployTheorems.StepKeepsTrackedIff | crates/kdcts/src/deploy.rs:137-172 | an event keeps every routed port tracked exactly when it does not commit over a key that is the only owner of a routed port outside the new ones |
| DeployTheorems.SharedNameLosesRoutes | crates/kdcts/src/deploy.rs:137-139 | a second connection of the same name on the same node leaves every route of the first to a port it does not have without an owner, surviving stop and disconnect |
| DeployServer.Deployments.Commit | crates/kdcts/src/deploy.rs:137-172 | wires the ports in order up to the first refused route, and succeeds exactly when all can be routed |
| DeployServer.Deployments.Conflict | crates/kdcts/src/deploy.rs:61-71 | the check finds a path that resolves already exactly when there is one |
| DeployServer.Deployments.Stop | crates/kdcts/src/deploy.rs:224-240 | removes the deployment's routes, forwards and entry and frees its ports |
| DeployServer.Deployments.RemoveByNode | crates/kdcts/src/deployment_tracker.rs:86-108 | tears down all of a node's deployments in any order, leaving the forwards |
| Bridges.RowsMatchPool | crates/kdcts/src/api.rs:220-289 | from an empty table over a fresh pool, rows and reserved ports stay in bijection over every run, failed insertions included, as long as no release or restart frees a stored port |
| Bridges.StepKeepsBijectionIff | crates/kdcts/src/api.rs:220-289 | additions and deletions always keep the bijection, a release exactly when the port is not stored, a restart exactly when there are no rows |
| Bridges.StepKeepsDistinctIff | crates/kdcts/src/api.rs:260-270 | through releases and restarts rows store different ports exactly as long as no row is given a free port that is stored all the same |
| Bridges.StoresStayWellFormed | crates/kdcts/src/api.rs:244-259 | over every run the pool consists of the same ports, and every stored row has a container port, a path in mode "route", and no path that is reserved or lacks its slash |
| Bridges.DeploymentPorts | crates/kdcts/src/db.rs:355-371 | the pool ports a deployment reads fit 16 bits, are different while rows do not share ports and then fewer than 65536 unless port 0 is stored, and are reserved while the bijection holds |
| Bridges.BridgeIsWired | crates/kdcts/src/deploy.rs:43-171 | for the rows of a bridge as read in order of container port: if rows do not share pool ports and none is forwarded, each port is wired to its own local port and nothing else listens there |
| Bridges.ReleaseKeepsBijectionIff | crates/kdcts/src/deployment_tracker.rs:102-105 | releasing a pool port keeps the bijection exactly when no row stores it |
| Bridges.StoppedPortIsGivenAway | crates/kdcts/src/deploy.rs:227-230 | after a stop the next added port can be given the very port a row still stores |
| Bridges.BridgeApi.AddBridgePort | crates/kdcts/src/api.rs:237-272 | each reply exactly in its case; the new row holds the request and the smallest free port; anything else changes nothing, the reservation of a refused row being undone |
| Bridges.BridgeApi.DeleteBridgePort | crates/kdcts/src/api.rs:274-289 | the row goes and its pool port becomes free |
| Bridges.BridgeApi.DeleteBridge | crates/kdcts/src/api.rs:220-235 | the bridge goes with its rows and all their pool ports become free |
| Connections.RowsStayConsistent | crates/kdcts/src/db.rs:426-474 | in every reachable row the container name is set exactly when deployed, a deployed row has a node, and slots refer to existing rows |
| Connections.CreateWrites | crates/kdcts/src/api.rs:319-332 | a created row is pending and has the given slots, or none of them if a reference is broken |
| Connections.NodePatchWrites | crates/kdcts/src/api.rs:349-370 | a patch of the node stops the row and then fills the given slots, unless a reference is broken |
| Connections.DeleteRemoves | crates/kdcts/src/db.rs:539-543 | a deleted row is gone and nothing else changes |
| Connections.DeployWrites | crates/kdcts/src/deploy.rs:174 | a deployment writes status and container name of its own row only |
| Connections.LossSparesOthers | crates/kdcts/src/main.rs:309-320 | a lost node changes its own status and its own deployed rows only, a restart no connection row |
| Connections.QueryMatchesGuard | crates/kdcts/src/db.rs:546-558 | the connectable query selects exactly the rows the auto-deploy guard accepts: all slots filled, pending, node online |
| Connections.DeployingDrainsQuery | crates/kdcts/src/api.rs:644-674 | a successful auto-deploy removes its row from the query and no other |
| Connections.LostNodeIsIdle | crates/kdcts/src/main.rs:309-320 | a lost node's rows keep their node, are pending and not connectable, and complete ones are connectable when it returns |
| Connections.DeployedIsNeverRedeployed | crates/kdcts/src/api.rs:644-659 | a deployed row stays deployed and is never picked again until it is patched, deleted or its node lost, restarts included |
| Connections.Database.UpdateConnection | crates/kdcts/src/db.rs:441-465 | each slot takes its given value or keeps its old one, nothing else of any row changes, and a broken reference changes nothing |
| Connections.Database.UpdateConnectionNode | crates/kdcts/src/db.rs:467-474 | writes node, status and container together |
| Connections.Database.NodeSeen | crates/kdcts/src/main.rs:294-307 | the node is there and online |
| Connections.Database.NodeLost | crates/kdcts/src/main.rs:309-320 | exactly the node's deployed rows fall back to pending |
| Sessions.AcceptedIff | crates/tunnel/src/server.rs:252-267 | a client is accepted exactly when it holds the server's token |
| Sessions.InsertNeverCollides | crates/tunnel/src/server.rs:304-305 | storing the handle of a new channel never meets a taken id or key |
| Sessions.StreamsReachTheirChannel | crates/tunnel/src/server.rs:317-336 | in every reachable state a data channel with channel c's key is handed to c while c is stored and otherwise to nobody |
| Sessions.Acceptor.ControlHandshake | crates/tunnel/src/server.rs:243-308 | accepts exactly the derived key and then stores the handle under it |
| Sessions.Acceptor.DataHandshake | crates/tunnel/src/server.rs:310-336 | looks the channel up by the presented key |
| Matching.MatchingIsFifo | crates/tunnel/src/server.rs:340-368 | each stream goes to one consumer, loops are served in queueing order and at most once, the queued callbacks are exactly those of the blocked loops, and the older sender queue is always empty |
| Matching.CoveredIff | crates/tunnel/src/server.rs:910-940 | waiting callbacks are covered by unanswered requests exactly while no more streams passed the loops by than the pool asked for, at first and later, and loops have still to queue |
| Matching.AtomicVisitsAreCovered | crates/tunnel/src/server.rs:916-926 | with request and callback as one step they are always covered |
| Matching.OvertakenLoopStarves | crates/tunnel/src/server.rs:916-926 | a stream between the two steps goes to the pool and leaves the loop waiting for nothing |
| Matching.DataLane.OnVisitor | crates/tunnel/src/server.rs:914-918 | a visitor adds one request and no callback yet |
| Matching.DataLane.QueueCallback | crates/tunnel/src/server.rs:919-926 | the callback goes to the end of the queue and nothing else moves |
| Matching.DataLane.OnPoolRequest | crates/tunnel/src/server.rs:1095-1141 | the connection pool asks for one more stream |
| Matching.DataLane.OnStream | crates/tunnel/src/server.rs:340-368 | a stream goes to the first waiting callback, else to the pool, and is lost exactly when neither is there |
| Wire.ReadAfterWrite | crates/tunnel/src/protocol.rs:221-281 | a payload of any length is read as its first (length mod 65536) bytes, the rest staying in the stream |
| Wire.FrameRoundTripIff | crates/tunnel/src/protocol.rs:221-281 | a frame round-trips exactly when its payload is shorter than 65536 bytes |
| Wire.FramesRoundTrip | crates/tunnel/src/protocol.rs:221-281 | frames written back to back are read as that sequence with nothing lost or left |
| Wire.HeaderFits | crates/tunnel/src/protocol.rs:155-158 | the header length fits its byte |
| Wire.HeaderRoundTrip | crates/tunnel/src/protocol.rs:136-140 | the header decodes to its address and length |
| Wire.PacketRoundTripIff | crates/tunnel/src/protocol.rs:148-209 | a packet round-trips exactly when its data is shorter than 65536 bytes |
| Wire.PacketsRoundTrip | crates/tunnel/src/protocol.rs:148-209 | a stream of packets comes back with every address, port and payload in order |
| Wire.HelloTravels | crates/tunnel/src/protocol.rs:230-248 | a greeting is read back, or refused exactly when its version differs |
| Wire.DataCmdTravels | crates/tunnel/src/protocol.rs:267-272 | a data command is read back unchanged |
| Wire.Stream.WriteLenPrefixed | crates/tunnel/src/protocol.rs:276-281 | appends one frame |
| Wire.Stream.ReadLenPrefixed | crates/tunnel/src/protocol.rs:221-228 | takes one frame off the stream, or reports its end |
| Wire.Stream.WritePacket | crates/tunnel/src/protocol.rs:149-164 | appends the bytes of one packet |
| Wire.Stream.WriteSlice | crates/tunnel/src/protocol.rs:167-186 | appends the same bytes as writing the owned packet |
| Wire.Stream.ReadOnePacket | crates/tunnel/src/protocol.rs:188-208 | takes one packet off the stream, or fails |
| Wire.Converse | crates/tunnel/src/protocol.rs:221-281 | a peer that reads as many messages as were written receives exactly those |
| Wire.FrameLayout | crates/tunnel/src/protocol.rs:276-278 | the two length bytes come first, the higher one in front |
| Wire.PacketLayout | crates/tunnel/src/protocol.rs:149-161 | a packet is one byte for the length of its header, the header, and the data |
| Wire.HeaderLayout | crates/tunnel/src/protocol.rs:136-140 | the bytes of a header, field by field, lower bytes first |
| Wire.MessageLayout | crates/tunnel/src/protocol.rs:30-34 | the bytes of greetings and data commands, and that version 1 alone is accepted |
| Wire.ReadsFrameIff | crates/tunnel/src/protocol.rs:221-228 | a frame is read exactly off a stream that starts with it |
| Wire.ReadsDataCmdIff | crates/tunnel/src/protocol.rs:267-272 | exactly the bytes of a data command, trailing bytes aside, are read as that command |
| Wire.ReadsHelloIff | crates/tunnel/src/protocol.rs:230-248 | exactly the bytes of a greeting of version 1, trailing bytes aside, are read as that greeting |
| Wire.ReadsHeaderIff | crates/tunnel/src/protocol.rs:195-196 | exactly the bytes of a header, trailing bytes aside, are read as that header |
| Percent.DecodeEncode | crates/kdcts/src/api.rs:774-818 | the characters of the decoded text have the encoded bytes as code points |
| Percent.TextRoundTripIff | crates/kdcts/src/api.rs:774-818 | decoding an encoded text gives the same text exactly when it is ASCII |
| Percent.PlainTextIff | crates/kdcts/src/api.rs:774-787 | text without a percent sign decodes to itself exactly when it is ASCII |
| Percent.AccentIsGarbled | crates/kdcts/src/api.rs:783 | an accented letter comes back as two characters |
| Percent.PairIsStandardIff | crates/kdcts/src/api.rs:779-782 | the two bytes after a percent sign are read as section 2.1 of RFC 3986 says exactly when they are UTF-8 and not a plus sign with one digit |
| Percent.OddPairs | crates/kdcts/src/api.rs:780-781 | two bytes that are not UTF-8 stand for zero, and a plus sign with a digit for that digit |
| Percent.DecodeStep | crates/kdcts/src/api.rs:779-784 | an escape gives its byte, and a percent sign that starts none stays |
| Percent.Utf8PairIff | crates/kdcts/src/api.rs:780 | two bytes are UTF-8 exactly when they are two ASCII characters or encode one code point that needs two bytes |
| Percent.HexValueIff | crates/kdcts/src/api.rs:781 | a byte is the digit n exactly when it is the n-th upper-case or lower-case hexadecimal digit |
| Percent.DecodePlain | crates/kdcts/src/api.rs:774-787 | without a percent sign each byte becomes the character of that code point |
| Percent.EncodeIsClean | crates/kdcts/src/api.rs:808-818 | the output has only unreserved characters and upper-case escapes (sections 2.1 and 2.3 of RFC 3986) |
| Percent.UnreservedIff | crates/kdcts/src/api.rs:812 | exactly the letters, the digits and four marks are unreserved |
| Percent.UrlEncoding | crates/kdcts/src/api.rs:808-818 | the loop computes `Encode` |
| Percent.PercentDecode | crates/kdcts/src/api.rs:774-787 | the loop computes `Decode`, with the plus sign and the invalid UTF-8 pair read as the standard library reads them |

## Left out

- The text check of a claimed uuid (trim and syntax, `crates/tunnel/src/server.rs:606-613`): claims are taken after it.
- Lock order between tracker, routes and forwards, which has a cycle: handlers of the deployment state are single steps.
- The time between the conflict check of a deployment and its commit, while the container starts.
- IdentityServer.Server.OnUpdate: node rows only; the same update's effect on connection rows and deployments is `ControlPlane.EventLoop.OnUpdate`.
- IdentityServer.Server.CatchUp: node rows only, as `OnUpdate`.
- Which loop of two takes a visitor, and when the loop of a gone channel ends; forwards are the entries of the list.
- Container events and the pending-command map, including that a reported container error counts as a start.
- In `DeployTheorems` a stop may come at any time; that only deployed rows are stopped is in `ControlPlane`.
- A stored pool port is always present in the model of bridge rows, since no handler stores a row without one.
- A node's port range is a pair of unbounded integers in `Deploy`; the columns are 64 bits wide and filled from 16-bit numbers.
- IPv6 flow and scope, which the source does not send; control commands other than greetings and data commands.
- What the connection pool does with its streams (its requests for more are modelled), the UDP forwarders and the copying of bytes.
- Bounded-queue back-pressure, heartbeats, timeouts, backoff and sockets.
- JSON parsing and status codes of the panel, basic authentication, settings, ACME, TLS, docker and git commands, the image cache, the web panel.
- Migration of databases written by older versions.
