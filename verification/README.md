# memcached-operator: model and proofs

memcached-operator is a Kubernetes operator. A `MemcachedProxy` holds a tree of routing
rules; control loops turn it into an mcrouter configuration stored in a ConfigMap, a
Deployment that mounts it, and a Service in front. This project models the parts of the
operator whose correctness is not visible in any single function, and proves what they
promise together. `dafny verify dfyconfig.toml` checks everything.

Four parts:

1. **The ownership protocol** (`Cluster`, `Sync`, `Protocol`, `Ownership`, `Convergence`,
   `Runs`, `Outcomes`, `Livelock`, `Traps`, `Bystanders`, `Containers`, `Leftovers`, `Orphans`,
   `Recovery`, `Operator`). The configmap sync creates, reuses or
   releases a content-named ConfigMap; the deployment sync points the Deployment at the one
   the proxy controls. The two handlers are written twice: as methods of `Operator.Api`, in
   the form of the source (loops over lists, writes to the server), and as functions of the
   cluster state in `Sync`; the methods are proved equal to the functions. `Protocol` lets
   the functions interleave freely, for any number of proxies, with proxy edits and
   deletions, endpoint changes, ReplicaSet creation and deletion and the garbage collector.
2. **The rule compiler** (`Rules`, `Pools`, `Routes`, `Meaning`, `SideTable`, `Deletes`,
   `Expansion`, `Json`). Rules are given a meaning, routes are given a meaning, and
   compilation is proved to preserve it.
3. **The endpoints index** (`Endpoints`): which proxies an Endpoints event wakes.
4. **Defaulting and the generation gate** (`Defaults`, `ProxyObject`, `Generation`,
   `ServiceSync`): the heap of pointers, slices and copies that `DeepCopy` and
   `ApplyDefaults` work on, the history of versions that `ObservedGeneration` guards, and the
   Service behind the gate.

`EndToEnd` joins the first two: what a settled proxy mounts routes as its rules say. `Gate`
joins the first and the last: nothing is written for a spec that is not fully defaulted.

## Assumptions about the environment

- A sync is atomic and its listers are fresh (`Cluster.Fresh`); lists come in any order.
  The proxy controller is the exception: it may read any older version.
- API calls do not fail, except that an update of a stale proxy version is refused.
- The API server raises `Generation` exactly when `Spec` changes; users do not write
  `Status`. The operator's README asks for status subresources (README.md:25).
- Kubernetes creates a ReplicaSet only for a template that none matches, and never deletes
  the one that matches the current template.
- The garbage collector deletes an object only when all its owners are gone.
- Nobody else edits the operator's objects. `Recovery` alone starts from any number of
  duplicate Deployments.
- A proxy name is taken again after a deletion only when no ConfigMap, Deployment or
  ReplicaSet made for it is left (`Protocol.Orderly`). Reachable states are the ends of such
  runs. This is the one assumption the code depends on without saying so: the invariant
  survives a return of the name if and only if it is met (`Ownership.ReaddKeepsInvIff`), and
  otherwise the collector can take a ConfigMap that a live Deployment mounts
  (`Leftovers.MountedIsCollected`, and from every state with an orphaned ReplicaSet
  `Orphans.OrphanTakesMount`) or a ConfigMap can get two controllers
  (`Leftovers.TwoControllers`). A user who deletes a proxy should wait for its objects
  to be gone before creating another of the same name.
- SHA-1 is a parameter, of which only the length and alphabet of its hexadecimal text are
  used. Absence of collisions appears only as the named hypotheses `Runs.Distinguishes` and
  `SideTable.NamesAgree`.
- Namespaces and names contain no `/`, as labels in section 2.1 of RFC 1123.
- mcrouter is abstract: which member a key hashes to and which member a `LatestRoute`
  settles on are parameters of every statement, free at every node of the route.

## Where the code and its comments or documentation differ

The model follows the code.

- `applyOwnerRefToCM` does not check that the ReplicaSet mounts the ConfigMap, although its
  comment says so (internal/controller/proxyconfigmap/controller.go:424-440). The comment is
  met if and only if the Deployment already mounts the ConfigMap. Where it is not, the order
  "configmap, deployment, configmap" can repeat forever: `Livelock` gives the cycle and
  `Traps` says from exactly which states the order settles.
- The tail of the list of Deployments is taken twice (internal/controller/operator.go:54,
  internal/controller/proxydeployment/controller.go:268), so two duplicates stay where the
  comment wants one: `Recovery`.
- Replicated rules send deletes to one member and gets to all of them; the documentation
  replicates every write and serves gets from one child (docs/memcachedproxy-crd.md:46).
  `Deletes` has an input on which each promise fails (two replicas), and the exact rules and
  pools on which each is kept; where every pool and group is populated, they are the same.
- `updateDeployment` is said to make the Deployment reflect the desired state
  (internal/controller/proxydeployment/controller.go:386), but moves only the volume: an edit
  of image, port, stats root or security context never reaches a running proxy. `Containers`
  gives the settled state with the old container and the exact condition for agreement.
- The documented default type "sharded" (docs/memcachedproxy-crd.md:44) reaches the root
  only, because the loop over the children works on copies
  (internal/apis/ianlewis.org/v1alpha1/types.go:102-104): `Defaults.DefaultedCompilesIff`.
- Pool names are called unique (internal/controller/proxyconfigmap/config.go:98) but hash
  three strings with nothing in between and keep five digits: `SideTable.CollisionExists`.

## Model

| member | source | states |
|---|---|---|
| `Names.ComputeName` | internal/controller/names.go:27-37 | feeding the hasher value by value gives the name the other modules reason about |
| `Names.ConfigMapNameIs` | internal/controller/proxyconfigmap/controller.go:259 | a ConfigMap name is the proxy's name, "-config-" and digits 2 to 7 of the digest of the proxy's name and the whole text |
| `Names.ConfigMapNamesMeet` | internal/controller/proxyconfigmap/controller.go:259 | two texts share a name under every digest if and only if they are the same text |
| `Names.ServiceNameIs` | internal/controller/names.go:40-42 | the Service name, letter by letter |
| `Names.SelectorIs` | internal/controller/names.go:45-50 | the two labels of the selector, letter by letter |
| `Names.ConfigMapHomeOf` | internal/controller/proxyconfigmap/controller.go:259 | a ConfigMap name spells the proxy it was made for, for every digest |
| `Names.LabelHomeOf` | internal/controller/names.go:45-50 | a selector spells the proxy it was made for, for every digest |
| `Names.NamesAreInjective` | internal/controller/names.go:40-50 | two proxies of a namespace never share a ConfigMap name, Service name or selector |
| `Cluster.FindOwner` | internal/util/ownerref/ownerref.go:23-31 | the search answers exactly whether some reference carries the UID |
| `Cluster.ControllerIsFirst` | internal/controller/operator.go:84 | being controlled means being the first reference marked as controller |
| `Cluster.WithoutMore` | internal/controller/proxyconfigmap/controller.go:442-450 | dropping references works one by one and keeps the order |
| `Cluster.EqualLabels` | internal/controller/proxyconfigmap/controller.go:461-468 | templates compare equal exactly if they agree on every label but pod-template-hash, the rest being equal |
| `Cluster.FoundIsFirst` | internal/controller/proxyconfigmap/controller.go:491-495 | no ReplicaSet listed before the one found matches |
| `Operator.Api.GetConfigMapsForProxy` | internal/controller/operator.go:76-89 | exactly the controlled ConfigMaps, in list order |
| `Operator.Api.GetConfigMapForProxy` | internal/controller/operator.go:58-73 | none, the one, or the "multiple configmaps" error |
| `Operator.Api.GetDeploymentsForProxy` | internal/controller/operator.go:32-55 | each controlled Deployment once, newest first |
| `Operator.Api.GetNewReplicaSet` | internal/controller/proxyconfigmap/controller.go:471-498 | the first listed ReplicaSet that the Deployment selects and whose template equals its own, or none |
| `Operator.Api.ApplyOwnerRefToCM` | internal/controller/proxyconfigmap/controller.go:425-453 | refines the release step and the update after it: the whole new cluster state, including that a missing ReplicaSet changes nothing |
| `Operator.Api.ReuseConfigMap` | internal/controller/proxyconfigmap/controller.go:389-422 | refines the reuse step: control is taken exactly if the Deployment does not mount the ConfigMap |
| `Operator.Api.SyncConfigMapHandler` | internal/controller/proxyconfigmap/controller.go:269-384 | the handler with its loops computes the protocol's configmap step for a fresh listing, state and outcome; a proxy that is gone is left alone, and an unobserved generation writes nothing and requeues |
| `Operator.Api.RenameConfigVolumes` | internal/controller/proxydeployment/controller.go:398-402 | every "config" volume and no other names the ConfigMap, or a source is nil and it crashes |
| `Operator.Api.DeleteDeployments` | internal/controller/proxydeployment/controller.go:418-429 | exactly the listed Deployments are gone |
| `Operator.Api.SyncDeploymentHandler` | internal/controller/proxydeployment/controller.go:212-277 | the handler computes the protocol's deployment step, including the twice-cut tail of the list; a proxy that is gone is left alone, and an unobserved generation writes nothing and requeues |
| `Outcomes.GateShut` | internal/controller/proxyconfigmap/controller.go:294-300 | for every state and listing, a live proxy whose generation is not observed gets nothing written by either sync, and both requeue |
| `Outcomes.GoneIsLeftAlone` | internal/controller/proxyconfigmap/controller.go:282-292 | a proxy that is gone gets nothing written, and both syncs finish |
| `Outcomes.ConfigMapSyncAnswers` | internal/controller/proxyconfigmap/controller.go:307-381 | it requeues exactly if one ConfigMap is controlled or one was just made, fails exactly if none is and there is no configuration or no Deployment to compare with, and says which |
| `Outcomes.ConfigMapSyncWrites` | internal/controller/proxyconfigmap/controller.go:307-381 | it writes ConfigMaps only, keeps all data, and adds at most the wanted one, controlled by the proxy |
| `Outcomes.ReuseTakesControlIff` | internal/controller/proxyconfigmap/controller.go:389-422 | a found ConfigMap is left alone exactly if some volume of the newest Deployment has it as its source; otherwise the proxy is added as controller |
| `Outcomes.HandedOver` | internal/controller/proxyconfigmap/controller.go:437-450 | after a release the proxy's references are gone, the others stand in order, and the ReplicaSet's is added last if it was missing |
| `Outcomes.ReleaseHandsOver` | internal/controller/proxyconfigmap/controller.go:350-376 | a release changes the owners of that one ConfigMap and nothing else, and nothing at all without a ReplicaSet; it always requeues |
| `Outcomes.DeploymentSyncAnswers` | internal/controller/proxydeployment/controller.go:246-274 | behind an open gate it never requeues, and each of the four errors has exactly its cause |
| `Outcomes.DeploymentSyncRemoves` | internal/controller/proxydeployment/controller.go:261-274 | it writes Deployments only, and removes exactly those after the second newest, unless an earlier error stops it |
| `Outcomes.DeploymentSyncMoves` | internal/controller/proxydeployment/controller.go:253-259 | of those that stay the newest moves to the ConfigMap controlled, in its "config" volumes alone; every other field and Deployment is as it was |
| `Outcomes.DeploymentSyncAdds` | internal/controller/proxydeployment/controller.go:250-252 | it adds a Deployment exactly if there is none and one ConfigMap is controlled, and makes it for that one |
| `Outcomes.NewDeploymentMounts` | internal/controller/proxydeployment/controller.go:280-364 | a new Deployment mounts the ConfigMap and it alone, as "config" beside "stats", with the proxy's selector, labels, container and control |
| `Protocol.AtMostOneControlled` | internal/controller/proxyconfigmap/controller.go:303-307 | under the invariant every listing finds at most one controlled ConfigMap, and it is the one made for the proxy |
| `Ownership.ConfigMapSyncKeepsInv` | internal/controller/proxyconfigmap/controller.go:302-453 | create, reuse and release keep the whole ownership invariant |
| `Ownership.DeploymentSyncKeepsInv` | internal/controller/proxydeployment/controller.go:246-259 | creating and moving the Deployment keep it |
| `Ownership.ReleaseSafe` | internal/controller/proxyconfigmap/controller.go:425-453 | a release strands no ReplicaSet: one that mounts the ConfigMap owns it afterwards |
| `Ownership.DeadMeansUnused` | internal/controller/proxyconfigmap/controller.go:425-453 | a ConfigMap whose owners are all dead is mounted by no Deployment and no ReplicaSet of a live proxy |
| `Ownership.ReaddKeepsInvIff` | internal/controller/proxyconfigmap/controller.go:302-453 | the invariant survives the return of a proxy's name if and only if no ConfigMap, Deployment or ReplicaSet made for the name is left |
| `Ownership.StepKeepsInv` | internal/controller/proxyconfigmap/controller.go:269-453 | each of the eleven kinds of step keeps the invariant, taking a name again if and only if nothing of the last holder is left |
| `Ownership.RunKeepsInv` | internal/controller/proxyconfigmap/controller.go:269-453 | over every run at all: the invariant holds throughout if and only if every name was free of leftovers when it was taken |
| `Runs.DeploymentMountExists` | internal/controller/proxydeployment/controller.go:387-404 | in every reachable state what a live proxy's Deployment mounts exists, also before its first ReplicaSet |
| `Runs.MountsAreOwned` | internal/controller/proxyconfigmap/controller.go:425-453 | in every reachable state what a live ReplicaSet mounts exists, and the ReplicaSet is an owner, or the proxy controls it while the Deployment mounts it |
| `Runs.CollectionIsSafe` | internal/controller/proxyconfigmap/controller.go:302-453 | the collector never takes a ConfigMap that the Deployment or a live ReplicaSet mounts |
| `Runs.ConfigMapOwners` | internal/controller/proxyconfigmap/controller.go:389-453 | in every reachable state a ConfigMap has an owner, at most one controller reference, and no owner twice |
| `Runs.ReuseAddsController` | internal/controller/proxyconfigmap/controller.go:409-411 | reuse leaves at most one controller exactly if it found none |
| `Leftovers.MountedIsCollected` | internal/controller/proxyconfigmap/controller.go:425-498 | for every digest, proxy and configuration a run that re-creates the proxy beside an old ReplicaSet and ends with a live Deployment's ConfigMap collected |
| `Leftovers.TwoControllers` | internal/controller/proxyconfigmap/controller.go:340-347 | a run that re-creates the proxy beside an old ConfigMap and ends with two controller references, so that the code no longer sees the new proxy's control |
| `Orphans.OrphanTakesMount` | internal/controller/proxyconfigmap/controller.go:425-498 | from every state of an orderly run in which a deleted proxy's ReplicaSet has outlived the ConfigMap it mounts, or all owners of it, a continuation re-creates the proxy and has its mounted ConfigMap collected along with that ReplicaSet |
| `Runs.OneOfEach` | internal/controller/operator.go:32-89 | in every reachable state a proxy controls at most one ConfigMap and one Deployment |
| `Runs.DeploymentSyncErrors` | internal/controller/proxydeployment/controller.go:246-274 | from every reachable state the only error is "no configmap": no duplicates, no nil volume source |
| `Runs.ConfigMapSyncErrors` | internal/controller/proxyconfigmap/controller.go:307-381 | from every reachable state "more than one" is dead and reuse always finds a Deployment |
| `Runs.RunKeepsData` | internal/controller/proxyconfigmap/controller.go:311-453 | over every run a ConfigMap's data never changes after creation |
| `Runs.NameIsHashOfData` | internal/controller/proxyconfigmap/controller.go:237-267 | in every reachable state a ConfigMap's name is its proxy's name, "-config-" and digits 2 to 7 of the digest of that name and its data |
| `Runs.FoundIsWanted` | internal/controller/proxyconfigmap/controller.go:340-347 | if the cut digest tells the configurations of a run apart, the ConfigMap found under the wanted name holds the wanted configuration, also when the cluster returns to an earlier state |
| `Convergence.ConfigMapSyncView` | internal/controller/proxyconfigmap/controller.go:307-453 | what the sync does to held, mounted and rolled out, and that nothing else moves |
| `Convergence.DeploymentSyncView` | internal/controller/proxydeployment/controller.go:246-259 | the Deployment follows the held ConfigMap, and only then changes |
| `Convergence.Converges` | internal/controller/proxyconfigmap/controller.go:307-453 | four quiet rounds end settled, and every further round changes nothing |
| `Convergence.ThreeRoundsAreNotEnough` | internal/controller/proxyconfigmap/controller.go:307-453 | an outdated first ConfigMap takes more than three rounds |
| `Livelock.FourRoundsNeeded` | internal/controller/proxyconfigmap/controller.go:307-453 | a reachable state that is not settled after three rounds: one edit before the first Deployment |
| `Runs.ReachableConverges` | internal/controller/proxyconfigmap/controller.go:307-453 | from every reachable state, four quiet rounds mount the wanted configuration, owned by the matching ReplicaSet and controlled by no proxy, for good |
| `Runs.RoundsExist` | internal/controller/proxyconfigmap/controller.go:307-453 | from every reachable quiet state there are rounds of every number, whatever the listers hold |
| `Bystanders.ForeignStepKeepsView` | internal/controller/proxyconfigmap/controller.go:302-453 | any step of another proxy, of the collector or of an old ReplicaSet leaves what decides a proxy's next move alone |
| `Bystanders.BusyConverges` | internal/controller/proxyconfigmap/controller.go:307-453 | with any number of such steps before, between and after the moves of each round, four rounds still settle the proxy on the wanted configuration, and it stays settled |
| `Bystanders.QuietRoundIsBusy` | internal/controller/proxyconfigmap/controller.go:307-453 | the rounds of the other theorems are the busy rounds in which nothing else happens |
| `Containers.RunKeepsContainer` | internal/controller/proxydeployment/controller.go:387-404 | over every orderly run a Deployment keeps the container it was created with |
| `Containers.ContainerAgreesIff` | internal/controller/proxydeployment/controller.go:386-404 | however long it lives, its container is the one the spec asks for if and only if the spec asks for what it asked for at the creation |
| `Containers.StaleContainer` | internal/controller/proxydeployment/controller.go:386-404 | a reachable state that is settled, and stays so, on a container the spec no longer asks for |
| `Livelock.PassBounces` | internal/controller/proxyconfigmap/controller.go:424-453 | a pass "configmap, deployment, configmap" only releases and takes back the wanted ConfigMap |
| `Livelock.SecondPassRepeats` | internal/controller/proxyconfigmap/controller.go:389-453 | a second pass reproduces the state exactly |
| `Livelock.NeverSettles` | internal/controller/proxyconfigmap/controller.go:389-453 | no number of passes settles the proxy: the round order is needed |
| `Livelock.CaughtIsReachable` | internal/controller/proxyconfigmap/controller.go:311-347 | for any two configurations with different names a run leads into the cycle |
| `Livelock.PassesExist` | internal/controller/proxyconfigmap/controller.go:389-453 | from such a state there are passes without end: the cycle exists |
| `Traps.FirstIsUnmatched` | internal/controller/proxyconfigmap/controller.go:471-498 | a proxy's first Deployment finds no ReplicaSet waiting for it |
| `Traps.RolledPassOutcome` | internal/controller/proxyconfigmap/controller.go:307-453 | one pass with its rollout: a trapped state stays trapped, any other is settled or one release away |
| `Traps.SettlesIffNotTrapped` | internal/controller/proxyconfigmap/controller.go:307-453 | from every reachable quiet state the schedule settles, and then within two passes, if and only if the state is not trapped: no ConfigMap is held, or the wanted one is mounted, or the wanted one is held before the first Deployment |
| `Traps.RolledPassesExist` | internal/controller/proxyconfigmap/controller.go:307-453 | from every reachable quiet state the schedule can go on for any number of passes |
| `Traps.TrappedIsReachable` | internal/controller/proxyconfigmap/controller.go:311-453 | for any two configurations with different names an edit leads into a trapped state |
| `Traps.ReleaseMeetsCommentIff` | internal/controller/proxyconfigmap/controller.go:424-440 | the ReplicaSet that becomes an owner mounts the ConfigMap if and only if the Deployment does |
| `Recovery.SyncKeepsTwoNewest` | internal/controller/proxydeployment/controller.go:261-274 | of any n > 0 Deployments exactly the two newest stay, and the sync fails if and only if n > 1 |
| `Recovery.SurvivorsAreNewest` | internal/controller/operator.go:45-54 | nothing deleted is newer than anything kept |
| `Recovery.TwoRemain` | internal/controller/proxydeployment/controller.go:246-274 | repeated syncs reach a fixed point with min(n, 2) Deployments |
| `Recovery.ErrorNeverClears` | internal/controller/proxydeployment/controller.go:273 | every later sync reports the error if and only if two remain |
| `Recovery.DuplicatesExist` | internal/controller/operator.go:38-54 | for every n a state with n duplicates that these theorems are about |
| `Pools.LastSelected` | internal/controller/proxyconfigmap/config.go:114-127 | the last service port the spec selects by number or name, if any does |
| `Rules.PoolNameIs` | internal/controller/proxyconfigmap/config.go:99-101 | a pool name is digits 2 to 7 of the digest of service name, namespace and port, with nothing in between |
| `Rules.DecimalReads` | internal/controller/proxyconfigmap/config.go:147 | a port's decimal text reads back as the number |
| `Pools.ResolveMeans` | internal/controller/proxyconfigmap/config.go:104-154 | a service resolves exactly if it, a port asked for and the endpoints exist, to the servers for the target of the last such port |
| `Pools.ServersMean` | internal/controller/proxyconfigmap/config.go:139-164 | a text is in the pool if and only if it is ip:port for an address and a TCP port of one subset whose number or name is the target |
| `Pools.PoolForService` | internal/controller/proxyconfigmap/config.go:104-154 | the nested loops succeed exactly if service, port and endpoints are found, with the servers for the target of the last port asked for |
| `Pools.ServersCount` | internal/controller/proxyconfigmap/config.go:143-151 | a pool has matching ports times addresses entries, summed over the subsets |
| `Pools.ServerAt` | internal/controller/proxyconfigmap/config.go:143-151 | the position of every ip:port entry: subset by subset, port by port, address by address |
| `Routes.CompilesIffValid` | internal/controller/proxyconfigmap/config.go:167-256 | a rule translates if and only if every type that is read is known; children behind a service are not read |
| `Routes.CompilesIffAllRead` | internal/controller/proxyconfigmap/config.go:167-256 | the same rule by rule: every rule reached without passing a service is "replicated" or "sharded" |
| `Routes.RouteBuilder.RouteForRule` | internal/controller/proxyconfigmap/config.go:167-256 | the recursion with its shared table computes the translation, and records exactly the services visited, also when it fails half way |
| `Routes.ConfigForProxy` | internal/controller/proxyconfigmap/config.go:70-96 | for every iteration order of the services map the same outcome: order independence |
| `Meaning.ParseBack` | internal/controller/proxyconfigmap/config.go:180-232 | shorthand strings parse back to their route kind and pool |
| `Meaning.CompiledReach` | internal/controller/proxyconfigmap/config.go:167-256 | for every rule, operation, pools and choice at every node, the compiled route reaches what the rule means, each service standing for the pool under its name |
| `Meaning.MeaningPreserved` | internal/controller/proxyconfigmap/config.go:167-256 | for every rule and every choice at every node, if each service finds its own servers under its pool name, get, set and add through the route reach exactly the servers the rule stands for |
| `SideTable.RouteNames` | internal/controller/proxyconfigmap/config.go:167-256 | the route names a pool if and only if a reachable service has that pool name |
| `SideTable.TableMatchesRoute` | internal/controller/proxyconfigmap/config.go:167-256 | with no hash assumption: every pool named is a key, each added key is named, and maps to the last service in traversal order under that name; other keys keep their value |
| `SideTable.ConfigForIff` | internal/controller/proxyconfigmap/config.go:70-96 | a configuration is produced if and only if every type that is read is known and every service that is the last under its pool name resolves |
| `SideTable.ConfigForHolds` | internal/controller/proxyconfigmap/config.go:84-95 | it holds the compiled route and exactly one pool per name, with the servers of the last service under it |
| `SideTable.OwnPoolsIffNamesAgree` | internal/controller/proxyconfigmap/config.go:75-101 | every service gets its own servers if and only if services that share a pool name resolve alike |
| `SideTable.ConfigMeaning` | internal/controller/proxyconfigmap/config.go:70-96 | end to end: if equal pool names mean equal resolved pools, get, set and add through the generated configuration reach what the rules stand for |
| `SideTable.SharedPoolName` | internal/controller/proxyconfigmap/config.go:99-101 | two services share a pool name under every digest if and only if their fields concatenate alike |
| `SideTable.CollisionExists` | internal/controller/proxyconfigmap/config.go:98-101 | two services for which a generated configuration loses a server the rules stand for, whatever the digest |
| `Deletes.DeleteWithinSet` | internal/controller/proxyconfigmap/config.go:176-218 | for every choice at every node, a delete reaches only servers a set reaches, at most one, and exactly one where every pool and group is populated |
| `Deletes.DeleteCoversSetIff` | internal/controller/proxyconfigmap/config.go:176-218 | deletes undo sets under every choice if and only if the rules and pools meet a condition: each replicated rule has one distinct server, or a single child that meets it, or children that all come down to one fixed server; each sharded rule's children meet it |
| `Deletes.DeleteLeavesStale` | internal/controller/proxyconfigmap/config.go:176-188 | two replicas: one keeps the deleted key, whatever the choices |
| `Deletes.GetReachesAll` | internal/controller/proxyconfigmap/config.go:176-218 | for every choice a get reaches exactly the servers a set reaches |
| `Deletes.GetServedByOneIff` | internal/controller/proxyconfigmap/config.go:167-256 | a get is served by one server under every choice, as documented, if and only if the rules and pools meet a condition: a replicated service has one distinct server, and no two children of a replicated rule lead to different servers |
| `Deletes.OneEachIffCovers` | internal/controller/proxyconfigmap/config.go:167-256 | where every pool and group is populated, that is exactly when deletes undo sets |
| `Deletes.GetReachesTwo` | internal/controller/proxyconfigmap/config.go:176-188 | two replicas: a get goes to both, whatever the choices |
| `Expansion.ExactSize` | internal/controller/proxyconfigmap/config.go:189-250 | the expanded route holds exactly the sum over services of 2 to the number of replicated rules on the path |
| `Expansion.SizeBound` | internal/controller/proxyconfigmap/config.go:189-250 | at most services times 2 to the depth |
| `Json.RoundTrip` | internal/controller/proxyconfigmap/config.go:33-62 | decoding the JSON value gives the route back if and only if no node carries both a string and an object |
| `Json.CompiledForm` | internal/controller/proxyconfigmap/config.go:167-256 | every node of a compiled route is a string or an object, never both and never neither |
| `Json.RenderedRule` | internal/controller/proxyconfigmap/config.go:167-256 | the JSON value of each kind of rule, letter by letter, over its rendered children |
| `Json.ConfigMembers` | internal/controller/proxyconfigmap/config.go:28-68 | the members of a rendered configuration: no pools member without pools, and null for a pool without servers |
| `Json.CompiledRoundTrip` | internal/controller/proxyconfigmap/config.go:41-62 | every compiled route survives rendering |
| `Json.ConfigRoundTrip` | internal/controller/proxyconfigmap/config.go:28-68 | a rendered configuration decodes to its pools and route |
| `Json.RenderingIsInjective` | internal/controller/proxyconfigmap/controller.go:239-259 | two configurations render alike if and only if they are the same |
| `EndToEnd.RenderedRoutes` | internal/controller/proxyconfigmap/controller.go:237-267 | any JSON value that renders to the wanted text routes get, set and add as the rules say |
| `EndToEnd.SettledRoutesAsRules` | internal/controller/proxyconfigmap/controller.go:237-453 | four quiet rounds end with a Deployment that mounts a configuration which, read back, routes get, set and add to exactly the servers the rules stand for |
| `Endpoints.SlashSplits` | internal/controller/proxyconfigmap/endpoints.go:95 | a key with slash-free parts determines both parts |
| `Endpoints.SplitBack` | internal/controller/proxyconfigmap/controller.go:276 | a queued key is split by the sync handlers into the namespace and name it was made from |
| `Endpoints.SplitFails` | internal/controller/proxyconfigmap/controller.go:276-279 | a text with two or more slashes is no key |
| `Endpoints.ServiceSpecsForRule` | internal/controller/proxyconfigmap/endpoints.go:91-108 | the merged maps file every reachable service, the last one under each reference, whatever the order of iteration |
| `Endpoints.GetProxyServiceSpecs` | internal/controller/proxyconfigmap/endpoints.go:76-87 | the slice holds exactly the filed services and has no empty slot |
| `Endpoints.FiledIffRefers` | internal/controller/proxyconfigmap/endpoints.go:40-48 | filing by reference loses no service named like the object |
| `Endpoints.Controller.GetAllProxyServiceSpecs` | internal/controller/proxyconfigmap/endpoints.go:55-73 | one list per proxy of the watched namespace, or of all, under a key that splits into that proxy |
| `Endpoints.Controller.GetAffectedProxies` | internal/controller/proxyconfigmap/endpoints.go:31-51 | the keys split into exactly the watched proxies with a reachable service of the object's namespace and name |
| `Endpoints.AffectedIff` | internal/controller/proxyconfigmap/endpoints.go:31-51 | a proxy's key is in the set if and only if that very proxy refers to the object |
| `Endpoints.Controller.AddEndpoints` | internal/controller/proxyconfigmap/endpoints.go:112-125 | the queue grows by exactly the affected keys |
| `Endpoints.Controller.UpdateEndpoints` | internal/controller/proxyconfigmap/endpoints.go:130-143 | nothing is queued if version or subsets are equal, otherwise exactly the affected keys |
| `Endpoints.Controller.DeleteEndpoints` | internal/controller/proxyconfigmap/endpoints.go:147-167 | the affected keys of the object, or of the object in one tombstone; nothing for anything else |
| `Endpoints.UnaffectedOutcome` | internal/controller/proxyconfigmap/config.go:104-154 | changing or deleting an object no service refers to leaves the outcome of configForProxy alone, success or failure |
| `Endpoints.AsleepMeansUnchanged` | internal/controller/proxyconfigmap/endpoints.go:112-167 | an event that leaves a watched proxy asleep, filter included, cannot change its configuration |
| `Endpoints.NothingMissed` | internal/controller/proxyconfigmap/endpoints.go:112-167 | over every history of events, a proxy never woken has the configuration it started with |
| `Defaults.DefaultsByPath` | internal/apis/ianlewis.org/v1alpha1/types.go:95-117 | at every depth: an empty namespace becomes the proxy's, name, port and shape are kept, and a type changes only at the root, from empty to "sharded" |
| `Defaults.DefaultValues` | internal/apis/ianlewis.org/v1alpha1/types.go:65-86 | the image, port, stats root and security context that missing settings get, the rest being kept |
| `Defaults.Idempotent` | internal/apis/ianlewis.org/v1alpha1/types.go:41-117 | defaulting twice is defaulting once |
| `Defaults.FixedPointIff` | internal/apis/ianlewis.org/v1alpha1/types.go:41-117 | a spec is a fixed point if and only if nothing that defaulting fills is missing, and defaulting leads to one |
| `Defaults.DefaultedCompilesIff` | internal/apis/ianlewis.org/v1alpha1/types.go:95-105 | a defaulted rule translates if and only if the root's type was known or empty and every child's type was written out |
| `Defaults.UntypedChildFails` | internal/apis/ianlewis.org/v1alpha1/types.go:102-104 | a child without a type never translates, though the same rule as a root does |
| `ProxyObject.DeepCopyRule` | internal/apis/ianlewis.org/v1alpha1/zz_generated.deepcopy.go:161-180 | only new service objects and new slices at every depth, with the same value and nil slices in the same places |
| `ProxyObject.DeepCopySettings` | internal/apis/ianlewis.org/v1alpha1/zz_generated.deepcopy.go:29-51 | only new resource maps, port and security objects, with the same value |
| `ProxyObject.ApplyRuleDefaults` | internal/apis/ianlewis.org/v1alpha1/types.go:95-117 | on shared pointers and copied children: exactly the reachable service objects are filled, no slice is written, and only the receiver's own type can change |
| `ProxyObject.FilledValue` | internal/apis/ianlewis.org/v1alpha1/types.go:95-117 | what filling the objects means for the value of the rule |
| `ProxyObject.ApplySettingsDefaults` | internal/apis/ianlewis.org/v1alpha1/types.go:65-86 | missing settings get the defaults, existing objects stay as they are |
| `ProxyObject.EqualRules` | internal/controller/proxy/controller.go:195 | comparing through pointers and slices decides equality of values, nil slices told from empty ones |
| `ProxyObject.MemcachedProxy.DeepCopy` | internal/apis/ianlewis.org/v1alpha1/zz_generated.deepcopy.go:64-81 | the copy has the same value and shares no object, slice or map with the original at any depth |
| `ProxyObject.MemcachedProxy.ApplyDefaults` | internal/apis/ianlewis.org/v1alpha1/types.go:41-54 | the proxy's value becomes its defaulted value; status and generation stay |
| `ProxyObject.MemcachedProxy.SyncHandler` | internal/controller/proxy/controller.go:188-213 | the cached original is untouched; an update is sent if and only if the generation is not observed or the spec is not a fixed point of defaulting, and it is the defaulted version with the generation observed |
| `Generation.GateHolds` | internal/controller/proxy/controller.go:188-213 | for every history and every version, however stale: observed is at most generation, and equality means a fixed point of defaulting |
| `Generation.ReadPortMeans` | internal/controller/proxyservice/controller.go:242-274 | the gated controllers wait exactly while the generation is not observed, and read the spec's port otherwise |
| `Generation.NeverNil` | internal/controller/proxydeployment/controller.go:238-324 | no gated sync dereferences a nil port, on any version it may have cached |
| `Generation.SyncMakesProgress` | internal/controller/proxy/controller.go:195-205 | a sync writes if and only if writes are pending, and one fewer is pending afterwards |
| `Generation.TwoSyncsOpen` | internal/controller/proxy/controller.go:188-213 | after any history two syncs open the gate and a third does nothing; one is enough if and only if the spec was defaulted |
| `Generation.WritesAtMostTwice` | internal/controller/proxy/controller.go:188-213 | between two edits, any number of syncs with any stale reads writes at most twice |
| `Gate.UndefaultedWaits` | internal/controller/proxydeployment/controller.go:238-243 | over every run of cluster and caches, however stale: while the version shown of a proxy is not a fixed point of defaulting, neither sync writes anything for it, and both requeue |
| `Gate.WritesAreDefaulted` | internal/controller/proxyconfigmap/controller.go:294-300 | whatever a sync writes over such a run, it writes for a version with every default in place, the port among them |
| `ServiceSync.Service.UpdateService` | internal/controller/proxyservice/controller.go:200-215 | the selector is healed, and the answer says whether it had to be |
| `ServiceSync.ServiceKeyIs` | internal/controller/proxyservice/controller.go:251-252 | where a proxy's Service is, letter by letter |
| `ServiceSync.Controller.SyncHandler` | internal/controller/proxyservice/controller.go:217-309 | each outcome exactly when it happens; an open gate leaves the Service with the proxy's selector and touches no other |
| `ServiceSync.SelectsOwnPods` | internal/controller/names.go:45-50 | in every reachable state the Service selector selects the pods of the proxy's own Deployment and ReplicaSets and of no other proxy |

## Left out

- Deletion of the Deployment by someone else: both syncs then wait for each other until the collector acts.
- Stale ConfigMap, Deployment and ReplicaSet caches, lister errors and failing writes; `GetDeploymentsForProxy` hides a lister error.
- In-place writes to cached ConfigMaps, Deployments and Services before the update call; the model writes the API object.
- The two steps of a Deployment's rollout inside Kubernetes: scaling, pods, revision history.
- ProxyObject.DeepCopySettings: holds a security context as one object, because its copying is part of the Kubernetes API library.
- ProxyObject.MemcachedProxy.DeepCopy: leaves out the object metadata, whose copying is part of the same library and which nothing here writes.
- Endpoints.NothingMissed: holds Services and proxies fixed, because the configmap controller does not watch Services.
- Pools.PoolForService: does not give the text of lister errors.
- The workqueue, rate limits, workers and requeue delays; an outcome only says that the key is queued again.
- SHA-1 itself, the escaping and byte layout of JSON text, and mcrouter's own hash functions and failover.
- Events, logging, generated clients, charts, main.go and the test client.
