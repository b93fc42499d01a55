# Talos management operator: a verified model

The operator keeps Talos Linux clusters in the state described by three kinds of Kubernetes
objects, TalosCluster, TalosNode and TalosClusterBootstrap. Each has a controller that reads an
object, does API writes and RPCs to machines, and may die after any of them. This project models
those reconciles in Dafny and proves what holds over whole runs. `dafny verify dfyconfig.toml`
checks everything.

Each controller appears twice: as a class whose methods follow the Go methods step by step, and
as a plan, the list of events of one reconcile as a function of the object read and of how each
call goes. The class is proved to do exactly its plan. Theorems are about runs: sequences of
plans that stop after any number of events, with user and machine steps in between.

| files | content |
|---|---|
| Options, Conditions, Dialer | option type and rows of calls, the condition list as a map, dialling endpoints |
| Patches, Images | patch merging and configuration building; image tags, canonical extension key, desired image |
| NodeTypes, NodePlan, NodeReconciler | the TalosNode object, its plans, its reconcile methods |
| NodeLife, NodeHistory, NodeStale, NodeVersions | invariants of one node's life, its histories, when Ready is stale, when versions go back |
| NodeConvergence, NodeEndless, NodeCache | bounded upgrades and exactly when they never end, the schematic cache and the images sent |
| NodeOutcomes, UpgradeOutcomes, Departure, NodeOrder | where configuring, resetting, upgrading and deleting a node lead, however the calls go, and in which order things are done |
| FleetPlans, Fleet, Teardown, Endpoints | last control plane over interleaved nodes, teardown across controllers, endpoint repair |
| Drain, Etcd | draining the Kubernetes node, removing an etcd member |
| Provision, Provisioned, ClusterReconciler | one PKI per cluster, where provisioning leads, the TalosCluster reconcile methods |
| Bootstrap, BootstrapHistory, BootstrapOutcomes, BootstrapReconciler | one etcd cluster, the bootstrap conditions, where a bootstrap leads, the reconcile methods |
| EtcdSplit | a node's deletion against the bootstrap of its cluster |

Assumptions:

- Reads see the latest write. A write that does not land is a failed call; a crash is a plan cut short.
- `role`, `clusterRef` and `nodeIP` are fixed once a node exists; uids are never reused. Control planes
  of a cluster have distinct addresses, so that an endpoint or an etcd peer address stands for one node.
- The Image Factory client turns an empty schematic into an error (`internal/factory/factory.go:102-104`).
- Only the operator writes `last-upgrade`, `last-reset`, `last-extensions` and `current-schematic`.
- Versions are ordered by a partial map from tags to ranks, a total preorder on those that parse
  (section 11 of Semantic Versioning 2.0.0).
- User edits fall between the passes of an object, but for one place. A pass reads its object once;
  the only later moment at which it learns of an edit and still looks at spec or annotations is the
  answer to the patch that records a schematic (`internal/controller/helpers.go:121-137`), and there
  an edit is part of the pass. An edit at any other moment acts like one after the pass: status
  updates carry a resource version and fail instead, and after the other patches nothing a user can
  change is read. In Fleet, where another node's deletion matters to a pass, edits fall between any
  two events.
- One reconcile per object at a time, as the work queue ensures; in Fleet passes of different
  nodes overlap, in Bootstrap one worker serves all objects.
- Peer URL parsing, PKI and configuration generation, YAML parsing and the Image Factory are
  parameters or outcomes.

Where the documentation and the code differ the model follows the code:

- `docs/features.md:19` says a changed version regenerates the machine configurations; the code
  creates secrets only when they are absent (`internal/talos/secrets.go:47`), so they stay.
- `internal/talos/client.go:79-82` promises that all configurations share one CA; an existing
  bundle that cannot be read or parsed is silently replaced by a fresh one for that pass.
  OnePkiExactly says when this is harmless.
- `docs/api-reference.md:153` calls a Completed bootstrap a permanent no-op; once its generation
  moves on, every reconcile probes the API server again (StaleGenerationStays,
  CompletedIsQuietExactly).
- `internal/controller/talosnode_extensions.go:163-166` normalises versions to prevent an endless
  upgrade loop, and `internal/controller/talosnode_upgrade.go:229` says that digest-pinned images have
  no extractable tag; the digest is taken for the tag, and a spec that pins one is upgraded for
  ever. So is a spec beside an annotation that writes the same version differently (Endless,
  EndlessInputs, UpgradesEndExactly).
- `internal/controller/talosnode_controller.go:252-254` protects the last control plane; a
  control plane deleted before its finalizer was added escapes. SurvivesExactly says when that
  costs the last one.

## Model

| member | source | states |
|---|---|---|
| NodeHistory.NoInsecureDialOnceApplied | internal/controller/talosnode_controller.go:698-710 | in every history, with crashes after any write or RPC, no insecure dial happens between the moment ConfigApplied=True is persisted and the next successful standalone reset |
| NodeHistory.ResetAtMostOncePerRequest | internal/controller/talosnode_controller.go:346-381 | standalone Reset RPCs never outnumber the times the user set the reset annotation to a new non-empty value, wherever passes are cut off |
| NodeHistory.UpToDateMeansSavedFromCurrentSpec | internal/controller/talosnode_controller.go:134-138 | a node that counts as up to date has a saved configuration built from its current generation, unless an upgrade was started from phase Applying or Error since the last successful apply |
| NodeStale.StaleExactly | internal/controller/talosnode_upgrade.go:98-105 | some run whose upgrades since the last successful apply were all started in phase p ends up to date without a configuration of the current generation if and only if p is Applying or Error |
| NodeStale.ReadyCanBeStale | internal/controller/talosnode_upgrade.go:186-197 | the two failing runs: a bad patch, applied in vain or cut off after its first write, then an annotated upgrade and its completion |
| NodeVersions.RecordedVersionsNeverGoBack | internal/controller/talosnode_upgrade.go:131-140 | in every run where each written phase Upgrading is followed by its companion annotation, the recorded versions never decrease, as far as they parse |
| NodeVersions.LandingIsGuarded | internal/controller/talosnode_upgrade.go:98-140 | in such runs no upgrade is ever declared complete before its companion annotation landed |
| NodeVersions.CompletionRecordsTheTarget | internal/controller/talosnode_upgrade.go:148-197 | while an upgrade runs with its companion recorded, the only thing a pass can write is completion with exactly the tag of last-upgrade, which is no downgrade |
| NodeVersions.CompletionCanGoBackExactly | internal/controller/talosnode_upgrade.go:150-179 | a pass over an upgrading node can record an older version if and only if last-upgrade has an older tag, or has no tag and an older version exists |
| NodeVersions.RecordedVersionCanGoBack | internal/controller/talosnode_upgrade.go:98-140 | a run, cut off twice between RPC and companion annotation, that records a version and then an older one |
| NodeVersions.SettledSpecIsQuiet | internal/controller/talosnode_extensions.go:74-93 | once the recorded version is the one the spec asks for and the cache is clean, no run with an unchanged spec sends another spec-driven RPC unless the recorded version changes; for every version, parseable or not |
| NodeVersions.CompletionSettles | internal/controller/talosnode_extensions.go:110-150 | completing an upgrade to the computed image records just that version, for every non-empty colon-free version and any schematic |
| NodeHistory.EscalationEnds | internal/controller/talosnode_controller.go:412-458 | in every run, crashes and lost writes in between included, at most three of the passes that get beyond guard and drain with their status writes landing do not reach the cleanup, so one of any four does |
| NodeHistory.PassFailsOrCleansUp | internal/controller/talosnode_controller.go:280-327 | a deletion pass beyond guard and drain either fails one more etcd leave, with attempts left, or reaches the cleanup and ends with all of it, never both |
| NodeHistory.FailedLeavesAreBounded | internal/controller/talosnode_controller.go:423-432 | failed etcd leave attempts of any kind never exceed three plus those whose count was never persisted |
| NodeHistory.NodeGoesExactly | internal/controller/talosnode_controller.go:234-333 | a deletion pass removes the finalizer if and only if every stage let it through: phase write, guard, drain, etcd leave or its exceptions, configuration secret |
| NodeHistory.ForceRemoveGoesThroughAPeer | internal/controller/talosnode_controller.go:437-456 | force-remove names the node's own IP, goes through a reachable endpoint other than it, and only after three counted failures |
| NodeLife.RunKeepsInv | internal/controller/talosnode_controller.go:66-131 | the joint invariant of dialling, resetting, applying, upgrading and leaving etcd holds after every event of every run |
| NodeLife.PlanIsSafe | internal/controller/talosnode_controller.go:80-130 | every event of a whole reconcile, in the order of its branches, keeps that invariant, so it may stop after any of them |
| NodeConvergence.UpgradesAreBounded | internal/controller/talosnode_extensions.go:40-101 | over any run that leaves the spec's version and extensions and the upgrade annotation unedited, unless the two are endless: at most one spec-driven and two annotation-driven Upgrade RPCs, none once nothing is left, and one more of either for every attempt cut off between its phase write and its companion annotation, or whose RPC failed |
| NodeEndless.UpgradesEndExactly | internal/controller/talosnode_extensions.go:74-93 | over runs of a new node without such attempts, the Upgrade RPCs for a given spec and annotation are bounded, then by three, if and only if the two are not endless: both name a version, and after both had their turn the spec still asks for another than the one on record |
| NodeConvergence.EndlessForPlainVersions | internal/controller/talosnode_upgrade.go:233-246 | for a spec version without a colon: endless exactly when the annotation's tag is another text that is no downgrade in either direction |
| NodeEndless.EndlessInputs | internal/controller/talosnode_upgrade.go:216-222 | failing inputs: annotation tag v1.13 beside spec version v1.13.0, parseable or not, and a spec version that pins a digest |
| NodeEndless.CrashesRepeatUpgrades | internal/controller/talosnode_upgrade.go:98-140 | for every k, a run in which the reconcile dies k times between RPC and companion annotation and one annotation leads to k + 1 RPCs, so the bound is reached |
| NodeConvergence.RunPays | internal/controller/talosnode_upgrade.go:22-140 | the measure behind the bound: RPCs sent plus RPCs left grow only with unfinished attempts |
| NodeConvergence.UpgradeCut | internal/controller/talosnode_upgrade.go:80-140 | an upgrade attempt cut off anywhere does nothing, consumes a downgrade, upgrades and records its image, or is unfinished with at most one RPC sent and nothing else but phase and last-upgrade touched |
| NodeCache.CacheIsTransparent | internal/controller/talosnode_extensions.go:110-150 | in every reachable state a cached image equals the image of a fresh answer from a factory that looks only at the multiset of names, and is the one the spec stands for |
| NodeCache.ImagesAreNamed | internal/controller/talosnode_extensions.go:110-150 | in every reachable state, every image a pass sends is the annotation's or, for the spec it read, cached or not: `factory.talos.dev/installer/`, the factory's schematic for the extensions, a colon and the version with its `v`; with no extensions `ghcr.io/siderolabs/installer:` and that version |
| NodeCache.ImagesDifferExactly | internal/controller/talosnode_extensions.go:110-150 | for one version, two specs stand for one image if and only if neither has extensions, or both have and the factory gives them one schematic |
| NodeCache.RunKeepsFaithful | internal/controller/talosnode_extensions.go:63-72 | the two cache annotations always stem from one factory answer together |
| NodeCache.ExtensionChangeSurvivesExactly | internal/controller/talosnode_extensions.go:63-78 | after a crash between recording the schematic and the RPC, a later pass starts the upgrade if and only if the version itself differs and is no downgrade |
| NodeOrder.PassAscends | internal/controller/talosnode_controller.go:80-130 | the order of everything a pass over a live node does: finalizer, schematic, phase Upgrading before its RPC before its companion annotation, the reset's mark before its RPC, phase Applying before the dials, sending before saving, and last the status it ends in |
| NodeOrder.DeletionAscends | internal/controller/talosnode_controller.go:234-333 | the order of a deletion: phase, guard, etcd, cleanup, wiping, configuration secret, endpoint list, kubeconfig, finalizer; a failed leave is counted right after it |
| NodeOutcomes.ConfigEndsIn | internal/controller/talosnode_controller.go:117-131 | a pass with nothing else to do first: a node that has its configuration, with no drift to repair, is left alone; any other is Ready with ConfigApplied, in error with one retry more, or still Applying, as the first call that did not succeed decides, and its saved configuration is that of the generation read exactly when sending and saving succeeded |
| NodeOutcomes.DialsExactly | internal/controller/talosnode_controller.go:622-737 | what such a pass does besides: the insecure dial exactly as long as no configuration was applied, mTLS exactly otherwise or as the fallback with a talosconfig, then sending and saving, each exactly when all before it succeeded |
| NodeOutcomes.FirstConfiguration | internal/controller/talosnode_controller.go:622-737 | a node without a configuration, and no upgrade or reset to do first, is reached without TLS and ends up Ready with the configuration of its generation when the calls succeed |
| NodeOutcomes.ResetUnconfigures | internal/controller/talosnode_controller.go:346-381 | a pass that resets the machine and whose status write lands leaves phase Pending, ConfigApplied False, the request marked as done, and nothing else of the status changed |
| NodeOutcomes.ResetLeadsBack | internal/controller/talosnode_controller.go:372-377 | after such a reset, with no upgrade asked for, the next pass that succeeds dials without TLS, saves the configuration of the generation, and ends Ready, ConfigApplied and up to date |
| UpgradeOutcomes.AnnotatedUpgradeEndsIn | internal/controller/talosnode_upgrade.go:22-140 | a pending annotation is sent if and only if its image has a tag that is no downgrade and the machine can be upgraded; it leaves phase Upgrading, or in error after a failed RPC, TalosVersionUpToDate False, and the trigger consumed; a downgrade is consumed alone |
| UpgradeOutcomes.SpecUpgradeEndsIn | internal/controller/talosnode_extensions.go:74-101 | the same for an upgrade the spec asks for, with a new schematic recorded together with its canonical key |
| UpgradeOutcomes.NothingWithoutSchematic | internal/controller/talosnode_extensions.go:54-72 | a pass that gets no schematic for new extensions, or cannot record it, does nothing at all |
| UpgradeOutcomes.CompletionEndsIn | internal/controller/talosnode_upgrade.go:148-207 | an upgrading node becomes Ready with the version reported, TalosVersionUpToDate True and, if it has extensions, these as installed, if and only if the version is the one sent and the write lands; else nothing changes |
| UpgradeOutcomes.UpgradeRunsToReady | internal/controller/talosnode_upgrade.go:22-207 | an annotated upgrade that goes well is sent, and then Ready with its version and extensions and no longer pending |
| UpgradeOutcomes.ExtensionEditIsRolledOutExactly | internal/controller/talosnode_extensions.go:54-101 | an edit of the extensions alone leads to an upgrade with the factory's schematic for them if and only if it is more than a change of order |
| Departure.LeavesEtcdExactly | internal/controller/talosnode_controller.go:412-458 | an etcd leave is tried if and only if a control plane beyond guard and drain has attempts left, a force-removal sent if and only if it has none, through the first other endpoint that answers and naming its own IP |
| Departure.CleansUpExactly | internal/controller/talosnode_controller.go:287-332 | wiping, configuration secret, endpoint list, kubeconfig and finalizer: each if and only if the pass got beyond etcd and the object, the spec or what was read calls for it |
| Departure.DeletionEndsIn | internal/controller/talosnode_controller.go:234-333 | a deletion pass leaves phase Deleting, one failed leave more exactly if it failed one, the finalizer gone exactly if it got that far, and nothing else changed |
| NodeReconciler.Reconciler.Reconcile | internal/controller/talosnode_controller.go:66-131 | one reconcile does exactly the events of the plan: deletion, finalizer, running upgrade, upgrade annotation, spec, reset annotation, drift, apply |
| NodeReconciler.Reconciler.HandleUpgrade | internal/controller/talosnode_upgrade.go:22-140 | rejects untagged images, consumes downgrades, leaves containers alone, else writes phase, RPC, companion annotation and error phase in that order |
| NodeReconciler.Reconciler.CheckUpgradeComplete | internal/controller/talosnode_upgrade.go:148-207 | writes completion only for the expected tag |
| NodeReconciler.Reconciler.ReconcileVersion | internal/controller/talosnode_extensions.go:40-101 | records the schematic before any upgrade, goes on with what the patch's answer shows of the user's edits, and ends the pass exactly on an error or an attempt |
| NodeReconciler.Reconciler.RecordSchematic | internal/controller/helpers.go:121-137 | both cache annotations in one patch, whose answer refreshes spec and annotations of the working copy |
| NodeReconciler.Reconciler.HandleStandaloneReset | internal/controller/talosnode_controller.go:346-381 | marks the request before the RPC and clears ConfigApplied only after it succeeded |
| NodeReconciler.Reconciler.ApplyConfig | internal/controller/talosnode_controller.go:622-737 | events, result and in-memory status of one attempt, for every failing call |
| NodeReconciler.Reconciler.ConnectAndSend | internal/controller/talosnode_controller.go:698-712 | insecure dial on the first apply with mTLS as the fallback, mTLS only afterwards |
| NodeReconciler.Reconciler.SetError | internal/controller/talosnode_controller.go:49-64 | error phase and retry count on top of the status the attempt left |
| NodeReconciler.Reconciler.HandleDeletion | internal/controller/talosnode_controller.go:234-333 | phase, guard, drain, etcd leave, cleanup, in that order, each able to end the pass |
| NodeReconciler.Reconciler.HandleEtcdLeave | internal/controller/talosnode_controller.go:412-458 | counts failed leaves, escalates after three, never blocks on the escalation |
| NodeReconciler.Reconciler.Cleanup | internal/controller/talosnode_controller.go:290-309 | best-effort reset, then the configuration secret |
| NodeReconciler.Reconciler.FinishDeletion | internal/controller/talosnode_controller.go:314-332 | endpoint and kubeconfig repair for control planes, then the finalizer |
| NodeReconciler.Reconciler.SurvivingPeers | internal/controller/helpers.go:83-91 | the loop of filterExclude computes the filtered list |
| NodeReconciler.Reconciler.RemoveEndpointFromCluster | internal/controller/talosnode_controller.go:505-527 | writes the filtered list only when it is shorter and not empty, and leaves the list it says |
| NodeReconciler.Reconciler.RefreshKubeconfig | internal/controller/talosnode_controller.go:575-607 | points the kubeconfig at the head of the list as the update left it or as it was edited since, if there is a kubeconfig secret that parses |
| NodeReconciler.FilterLength | internal/controller/talosnode_controller.go:515-519 | comparing lengths is comparing lists: equal exactly when the IP was not listed |
| Dialer.DialFirst | internal/controller/talos_dialer.go:105-115 | the dialling loop returns the first endpoint that answers |
| Dialer.DialAnyIsFirst | internal/controller/talos_dialer.go:105-115 | the first answering endpoint wins, and failure means none answers |
| Fleet.SomeControlPlaneSurvives | internal/controller/talosnode_controller.go:252-285 | in every interleaving of creates, deletes, edits, crashes and event-by-event passes of all nodes, while the cluster stays and no control plane is deleted without its finalizer as the only one that never passed the guard: such a one is left, and destructive events, standalone resets included, are only aimed at control planes that passed it or were asked to be reset |
| Fleet.SurvivesExactly | internal/controller/talosnode_controller.go:252-285 | while the cluster stays, some control plane has not passed the guard at every moment of a run if and only if none was deleted without its finalizer while it was the only such one |
| Fleet.StepKeepsExactly | internal/controller/talosnode_controller.go:84-86 | the same for one step from any state of the invariant |
| Fleet.FreshWitnessCanVanish | internal/controller/talosnode_controller.go:84-86 | a failing run: a brand-new control plane counted by another's guard is deleted at once and both are gone |
| FleetPlans.PlanIsGuarded | internal/controller/talosnode_controller.go:234-327 | a control plane's plan holds nothing that removes it before the guard, and a live node's plan nothing that removes it at all; a standalone reset is not a removal |
| FleetPlans.PlanIsRequested | internal/controller/talosnode_controller.go:106-108 | a plan holds no standalone reset before the reset annotation was set |
| Fleet.IsLastControlPlane | internal/controller/talosnode_controller.go:536-565 | the guard's loop: last exactly when the cluster exists and every other control plane of it is terminating |
| Fleet.GuardIsExact | internal/controller/talosnode_controller.go:536-565 | on a complete list the guard refuses exactly when the cluster exists and no live peer does |
| Teardown.TeardownCompletes | internal/controller/taloscluster_controller.go:73-110 | with cluster and nodes all marked for deletion, any fair passes followed by one of the cluster and one of each node leave neither cluster, secrets nor nodes |
| Teardown.NodeGoesInOnePass | internal/controller/talosnode_controller.go:536-542 | once the cluster is gone a node goes in one pass if and only if its drain is skipped or the kubeconfig is missing or usable |
| Teardown.NodeLeavesNothing | internal/controller/talosnode_controller.go:301-309 | a node that goes takes its saved configuration with it, with or without the cluster |
| Teardown.ClusterGoes | internal/controller/taloscluster_controller.go:86-110 | terminating nodes never hold up the cluster's own deletion |
| Endpoints.OrderDoesNotMatter | internal/controller/talosnode_controller.go:234-333 | whole deletion passes of control planes that go, their reads and writes of cluster and kubeconfig landing: in any order they leave the same order-preserving list of survivors and the kubeconfig at its head, never at a deleted IP |
| Endpoints.NeverEmpty | internal/controller/talosnode_controller.go:234-333 | whatever whole deletion passes read, whichever writes land and wherever they die, the endpoint list never becomes empty, gains no address and keeps every one that is not deleted |
| Endpoints.ServerFollows | internal/controller/talosnode_controller.go:311-325 | after any such sequence of deletion passes the kubeconfig points at the head of the list |
| Endpoints.RepairedIs | internal/controller/talosnode_controller.go:515-524 | an address goes from the list exactly when another remains |
| Endpoints.OneDeletion | internal/controller/talosnode_controller.go:311-325 | a control plane that goes takes its address out of the list, unless no other is there, and leaves the kubeconfig at the head of the list, which is not empty |
| Endpoints.WorkersRepairNothing | internal/controller/talosnode_controller.go:311-325 | a worker's deletion pass, cut off anywhere, touches neither list nor kubeconfig |
| Provision.OnePkiAlways | internal/controller/taloscluster_controller.go:140-202 | for passes cut off after any write, spec edits, deletion and re-creation: every configuration secret of a live cluster comes from the stored bundle, and a gone cluster leaves no secret, as long as an existing bundle can be read and parsed |
| Provision.OnePkiExactly | internal/controller/taloscluster_controller.go:157-193 | the property survives an undisturbed pass if and only if the bundle was readable, or redrawn identically, or nothing was left to create |
| Provision.TransientReadErrorSplitsPki | internal/controller/taloscluster_controller.go:160-162 | a concrete split: a failed read of the bundle with one configuration missing |
| Provision.ContentsNeverChange | internal/talos/secrets.go:37-51 | a secret keeps its content until it is deleted, whatever is created over it |
| Provision.TeardownWaitsForNodes | internal/controller/taloscluster_controller.go:86-101 | while a live node names the cluster, it shows phase Deleting and nothing else changes; otherwise all four secrets and the finalizer go |
| Provision.DeletesUpToFirstFailure | internal/talos/secrets.go:78-85 | a secret is deleted if and only if it is there and neither it nor one listed before it is stuck |
| Provision.ActiveCountZero | internal/controller/taloscluster_controller.go:118-130 | the count is zero exactly when every node naming the cluster is terminating |
| Provisioned.ReadyMeansStored | internal/controller/taloscluster_controller.go:140-202 | in every run, its passes cut off anywhere and whatever fails: a live cluster that is Ready, or has either condition True, has all four secrets stored |
| Provisioned.PassEndsIn | internal/controller/taloscluster_controller.go:140-222 | a pass over a live cluster that is not up to date ends Ready at its generation with both conditions True and no retries, in error with one retry more, or still Provisioning with both False, as its first call that does not succeed decides |
| Provisioned.ReadyIsQuietExactly | internal/controller/taloscluster_controller.go:56-59 | a ready cluster is a no-op for every reconcile if and only if it is at its generation; behind it, every reconcile that can write provisions again |
| Provisioned.ProvisioningSettles | internal/controller/taloscluster_controller.go:192-201 | after a pass whose calls succeed: phase Ready, observed generation, both conditions True, no retries, all four secrets stored; no number of further passes, however they go, changes anything until the spec is edited, and then the next one provisions |
| ClusterReconciler.Reconciler.Reconcile | internal/controller/taloscluster_controller.go:40-71 | one reconcile does exactly the planned events, and the stored world is what they made of it |
| ClusterReconciler.Reconciler.Provision | internal/controller/taloscluster_controller.go:140-202 | status, bundle, generated configurations and final status in order, with every failing call |
| ClusterReconciler.Reconciler.StoreSecrets | internal/controller/taloscluster_controller.go:168-193 | the secrets up to the first failing creation; generation errors only after the bundle is stored |
| ClusterReconciler.Reconciler.CreateSecret | internal/talos/secrets.go:37-51 | an existing secret counts as success and is left alone |
| ClusterReconciler.Reconciler.HandleDeletion | internal/controller/taloscluster_controller.go:73-114 | blocked by live nodes, else the secrets, then the finalizer |
| ClusterReconciler.Reconciler.ActiveNodeCount | internal/controller/taloscluster_controller.go:118-130 | the counting loop |
| ClusterReconciler.Reconciler.DeleteMultiple | internal/talos/secrets.go:78-85 | deletes in order, stops at the first failure, skips the missing |
| ClusterReconciler.Reconciler.DeleteSecret | internal/talos/secrets.go:67-76 | deletes a secret if it is there |
| BootstrapHistory.OneEtcdCluster | internal/controller/talosclusterbootstrap_controller.go:82-168 | any number of bootstrap objects, cut off anywhere, start at most one etcd cluster, as long as the first endpoint stays an etcd member once a cluster is formed |
| BootstrapHistory.RpcsAreInOrder | internal/controller/talosclusterbootstrap_controller.go:125-168 | in every run, whatever becomes of the endpoints, every Bootstrap RPC goes to the first endpoint, and none is sent once the object's Bootstrapped=True is persisted |
| BootstrapHistory.OneEtcdClusterExactly | internal/controller/talosclusterbootstrap_controller.go:125-142 | with one etcd cluster running, a step keeps it the only one under the next fresh object if and only if it leaves an etcd member as the first endpoint |
| EtcdSplit.DeletionSplitsExactly | internal/controller/talosnode_controller.go:280-325 | with one etcd cluster of which all endpoints are members, and the deletion of a node cut off anywhere: the next fresh bootstrap object starts a second cluster if and only if the node was the first endpoint, is out of etcd and still listed |
| EtcdSplit.DeletionCanSplit | internal/controller/talosnode_controller.go:412-436 | every deletion of the first endpoint that leaves etcd has such a moment, right after it left |
| BootstrapHistory.CompletedMeansUsable | internal/controller/talosclusterbootstrap_controller.go:193-262 | in every persisted state APIServerReady implies KubeconfigAvailable implies Bootstrapped, Completed implies all three; secrets created equal secrets deleted plus the one there is |
| BootstrapHistory.ProgressNeverReverts | internal/controller/talosclusterbootstrap_controller.go:92-118 | Bootstrapped and KubeconfigAvailable, once true, stay true for the life of the object |
| BootstrapHistory.StaleGenerationStays | internal/controller/talosclusterbootstrap_controller.go:95-98 | over every run: once the kubeconfig is stored, an object behind its generation stays behind and never counts as up to date again |
| BootstrapHistory.CompletedIsQuietExactly | internal/controller/talosclusterbootstrap_controller.go:268-272 | a Completed object is a no-op for every reconcile if and only if it is at its generation |
| BootstrapHistory.NeverAhead | internal/controller/talosclusterbootstrap_controller.go:105-107 | in every reachable state the generation seen is at most the generation |
| BootstrapOutcomes.ReadyNeedsProbe | internal/controller/talosclusterbootstrap_controller.go:208-262 | no pass writes phase Completed, or turns APIServerReady True, unless it read the kubeconfig secret and its probe succeeded |
| BootstrapOutcomes.ClaimsWereProbed | internal/controller/talosclusterbootstrap_controller.go:208-262 | in every run an object that is Completed or APIServerReady=True has had a pass that read the secret and reached the API server since it last was neither |
| BootstrapOutcomes.RpcExactly | internal/controller/talosclusterbootstrap_controller.go:68-168 | the Bootstrap RPC is sent if and only if the object is live, not bootstrapped, has a ready control plane and the first endpoint answers, and it goes there |
| BootstrapOutcomes.PassEndsIn | internal/controller/talosclusterbootstrap_controller.go:68-262 | the phase a pass ends in, from the first of its calls that fails: Error, WaitingForNodes, WaitingForKubeconfig, WaitingForAPIServer or Completed, with the conditions each stands for and the retries counted |
| BootstrapOutcomes.ProbeCompletes | internal/controller/talosclusterbootstrap_controller.go:224-255 | with the kubeconfig stored, an endpoint, a ready control plane, a readable secret, a successful probe and a landing write, a pass ends Completed with all three conditions True |
| BootstrapOutcomes.WaitsForNodes | internal/controller/talosclusterbootstrap_controller.go:277-293 | without a ready control plane a pass leaves WaitingForNodes or, if that cannot be written, the error, and nothing else |
| BootstrapOutcomes.CancelledPass | internal/controller/talosclusterbootstrap_controller.go:134-183 | a dial, RPC or fetch that is cancelled is no failure: the object stays Bootstrapping with its retries as they were, and Bootstrapped once the RPC was answered |
| BootstrapOutcomes.WorkIsShown | internal/controller/talosclusterbootstrap_controller.go:105-118 | no Bootstrap RPC is sent and no kubeconfig stored before phase Bootstrapping is persisted at the object's generation |
| BootstrapOutcomes.DeletionEndsIn | internal/controller/talosclusterbootstrap_controller.go:295-321 | a deletion takes the kubeconfig secret along if and only if it finds cluster and secret, and the object goes if and only if that and its own write succeed |
| Bootstrap.PlanIsAllowed | internal/controller/talosclusterbootstrap_controller.go:47-203 | every event of a reconcile obeys the protocol: chain, progress, first endpoint, no RPC after Bootstrapped, no kubeconfig before it |
| Bootstrap.RunKeepsCore | internal/controller/talosclusterbootstrap_controller.go:47-321 | the invariant of conditions, generations, RPCs and the kubeconfig secret holds in every run, wherever its reconciles stop |
| Bootstrap.RunKeepsInv | internal/controller/talosclusterbootstrap_controller.go:82-168 | and with it the one etcd cluster, while the first endpoint stays a member |
| BootstrapReconciler.Reconciler.Reconcile | internal/controller/talosclusterbootstrap_controller.go:47-203 | one reconcile does exactly the planned events, and the world is what they made of it |
| BootstrapReconciler.Reconciler.ReconcileActive | internal/controller/talosclusterbootstrap_controller.go:68-118 | no endpoints, no ready control plane, short-circuit, or start |
| BootstrapReconciler.Reconciler.Connect | internal/controller/talosclusterbootstrap_controller.go:120-149 | the first endpoint before the bootstrap, any afterwards |
| BootstrapReconciler.Reconciler.BootstrapEtcd | internal/controller/talosclusterbootstrap_controller.go:151-168 | already-exists is success, a cancelled call is silent, the condition is persisted before going on |
| BootstrapReconciler.Reconciler.FetchKubeconfig | internal/controller/talosclusterbootstrap_controller.go:170-202 | retry status, create-if-absent, condition |
| BootstrapReconciler.Reconciler.WaitForAPIServer | internal/controller/talosclusterbootstrap_controller.go:208-262 | waiting or completed, from the stored secret |
| BootstrapReconciler.Reconciler.ReadyControlPlaneCount | internal/controller/talosclusterbootstrap_controller.go:354-368 | the counting loop |
| BootstrapReconciler.Reconciler.HandleDeletion | internal/controller/talosclusterbootstrap_controller.go:295-321 | takes the kubeconfig secret along when cluster and secret are found |
| BootstrapReconciler.Reconciler.SetError | internal/controller/talosclusterbootstrap_controller.go:339-350 | error phase and retry count on the in-memory status |
| Drain.DrainedThenDeleted | internal/controller/talosnode_drain.go:27-79 | the Node object is deleted only after it was cordoned and a listing right before held nothing evictable, and a deletion goes on exactly then or when there was nothing to drain |
| Drain.DrainIsSafe | internal/controller/talosnode_drain.go:158-220 | no eviction goes to a DaemonSet's, mirror, finished or terminating pod of the last listing; success ends with a listing without evictable pods |
| Drain.SweepIsExact | internal/controller/talosnode_drain.go:175-209 | a round evicts exactly the pods that are no DaemonSet's, no mirrors, not finished and not terminating, and nothing is pending exactly when every pod listed is of one of the first three kinds |
| Drain.PollLoopEndsInTime | internal/controller/talosnode_drain.go:160-219 | the loop ends by the deadline plus one tick, or plus one round's calls if those take longer, and lists at most once per interval |
| Drain.DrainedExactly | internal/controller/talosnode_drain.go:158-220 | a drain succeeds if and only if the last thing it did was a listing without evictable pods |
| Drain.SmoothVerdict | internal/controller/talosnode_drain.go:27-79 | with calls that succeed within an interval of 5 seconds, a node is drained and deleted if and only if some round that begins before the deadline, 5 minutes unless set, finds no evictable pod; otherwise it is tried again |
| Drain.VerdictExactly | internal/controller/talosnode_drain.go:27-79 | a node is cordoned if and only if it is found in a usable cluster; a drain that did not empty it is tried again, and an emptied node that cannot be deleted is an error |
| Drain.Drainer.DrainAndDeleteNode | internal/controller/talosnode_drain.go:27-79 | events and verdict for every failing or missing piece |
| Drain.Drainer.DrainPods | internal/controller/talosnode_drain.go:158-220 | the poll loop with its ticker, events, result and finishing time |
| Drain.Drainer.EvictPods | internal/controller/talosnode_drain.go:177-205 | the eviction loop with its pending count |
| Etcd.Cluster.EtcdForceRemoveByIP | internal/talos/client.go:352-379 | at most one member goes, the first with a peer host exactly equal to the address; a zero identifier or unreadable list removes none; what success means |
| Etcd.FindEtcdMemberID | internal/talos/client.go:386-398 | the nested loops find the identifier of the first matching member, or zero |
| Etcd.RemovedForGood | internal/talos/client.go:352-379 | when no two members share the address, one removal leaves none with it and all the others |
| Patches.RefoldIsIdempotent | internal/controller/talosnode_controller.go:657-679 | running a whole patch list again over its own output changes nothing, map and scalar conflicts included |
| Patches.RebuildIsIdempotent | internal/controller/talosnode_controller.go:657-690 | building a configuration from its own fields reproduces it, standalone documents included |
| Patches.MergePatches | internal/controller/talosnode_controller.go:778-793 | the merge loop gives one result for every map iteration order |
| Patches.MergeLookup | internal/controller/talosnode_controller.go:778-793 | a leaf of the result is the patch's, or the base's where the patch does not shadow it |
| Patches.DropEarlier | internal/controller/talosnode_controller.go:658-664 | a patch that comes again anywhere later in a list can be left out |
| Patches.MergeAssociatesExactly | internal/controller/talosnode_controller.go:778-793 | three patches may be grouped either way if and only if, at every depth where first and last have a map, the middle one has a map too, or nothing, or the last covers the first |
| Patches.MergeIsNotAssociative | internal/controller/talosnode_controller.go:778-793 | the failing family: a map, something that is no map, and a map without one of the first one's keys |
| Patches.BuiltStepwise | internal/controller/talosnode_controller.go:657-690 | a configuration is its base with the entries added one by one, inline patches before those from secrets: one unusable entry and there is none, a document of its own comes last as it is written, any other is merged |
| Patches.LastEntryWins | internal/controller/talosnode_controller.go:657-679 | leaf by leaf, the last entry decides wherever it does not leave the leaf alone |
| Patches.ApplyRawPatch | internal/controller/talosnode_controller.go:765-776 | documents with apiVersion stand alone, others are merged, unparseable ones change nothing |
| Patches.BuildConfig | internal/controller/talosnode_controller.go:657-690 | inline then secret patches, failing on the first unusable entry |
| Images.ImageRoundTrip | internal/controller/talosnode_extensions.go:110-150 | the tag read back from the computed image is the normalised spec version, whatever the schematic |
| Images.VersionIsTextAfterLastColon | internal/controller/talosnode_upgrade.go:216-222 | the tag is the colon-free text after a colon that ends the image, and nothing else |
| Images.CanonicalKeyIsExact | internal/controller/talosnode_extensions.go:156-161 | for plain names two lists have the same key exactly when they are equal as multisets |
| Images.CanonicalKeyExactly | internal/controller/talosnode_extensions.go:156-161 | any two lists share a key if and only if, sorted and taken apart at their commas, they are the same, no name at all counting as one empty name |
| Images.CanonicalKeyNeedsPlainNames | internal/controller/talosnode_extensions.go:156-161 | two instances: a comma inside a name, and an empty name |
| Images.ImageTag | internal/controller/talosnode_extensions.go:110-150 | the tag read back from a computed image depends on the spec version alone, colons included |
| Conditions.ConditionList.SetCondition | internal/talos/conditions.go:27-44 | overwrites the entry of its type in place or appends one; the transition time moves exactly when the status does |
| Conditions.ConditionList.HasCondition | internal/talos/conditions.go:7-14 | the search agrees with the map the list stands for |
| Conditions.EntryByEntry | internal/talos/conditions.go:27-44 | other entries stay as and where they are; the entry of its type takes over reason and message, and the transition time exactly if its status changed; a new one comes last |
| Conditions.SetConditionIsMapUpdate | internal/talos/conditions.go:27-44 | setting a condition keeps types unique and is an update of that map |

## Left out

- NodeVersions.RecordedVersionsNeverGoBack: speaks of runs in which companion annotations land. Otherwise the code waits for the tag of the last recorded image, or accepts any version when none is on record; CompletionCanGoBackExactly says when that goes back.
- NodeConvergence.UpgradesAreBounded: attempts that are cut off or fail come on top, because a crash between RPC and annotation does repeat an upgrade (CrashesRepeatUpgrades) and a failed spec-driven RPC is retried.
- NodeEndless.UpgradesEndExactly: speaks of runs in which no attempt is cut off or fails and version, extensions and upgrade annotation are not edited, because each of these can lead to another RPC.
- NodeOutcomes.ConfigEndsIn: speaks of passes that are not cut short over a node whose version is settled or that has no configuration yet; of the others NodeLife.PlanIsSafe and UpgradeOutcomes speak.
- UpgradeOutcomes.ExtensionEditIsRolledOutExactly: speaks of plain extension names and of a version without a colon, because a key can stand for two lists otherwise (CanonicalKeyExactly) and a tag is the text after the last colon.
- BootstrapOutcomes.PassEndsIn: speaks of passes whose status writes land and whose calls are not cancelled, because otherwise the object shows an earlier stage.
- Drain.SmoothVerdict: assumes calls that succeed within an interval; DrainedExactly and PollLoopEndsInTime do not.
- BootstrapHistory.OneEtcdCluster: needs the first endpoint to stay an etcd member, because the code keeps no other record of a formed cluster; OneEtcdClusterExactly and DeletionSplitsExactly say what happens otherwise.
- EtcdSplit.DeletionSplitsExactly: the deletion reads the endpoint list as it is stored, and a machine that was wiped counts as out of etcd.
- NodeHistory.FailedLeavesAreBounded: leave attempts whose count was not persisted come on top of the three, because the counter lives only in the status; EscalationEnds speaks of those that are.
- NodeVersions.SettledSpecIsQuiet: leaves out runs in which the recorded version changes, because then the spec may ask for its version again.
- Teardown.TeardownCompletes: assumes API calls succeed, because a cancelled or failed call ends a pass without anything to bound the next one.
- Patches.MergePatches: maps are values here, so sharing of nested Go maps between base and result is not modelled; the source never writes to them afterwards.
- Images.CanonicalKeyIsExact: the library sort and join are insertion sort and join as functions over character codes.
- Standalone patch documents are their trimmed source text; YAML parsing and multi-document output are not modelled.
- The drift check is one outcome; its comparison of two YAML documents is not modelled.
- Requeue delays, back-off, metrics, Kubernetes events and log messages have no effect on the state.
- gRPC, TLS, clientcmd and URL parsing are outcomes or abstract functions; the kubeconfig is modelled by its server address and whether it is usable.
- Informer staleness, event predicates and work-queue scheduling are not part of this model.
- Retry on conflict in cordonNode, upsertSecret and removeEndpointFromCluster is one outcome of the whole operation.
- Secret names, finalizer list helpers, deep-copy code, Helm charts and manifests would only add easy members.
