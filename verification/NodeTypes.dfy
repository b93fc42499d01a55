// The TalosNode object, what a reconcile can do to the outside world, and everything
// outside the controller's control that decides how one reconcile goes.
module NodeTypes {
  import opened Options
  import opened Conditions
  import opened Images

  datatype Phase = Unset | Pending | Applying | Ready | Errored | Deleting | Upgrading
  datatype Role = ControlPlane | Worker
  datatype CondType = ConfigApplied | TalosVersionUpToDate | ExtensionsUpToDate

  const ETCD_LEAVE_MAX_ATTEMPTS: nat := 3

  // Patches are identified by the generation of the spec that lists them.
  datatype NodeSpec = NodeSpec(
    clusterRef: string, role: Role, nodeIP: string,
    talosVersion: string, extensions: seq<string>,
    driftDetection: Option<bool>, skipDrain: bool, resetOnDelete: bool)

  // Absent annotations read as the empty string, as in a Go map lookup.
  datatype Annotations = Annotations(
    upgrade: string, lastUpgrade: string,
    reset: string, lastReset: string,
    schematic: string, lastExtensions: string,
    skipDrain: string)

  datatype NodeStatus = NodeStatus(
    phase: Phase, observedGeneration: int, conditions: map<CondType, Status>,
    currentVersion: string, installed: seq<string>,
    retryCount: nat, deletionAttempts: nat)

  datatype Node = Node(
    name: string, uid: nat, generation: int, spec: NodeSpec, ann: Annotations,
    status: NodeStatus, finalizer: bool, deleting: bool)

  predicate ConfigIsApplied(status: NodeStatus)
  {
    Has(status.conditions, ConfigApplied, True)
  }

  function SetCond(status: NodeStatus, t: CondType, s: Status): NodeStatus
  {
    status.(conditions := status.conditions[t := s])
  }

  predicate IsNodeUpToDate(node: Node)
  {
    && node.status.observedGeneration == node.generation
    && node.status.phase == Ready
    && ConfigIsApplied(node.status)
  }

  predicate DriftEnabled(node: Node)
  {
    node.spec.driftDetection.None? || node.spec.driftDetection.value
  }

  predicate SkipDrain(node: Node)
  {
    node.spec.skipDrain || node.ann.skipDrain == "true"
  }

  // What a user may change in a node while a reconcile of it is under way; bumps counts the
  // edits of patches, which are not part of the spec here.
  datatype Edit = Edit(spec: NodeSpec, upgrade: string, reset: string, skipDrain: string, bumps: nat)

  datatype Origin = FromAnnotation | FromSpec

  // Everything a reconcile does that outlives it: API writes that land and RPCs that are sent;
  // the stages of a deletion it reaches; and a user's edit it learns of on the way.
  datatype Event =
    | FinalizerAdded
    | UserEdited(edit: Edit)
    | StatusWritten(status: NodeStatus)
    | LastUpgradeSet(image: string)
    | SchematicSet(id: string, canonical: string)
    | LastResetSet(id: string)
    | UpgradeSent(image: string, origin: Origin, ok: bool)
    | StandaloneReset(ok: bool)
    | DialedInsecurely(ok: bool)
    | DialedSecurely(ok: bool)
    | ConfigSent(ok: bool)
    | ConfigSaved(generation: int)
    | GuardPassed(clusterGone: bool)
    | EtcdLeaveTried(ok: bool)
    | ForceRemoveSent(survivor: string, deadIP: string, ok: bool)
    | CleanupStarted
    | DeletionReset(ok: bool)
    | ConfigSecretDeleted
    | EndpointsSet(before: seq<string>, after: seq<string>)
    | KubeconfigPointed(endpoint: string)
    | FinalizerRemoved

  // How one API call or RPC ends; a cancelled or timed-out context is told apart from other errors.
  datatype Result = Done | Failed | Cancelled

  // Looking up the cluster and its talosconfig secret.
  datatype Talosconfig = TcFound | TcSkip | TcError

  // The exits of the drift check, in the order the code takes them.
  datatype DriftCheck = ReadFailed | SecretMissing | Unreachable | NotComparable | InSync | Drifted

  datatype ApplyOutcomes = ApplyOutcomes(
    start: Result, build: Result, talosconfig: Result,
    dialInsecure: Result, dialSecure: Result, send: Result, save: Result, finish: Result,
    errorStatus: bool)

  // The last-control-plane guard: what reading the cluster and listing the nodes shows.
  datatype Guard = GuardError | ClusterGone | NoPeer | PeerFound

  datatype Drain = DrainError | DrainAgain | DrainDone

  datatype ConfigSecret = SecretError | SecretAbsent | SecretStuck | SecretPresent

  // What the second look at the cluster shows, after the endpoint update: nothing, the list as
  // that update left it, or another list, edited in between or not read before.
  datatype Reread = NotRead | AsLeft | Otherwise(endpoints: seq<string>)

  datatype KubeSecret = KubeUnread | KubeMissing | KubeMalformed | KubeParsed

  datatype DeletionOutcomes = DeletionOutcomes(
    deletingStatus: bool, guard: Guard, drain: Drain,
    talosconfig: Talosconfig, endpoints: seq<string>, leave: bool, leaveStatus: bool,
    reachable: set<string>, forceRemove: bool,
    reset: Option<bool>, secret: ConfigSecret,
    clusterEndpoints: Option<seq<string>>, endpointsWrite: bool,
    reread: Reread, kubeSecret: KubeSecret, kubeconfigWrite: bool,
    removeFinalizer: bool)

  // The version call reports a tag and whether the platform is a container.
  datatype Reported = Reported(tag: string, container: bool)

  datatype Outcomes = Outcomes(
    addFinalizer: bool,
    talosconfig: Talosconfig, dial: bool, version: Option<Reported>,
    upgradingStatus: bool, upgrade: bool, lastUpgradePatch: bool, upgradeErrorStatus: bool,
    upgradedStatus: bool,
    factory: FactoryReply, schematicPatch: bool, edit: Option<Edit>,
    lastResetPatch: bool, reset: Option<bool>, resetStatus: bool,
    drift: DriftCheck, apply: ApplyOutcomes,
    deletion: DeletionOutcomes)

  // Role, cluster and address are fixed; a changed spec raises the generation.
  function WithEdit(node: Node, e: Edit): Node
  {
    var spec := e.spec.(role := node.spec.role, clusterRef := node.spec.clusterRef, nodeIP := node.spec.nodeIP);
    node.(spec := spec,
          generation := node.generation + e.bumps + (if spec == node.spec then 0 else 1),
          ann := node.ann.(upgrade := e.upgrade, reset := e.reset, skipDrain := e.skipDrain))
  }

  // The effect of an event on the stored object.
  function Apply(node: Node, e: Event): Node
  {
    match e
    case FinalizerAdded => node.(finalizer := true)
    case UserEdited(edit) => WithEdit(node, edit)
    case StatusWritten(s) => node.(status := s)
    case LastUpgradeSet(image) => node.(ann := node.ann.(lastUpgrade := image))
    case SchematicSet(id, canonical) => node.(ann := node.ann.(schematic := id, lastExtensions := canonical))
    case LastResetSet(id) => node.(ann := node.ann.(lastReset := id))
    case FinalizerRemoved => node.(finalizer := false)
    case _ => node
  }
}
