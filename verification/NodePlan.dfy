// What one reconcile of a TalosNode does, as a function of the object it read and of how
// each of its calls goes: the events, in order.
module NodePlan {
  import opened Dialer
  import opened Options
  import opened Conditions
  import opened Images
  import opened NodeTypes

  // The events of a reconcile that stops after cut of them.
  function Cut(es: seq<Event>, cut: nat): seq<Event>
  {
    if cut <= |es| then es[..cut] else es
  }

  // ----- Upgrades -----

  function UpgradingStatus(s: NodeStatus): NodeStatus
  {
    SetCond(s.(phase := Upgrading), TalosVersionUpToDate, False)
  }

  function UpgradePlan(order: Order, s: NodeStatus, image: string, origin: Origin, o: Outcomes): seq<Event>
  {
    var target := VersionFromImage(image);
    if target == "" then []
    else if IsDowngrade(order, s.currentVersion, target) then
      if o.lastUpgradePatch then [LastUpgradeSet(image)] else []
    else if o.talosconfig != TcFound || !o.dial || o.version.None? || o.version.value.container then []
    else if !o.upgradingStatus then []
    else [StatusWritten(UpgradingStatus(s)), UpgradeSent(image, origin, o.upgrade)] + UpgradeEnd(s, image, o)
  }

  function UpgradeEnd(s: NodeStatus, image: string, o: Outcomes): seq<Event>
  {
    (if o.lastUpgradePatch then [LastUpgradeSet(image)] else []) +
    (if !o.upgrade && o.upgradeErrorStatus then [StatusWritten(UpgradingStatus(s).(phase := Errored))] else [])
  }

  function UpgradedStatus(node: Node, tag: string): NodeStatus
  {
    var s := SetCond(node.status.(currentVersion := tag), TalosVersionUpToDate, True);
    var t := if node.spec.extensions != [] then SetCond(s.(installed := node.spec.extensions), ExtensionsUpToDate, True) else s;
    t.(phase := Ready)
  }

  // The version the node must report, or any version when no tagged image is on record.
  predicate UpgradeIsComplete(node: Node, tag: string)
  {
    var expected := VersionFromImage(node.ann.lastUpgrade);
    expected == "" || tag == expected
  }

  function CheckUpgradePlan(node: Node, o: Outcomes): seq<Event>
  {
    if o.talosconfig == TcFound && o.dial && o.version.Some? && UpgradeIsComplete(node, o.version.value.tag) && o.upgradedStatus
    then [StatusWritten(UpgradedStatus(node, o.version.value.tag))] else []
  }

  // ----- spec.talosVersion and spec.systemExtensions -----

  // Done: the pass ends here. Otherwise it goes on after the events, with the node as it now is.
  datatype VersionPass = VersionPass(done: bool, events: seq<Event>, node: Node)

  // Recording a new schematic: the server's answer to the patch also brings in what a user
  // changed since the object was read.
  function CachePlan(d: Desired, o: Outcomes): seq<Event>
    requires d.Desired?
  {
    (if o.edit.Some? then [UserEdited(o.edit.value)] else []) + [SchematicSet(d.newSchematic, d.newCanonical)]
  }

  function Cached(node: Node, d: Desired, o: Outcomes): (node': Node)
    requires d.Desired?
    ensures node'.status == node.status && node'.deleting == node.deleting && node'.finalizer == node.finalizer
  {
    Apply(if o.edit.Some? then WithEdit(node, o.edit.value) else node, SchematicSet(d.newSchematic, d.newCanonical))
  }

  function VersionPlan(order: Order, node: Node, o: Outcomes): VersionPass
  {
    if node.spec.talosVersion == "" || !ConfigIsApplied(node.status) then VersionPass(false, [], node)
    else
      var d := ComputeDesiredImage(node.spec.talosVersion, node.spec.extensions,
                                   node.ann.lastExtensions, node.ann.schematic, o.factory);
      if d.DesiredError? || (d.newSchematic != "" && !o.schematicPatch) then VersionPass(true, [], node)
      else
        var cached := if d.newSchematic != "" then CachePlan(d, o) else [];
        var node' := if d.newSchematic != "" then Cached(node, d, o) else node;
        var wanted := NormalizeVersion(node'.spec.talosVersion);
        if wanted == NormalizeVersion(node.status.currentVersion) && d.newSchematic == "" then VersionPass(false, cached, node')
        else if IsDowngrade(order, node.status.currentVersion, wanted) then VersionPass(false, cached, node')
        else VersionPass(true, cached + UpgradePlan(order, node.status, d.image, FromSpec, o), node')
  }

  // ----- Standalone reset -----

  function ResetStatus(s: NodeStatus): NodeStatus
  {
    SetCond(s, ConfigApplied, False).(phase := Pending)
  }

  function ResetPlan(node: Node, o: Outcomes): seq<Event>
  {
    if !o.lastResetPatch then []
    else [LastResetSet(node.ann.reset)] +
         if o.reset.None? then []
         else [StandaloneReset(o.reset.value)] +
              if o.reset.value && o.resetStatus then [StatusWritten(ResetStatus(node.status))] else []
  }

  // ----- Applying the configuration -----

  function ApplyingStatus(node: Node): NodeStatus
  {
    node.status.(observedGeneration := node.generation, phase := Applying)
  }

  function AppliedStatus(s: NodeStatus): NodeStatus
  {
    SetCond(s.(phase := Ready, retryCount := 0), ConfigApplied, True)
  }

  // An attempt to apply: its events, how it ended, and the in-memory status it left behind.
  datatype Attempt = Attempt(events: seq<Event>, result: Result, status: NodeStatus)

  function ApplyPlan(node: Node, a: ApplyOutcomes): Attempt
  {
    var node' := node.(status := ApplyingStatus(node));
    if a.start != Done then Attempt([], a.start, node'.status)
    else if a.build != Done then Attempt([StatusWritten(node'.status)], a.build, node'.status)
    else
      var rest := ConnectPlan(!ConfigIsApplied(node.status), node', a);
      rest.(events := [StatusWritten(node'.status)] + rest.events)
  }

  // A node whose configuration was never applied is dialled without TLS first.
  function ConnectPlan(firstApply: bool, node: Node, a: ApplyOutcomes): Attempt
  {
    if !firstApply then
      if a.talosconfig != Done then Attempt([], a.talosconfig, node.status) else SecurePlan(node, a)
    else
      var rest :=
        if a.dialInsecure == Done then SendPlan(node, a)
        else if a.talosconfig != Done then Attempt([], a.dialInsecure, node.status)
        else SecurePlan(node, a);
      rest.(events := [DialedInsecurely(a.dialInsecure == Done)] + rest.events)
  }

  function SecurePlan(node: Node, a: ApplyOutcomes): Attempt
  {
    var rest := if a.dialSecure == Done then SendPlan(node, a) else Attempt([], a.dialSecure, node.status);
    rest.(events := [DialedSecurely(a.dialSecure == Done)] + rest.events)
  }

  function SendPlan(node: Node, a: ApplyOutcomes): Attempt
  {
    var applied := AppliedStatus(node.status);
    if a.send != Done then Attempt([ConfigSent(false)], a.send, node.status)
    else if a.save != Done then Attempt([ConfigSent(true)], a.save, node.status)
    else if a.finish != Done then Attempt([ConfigSent(true), ConfigSaved(node.generation)], a.finish, applied)
    else Attempt([ConfigSent(true), ConfigSaved(node.generation), StatusWritten(applied)], Done, applied)
  }

  function ErrorStatus(s: NodeStatus): NodeStatus
  {
    s.(phase := Errored, retryCount := s.retryCount + 1)
  }

  function ApplyOrErrorPlan(node: Node, a: ApplyOutcomes): seq<Event>
  {
    var attempt := ApplyPlan(node, a);
    attempt.events +
    if attempt.result == Failed && a.errorStatus then [StatusWritten(ErrorStatus(attempt.status))] else []
  }

  // ----- Deletion -----

  function FilterExclude(items: seq<string>, exclude: string): seq<string>
  {
    if items == [] then []
    else FilterExclude(items[..|items| - 1], exclude) +
         (if items[|items| - 1] != exclude then [items[|items| - 1]] else [])
  }

  function DeletingStatus(s: NodeStatus): NodeStatus
  {
    s.(phase := Deleting)
  }

  function DeletionPlan(node: Node, d: DeletionOutcomes): seq<Event>
  {
    if !node.finalizer then []
    else if node.status.phase == Deleting then GuardPlan(node, d)
    else if !d.deletingStatus then []
    else [StatusWritten(DeletingStatus(node.status))] + GuardPlan(node.(status := DeletingStatus(node.status)), d)
  }

  function GuardPlan(node: Node, d: DeletionOutcomes): seq<Event>
  {
    if node.spec.role == Worker then DrainPlan(node, d)
    else match d.guard
      case ClusterGone => [GuardPassed(true)] + DrainPlan(node, d)
      case PeerFound => [GuardPassed(false)] + DrainPlan(node, d)
      case _ => []
  }

  function DrainPlan(node: Node, d: DeletionOutcomes): seq<Event>
  {
    if !SkipDrain(node) && d.drain != DrainDone then []
    else if node.spec.role == Worker then CleanupPlan(node, d)
    else LeavePlan(node, d)
  }

  function LeavePlan(node: Node, d: DeletionOutcomes): seq<Event>
  {
    match d.talosconfig
      case TcError => []
      case TcSkip => CleanupPlan(node, d)
      case TcFound =>
        if node.status.deletionAttempts >= ETCD_LEAVE_MAX_ATTEMPTS then ForceRemovePlan(node, d) + CleanupPlan(node, d)
        else if d.leave then [EtcdLeaveTried(true)] + CleanupPlan(node, d)
        else [EtcdLeaveTried(false)] +
             if d.leaveStatus then [StatusWritten(node.status.(deletionAttempts := node.status.deletionAttempts + 1))] else []
  }

  function ForceRemovePlan(node: Node, d: DeletionOutcomes): seq<Event>
  {
    var survivor := DialAny(FilterExclude(d.endpoints, node.spec.nodeIP), d.reachable);
    if survivor.None? then [] else [ForceRemoveSent(survivor.value, node.spec.nodeIP, d.forceRemove)]
  }

  function CleanupPlan(node: Node, d: DeletionOutcomes): seq<Event>
  {
    [CleanupStarted] +
    (if node.spec.resetOnDelete && d.reset.Some? then [DeletionReset(d.reset.value)] else []) +
    match d.secret
    case SecretError => []
    case SecretStuck => []
    case SecretAbsent => FinalPlan(node, d)
    case SecretPresent => [ConfigSecretDeleted] + FinalPlan(node, d)
  }

  // The endpoint list without the node's IP, unless that would leave it empty.
  function Repaired(endpoints: seq<string>, ip: string): seq<string>
  {
    var updated := FilterExclude(endpoints, ip);
    if updated == [] then endpoints else updated
  }

  // The list in the cluster object after the update, as far as the deletion knows it.
  function LeftEndpoints(node: Node, d: DeletionOutcomes): Option<seq<string>>
  {
    if d.clusterEndpoints.Some? && d.endpointsWrite then Some(Repaired(d.clusterEndpoints.value, node.spec.nodeIP))
    else d.clusterEndpoints
  }

  // The list the kubeconfig is refreshed from.
  function SeenEndpoints(left: Option<seq<string>>, reread: Reread): seq<string>
  {
    match reread
    case NotRead => []
    case AsLeft => if left.Some? then left.value else []
    case Otherwise(endpoints) => endpoints
  }

  function RefreshPlan(left: Option<seq<string>>, d: DeletionOutcomes): seq<Event>
  {
    var endpoints := SeenEndpoints(left, d.reread);
    if endpoints != [] && d.kubeSecret == KubeParsed && d.kubeconfigWrite then [KubeconfigPointed(endpoints[0])] else []
  }

  function RepairPlan(node: Node, d: DeletionOutcomes): seq<Event>
  {
    var left := LeftEndpoints(node, d);
    (if left != d.clusterEndpoints then [EndpointsSet(d.clusterEndpoints.value, left.value)] else []) + RefreshPlan(left, d)
  }

  function FinalPlan(node: Node, d: DeletionOutcomes): seq<Event>
  {
    (if node.spec.role == ControlPlane then RepairPlan(node, d) else []) +
    (if d.removeFinalizer then [FinalizerRemoved] else [])
  }

  // ----- The whole reconcile -----

  // In the order of the code: deletion, finalizer, running upgrade, upgrade annotation,
  // spec-driven upgrade, reset annotation, drift check, apply.
  function Plan(order: Order, node: Node, o: Outcomes): seq<Event>
  {
    if node.deleting then DeletionPlan(node, o.deletion)
    else if node.finalizer then ActivePlan(order, node, o)
    else if !o.addFinalizer then []
    else [FinalizerAdded] + ActivePlan(order, node.(finalizer := true), o)
  }

  function ActivePlan(order: Order, node: Node, o: Outcomes): seq<Event>
  {
    if node.status.phase == Upgrading then CheckUpgradePlan(node, o)
    else if node.ann.upgrade != "" && node.ann.upgrade != node.ann.lastUpgrade then
      UpgradePlan(order, node.status, node.ann.upgrade, FromAnnotation, o)
    else
      var v := VersionPlan(order, node, o);
      if v.done then v.events else v.events + ConfigPlan(v.node, o)
  }

  function ConfigPlan(node: Node, o: Outcomes): seq<Event>
  {
    if node.ann.reset != "" && node.ann.reset != node.ann.lastReset then ResetPlan(node, o)
    else if IsNodeUpToDate(node) && (!DriftEnabled(node) || o.drift != Drifted) then []
    else ApplyOrErrorPlan(node, o.apply)
  }

  // ----- What the parts of a plan consist of -----

  predicate Configures(e: Event)
  {
    e.StatusWritten? || e.DialedInsecurely? || e.DialedSecurely? || e.ConfigSent? || e.ConfigSaved?
  }

  lemma SendConfigures(node: Node, a: ApplyOutcomes)
    ensures forall e :: e in SendPlan(node, a).events ==> Configures(e)
    ensures forall e :: e in SecurePlan(node, a).events ==> Configures(e)
  {
  }

  lemma ApplyConfigures(node: Node, a: ApplyOutcomes)
    ensures forall e :: e in ApplyOrErrorPlan(node, a) ==> Configures(e)
  {
    SendConfigures(node.(status := ApplyingStatus(node)), a);
    hide SendPlan, SecurePlan;
  }

  predicate Upgrades(e: Event)
  {
    e.StatusWritten? || e.LastUpgradeSet? || e.UpgradeSent?
  }

  lemma UpgradeUpgrades(order: Order, node: Node, image: string, origin: Origin, o: Outcomes)
    ensures forall e :: e in UpgradePlan(order, node.status, image, origin, o) ==> Upgrades(e)
    ensures forall e :: e in CheckUpgradePlan(node, o) ==> Upgrades(e)
  {
    hide IsDowngrade, VersionFromImage, UpgradingStatus;
  }

  predicate CleansUp(e: Event)
  {
    || e.CleanupStarted? || e.DeletionReset? || e.ConfigSecretDeleted?
    || e.EndpointsSet? || e.KubeconfigPointed? || e.FinalizerRemoved?
  }

  lemma CleanupCleansUp(node: Node, d: DeletionOutcomes)
    ensures forall e :: e in CleanupPlan(node, d) ==> CleansUp(e)
  {
    hide Repaired;
  }

  predicate Leaves(e: Event)
  {
    e.StatusWritten? || e.GuardPassed? || e.EtcdLeaveTried? || e.ForceRemoveSent?
  }

  lemma DeletionLeavesAndCleansUp(node: Node, d: DeletionOutcomes)
    ensures forall e :: e in DeletionPlan(node, d) ==> Leaves(e) || CleansUp(e)
  {
    CleanupCleansUp(node, d);
    CleanupCleansUp(node.(status := DeletingStatus(node.status)), d);
    hide CleanupPlan, DialAny, FilterExclude, SkipDrain;
  }
}
