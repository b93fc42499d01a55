// One reconcile of a TalosNode, step by step: it works on the copy of the object it read
// and records every write that lands and every RPC it sends.
module NodeReconciler {
  import opened Dialer
  import opened Options
  import opened Images
  import opened NodeTypes
  import opened NodePlan

  class Reconciler {
    var node: Node
    var events: seq<Event>

    constructor (stored: Node)
      ensures node == stored && events == []
    {
      node, events := stored, [];
    }

    method UpdateStatus(lands: bool)
      modifies this`events
      ensures events == old(events) + if lands then [StatusWritten(node.status)] else []
    {
      if lands { events := events + [StatusWritten(node.status)]; }
    }

    method Reconcile(order: Order, o: Outcomes)
      modifies this
      ensures events == old(events) + Plan(order, old(node), o)
    {
      hide ActivePlan, DeletionPlan;
      if node.deleting {
        HandleDeletion(o.deletion);
        return;
      }
      if !node.finalizer {
        if !o.addFinalizer { return; }
        node := node.(finalizer := true);
        events := events + [FinalizerAdded];
      }
      ReconcileActive(order, o);
    }

    method ReconcileActive(order: Order, o: Outcomes)
      modifies this
      ensures events == old(events) + ActivePlan(order, old(node), o)
    {
      hide CheckUpgradePlan, UpgradePlan, VersionPlan, ConfigPlan;
      if node.status.phase == Upgrading {
        CheckUpgradeComplete(o);
        return;
      }
      if node.ann.upgrade != "" && node.ann.upgrade != node.ann.lastUpgrade {
        HandleUpgrade(order, node.ann.upgrade, FromAnnotation, o);
        return;
      }
      var done := ReconcileVersion(order, o);
      if done { return; }
      ReconcileConfig(o);
    }

    method ReconcileConfig(o: Outcomes)
      modifies this
      ensures events == old(events) + ConfigPlan(old(node), o)
    {
      if node.ann.reset != "" && node.ann.reset != node.ann.lastReset {
        HandleStandaloneReset(o);
        return;
      }
      if IsNodeUpToDate(node) && !(DriftEnabled(node) && o.drift == Drifted) {
        return;
      }
      var result := ApplyConfig(o.apply);
      if result == Failed {
        SetError(o.apply.errorStatus);
      }
    }

    // ----- Upgrades -----

    method HandleUpgrade(order: Order, image: string, origin: Origin, o: Outcomes)
      modifies this
      ensures events == old(events) + UpgradePlan(order, old(node).status, image, origin, o)
    {
      hide IsDowngrade, VersionFromImage, UpgradeEnd, UpgradingStatus;
      var target := VersionFromImage(image);
      if target == "" { return; }
      if IsDowngrade(order, node.status.currentVersion, target) {
        PatchLastUpgrade(image, o.lastUpgradePatch);
        return;
      }
      if o.talosconfig != TcFound || !o.dial || o.version.None? { return; }
      if o.version.value.container { return; }
      SendUpgrade(image, origin, o);
    }

    method SendUpgrade(image: string, origin: Origin, o: Outcomes)
      modifies this
      ensures events == old(events) +
              if !o.upgradingStatus then []
              else [StatusWritten(UpgradingStatus(old(node).status)), UpgradeSent(image, origin, o.upgrade)] + UpgradeEnd(old(node).status, image, o)
    {
      node := node.(status := UpgradingStatus(node.status));
      UpdateStatus(o.upgradingStatus);
      if !o.upgradingStatus { return; }
      events := events + [UpgradeSent(image, origin, o.upgrade)];
      PatchLastUpgrade(image, o.lastUpgradePatch);
      if !o.upgrade {
        node := node.(status := node.status.(phase := Errored));
        UpdateStatus(o.upgradeErrorStatus);
      }
    }

    method PatchLastUpgrade(image: string, lands: bool)
      modifies this
      ensures node == old(node).(ann := old(node).ann.(lastUpgrade := image))
      ensures events == old(events) + if lands then [LastUpgradeSet(image)] else []
    {
      node := node.(ann := node.ann.(lastUpgrade := image));
      if lands { events := events + [LastUpgradeSet(image)]; }
    }

    method CheckUpgradeComplete(o: Outcomes)
      modifies this
      ensures events == old(events) + CheckUpgradePlan(old(node), o)
    {
      var expected := VersionFromImage(node.ann.lastUpgrade);
      if o.talosconfig != TcFound || !o.dial || o.version.None? { return; }
      var tag := o.version.value.tag;
      if expected != "" && tag != expected { return; }
      node := node.(status := UpgradedStatus(node, tag));
      UpdateStatus(o.upgradedStatus);
    }

    method ReconcileVersion(order: Order, o: Outcomes) returns (done: bool)
      modifies this
      ensures var v := VersionPlan(order, old(node), o);
              done == v.done && events == old(events) + v.events
      ensures !done ==> node == VersionPlan(order, old(node), o).node
    {
      hide UpgradePlan, ComputeDesiredImage, NormalizeVersion, IsDowngrade, ConfigIsApplied, CachePlan, Cached;
      if node.spec.talosVersion == "" { return false; }
      if !ConfigIsApplied(node.status) { return false; }
      var d := ComputeDesiredImage(node.spec.talosVersion, node.spec.extensions,
                                   node.ann.lastExtensions, node.ann.schematic, o.factory);
      if d.DesiredError? { return true; }
      if d.newSchematic != "" {
        if !o.schematicPatch { return true; }
        RecordSchematic(d, o);
      }
      var dirty := d.newSchematic != "";
      var wanted := NormalizeVersion(node.spec.talosVersion);
      if wanted == NormalizeVersion(node.status.currentVersion) && !dirty { return false; }
      if IsDowngrade(order, node.status.currentVersion, wanted) { return false; }
      HandleUpgrade(order, d.image, FromSpec, o);
      done := true;
    }

    // The patch also refreshes the working copy from the server.
    method RecordSchematic(d: Desired, o: Outcomes)
      requires d.Desired?
      modifies this
      ensures node == Cached(old(node), d, o) && events == old(events) + CachePlan(d, o)
    {
      if o.edit.Some? {
        node := WithEdit(node, o.edit.value);
        events := events + [UserEdited(o.edit.value)];
      }
      node := node.(ann := node.ann.(schematic := d.newSchematic, lastExtensions := d.newCanonical));
      events := events + [SchematicSet(d.newSchematic, d.newCanonical)];
    }

    // ----- Reset and apply -----

    method HandleStandaloneReset(o: Outcomes)
      modifies this
      ensures events == old(events) + ResetPlan(old(node), o)
    {
      var resetID := node.ann.reset;
      node := node.(ann := node.ann.(lastReset := resetID));
      if !o.lastResetPatch { return; }
      events := events + [LastResetSet(resetID)];
      if o.reset.None? { return; }
      events := events + [StandaloneReset(o.reset.value)];
      if !o.reset.value { return; }
      node := node.(status := ResetStatus(node.status));
      UpdateStatus(o.resetStatus);
    }

    method ApplyConfig(a: ApplyOutcomes) returns (result: Result)
      modifies this
      ensures var attempt := ApplyPlan(old(node), a);
              && result == attempt.result
              && events == old(events) + attempt.events
              && node == old(node).(status := attempt.status)
    {
      hide ConnectPlan;
      var firstApply := !ConfigIsApplied(node.status);
      node := node.(status := ApplyingStatus(node));
      UpdateStatus(a.start == Done);
      if a.start != Done { return a.start; }
      if a.build != Done { return a.build; }
      result := ConnectAndSend(firstApply, a);
    }

    method ConnectAndSend(firstApply: bool, a: ApplyOutcomes) returns (result: Result)
      modifies this
      ensures var attempt := ConnectPlan(firstApply, old(node), a);
              && result == attempt.result
              && events == old(events) + attempt.events
              && node == old(node).(status := attempt.status)
    {
      hide SendPlan;
      var dialled;
      if firstApply {
        dialled := a.dialInsecure;
        events := events + [DialedInsecurely(dialled == Done)];
        if dialled != Done && a.talosconfig == Done {
          dialled := a.dialSecure;
          events := events + [DialedSecurely(dialled == Done)];
        }
      } else {
        if a.talosconfig != Done { return a.talosconfig; }
        dialled := a.dialSecure;
        events := events + [DialedSecurely(dialled == Done)];
      }
      if dialled != Done { return dialled; }
      result := SendAndSave(a);
    }

    method SendAndSave(a: ApplyOutcomes) returns (result: Result)
      modifies this
      ensures var attempt := SendPlan(old(node), a);
              && result == attempt.result
              && events == old(events) + attempt.events
              && node == old(node).(status := attempt.status)
    {
      events := events + [ConfigSent(a.send == Done)];
      if a.send != Done { return a.send; }
      if a.save != Done { return a.save; }
      events := events + [ConfigSaved(node.generation)];
      node := node.(status := AppliedStatus(node.status));
      UpdateStatus(a.finish == Done);
      result := a.finish;
    }

    method SetError(lands: bool)
      modifies this
      ensures events == old(events) + if lands then [StatusWritten(ErrorStatus(old(node).status))] else []
    {
      node := node.(status := ErrorStatus(node.status));
      UpdateStatus(lands);
    }

    // ----- Deletion -----

    method HandleDeletion(d: DeletionOutcomes)
      modifies this
      ensures events == old(events) + DeletionPlan(old(node), d)
    {
      hide GuardPlan;
      if !node.finalizer { return; }
      if node.status.phase != Deleting {
        node := node.(status := DeletingStatus(node.status));
        UpdateStatus(d.deletingStatus);
        if !d.deletingStatus { return; }
      }
      PassGuard(d);
    }

    // The last-control-plane guard and everything behind it.
    method PassGuard(d: DeletionOutcomes)
      modifies this
      ensures events == old(events) + GuardPlan(old(node), d)
    {
      hide LeavePlan, CleanupPlan, SkipDrain;
      if node.spec.role == ControlPlane {
        if d.guard == GuardError || d.guard == NoPeer { return; }
        events := events + [GuardPassed(d.guard == ClusterGone)];
      }
      if !SkipDrain(node) && d.drain != DrainDone { return; }
      if node.spec.role == ControlPlane {
        var proceed := HandleEtcdLeave(d);
        if !proceed { return; }
      }
      Cleanup(d);
    }

    // True when the caller may go on to the cleanup.
    method HandleEtcdLeave(d: DeletionOutcomes) returns (proceed: bool)
      requires node.spec.role == ControlPlane
      modifies this
      ensures (if proceed then events + CleanupPlan(node, d) else events) == old(events) + LeavePlan(old(node), d)
      ensures proceed ==> node == old(node)
    {
      hide CleanupPlan, DialAny, FilterExclude;
      if d.talosconfig == TcError { return false; }
      if d.talosconfig == TcSkip { return true; }
      if node.status.deletionAttempts < ETCD_LEAVE_MAX_ATTEMPTS {
        events := events + [EtcdLeaveTried(d.leave)];
        if d.leave { return true; }
        node := node.(status := node.status.(deletionAttempts := node.status.deletionAttempts + 1));
        UpdateStatus(d.leaveStatus);
        return false;
      }
      var peers := SurvivingPeers(d.endpoints, node.spec.nodeIP);
      var survivor := DialFirst(peers, d.reachable);
      if survivor.Some? {
        events := events + [ForceRemoveSent(survivor.value, node.spec.nodeIP, d.forceRemove)];
      }
      proceed := true;
    }

    method SurvivingPeers(items: seq<string>, exclude: string) returns (result: seq<string>)
      ensures result == FilterExclude(items, exclude)
    {
      result := [];
      for i := 0 to |items|
        invariant result == FilterExclude(items[..i], exclude)
      {
        assert items[..i + 1][..i] == items[..i];
        if items[i] != exclude { result := result + [items[i]]; }
      }
      assert items[..|items|] == items;
    }

    method Cleanup(d: DeletionOutcomes)
      modifies this
      ensures events == old(events) + CleanupPlan(old(node), d)
    {
      hide FinalPlan;
      events := events + [CleanupStarted];
      if node.spec.resetOnDelete && d.reset.Some? {
        events := events + [DeletionReset(d.reset.value)];
      }
      if d.secret == SecretError || d.secret == SecretStuck { return; }
      if d.secret == SecretPresent { events := events + [ConfigSecretDeleted]; }
      FinishDeletion(d);
    }

    method FinishDeletion(d: DeletionOutcomes)
      modifies this
      ensures events == old(events) + FinalPlan(old(node), d)
    {
      hide RepairPlan;
      if node.spec.role == ControlPlane { RepairEndpoints(d); }
      if d.removeFinalizer {
        node := node.(finalizer := false);
        events := events + [FinalizerRemoved];
      }
    }

    method RepairEndpoints(d: DeletionOutcomes)
      modifies this`events
      ensures events == old(events) + RepairPlan(node, d)
    {
      hide LeftEndpoints, RefreshPlan;
      var left := RemoveEndpointFromCluster(d);
      RefreshKubeconfig(left, d);
    }

    // Also returns the list as it now is, as far as it is known.
    method RemoveEndpointFromCluster(d: DeletionOutcomes) returns (left: Option<seq<string>>)
      modifies this`events
      ensures left == LeftEndpoints(node, d)
      ensures events == old(events) + if left != d.clusterEndpoints then [EndpointsSet(d.clusterEndpoints.value, left.value)] else []
    {
      if d.clusterEndpoints.None? { return None; }
      var endpoints := d.clusterEndpoints.value;
      var updated := SurvivingPeers(endpoints, node.spec.nodeIP);
      FilterLength(endpoints, node.spec.nodeIP);
      if |updated| == |endpoints| { return Some(endpoints); }
      if |updated| == 0 { return Some(endpoints); }
      if !d.endpointsWrite { return Some(endpoints); }
      events := events + [EndpointsSet(endpoints, updated)];
      left := Some(updated);
    }

    // Reads the list again, then rewrites the kubeconfig if there is one that parses.
    method RefreshKubeconfig(left: Option<seq<string>>, d: DeletionOutcomes)
      modifies this`events
      ensures events == old(events) + RefreshPlan(left, d)
    {
      var endpoints;
      match d.reread {
        case NotRead => return;
        case AsLeft =>
          if left.None? { return; }
          endpoints := left.value;
        case Otherwise(list) => endpoints := list;
      }
      if |endpoints| == 0 { return; }
      if d.kubeSecret == KubeUnread || d.kubeSecret == KubeMissing { return; }
      if d.kubeSecret == KubeMalformed { return; }
      if d.kubeconfigWrite { events := events + [KubeconfigPointed(endpoints[0])]; }
    }
  }

  // Filtering keeps the length exactly when it keeps the list.
  lemma {:induction false} FilterLength(items: seq<string>, exclude: string)
    ensures |FilterExclude(items, exclude)| <= |items|
    ensures |FilterExclude(items, exclude)| == |items| <==> FilterExclude(items, exclude) == items
    ensures FilterExclude(items, exclude) == items <==> exclude !in items
    decreases |items|
  {
    if items != [] {
      var front, last := items[..|items| - 1], items[|items| - 1];
      FilterLength(front, exclude);
      assert items == front + [last];
    }
  }
}
