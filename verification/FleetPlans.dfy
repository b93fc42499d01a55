// What a reconcile may aim at its own node: nothing that removes it before the guard was passed,
// and no reset before a user asked for one.
module FleetPlans {
  import opened Images
  import opened NodeTypes
  import opened NodePlan

  // Leaving etcd, being removed from it, being wiped for deletion or cleaned up.
  predicate Removing(e: Event)
  {
    e.EtcdLeaveTried? || e.ForceRemoveSent? || e.DeletionReset? || e.ConfigSecretDeleted? ||
    e.EndpointsSet? || e.KubeconfigPointed? || e.FinalizerRemoved?
  }

  // Also being wiped on request.
  predicate Destructive(e: Event)
  {
    Removing(e) || e.StandaloneReset?
  }

  predicate Harmless(e: Event)
  {
    !Removing(e) && !e.GuardPassed?
  }

  // Nothing that removes before the guard was passed.
  predicate Guarded(es: seq<Event>)
  {
    es == [] || es[0].GuardPassed? || (!Removing(es[0]) && Guarded(es[1..]))
  }

  lemma {:induction false} HarmlessIsGuarded(es: seq<Event>)
    requires forall e :: e in es ==> Harmless(e)
    ensures Guarded(es)
  {
    if es != [] {
      assert es[0] in es;
      HarmlessIsGuarded(es[1..]);
    }
  }

  lemma DeletionIsGuarded(node: Node, d: DeletionOutcomes)
    requires node.spec.role == ControlPlane
    ensures Guarded(DeletionPlan(node, d))
  {
    hide DrainPlan;
    var deleting := node.(status := DeletingStatus(node.status));
    var s := StatusWritten(DeletingStatus(node.status));
    assert GuardPlan(node, d) == [] || GuardPlan(node, d)[0].GuardPassed?;
    assert GuardPlan(deleting, d) == [] || GuardPlan(deleting, d)[0].GuardPassed?;
    assert ([s] + GuardPlan(deleting, d))[1..] == GuardPlan(deleting, d);
  }

  // No reset before a user asked for one.
  predicate Requested(es: seq<Event>)
  {
    es == [] || (es[0].UserEdited? && es[0].edit.reset != "") || (!es[0].StandaloneReset? && Requested(es[1..]))
  }

  lemma {:induction false} RequestedAppend(es: seq<Event>, fs: seq<Event>)
    requires forall e :: e in es ==> !e.StandaloneReset?
    requires Requested(fs) || exists e :: e in es && e.UserEdited? && e.edit.reset != ""
    ensures Requested(es + fs)
    decreases |es|
  {
    if es == [] {
      assert es + fs == fs;
    } else {
      assert es[0] in es && (es + fs)[1..] == es[1..] + fs;
      if !(es[0].UserEdited? && es[0].edit.reset != "") {
        assert forall e :: e in es ==> e == es[0] || e in es[1..];
        RequestedAppend(es[1..], fs);
      }
    }
  }

  lemma NothingRequested(es: seq<Event>)
    requires forall e :: e in es ==> !e.StandaloneReset?
    ensures Requested(es)
  {
    RequestedAppend(es, []);
    assert es + [] == es;
  }

  lemma VersionAsks(order: Order, node: Node, o: Outcomes)
    ensures var v := VersionPlan(order, node, o);
            && (forall e :: e in v.events ==> !e.StandaloneReset?)
            && (!v.done && node.ann.reset == "" ==>
                  v.node.ann.reset == "" || exists e :: e in v.events && e.UserEdited? && e.edit.reset != "")
  {
    hide UpgradePlan, ComputeDesiredImage, IsDowngrade, NormalizeVersion, ConfigIsApplied;
    var d := ComputeDesiredImage(node.spec.talosVersion, node.spec.extensions, node.ann.lastExtensions, node.ann.schematic, o.factory);
    if d.Desired? {
      UpgradeUpgrades(order, node, d.image, FromSpec, o);
      if o.edit.Some? { assert CachePlan(d, o)[0] == UserEdited(o.edit.value); }
    }
  }

  lemma ActiveIsRequested(order: Order, node: Node, o: Outcomes)
    requires node.ann.reset == ""
    ensures Requested(ActivePlan(order, node, o))
  {
    hide UpgradePlan, CheckUpgradePlan, VersionPlan, ResetPlan, ApplyOrErrorPlan, Requested, IsNodeUpToDate;
    UpgradeUpgrades(order, node, node.ann.upgrade, FromAnnotation, o);
    var v := VersionPlan(order, node, o);
    VersionAsks(order, node, o);
    ApplyConfigures(v.node, o.apply);
    NothingRequested([]);
    if node.status.phase == Upgrading {
      NothingRequested(CheckUpgradePlan(node, o));
    } else if node.ann.upgrade != "" && node.ann.upgrade != node.ann.lastUpgrade {
      NothingRequested(UpgradePlan(order, node.status, node.ann.upgrade, FromAnnotation, o));
    } else if v.done {
      NothingRequested(v.events);
    } else {
      if v.node.ann.reset == "" { NothingRequested(ConfigPlan(v.node, o)); }
      RequestedAppend(v.events, ConfigPlan(v.node, o));
    }
  }

  lemma PlanIsRequested(order: Order, node: Node, o: Outcomes)
    requires node.ann.reset == ""
    ensures Requested(Plan(order, node, o))
  {
    hide ActivePlan, DeletionPlan, Requested;
    NothingRequested([]);
    if node.deleting {
      DeletionLeavesAndCleansUp(node, o.deletion);
      NothingRequested(DeletionPlan(node, o.deletion));
    } else {
      ActiveIsRequested(order, node, o);
      ActiveIsRequested(order, node.(finalizer := true), o);
      RequestedAppend([FinalizerAdded], ActivePlan(order, node.(finalizer := true), o));
    }
  }

  lemma VersionIsHarmless(order: Order, node: Node, o: Outcomes)
    ensures forall e :: e in VersionPlan(order, node, o).events ==> Harmless(e)
  {
    hide UpgradePlan, ComputeDesiredImage, IsDowngrade, NormalizeVersion, ConfigIsApplied;
    if node.spec.talosVersion != "" {
      var d := ComputeDesiredImage(node.spec.talosVersion, node.spec.extensions, node.ann.lastExtensions, node.ann.schematic, o.factory);
      if d.Desired? {
        UpgradeUpgrades(order, node, d.image, FromSpec, o);
      }
    }
  }

  lemma ConfigIsHarmless(node: Node, o: Outcomes)
    ensures forall e :: e in ConfigPlan(node, o) ==> Harmless(e)
  {
    hide ApplyOrErrorPlan;
    ApplyConfigures(node, o.apply);
  }

  lemma ActiveIsHarmless(order: Order, node: Node, o: Outcomes)
    ensures forall e :: e in ActivePlan(order, node, o) ==> Harmless(e)
  {
    hide UpgradePlan, CheckUpgradePlan, VersionPlan, ConfigPlan, IsDowngrade;
    UpgradeUpgrades(order, node, node.ann.upgrade, FromAnnotation, o);
    VersionIsHarmless(order, node, o);
    ConfigIsHarmless(VersionPlan(order, node, o).node, o);
  }

  lemma PlanIsGuarded(order: Order, node: Node, o: Outcomes)
    ensures node.spec.role == ControlPlane ==> Guarded(Plan(order, node, o))
    ensures !node.deleting ==> forall e :: e in Plan(order, node, o) ==> Harmless(e)
  {
    hide ActivePlan, DeletionPlan, Guarded;
    if node.deleting {
      if node.spec.role == ControlPlane { DeletionIsGuarded(node, o.deletion); }
    } else {
      ActiveIsHarmless(order, node, o);
      ActiveIsHarmless(order, node.(finalizer := true), o);
      HarmlessIsGuarded(Plan(order, node, o));
    }
  }
}
