// The order in which a pass over a TalosNode does things, so that it can stop after any of them.
module NodeOrder {
  import opened Dialer
  import opened Images
  import opened NodeTypes
  import opened NodePlan
  import C = NodeConvergence

  // The place of every event: what is written down before a call comes before it, what records it after.
  function Place(e: Event): nat
  {
    match e
    case FinalizerAdded => 0
    case UserEdited(_) => 1
    case SchematicSet(_, _) => 2
    case StatusWritten(s) => if s.phase == Upgrading then 3 else if s.phase == Applying then 8 else 13
    case UpgradeSent(_, _, _) => 4
    case LastUpgradeSet(_) => 5
    case LastResetSet(_) => 6
    case StandaloneReset(_) => 7
    case DialedInsecurely(_) => 9
    case DialedSecurely(_) => 10
    case ConfigSent(_) => 11
    case ConfigSaved(_) => 12
    case GuardPassed(_) => 20
    case EtcdLeaveTried(_) => 21
    case ForceRemoveSent(_, _, _) => 21
    case CleanupStarted => 22
    case DeletionReset(_) => 23
    case ConfigSecretDeleted => 24
    case EndpointsSet(_, _) => 25
    case KubeconfigPointed(_) => 26
    case FinalizerRemoved => 27
  }

  predicate Ascending(es: seq<Event>, lo: nat, hi: nat)
  {
    && (forall e :: e in es ==> lo <= Place(e) < hi)
    && forall i, j :: 0 <= i < j < |es| ==> Place(es[i]) < Place(es[j])
  }

  lemma AscendingCat(a: seq<Event>, b: seq<Event>, lo: nat, mid: nat, hi: nat)
    requires lo <= mid <= hi && Ascending(a, lo, mid) && Ascending(b, mid, hi)
    ensures Ascending(a + b, lo, hi)
  {
    hide Place;
    forall i, j | 0 <= i < j < |a + b| ensures Place((a + b)[i]) < Place((a + b)[j]) {
      if i < |a| && j >= |a| {
        assert (a + b)[i] in a && (a + b)[j] in b;
      } else if i < |a| {
        assert (a + b)[i] == a[i] && (a + b)[j] == a[j];
      } else {
        assert (a + b)[i] == b[i - |a|] && (a + b)[j] == b[j - |a|];
      }
    }
  }

  lemma AscendingWider(es: seq<Event>, lo: nat, hi: nat, lo': nat, hi': nat)
    requires Ascending(es, lo, hi) && lo' <= lo && hi <= hi'
    ensures Ascending(es, lo', hi')
  {
  }

  lemma Alone(e: Event)
    ensures Ascending([e], Place(e), Place(e) + 1) && Ascending([], Place(e), Place(e))
  {
  }

  lemma PlacesOfUpgrade(s: NodeStatus, image: string, origin: Origin, ok: bool)
    ensures Place(StatusWritten(UpgradingStatus(s))) == 3 && Place(UpgradeSent(image, origin, ok)) == 4
    ensures Place(LastUpgradeSet(image)) == 5 && Place(StatusWritten(UpgradingStatus(s).(phase := Errored))) == 13
  {
  }

  lemma UpgradeAscends(order: Order, s: NodeStatus, image: string, origin: Origin, o: Outcomes)
    ensures Ascending(UpgradePlan(order, s, image, origin, o), 3, 14)
  {
    hide VersionFromImage, IsDowngrade, UpgradingStatus, Place, Ascending;
    var started, sent := StatusWritten(UpgradingStatus(s)), UpgradeSent(image, origin, o.upgrade);
    var recorded, failed := LastUpgradeSet(image), StatusWritten(UpgradingStatus(s).(phase := Errored));
    PlacesOfUpgrade(s, image, origin, o.upgrade);
    Three(started, sent, recorded);
    Three(sent, recorded, failed);
    Alone(recorded);
    Alone(failed);
    Nothing(5, 14);
    Nothing(3, 14);
    AscendingCat([recorded], [failed], 5, 6, 14) by { AscendingWider([failed], 13, 14, 6, 14); }
    AscendingWider([recorded], 5, 6, 5, 14);
    AscendingWider([recorded], 5, 6, 3, 14);
    AscendingWider([failed], 13, 14, 5, 14);
    var end := UpgradeEnd(s, image, o);
    assert end == [] || end == [recorded] || end == [failed] || end == [recorded] + [failed];
    AscendingCat([started, sent], end, 3, 5, 14);
  }

  lemma CheckAscends(node: Node, o: Outcomes)
    ensures Ascending(CheckUpgradePlan(node, o), 3, 14)
  {
    hide UpgradeIsComplete;
  }

  lemma CacheAscends(d: Desired, o: Outcomes)
    requires d.Desired?
    ensures Ascending(CachePlan(d, o), 1, 3)
  {
  }

  lemma VersionAscends(order: Order, node: Node, o: Outcomes)
    ensures var v := VersionPlan(order, node, o);
            Ascending(v.events, 1, 14) && (!v.done ==> Ascending(v.events, 1, 3))
  {
    hide UpgradePlan, CachePlan, ComputeDesiredImage, IsDowngrade, NormalizeVersion, ConfigIsApplied, Place, Ascending, Cached;
    var d := C.Wanted(node, o);
    Nothing(1, 3);
    Nothing(1, 14);
    if d.Desired? {
      var upgrade := UpgradePlan(order, node.status, d.image, FromSpec, o);
      UpgradeAscends(order, node.status, d.image, FromSpec, o);
      CacheAscends(d, o);
      AscendingCat(CachePlan(d, o), upgrade, 1, 3, 14);
      AscendingCat([], upgrade, 1, 3, 14);
      AscendingWider(CachePlan(d, o), 1, 3, 1, 14);
    }
  }

  lemma ResetAscends(node: Node, o: Outcomes)
    ensures Ascending(ResetPlan(node, o), 3, 14)
  {
    assert ResetStatus(node.status).phase == Pending;
  }

  lemma Three(a: Event, b: Event, c: Event)
    requires Place(a) < Place(b) < Place(c)
    ensures Ascending([a, b, c], Place(a), Place(c) + 1) && Ascending([a, b], Place(a), Place(b) + 1) && Ascending([a], Place(a), Place(a) + 1)
  {
    hide Place;
  }

  lemma SendAscends(node: Node, a: ApplyOutcomes)
    ensures Ascending(SendPlan(node, a).events, 11, 14)
    ensures SendPlan(node, a).result == Failed ==> Ascending(SendPlan(node, a).events, 11, 13)
  {
    var t := SendPlan(node, a);
    var sent, saved, applied := ConfigSent(a.send == Done), ConfigSaved(node.generation), StatusWritten(AppliedStatus(node.status));
    assert Place(sent) == 11 && Place(saved) == 12 && Place(applied) == 13;
    Three(sent, saved, applied);
    hide Ascending, Place, AppliedStatus;
    assert t.events == [sent] || t.events == [sent, saved] || (t.events == [sent, saved, applied] && t.result == Done);
    AscendingWider([sent], 11, 12, 11, 13);
    AscendingWider([sent], 11, 12, 11, 14);
    AscendingWider([sent, saved], 11, 13, 11, 14);
  }

  lemma ConnectAscends(node: Node, a: ApplyOutcomes, firstApply: bool)
    ensures var t := ConnectPlan(firstApply, node, a);
            Ascending(t.events, 9, 14) && (t.result == Failed ==> Ascending(t.events, 9, 13))
  {
    SendAscends(node, a);
    var sent := SendPlan(node, a).events;
    hide SendPlan;
    Alone(DialedSecurely(a.dialSecure == Done));
    Alone(DialedInsecurely(a.dialInsecure == Done));
    var secure := [DialedSecurely(a.dialSecure == Done)];
    var insecure := [DialedInsecurely(a.dialInsecure == Done)];
    AscendingWider(sent, 11, 14, 10, 14);
    if SendPlan(node, a).result == Failed {
      AscendingCat(secure, sent, 10, 11, 13);
      AscendingWider(sent, 11, 13, 10, 13);
      AscendingCat(insecure, sent, 9, 10, 13);
      AscendingCat(insecure, secure + sent, 9, 10, 13);
      AscendingWider(secure + sent, 10, 13, 9, 13);
    }
    AscendingCat(secure, sent, 10, 11, 14);
    AscendingCat(insecure, sent, 9, 10, 14);
    AscendingCat(insecure, secure + sent, 9, 10, 14);
    AscendingWider(secure + sent, 10, 14, 9, 14);
    assert secure + [] == secure && insecure + [] == insecure;
    AscendingCat(insecure, secure, 9, 10, 11);
    hide Ascending;
    AscendingWider(secure, 10, 11, 9, 13);
    AscendingWider(insecure, 9, 10, 9, 13);
    AscendingWider(insecure + secure, 9, 11, 9, 13);
    AscendingWider(secure, 10, 11, 9, 14);
    AscendingWider(insecure, 9, 10, 9, 14);
    AscendingWider(insecure + secure, 9, 11, 9, 14);
    Nothing(9, 13);
    Nothing(9, 14);
  }

  lemma Nothing(lo: nat, hi: nat)
    ensures Ascending([], lo, hi)
  {
  }

  lemma ApplyAscends(node: Node, a: ApplyOutcomes)
    ensures Ascending(ApplyOrErrorPlan(node, a), 3, 14)
  {
    var n := node.(status := ApplyingStatus(node));
    var started, t := StatusWritten(n.status), ConnectPlan(!ConfigIsApplied(node.status), n, a);
    var attempt := ApplyPlan(node, a);
    var failed := StatusWritten(ErrorStatus(attempt.status));
    var tail := if attempt.result == Failed && a.errorStatus then [failed] else [];
    ConnectAscends(n, a, !ConfigIsApplied(node.status));
    Alone(started);
    Alone(failed);
    assert Place(started) == 8 && Place(failed) == 13;
    hide ConnectPlan, Ascending, Place;
    Nothing(8, 9);
    Nothing(9, 14);
    Nothing(13, 14);
    AscendingCat([started], t.events, 8, 9, 14);
    if t.result == Failed { AscendingCat([started], t.events, 8, 9, 13); }
    AscendingWider([started], 8, 9, 8, 13);
    Nothing(8, 13);
    AscendingWider(attempt.events, 8, 14, 3, 14) by {
      if a.start == Done && a.build != Done { AscendingWider([started], 8, 9, 8, 14); }
      Nothing(8, 14);
    }
    if tail != [] {
      AscendingCat(attempt.events, tail, 8, 13, 14);
      AscendingWider(attempt.events + tail, 8, 14, 3, 14);
    } else {
      assert attempt.events + tail == attempt.events;
    }
  }

  // A pass over a live node: finalizer; what the user changed, and the schematic; phase Upgrading,
  // its RPC, its companion annotation; the reset's mark before its RPC; phase Applying, the dials,
  // the configuration sent and then saved; and at last the status in which it all ends.
  lemma PassAscends(order: Order, node: Node, o: Outcomes, i: nat, j: nat)
    requires !node.deleting && i < j < |Plan(order, node, o)|
    ensures Place(Plan(order, node, o)[i]) < Place(Plan(order, node, o)[j])
  {
    var n := node.(finalizer := true);
    ActiveAscends(order, n, o);
    Alone(FinalizerAdded);
    hide ActivePlan;
    AscendingCat([FinalizerAdded], ActivePlan(order, n, o), 0, 1, 14);
    assert node.finalizer ==> n == node;
  }

  lemma ActiveAscends(order: Order, node: Node, o: Outcomes)
    ensures Ascending(ActivePlan(order, node, o), 1, 14)
  {
    var v := VersionPlan(order, node, o);
    CheckAscends(node, o);
    UpgradeAscends(order, node.status, node.ann.upgrade, FromAnnotation, o);
    VersionAscends(order, node, o);
    ResetAscends(v.node, o);
    ApplyAscends(v.node, o.apply);
    hide CheckUpgradePlan, UpgradePlan, VersionPlan, ResetPlan, ApplyOrErrorPlan, Ascending;
    Nothing(3, 14);
    AscendingWider(CheckUpgradePlan(node, o), 3, 14, 1, 14);
    AscendingWider(UpgradePlan(order, node.status, node.ann.upgrade, FromAnnotation, o), 3, 14, 1, 14);
    if !v.done { AscendingCat(v.events, ConfigPlan(v.node, o), 1, 3, 14); }
  }

  // ----- Deletion -----

  lemma RepairAscends(node: Node, d: DeletionOutcomes)
    ensures Ascending(RepairPlan(node, d), 25, 27)
  {
    hide Repaired;
  }

  lemma WipeAscends(node: Node, d: DeletionOutcomes)
    ensures var wipe := [CleanupStarted] + if node.spec.resetOnDelete && d.reset.Some? then [DeletionReset(d.reset.value)] else [];
            Ascending(wipe, 22, 24)
    ensures Ascending([ConfigSecretDeleted], 24, 25) && Ascending([FinalizerRemoved], 27, 28)
  {
  }

  lemma CleanupAscends(node: Node, d: DeletionOutcomes)
    ensures Ascending(CleanupPlan(node, d), 22, 28)
  {
    RepairAscends(node, d);
    WipeAscends(node, d);
    hide RepairPlan, Ascending, Place;
    var repair := if node.spec.role == ControlPlane then RepairPlan(node, d) else [];
    var last := if d.removeFinalizer then [FinalizerRemoved] else [];
    var wipe := [CleanupStarted] + if node.spec.resetOnDelete && d.reset.Some? then [DeletionReset(d.reset.value)] else [];
    Nothing(25, 27);
    Nothing(27, 28);
    AscendingCat(repair, last, 25, 27, 28);
    AscendingCat([ConfigSecretDeleted], repair + last, 24, 25, 28);
    var rest := match d.secret
                case SecretError => []
                case SecretStuck => []
                case SecretAbsent => repair + last
                case SecretPresent => [ConfigSecretDeleted] + (repair + last);
    Nothing(24, 28);
    AscendingWider(repair + last, 25, 28, 24, 28);
    AscendingCat(wipe, rest, 22, 24, 28);
    assert CleanupPlan(node, d) == wipe + rest;
  }

  predicate Calls(e: Event)
  {
    !e.StatusWritten?
  }

  // Guard, etcd leave or force-removal, cleanup, wiping, configuration secret, endpoint list,
  // kubeconfig, finalizer: none of them before one named earlier. Phase Deleting is written first of
  // all, and a failed leave right after it.
  lemma DeletionAscends(node: Node, d: DeletionOutcomes, i: nat, j: nat)
    requires i < j < |DeletionPlan(node, d)|
    ensures var es := DeletionPlan(node, d);
            && (Calls(es[i]) && Calls(es[j]) ==> Place(es[i]) < Place(es[j]))
            && (es[j].StatusWritten? ==> es[j - 1] == EtcdLeaveTried(false) && j == |es| - 1)
  {
    var es := DeletionPlan(node, d);
    var rest, first := DeletionIs(node, d);
    hide DeletionPlan, Leaving, Place;
    if es == rest {
      LeavingOrder(rest, i, j);
    } else {
      LeavingStatus(rest, j - 1);
      if i > 0 { LeavingOrder(rest, i - 1, j - 1); }
      assert es[j] == rest[j - 1] && (i > 0 ==> es[i] == rest[i - 1]) && (j > 1 ==> es[j - 1] == rest[j - 2]);
    }
  }

  lemma DeletionIs(node: Node, d: DeletionOutcomes) returns (rest: seq<Event>, first: Event)
    ensures Leaving(rest) && first.StatusWritten?
    ensures DeletionPlan(node, d) == rest || DeletionPlan(node, d) == [first] + rest
  {
    hide GuardPlan, Leaving;
    var n := node.(status := DeletingStatus(node.status));
    first := StatusWritten(n.status);
    rest := [];
    LeavingGuard(node, d);
    LeavingGuard(n, d);
    if node.finalizer && (node.status.phase == Deleting || d.deletingStatus) {
      rest := GuardPlan(if node.status.phase == Deleting then node else n, d);
    } else {
      assert Leaving([]) by { hide *; NothingLeaves(); }
    }
  }

  lemma NothingLeaves()
    ensures Leaving([])
  {
    Nothing(20, 28);
  }

  predicate Leaving(es: seq<Event>)
  {
    || Ascending(es, 20, 28)
    || (|es| >= 2 && es[|es| - 1].StatusWritten? && es[|es| - 2] == EtcdLeaveTried(false) && Ascending(es[..|es| - 1], 20, 28))
  }

  lemma LeavingStatus(es: seq<Event>, j: nat)
    requires Leaving(es) && j < |es|
    ensures es[j].StatusWritten? ==> j > 0 && j == |es| - 1 && es[j - 1] == EtcdLeaveTried(false)
  {
    if Ascending(es, 20, 28) {
      assert es[j] in es;
    } else if j < |es| - 1 {
      var front := es[..|es| - 1];
      assert front[j] in front;
    }
  }

  lemma LeavingOrder(es: seq<Event>, i: nat, j: nat)
    requires Leaving(es) && i < j < |es|
    ensures Calls(es[i]) && Calls(es[j]) ==> Place(es[i]) < Place(es[j])
    ensures es[j].StatusWritten? ==> j == |es| - 1 && es[j - 1] == EtcdLeaveTried(false)
  {
    hide Place;
    LeavingStatus(es, j);
    if !Ascending(es, 20, 28) && j < |es| - 1 {
      var front := es[..|es| - 1];
      assert front[i] == es[i] && front[j] == es[j];
    }
  }

  lemma LeavingGuard(node: Node, d: DeletionOutcomes)
    ensures Leaving(GuardPlan(node, d))
  {
    CleanupAscends(node, d);
    LeaveAscends(node, d);
    hide CleanupPlan, LeavePlan, SkipDrain, Place;
    var passed := [GuardPassed(d.guard == ClusterGone)];
    Alone(passed[0]);
    assert Place(passed[0]) == 20 by { hide *; GuardIsFirst(d.guard == ClusterGone); }
    var rest := DrainPlan(node, d);
    AscendingWider(CleanupPlan(node, d), 22, 28, 21, 28);
    Nothing(21, 28);
    if Ascending(rest, 21, 28) {
      AscendingCat(passed, rest, 20, 21, 28);
      AscendingWider(rest, 21, 28, 20, 28);
    } else {
      AscendingCat(passed, rest[..|rest| - 1], 20, 21, 28);
      assert (passed + rest)[..|rest|] == passed + rest[..|rest| - 1];
    }
    Nothing(20, 28);
  }

  lemma GuardIsFirst(gone: bool)
    ensures Place(GuardPassed(gone)) == 20
  {
  }

  lemma LeaveAscends(node: Node, d: DeletionOutcomes)
    ensures var es := LeavePlan(node, d);
            || Ascending(es, 21, 28)
            || (|es| == 2 && es[1].StatusWritten? && es[0] == EtcdLeaveTried(false) && Ascending(es[..1], 21, 28))
  {
    CleanupAscends(node, d);
    hide CleanupPlan, DialAny, FilterExclude;
    AscendingWider(CleanupPlan(node, d), 22, 28, 21, 28);
    assert Ascending(ForceRemovePlan(node, d), 21, 22) && Ascending([EtcdLeaveTried(true)], 21, 22) && Ascending([EtcdLeaveTried(false)], 21, 28);
    AscendingCat(ForceRemovePlan(node, d), CleanupPlan(node, d), 21, 22, 28);
    AscendingCat([EtcdLeaveTried(true)], CleanupPlan(node, d), 21, 22, 28);
    hide Ascending;
    Nothing(21, 28);
    assert [EtcdLeaveTried(false)] + [] == [EtcdLeaveTried(false)];
    var counted := StatusWritten(node.status.(deletionAttempts := node.status.deletionAttempts + 1));
    assert ([EtcdLeaveTried(false)] + [counted])[..1] == [EtcdLeaveTried(false)];
  }
}
