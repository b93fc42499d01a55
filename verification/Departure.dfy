// What a deletion pass of a TalosNode does, kind by kind and exactly when, and what it leaves.
module Departure {
  import opened Dialer
  import opened Options
  import opened Images
  import opened NodeTypes
  import opened NodePlan
  import opened NodeLife
  import opened NodeOutcomes
  import H = NodeHistory

  // The pass gets beyond finalizer, phase write, guard and drain.
  predicate Drained(node: Node, d: DeletionOutcomes)
  {
    && node.finalizer && (node.status.phase == Deleting || d.deletingStatus)
    && (node.spec.role == ControlPlane ==> d.guard == ClusterGone || d.guard == PeerFound)
    && (node.spec.skipDrain || node.ann.skipDrain == "true" || d.drain == DrainDone)
  }

  // And beyond etcd: a control plane left, or is forced out, or there is no cluster to leave.
  predicate LeftEtcd(node: Node, d: DeletionOutcomes)
  {
    Drained(node, d) && (node.spec.role == ControlPlane ==>
                           d.talosconfig == TcSkip || (d.talosconfig == TcFound && (d.leave || node.status.deletionAttempts >= 3)))
  }

  // ----- Taking a plan apart -----

  // What a pass that gets there does last.
  lemma EndOf(node: Node, d: DeletionOutcomes, e: Event)
    requires !e.StatusWritten? && !e.GuardPassed?
    ensures var n := node.(status := DeletingStatus(node.status));
            e in DeletionPlan(node, d) <==>
            Drained(node, d) && e in (if node.spec.role == Worker then CleanupPlan(n, d) else LeavePlan(n, d))
  {
    hide CleanupPlan, LeavePlan;
    var n := node.(status := DeletingStatus(node.status));
    assert node.status.phase == Deleting ==> n == node;
  }

  lemma MiddleOf(node: Node, d: DeletionOutcomes, e: Event)
    requires !e.StatusWritten?
    ensures e in LeavePlan(node, d) <==>
            || (d.talosconfig == TcFound && node.status.deletionAttempts < 3 && e == EtcdLeaveTried(d.leave))
            || (d.talosconfig == TcFound && node.status.deletionAttempts >= 3 && e in ForceRemovePlan(node, d))
            || ((d.talosconfig == TcSkip || (d.talosconfig == TcFound && (d.leave || node.status.deletionAttempts >= 3))) && e in CleanupPlan(node, d))
  {
    hide CleanupPlan, ForceRemovePlan;
  }

  // ----- Etcd -----

  // The peer the force-removal goes through: the first endpoint but the node's own that answers.
  predicate FirstPeer(node: Node, d: DeletionOutcomes, peer: string)
  {
    exists i :: 0 <= i < |d.endpoints| && d.endpoints[i] == peer && peer != node.spec.nodeIP && peer in d.reachable
                && forall j :: 0 <= j < i ==> d.endpoints[j] == node.spec.nodeIP || d.endpoints[j] !in d.reachable
  }

  lemma {:induction false} FirstOfFiltered(items: seq<string>, ip: string, reachable: set<string>, peer: string)
    ensures DialAny(FilterExclude(items, ip), reachable) == Some(peer) <==>
            exists i :: 0 <= i < |items| && items[i] == peer && peer != ip && peer in reachable
                        && forall j :: 0 <= j < i ==> items[j] == ip || items[j] !in reachable
    decreases |items|
  {
    if items != [] {
      var front, last := items[..|items| - 1], items[|items| - 1];
      FirstOfFiltered(front, ip, reachable, peer);
      DialAppend(FilterExclude(front, ip), if last != ip then [last] else [], reachable);
      NoneOfFiltered(front, ip, reachable);
      assert items == front + [last];
      if i :| 0 <= i < |front| && front[i] == peer && peer != ip && peer in reachable
              && forall j :: 0 <= j < i ==> front[j] == ip || front[j] !in reachable {
        assert items[i] == peer;
      }
      if DialAny(FilterExclude(front, ip), reachable).None? && last == peer && peer != ip && peer in reachable {
        assert items[|front|] == peer;
      }
    }
  }

  lemma {:induction false} NoneOfFiltered(items: seq<string>, ip: string, reachable: set<string>)
    ensures DialAny(FilterExclude(items, ip), reachable).None? <==> forall j :: 0 <= j < |items| ==> items[j] == ip || items[j] !in reachable
    decreases |items|
  {
    if items != [] {
      var front, last := items[..|items| - 1], items[|items| - 1];
      NoneOfFiltered(front, ip, reachable);
      DialAppend(FilterExclude(front, ip), if last != ip then [last] else [], reachable);
      assert items == front + [last];
    }
  }

  lemma {:induction false} DialAppend(a: seq<string>, b: seq<string>, reachable: set<string>)
    ensures DialAny(a + b, reachable) == if DialAny(a, reachable).Some? then DialAny(a, reachable) else DialAny(b, reachable)
    decreases |a|
  {
    if a == [] {
      assert a + b == b;
    } else {
      assert (a + b)[1..] == a[1..] + b;
      DialAppend(a[1..], b, reachable);
    }
  }

  lemma CleanupLeavesEtcdAlone(node: Node, d: DeletionOutcomes, e: Event)
    requires e.EtcdLeaveTried? || e.ForceRemoveSent?
    ensures e !in CleanupPlan(node, d)
  {
    CleanupCleansUp(node, d);
    hide CleanupPlan;
  }

  // A leave is tried exactly by a drained control plane with attempts left, and a force-removal
  // sent exactly by one without, through the first other endpoint that answers, naming its own IP.
  lemma LeavesEtcdExactly(node: Node, d: DeletionOutcomes, ok: bool, peer: string, dead: string)
    ensures var escapes := node.spec.role == ControlPlane && Drained(node, d) && d.talosconfig == TcFound;
            && (EtcdLeaveTried(ok) in DeletionPlan(node, d) <==> escapes && node.status.deletionAttempts < 3 && ok == d.leave)
            && (ForceRemoveSent(peer, dead, ok) in DeletionPlan(node, d) <==>
                  escapes && node.status.deletionAttempts >= 3 && FirstPeer(node, d, peer) && dead == node.spec.nodeIP && ok == d.forceRemove)
  {
    var n := node.(status := DeletingStatus(node.status));
    var tried, forced := EtcdLeaveTried(ok), ForceRemoveSent(peer, dead, ok);
    EndOf(node, d, tried);
    EndOf(node, d, forced);
    MiddleOf(n, d, tried);
    MiddleOf(n, d, forced);
    CleanupLeavesEtcdAlone(n, d, tried);
    CleanupLeavesEtcdAlone(n, d, forced);
    FirstOfFiltered(d.endpoints, node.spec.nodeIP, d.reachable, peer);
    hide DeletionPlan, CleanupPlan, LeavePlan, Drained, DialAny, FilterExclude;
  }

  // ----- Cleanup -----

  predicate Wanted(node: Node, d: DeletionOutcomes, e: Event)
  {
    var cleared := d.secret == SecretAbsent || d.secret == SecretPresent;
    match e
    case CleanupStarted => true
    case DeletionReset(ok) => node.spec.resetOnDelete && d.reset == Some(ok)
    case ConfigSecretDeleted => d.secret == SecretPresent
    case EndpointsSet(before, after) => cleared && node.spec.role == ControlPlane && d.endpointsWrite && Shrinks(node, d, before, after)
    case KubeconfigPointed(endpoint) => cleared && node.spec.role == ControlPlane && d.kubeSecret == KubeParsed && d.kubeconfigWrite && HeadSeen(node, d, endpoint)
    case FinalizerRemoved => cleared && d.removeFinalizer
    case _ => false
  }

  // The list read loses the node's address, and something is left.
  predicate Shrinks(node: Node, d: DeletionOutcomes, before: seq<string>, after: seq<string>)
  {
    && d.clusterEndpoints == Some(before) && node.spec.nodeIP in before
    && (exists e :: e in before && e != node.spec.nodeIP) && after == FilterExclude(before, node.spec.nodeIP)
  }

  // The head of the list as the update left it, or as it was found when read again.
  predicate HeadSeen(node: Node, d: DeletionOutcomes, endpoint: string)
  {
    match d.reread
    case NotRead => false
    case Otherwise(endpoints) => endpoints != [] && endpoint == endpoints[0]
    case AsLeft =>
      && d.clusterEndpoints.Some? && d.clusterEndpoints.value != []
      && var before := d.clusterEndpoints.value;
         var after := FilterExclude(before, node.spec.nodeIP);
         endpoint == if d.endpointsWrite && after != [] then after[0] else before[0]
  }

  lemma CleanupHolds(node: Node, d: DeletionOutcomes, e: Event)
    ensures e in CleanupPlan(node, d) <==> Wanted(node, d, e)
  {
    RepairHolds(node, d, e);
    hide RepairPlan, HeadSeen, Shrinks;
    var final := FinalPlan(node, d);
    assert e in final <==> (node.spec.role == ControlPlane && e in RepairPlan(node, d)) || (d.removeFinalizer && e == FinalizerRemoved);
    hide FinalPlan;
    var cleared := d.secret == SecretAbsent || d.secret == SecretPresent;
    assert e in CleanupPlan(node, d) <==>
           || e == CleanupStarted || (node.spec.resetOnDelete && d.reset.Some? && e == DeletionReset(d.reset.value))
           || (d.secret == SecretPresent && e == ConfigSecretDeleted) || (cleared && e in final);
  }

  lemma RepairHolds(node: Node, d: DeletionOutcomes, e: Event)
    ensures e in RepairPlan(node, d) <==>
            || (e.EndpointsSet? && d.endpointsWrite && Shrinks(node, d, e.before, e.after))
            || (e.KubeconfigPointed? && d.kubeSecret == KubeParsed && d.kubeconfigWrite && HeadSeen(node, d, e.endpoint))
  {
    if d.clusterEndpoints.Some? {
      var before, ip := d.clusterEndpoints.value, node.spec.nodeIP;
      var after := FilterExclude(before, ip);
      forall x ensures x in after <==> x in before && x != ip { H.FilterKeepsOthers(before, ip, x); }
      FilterSame(before, ip);
      if after != [] { assert after[0] in after; }
    }
    hide FilterExclude;
  }

  lemma {:induction false} FilterSame(items: seq<string>, ip: string)
    ensures FilterExclude(items, ip) == items <==> ip !in items
    decreases |items|
  {
    if items != [] {
      var front, last := items[..|items| - 1], items[|items| - 1];
      FilterSame(front, ip);
      H.FilterKeepsOthers(items, ip, ip);
      assert items == front + [last];
    }
  }

  // Once beyond etcd, and only then: the machine is wiped if the spec asks for it, its saved
  // configuration goes, a control plane's address leaves the endpoint list unless it is the only
  // one, the kubeconfig is pointed at the head of what is left, and the finalizer goes.
  lemma CleansUpExactly(node: Node, d: DeletionOutcomes, e: Event)
    requires CleansUp(e)
    ensures e in DeletionPlan(node, d) <==> LeftEtcd(node, d) && Wanted(node, d, e)
  {
    var n := node.(status := DeletingStatus(node.status));
    EndOf(node, d, e);
    MiddleOf(n, d, e);
    CleanupHolds(n, d, e);
    assert Wanted(n, d, e) == Wanted(node, d, e) by { hide FilterExclude; }
    assert e !in ForceRemovePlan(n, d);
    hide DeletionPlan, CleanupPlan, LeavePlan, Drained, ForceRemovePlan, Wanted;
  }

  // ----- The object -----

  // A pass that is not cut short leaves the node in phase Deleting, with one failed leave more on
  // record exactly if it failed one; nothing else of it changes, but for the finalizer in the end.
  lemma DeletionEndsIn(order: Order, l: Life, o: Outcomes, cut: nat)
    requires l.node.deleting && |Plan(order, l.node, o)| <= cut
    ensures var n, d := l.node, o.deletion;
            var begun := n.finalizer && (n.status.phase == Deleting || d.deletingStatus);
            var failed := n.spec.role == ControlPlane && Drained(n, d) && d.talosconfig == TcFound && n.status.deletionAttempts < 3 && !d.leave;
            Next(order, l, Pass(o, cut)).node ==
            n.(status := n.status.(phase := if begun then Deleting else n.status.phase,
                                   deletionAttempts := n.status.deletionAttempts + if failed && d.leaveStatus then 1 else 0),
               finalizer := n.finalizer && !(LeftEtcd(n, d) && Wanted(n, d, FinalizerRemoved)))
  {
    hide After, NodeAfter, Apply, GuardPlan, Drained, LeftEtcd, Wanted;
    var n, d := l.node, o.deletion;
    var m := n.(status := n.status.(phase := Deleting));
    var rest := GuardPlan(m, d);
    AfterIsNodeAfter(l, Plan(order, n, o));
    NodeCons(n, StatusWritten(m.status), rest);
    NodeCons(n, CleanupStarted, []);
    OneWrite(n, "", m.status);
    assert Cut(Plan(order, n, o), cut) == DeletionPlan(n, d);
    if n.finalizer && (n.status.phase == Deleting || d.deletingStatus) {
      GuardEndsIn(m, d);
      SameStages(n, m, d);
      assert n.status.phase == Deleting ==> n == m;
    } else {
      NotBegun(n, d);
    }
  }

  lemma NotBegun(n: Node, d: DeletionOutcomes)
    requires !n.finalizer || (n.status.phase != Deleting && !d.deletingStatus)
    ensures !Drained(n, d) && !LeftEtcd(n, d)
  {
  }

  lemma SameStages(n: Node, m: Node, d: DeletionOutcomes)
    requires m == n.(status := n.status.(phase := Deleting)) && n.finalizer && (n.status.phase == Deleting || d.deletingStatus)
    ensures Drained(n, d) == Drained(m, d) && LeftEtcd(n, d) == LeftEtcd(m, d)
    ensures Wanted(n, d, FinalizerRemoved) == Wanted(m, d, FinalizerRemoved)
  {
  }

  predicate Aside(e: Event)
  {
    !e.StatusWritten? && !e.FinalizerAdded? && !e.UserEdited? && !e.LastUpgradeSet? && !e.SchematicSet? && !e.LastResetSet? && !e.FinalizerRemoved?
  }

  // Events that leave the object as it is, but perhaps for a last removal of the finalizer.
  lemma {:induction false} OnlyFinalizer(n: Node, es: seq<Event>)
    requires forall e :: e in es ==> Aside(e) || e.FinalizerRemoved?
    ensures NodeAfter(n, es) == n.(finalizer := n.finalizer && FinalizerRemoved !in es)
    decreases |es|
  {
    if es != [] {
      assert es[0] in es && forall e :: e in es[1..] ==> e in es;
      OnlyFinalizer(Apply(n, es[0]), es[1..]);
      assert FinalizerRemoved in es <==> es[0] == FinalizerRemoved || FinalizerRemoved in es[1..];
    }
  }

  lemma CleanupEndsIn(n: Node, d: DeletionOutcomes, head: seq<Event>)
    requires forall e :: e in head ==> Aside(e)
    ensures NodeAfter(n, head + CleanupPlan(n, d)) == n.(finalizer := n.finalizer && !Wanted(n, d, FinalizerRemoved))
  {
    CleanupCleansUp(n, d);
    CleanupHolds(n, d, FinalizerRemoved);
    hide CleanupPlan, NodeAfter, Wanted;
    var es := head + CleanupPlan(n, d);
    assert FinalizerRemoved in es <==> FinalizerRemoved in CleanupPlan(n, d);
    OnlyFinalizer(n, es);
  }

  lemma GuardEndsIn(m: Node, d: DeletionOutcomes)
    requires m.finalizer && m.status.phase == Deleting
    ensures var failed := m.spec.role == ControlPlane && Drained(m, d) && d.talosconfig == TcFound && m.status.deletionAttempts < 3 && !d.leave;
            NodeAfter(m, GuardPlan(m, d)) ==
            m.(status := m.status.(deletionAttempts := m.status.deletionAttempts + if failed && d.leaveStatus then 1 else 0),
               finalizer := !(LeftEtcd(m, d) && Wanted(m, d, FinalizerRemoved)))
  {
    hide GuardPlan, CleanupPlan, NodeAfter, Apply, Wanted, Drained, LeftEtcd;
    OnlyFinalizer(m, []);
    var head := GuardShape(m, d);
    OnlyFinalizer(m, head);
    if LeftEtcd(m, d) {
      CleanupEndsIn(m, d, head);
    } else if m.spec.role == ControlPlane && Drained(m, d) && d.talosconfig == TcFound {
      var counted := StatusWritten(m.status.(deletionAttempts := m.status.deletionAttempts + 1));
      NodeCat(m, head, [counted]);
      NodeCons(m, counted, []);
      OneWrite(m, "", counted.status);
    }
    assert head + [] == head;
  }

  lemma GuardShape(m: Node, d: DeletionOutcomes) returns (head: seq<Event>)
    requires m.finalizer && m.status.phase == Deleting
    ensures forall e :: e in head ==> Aside(e)
    ensures LeftEtcd(m, d) ==> Drained(m, d) && GuardPlan(m, d) == head + CleanupPlan(m, d)
    ensures !LeftEtcd(m, d) ==>
              var failed := m.spec.role == ControlPlane && Drained(m, d) && d.talosconfig == TcFound;
              var counted := StatusWritten(m.status.(deletionAttempts := m.status.deletionAttempts + 1));
              && (failed ==> m.status.deletionAttempts < 3 && !d.leave)
              && GuardPlan(m, d) == head + if failed && d.leaveStatus then [counted] else []
    ensures LeftEtcd(m, d) && m.spec.role == ControlPlane && d.talosconfig == TcFound ==> d.leave || m.status.deletionAttempts >= 3
  {
    hide CleanupPlan, DialAny, FilterExclude, Aside;
    var passed := if m.spec.role == ControlPlane then [GuardPassed(d.guard == ClusterGone)] else [];
    var leave := LeaveHead(m, d);
    assert Aside(GuardPassed(d.guard == ClusterGone)) by { hide *; PassingIsAside(d.guard == ClusterGone); }
    if !Drained(m, d) {
      head := GuardPlan(m, d);
      assert head == [] || head == passed;
    } else if m.spec.role == Worker {
      head := [];
      assert GuardPlan(m, d) == [] + CleanupPlan(m, d);
    } else {
      head := passed + leave;
      hide LeavePlan;
      assert GuardPlan(m, d) == passed + LeavePlan(m, d);
    }
  }

  lemma PassingIsAside(gone: bool)
    ensures Aside(GuardPassed(gone))
  {
  }

  lemma LeaveHead(m: Node, d: DeletionOutcomes) returns (head: seq<Event>)
    ensures forall e :: e in head ==> Aside(e)
    ensures var goes := d.talosconfig == TcSkip || (d.talosconfig == TcFound && (d.leave || m.status.deletionAttempts >= 3));
            var counted := StatusWritten(m.status.(deletionAttempts := m.status.deletionAttempts + 1));
            LeavePlan(m, d) == head + if goes then CleanupPlan(m, d) else if d.talosconfig == TcFound && d.leaveStatus then [counted] else []
  {
    hide CleanupPlan, DialAny, FilterExclude;
    if d.talosconfig != TcFound {
      head := [];
      assert [] + CleanupPlan(m, d) == CleanupPlan(m, d);
    } else if m.status.deletionAttempts >= 3 {
      head := ForceRemovePlan(m, d);
    } else {
      head := [EtcdLeaveTried(d.leave)];
    }
  }
}
