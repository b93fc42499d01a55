// A node's deletion and the bootstrap of its cluster: exactly when a deletion that stops half-way
// lets a fresh bootstrap object start a second etcd cluster.
module EtcdSplit {
  import opened Options
  import opened Dialer
  import opened NodeTypes
  import opened NodePlan
  import opened NodeHistory
  import B = Bootstrap
  import H = BootstrapHistory

  // A machine is no etcd member any more once it left, was removed or was wiped.
  predicate TakesOut(e: Event)
  {
    e == EtcdLeaveTried(true) || (e.ForceRemoveSent? && e.ok) || e == DeletionReset(true)
  }

  predicate TakenOut(es: seq<Event>)
  {
    exists e :: e in es && TakesOut(e)
  }

  predicate ListRepaired(es: seq<Event>)
  {
    exists e :: e in es && e.EndpointsSet?
  }

  // What the events of the deletion of the node at ip do to the world of the bootstrap objects.
  function Effect(w: B.World, ip: string, e: Event): B.World
  {
    match e
    case EndpointsSet(_, after) => B.Next(w, B.SetEndpoints(Some(after)))
    case _ => if TakesOut(e) then B.Next(w, B.Leave(ip)) else w
  }

  function Effects(w: B.World, ip: string, es: seq<Event>): B.World
    decreases |es|
  {
    if es == [] then w else Effects(Effect(w, ip, es[0]), ip, es[1..])
  }

  lemma {:induction false} EffectsAre(w: B.World, ip: string, es: seq<Event>, after: seq<string>)
    requires forall e :: e in es && e.EndpointsSet? ==> e.after == after
    ensures Effects(w, ip, es) ==
            w.(etcd := if TakenOut(es) then w.etcd - {ip} else w.etcd,
               endpoints := if ListRepaired(es) then Some(after) else w.endpoints)
    decreases |es|
  {
    if es != [] {
      assert es[0] in es && forall e :: e in es <==> e == es[0] || e in es[1..];
      EffectsAre(Effect(w, ip, es[0]), ip, es[1..], after);
    }
  }

  lemma CleanupRepairsTo(node: Node, d: DeletionOutcomes, e: Event)
    requires e in CleanupPlan(node, d) && e.EndpointsSet?
    ensures d.clusterEndpoints.Some? && e.after == Repaired(d.clusterEndpoints.value, node.spec.nodeIP) != d.clusterEndpoints.value
  {
    assert e in RepairPlan(node, d) by { hide RepairPlan; }
    hide Repaired;
  }

  lemma RepairsTo(node: Node, d: DeletionOutcomes, e: Event)
    requires e in DeletionPlan(node, d) && e.EndpointsSet?
    ensures d.clusterEndpoints.Some? && e.after == Repaired(d.clusterEndpoints.value, node.spec.nodeIP) != d.clusterEndpoints.value
  {
    var n := node.(status := DeletingStatus(node.status));
    LeaveRepairs(node, d, e);
    LeaveRepairs(n, d, e);
    assert e in DrainPlan(node, d) || e in DrainPlan(n, d) by { hide DrainPlan; }
    hide DeletionPlan, CleanupPlan, Repaired, LeavePlan, SkipDrain;
    if e in CleanupPlan(node, d) { CleanupRepairsTo(node, d, e); } else { CleanupRepairsTo(n, d, e); }
  }

  lemma LeaveRepairs(node: Node, d: DeletionOutcomes, e: Event)
    requires e.EndpointsSet?
    ensures e in LeavePlan(node, d) ==> e in CleanupPlan(node, d)
  {
    hide CleanupPlan, FilterExclude, DialAny;
  }

  lemma RepairedHead(endpoints: seq<string>, ip: string)
    requires endpoints != [] && Repaired(endpoints, ip) != endpoints
    ensures var r := Repaired(endpoints, ip); r != [] && r[0] in endpoints && r[0] != ip
  {
    var r := Repaired(endpoints, ip);
    FilterKeepsOthers(endpoints, ip, r[0]);
    hide FilterExclude;
  }

  // A fresh object starts a second etcd cluster exactly when the first endpoint is no member.
  lemma FreshObjectSplitsExactly(w: B.World, uid: nat)
    requires |w.formed| == 1 && uid !in w.used && w.endpoints.Some? && w.endpoints.value != []
    ensures |B.Run(w, H.Attempt(w, uid)).formed| == (if w.endpoints.value[0] in w.etcd then 1 else 2)
  {
    var first := w.endpoints.value[0];
    H.RunTwo(w, H.Attempt(w, uid)[0], H.Attempt(w, uid)[1]);
    H.FreshObjectSends(B.Next(w, B.Create(uid, "")), uid, first);
  }

  // All endpoints are members of the one etcd cluster, and the node at ip is deleted. Wherever its
  // deletion stops, the next fresh bootstrap object starts a second etcd cluster exactly when the
  // node was the first endpoint, is out of etcd, and still in the list.
  lemma DeletionSplitsExactly(w: B.World, node: Node, d: DeletionOutcomes, cut: nat, uid: nat)
    requires |w.formed| == 1 && uid !in w.used && w.endpoints.Some? && w.endpoints.value != []
    requires forall ip :: ip in w.endpoints.value ==> ip in w.etcd
    requires d.clusterEndpoints.Some? ==> d.clusterEndpoints == w.endpoints
    ensures var es := Cut(DeletionPlan(node, d), cut);
            var w' := Effects(w, node.spec.nodeIP, es);
            |B.Run(w', H.Attempt(w', uid)).formed| ==
            if w.endpoints.value[0] == node.spec.nodeIP && TakenOut(es) && !ListRepaired(es) then 2 else 1
  {
    hide DeletionPlan, Repaired, TakenOut, H.Attempt, B.Run;
    var plan, ip := DeletionPlan(node, d), node.spec.nodeIP;
    var es, after := Cut(plan, cut), Repaired(w.endpoints.value, ip);
    var w' := Effects(w, ip, es);
    assert forall e :: e in es ==> e in plan;
    forall e | e in es && e.EndpointsSet? ensures e.after == after { RepairsTo(node, d, e); }
    EffectsAre(w, ip, es, after);
    if ListRepaired(es) {
      var e :| e in es && e.EndpointsSet?;
      RepairsTo(node, d, e);
      RepairedHead(w.endpoints.value, ip);
    }
    FreshObjectSplitsExactly(w', uid);
  }

  // Such a stop exists whenever the deletion leaves etcd at all: right after it did.
  lemma DeletionCanSplit(w: B.World, node: Node, d: DeletionOutcomes, uid: nat)
    requires |w.formed| == 1 && uid !in w.used && w.endpoints.Some? && w.endpoints.value != []
    requires forall ip :: ip in w.endpoints.value ==> ip in w.etcd
    requires d.clusterEndpoints.Some? ==> d.clusterEndpoints == w.endpoints
    requires w.endpoints.value[0] == node.spec.nodeIP && EtcdLeaveTried(true) in DeletionPlan(node, d)
    ensures exists cut: nat :: var w' := Effects(w, node.spec.nodeIP, Cut(DeletionPlan(node, d), cut));
                               |B.Run(w', H.Attempt(w', uid)).formed| == 2
  {
    hide H.Attempt, B.Run, Effects;
    var cut := LeavesFirst(node, d);
    DeletionSplitsExactly(w, node, d, cut, uid);
    hide DeletionPlan;
    assert TakesOut(EtcdLeaveTried(true));
  }

  lemma LeavesFirst(node: Node, d: DeletionOutcomes) returns (cut: nat)
    requires EtcdLeaveTried(true) in DeletionPlan(node, d)
    ensures var es := Cut(DeletionPlan(node, d), cut); EtcdLeaveTried(true) in es && !ListRepaired(es)
  {
    var plan := DeletionPlan(node, d);
    CleanupLeavesNothing(node.(status := DeletingStatus(node.status)), d);
    CleanupLeavesNothing(node, d);
    hide CleanupPlan, SkipDrain, FilterExclude;
    cut := if node.status.phase == Deleting then 2 else 3;
    var es := Cut(plan, cut);
    assert es[|es| - 1] == EtcdLeaveTried(true);
  }

  lemma CleanupLeavesNothing(node: Node, d: DeletionOutcomes)
    ensures EtcdLeaveTried(true) !in CleanupPlan(node, d)
  {
    CleanupCleansUp(node, d);
    hide CleanupPlan;
  }
}
