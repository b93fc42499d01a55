// Removing deleted control planes from the endpoint list of their cluster, and pointing the
// kubeconfig at one that is left.
module Endpoints {
  import opened Dialer
  import opened Options
  import opened NodeTypes
  import opened NodePlan

  // What the cluster object and the kubeconfig secret hold.
  datatype Config = Config(endpoints: seq<string>, server: string)

  function ApplyConfig(c: Config, e: Event): Config
  {
    match e
    case EndpointsSet(_, after) => c.(endpoints := after)
    case KubeconfigPointed(endpoint) => c.(server := endpoint)
    case _ => c
  }

  function AfterEvents(c: Config, es: seq<Event>): Config
    decreases |es|
  {
    if es == [] then c else AfterEvents(ApplyConfig(c, es[0]), es[1..])
  }

  // A deletion whose calls go as they may, and which may die anywhere. What it reads of the
  // list, if anything, is the list.
  datatype Deletion = Deletion(node: Node, d: DeletionOutcomes, cut: nat)

  function Reading(c: Config, del: Deletion): DeletionOutcomes
  {
    if del.d.clusterEndpoints.Some? then del.d.(clusterEndpoints := Some(c.endpoints)) else del.d
  }

  // The events of the whole deletion pass.
  function EventsOf(c: Config, del: Deletion): seq<Event>
  {
    Cut(DeletionPlan(del.node, Reading(c, del)), del.cut)
  }

  // The nodes are deleted one after the other.
  function AfterAll(c: Config, dels: seq<Deletion>): Config
    decreases |dels|
  {
    if dels == [] then c else AfterAll(AfterEvents(c, EventsOf(c, dels[0])), dels[1..])
  }

  // A control plane's pass that lets it go, reads the cluster, and again after its own update, and
  // whose writes to cluster and kubeconfig land.
  predicate Lands(c: Config, del: Deletion)
  {
    && del.node.spec.role == ControlPlane && FinalizerRemoved in EventsOf(c, del)
    && del.d.clusterEndpoints.Some? && del.d.endpointsWrite
    && del.d.reread == AsLeft && del.d.kubeSecret == KubeParsed && del.d.kubeconfigWrite
  }

  predicate AllLand(c: Config, dels: seq<Deletion>)
    decreases |dels|
  {
    dels != [] ==> Lands(c, dels[0]) && AllLand(AfterEvents(c, EventsOf(c, dels[0])), dels[1..])
  }

  // The list without some addresses, in its order.
  function Without(endpoints: seq<string>, ips: set<string>): (left: seq<string>)
    ensures forall e :: e in left <==> e in endpoints && e !in ips
  {
    if endpoints == [] then []
    else
      var last := endpoints[|endpoints| - 1];
      Without(endpoints[..|endpoints| - 1], ips) + if last in ips then [] else [last]
  }

  function Addresses(dels: seq<Deletion>): (ips: set<string>)
    ensures forall ip :: ip in ips <==> exists del :: del in dels && del.node.spec.nodeIP == ip
  {
    set del | del in dels :: del.node.spec.nodeIP
  }

  lemma {:induction false} FilterIsWithout(endpoints: seq<string>, ip: string)
    ensures FilterExclude(endpoints, ip) == Without(endpoints, {ip})
    decreases |endpoints|
  {
    if endpoints != [] {
      FilterIsWithout(endpoints[..|endpoints| - 1], ip);
    }
  }

  lemma {:induction false} WithoutTwice(endpoints: seq<string>, a: set<string>, b: set<string>)
    ensures Without(Without(endpoints, a), b) == Without(endpoints, a + b)
    decreases |endpoints|
  {
    if endpoints != [] {
      var front, last := endpoints[..|endpoints| - 1], endpoints[|endpoints| - 1];
      WithoutTwice(front, a, b);
      if last !in a {
        var left := Without(front, a) + [last];
        assert left[..|left| - 1] == Without(front, a) && left[|left| - 1] == last;
      } else {
        assert Without(front, a) + [] == Without(front, a);
      }
    }
  }

  // Removing one address: it goes unless it is all there is, and the rest stays in order.
  lemma RepairedIs(endpoints: seq<string>, ip: string)
    ensures Repaired(endpoints, ip) == if exists e :: e in endpoints && e != ip then Without(endpoints, {ip}) else endpoints
    ensures endpoints != [] ==> Repaired(endpoints, ip) != []
  {
    FilterIsWithout(endpoints, ip);
    hide Without, FilterExclude;
    var left := Without(endpoints, {ip});
    if e :| e in endpoints && e != ip {
      assert e in left;
    }
    assert left != [] ==> left[0] in left;
  }

  // ----- Where a deletion repairs -----

  predicate Repairs(e: Event)
  {
    e.EndpointsSet? || e.KubeconfigPointed?
  }

  predicate RepairsNothing(es: seq<Event>)
  {
    forall e :: e in es ==> !Repairs(e)
  }

  lemma {:induction false} NothingChanges(c: Config, es: seq<Event>, rest: seq<Event>)
    requires RepairsNothing(es)
    ensures AfterEvents(c, es + rest) == AfterEvents(c, rest)
    decreases |es|
  {
    if es == [] {
      assert es + rest == rest;
    } else {
      assert es[0] in es && (es + rest)[1..] == es[1..] + rest;
      NothingChanges(c, es[1..], rest);
    }
  }

  // The repair stands alone between events that touch neither list nor kubeconfig, and only a
  // control plane's deletion has one.
  datatype Shape = Shape(head: seq<Event>, repair: seq<Event>, tail: seq<Event>)

  predicate Fits(s: Shape, node: Node, d: DeletionOutcomes, es: seq<Event>)
  {
    && es == s.head + (s.repair + s.tail) && RepairsNothing(s.head)
    && FinalizerRemoved !in s.head && (s.tail == [] || s.tail == [FinalizerRemoved])
    && (s.repair == [] || (node.spec.role == ControlPlane && s.repair == RepairPlan(node, d)))
    && (s.tail != [] && node.spec.role == ControlPlane ==> s.repair == RepairPlan(node, d))
  }

  lemma Prefixed(s: Shape, node: Node, d: DeletionOutcomes, first: seq<Event>, es: seq<Event>) returns (t: Shape)
    requires Fits(s, node, d, es) && RepairsNothing(first) && FinalizerRemoved !in first
    ensures Fits(t, node, d, first + es)
  {
    hide RepairPlan;
    t := s.(head := first + s.head);
    assert first + es == t.head + (t.repair + t.tail);
    assert forall e :: e in t.head ==> e in first || e in s.head;
  }

  lemma NoRepair(node: Node, d: DeletionOutcomes, es: seq<Event>) returns (s: Shape)
    requires RepairsNothing(es) && FinalizerRemoved !in es
    ensures Fits(s, node, d, es)
  {
    hide RepairPlan;
    s := Shape(es, [], []);
    assert es == es + ([] + []);
  }

  lemma CleanupShape(node: Node, d: DeletionOutcomes) returns (s: Shape)
    ensures Fits(s, node, d, CleanupPlan(node, d))
  {
    hide RepairPlan;
    var last := if d.removeFinalizer then [FinalizerRemoved] else [];
    var wipe := [CleanupStarted] + if node.spec.resetOnDelete && d.reset.Some? then [DeletionReset(d.reset.value)] else [];
    match d.secret
    case SecretError => s := NoRepair(node, d, wipe); assert CleanupPlan(node, d) == wipe;
    case SecretStuck => s := NoRepair(node, d, wipe); assert CleanupPlan(node, d) == wipe;
    case SecretAbsent => s := LastShape(node, d, wipe, last);
    case SecretPresent =>
      s := LastShape(node, d, wipe + [ConfigSecretDeleted], last);
      assert CleanupPlan(node, d) == wipe + [ConfigSecretDeleted] + FinalPlan(node, d);
  }

  lemma LastShape(node: Node, d: DeletionOutcomes, head: seq<Event>, last: seq<Event>) returns (s: Shape)
    requires RepairsNothing(head) && FinalizerRemoved !in head
    requires last == if d.removeFinalizer then [FinalizerRemoved] else []
    ensures Fits(s, node, d, head + FinalPlan(node, d))
  {
    hide RepairPlan;
    s := Shape(head, if node.spec.role == ControlPlane then RepairPlan(node, d) else [], last);
  }

  lemma LeaveShape(node: Node, d: DeletionOutcomes) returns (s: Shape)
    ensures Fits(s, node, d, LeavePlan(node, d))
  {
    hide CleanupPlan, RepairPlan, DialAny, FilterExclude, Fits;
    s := CleanupShape(node, d);
    if d.talosconfig == TcError {
      s := NoRepair(node, d, []);
    } else if d.talosconfig == TcFound {
      if node.status.deletionAttempts >= ETCD_LEAVE_MAX_ATTEMPTS {
        s := Prefixed(s, node, d, ForceRemovePlan(node, d), CleanupPlan(node, d));
      } else if d.leave {
        s := Prefixed(s, node, d, [EtcdLeaveTried(true)], CleanupPlan(node, d));
      } else {
        s := NoRepair(node, d, LeavePlan(node, d));
      }
    }
  }

  lemma DrainShape(node: Node, d: DeletionOutcomes) returns (s: Shape)
    ensures Fits(s, node, d, GuardPlan(node, d))
  {
    hide LeavePlan, CleanupPlan, RepairPlan, SkipDrain, Fits;
    if !SkipDrain(node) && d.drain != DrainDone {
      s := NoRepair(node, d, []);
    } else if node.spec.role == Worker {
      s := CleanupShape(node, d);
    } else {
      s := LeaveShape(node, d);
    }
    if node.spec.role == ControlPlane {
      if d.guard == ClusterGone || d.guard == PeerFound {
        s := Prefixed(s, node, d, [GuardPassed(d.guard == ClusterGone)], DrainPlan(node, d));
      } else {
        s := NoRepair(node, d, []);
      }
    }
  }

  lemma DeletionShape(node: Node, d: DeletionOutcomes) returns (s: Shape)
    ensures Fits(s, node, d, DeletionPlan(node, d))
  {
    hide GuardPlan, RepairPlan, Fits;
    var n := node.(status := DeletingStatus(node.status));
    if !node.finalizer || (node.status.phase != Deleting && !d.deletingStatus) {
      s := NoRepair(node, d, []);
    } else if node.status.phase == Deleting {
      s := DrainShape(node, d);
    } else {
      s := DrainShape(n, d);
      SameRepair(s, node, n, d, GuardPlan(n, d));
      s := Prefixed(s, node, d, [StatusWritten(n.status)], GuardPlan(n, d));
    }
  }

  lemma SameRepair(s: Shape, node: Node, n: Node, d: DeletionOutcomes, es: seq<Event>)
    requires Fits(s, n, d, es) && n.spec == node.spec
    ensures Fits(s, node, d, es)
  {
    hide RefreshPlan, Repaired;
  }

  // Wherever the pass is cut off, only what it did of the repair counts.
  lemma CutRepair(c: Config, node: Node, d: DeletionOutcomes, cut: nat) returns (repair: seq<Event>)
    ensures AfterEvents(c, Cut(DeletionPlan(node, d), cut)) == AfterEvents(c, repair)
    ensures repair == [] || exists k :: repair == Cut(RepairPlan(node, d), k)
    ensures FinalizerRemoved in Cut(DeletionPlan(node, d), cut) && node.spec.role == ControlPlane ==> repair == RepairPlan(node, d)
  {
    hide DeletionPlan, RepairPlan;
    var es := DeletionPlan(node, d);
    var s := DeletionShape(node, d);
    var k: nat := if cut <= |s.head| then 0 else cut - |s.head|;
    var t: nat := if k <= |s.repair| then 0 else k - |s.repair|;
    var head, tail := Cut(s.head, cut), Cut(s.tail, t);
    repair := Cut(s.repair, k);
    assert Cut(es, cut) == head + (repair + tail);
    assert RepairsNothing(head) && RepairsNothing(tail);
    NothingChanges(c, head, repair + tail);
    TailChangesNothing(c, repair, tail);
    if FinalizerRemoved in Cut(es, cut) {
      NoFinalizerInRepair(node, d);
      assert FinalizerRemoved in tail;
    }
  }

  lemma {:induction false} TailChangesNothing(c: Config, es: seq<Event>, tail: seq<Event>)
    requires RepairsNothing(tail)
    ensures AfterEvents(c, es + tail) == AfterEvents(c, es)
    decreases |es|
  {
    if es == [] {
      NothingChanges(c, tail, []);
      assert tail + [] == tail == es + tail;
    } else {
      assert (es + tail)[1..] == es[1..] + tail;
      TailChangesNothing(ApplyConfig(c, es[0]), es[1..], tail);
    }
  }

  lemma NoFinalizerInRepair(node: Node, d: DeletionOutcomes)
    ensures FinalizerRemoved !in RepairPlan(node, d)
  {
    hide Repaired;
  }

  // ----- One deletion -----

  // A control plane that goes takes its address out of the list, unless no other is there, and
  // leaves the kubeconfig at the list's head.
  lemma OneDeletion(c: Config, del: Deletion)
    requires c.endpoints != [] && Lands(c, del)
    ensures var c', ip := AfterEvents(c, EventsOf(c, del)), del.node.spec.nodeIP;
            && c'.endpoints == (if exists e :: e in c.endpoints && e != ip then Without(c.endpoints, {ip}) else c.endpoints)
            && c'.endpoints != [] && c'.server == c'.endpoints[0]
  {
    hide Repaired, RepairPlan, AfterEvents, Without, DeletionPlan;
    var d := Reading(c, del);
    var after := Repaired(c.endpoints, del.node.spec.nodeIP);
    var repair := CutRepair(c, del.node, d, del.cut);
    RepairedIs(c.endpoints, del.node.spec.nodeIP);
    LandingPlan(c, del.node, d);
    AfterTwo(c, EndpointsSet(c.endpoints, after), KubeconfigPointed(after[0]));
  }

  lemma LandingPlan(c: Config, node: Node, d: DeletionOutcomes)
    requires Repaired(c.endpoints, node.spec.nodeIP) != []
    requires d.clusterEndpoints == Some(c.endpoints) && d.endpointsWrite && d.reread == AsLeft && d.kubeSecret == KubeParsed && d.kubeconfigWrite
    ensures var after := Repaired(c.endpoints, node.spec.nodeIP);
            RepairPlan(node, d) ==
            if after == c.endpoints then [KubeconfigPointed(after[0])]
            else [EndpointsSet(c.endpoints, after), KubeconfigPointed(after[0])]
  {
    hide Repaired;
  }

  lemma AfterTwo(c: Config, a: Event, b: Event)
    ensures AfterEvents(c, [a, b]) == ApplyConfig(ApplyConfig(c, a), b) && AfterEvents(c, [b]) == ApplyConfig(c, b)
    ensures AfterEvents(c, [a]) == ApplyConfig(c, a) && AfterEvents(c, []) == c
  {
    hide ApplyConfig;
    assert [a, b][1..] == [b] && [b][1..] == [] && [a][1..] == [];
    assert AfterEvents(ApplyConfig(c, a), [b]) == ApplyConfig(ApplyConfig(c, a), b);
  }

  // The list a deletion leaves, whatever lands and wherever it dies.
  lemma AnyDeletion(c: Config, del: Deletion)
    ensures var after := AfterEvents(c, EventsOf(c, del)).endpoints;
            after == c.endpoints || after == Repaired(c.endpoints, del.node.spec.nodeIP)
  {
    hide Repaired, RepairPlan, DeletionPlan;
    var d := Reading(c, del);
    var repair := CutRepair(c, del.node, d, del.cut);
    AfterTwo(c, FinalizerRemoved, FinalizerRemoved);
    if repair != [] {
      var k :| repair == Cut(RepairPlan(del.node, d), k);
      PartOfRepair(c, del.node, d, k);
    }
  }

  lemma PartOfRepair(c: Config, node: Node, d: DeletionOutcomes, cut: nat)
    requires d.clusterEndpoints.Some? ==> d.clusterEndpoints.value == c.endpoints
    ensures var after := AfterEvents(c, Cut(RepairPlan(node, d), cut)).endpoints;
            after == c.endpoints || after == Repaired(c.endpoints, node.spec.nodeIP)
  {
    hide Repaired;
    var es := Cut(RepairPlan(node, d), cut);
    if |es| == 2 {
      AfterTwo(c, es[0], es[1]);
      assert es == [es[0], es[1]];
    } else if |es| == 1 {
      AfterTwo(c, es[0], es[0]);
      assert es == [es[0]];
    }
  }

  // A worker's deletion touches neither the list nor the kubeconfig.
  lemma WorkersRepairNothing(c: Config, del: Deletion)
    requires del.node.spec.role == Worker
    ensures forall e :: e in EventsOf(c, del) ==> !e.EndpointsSet? && !e.KubeconfigPointed?
    ensures AfterEvents(c, EventsOf(c, del)) == c
  {
    hide DeletionPlan, RepairPlan;
    var d, es := Reading(c, del), EventsOf(c, del);
    var s := DeletionShape(del.node, d);
    assert forall e :: e in es ==> e in DeletionPlan(del.node, d);
    assert RepairsNothing(es);
    NothingChanges(c, es, []);
    assert es + [] == es;
  }

  // ----- Any number of them -----

  // The kubeconfig follows the head of the list, when every write lands.
  lemma {:induction false} ServerFollows(c: Config, dels: seq<Deletion>)
    requires c.endpoints != [] && AllLand(c, dels)
    ensures var c' := AfterAll(c, dels);
            c'.endpoints != [] && (dels != [] ==> c'.server == c'.endpoints[0])
    decreases |dels|
  {
    hide EventsOf, Lands, Without, AfterEvents;
    if dels != [] {
      OneDeletion(c, dels[0]);
      ServerFollows(AfterEvents(c, EventsOf(c, dels[0])), dels[1..]);
    }
  }

  // Whatever lands and wherever deletions die: the list never becomes empty, gains nothing, and
  // keeps every address that is not deleted.
  lemma {:induction false} NeverEmpty(c: Config, dels: seq<Deletion>)
    requires c.endpoints != []
    ensures var after := AfterAll(c, dels).endpoints;
            && after != []
            && (forall e :: e in after ==> e in c.endpoints)
            && (forall e :: e in c.endpoints && e !in Addresses(dels) ==> e in after)
    decreases |dels|
  {
    hide Repaired, EventsOf, Without, AfterEvents;
    if dels != [] {
      var c1 := AfterEvents(c, EventsOf(c, dels[0]));
      AnyDeletion(c, dels[0]);
      RepairedIs(c.endpoints, dels[0].node.spec.nodeIP);
      NeverEmpty(c1, dels[1..]);
      AddressesSplit(dels);
    }
  }

  // As long as some endpoint is not deleted, deletions in any order leave exactly the others,
  // in their old order.
  lemma {:induction false} DeletionsFilter(c: Config, dels: seq<Deletion>, kept: string)
    requires kept in c.endpoints && kept !in Addresses(dels) && AllLand(c, dels)
    ensures AfterAll(c, dels).endpoints == Without(c.endpoints, Addresses(dels))
    decreases |dels|
  {
    hide EventsOf, Lands, Without, AfterEvents;
    if dels == [] {
      WithoutNothing(c.endpoints);
      assert Addresses(dels) == {};
    } else {
      var ip := dels[0].node.spec.nodeIP;
      AddressesSplit(dels);
      OneDeletion(c, dels[0]);
      var c1 := AfterEvents(c, EventsOf(c, dels[0]));
      assert c1.endpoints == Without(c.endpoints, {ip});
      DeletionsFilter(c1, dels[1..], kept);
      WithoutTwice(c.endpoints, {ip}, Addresses(dels[1..]));
    }
  }

  lemma {:induction false} WithoutNothing(endpoints: seq<string>)
    ensures Without(endpoints, {}) == endpoints
    decreases |endpoints|
  {
    if endpoints != [] {
      WithoutNothing(endpoints[..|endpoints| - 1]);
    }
  }

  lemma AddressesSplit(dels: seq<Deletion>)
    requires dels != []
    ensures Addresses(dels) == {dels[0].node.spec.nodeIP} + Addresses(dels[1..])
  {
    assert dels == [dels[0]] + dels[1..];
  }

  // Two orders of deleting the same control planes end in the same configuration: every
  // survivor listed, no deleted one, and the kubeconfig at the first survivor.
  lemma OrderDoesNotMatter(c: Config, dels: seq<Deletion>, others: seq<Deletion>, kept: string)
    requires kept in c.endpoints && kept !in Addresses(dels) && Addresses(dels) == Addresses(others) && dels != []
    requires AllLand(c, dels) && AllLand(c, others)
    ensures var c' := AfterAll(c, dels);
            && c' == AfterAll(c, others)
            && c'.endpoints == Without(c.endpoints, Addresses(dels))
            && (forall e :: e in c'.endpoints <==> e in c.endpoints && e !in Addresses(dels))
            && c'.server == c'.endpoints[0]
  {
    hide AfterAll, Without, AllLand;
    assert dels[0].node.spec.nodeIP in Addresses(others);
    ServerFollows(c, dels);
    ServerFollows(c, others);
    DeletionsFilter(c, dels, kept);
    DeletionsFilter(c, others, kept);
  }
}
