// Tearing a whole cluster down: once the TalosCluster and all nodes naming it are marked for
// deletion, the two controllers cannot block each other.
module Teardown {
  import opened Options
  import opened NodeTypes
  import opened NodeCache
  import opened NodeHistory
  import opened NodePlan
  import P = Provision
  import D = Drain

  // One cluster, its secrets, the nodes naming it by name, which of them have a saved
  // configuration, and the kubeconfig secret.
  datatype World = World(
    cluster: Option<P.Cluster>, store: P.Store, nodes: map<string, Node>, configs: set<string>, kubeconfig: D.Kubeconfig)

  // ----- A node's deletion pass -----

  predicate LivePeer(w: World, name: string)
  {
    exists a :: a in w.nodes && a != name && w.nodes[a].spec.role == ControlPlane && !w.nodes[a].deleting
  }

  // The outcomes of a pass whose API calls all succeed: what the world shows it, and for the
  // calls to machines whatever x and dr say.
  function Seen(w: World, name: string, x: DeletionOutcomes, dr: D.Outcomes): DeletionOutcomes
  {
    var endpoints := if w.cluster.Some? then Some(w.cluster.value.spec.endpoints) else None;
    x.(deletingStatus := true, leaveStatus := true, endpointsWrite := true, kubeconfigWrite := true, removeFinalizer := true,
       guard := if w.cluster.None? then ClusterGone else if LivePeer(w, name) then PeerFound else NoPeer,
       drain := D.DrainAndDelete(dr.(kubeconfig := w.kubeconfig, hostname := dr.hostname && P.TalosconfigSecret in w.store)).verdict,
       talosconfig := if w.cluster.None? || P.TalosconfigSecret !in w.store then TcSkip else TcFound,
       endpoints := if endpoints.Some? then endpoints.value else [],
       secret := if name in w.configs then SecretPresent else SecretAbsent,
       clusterEndpoints := endpoints, reread := if endpoints.Some? then AsLeft else NotRead)
  }

  function ApplyNode(w: World, name: string, e: Event): World
  {
    if name !in w.nodes then w
    else
      var node := Apply(w.nodes[name], e);
      var w' := w.(nodes := if node.finalizer then w.nodes[name := node] else w.nodes - {name});
      match e
      case ConfigSecretDeleted => w'.(configs := w.configs - {name})
      case EndpointsSet(_, after) =>
        if w.cluster.None? then w'
        else w'.(cluster := Some(w.cluster.value.(spec := w.cluster.value.spec.(endpoints := after), generation := w.cluster.value.generation + 1)))
      case _ => w'
  }

  function AfterNode(w: World, name: string, es: seq<Event>): World
    decreases |es|
  {
    if es == [] then w else AfterNode(ApplyNode(w, name, es[0]), name, es[1..])
  }

  datatype Step =
    | ClusterPass(o: P.Outcomes)
    | NodePass(name: string, x: DeletionOutcomes, dr: D.Outcomes)
    | Collect   // the garbage collector removes the kubeconfig secret of a cluster that is gone

  function Next(w: World, step: Step): World
  {
    match step
    case ClusterPass(o) =>
      if w.cluster.None? then w
      else
        var p := P.World(w.cluster, w.store);
        var p' := P.After(p, P.Plan(w.cluster.value, w.store, o));
        w.(cluster := p'.cluster, store := p'.store)
    case NodePass(name, x, dr) =>
      if name !in w.nodes then w else AfterNode(w, name, DeletionPlan(w.nodes[name], Seen(w, name, x, dr)))
    case Collect => if w.cluster.None? then w.(kubeconfig := D.KubeAbsent) else w
  }

  function Run(w: World, steps: seq<Step>): World
    decreases |steps|
  {
    if steps == [] then w else Run(Next(w, steps[0]), steps[1..])
  }

  // Every API call of the cluster's pass succeeds, and the nodes it lists are those there are.
  predicate FairCluster(w: World, o: P.Outcomes)
  {
    && P.AllIn(P.ALL_SECRETS, o.deletable) && o.removeFinalizer && o.nodes.Some?
    && (w.cluster.Some? ==> forall n :: n in o.nodes.value && n.clusterRef == w.cluster.value.name ==>
                                          exists a :: a in w.nodes && w.nodes[a].deleting == n.deleting)
  }

  predicate Fair(w: World, steps: seq<Step>)
    decreases |steps|
  {
    steps != [] ==> (steps[0].ClusterPass? ==> FairCluster(w, steps[0].o)) && Fair(Next(w, steps[0]), steps[1..])
  }

  // The cluster is marked for deletion or gone with its secrets, and all its nodes are marked.
  predicate BeingTornDown(w: World)
  {
    && (if w.cluster.None? then w.store == map[] else w.cluster.value.deleting && w.cluster.value.finalizer)
    && forall a :: a in w.nodes ==> w.nodes[a].deleting && w.nodes[a].finalizer
  }

  // What the drain needs so as not to fail on the kubeconfig.
  predicate Drainable(w: World, name: string)
  {
    name in w.nodes ==> SkipDrain(w.nodes[name]) || w.kubeconfig == D.KubeAbsent || w.kubeconfig == D.KubeUsable
  }

  // ----- Passes of the cluster -----

  // The cluster's pass is never blocked now: it removes the cluster and all its secrets.
  lemma ClusterGoes(w: World, o: P.Outcomes)
    requires BeingTornDown(w) && w.cluster.Some? && FairCluster(w, o)
    ensures Next(w, ClusterPass(o)) == w.(cluster := None, store := map[])
  {
    hide P.DeletionPlan, P.After, P.AllIn;
    P.TeardownWaitsForNodes(P.World(w.cluster, w.store), o);
  }

  // ----- Passes of a node -----

  lemma ApplyNodeFrame(w: World, name: string, e: Event)
    requires !e.UserEdited?
    ensures var w' := ApplyNode(w, name, e);
            && w'.store == w.store && w'.kubeconfig == w.kubeconfig
            && (w.cluster.None? ==> w'.cluster.None?)
            && (w.cluster.Some? ==> w'.cluster.Some? && w'.cluster.value.deleting == w.cluster.value.deleting
                                    && w'.cluster.value.finalizer == w.cluster.value.finalizer)
            && w'.nodes - {name} == w.nodes - {name}
            && (name in w'.nodes ==> name in w.nodes && SameObject(w.nodes[name], w'.nodes[name]))
  {
  }

  lemma {:induction false} AfterNodeFrame(w: World, name: string, es: seq<Event>)
    requires forall e :: e in es ==> !e.UserEdited?
    ensures var w' := AfterNode(w, name, es);
            && w'.store == w.store && w'.kubeconfig == w.kubeconfig
            && (w.cluster.None? ==> w'.cluster.None?)
            && (w.cluster.Some? ==> w'.cluster.Some? && w'.cluster.value.deleting == w.cluster.value.deleting
                                    && w'.cluster.value.finalizer == w.cluster.value.finalizer)
            && w'.nodes - {name} == w.nodes - {name}
            && (name in w'.nodes ==> name in w.nodes && SameObject(w.nodes[name], w'.nodes[name]))
    decreases |es|
  {
    hide ApplyNode;
    if es != [] {
      assert es[0] in es;
      ApplyNodeFrame(w, name, es[0]);
      AfterNodeFrame(ApplyNode(w, name, es[0]), name, es[1..]);
    }
  }

  predicate SameObject(n: Node, m: Node)
  {
    m.deleting == n.deleting && m.spec == n.spec && m.ann.skipDrain == n.ann.skipDrain && (n.finalizer ==> m.finalizer)
  }

  // A pass takes the node away exactly when it gets as far as removing the finalizer.
  lemma {:induction false} RemovedOrKept(w: World, name: string, es: seq<Event>)
    requires name in w.nodes && w.nodes[name].finalizer && forall e :: e in es ==> !e.UserEdited?
    ensures name !in AfterNode(w, name, es).nodes <==> FinalizerRemoved in es
    decreases |es|
  {
    if es != [] {
      assert es[0] in es;
      if es[0] == FinalizerRemoved {
        AfterNodeFrame(ApplyNode(w, name, es[0]), name, es[1..]);
      } else {
        RemovedOrKept(ApplyNode(w, name, es[0]), name, es[1..]);
        assert FinalizerRemoved in es <==> FinalizerRemoved in es[1..];
      }
    }
  }

  // With the cluster gone, guard, etcd leave and drain stand aside: a node goes in one pass,
  // exactly when its drain is skipped or the kubeconfig is missing or usable.
  lemma NodeGoesInOnePass(w: World, name: string, x: DeletionOutcomes, dr: D.Outcomes)
    requires BeingTornDown(w) && w.cluster.None? && name in w.nodes
    ensures name !in Next(w, NodePass(name, x, dr)).nodes <==> Drainable(w, name)
  {
    hide DeletionPlan, AfterNode, SkipDrain, D.DrainFrom;
    var d := Seen(w, name, x, dr);
    DeletionCachesNothing(w.nodes[name], d);
    RemovedOrKept(w, name, DeletionPlan(w.nodes[name], d));
    NodeGoesExactly(w.nodes[name], d);
  }

  // The configuration secret, if there is one, is deleted before the finalizer is removed.
  predicate Tidy(es: seq<Event>, saved: bool)
  {
    es == [] ||
    match es[0]
    case ConfigSecretDeleted => Tidy(es[1..], false)
    case FinalizerRemoved => !saved && Tidy(es[1..], saved)
    case _ => Tidy(es[1..], saved)
  }

  lemma {:induction false} TidyAppend(es: seq<Event>, fs: seq<Event>, saved: bool)
    requires Tidy(fs, saved) && forall e :: e in es ==> !e.ConfigSecretDeleted? && !e.FinalizerRemoved?
    ensures Tidy(es + fs, saved)
    decreases |es|
  {
    if es == [] {
      assert es + fs == fs;
    } else {
      assert es[0] in es && (es + fs)[1..] == es[1..] + fs;
      TidyAppend(es[1..], fs, saved);
    }
  }

  lemma RepairIsRepair(node: Node, d: DeletionOutcomes)
    ensures forall e :: e in RepairPlan(node, d) ==> e.EndpointsSet? || e.KubeconfigPointed?
  {
    hide LeftEndpoints;
  }

  lemma CleanupIsTidy(node: Node, d: DeletionOutcomes)
    ensures Tidy(CleanupPlan(node, d), d.secret == SecretPresent)
  {
    hide Tidy;
    RepairIsRepair(node, d);
    hide RepairPlan;
    var reset := [CleanupStarted] + if node.spec.resetOnDelete && d.reset.Some? then [DeletionReset(d.reset.value)] else [];
    var repair := if node.spec.role == ControlPlane then RepairPlan(node, d) else [];
    var last := if d.removeFinalizer then [FinalizerRemoved] else [];
    LastIsTidy(last);
    TidyAppend(repair, last, false);
    SecretFirst(repair + last);
    var rest := match d.secret
                case SecretError => []
                case SecretStuck => []
                case SecretAbsent => repair + last
                case SecretPresent => [ConfigSecretDeleted] + (repair + last);
    LastIsTidy([]);
    TidyAppend(reset, rest, d.secret == SecretPresent);
    assert CleanupPlan(node, d) == reset + rest;
  }

  lemma LastIsTidy(last: seq<Event>)
    requires last == [] || last == [FinalizerRemoved]
    ensures Tidy(last, false) && (last == [] ==> Tidy(last, true))
  {
  }

  lemma SecretFirst(es: seq<Event>)
    requires Tidy(es, false)
    ensures Tidy([ConfigSecretDeleted] + es, true)
  {
    assert ([ConfigSecretDeleted] + es)[1..] == es;
  }

  lemma LeaveIsTidy(node: Node, d: DeletionOutcomes)
    ensures Tidy(LeavePlan(node, d), d.secret == SecretPresent)
  {
    hide Tidy, CleanupPlan;
    var saved, cleanup := d.secret == SecretPresent, CleanupPlan(node, d);
    CleanupIsTidy(node, d);
    LastIsTidy([]);
    TidyAppend(ForceRemovePlan(node, d), cleanup, saved);
    TidyAppend([EtcdLeaveTried(true)], cleanup, saved);
    TidyAppend([EtcdLeaveTried(false)], [], saved);
    var counted := StatusWritten(node.status.(deletionAttempts := node.status.deletionAttempts + 1));
    TidyAppend([EtcdLeaveTried(false)] + [counted], [], saved);
    assert [EtcdLeaveTried(false)] + [counted] + [] == [EtcdLeaveTried(false)] + [counted];
  }

  lemma DeletionIsTidy(node: Node, d: DeletionOutcomes)
    ensures Tidy(DeletionPlan(node, d), d.secret == SecretPresent)
  {
    hide Tidy, CleanupPlan, LeavePlan, SkipDrain;
    var n := if node.status.phase == Deleting then node else node.(status := DeletingStatus(node.status));
    var saved := d.secret == SecretPresent;
    LastIsTidy([]);
    CleanupIsTidy(n, d);
    LeaveIsTidy(n, d);
    TidyAppend([GuardPassed(d.guard == ClusterGone)], DrainPlan(n, d), saved);
    TidyAppend([StatusWritten(n.status)], GuardPlan(n, d), saved);
  }

  lemma {:induction false} TidyLeavesNothing(w: World, name: string, es: seq<Event>, saved: bool)
    requires Tidy(es, saved) && name in w.nodes && w.nodes[name].finalizer && (name in w.configs ==> saved)
    ensures name !in AfterNode(w, name, es).nodes ==> name !in AfterNode(w, name, es).configs
    decreases |es|
  {
    if es != [] {
      var w' := ApplyNode(w, name, es[0]);
      if name in w'.nodes {
        TidyLeavesNothing(w', name, es[1..], if es[0] == ConfigSecretDeleted then false else saved);
      } else {
        GoneStays(w', name, es[1..]);
      }
    }
  }

  lemma {:induction false} GoneStays(w: World, name: string, es: seq<Event>)
    requires name !in w.nodes
    ensures AfterNode(w, name, es) == w
    decreases |es|
  {
    if es != [] {
      GoneStays(w, name, es[1..]);
    }
  }

  // A node that goes takes its saved configuration with it, whether the cluster is there or not.
  lemma NodeLeavesNothing(w: World, name: string, x: DeletionOutcomes, dr: D.Outcomes)
    requires name in w.nodes && w.nodes[name].finalizer
    ensures var w' := Next(w, NodePass(name, x, dr));
            name !in w'.nodes ==> name !in w'.configs
  {
    hide DeletionPlan, AfterNode, Tidy;
    var d := Seen(w, name, x, dr);
    DeletionIsTidy(w.nodes[name], d);
    TidyLeavesNothing(w, name, DeletionPlan(w.nodes[name], d), name in w.configs);
  }

  // ----- Runs -----

  lemma StepKeepsTearingDown(w: World, step: Step)
    requires BeingTornDown(w) && (step.ClusterPass? ==> FairCluster(w, step.o))
    ensures var w' := Next(w, step);
            && BeingTornDown(w') && w'.nodes.Keys <= w.nodes.Keys
            && (w.cluster.None? ==> w'.cluster.None?)
            && forall a :: Drainable(w, a) ==> Drainable(w', a)
  {
    hide DeletionPlan, AfterNode, D.DrainAndDelete;
    match step
    case ClusterPass(o) => if w.cluster.Some? { ClusterGoes(w, o); }
    case NodePass(name, x, dr) =>
      if name in w.nodes {
        var es := DeletionPlan(w.nodes[name], Seen(w, name, x, dr));
        DeletionCachesNothing(w.nodes[name], Seen(w, name, x, dr));
        AfterNodeFrame(w, name, es);
        NodesFrame(w.nodes, AfterNode(w, name, es).nodes, name);
      }
    case Collect =>
  }

  lemma NodesFrame(before: map<string, Node>, after: map<string, Node>, name: string)
    requires after - {name} == before - {name}
    ensures forall a :: a in after && a != name ==> a in before && after[a] == before[a]
  {
    forall a | a in after && a != name ensures a in before && after[a] == before[a] {
      assert a in after - {name} && a in before - {name};
      assert (after - {name})[a] == (before - {name})[a];
    }
  }

  lemma {:induction false} RunKeepsTearingDown(w: World, steps: seq<Step>)
    requires BeingTornDown(w) && Fair(w, steps)
    ensures var w' := Run(w, steps);
            && BeingTornDown(w') && w'.nodes.Keys <= w.nodes.Keys
            && (w.cluster.None? ==> w'.cluster.None?)
            && forall a :: Drainable(w, a) ==> Drainable(w', a)
    decreases |steps|
  {
    hide BeingTornDown, Next, FairCluster, Drainable;
    if steps != [] {
      StepKeepsTearingDown(w, steps[0]);
      RunKeepsTearingDown(Next(w, steps[0]), steps[1..]);
    }
  }

  // After the cluster is gone, a pass of every node is enough, in any order.
  lemma {:induction false} NodesGo(w: World, steps: seq<Step>, name: string)
    requires BeingTornDown(w) && Fair(w, steps) && w.cluster.None? && Drainable(w, name)
    requires exists j :: 0 <= j < |steps| && steps[j].NodePass? && steps[j].name == name
    ensures name !in Run(w, steps).nodes
    decreases |steps|
  {
    hide BeingTornDown, Next, FairCluster;
    var j :| 0 <= j < |steps| && steps[j].NodePass? && steps[j].name == name;
    StepKeepsTearingDown(w, steps[0]);
    RunKeepsTearingDown(Next(w, steps[0]), steps[1..]);
    if j == 0 {
      if name in w.nodes {
        NodeGoesInOnePass(w, name, steps[0].x, steps[0].dr);
      } else {
        assert name !in Next(w, steps[0]).nodes.Keys;
      }
      assert name !in Run(Next(w, steps[0]), steps[1..]).nodes.Keys;
    } else {
      assert steps[1..][j - 1] == steps[j];
      NodesGo(Next(w, steps[0]), steps[1..], name);
    }
  }

  lemma {:induction false} RunAppend(w: World, a: seq<Step>, b: seq<Step>)
    ensures Run(w, a + b) == Run(Run(w, a), b)
    ensures Fair(w, a + b) <==> Fair(w, a) && Fair(Run(w, a), b)
    decreases |a|
  {
    hide Next, FairCluster;
    if a == [] {
      assert a + b == b;
    } else {
      RunAppend(Next(w, a[0]), a[1..], b);
      assert (a + b)[1..] == a[1..] + b;
    }
  }

  // No deadlock: whatever fair passes come before it, one pass of the cluster followed by one
  // of each node leaves neither cluster nor secrets nor nodes.
  lemma TeardownCompletes(w: World, before: seq<Step>, o: P.Outcomes, later: seq<Step>)
    requires BeingTornDown(w) && Fair(w, before + ([ClusterPass(o)] + later))
    requires forall a :: a in w.nodes ==>
                           Drainable(w, a) && exists j :: 0 <= j < |later| && later[j].NodePass? && later[j].name == a
    ensures var w' := Run(w, before + ([ClusterPass(o)] + later));
            w'.cluster.None? && w'.store == map[] && w'.nodes == map[]
  {
    hide Next, FairCluster, Drainable;
    RunAppend(w, before, [ClusterPass(o)] + later);
    RunKeepsTearingDown(w, before);
    var w1 := Run(w, before);
    var w2 := Next(w1, ClusterPass(o));
    assert ([ClusterPass(o)] + later)[1..] == later;
    StepKeepsTearingDown(w1, ClusterPass(o));
    ClusterIsGone(w1, o);
    RunKeepsTearingDown(w2, later);
    assert w2.nodes.Keys <= w.nodes.Keys;
    forall a | a in w.nodes ensures a !in Run(w2, later).nodes {
      NodesGo(w2, later, a);
    }
    assert Run(w2, later).nodes.Keys == {};
  }

  lemma ClusterIsGone(w: World, o: P.Outcomes)
    requires BeingTornDown(w) && FairCluster(w, o)
    ensures Next(w, ClusterPass(o)).cluster.None?
  {
    if w.cluster.Some? { ClusterGoes(w, o); }
  }
}
