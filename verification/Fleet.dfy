// All nodes together: reconciles of different nodes interleave event by event, users create,
// change and delete nodes at any moment, and a reconcile can die anywhere. While its
// TalosCluster exists, deletions never take all control planes of a cluster: one has never
// passed the guard, and the operator does nothing destructive to it that was not asked for.
module Fleet {
  import opened Images
  import opened NodeTypes
  import opened NodePlan
  import opened FleetPlans

  // A reconcile under way: what it read, and what it has still to do.
  datatype Running = Running(uid: nat, clusterRef: string, controlPlane: bool, deleting: bool, todo: seq<Event>)

  // Nodes and running reconciles are kept by node name; uids are never reused.
  datatype World = World(
    clusters: set<string>, nodes: map<string, Node>, used: set<nat>, running: map<string, Running>,
    passed: set<nat>,   // control planes whose deletion has passed the guard
    asked: set<nat>,    // nodes whose reset annotation was ever set
    hit: set<nat>)      // control planes a destructive event was aimed at

  predicate IsControlPlane(node: Node, c: string)
  {
    node.spec.role == ControlPlane && node.spec.clusterRef == c
  }

  predicate LivePeer(w: World, name: string, c: string, peer: string)
  {
    peer in w.nodes && peer != name && IsControlPlane(w.nodes[peer], c) && !w.nodes[peer].deleting
  }

  // The guard lets a reconcile go on when the cluster is gone, or when it finds a live peer.
  predicate Enabled(w: World, name: string, r: Running, e: Event)
  {
    match e
    case GuardPassed(true) => r.clusterRef !in w.clusters
    case GuardPassed(false) => r.clusterRef in w.clusters && exists peer :: peer in w.nodes && LivePeer(w, name, r.clusterRef, peer)
    case _ => true
  }

  // The guard itself: looks for a live control plane of the cluster under another name.
  method IsLastControlPlane(clusters: set<string>, list: seq<Node>, node: Node) returns (last: bool)
    ensures last <==> && node.spec.clusterRef in clusters
                      && forall n :: n in list && n.name != node.name && IsControlPlane(n, node.spec.clusterRef) ==> n.deleting
  {
    if node.spec.clusterRef !in clusters { return false; }
    for i := 0 to |list|
      invariant forall n :: n in list[..i] && n.name != node.name && IsControlPlane(n, node.spec.clusterRef) ==> n.deleting
    {
      var n := list[i];
      if n.name == node.name { continue; }
      if n.spec.clusterRef != node.spec.clusterRef { continue; }
      if n.spec.role != ControlPlane { continue; }
      if n.deleting { continue; }
      return false;
    }
    last := true;
  }

  // On a list of all stored nodes, the guard refuses exactly when neither of its events is enabled.
  lemma GuardIsExact(w: World, r: Running, list: seq<Node>, node: Node)
    requires r.clusterRef == node.spec.clusterRef
    requires forall a :: a in w.nodes ==> w.nodes[a].name == a && w.nodes[a] in list
    requires forall n :: n in list ==> n.name in w.nodes && w.nodes[n.name] == n
    ensures (node.spec.clusterRef in w.clusters
             && forall n :: n in list && n.name != node.name && IsControlPlane(n, node.spec.clusterRef) ==> n.deleting)
            <==> !Enabled(w, node.name, r, GuardPassed(true)) && !Enabled(w, node.name, r, GuardPassed(false))
  {
    if peer :| peer in w.nodes && LivePeer(w, node.name, r.clusterRef, peer) {
      assert w.nodes[peer] in list;
    } else if n :| n in list && n.name != node.name && IsControlPlane(n, node.spec.clusterRef) && !n.deleting {
      assert LivePeer(w, node.name, r.clusterRef, n.name);
    }
  }

  // Writes reach the object only while it is the one that was read; without its finalizer a
  // deleted object is gone.
  function Stored(w: World, name: string, r: Running, e: Event): map<string, Node>
  {
    if name !in w.nodes || w.nodes[name].uid != r.uid then w.nodes
    else
      var node := Apply(w.nodes[name], e);
      if node.deleting && !node.finalizer then w.nodes - {name} else w.nodes[name := node]
  }

  function Do(w: World, name: string): World
    requires name in w.running
  {
    var r := w.running[name];
    if r.todo == [] || !Enabled(w, name, r, r.todo[0]) then w.(running := w.running - {name})
    else
      var e := r.todo[0];
      w.(nodes := Stored(w, name, r, e),
         running := w.running[name := r.(todo := r.todo[1..])],
         passed := w.passed + (if r.controlPlane && e.GuardPassed? then {r.uid} else {}),
         asked := w.asked + (if e.UserEdited? then Asks(r.uid, e.edit.reset) else {}),
         hit := w.hit + if r.controlPlane && Destructive(e) then {r.uid} else {})
  }

  // Setting the reset annotation asks for a reset.
  function Asks(uid: nat, reset: string): set<nat>
  {
    if reset == "" then {} else {uid}
  }

  datatype Step =
    | Create(name: string, node: Node)
    | Delete(name: string)
    | Change(name: string, node: Node)
    | AddCluster(c: string)
    | RemoveCluster(c: string)
    | Begin(name: string, o: Outcomes)
    | Proceed(name: string)
    | Crash(name: string)

  function Started(order: Order, n: Node, o: Outcomes): Running
  {
    Running(n.uid, n.spec.clusterRef, n.spec.role == ControlPlane, n.deleting, Plan(order, n, o))
  }

  function Next(order: Order, w: World, step: Step): World
  {
    match step
    case Create(name, node) =>
      if name in w.nodes || node.uid in w.used || node.deleting then w
      else w.(nodes := w.nodes[name := node], used := w.used + {node.uid}, asked := w.asked + Asks(node.uid, node.ann.reset))
    case Delete(name) =>
      if name !in w.nodes then w
      else if !w.nodes[name].finalizer then w.(nodes := w.nodes - {name})
      else w.(nodes := w.nodes[name := w.nodes[name].(deleting := true)])
    case Change(name, node) =>
      if name !in w.nodes then w
      else
        var n := w.nodes[name];
        w.(nodes := w.nodes[name := node.(uid := n.uid, finalizer := n.finalizer, deleting := n.deleting,
                                          spec := node.spec.(role := n.spec.role, clusterRef := n.spec.clusterRef))],
           asked := w.asked + Asks(n.uid, node.ann.reset))
    case AddCluster(c) => w.(clusters := w.clusters + {c})
    case RemoveCluster(c) => w.(clusters := w.clusters - {c})
    case Begin(name, o) =>
      if name !in w.nodes || name in w.running then w
      else
        var n := w.nodes[name];
        w.(running := w.running[name := Started(order, n, o)])
    case Proceed(name) => if name in w.running then Do(w, name) else w
    case Crash(name) => w.(running := w.running - {name})
  }

  function Run(order: Order, w: World, steps: seq<Step>): World
    decreases |steps|
  {
    if steps == [] then w else Run(order, Next(order, w, steps[0]), steps[1..])
  }

  // At the start the cluster has a control plane and no reconcile has begun.
  ghost predicate Start(w: World, c: string)
  {
    && c in w.clusters && w.running == map[] && w.passed == {} && w.hit == {}
    && (forall a :: a in w.nodes && w.nodes[a].ann.reset != "" ==> w.nodes[a].uid in w.asked)
    && (forall a :: a in w.nodes ==> w.nodes[a].uid in w.used && (w.nodes[a].deleting ==> w.nodes[a].finalizer))
    && (forall a, b :: a in w.nodes && b in w.nodes && w.nodes[a].uid == w.nodes[b].uid ==> a == b)
    && exists a :: a in w.nodes && IsControlPlane(w.nodes[a], c)
  }

  // ----- Invariants -----

  // Uids tell objects apart, deleted ones have their finalizer, and a running reconcile knows the object it read.
  ghost predicate Consistent(w: World)
  {
    && (forall a :: a in w.nodes ==> w.nodes[a].uid in w.used && (w.nodes[a].deleting ==> w.nodes[a].finalizer))
    && (forall a, b :: a in w.nodes && b in w.nodes && w.nodes[a].uid == w.nodes[b].uid ==> a == b)
    && (forall a, b :: a in w.running && b in w.nodes && w.running[a].uid == w.nodes[b].uid ==> a == b && Reads(w.running[a], w.nodes[b]))
    && (forall a :: a in w.running ==> w.running[a].uid in w.used)
    && w.passed <= w.used
  }

  predicate Reads(r: Running, node: Node)
  {
    r.clusterRef == node.spec.clusterRef && r.controlPlane == (node.spec.role == ControlPlane) && (r.deleting ==> node.deleting)
  }

  // A control plane is deleted before it passes the guard, and passes it before anything removes it.
  ghost predicate Careful(w: World)
  {
    && (forall a :: a in w.nodes && w.nodes[a].uid in w.passed ==> w.nodes[a].deleting)
    && (forall a :: a in w.running ==> Behaves(w.passed, w.running[a]))
  }

  predicate Behaves(passed: set<nat>, r: Running)
  {
    && (r.controlPlane && r.uid !in passed ==> Guarded(r.todo))
    && (!r.deleting ==> forall e :: e in r.todo ==> Harmless(e))
  }

  // A node is reset only after its annotation was set.
  ghost predicate Obedient(w: World)
  {
    && (forall a :: a in w.nodes && w.nodes[a].ann.reset != "" ==> w.nodes[a].uid in w.asked)
    && (forall a :: a in w.running ==> Obeys(w.asked, w.running[a]))
  }

  predicate Obeys(asked: set<nat>, r: Running)
  {
    r.uid in asked || Requested(r.todo)
  }

  predicate Untouched(w: World, c: string, name: string)
  {
    name in w.nodes && IsControlPlane(w.nodes[name], c) && w.nodes[name].uid !in w.passed
  }

  ghost predicate Base(w: World, c: string)
  {
    Consistent(w) && Careful(w) && Obedient(w) && w.hit <= w.passed + w.asked && c in w.clusters
  }

  ghost predicate Inv(w: World, c: string)
  {
    Base(w, c) && exists name :: Untouched(w, c, name)
  }

  // ----- One event of a reconcile -----

  // A write changes neither the identity of an object nor what it was created with, and only
  // the removal of its finalizer makes it disappear.
  lemma StoredKeeps(w: World, name: string, r: Running, e: Event)
    ensures var nodes := Stored(w, name, r, e);
            forall b :: b in w.nodes ==> if b in nodes then Resembles(w.nodes[b], nodes[b]) else Vanishes(w, name, r, e, b)
    ensures forall b :: b in Stored(w, name, r, e) ==> b in w.nodes
  {
    hide Apply;
    if name in w.nodes { ApplyKeeps(w.nodes[name], e); }
  }

  lemma ApplyKeeps(n: Node, e: Event)
    ensures var m := Apply(n, e);
            && m.uid == n.uid && m.spec.role == n.spec.role && m.spec.clusterRef == n.spec.clusterRef && m.deleting == n.deleting
            && (n.finalizer && !m.finalizer ==> e.FinalizerRemoved?)
            && (m.ann.reset == n.ann.reset || (e.UserEdited? && m.ann.reset == e.edit.reset))
  {
  }

  predicate Resembles(n: Node, m: Node)
  {
    && m.uid == n.uid && m.spec.role == n.spec.role && m.spec.clusterRef == n.spec.clusterRef && m.deleting == n.deleting
    && (n.deleting && n.finalizer ==> m.finalizer)
  }

  predicate Vanishes(w: World, name: string, r: Running, e: Event, b: string)
    requires b in w.nodes
  {
    b == name && w.nodes[b].uid == r.uid && w.nodes[b].deleting && (w.nodes[b].finalizer ==> e.FinalizerRemoved?)
  }

  lemma DoIsConsistent(w: World, name: string)
    requires Consistent(w) && name in w.running
    ensures Consistent(Do(w, name))
  {
    hide Enabled, Destructive, Stored, IsControlPlane, Vanishes;
    var r := w.running[name];
    if r.todo != [] { StoredKeeps(w, name, r, r.todo[0]); }
  }

  lemma DoIsCareful(w: World, name: string)
    requires Consistent(w) && Careful(w) && name in w.running
    ensures Careful(Do(w, name))
  {
    hide Enabled, Stored, Vanishes, Destructive;
    var r := w.running[name];
    if r.todo != [] && Enabled(w, name, r, r.todo[0]) {
      var w' := Do(w, name);
      StoredKeeps(w, name, r, r.todo[0]);
      assert r.todo[0] in r.todo && Behaves(w.passed, r);
      NextBehaves(w.passed, w'.passed, r);
    }
  }

  lemma NextBehaves(passed: set<nat>, passed': set<nat>, r: Running)
    requires r.todo != [] && Behaves(passed, r)
    requires passed' == passed + if r.controlPlane && r.todo[0].GuardPassed? then {r.uid} else {}
    ensures Behaves(passed', r.(todo := r.todo[1..]))
  {
    assert forall e :: e in r.todo[1..] ==> e in r.todo;
  }

  lemma DoIsObedient(w: World, name: string)
    requires Consistent(w) && Obedient(w) && name in w.running
    ensures Obedient(Do(w, name))
  {
    hide Enabled, Stored, Destructive, Reads;
    var r := w.running[name];
    if r.todo != [] && Enabled(w, name, r, r.todo[0]) {
      StoredResets(w, name, r, r.todo[0]);
      assert Obeys(w.asked, r);
      assert Obeys(Do(w, name).asked, r.(todo := r.todo[1..]));
    }
  }

  lemma StoredResets(w: World, name: string, r: Running, e: Event)
    ensures var nodes := Stored(w, name, r, e);
            forall b :: b in nodes ==>
                          && b in w.nodes && nodes[b].uid == w.nodes[b].uid
                          && (nodes[b].ann.reset == w.nodes[b].ann.reset ||
                              (e.UserEdited? && nodes[b].ann.reset == e.edit.reset && nodes[b].uid == r.uid))
  {
    hide Apply;
    if name in w.nodes { ApplyKeeps(w.nodes[name], e); }
  }

  // Whatever is hit has passed the guard, or was asked to be reset.
  lemma DoHitsOnly(w: World, name: string)
    requires Careful(w) && Obedient(w) && w.hit <= w.passed + w.asked && name in w.running
    ensures Do(w, name).hit <= Do(w, name).passed + Do(w, name).asked
  {
    hide Enabled, Stored;
    var r := w.running[name];
    assert Behaves(w.passed, r) && Obeys(w.asked, r);
    if r.todo != [] { assert r.todo[0] in r.todo; }
  }

  // Whoever passes the guard leaves a live peer behind, and only those who passed it disappear.
  lemma DoLeavesOne(w: World, name: string, c: string)
    requires Inv(w, c) && name in w.running
    ensures exists n :: Untouched(Do(w, name), c, n)
  {
    hide Enabled, Guarded, Harmless, Obedient;
    var r := w.running[name];
    var n :| Untouched(w, c, n);
    if r.todo != [] && Enabled(w, name, r, r.todo[0]) && r.controlPlane && r.todo[0].GuardPassed? && r.clusterRef == c {
      var peer := PeerOf(w, name, r, r.todo[0]);
      assert Untouched(Do(w, name), c, peer);
    } else {
      OneStays(w, name, c, n);
    }
  }

  lemma PeerOf(w: World, name: string, r: Running, e: Event) returns (peer: string)
    requires Enabled(w, name, r, e) && e.GuardPassed? && r.clusterRef in w.clusters
    ensures LivePeer(w, name, r.clusterRef, peer)
  {
    peer :| LivePeer(w, name, r.clusterRef, peer);
  }

  lemma OneStays(w: World, name: string, c: string, n: string)
    requires Consistent(w) && Careful(w) && name in w.running && Untouched(w, c, n)
    requires var r := w.running[name];
             r.todo == [] || !Enabled(w, name, r, r.todo[0]) || !r.controlPlane || !r.todo[0].GuardPassed? || r.clusterRef != c
    ensures Untouched(Do(w, name), c, n)
  {
    hide Enabled, Stored;
    var r := w.running[name];
    if r.todo != [] {
      StoredKeeps(w, name, r, r.todo[0]);
      assert Behaves(w.passed, r) && r.todo[0] in r.todo;
      assert w.nodes[n].uid == r.uid ==> n == name && Reads(r, w.nodes[n]);
    }
  }

  lemma DoKeepsClusters(w: World, name: string)
    requires name in w.running
    ensures Do(w, name).clusters == w.clusters
  {
  }

  lemma DoKeepsBase(w: World, name: string, c: string)
    requires Base(w, c) && name in w.running
    ensures Base(Do(w, name), c)
  {
    hide Do, Consistent, Careful, Obedient;
    DoIsConsistent(w, name);
    DoIsCareful(w, name);
    DoIsObedient(w, name);
    DoHitsOnly(w, name);
    DoKeepsClusters(w, name);
  }

  // ----- One step -----

  lemma BeginBehaves(order: Order, w: World, n: Node, o: Outcomes)
    requires n.ann.reset != "" ==> n.uid in w.asked
    ensures Behaves(w.passed, Started(order, n, o)) && Obeys(w.asked, Started(order, n, o))
  {
    hide Guarded, Harmless, Requested, Plan;
    PlanIsGuarded(order, n, o);
    if n.ann.reset == "" { PlanIsRequested(order, n, o); }
  }

  lemma CreateIsConsistent(order: Order, w: World, name: string, node: Node)
    requires Consistent(w)
    ensures Consistent(Next(order, w, Create(name, node)))
  {
    hide Plan, IsControlPlane, Asks;
  }

  lemma DeleteIsConsistent(order: Order, w: World, name: string)
    requires Consistent(w)
    ensures Consistent(Next(order, w, Delete(name)))
  {
    hide Plan, IsControlPlane, Asks;
  }

  lemma ChangeIsConsistent(order: Order, w: World, name: string, node: Node)
    requires Consistent(w)
    ensures Consistent(Next(order, w, Change(name, node)))
  {
    hide Plan, IsControlPlane, Asks;
  }

  lemma OtherIsConsistent(order: Order, w: World, step: Step)
    requires Consistent(w) && (step.AddCluster? || step.RemoveCluster? || step.Crash? || step.Begin?)
    ensures Consistent(Next(order, w, step))
  {
    hide Plan, IsControlPlane, Asks;
  }

  lemma StepIsConsistent(order: Order, w: World, step: Step)
    requires Consistent(w) && !step.Proceed?
    ensures Consistent(Next(order, w, step))
  {
    hide Consistent, Next;
    match step
    case Create(name, node) => CreateIsConsistent(order, w, name, node);
    case Delete(name) => DeleteIsConsistent(order, w, name);
    case Change(name, node) => ChangeIsConsistent(order, w, name, node);
    case _ => OtherIsConsistent(order, w, step);
  }

  lemma StepIsCareful(order: Order, w: World, step: Step)
    requires Consistent(w) && Careful(w) && Obedient(w) && !step.Proceed?
    ensures Careful(Next(order, w, step))
  {
    hide Plan, Behaves, Obeys, Reads;
    if step.Begin? && step.name in w.nodes { BeginBehaves(order, w, w.nodes[step.name], step.o); }
  }

  lemma StepIsObedient(order: Order, w: World, step: Step)
    requires Obedient(w) && !step.Proceed?
    ensures Obedient(Next(order, w, step))
  {
    hide Plan, Behaves, Obeys;
    ObeysMore(w, Next(order, w, step).asked);
    if step.Begin? && step.name in w.nodes { BeginBehaves(order, w, w.nodes[step.name], step.o); }
  }

  lemma ObeysMore(w: World, asked: set<nat>)
    ensures forall a :: a in w.running && w.asked <= asked && Obeys(w.asked, w.running[a]) ==> Obeys(asked, w.running[a])
  {
  }

  lemma StepFrame(order: Order, w: World, step: Step)
    requires !step.Proceed?
    ensures var w' := Next(order, w, step);
            && w'.hit == w.hit && w'.passed == w.passed && w.asked <= w'.asked
            && (forall c :: c in w.clusters && step != RemoveCluster(c) ==> c in w'.clusters)
  {
  }

  // The base of the invariant is kept by every step but the removal of the cluster.
  lemma StepKeepsBase(order: Order, w: World, step: Step, c: string)
    requires Base(w, c) && step != RemoveCluster(c)
    ensures Base(Next(order, w, step), c)
  {
    if step.Proceed? {
      if step.name in w.running { DoKeepsBase(w, step.name, c); }
    } else {
      hide Next, Consistent, Careful, Obedient;
      StepIsConsistent(order, w, step);
      StepIsCareful(order, w, step);
      StepIsObedient(order, w, step);
      StepFrame(order, w, step);
    }
  }

  // The step does not take away the cluster, nor the last untouched control plane for want of a finalizer.
  ghost predicate Keeps(w: World, step: Step, c: string)
  {
    && step != RemoveCluster(c)
    && (step.Delete? && Untouched(w, c, step.name) && !w.nodes[step.name].finalizer ==>
          exists other :: other != step.name && Untouched(w, c, other))
  }

  lemma StepLeaves(order: Order, w: World, step: Step, c: string, n: string)
    requires Consistent(w) && !step.Proceed? && Untouched(w, c, n)
    ensures Untouched(Next(order, w, step), c, n) <==> !(step == Delete(n) && !w.nodes[n].finalizer)
  {
    hide Plan;
  }

  lemma DeleteLeavesOthers(order: Order, w: World, name: string, c: string, n: string)
    requires name in w.nodes && !w.nodes[name].finalizer && Untouched(Next(order, w, Delete(name)), c, n)
    ensures n != name && Untouched(w, c, n)
  {
  }

  // From a good state a step leads to a good state exactly when it keeps an untouched control plane.
  lemma StepKeepsExactly(order: Order, w: World, step: Step, c: string)
    requires Inv(w, c)
    ensures Inv(Next(order, w, step), c) <==> Keeps(w, step, c)
    ensures step != RemoveCluster(c) ==> Base(Next(order, w, step), c)
  {
    var w' := Next(order, w, step);
    if step != RemoveCluster(c) {
      StepKeepsBase(order, w, step, c);
      if step.Proceed? {
        if step.name in w.running { DoLeavesOne(w, step.name, c); }
      } else {
        OneIsLeftExactly(order, w, step, c);
      }
    }
  }

  lemma OneIsLeftExactly(order: Order, w: World, step: Step, c: string)
    requires Inv(w, c) && !step.Proceed? && step != RemoveCluster(c)
    ensures (exists n :: Untouched(Next(order, w, step), c, n)) <==> Keeps(w, step, c)
  {
    hide Next, Careful, Obedient;
    if Keeps(w, step, c) {
      var n :| Untouched(w, c, n);
      if step == Delete(n) && !w.nodes[n].finalizer {
        var other :| other != n && Untouched(w, c, other);
        StepLeaves(order, w, step, c, other);
      } else {
        StepLeaves(order, w, step, c, n);
      }
    }
    if n :| Untouched(Next(order, w, step), c, n) {
      if step.Delete? && Untouched(w, c, step.name) && !w.nodes[step.name].finalizer {
        DeleteLeavesOthers(order, w, step.name, c, n);
      }
    }
  }

  // ----- Runs -----

  ghost predicate KeepsRun(order: Order, w: World, steps: seq<Step>, c: string)
    decreases |steps|
  {
    steps != [] ==> Keeps(w, steps[0], c) && KeepsRun(order, Next(order, w, steps[0]), steps[1..], c)
  }

  // At every moment of the run some control plane has not passed the guard.
  ghost predicate AlwaysOne(order: Order, w: World, steps: seq<Step>, c: string)
    decreases |steps|
  {
    && (exists name :: Untouched(w, c, name))
    && (steps != [] ==> AlwaysOne(order, Next(order, w, steps[0]), steps[1..], c))
  }

  lemma {:induction false} RunKeepsInv(order: Order, w: World, steps: seq<Step>, c: string)
    requires Inv(w, c) && KeepsRun(order, w, steps, c)
    ensures Inv(Run(order, w, steps), c)
    decreases |steps|
  {
    hide Inv, Next, Keeps;
    if steps != [] {
      StepKeepsExactly(order, w, steps[0], c);
      RunKeepsInv(order, Next(order, w, steps[0]), steps[1..], c);
    }
  }

  lemma StartIsGood(w: World, c: string)
    requires Start(w, c)
    ensures Inv(w, c)
  {
    var n :| n in w.nodes && IsControlPlane(w.nodes[n], c);
    assert Untouched(w, c, n);
  }

  // However deletions and reconciles interleave, and even when all nodes are deleted at once,
  // some control plane of the cluster never passed the guard, and nothing destructive was aimed
  // at it unless its user asked for a reset; nor at any other that did not pass.
  lemma SomeControlPlaneSurvives(order: Order, w: World, steps: seq<Step>, c: string)
    requires Start(w, c) && KeepsRun(order, w, steps, c)
    ensures var w' := Run(order, w, steps);
            && w'.hit <= w'.passed + w'.asked
            && exists name :: Untouched(w', c, name) && (w'.nodes[name].uid in w'.hit ==> w'.nodes[name].uid in w'.asked)
  {
    StartIsGood(w, c);
    RunKeepsInv(order, w, steps, c);
    var name :| Untouched(Run(order, w, steps), c, name);
  }

  // As long as the cluster stays, that is exact: there is such a control plane at every moment if
  // and only if none was deleted without its finalizer while it was the only one.
  lemma SurvivesExactly(order: Order, w: World, steps: seq<Step>, c: string)
    requires Start(w, c) && RemoveCluster(c) !in steps
    ensures AlwaysOne(order, w, steps, c) <==> KeepsRun(order, w, steps, c)
  {
    StartIsGood(w, c);
    RunIsExact(order, w, steps, c);
  }

  lemma {:induction false} RunIsExact(order: Order, w: World, steps: seq<Step>, c: string)
    requires Inv(w, c) && RemoveCluster(c) !in steps
    ensures AlwaysOne(order, w, steps, c) <==> KeepsRun(order, w, steps, c)
    decreases |steps|
  {
    hide Base, Next, Keeps;
    if steps != [] {
      assert steps[0] in steps && forall s :: s in steps[1..] ==> s in steps;
      StepKeepsExactly(order, w, steps[0], c);
      if Inv(Next(order, w, steps[0]), c) {
        RunIsExact(order, Next(order, w, steps[0]), steps[1..], c);
      }
    }
  }

  // ----- Without the finalizer -----

  // Cleaning up at once: nothing to drain, no etcd, no secret, no endpoints to repair.
  predicate Quick(d: DeletionOutcomes)
  {
    d.guard == PeerFound && d.talosconfig == TcSkip && d.secret == SecretAbsent && d.reset.None? &&
    d.clusterEndpoints.None? && d.reread == NotRead && d.removeFinalizer
  }

  lemma RunCons(order: Order, w: World, a: Step, rest: seq<Step>)
    ensures Run(order, w, [a] + rest) == Run(order, Next(order, w, a), rest)
    ensures Run(order, w, []) == w
  {
    hide Next;
    assert ([a] + rest)[1..] == rest;
  }

  // A control plane deleted before its finalizer was added vanishes at once, though another's
  // guard has just counted on it: then both are gone.
  lemma FreshWitnessCanVanish(order: Order, w: World, a: string, b: string, o: Outcomes)
    requires w.nodes.Keys == {a, b} && a != b && w.running == map[]
    requires var n, m := w.nodes[a], w.nodes[b];
             && IsControlPlane(n, n.spec.clusterRef) && n.deleting && n.finalizer && n.status.phase == Deleting && SkipDrain(n)
             && IsControlPlane(m, n.spec.clusterRef) && !m.deleting && !m.finalizer && n.spec.clusterRef in w.clusters
    requires Quick(o.deletion)
    ensures Run(order, w, [Begin(a, o), Proceed(a), Delete(b), Proceed(a), Proceed(a)]).nodes == map[]
  {
    hide Next;
    var n := w.nodes[a];
    GuardCountsOnPeer(order, w, a, b, o);
    var w2 := Next(order, Next(order, w, Begin(a, o)), Proceed(a));
    BothGone(order, w2, a, b);
    FiveSteps(order, w, Begin(a, o), Proceed(a), Delete(b), Proceed(a), Proceed(a));
  }

  lemma GuardCountsOnPeer(order: Order, w: World, a: string, b: string, o: Outcomes)
    requires a in w.nodes && w.running == map[] && Quick(o.deletion)
    requires var n := w.nodes[a];
             && n.spec.role == ControlPlane && n.deleting && n.finalizer && n.status.phase == Deleting && SkipDrain(n)
             && n.spec.clusterRef in w.clusters && LivePeer(w, a, n.spec.clusterRef, b)
    ensures var w2 := Next(order, Next(order, w, Begin(a, o)), Proceed(a));
            var n := w.nodes[a];
            w2.nodes == w.nodes && w2.running == map[a := Running(n.uid, n.spec.clusterRef, true, true, [CleanupStarted, FinalizerRemoved])]
  {
    hide Plan, FilterExclude;
    var n := w.nodes[a];
    QuickPlan(order, n, o);
    var w1 := Next(order, w, Begin(a, o));
    assert w1.running == map[a := Running(n.uid, n.spec.clusterRef, true, true, [GuardPassed(false), CleanupStarted, FinalizerRemoved])];
    assert LivePeer(w1, a, n.spec.clusterRef, b);
    assert Enabled(w1, a, w1.running[a], GuardPassed(false));
  }

  lemma BothGone(order: Order, w: World, a: string, b: string)
    requires w.nodes.Keys == {a, b} && a != b && w.nodes[a].deleting && w.nodes[a].finalizer && !w.nodes[b].finalizer
    requires a in w.running && w.running[a].uid == w.nodes[a].uid && w.running[a].todo == [CleanupStarted, FinalizerRemoved]
    ensures Next(order, Next(order, Next(order, w, Delete(b)), Proceed(a)), Proceed(a)).nodes == map[]
  {
    var w3 := Next(order, w, Delete(b));
    assert w3.nodes == map[a := w.nodes[a]];
    Vanishing(order, w3, a);
  }

  lemma Vanishing(order: Order, w: World, a: string)
    requires w.nodes.Keys == {a} && w.nodes[a].deleting && w.nodes[a].finalizer
    requires a in w.running && w.running[a].uid == w.nodes[a].uid && w.running[a].todo == [CleanupStarted, FinalizerRemoved]
    ensures Next(order, Next(order, w, Proceed(a)), Proceed(a)).nodes == map[]
  {
    hide Plan, Destructive, Asks;
    var w' := Next(order, w, Proceed(a));
    assert w'.nodes == w.nodes && w'.running[a].todo == [FinalizerRemoved];
    assert Next(order, w', Proceed(a)).nodes.Keys == {};
  }

  lemma QuickPlan(order: Order, n: Node, o: Outcomes)
    requires n.spec.role == ControlPlane && n.deleting && n.finalizer && n.status.phase == Deleting && SkipDrain(n) && Quick(o.deletion)
    ensures Plan(order, n, o) == [GuardPassed(false), CleanupStarted, FinalizerRemoved]
  {
  }

  lemma FiveSteps(order: Order, w: World, a: Step, b: Step, c: Step, d: Step, e: Step)
    ensures Run(order, w, [a, b, c, d, e]) == Next(order, Next(order, Next(order, Next(order, Next(order, w, a), b), c), d), e)
  {
    hide Next, Run;
    assert [a, b, c, d, e] == [a] + ([b] + ([c] + ([d] + ([e] + []))));
    var w1 := Next(order, w, a);
    var w2 := Next(order, w1, b);
    var w3 := Next(order, w2, c);
    var w4 := Next(order, w3, d);
    RunCons(order, w, a, [b] + ([c] + ([d] + ([e] + []))));
    RunCons(order, w1, b, [c] + ([d] + ([e] + [])));
    RunCons(order, w2, c, [d] + ([e] + []));
    RunCons(order, w3, d, [e] + []);
    RunCons(order, w4, e, []);
    RunCons(order, Next(order, w4, e), e, []);
  }
}
