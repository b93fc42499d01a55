// Bootstrapping a cluster: any number of TalosClusterBootstrap objects, created and deleted
// at will, reconciled by one worker that may stop after any write or RPC.
module Bootstrap {
  import opened Dialer
  import opened Options
  import opened Conditions

  datatype Phase = Unset | WaitingForNodes | Bootstrapping | WaitingForKubeconfig | WaitingForAPIServer | Completed | Errored
  datatype CondType = Bootstrapped | KubeconfigAvailable | APIServerReady
  datatype BootStatus = BootStatus(phase: Phase, observedGeneration: int, conditions: map<CondType, Status>, retryCount: nat)
  datatype Boot = Boot(clusterRef: string, generation: int, status: BootStatus, finalizer: bool, deleting: bool)

  datatype Event =
    | FinalizerAdded
    | StatusWritten(status: BootStatus)
    | BootstrapSent(ip: string, reached: bool)
    | KubeconfigCreated(content: nat)
    | KubeconfigDeleted
    | FinalizerRemoved

  // What the reconcile looks at in a TalosNode.
  datatype NodeRef = NodeRef(clusterRef: string, controlPlane: bool, ready: bool)

  // The Bootstrap RPC: answered (started, or already done), or lost after or before it
  // reached the machine, with a cancelled context or another error.
  datatype Rpc = Answered | ReplyLost(cancelled: bool) | NotReached(cancelled: bool)
  datatype Fetch = Fetched(content: nat) | FetchFailed | FetchCancelled

  datatype Outcomes = Outcomes(
    addFinalizer: bool, clusterRead: bool, nodes: Option<seq<NodeRef>>, waitStatus: bool,
    startStatus: bool, talosconfig: bool, reachable: set<string>, dialCancelled: bool,
    rpc: Rpc, bootStatus: bool, fetch: Fetch, retryStatus: bool, save: bool, kubeStatus: bool,
    secretRead: bool, probe: bool, probeStatus: bool, doneStatus: bool, errorStatus: bool,
    secretDelete: bool, removeFinalizer: bool)

  // ----- The plan of one reconcile -----

  predicate IsUpToDate(b: Boot)
  {
    b.status.phase == Completed && b.status.observedGeneration == b.generation && Has(b.status.conditions, APIServerReady, True)
  }

  function SetCond(s: BootStatus, t: CondType, v: Status): BootStatus
  {
    s.(conditions := s.conditions[t := v])
  }

  function StartedStatus(b: Boot): BootStatus
  {
    var s := b.status.(observedGeneration := b.generation, phase := Bootstrapping);
    var t := if Has(b.status.conditions, Bootstrapped, True) then s else SetCond(s, Bootstrapped, False);
    SetCond(t, KubeconfigAvailable, False)
  }

  function RetryStatus(s: BootStatus): BootStatus
  {
    SetCond(s.(retryCount := s.retryCount + 1, phase := WaitingForKubeconfig), KubeconfigAvailable, False)
  }

  function ProbingStatus(s: BootStatus): BootStatus
  {
    SetCond(s.(phase := WaitingForAPIServer), APIServerReady, False)
  }

  function CompletedStatus(s: BootStatus): BootStatus
  {
    SetCond(s.(phase := Completed, retryCount := 0), APIServerReady, True)
  }

  function ErrorPlan(s: BootStatus, o: Outcomes): seq<Event>
  {
    if o.errorStatus then [StatusWritten(s.(phase := Errored, retryCount := s.retryCount + 1))] else []
  }

  predicate IsReadyControlPlane(n: NodeRef, clusterRef: string)
  {
    n.clusterRef == clusterRef && n.controlPlane && n.ready
  }

  function ReadyCount(nodes: seq<NodeRef>, clusterRef: string): nat
    decreases |nodes|
  {
    if nodes == [] then 0
    else ReadyCount(nodes[..|nodes| - 1], clusterRef) + if IsReadyControlPlane(nodes[|nodes| - 1], clusterRef) then 1 else 0
  }

  // Only the first endpoint may be bootstrapped; the kubeconfig can come from any of them.
  function Target(already: bool, endpoints: seq<string>, reachable: set<string>): Option<string>
    requires endpoints != []
  {
    if already then DialAny(endpoints, reachable)
    else if endpoints[0] in reachable then Some(endpoints[0]) else None
  }

  function Plan(b: Boot, endpoints: Option<seq<string>>, kubeconfig: bool, o: Outcomes): seq<Event>
  {
    if b.deleting then DeletionPlan(b, endpoints, kubeconfig, o)
    else if b.finalizer then ActivePlan(b, endpoints, kubeconfig, o)
    else if !o.addFinalizer then []
    else [FinalizerAdded] + ActivePlan(b.(finalizer := true), endpoints, kubeconfig, o)
  }

  function ActivePlan(b: Boot, endpoints: Option<seq<string>>, kubeconfig: bool, o: Outcomes): seq<Event>
  {
    if IsUpToDate(b) then []
    else if !o.clusterRead || endpoints.None? || endpoints.value == [] || o.nodes.None? then ErrorPlan(b.status, o)
    else if ReadyCount(o.nodes.value, b.clusterRef) == 0 then
      var s := b.status.(phase := WaitingForNodes);
      if o.waitStatus then [StatusWritten(s)] else ErrorPlan(s, o)
    else if Has(b.status.conditions, KubeconfigAvailable, True) then ProbePlan(b.status, kubeconfig, o)
    else if !o.startStatus then []
    else [StatusWritten(StartedStatus(b))] + ConnectPlan(StartedStatus(b), endpoints.value, o)
  }

  function ConnectPlan(s: BootStatus, endpoints: seq<string>, o: Outcomes): seq<Event>
    requires endpoints != []
  {
    var already := Has(s.conditions, Bootstrapped, True);
    var target := Target(already, endpoints, o.reachable);
    if !o.talosconfig then ErrorPlan(s, o)
    else if target.None? then if o.dialCancelled then [] else ErrorPlan(s, o)
    else if already then FetchPlan(s, o)
    else RpcPlan(s, target.value, o)
  }

  function RpcPlan(s: BootStatus, target: string, o: Outcomes): seq<Event>
  {
    match o.rpc
    case Answered =>
      var s' := SetCond(s, Bootstrapped, True);
      [BootstrapSent(target, true)] + if o.bootStatus then [StatusWritten(s')] + FetchPlan(s', o) else []
    case ReplyLost(cancelled) => [BootstrapSent(target, true)] + if cancelled then [] else ErrorPlan(s, o)
    case NotReached(cancelled) => [BootstrapSent(target, false)] + if cancelled then [] else ErrorPlan(s, o)
  }

  function FetchPlan(s: BootStatus, o: Outcomes): seq<Event>
  {
    match o.fetch
    case FetchCancelled => []
    case FetchFailed => if o.retryStatus then [StatusWritten(RetryStatus(s))] else []
    case Fetched(content) =>
      if !o.save then ErrorPlan(s, o)
      else
        var s' := SetCond(s, KubeconfigAvailable, True);
        [KubeconfigCreated(content)] + if o.kubeStatus then [StatusWritten(s')] + ProbePlan(s', true, o) else []
  }

  function ProbePlan(s: BootStatus, kubeconfig: bool, o: Outcomes): seq<Event>
  {
    if !kubeconfig || !o.secretRead then ErrorPlan(s, o)
    else if !o.probe then if o.probeStatus then [StatusWritten(ProbingStatus(s))] else []
    else if o.doneStatus then [StatusWritten(CompletedStatus(s))] else []
  }

  function DeletionPlan(b: Boot, endpoints: Option<seq<string>>, kubeconfig: bool, o: Outcomes): seq<Event>
  {
    var last := if o.removeFinalizer then [FinalizerRemoved] else [];
    if !b.finalizer then []
    else if o.clusterRead && endpoints.Some? && kubeconfig && o.secretRead then
      if o.secretDelete then [KubeconfigDeleted] + last else []
    else last
  }

  // ----- The world -----

  datatype World = World(
    endpoints: Option<seq<string>>,  // of the cluster object, if it exists
    kubeconfig: Option<nat>,         // the content of the kubeconfig secret, if it exists
    boots: map<nat, Boot>, used: set<nat>,
    etcd: set<string>,               // machines that are etcd members
    formed: seq<string>,             // machines on which a new etcd cluster was started
    created: nat, deleted: nat,      // kubeconfig secrets created and deleted by reconciles
    lateRpcs: nat,                   // Bootstrap RPCs sent by an object with Bootstrapped=True persisted
    strayRpcs: nat)                  // Bootstrap RPCs sent to anything but the first endpoint

  predicate Is(w: World, uid: nat, t: CondType)
  {
    uid in w.boots && Has(w.boots[uid].status.conditions, t, True)
  }

  predicate IsFirst(w: World, ip: string)
  {
    w.endpoints.Some? && w.endpoints.value != [] && w.endpoints.value[0] == ip
  }

  function Apply(w: World, uid: nat, e: Event): World
    requires uid in w.boots
  {
    var b := w.boots[uid];
    match e
    case FinalizerAdded => w.(boots := w.boots[uid := b.(finalizer := true)])
    case StatusWritten(s) => w.(boots := w.boots[uid := b.(status := s)])
    case BootstrapSent(ip, reached) =>
      var w' := w.(lateRpcs := w.lateRpcs + (if Is(w, uid, Bootstrapped) then 1 else 0),
                   strayRpcs := w.strayRpcs + (if IsFirst(w, ip) then 0 else 1));
      if reached && ip !in w.etcd then w'.(etcd := w.etcd + {ip}, formed := w.formed + [ip]) else w'
    case KubeconfigCreated(content) =>
      if w.kubeconfig.Some? then w else w.(kubeconfig := Some(content), created := w.created + 1)
    case KubeconfigDeleted =>
      w.(kubeconfig := None, deleted := w.deleted + if w.kubeconfig.Some? then 1 else 0)
    case FinalizerRemoved => w.(boots := w.boots - {uid})
  }

  // The writes of one object's reconcile; once it is gone there is nothing left to write to.
  function After(w: World, uid: nat, es: seq<Event>): World
    decreases |es|
  {
    if es == [] || uid !in w.boots then w else After(Apply(w, uid, es[0]), uid, es[1..])
  }

  datatype Step =
    | Create(uid: nat, clusterRef: string)
    | Delete(uid: nat)
    | Edit(uid: nat)
    | SetEndpoints(endpoints: Option<seq<string>>)
    | Join(ip: string)            // another control plane joins the running etcd cluster
    | Leave(ip: string)           // a machine leaves etcd
    | Repoint(content: nat)       // a node deletion rewrites the kubeconfig in place
    | Pass(uid: nat, o: Outcomes, cut: nat)

  const NO_STATUS := BootStatus(Unset, 0, map[], 0)

  function Next(w: World, step: Step): World
  {
    match step
    case Create(uid, ref) =>
      if uid in w.used then w else w.(used := w.used + {uid}, boots := w.boots[uid := Boot(ref, 1, NO_STATUS, false, false)])
    case Delete(uid) =>
      if uid !in w.boots then w
      else if !w.boots[uid].finalizer then w.(boots := w.boots - {uid})
      else w.(boots := w.boots[uid := w.boots[uid].(deleting := true)])
    case Edit(uid) =>
      if uid !in w.boots then w else w.(boots := w.boots[uid := w.boots[uid].(generation := w.boots[uid].generation + 1)])
    case SetEndpoints(endpoints) => w.(endpoints := endpoints)
    case Join(ip) => if w.formed == [] then w else w.(etcd := w.etcd + {ip})
    case Leave(ip) => w.(etcd := w.etcd - {ip})
    case Repoint(content) => if w.kubeconfig.None? then w else w.(kubeconfig := Some(content))
    case Pass(uid, o, cut) =>
      if uid !in w.boots then w
      else
        var plan := Plan(w.boots[uid], w.endpoints, w.kubeconfig.Some?, o);
        After(w, uid, if cut <= |plan| then plan[..cut] else plan)
  }

  // Once an etcd cluster is running, the first endpoint stays one of its members.
  predicate Legal(w: World, step: Step)
  {
    w.formed != [] ==>
      match step
      case SetEndpoints(endpoints) => endpoints.Some? && endpoints.value != [] ==> endpoints.value[0] in w.etcd
      case Leave(ip) => !IsFirst(w, ip)
      case _ => true
  }

  function Run(w: World, steps: seq<Step>): World
    decreases |steps|
  {
    if steps == [] then w else Run(Next(w, steps[0]), steps[1..])
  }

  predicate LegalRun(w: World, steps: seq<Step>)
    decreases |steps|
  {
    steps != [] ==> Legal(w, steps[0]) && LegalRun(Next(w, steps[0]), steps[1..])
  }

  predicate Empty(w: World)
  {
    && w.boots == map[] && w.kubeconfig.None? && w.etcd == {} && w.formed == []
    && w.created == 0 && w.deleted == 0 && w.lateRpcs == 0 && w.strayRpcs == 0
  }

  // ----- What a reconcile may do -----

  // APIServerReady needs KubeconfigAvailable needs Bootstrapped; Completed needs all three.
  predicate Chain(s: BootStatus)
  {
    && (Has(s.conditions, APIServerReady, True) ==> Has(s.conditions, KubeconfigAvailable, True))
    && (Has(s.conditions, KubeconfigAvailable, True) ==> Has(s.conditions, Bootstrapped, True))
    && (s.phase == Completed ==> Has(s.conditions, APIServerReady, True))
  }

  // Bootstrapped and KubeconfigAvailable never revert.
  predicate Progress(s: BootStatus, t: BootStatus)
  {
    && (Has(s.conditions, Bootstrapped, True) ==> Has(t.conditions, Bootstrapped, True))
    && (Has(s.conditions, KubeconfigAvailable, True) ==> Has(t.conditions, KubeconfigAvailable, True))
  }

  // The generation seen never runs ahead, and once the kubeconfig is stored it stands still.
  predicate Observes(b: Boot, t: BootStatus)
  {
    && t.observedGeneration <= b.generation
    && (Has(b.status.conditions, KubeconfigAvailable, True) ==> t.observedGeneration == b.status.observedGeneration)
  }

  predicate Allowed(w: World, uid: nat, e: Event)
    requires uid in w.boots
  {
    var s := w.boots[uid].status;
    match e
    case FinalizerAdded => true
    case StatusWritten(t) =>
      && Chain(t) && Progress(s, t) && Observes(w.boots[uid], t)
      && (Has(t.conditions, KubeconfigAvailable, True) ==> Has(s.conditions, KubeconfigAvailable, True) || w.kubeconfig.Some?)
    case BootstrapSent(ip, _) => !Is(w, uid, Bootstrapped) && IsFirst(w, ip)
    case KubeconfigCreated(_) => Is(w, uid, Bootstrapped)
    case KubeconfigDeleted => w.boots[uid].deleting
    case FinalizerRemoved => w.boots[uid].deleting
  }

  predicate AllAllowed(w: World, uid: nat, es: seq<Event>)
    decreases |es|
  {
    es != [] && uid in w.boots ==> Allowed(w, uid, es[0]) && AllAllowed(Apply(w, uid, es[0]), uid, es[1..])
  }

  lemma AllowedCons(w: World, uid: nat, e: Event, es: seq<Event>)
    requires uid in w.boots && Allowed(w, uid, e) && AllAllowed(Apply(w, uid, e), uid, es)
    ensures AllAllowed(w, uid, [e] + es)
  {
    hide Allowed, Apply;
    assert ([e] + es)[1..] == es;
  }

  lemma AllowedOne(w: World, uid: nat, e: Event)
    requires uid in w.boots && Allowed(w, uid, e)
    ensures AllAllowed(w, uid, [e])
  {
    hide Allowed, Apply;
    assert [e][1..] == [];
  }

  // The in-memory status s of a reconcile is consistent with the stored one.
  predicate Holds(w: World, uid: nat, s: BootStatus)
  {
    && uid in w.boots && Chain(s) && Progress(w.boots[uid].status, s) && Progress(s, w.boots[uid].status)
    && s.observedGeneration == w.boots[uid].status.observedGeneration && s.observedGeneration <= w.boots[uid].generation
  }

  lemma ErrorIsAllowed(w: World, uid: nat, s: BootStatus, o: Outcomes)
    requires Holds(w, uid, s)
    ensures AllAllowed(w, uid, ErrorPlan(s, o))
  {
    if o.errorStatus { AllowedOne(w, uid, ErrorPlan(s, o)[0]); }
  }

  lemma ProbeIsAllowed(w: World, uid: nat, s: BootStatus, kubeconfig: bool, o: Outcomes)
    requires Holds(w, uid, s) && Has(s.conditions, KubeconfigAvailable, True)
    ensures AllAllowed(w, uid, ProbePlan(s, kubeconfig, o))
  {
    hide AllAllowed;
    ErrorIsAllowed(w, uid, s, o);
    NothingIsAllowed(w, uid);
    assert Allowed(w, uid, StatusWritten(ProbingStatus(s)));
    assert Allowed(w, uid, StatusWritten(CompletedStatus(s)));
    AllowedOne(w, uid, StatusWritten(ProbingStatus(s)));
    AllowedOne(w, uid, StatusWritten(CompletedStatus(s)));
  }

  lemma NothingIsAllowed(w: World, uid: nat)
    ensures AllAllowed(w, uid, [])
  {
  }

  lemma FetchIsAllowed(w: World, uid: nat, s: BootStatus, o: Outcomes)
    requires Holds(w, uid, s) && Has(s.conditions, Bootstrapped, True) && !Has(s.conditions, KubeconfigAvailable, True)
    requires s.phase != Completed
    ensures AllAllowed(w, uid, FetchPlan(s, o))
  {
    hide AllAllowed, ProbePlan;
    ErrorIsAllowed(w, uid, s, o);
    NothingIsAllowed(w, uid);
    match o.fetch
    case FetchCancelled =>
    case FetchFailed => AllowedOne(w, uid, StatusWritten(RetryStatus(s)));
    case Fetched(content) =>
      if o.save {
        var s' := SetCond(s, KubeconfigAvailable, True);
        var e := KubeconfigCreated(content);
        var w1 := Apply(w, uid, e);
        NothingIsAllowed(w1, uid);
        var w2 := Apply(w1, uid, StatusWritten(s'));
        ProbeIsAllowed(w2, uid, s', true, o);
        AllowedCons(w1, uid, StatusWritten(s'), ProbePlan(s', true, o));
        AllowedCons(w, uid, e, if o.kubeStatus then [StatusWritten(s')] + ProbePlan(s', true, o) else []);
      }
  }

  lemma RpcIsAllowed(w: World, uid: nat, s: BootStatus, target: string, o: Outcomes)
    requires Holds(w, uid, s) && !Has(s.conditions, Bootstrapped, True) && s.phase != Completed
    requires IsFirst(w, target)
    ensures AllAllowed(w, uid, RpcPlan(s, target, o))
  {
    hide AllAllowed, FetchPlan, ErrorPlan;
    var e := BootstrapSent(target, !o.rpc.NotReached?);
    var w1 := Apply(w, uid, e);
    NothingIsAllowed(w1, uid);
    ErrorIsAllowed(w1, uid, s, o);
    var s' := SetCond(s, Bootstrapped, True);
    var w2 := Apply(w1, uid, StatusWritten(s'));
    FetchIsAllowed(w2, uid, s', o);
    AllowedCons(w1, uid, StatusWritten(s'), FetchPlan(s', o));
    AllowedCons(w, uid, e, match o.rpc
                           case Answered => if o.bootStatus then [StatusWritten(s')] + FetchPlan(s', o) else []
                           case _ => if o.rpc.cancelled then [] else ErrorPlan(s, o));
  }

  lemma ConnectIsAllowed(w: World, uid: nat, s: BootStatus, o: Outcomes)
    requires Holds(w, uid, s) && !Has(s.conditions, KubeconfigAvailable, True) && s.phase != Completed
    requires w.endpoints.Some? && w.endpoints.value != []
    ensures AllAllowed(w, uid, ConnectPlan(s, w.endpoints.value, o))
  {
    hide AllAllowed, FetchPlan, RpcPlan, ErrorPlan;
    ErrorIsAllowed(w, uid, s, o);
    NothingIsAllowed(w, uid);
    if Has(s.conditions, Bootstrapped, True) {
      FetchIsAllowed(w, uid, s, o);
    } else {
      RpcIsAllowed(w, uid, s, w.endpoints.value[0], o);
    }
  }

  lemma ActiveIsAllowed(w: World, uid: nat, o: Outcomes)
    requires uid in w.boots && Sane(w.boots[uid])
    ensures AllAllowed(w, uid, ActivePlan(w.boots[uid], w.endpoints, w.kubeconfig.Some?, o))
  {
    hide AllAllowed, ConnectPlan, ProbePlan, ErrorPlan;
    var b := w.boots[uid];
    NothingIsAllowed(w, uid);
    ErrorIsAllowed(w, uid, b.status, o);
    var waiting := b.status.(phase := WaitingForNodes);
    ErrorIsAllowed(w, uid, waiting, o);
    AllowedOne(w, uid, StatusWritten(waiting));
    if Has(b.status.conditions, KubeconfigAvailable, True) {
      ProbeIsAllowed(w, uid, b.status, w.kubeconfig.Some?, o);
    } else if w.endpoints.Some? && w.endpoints.value != [] {
      var s := StartedStatus(b);
      var w1 := Apply(w, uid, StatusWritten(s));
      ConnectIsAllowed(w1, uid, s, o);
      AllowedCons(w, uid, StatusWritten(s), ConnectPlan(s, w.endpoints.value, o));
    }
  }

  lemma DeletionIsAllowed(w: World, uid: nat, o: Outcomes)
    requires uid in w.boots && w.boots[uid].deleting
    ensures AllAllowed(w, uid, DeletionPlan(w.boots[uid], w.endpoints, w.kubeconfig.Some?, o))
  {
    hide AllAllowed;
    var last := if o.removeFinalizer then [FinalizerRemoved] else [];
    var w1 := Apply(w, uid, KubeconfigDeleted);
    NothingIsAllowed(w, uid);
    NothingIsAllowed(w1, uid);
    AllowedOne(w, uid, FinalizerRemoved);
    AllowedOne(w1, uid, FinalizerRemoved);
    AllowedCons(w, uid, KubeconfigDeleted, last);
  }

  lemma PlanIsAllowed(w: World, uid: nat, o: Outcomes)
    requires uid in w.boots && Sane(w.boots[uid])
    ensures AllAllowed(w, uid, Plan(w.boots[uid], w.endpoints, w.kubeconfig.Some?, o))
  {
    hide AllAllowed, ActivePlan, DeletionPlan;
    var b := w.boots[uid];
    NothingIsAllowed(w, uid);
    if b.deleting {
      DeletionIsAllowed(w, uid, o);
    } else if b.finalizer {
      ActiveIsAllowed(w, uid, o);
    } else {
      var w1 := Apply(w, uid, FinalizerAdded);
      ActiveIsAllowed(w1, uid, o);
      AllowedCons(w, uid, FinalizerAdded, ActivePlan(w1.boots[uid], w1.endpoints, w1.kubeconfig.Some?, o));
    }
  }

  // ----- Invariants -----

  predicate Sane(b: Boot)
  {
    Chain(b.status) && b.status.observedGeneration <= b.generation
  }

  // What holds in every run.
  predicate Core(w: World)
  {
    && w.lateRpcs == 0 && w.strayRpcs == 0
    && w.created == w.deleted + (if w.kubeconfig.Some? then 1 else 0)
    && w.boots.Keys <= w.used
    && forall uid :: uid in w.boots ==> Sane(w.boots[uid]) && (Is(w, uid, KubeconfigAvailable) && w.deleted == 0 ==> w.kubeconfig.Some?)
  }

  // What holds as long as the first endpoint stays a member.
  predicate OneCluster(w: World)
  {
    && |w.formed| <= 1
    && (w.formed != [] && w.endpoints.Some? && w.endpoints.value != [] ==> w.endpoints.value[0] in w.etcd)
  }

  predicate Inv(w: World)
  {
    Core(w) && OneCluster(w)
  }

  lemma AllowedKeepsInv(w: World, uid: nat, e: Event)
    requires Core(w) && uid in w.boots && Allowed(w, uid, e)
    ensures Core(Apply(w, uid, e)) && (OneCluster(w) ==> OneCluster(Apply(w, uid, e)))
  {
  }

  lemma {:induction false} AfterKeepsInv(w: World, uid: nat, es: seq<Event>, cut: nat)
    requires Core(w) && AllAllowed(w, uid, es) && cut <= |es|
    ensures Core(After(w, uid, es[..cut])) && (OneCluster(w) ==> OneCluster(After(w, uid, es[..cut])))
    decreases cut
  {
    hide Core, OneCluster, Allowed, Apply;
    if cut > 0 && uid in w.boots {
      AllowedKeepsInv(w, uid, es[0]);
      AfterKeepsInv(Apply(w, uid, es[0]), uid, es[1..], cut - 1);
      assert es[..cut][1..] == es[1..][..cut - 1];
    }
  }

  lemma PassKeepsInv(w: World, uid: nat, o: Outcomes, cut: nat)
    requires Core(w) && uid in w.boots && Sane(w.boots[uid])
    ensures var w' := Next(w, Pass(uid, o, cut)); Core(w') && (OneCluster(w) ==> OneCluster(w'))
  {
    hide Core, OneCluster, Plan, AllAllowed, After;
    var plan := Plan(w.boots[uid], w.endpoints, w.kubeconfig.Some?, o);
    PlanIsAllowed(w, uid, o);
    AfterKeepsInv(w, uid, plan, if cut <= |plan| then cut else |plan|);
    assert plan[..|plan|] == plan;
  }

  lemma StepKeepsInv(w: World, step: Step)
    requires Core(w)
    ensures Core(Next(w, step)) && (OneCluster(w) && Legal(w, step) ==> OneCluster(Next(w, step)))
  {
    if step.Pass? && step.uid in w.boots {
      PassKeepsInv(w, step.uid, step.o, step.cut);
    }
  }

  lemma {:induction false} RunKeepsCore(w: World, steps: seq<Step>)
    requires Core(w)
    ensures Core(Run(w, steps))
    decreases |steps|
  {
    hide Core, Next;
    if steps != [] {
      StepKeepsInv(w, steps[0]);
      RunKeepsCore(Next(w, steps[0]), steps[1..]);
    }
  }

  lemma {:induction false} RunKeepsInv(w: World, steps: seq<Step>)
    requires Inv(w) && LegalRun(w, steps)
    ensures Inv(Run(w, steps))
    decreases |steps|
  {
    hide Core, OneCluster, Next, Legal;
    if steps != [] {
      StepKeepsInv(w, steps[0]);
      RunKeepsInv(Next(w, steps[0]), steps[1..]);
    }
  }
}
