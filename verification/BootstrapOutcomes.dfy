// Where a bootstrap pass leads: Completed needs a successful probe of the API server, and comes of one.
module BootstrapOutcomes {
  import opened Options
  import opened Conditions
  import opened Bootstrap
  import opened Dialer

  // ----- Nothing counts as ready before the API server answered -----

  // The object shows its cluster as usable.
  predicate Claims(s: BootStatus)
  {
    s.phase == Completed || Has(s.conditions, APIServerReady, True)
  }

  // The pass read the kubeconfig and reached the API server with it.
  predicate Reached(o: Outcomes)
  {
    o.secretRead && o.probe
  }

  // What the events claim beyond the status s rests on a successful probe.
  predicate Earned(es: seq<Event>, s: BootStatus, reached: bool)
  {
    forall e :: e in es && e.StatusWritten? ==>
                  && (e.status.phase == Completed ==> s.phase == Completed || reached)
                  && (Has(e.status.conditions, APIServerReady, True) ==> Has(s.conditions, APIServerReady, True) || reached)
  }

  lemma ProbeEarns(s: BootStatus, kubeconfig: bool, o: Outcomes)
    ensures Earned(ProbePlan(s, kubeconfig, o), s.(phase := Unset), Reached(o))
    ensures Earned(ErrorPlan(s, o), s.(phase := Unset), Reached(o))
  {
  }

  lemma FetchEarns(s: BootStatus, o: Outcomes)
    ensures Earned(FetchPlan(s, o), s, Reached(o))
  {
    ProbeEarns(s, true, o);
    ProbeEarns(SetCond(s, KubeconfigAvailable, True), true, o);
    hide ProbePlan, ErrorPlan;
  }

  lemma ConnectEarns(s: BootStatus, endpoints: seq<string>, o: Outcomes)
    requires endpoints != []
    ensures Earned(ConnectPlan(s, endpoints, o), s, Reached(o))
  {
    ProbeEarns(s, true, o);
    FetchEarns(s, o);
    FetchEarns(SetCond(s, Bootstrapped, True), o);
    hide FetchPlan, ErrorPlan;
  }

  // A pass writes phase Completed, or turns APIServerReady true, only when it read the kubeconfig
  // secret and its probe succeeded.
  lemma ReadyNeedsProbe(b: Boot, endpoints: Option<seq<string>>, kubeconfig: bool, o: Outcomes, t: BootStatus)
    requires StatusWritten(t) in Plan(b, endpoints, kubeconfig, o)
    ensures t.phase == Completed ==> o.secretRead && o.probe
    ensures Has(t.conditions, APIServerReady, True) && !Has(b.status.conditions, APIServerReady, True) ==> o.secretRead && o.probe
  {
    var waiting := b.status.(phase := WaitingForNodes);
    ProbeEarns(b.status, kubeconfig, o);
    ProbeEarns(waiting, kubeconfig, o);
    if endpoints.Some? && endpoints.value != [] { ConnectEarns(StartedStatus(b), endpoints.value, o); }
    hide ConnectPlan, ProbePlan, ErrorPlan;
    assert b.deleting ==> StatusWritten(t) !in DeletionPlan(b, endpoints, kubeconfig, o);
  }

  predicate ClaimsOnlyIf(es: seq<Event>, before: bool, reached: bool)
  {
    forall e :: e in es && e.StatusWritten? && Claims(e.status) ==> before || reached
  }

  lemma PlanClaims(b: Boot, endpoints: Option<seq<string>>, kubeconfig: bool, o: Outcomes)
    ensures ClaimsOnlyIf(Plan(b, endpoints, kubeconfig, o), Claims(b.status), Reached(o))
  {
    hide Plan;
    forall e | e in Plan(b, endpoints, kubeconfig, o) && e.StatusWritten? && Claims(e.status) ensures Claims(b.status) || Reached(o) {
      ReadyNeedsProbe(b, endpoints, kubeconfig, o, e.status);
    }
  }

  // The events of one object's pass, with what they leave of all objects.
  lemma {:induction false} AfterClaims(w: World, uid: nat, es: seq<Event>, before: bool, reached: bool, other: nat)
    requires ClaimsOnlyIf(es, before, reached) && (uid in w.boots && Claims(w.boots[uid].status) ==> before || reached)
    ensures var w' := After(w, uid, es);
            && (uid in w'.boots ==> uid in w.boots && (Claims(w'.boots[uid].status) ==> before || reached))
            && (other != uid ==> (other in w'.boots <==> other in w.boots) && (other in w.boots ==> w'.boots[other] == w.boots[other]))
    decreases |es|
  {
    hide Claims;
    if es != [] && uid in w.boots {
      assert es[0] in es && forall e :: e in es[1..] ==> e in es;
      AfterClaims(Apply(w, uid, es[0]), uid, es[1..], before, reached, other);
    }
  }

  lemma StepClaims(w: World, step: Step, uid: nat)
    requires uid in Next(w, step).boots && Claims(Next(w, step).boots[uid].status)
    ensures uid in w.boots
    ensures Claims(w.boots[uid].status) || (step.Pass? && step.uid == uid && Reached(step.o))
  {
    if step.Pass? && step.uid in w.boots {
      hide Plan, After, Claims;
      var b := w.boots[step.uid];
      var plan := Plan(b, w.endpoints, w.kubeconfig.Some?, step.o);
      var es := if step.cut <= |plan| then plan[..step.cut] else plan;
      PlanClaims(b, w.endpoints, w.kubeconfig.Some?, step.o);
      assert forall e :: e in es ==> e in plan;
      AfterClaims(w, step.uid, es, Claims(b.status), Reached(step.o), uid);
    }
  }

  // In every run an object that is Completed or APIServerReady=True has had a pass that read the
  // kubeconfig secret and reached the API server, since it last was neither.
  lemma {:induction false} ClaimsWereProbed(w: World, steps: seq<Step>, uid: nat)
    requires uid in Run(w, steps).boots && Claims(Run(w, steps).boots[uid].status)
    requires uid !in w.boots || !Claims(w.boots[uid].status)
    ensures exists i :: 0 <= i < |steps| && steps[i].Pass? && steps[i].uid == uid && Reached(steps[i].o)
    decreases |steps|
  {
    hide Next, Claims;
    if steps != [] {
      var w1 := Next(w, steps[0]);
      if uid in w1.boots && Claims(w1.boots[uid].status) {
        StepClaims(w, steps[0], uid);
        assert steps[0].Pass? && steps[0].uid == uid && Reached(steps[0].o);
      } else {
        ClaimsWereProbed(w1, steps[1..], uid);
        var i :| 0 <= i < |steps[1..]| && steps[1..][i].Pass? && steps[1..][i].uid == uid && Reached(steps[1..][i].o);
        assert steps[i + 1] == steps[1..][i];
      }
    }
  }

  // ----- What a pass leaves of its object -----

  function LastStatus(s: BootStatus, es: seq<Event>): BootStatus
    decreases |es|
  {
    if es == [] then s else LastStatus(if es[0].StatusWritten? then es[0].status else s, es[1..])
  }

  lemma {:induction false} BootAfter(w: World, uid: nat, es: seq<Event>)
    requires uid in w.boots && w.boots[uid].finalizer && FinalizerRemoved !in es
    ensures var w' := After(w, uid, es);
            uid in w'.boots && w'.boots[uid] == w.boots[uid].(status := LastStatus(w.boots[uid].status, es))
    decreases |es|
  {
    if es != [] {
      assert es[0] in es && forall e :: e in es[1..] ==> e in es;
      BootAfter(Apply(w, uid, es[0]), uid, es[1..]);
    }
  }

  lemma LastCons(s: BootStatus, e: Event, es: seq<Event>)
    ensures LastStatus(s, [e] + es) == LastStatus(if e.StatusWritten? then e.status else s, es) && LastStatus(s, []) == s
    ensures LastStatus(s, [e]) == if e.StatusWritten? then e.status else s
  {
    assert ([e] + es)[1..] == es && [e][1..] == [];
  }

  lemma {:induction false} ReadyCountIs(nodes: seq<NodeRef>, clusterRef: string)
    ensures ReadyCount(nodes, clusterRef) > 0 <==> exists n :: n in nodes && n.clusterRef == clusterRef && n.controlPlane && n.ready
    decreases |nodes|
  {
    if nodes != [] {
      var front, last := nodes[..|nodes| - 1], nodes[|nodes| - 1];
      ReadyCountIs(front, clusterRef);
      assert nodes == front + [last];
    }
  }

  // ----- The Bootstrap RPC -----

  // The object gets as far as an attempt of its own: live, not done, in a cluster that was read and
  // has an endpoint and a ready control plane, the kubeconfig not stored yet.
  predicate Begins(b: Boot, endpoints: Option<seq<string>>, o: Outcomes)
  {
    && !b.deleting && (b.finalizer || o.addFinalizer)
    && !(b.status.phase == Completed && b.status.observedGeneration == b.generation && Has(b.status.conditions, APIServerReady, True))
    && o.clusterRead && endpoints.Some? && endpoints.value != [] && o.nodes.Some?
    && (exists n :: n in o.nodes.value && n.clusterRef == b.clusterRef && n.controlPlane && n.ready)
    && !Has(b.status.conditions, KubeconfigAvailable, True) && o.startStatus
  }

  // The Bootstrap RPC is sent exactly by such an object that is not bootstrapped, to the first
  // endpoint, and only if that answers.
  lemma RpcExactly(b: Boot, endpoints: Option<seq<string>>, kubeconfig: bool, o: Outcomes, ip: string, reached: bool)
    ensures BootstrapSent(ip, reached) in Plan(b, endpoints, kubeconfig, o) <==>
            && Begins(b, endpoints, o) && !Has(b.status.conditions, Bootstrapped, True) && o.talosconfig
            && endpoints.value[0] in o.reachable && ip == endpoints.value[0] && reached == !o.rpc.NotReached?
  {
    var e := BootstrapSent(ip, reached);
    assert e !in ErrorPlan(b.status, o) && e !in ErrorPlan(b.status.(phase := WaitingForNodes), o) && e !in ProbePlan(b.status, kubeconfig, o);
    if endpoints.Some? && endpoints.value != [] { ConnectSends(b, endpoints.value, o, e); }
    if o.nodes.Some? { ReadyCountIs(o.nodes.value, b.clusterRef); }
    hide ConnectPlan, ProbePlan, ErrorPlan, ReadyCount, StartedStatus;
  }

  lemma ConnectSends(b: Boot, endpoints: seq<string>, o: Outcomes, e: Event)
    requires endpoints != [] && e.BootstrapSent?
    ensures e in ConnectPlan(StartedStatus(b), endpoints, o) <==>
            && !Has(b.status.conditions, Bootstrapped, True) && o.talosconfig && endpoints[0] in o.reachable
            && e == BootstrapSent(endpoints[0], !o.rpc.NotReached?)
  {
    var s := StartedStatus(b);
    FetchSendsNothing(s, o, e);
    FetchSendsNothing(SetCond(s, Bootstrapped, True), o, e);
    hide FetchPlan, DialAny;
  }

  lemma FetchSendsNothing(s: BootStatus, o: Outcomes, e: Event)
    requires e.BootstrapSent?
    ensures e !in FetchPlan(s, o)
  {
  }

  // ----- Where a pass ends -----

  // Every status write lands, and no call is cancelled.
  predicate Lands(o: Outcomes)
  {
    && o.waitStatus && o.startStatus && o.bootStatus && o.retryStatus && o.kubeStatus && o.probeStatus && o.doneStatus && o.errorStatus
    && !o.dialCancelled && !o.fetch.FetchCancelled? && (o.rpc.Answered? || !o.rpc.cancelled)
  }

  // The first endpoint answers or, once etcd is bootstrapped, any of them.
  predicate Answers(already: bool, endpoints: seq<string>, o: Outcomes)
    requires endpoints != []
  {
    if already then exists e :: e in endpoints && e in o.reachable else endpoints[0] in o.reachable
  }

  lemma TargetAnswers(already: bool, endpoints: seq<string>, o: Outcomes)
    requires endpoints != []
    ensures Target(already, endpoints, o.reachable).Some? <==> Answers(already, endpoints, o)
  {
    if already {
      forall i | 0 <= i < |endpoints| && DialAny(endpoints, o.reachable).None? ensures endpoints[i] !in o.reachable {
        NoneAnswers(endpoints, o.reachable, i);
      }
      DialAnyIsFirst(endpoints, o.reachable, 0);
    }
  }

  lemma {:induction false} NoneAnswers(endpoints: seq<string>, reachable: set<string>, i: nat)
    requires DialAny(endpoints, reachable).None? && i < |endpoints|
    ensures endpoints[i] !in reachable
  {
    if i > 0 { NoneAnswers(endpoints[1..], reachable, i - 1); }
  }

  // The probe, from a status with the kubeconfig available.
  lemma ProbeLeaves(s: BootStatus, kubeconfig: bool, o: Outcomes)
    requires Lands(o)
    ensures var t := LastStatus(s, ProbePlan(s, kubeconfig, o));
            t == if !kubeconfig || !o.secretRead then s.(phase := Errored, retryCount := s.retryCount + 1)
                 else if !o.probe then s.(phase := WaitingForAPIServer, conditions := s.conditions[APIServerReady := False])
                 else s.(phase := Completed, conditions := s.conditions[APIServerReady := True], retryCount := 0)
    ensures LastStatus(s, ErrorPlan(s, o)) == s.(phase := Errored, retryCount := s.retryCount + 1)
  {
    LastCons(s, StatusWritten(CompletedStatus(s)), []);
    LastCons(s, StatusWritten(ProbingStatus(s)), []);
    LastCons(s, StatusWritten(s.(phase := Errored, retryCount := s.retryCount + 1)), []);
  }

  lemma FetchLeaves(s: BootStatus, o: Outcomes)
    requires Lands(o)
    ensures LastStatus(s, FetchPlan(s, o)) ==
            if o.fetch.FetchFailed? then s.(phase := WaitingForKubeconfig, conditions := s.conditions[KubeconfigAvailable := False], retryCount := s.retryCount + 1)
            else if !o.save then s.(phase := Errored, retryCount := s.retryCount + 1)
            else var s' := s.(conditions := s.conditions[KubeconfigAvailable := True]); LastStatus(s', ProbePlan(s', true, o))
  {
    hide ProbePlan;
    var s' := SetCond(s, KubeconfigAvailable, True);
    ProbeLeaves(s, true, o);
    LastCons(s, StatusWritten(RetryStatus(s)), []);
    if o.fetch.Fetched? {
      LastCons(s, KubeconfigCreated(o.fetch.content), [StatusWritten(s')] + ProbePlan(s', true, o));
      LastCons(s, StatusWritten(s'), ProbePlan(s', true, o));
    }
  }

  lemma ConnectLeaves(s: BootStatus, endpoints: seq<string>, o: Outcomes)
    requires Lands(o) && endpoints != []
    ensures var already := Has(s.conditions, Bootstrapped, True);
            LastStatus(s, ConnectPlan(s, endpoints, o)) ==
            if !o.talosconfig || !Answers(already, endpoints, o) || (!already && !o.rpc.Answered?) then s.(phase := Errored, retryCount := s.retryCount + 1)
            else var s' := s.(conditions := s.conditions[Bootstrapped := True]); LastStatus(s', FetchPlan(s', o))
  {
    hide FetchPlan, ErrorPlan, Answers, Target;
    var already, s' := Has(s.conditions, Bootstrapped, True), SetCond(s, Bootstrapped, True);
    var target := Target(already, endpoints, o.reachable);
    TargetAnswers(already, endpoints, o);
    ProbeLeaves(s, true, o);
    if target.Some? {
      var sent := BootstrapSent(target.value, !o.rpc.NotReached?);
      LastCons(s, sent, ErrorPlan(s, o));
      LastCons(s, sent, [StatusWritten(s')] + FetchPlan(s', o));
      LastCons(s, StatusWritten(s'), FetchPlan(s', o));
    }
    assert already ==> s' == s by { if already { assert s.conditions[Bootstrapped := True] == s.conditions; } }
  }

  // What a pass of the object leaves to it, from its active part.
  lemma ActiveLeaves(w: World, uid: nat, o: Outcomes, cut: nat)
    requires uid in w.boots
    requires var b := w.boots[uid];
             !b.deleting && (b.finalizer || o.addFinalizer) && |Plan(b, w.endpoints, w.kubeconfig.Some?, o)| <= cut
    ensures var b, w' := w.boots[uid], Next(w, Pass(uid, o, cut));
            && uid in w'.boots
            && w'.boots[uid] == b.(finalizer := true, status := LastStatus(b.status, ActivePlan(b, w.endpoints, w.kubeconfig.Some?, o)))
  {
    hide ActivePlan, After, Apply, LastStatus;
    var b := w.boots[uid];
    var plan := Plan(b, w.endpoints, w.kubeconfig.Some?, o);
    var rest := ActivePlan(b, w.endpoints, w.kubeconfig.Some?, o);
    var n := b.(finalizer := true);
    FinalizerMakesNoDifference(b, w.endpoints, w.kubeconfig.Some?, o);
    assert plan[..|plan|] == plan;
    if b.finalizer {
      BootAfter(w, uid, rest);
      assert n == b;
    } else {
      var w1 := Apply(w, uid, FinalizerAdded);
      assert w1 == w.(boots := w.boots[uid := n]) by { hide *; OnlyFinalizer(w, uid); }
      AfterFirst(w, uid, FinalizerAdded, rest);
      BootAfter(w1, uid, rest);
    }
  }

  lemma OnlyFinalizer(w: World, uid: nat)
    requires uid in w.boots
    ensures Apply(w, uid, FinalizerAdded) == w.(boots := w.boots[uid := w.boots[uid].(finalizer := true)])
  {
  }

  lemma AfterFirst(w: World, uid: nat, e: Event, rest: seq<Event>)
    requires uid in w.boots
    ensures After(w, uid, [e] + rest) == After(Apply(w, uid, e), uid, rest)
  {
    hide Apply;
    assert ([e] + rest)[1..] == rest;
  }

  lemma FinalizerMakesNoDifference(b: Boot, endpoints: Option<seq<string>>, kubeconfig: bool, o: Outcomes)
    ensures ActivePlan(b.(finalizer := true), endpoints, kubeconfig, o) == ActivePlan(b, endpoints, kubeconfig, o)
    ensures FinalizerRemoved !in ActivePlan(b, endpoints, kubeconfig, o)
  {
    if endpoints.Some? && endpoints.value != [] { ConnectRemovesNothing(StartedStatus(b), endpoints.value, o); }
    hide ConnectPlan, ReadyCount;
  }

  lemma ConnectRemovesNothing(s: BootStatus, endpoints: seq<string>, o: Outcomes)
    requires endpoints != []
    ensures FinalizerRemoved !in ConnectPlan(s, endpoints, o)
  {
    FetchRemovesNothing(s, o);
    FetchRemovesNothing(SetCond(s, Bootstrapped, True), o);
    hide FetchPlan, Target;
  }

  lemma FetchRemovesNothing(s: BootStatus, o: Outcomes)
    ensures FinalizerRemoved !in FetchPlan(s, o)
  {
  }

  // ----- What shows while it works -----

  // Whenever the events send the Bootstrap RPC or store the kubeconfig, the status persisted last
  // says so: phase Bootstrapping at generation g, the kubeconfig not available yet.
  predicate Shows(s: BootStatus, g: int, es: seq<Event>)
    decreases |es|
  {
    es != [] ==>
      && (es[0].BootstrapSent? || es[0].KubeconfigCreated? ==>
            s.phase == Bootstrapping && s.observedGeneration == g && !Has(s.conditions, KubeconfigAvailable, True))
      && Shows(if es[0].StatusWritten? then es[0].status else s, g, es[1..])
  }

  predicate Idle(es: seq<Event>)
  {
    forall e :: e in es ==> !e.BootstrapSent? && !e.KubeconfigCreated?
  }

  lemma {:induction false} IdleShows(s: BootStatus, g: int, es: seq<Event>)
    requires Idle(es)
    ensures Shows(s, g, es)
    decreases |es|
  {
    if es != [] {
      assert es[0] in es && forall e :: e in es[1..] ==> e in es;
      IdleShows(if es[0].StatusWritten? then es[0].status else s, g, es[1..]);
    }
  }

  lemma ShowsCons(s: BootStatus, g: int, e: Event, es: seq<Event>)
    requires e.BootstrapSent? || e.KubeconfigCreated? ==>
               s.phase == Bootstrapping && s.observedGeneration == g && !Has(s.conditions, KubeconfigAvailable, True)
    requires Shows(if e.StatusWritten? then e.status else s, g, es)
    ensures Shows(s, g, [e] + es)
  {
    assert ([e] + es)[1..] == es;
  }

  lemma FetchShows(s: BootStatus, g: int, o: Outcomes)
    requires s.phase == Bootstrapping && s.observedGeneration == g && !Has(s.conditions, KubeconfigAvailable, True)
    ensures Shows(s, g, FetchPlan(s, o))
  {
    hide Shows;
    var s' := SetCond(s, KubeconfigAvailable, True);
    var probe := ProbePlan(s', true, o);
    assert Idle(ProbePlan(s', true, o)) && Idle(ErrorPlan(s, o));
    hide ProbePlan, ErrorPlan;
    if o.fetch.Fetched? && o.save {
      var rest := if o.kubeStatus then [StatusWritten(s')] + probe else [];
      assert Idle(rest);
      IdleShows(s, g, rest);
      ShowsCons(s, g, KubeconfigCreated(o.fetch.content), rest);
    } else {
      IdleShows(s, g, FetchPlan(s, o));
    }
  }

  lemma ConnectShows(s: BootStatus, g: int, endpoints: seq<string>, o: Outcomes)
    requires endpoints != [] && s.phase == Bootstrapping && s.observedGeneration == g && !Has(s.conditions, KubeconfigAvailable, True)
    ensures Shows(s, g, ConnectPlan(s, endpoints, o))
  {
    hide Shows, FetchPlan, Target;
    var s' := SetCond(s, Bootstrapped, True);
    assert Idle(ErrorPlan(s, o)) && Idle([]);
    hide ErrorPlan;
    FetchShows(s, g, o);
    FetchShows(s', g, o);
    IdleShows(s, g, ErrorPlan(s, o));
    IdleShows(s, g, []);
    ShowsCons(s, g, StatusWritten(s'), FetchPlan(s', o));
    var target := Target(Has(s.conditions, Bootstrapped, True), endpoints, o.reachable);
    if target.Some? && !Has(s.conditions, Bootstrapped, True) {
      var rest := match o.rpc
                  case Answered => if o.bootStatus then [StatusWritten(s')] + FetchPlan(s', o) else []
                  case _ => if o.rpc.cancelled then [] else ErrorPlan(s, o);
      ShowsCons(s, g, BootstrapSent(target.value, !o.rpc.NotReached?), rest);
    }
  }

  // No RPC is sent and no kubeconfig stored before phase Bootstrapping is persisted, at the
  // generation of the object.
  lemma WorkIsShown(b: Boot, endpoints: Option<seq<string>>, kubeconfig: bool, o: Outcomes)
    ensures Shows(b.status, b.generation, Plan(b, endpoints, kubeconfig, o))
  {
    hide Shows, ConnectPlan;
    var plan := Plan(b, endpoints, kubeconfig, o);
    if Idle(plan) {
      IdleShows(b.status, b.generation, plan);
    } else {
      assert Idle(ProbePlan(b.status, kubeconfig, o)) && Idle(ErrorPlan(b.status, o)) && Idle(ErrorPlan(b.status.(phase := WaitingForNodes), o));
      hide ProbePlan, ErrorPlan, ReadyCount;
      var s := StartedStatus(b);
      var rest := [StatusWritten(s)] + ConnectPlan(s, endpoints.value, o);
      ConnectShows(s, b.generation, endpoints.value, o);
      ShowsCons(b.status, b.generation, StatusWritten(s), ConnectPlan(s, endpoints.value, o));
      ShowsCons(b.status, b.generation, FinalizerAdded, rest);
      hide StartedStatus;
      assert plan == if b.finalizer then rest else [FinalizerAdded] + rest;
    }
  }

  // The phase in which a pass over an object that is not up to date ends, when all its status writes land.
  function Ladder(w: World, b: Boot, o: Outcomes): Phase
  {
    var done, already := Has(b.status.conditions, KubeconfigAvailable, True), Has(b.status.conditions, Bootstrapped, True);
    if !o.clusterRead || w.endpoints.None? || w.endpoints.value == [] || o.nodes.None? then Errored
    else if !exists n :: n in o.nodes.value && n.clusterRef == b.clusterRef && n.controlPlane && n.ready then WaitingForNodes
    else if !done && (!o.talosconfig || !Answers(already, w.endpoints.value, o) || (!already && !o.rpc.Answered?)) then Errored
    else if !done && o.fetch.FetchFailed? then WaitingForKubeconfig
    else if (if done then w.kubeconfig.None? else !o.save) || !o.secretRead then Errored
    else if !o.probe then WaitingForAPIServer
    else Completed
  }

  // Where the object stands with status t, b being what it was before the pass.
  predicate Stands(b: Boot, t: BootStatus)
  {
    var kubeconfig := Has(t.conditions, KubeconfigAvailable, True);
    && t.retryCount == (match t.phase case Completed => 0 case Errored => b.status.retryCount + 1
                                      case WaitingForKubeconfig => b.status.retryCount + 1 case _ => b.status.retryCount)
    && (t.phase == Completed ==> Has(t.conditions, Bootstrapped, True) && kubeconfig && Has(t.conditions, APIServerReady, True))
    && (t.phase == WaitingForAPIServer ==> kubeconfig && !Has(t.conditions, APIServerReady, True))
    && (t.phase == WaitingForKubeconfig ==> Has(t.conditions, Bootstrapped, True) && !kubeconfig)
    && (t.phase == Completed && !Has(b.status.conditions, KubeconfigAvailable, True) ==> t.observedGeneration == b.generation)
  }

  // A pass climbs as far as its calls let it, and shows where it stands: what it has is kept, what
  // it waits for is false, failures and fetches in vain are counted, and completion ends the count.
  lemma PassEndsIn(w: World, uid: nat, o: Outcomes, cut: nat)
    requires uid in w.boots && Lands(o) && Sane(w.boots[uid])
    requires var b := w.boots[uid];
             && !b.deleting && (b.finalizer || o.addFinalizer)
             && !(b.status.phase == Completed && b.status.observedGeneration == b.generation)
             && |Plan(b, w.endpoints, w.kubeconfig.Some?, o)| <= cut
    ensures var b, w' := w.boots[uid], Next(w, Pass(uid, o, cut));
            && uid in w'.boots && w'.boots[uid].status.phase == Ladder(w, b, o) && Stands(b, w'.boots[uid].status)
  {
    hide Next, Plan, ActivePlan, Ladder, Sane, LastStatus;
    ActiveLeaves(w, uid, o, cut);
    ActiveEndsIn(w, w.boots[uid], o);
  }

  lemma ActiveEndsIn(w: World, b: Boot, o: Outcomes)
    requires Lands(o) && Sane(b) && !(b.status.phase == Completed && b.status.observedGeneration == b.generation)
    ensures var t := LastStatus(b.status, ActivePlan(b, w.endpoints, w.kubeconfig.Some?, o));
            t.phase == Ladder(w, b, o) && Stands(b, t)
  {
    hide ConnectPlan, ProbePlan, FetchPlan, Answers, LastStatus, ReadyCount;
    if o.nodes.Some? { ReadyCountIs(o.nodes.value, b.clusterRef); }
    ProbeLeaves(b.status, w.kubeconfig.Some?, o);
    LastCons(b.status, StatusWritten(b.status.(phase := WaitingForNodes)), []);
    if w.endpoints.Some? && w.endpoints.value != [] && !Has(b.status.conditions, KubeconfigAvailable, True) {
      StartEndsIn(b, w.endpoints.value, o);
      hide ErrorPlan, StartedStatus, Stands;
    }
  }

  // From the start of an attempt without a kubeconfig.
  lemma StartEndsIn(b: Boot, endpoints: seq<string>, o: Outcomes)
    requires Lands(o) && Chain(b.status) && endpoints != [] && !Has(b.status.conditions, KubeconfigAvailable, True)
    ensures var already := Has(b.status.conditions, Bootstrapped, True);
            var t := LastStatus(b.status, [StatusWritten(StartedStatus(b))] + ConnectPlan(StartedStatus(b), endpoints, o));
            && Stands(b, t)
            && t.phase == if !o.talosconfig || !Answers(already, endpoints, o) || (!already && !o.rpc.Answered?) then Errored
                          else if o.fetch.FetchFailed? then WaitingForKubeconfig
                          else if !o.save || !o.secretRead then Errored
                          else if !o.probe then WaitingForAPIServer else Completed
  {
    hide ConnectPlan, ProbePlan, FetchPlan, ErrorPlan, Answers, LastStatus;
    var s := StartedStatus(b);
    LastCons(b.status, StatusWritten(s), ConnectPlan(s, endpoints, o));
    ConnectLeaves(s, endpoints, o);
    var s1 := SetCond(s, Bootstrapped, True);
    FetchLeaves(s1, o);
    ProbeLeaves(SetCond(s1, KubeconfigAvailable, True), true, o);
  }

  // Without a ready control plane the object waits for one, and says so, or shows that it could not.
  lemma WaitsForNodes(w: World, uid: nat, o: Outcomes, cut: nat)
    requires uid in w.boots
    requires var b := w.boots[uid];
             && !b.deleting && (b.finalizer || o.addFinalizer)
             && !(b.status.phase == Completed && b.status.observedGeneration == b.generation)
             && |Plan(b, w.endpoints, w.kubeconfig.Some?, o)| <= cut
             && o.clusterRead && w.endpoints.Some? && w.endpoints.value != [] && o.nodes.Some?
             && forall n :: n in o.nodes.value && n.clusterRef == b.clusterRef && n.controlPlane ==> !n.ready
    ensures var b, w' := w.boots[uid], Next(w, Pass(uid, o, cut));
            && uid in w'.boots
            && w'.boots[uid] == b.(finalizer := true,
                                   status := if o.waitStatus then b.status.(phase := WaitingForNodes)
                                             else if o.errorStatus then b.status.(phase := Errored, retryCount := b.status.retryCount + 1)
                                             else b.status)
  {
    hide Next, Plan, LastStatus, ReadyCount, ConnectPlan, ProbePlan;
    var b := w.boots[uid];
    ActiveLeaves(w, uid, o, cut);
    ReadyCountIs(o.nodes.value, b.clusterRef);
    LastCons(b.status, StatusWritten(b.status.(phase := WaitingForNodes)), []);
    LastCons(b.status, StatusWritten(b.status.(phase := Errored, retryCount := b.status.retryCount + 1)), []);
  }

  // The dial, the Bootstrap RPC or the fetch is cut off by the context, with all before it done.
  predicate IsCancelled(already: bool, endpoints: seq<string>, o: Outcomes)
    requires endpoints != []
  {
    if !Answers(already, endpoints, o) then o.dialCancelled
    else if !already && !o.rpc.Answered? then o.rpc.cancelled
    else o.fetch.FetchCancelled?
  }

  // A cancelled call is no failure: the object stays Bootstrapping, with its retries as they were,
  // and keeps Bootstrapped once the RPC was answered.
  lemma CancellationIsSilent(b: Boot, endpoints: seq<string>, o: Outcomes)
    requires o.talosconfig && o.bootStatus && endpoints != []
    requires IsCancelled(Has(b.status.conditions, Bootstrapped, True), endpoints, o)
    ensures var already := Has(b.status.conditions, Bootstrapped, True);
            var t := LastStatus(b.status, [StatusWritten(StartedStatus(b))] + ConnectPlan(StartedStatus(b), endpoints, o));
            && t.phase == Bootstrapping && t.retryCount == b.status.retryCount && t.observedGeneration == b.generation
            && (Has(t.conditions, Bootstrapped, True) <==> already || (Answers(already, endpoints, o) && o.rpc.Answered?))
            && !Has(t.conditions, KubeconfigAvailable, True)
  {
    hide ErrorPlan, Answers, LastStatus, Target;
    var s, already := StartedStatus(b), Has(b.status.conditions, Bootstrapped, True);
    var s' := SetCond(s, Bootstrapped, True);
    var target := Target(already, endpoints, o.reachable);
    TargetAnswers(already, endpoints, o);
    LastCons(b.status, StatusWritten(s), ConnectPlan(s, endpoints, o));
    LastCons(s, StatusWritten(s'), []);
    if target.Some? {
      var sent := BootstrapSent(target.value, !o.rpc.NotReached?);
      LastCons(s, sent, []);
      LastCons(s, sent, [StatusWritten(s')]);
      assert [sent] + [] == [sent] && [StatusWritten(s')] + [] == [StatusWritten(s')];
    }
  }

  lemma CancelledPass(w: World, uid: nat, o: Outcomes, cut: nat)
    requires uid in w.boots && Sane(w.boots[uid]) && !Is(w, uid, KubeconfigAvailable)
    requires var b := w.boots[uid];
             && !b.deleting && (b.finalizer || o.addFinalizer) && |Plan(b, w.endpoints, w.kubeconfig.Some?, o)| <= cut
             && o.clusterRead && w.endpoints.Some? && w.endpoints.value != [] && o.nodes.Some?
             && exists n :: n in o.nodes.value && n.clusterRef == b.clusterRef && n.controlPlane && n.ready
    requires o.startStatus && o.talosconfig && o.bootStatus && IsCancelled(Is(w, uid, Bootstrapped), w.endpoints.value, o)
    ensures var b, w' := w.boots[uid], Next(w, Pass(uid, o, cut));
            && uid in w'.boots && w'.boots[uid].status.phase == Bootstrapping && w'.boots[uid].status.retryCount == b.status.retryCount
            && w'.boots[uid].status.observedGeneration == b.generation && !Is(w', uid, KubeconfigAvailable)
            && (Is(w', uid, Bootstrapped) <==> Is(w, uid, Bootstrapped) || (w.endpoints.value[0] in o.reachable && o.rpc.Answered?))
  {
    hide Next, Plan, LastStatus, ReadyCount, ConnectPlan, ProbePlan, ErrorPlan, IsCancelled;
    var b := w.boots[uid];
    ActiveLeaves(w, uid, o, cut);
    ReadyCountIs(o.nodes.value, b.clusterRef);
    CancellationIsSilent(b, w.endpoints.value, o);
  }

  // Once the kubeconfig is stored, a pass over an object that is not done yet, whose probe succeeds
  // and whose last write lands, completes it, with all three conditions true.
  lemma ProbeCompletes(w: World, uid: nat, o: Outcomes, cut: nat)
    requires uid in w.boots && Sane(w.boots[uid]) && Is(w, uid, KubeconfigAvailable) && w.kubeconfig.Some?
    requires var b := w.boots[uid];
             && !b.deleting && (b.finalizer || o.addFinalizer)
             && !(b.status.phase == Completed && b.status.observedGeneration == b.generation)
             && |Plan(b, w.endpoints, w.kubeconfig.Some?, o)| <= cut
             && o.clusterRead && w.endpoints.Some? && w.endpoints.value != [] && o.nodes.Some?
             && exists n :: n in o.nodes.value && n.clusterRef == b.clusterRef && n.controlPlane && n.ready
    requires o.secretRead && o.probe && o.doneStatus
    ensures var b, w' := w.boots[uid], Next(w, Pass(uid, o, cut));
            && uid in w'.boots
            && w'.boots[uid] == b.(finalizer := true, status := b.status.(phase := Completed, retryCount := 0,
                                                                         conditions := b.status.conditions[APIServerReady := True]))
            && Is(w', uid, Bootstrapped) && Is(w', uid, KubeconfigAvailable) && Is(w', uid, APIServerReady)
  {
    hide Next, Plan, LastStatus, ReadyCount;
    var b := w.boots[uid];
    var done := b.status.(phase := Completed, retryCount := 0, conditions := b.status.conditions[APIServerReady := True]);
    ActiveLeaves(w, uid, o, cut);
    ReadyCountIs(o.nodes.value, b.clusterRef);
    assert ActivePlan(b, w.endpoints, w.kubeconfig.Some?, o) == [StatusWritten(done)];
    LastCons(b.status, StatusWritten(done), []);
  }

  // A deletion takes the kubeconfig along when it finds cluster and secret, and waits for that; in
  // no other case does it touch it, and nothing but that and its own write holds the object up.
  lemma DeletionEndsIn(w: World, uid: nat, o: Outcomes, cut: nat)
    requires uid in w.boots && w.boots[uid].deleting && w.boots[uid].finalizer
    requires |Plan(w.boots[uid], w.endpoints, w.kubeconfig.Some?, o)| <= cut
    ensures var w' := Next(w, Pass(uid, o, cut));
            var found := o.clusterRead && w.endpoints.Some? && w.kubeconfig.Some? && o.secretRead;
            && w'.kubeconfig == (if found && o.secretDelete then None else w.kubeconfig)
            && (uid in w'.boots <==> !o.removeFinalizer || (found && !o.secretDelete))
  {
    hide After, Apply;
    var plan := Plan(w.boots[uid], w.endpoints, w.kubeconfig.Some?, o);
    assert plan[..|plan|] == plan;
    LastWrites(w, uid);
    AfterFirst(w, uid, KubeconfigDeleted, if o.removeFinalizer then [FinalizerRemoved] else []);
    AfterFirst(w, uid, FinalizerRemoved, []);
    AfterFirst(Apply(w, uid, KubeconfigDeleted), uid, FinalizerRemoved, []);
    assert [FinalizerRemoved] + [] == [FinalizerRemoved] && [KubeconfigDeleted] + [] == [KubeconfigDeleted];
    AfterNone(w, uid);
    AfterNone(Apply(w, uid, KubeconfigDeleted), uid);
    AfterNone(Apply(w, uid, FinalizerRemoved), uid);
    AfterNone(Apply(Apply(w, uid, KubeconfigDeleted), uid, FinalizerRemoved), uid);
  }

  lemma AfterNone(w: World, uid: nat)
    ensures After(w, uid, []) == w
  {
  }

  lemma LastWrites(w: World, uid: nat)
    requires uid in w.boots
    ensures var taken := Apply(w, uid, KubeconfigDeleted);
            && taken.kubeconfig.None? && uid in taken.boots
            && Apply(w, uid, FinalizerRemoved).kubeconfig == w.kubeconfig && uid !in Apply(w, uid, FinalizerRemoved).boots
            && Apply(taken, uid, FinalizerRemoved).kubeconfig.None? && uid !in Apply(taken, uid, FinalizerRemoved).boots
  {
  }
}
