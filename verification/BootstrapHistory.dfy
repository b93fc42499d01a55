// What holds in every history of bootstrap objects, and exactly when etcd would split.
module BootstrapHistory {
  import opened Options
  import opened Conditions
  import opened Bootstrap

  // However many bootstrap objects come and go, and wherever their reconciles are cut off, at
  // most one etcd cluster is started, as long as its first endpoint stays a member.
  lemma OneEtcdCluster(w: World, steps: seq<Step>)
    requires Empty(w) && LegalRun(w, steps)
    ensures |Run(w, steps).formed| <= 1
  {
    EmptyHolds(w);
    RunKeepsInv(w, steps);
  }

  // In every run, every Bootstrap RPC goes to the first endpoint, and none is sent by an object
  // whose Bootstrapped=True was persisted.
  lemma RpcsAreInOrder(w: World, steps: seq<Step>)
    requires Empty(w)
    ensures Run(w, steps).lateRpcs == 0 && Run(w, steps).strayRpcs == 0
  {
    EmptyHolds(w);
    RunKeepsCore(w, steps);
  }

  // In every persisted state APIServerReady needs KubeconfigAvailable needs Bootstrapped, and
  // Completed needs all three; the kubeconfig secret is written once per deletion, never over
  // an existing one, and is there once an object has it, unless some object's deletion took it.
  lemma CompletedMeansUsable(w: World, steps: seq<Step>, uid: nat)
    requires Empty(w) && uid in Run(w, steps).boots
    ensures var w' := Run(w, steps);
            && (Is(w', uid, APIServerReady) ==> Is(w', uid, KubeconfigAvailable))
            && (Is(w', uid, KubeconfigAvailable) ==> Is(w', uid, Bootstrapped) && (w'.kubeconfig.Some? || w'.deleted > 0))
            && (w'.boots[uid].status.phase == Completed ==> Is(w', uid, APIServerReady))
            && w'.created == w'.deleted + if w'.kubeconfig.Some? then 1 else 0
  {
    EmptyHolds(w);
    RunKeepsCore(w, steps);
  }

  lemma EmptyHolds(w: World)
    requires Empty(w)
    ensures Inv(w)
  {
  }

  // ----- Progress -----

  // What a reconcile or a user may turn an object into.
  predicate Follows(b: Boot, b': Boot)
  {
    && Progress(b.status, b'.status) && b.generation <= b'.generation
    && (Has(b.status.conditions, KubeconfigAvailable, True) ==> b'.status.observedGeneration == b.status.observedGeneration)
  }

  ghost predicate OnlyFollows(w: World, w': World, uid: nat)
  {
    && (forall u :: u in w'.boots ==> u in w.boots)
    && (uid in w'.boots ==> Follows(w.boots[uid], w'.boots[uid]))
    && (forall u :: u in w.boots && u != uid ==> u in w'.boots && w'.boots[u] == w.boots[u])
  }

  lemma ApplyProgresses(w: World, uid: nat, e: Event)
    requires uid in w.boots && Allowed(w, uid, e)
    ensures OnlyFollows(w, Apply(w, uid, e), uid)
  {
    hide Chain;
  }

  lemma OnlyFollowsTransitive(a: World, b: World, c: World, uid: nat)
    requires OnlyFollows(a, b, uid) && OnlyFollows(b, c, uid)
    ensures OnlyFollows(a, c, uid)
  {
  }

  lemma {:induction false} AfterProgresses(w: World, uid: nat, es: seq<Event>, cut: nat)
    requires AllAllowed(w, uid, es) && cut <= |es|
    ensures OnlyFollows(w, After(w, uid, es[..cut]), uid)
    decreases cut
  {
    if cut > 0 && uid in w.boots {
      hide Apply, Allowed, OnlyFollows;
      ApplyProgresses(w, uid, es[0]);
      AfterProgresses(Apply(w, uid, es[0]), uid, es[1..], cut - 1);
      assert es[..cut][1..] == es[1..][..cut - 1];
      OnlyFollowsTransitive(w, Apply(w, uid, es[0]), After(w, uid, es[..cut]), uid);
    }
  }

  lemma StepProgresses(w: World, step: Step, uid: nat)
    requires Core(w) && uid in w.used
    ensures var w' := Next(w, step);
            uid in w'.used && (uid in w'.boots ==> uid in w.boots && Follows(w.boots[uid], w'.boots[uid]))
  {
    if step.Pass? && step.uid in w.boots {
      PassProgresses(w, step.uid, step.o, step.cut, uid);
    }
  }

  lemma PassProgresses(w: World, of: nat, o: Outcomes, cut: nat, uid: nat)
    requires of in w.boots && Sane(w.boots[of]) && uid in w.used
    ensures var w' := Next(w, Pass(of, o, cut));
            uid in w'.used && (uid in w'.boots ==> uid in w.boots && Follows(w.boots[uid], w'.boots[uid]))
  {
    hide Plan, AllAllowed, After;
    var plan := Plan(w.boots[of], w.endpoints, w.kubeconfig.Some?, o);
    var n := if cut <= |plan| then cut else |plan|;
    PlanIsAllowed(w, of, o);
    AfterProgresses(w, of, plan, n);
    AfterKeepsUsed(w, of, plan[..n]);
    assert plan[..|plan|] == plan;
  }

  lemma {:induction false} AfterKeepsUsed(w: World, uid: nat, es: seq<Event>)
    ensures After(w, uid, es).used == w.used
    decreases |es|
  {
    if es != [] && uid in w.boots {
      AfterKeepsUsed(Apply(w, uid, es[0]), uid, es[1..]);
    }
  }

  // Once persisted as true, Bootstrapped and KubeconfigAvailable stay true for the object's life.
  lemma {:induction false} ProgressNeverReverts(w: World, steps: seq<Step>, uid: nat)
    requires Core(w) && uid in w.used && uid in Run(w, steps).boots
    ensures uid in w.boots
    ensures Is(w, uid, Bootstrapped) ==> Is(Run(w, steps), uid, Bootstrapped)
    ensures Is(w, uid, KubeconfigAvailable) ==> Is(Run(w, steps), uid, KubeconfigAvailable)
    decreases |steps|
  {
    hide Core, OneCluster, Next, Legal, Chain;
    if steps != [] {
      StepKeepsInv(w, steps[0]);
      StepProgresses(w, steps[0], uid);
      ProgressNeverReverts(Next(w, steps[0]), steps[1..], uid);
    }
  }

  // Once the kubeconfig is stored, a reconcile no longer records the generation it has seen: an
  // object that has fallen behind its generation stays behind, and never counts as up to date
  // again, Completed or not.
  lemma {:induction false} StaleGenerationStays(w: World, steps: seq<Step>, uid: nat)
    requires Core(w) && uid in w.used && uid in Run(w, steps).boots
    requires uid in w.boots ==> Is(w, uid, KubeconfigAvailable) && w.boots[uid].status.observedGeneration < w.boots[uid].generation
    ensures uid in w.boots
    ensures var b := Run(w, steps).boots[uid];
            && b.status.observedGeneration == w.boots[uid].status.observedGeneration < b.generation
            && Is(Run(w, steps), uid, KubeconfigAvailable) && !IsUpToDate(b)
    decreases |steps|
  {
    hide Core, OneCluster, Next, Legal, Chain;
    if steps != [] {
      StepKeepsInv(w, steps[0]);
      StepProgresses(w, steps[0], uid);
      StaleGenerationStays(Next(w, steps[0]), steps[1..], uid);
    }
  }

  // In every reachable state an object is at its generation or behind it.
  lemma NeverAhead(w: World, steps: seq<Step>, uid: nat)
    requires Empty(w) && uid in Run(w, steps).boots
    ensures var b := Run(w, steps).boots[uid]; b.status.observedGeneration <= b.generation
  {
    EmptyHolds(w);
    RunKeepsCore(w, steps);
  }

  // A Completed object is a no-op for every reconcile exactly while it is at its generation.
  lemma CompletedIsQuietExactly(b: Boot, endpoints: Option<seq<string>>, kubeconfig: bool)
    requires b.finalizer && !b.deleting && b.status.phase == Completed && Chain(b.status)
    ensures (forall o :: Plan(b, endpoints, kubeconfig, o) == []) <==> b.status.observedGeneration == b.generation
  {
    if b.status.observedGeneration == b.generation {
      forall o ensures Plan(b, endpoints, kubeconfig, o) == [] {}
    } else {
      var o := FullPass(b.clusterRef, "").(clusterRead := false);
      assert Plan(b, endpoints, kubeconfig, o) == ErrorPlan(b.status, o) != [];
    }
  }

  // ----- Exactly when etcd splits -----

  // A reconcile that goes as far as the Bootstrap RPC.
  function FullPass(clusterRef: string, first: string): Outcomes
  {
    Outcomes(true, true, Some([NodeRef(clusterRef, true, true)]), true, true, true, {first}, false,
             Answered, false, FetchCancelled, true, true, true, true, true, true, true, true, true, true)
  }

  function Attempt(w: World, uid: nat): seq<Step>
  {
    var first := if w.endpoints.Some? && w.endpoints.value != [] then w.endpoints.value[0] else "";
    [Create(uid, ""), Pass(uid, FullPass("", first), 3)]
  }

  lemma RunCons(w: World, a: Step, rest: seq<Step>)
    ensures Run(w, [a] + rest) == Run(Next(w, a), rest)
    ensures LegalRun(w, [a] + rest) <==> Legal(w, a) && LegalRun(Next(w, a), rest)
    ensures Run(w, []) == w && LegalRun(w, [])
  {
    hide Next, Legal;
    assert ([a] + rest)[1..] == rest;
  }

  lemma RunTwo(w: World, a: Step, b: Step)
    ensures Run(w, [a, b]) == Next(Next(w, a), b)
    ensures LegalRun(w, [a, b]) <==> Legal(w, a) && Legal(Next(w, a), b)
  {
    hide Next, Legal, Run, LegalRun;
    assert [a, b] == [a] + ([b] + []);
    RunCons(w, a, [b] + []);
    RunCons(Next(w, a), b, []);
    RunCons(Next(Next(w, a), b), b, []);
  }

  // A fresh object's first full reconcile sends the Bootstrap RPC to the first endpoint.
  lemma FreshObjectSends(w: World, uid: nat, first: string)
    requires uid in w.boots && w.boots[uid] == Boot("", 1, NO_STATUS, false, false) && IsFirst(w, first)
    ensures Next(w, Pass(uid, FullPass("", first), 3)).formed == if first in w.etcd then w.formed else w.formed + [first]
  {
    hide After, Apply;
    var o := FullPass("", first);
    var b := w.boots[uid].(finalizer := true);
    var started, sent := StatusWritten(StartedStatus(b)), BootstrapSent(first, true);
    var plan := Plan(w.boots[uid], w.endpoints, w.kubeconfig.Some?, o);
    assert plan == [FinalizerAdded, started, sent] by {
      assert o.nodes.value == [NodeRef("", true, true)];
      OneReady(o.nodes.value[0], "");
    }
    assert plan[..3] == plan;
    AfterThree(w, uid, started.status, sent);
  }

  lemma OneReady(n: NodeRef, clusterRef: string)
    requires IsReadyControlPlane(n, clusterRef)
    ensures ReadyCount([n], clusterRef) == 1
  {
    assert [n][..0] == [];
  }

  lemma AfterCons(w: World, uid: nat, e: Event, es: seq<Event>)
    requires uid in w.boots
    ensures After(w, uid, [e] + es) == After(Apply(w, uid, e), uid, es)
    ensures After(w, uid, []) == w
  {
    hide Apply;
    assert ([e] + es)[1..] == es;
  }

  lemma AfterThree(w: World, uid: nat, s: BootStatus, sent: Event)
    requires uid in w.boots && sent.BootstrapSent?
    ensures var w' := After(w, uid, [FinalizerAdded, StatusWritten(s), sent]);
            w'.formed == if sent.reached && sent.ip !in w.etcd then w.formed + [sent.ip] else w.formed
  {
    hide After;
    var w1 := Apply(w, uid, FinalizerAdded);
    var w2 := Apply(w1, uid, StatusWritten(s));
    assert [FinalizerAdded, StatusWritten(s), sent] == [FinalizerAdded] + ([StatusWritten(s)] + ([sent] + []));
    AfterCons(w, uid, FinalizerAdded, [StatusWritten(s)] + ([sent] + []));
    AfterCons(w1, uid, StatusWritten(s), [sent] + []);
    AfterCons(w2, uid, sent, []);
    AfterCons(Apply(w2, uid, sent), uid, sent, []);
  }

  // With one etcd cluster running, a step keeps it the only one, whatever object is created
  // and reconciled next, exactly when the step leaves a member as the first endpoint.
  lemma OneEtcdClusterExactly(w: World, step: Step, uid: nat)
    requires Inv(w) && |w.formed| == 1 && uid !in Next(w, step).used
    ensures Legal(w, step) <==> |Run(Next(w, step), Attempt(Next(w, step), uid)).formed| <= 1
  {
    hide Core, OneCluster;
    var w1 := Next(w, step);
    var create, pass := Attempt(w1, uid)[0], Attempt(w1, uid)[1];
    RunTwo(w1, create, pass);
    if Legal(w, step) {
      StepKeepsInv(w, step);
      RunKeepsInv(w1, [create, pass]);
      InvOne(Run(w1, [create, pass]));
    } else {
      var first := w1.endpoints.value[0];
      assert IsFirst(w1, first) && first !in w1.etcd;
      FreshObjectSends(Next(w1, create), uid, first);
    }
  }

  lemma InvOne(w: World)
    requires Inv(w)
    ensures |w.formed| <= 1
  {
  }
}
