// Provisioning a TalosCluster: write-once secrets that must all come from one PKI bundle,
// across crashes, spec edits, deletion and re-creation.
module Provision {
  import opened Options
  import opened Conditions

  datatype Phase = Unset | Provisioning | Ready | Errored | Deleting
  datatype CondType = SecretsGenerated | ConfigsGenerated

  datatype ClusterSpec = ClusterSpec(clusterName: string, endpoints: seq<string>, talosVersion: string, kubernetesVersion: string)
  datatype ClusterStatus = ClusterStatus(phase: Phase, observedGeneration: int, conditions: map<CondType, Status>, retryCount: nat)
  datatype Cluster = Cluster(name: string, generation: int, spec: ClusterSpec, status: ClusterStatus, finalizer: bool, deleting: bool)

  // The four secrets of a cluster and what may be in them. A configuration remembers the
  // bundle and the spec it was generated from.
  datatype SecretName = BundleSecret | ControlPlaneSecret | WorkerSecret | TalosconfigSecret
  datatype Bundle = Bundle(id: nat)
  datatype Content = BundleContent(bundle: Bundle) | Unreadable | ConfigContent(kind: SecretName, from: Bundle, spec: ClusterSpec)
  type Store = map<SecretName, Content>

  const CONFIG_SECRETS := [ControlPlaneSecret, WorkerSecret, TalosconfigSecret]
  const ALL_SECRETS := [BundleSecret] + CONFIG_SECRETS

  datatype Event =
    | FinalizerAdded
    | StatusWritten(status: ClusterStatus)
    | CreatedIfAbsent(name: SecretName, content: Content)
    | SecretDeleted(name: SecretName)
    | FinalizerRemoved

  datatype Result = Done | Failed | Cancelled

  // What the cluster reconcile looks at in a TalosNode.
  datatype NodeRef = NodeRef(clusterRef: string, deleting: bool)

  // How the calls of one reconcile go. The secret creations are numbered in order.
  datatype Outcomes = Outcomes(
    addFinalizer: bool, start: Result, bundleRead: bool, generator: Option<Bundle>, generateConfigs: bool,
    creates: seq<Result>, finish: Result, errorStatus: bool,
    nodes: Option<seq<NodeRef>>, blockedStatus: bool, deletable: set<SecretName>, removeFinalizer: bool)

  // ----- The plan of one reconcile -----

  predicate IsUpToDate(c: Cluster)
  {
    c.status.observedGeneration == c.generation && c.status.phase == Ready && Has(c.status.conditions, ConfigsGenerated, True)
  }

  function StartedStatus(c: Cluster): ClusterStatus
  {
    c.status.(observedGeneration := c.generation, phase := Provisioning,
              conditions := c.status.conditions[SecretsGenerated := False][ConfigsGenerated := False])
  }

  function FinishedStatus(s: ClusterStatus): ClusterStatus
  {
    s.(phase := Ready, retryCount := 0, conditions := s.conditions[SecretsGenerated := True][ConfigsGenerated := True])
  }

  function ErrorStatus(s: ClusterStatus): ClusterStatus
  {
    s.(phase := Errored, retryCount := s.retryCount + 1)
  }

  // The bundle a reconcile works with: the stored one when it can be read and parsed, else a fresh one.
  function LoadOrGenBundle(store: Store, o: Outcomes): Option<Bundle>
  {
    if o.bundleRead && BundleSecret in store && store[BundleSecret].BundleContent? then Some(store[BundleSecret].bundle)
    else o.generator
  }

  datatype Attempt = Attempt(events: seq<Event>, result: Result, status: ClusterStatus)

  function Wanted(bundle: Bundle, spec: ClusterSpec): seq<Event>
  {
    [CreatedIfAbsent(BundleSecret, BundleContent(bundle)),
     CreatedIfAbsent(ControlPlaneSecret, ConfigContent(ControlPlaneSecret, bundle, spec)),
     CreatedIfAbsent(WorkerSecret, ConfigContent(WorkerSecret, bundle, spec)),
     CreatedIfAbsent(TalosconfigSecret, ConfigContent(TalosconfigSecret, bundle, spec))]
  }

  // The index of the first creation that fails, if any; an existing secret counts as success.
  function FirstFailure(creates: seq<Result>, from: nat): (i: nat)
    requires from <= 4
    ensures from <= i <= 4
    ensures i < 4 ==> i < |creates| && creates[i] != Done
    ensures forall j :: from <= j < i ==> j >= |creates| || creates[j] == Done
    decreases 4 - from
  {
    if from == 4 || (from < |creates| && creates[from] != Done) then from else FirstFailure(creates, from + 1)
  }

  function ProvisionPlan(c: Cluster, store: Store, o: Outcomes): Attempt
  {
    var s := StartedStatus(c);
    var bundle := LoadOrGenBundle(store, o);
    if o.start != Done then Attempt([], o.start, s)
    else if c.spec.endpoints == [] || bundle.None? then Attempt([StatusWritten(s)], Failed, s)
    else
      var wanted := Wanted(bundle.value, c.spec);
      var stop := FirstFailure(o.creates, 0);
      if stop == 0 then Attempt([StatusWritten(s)], o.creates[0], s)
      else if !o.generateConfigs then Attempt([StatusWritten(s)] + wanted[..1], Failed, s)
      else if stop < 4 then Attempt([StatusWritten(s)] + wanted[..stop], o.creates[stop], s)
      else if o.finish != Done then Attempt([StatusWritten(s)] + wanted, o.finish, FinishedStatus(s))
      else Attempt([StatusWritten(s)] + wanted + [StatusWritten(FinishedStatus(s))], Done, FinishedStatus(s))
  }

  function ProvisionOrErrorPlan(c: Cluster, store: Store, o: Outcomes): seq<Event>
  {
    var attempt := ProvisionPlan(c, store, o);
    attempt.events + if attempt.result == Failed && o.errorStatus then [StatusWritten(ErrorStatus(attempt.status))] else []
  }

  // The secrets deleted before the first one that cannot be, and whether all could.
  function DeleteEvents(names: seq<SecretName>, store: Store, deletable: set<SecretName>): seq<Event>
  {
    if names == [] || names[0] !in deletable then []
    else (if names[0] in store then [SecretDeleted(names[0])] else []) + DeleteEvents(names[1..], store - {names[0]}, deletable)
  }

  predicate AllIn(names: seq<SecretName>, deletable: set<SecretName>)
  {
    forall n :: n in names ==> n in deletable
  }

  // How many nodes naming the cluster are not marked for deletion.
  function ActiveCount(nodes: seq<NodeRef>, name: string): nat
    decreases |nodes|
  {
    if nodes == [] then 0
    else
      var last := nodes[|nodes| - 1];
      ActiveCount(nodes[..|nodes| - 1], name) + if last.clusterRef == name && !last.deleting then 1 else 0
  }

  function DeletionPlan(c: Cluster, store: Store, o: Outcomes): seq<Event>
  {
    if !c.finalizer || o.nodes.None? then []
    else if ActiveCount(o.nodes.value, c.name) > 0 then
      if o.blockedStatus then [StatusWritten(c.status.(phase := Deleting))] else []
    else DeleteEvents(ALL_SECRETS, store, o.deletable) +
         if AllIn(ALL_SECRETS, o.deletable) && o.removeFinalizer then [FinalizerRemoved] else []
  }

  function Plan(c: Cluster, store: Store, o: Outcomes): seq<Event>
  {
    if c.deleting then DeletionPlan(c, store, o)
    else if !c.finalizer && !o.addFinalizer then []
    else (if c.finalizer then [] else [FinalizerAdded]) +
         if IsUpToDate(c) then [] else ProvisionOrErrorPlan(c, store, o)
  }

  // ----- The world -----

  // The cluster object, if it exists, and the secrets under its name.
  datatype World = World(cluster: Option<Cluster>, store: Store)

  function Apply(w: World, e: Event): World
  {
    match e
    case CreatedIfAbsent(n, content) => if n in w.store then w else w.(store := w.store[n := content])
    case SecretDeleted(n) => w.(store := w.store - {n})
    case FinalizerRemoved => w.(cluster := None)
    case FinalizerAdded => if w.cluster.Some? then w.(cluster := Some(w.cluster.value.(finalizer := true))) else w
    case StatusWritten(s) => if w.cluster.Some? then w.(cluster := Some(w.cluster.value.(status := s))) else w
  }

  function After(w: World, es: seq<Event>): World
    decreases |es|
  {
    if es == [] then w else After(Apply(w, es[0]), es[1..])
  }

  datatype Step =
    | Create(name: string, spec: ClusterSpec)
    | Edit(spec: ClusterSpec)
    | Delete
    | Pass(o: Outcomes, cut: nat)

  const NO_STATUS := ClusterStatus(Unset, 0, map[], 0)

  function Next(w: World, step: Step): World
  {
    match step
    case Create(name, spec) => if w.cluster.Some? then w else w.(cluster := Some(Cluster(name, 1, spec, NO_STATUS, false, false)))
    case Edit(spec) =>
      if w.cluster.None? then w else w.(cluster := Some(w.cluster.value.(spec := spec, generation := w.cluster.value.generation + 1)))
    case Delete =>
      if w.cluster.None? then w
      else if !w.cluster.value.finalizer then w.(cluster := None)
      else w.(cluster := Some(w.cluster.value.(deleting := true)))
    case Pass(o, cut) =>
      if w.cluster.None? then w
      else
        var plan := Plan(w.cluster.value, w.store, o);
        After(w, if cut <= |plan| then plan[..cut] else plan)
  }

  function Run(w: World, steps: seq<Step>): World
    decreases |steps|
  {
    if steps == [] then w else Run(Next(w, steps[0]), steps[1..])
  }

  // ----- One PKI -----

  // Every configuration in the store was generated from the bundle in the store.
  predicate OnePki(store: Store)
  {
    forall n :: n in CONFIG_SECRETS && n in store ==>
                  && BundleSecret in store && store[BundleSecret].BundleContent?
                  && store[n].ConfigContent? && store[n].kind == n && store[n].from == store[BundleSecret].bundle
  }

  // The reconcile will not work with a bundle other than a stored one.
  predicate Trusts(store: Store, o: Outcomes)
  {
    BundleSecret in store ==> o.bundleRead && store[BundleSecret].BundleContent?
  }

  predicate TrustedRun(w: World, steps: seq<Step>)
    decreases |steps|
  {
    steps != [] ==>
      && (steps[0].Pass? ==> Trusts(w.store, steps[0].o))
      && TrustedRun(Next(w, steps[0]), steps[1..])
  }

  predicate Inv(w: World)
  {
    && (w.cluster.None? || !w.cluster.value.finalizer ==> w.store == map[])
    && (w.cluster.Some? && w.cluster.value.deleting ==> w.cluster.value.finalizer)
    && (w.cluster.Some? && !w.cluster.value.deleting ==> OnePki(w.store))
  }

  // Events of a provisioning pass, in an order that is safe to cut anywhere.
  predicate Sound(w: World, es: seq<Event>)
    decreases |es|
  {
    Inv(w) && (es == [] || Sound(Apply(w, es[0]), es[1..]))
  }

  lemma SoundCons(w: World, e: Event, es: seq<Event>)
    requires Inv(w) && Sound(Apply(w, e), es)
    ensures Sound(w, [e] + es)
  {
    assert ([e] + es)[1..] == es;
  }

  lemma {:induction false} SoundPrefix(w: World, es: seq<Event>, cut: nat)
    requires Sound(w, es) && cut <= |es|
    ensures Inv(After(w, es[..cut]))
    decreases cut
  {
    if cut > 0 {
      SoundPrefix(Apply(w, es[0]), es[1..], cut - 1);
      assert es[..cut][1..] == es[1..][..cut - 1];
    } else {
      assert es[..cut] == [];
    }
  }

  // A list that creates secrets for bundle b, the bundle secret before any configuration.
  predicate Fits(b: Bundle, present: bool, es: seq<Event>)
    decreases |es|
  {
    es == [] ||
    match es[0]
    case StatusWritten(_) => Fits(b, present, es[1..])
    case CreatedIfAbsent(n, content) =>
      if n == BundleSecret then content == BundleContent(b) && Fits(b, true, es[1..])
      else present && content.ConfigContent? && content.kind == n && content.from == b && Fits(b, present, es[1..])
    case _ => false
  }

  lemma {:induction false} FittingIsSound(w: World, b: Bundle, es: seq<Event>)
    requires Inv(w) && w.cluster.Some? && w.cluster.value.finalizer && !w.cluster.value.deleting
    requires BundleSecret in w.store ==> w.store[BundleSecret] == BundleContent(b)
    requires Fits(b, BundleSecret in w.store, es)
    ensures Sound(w, es)
    decreases |es|
  {
    if es != [] {
      FittingIsSound(Apply(w, es[0]), b, es[1..]);
    }
  }

  lemma FitsCons(b: Bundle, present: bool, s: ClusterStatus, es: seq<Event>)
    requires Fits(b, present, es)
    ensures Fits(b, present, [StatusWritten(s)] + es)
  {
    assert ([StatusWritten(s)] + es)[1..] == es;
  }

  lemma WantedFits(b: Bundle, present: bool, spec: ClusterSpec, stop: nat, last: Option<ClusterStatus>)
    requires stop <= 4
    ensures var tail := if last.None? then [] else [StatusWritten(last.value)];
            Fits(b, present, Wanted(b, spec)[..stop] + tail)
  {
    var tail := if last.None? then [] else [StatusWritten(last.value)];
    assert Fits(b, true, tail) && Fits(b, present, tail) by { assert tail != [] ==> tail[1..] == []; }
    ConfigsFit(b, spec, stop, tail);
    var all := Wanted(b, spec)[..stop] + tail;
    if stop > 0 {
      assert all[1..] == Wanted(b, spec)[1..stop] + tail;
    } else {
      assert all == tail;
    }
  }

  lemma ConfigFits(b: Bundle, n: SecretName, spec: ClusterSpec, es: seq<Event>)
    requires n != BundleSecret && Fits(b, true, es)
    ensures Fits(b, true, [CreatedIfAbsent(n, ConfigContent(n, b, spec))] + es)
  {
    assert ([CreatedIfAbsent(n, ConfigContent(n, b, spec))] + es)[1..] == es;
  }

  lemma ConfigsFit(b: Bundle, spec: ClusterSpec, stop: nat, tail: seq<Event>)
    requires stop <= 4 && Fits(b, true, tail)
    ensures stop > 0 ==> Fits(b, true, Wanted(b, spec)[1..stop] + tail)
  {
    hide Fits;
    var w := Wanted(b, spec);
    var es3 := if stop == 4 then [w[3]] + tail else tail;
    var es2 := if stop >= 3 then [w[2]] + es3 else tail;
    var es1 := if stop >= 2 then [w[1]] + es2 else tail;
    ConfigFits(b, TalosconfigSecret, spec, tail);
    ConfigFits(b, WorkerSecret, spec, es3);
    ConfigFits(b, ControlPlaneSecret, spec, es2);
    if stop == 1 {
      assert w[1..1] + tail == es1;
    } else if stop == 2 {
      assert w[1..2] + tail == es1;
    } else if stop == 3 {
      assert w[1..3] + tail == es1;
    } else if stop == 4 {
      assert w[1..4] + tail == es1;
    }
  }

  // The shape of a provisioning pass: perhaps the first status, some of the secrets in order, and
  // perhaps a last status.
  lemma ProvisionShape(c: Cluster, store: Store, o: Outcomes, b: Bundle) returns (started: bool, stop: nat, last: Option<ClusterStatus>)
    requires LoadOrGenBundle(store, o) == Some(b) || LoadOrGenBundle(store, o).None?
    ensures stop <= 4 && (!started ==> stop == 0)
    ensures var tail := if last.None? then [] else [StatusWritten(last.value)];
            ProvisionOrErrorPlan(c, store, o) ==
            (if started then [StatusWritten(StartedStatus(c))] else []) + (Wanted(b, c.spec)[..stop] + tail)
  {
    hide FirstFailure, LoadOrGenBundle, StartedStatus, FinishedStatus, ErrorStatus;
    var attempt := ProvisionPlan(c, store, o);
    started := attempt.events != [];
    stop := if !started then 0 else if attempt.result == Done then 4 else |attempt.events| - 1;
    last := if attempt.result == Failed && o.errorStatus then Some(ErrorStatus(attempt.status))
            else if attempt.result == Done then Some(FinishedStatus(StartedStatus(c))) else None;
  }

  // Whatever happens during a provisioning pass, its events fit the bundle it loaded.
  lemma ProvisionFits(c: Cluster, store: Store, o: Outcomes, b: Bundle)
    requires LoadOrGenBundle(store, o) == Some(b) || LoadOrGenBundle(store, o).None?
    ensures Fits(b, BundleSecret in store, ProvisionOrErrorPlan(c, store, o))
  {
    var started, stop, last := ProvisionShape(c, store, o, b);
    hide Fits, ProvisionOrErrorPlan, LoadOrGenBundle, Wanted;
    var rest := Wanted(b, c.spec)[..stop] + if last.None? then [] else [StatusWritten(last.value)];
    WantedFits(b, BundleSecret in store, c.spec, stop, last);
    FitsCons(b, BundleSecret in store, StartedStatus(c), rest);
    assert [] + rest == rest;
  }

  // ----- Deletion -----

  lemma {:induction false} AfterAppend(w: World, es: seq<Event>, fs: seq<Event>)
    ensures After(w, es + fs) == After(After(w, es), fs)
    decreases |es|
  {
    if es == [] {
      assert es + fs == fs;
    } else {
      AfterAppend(Apply(w, es[0]), es[1..], fs);
      assert es + fs == [es[0]] + (es[1..] + fs);
      assert (es + fs)[1..] == es[1..] + fs;
    }
  }

  // Deleting secrets touches nothing else, and leaves only what was there and not deleted.
  lemma {:induction false} DeletesLeave(w: World, es: seq<Event>)
    requires forall e :: e in es ==> e.SecretDeleted?
    ensures After(w, es).cluster == w.cluster
    ensures forall n :: n in After(w, es).store ==> n in w.store && SecretDeleted(n) !in es
    decreases |es|
  {
    if es != [] {
      assert es[0] in es;
      DeletesLeave(Apply(w, es[0]), es[1..]);
      assert forall e :: e in es <==> e == es[0] || e in es[1..];
    }
  }

  // While the cluster is being deleted its secrets may go in any order.
  lemma {:induction false} DeletesAreSound(w: World, es: seq<Event>)
    requires Inv(w) && w.cluster.Some? && w.cluster.value.deleting && forall e :: e in es ==> e.SecretDeleted?
    ensures Sound(w, es)
    decreases |es|
  {
    if es != [] {
      assert es[0] in es;
      DeletesAreSound(Apply(w, es[0]), es[1..]);
    }
  }

  lemma {:induction false} DeleteEventsCover(names: seq<SecretName>, store: Store, deletable: set<SecretName>)
    ensures forall e :: e in DeleteEvents(names, store, deletable) ==> e.SecretDeleted?
    ensures AllIn(names, deletable) ==> forall n :: n in names && n in store ==> SecretDeleted(n) in DeleteEvents(names, store, deletable)
    decreases |names|
  {
    if names != [] {
      DeleteEventsCover(names[1..], store - {names[0]}, deletable);
      assert AllIn(names, deletable) ==> AllIn(names[1..], deletable) && names[0] in deletable;
    }
  }

  // A secret is deleted exactly if it is there and neither it nor one before it in the list is stuck.
  lemma {:induction false} DeletesUpToFirstFailure(names: seq<SecretName>, store: Store, deletable: set<SecretName>, n: SecretName)
    requires forall i, j :: 0 <= i < j < |names| ==> names[i] != names[j]
    ensures SecretDeleted(n) in DeleteEvents(names, store, deletable) <==>
            n in store && exists i :: 0 <= i < |names| && names[i] == n && forall j :: 0 <= j <= i ==> names[j] in deletable
    decreases |names|
  {
    if names != [] && names[0] in deletable {
      var rest := names[1..];
      DeletesUpToFirstFailure(rest, store - {names[0]}, deletable, n);
      if n in store && n != names[0] {
        if i :| 0 <= i < |names| && names[i] == n && forall j :: 0 <= j <= i ==> names[j] in deletable {
          assert rest[i - 1] == n && forall j :: 0 <= j <= i - 1 ==> rest[j] == names[j + 1];
        }
        if i :| 0 <= i < |rest| && rest[i] == n && forall j :: 0 <= j <= i ==> rest[j] in deletable {
          assert names[i + 1] == n;
          assert forall j :: 0 < j <= i + 1 ==> names[j] == rest[j - 1];
        }
      }
    }
  }

  lemma {:induction false} SoundAppend(w: World, es: seq<Event>, fs: seq<Event>)
    requires Sound(w, es) && Sound(After(w, es), fs)
    ensures Sound(w, es + fs)
    decreases |es|
  {
    if es == [] {
      assert es + fs == fs;
    } else {
      SoundAppend(Apply(w, es[0]), es[1..], fs);
      SoundCons(w, es[0], es[1..] + fs);
      assert es + fs == [es[0]] + (es[1..] + fs);
      assert (es + fs)[1..] == es[1..] + fs;
    }
  }

  lemma FourSecrets(n: SecretName)
    ensures n in ALL_SECRETS && (n == BundleSecret || n in CONFIG_SECRETS)
  {
    assert ALL_SECRETS == [BundleSecret, ControlPlaneSecret, WorkerSecret, TalosconfigSecret];
    match n
    case BundleSecret => assert ALL_SECRETS[0] == n;
    case ControlPlaneSecret => assert ALL_SECRETS[1] == n && CONFIG_SECRETS[0] == n;
    case WorkerSecret => assert ALL_SECRETS[2] == n && CONFIG_SECRETS[1] == n;
    case TalosconfigSecret => assert ALL_SECRETS[3] == n && CONFIG_SECRETS[2] == n;
  }

  // The finalizer goes only after all four secrets are gone.
  lemma DeletionIsSound(w: World, o: Outcomes)
    requires Inv(w) && w.cluster.Some? && w.cluster.value.deleting
    ensures Sound(w, DeletionPlan(w.cluster.value, w.store, o))
  {
    var plan := DeletionPlan(w.cluster.value, w.store, o);
    if plan != [] && ActiveCount(o.nodes.value, w.cluster.value.name) == 0 {
      var deletes := DeleteEvents(ALL_SECRETS, w.store, o.deletable);
      DeleteEventsCover(ALL_SECRETS, w.store, o.deletable);
      DeletesAreSound(w, deletes);
      DeletesLeave(w, deletes);
      if AllIn(ALL_SECRETS, o.deletable) && o.removeFinalizer {
        var end := After(w, deletes);
        forall n: SecretName ensures n in ALL_SECRETS { FourSecrets(n); }
        assert end.store == map[];
        SoundOne(end, FinalizerRemoved);
        SoundAppend(w, deletes, [FinalizerRemoved]);
      } else {
        assert plan == deletes;
      }
    } else if plan != [] {
      SoundOne(w, plan[0]);
      assert plan == [plan[0]];
    }
  }

  // Nothing is torn down while a live node names the cluster; otherwise, when every call
  // succeeds, the cluster goes and all four secrets with it.
  lemma TeardownWaitsForNodes(w: World, o: Outcomes)
    requires w.cluster.Some? && w.cluster.value.deleting && w.cluster.value.finalizer && o.nodes.Some?
    ensures var c := w.cluster.value;
            var w' := After(w, DeletionPlan(c, w.store, o));
            var free := forall n :: n in o.nodes.value && n.clusterRef == c.name ==> n.deleting;
            && (!free ==> w' == w.(cluster := Some(if o.blockedStatus then c.(status := c.status.(phase := Deleting)) else c)))
            && (free && AllIn(ALL_SECRETS, o.deletable) && o.removeFinalizer ==> w' == World(None, w'.store) && w'.store == map[])
  {
    ActiveCountZero(o.nodes.value, w.cluster.value.name);
    if ActiveCount(o.nodes.value, w.cluster.value.name) == 0 {
      var deletes := DeleteEvents(ALL_SECRETS, w.store, o.deletable);
      DeleteEventsCover(ALL_SECRETS, w.store, o.deletable);
      DeletesLeave(w, deletes);
      if AllIn(ALL_SECRETS, o.deletable) && o.removeFinalizer {
        forall n: SecretName ensures n in ALL_SECRETS { FourSecrets(n); }
        assert After(w, deletes).store == map[];
        AfterAppend(w, deletes, [FinalizerRemoved]);
        AfterCons(After(w, deletes), FinalizerRemoved, []);
        assert [FinalizerRemoved] + [] == [FinalizerRemoved];
      }
    } else if o.blockedStatus {
      var e := StatusWritten(w.cluster.value.status.(phase := Deleting));
      AfterCons(w, e, []);
      assert [e] + [] == [e];
    }
  }

  lemma {:induction false} ActiveCountZero(nodes: seq<NodeRef>, name: string)
    ensures ActiveCount(nodes, name) == 0 <==> forall n :: n in nodes && n.clusterRef == name ==> n.deleting
    decreases |nodes|
  {
    if nodes != [] {
      var front, last := nodes[..|nodes| - 1], nodes[|nodes| - 1];
      ActiveCountZero(front, name);
      assert nodes == front + [last];
    }
  }

  lemma SoundOne(w: World, e: Event)
    requires Inv(w) && Inv(Apply(w, e))
    ensures Sound(w, [e]) && After(w, [e]) == Apply(w, e)
  {
    assert [e][1..] == [];
  }

  // ----- Runs -----

  lemma PassKeepsInv(w: World, o: Outcomes, cut: nat)
    requires Inv(w) && Trusts(w.store, o)
    ensures Inv(Next(w, Pass(o, cut)))
  {
    if w.cluster.Some? {
      var c := w.cluster.value;
      var plan := Plan(c, w.store, o);
      assert Sound(w, plan) by {
        if c.deleting {
          DeletionIsSound(w, o);
        } else if plan != [] {
          var head := if c.finalizer then [] else [FinalizerAdded];
          var w1 := if c.finalizer then w else Apply(w, FinalizerAdded);
          if !c.finalizer { SoundOne(w, FinalizerAdded); }
          var rest := if IsUpToDate(c) then [] else ProvisionOrErrorPlan(c, w.store, o);
          var loaded := LoadOrGenBundle(w.store, o);
          var b := if loaded.Some? then loaded.value else Bundle(0);
          ProvisionFits(c, w.store, o, b);
          FittingIsSound(w1, b, rest);
          SoundAppend(w, head, rest);
        }
      }
      SoundPrefix(w, plan, if cut <= |plan| then cut else |plan|);
      assert plan[..|plan|] == plan;
    }
  }

  lemma {:induction false} RunKeepsInv(w: World, steps: seq<Step>)
    requires Inv(w) && TrustedRun(w, steps)
    ensures Inv(Run(w, steps))
    decreases |steps|
  {
    if steps != [] {
      assert Inv(Next(w, steps[0])) by {
        if steps[0].Pass? { PassKeepsInv(w, steps[0].o, steps[0].cut); }
      }
      RunKeepsInv(Next(w, steps[0]), steps[1..]);
    }
  }

  // As long as an existing bundle can be read and parsed, every configuration of a cluster that
  // is not being deleted comes from the stored bundle, wherever earlier reconciles were cut off;
  // and a cluster that is gone has left none of its four secrets behind.
  lemma OnePkiAlways(steps: seq<Step>)
    requires TrustedRun(World(None, map[]), steps)
    ensures var w := Run(World(None, map[]), steps);
            && (w.cluster.Some? && !w.cluster.value.deleting ==> OnePki(w.store))
            && (w.cluster.None? ==> w.store == map[])
  {
    RunKeepsInv(World(None, map[]), steps);
  }

  // A secret keeps its content until it is deleted: nothing is ever rewritten.
  lemma {:induction false} ContentsNeverChange(w: World, es: seq<Event>, n: SecretName)
    requires n in w.store && SecretDeleted(n) !in es
    ensures n in After(w, es).store && After(w, es).store[n] == w.store[n]
    decreases |es|
  {
    if es != [] {
      assert es[0] in es && forall e :: e in es[1..] ==> e in es;
      ContentsNeverChange(Apply(w, es[0]), es[1..], n);
    }
  }

  // ----- When the read of the stored bundle fails -----

  // Every call of the pass succeeds, except perhaps reading the bundle secret.
  predicate Undisturbed(c: Cluster, o: Outcomes)
  {
    && c.finalizer && !c.deleting && !IsUpToDate(c) && c.spec.endpoints != []
    && o.start == Done && o.generator.Some? && o.generateConfigs && o.creates == [] && o.finish == Done
  }

  // The pass cannot mix bundles: it uses the stored one, or happens to draw it, or has nothing left to create.
  predicate Harmless(store: Store, o: Outcomes)
  {
    || Trusts(store, o)
    || (store[BundleSecret].BundleContent? && o.generator == Some(store[BundleSecret].bundle))
    || (forall n :: n in CONFIG_SECRETS ==> n in store)
  }

  function Filled(store: Store, n: SecretName, content: Content): Store
  {
    if n in store then store else store[n := content]
  }

  lemma UndisturbedStore(w: World, o: Outcomes)
    requires w.cluster.Some? && Undisturbed(w.cluster.value, o)
    ensures var c := w.cluster.value;
            var b := LoadOrGenBundle(w.store, o).value;
            After(w, Plan(c, w.store, o)).store ==
            Filled(Filled(Filled(Filled(w.store, BundleSecret, BundleContent(b)),
                                 ControlPlaneSecret, ConfigContent(ControlPlaneSecret, b, c.spec)),
                          WorkerSecret, ConfigContent(WorkerSecret, b, c.spec)),
                   TalosconfigSecret, ConfigContent(TalosconfigSecret, b, c.spec))
  {
    var c := w.cluster.value;
    var b := LoadOrGenBundle(w.store, o).value;
    var started, finished := StatusWritten(StartedStatus(c)), StatusWritten(FinishedStatus(StartedStatus(c)));
    var es := Wanted(b, c.spec);
    assert FirstFailure(o.creates, 0) == 4;
    assert Plan(c, w.store, o) == [started, es[0], es[1], es[2], es[3], finished];
    var w1 := Apply(w, started);
    var w2 := Apply(w1, es[0]);
    var w3 := Apply(w2, es[1]);
    var w4 := Apply(w3, es[2]);
    var w5 := Apply(w4, es[3]);
    AfterSix(w, started, es[0], es[1], es[2], es[3], finished);
  }

  lemma AfterSix(w: World, a: Event, b: Event, c: Event, d: Event, e: Event, f: Event)
    ensures After(w, [a, b, c, d, e, f]) == Apply(Apply(Apply(Apply(Apply(Apply(w, a), b), c), d), e), f)
  {
    hide Apply, After;
    assert [a, b, c, d, e, f] == [a] + ([b] + ([c] + ([d] + ([e] + ([f] + [])))));
    AfterCons(w, a, [b] + ([c] + ([d] + ([e] + ([f] + [])))));
    AfterCons(Apply(w, a), b, [c] + ([d] + ([e] + ([f] + []))));
    AfterCons(Apply(Apply(w, a), b), c, [d] + ([e] + ([f] + [])));
    AfterCons(Apply(Apply(Apply(w, a), b), c), d, [e] + ([f] + []));
    AfterCons(Apply(Apply(Apply(Apply(w, a), b), c), d), e, [f] + []);
    AfterCons(Apply(Apply(Apply(Apply(Apply(w, a), b), c), d), e), f, []);
  }

  lemma AfterCons(w: World, e: Event, es: seq<Event>)
    ensures After(w, [e] + es) == After(Apply(w, e), es)
    ensures After(w, []) == w && After(Apply(w, e), []) == Apply(w, e)
  {
    hide Apply;
    assert ([e] + es)[1..] == es;
  }

  predicate Matches(store: Store, n: SecretName)
  {
    n in store ==>
      && BundleSecret in store && store[BundleSecret].BundleContent?
      && store[n].ConfigContent? && store[n].kind == n && store[n].from == store[BundleSecret].bundle
  }

  lemma OnePkiSpelledOut(store: Store)
    ensures OnePki(store) <==> Matches(store, ControlPlaneSecret) && Matches(store, WorkerSecret) && Matches(store, TalosconfigSecret)
    ensures (forall n :: n in CONFIG_SECRETS ==> n in store) <==>
            ControlPlaneSecret in store && WorkerSecret in store && TalosconfigSecret in store
  {
    FourSecrets(ControlPlaneSecret);
    FourSecrets(WorkerSecret);
    FourSecrets(TalosconfigSecret);
    assert OnePki(store) <==> forall n :: n in CONFIG_SECRETS ==> Matches(store, n);
  }

  // A failed or unparseable read of an existing bundle is treated like a missing one. One PKI
  // survives the pass exactly when that could do no harm.
  lemma OnePkiExactly(w: World, o: Outcomes)
    requires Inv(w) && w.cluster.Some? && Undisturbed(w.cluster.value, o)
    ensures OnePki(After(w, Plan(w.cluster.value, w.store, o)).store) <==> Harmless(w.store, o)
  {
    hide OnePki, After, Plan, LoadOrGenBundle;
    UndisturbedStore(w, o);
    OnePkiSpelledOut(w.store);
    OnePkiSpelledOut(After(w, Plan(w.cluster.value, w.store, o)).store);
    LoadedBundle(w.store, o);
    FilledPki(w.store, LoadOrGenBundle(w.store, o).value, w.cluster.value.spec);
  }

  lemma LoadedBundle(store: Store, o: Outcomes)
    requires o.generator.Some?
    ensures var b := LoadOrGenBundle(store, o);
            b.Some? && (BundleSecret in store && store[BundleSecret].BundleContent? ==>
                          (b.value == store[BundleSecret].bundle <==> o.bundleRead || o.generator == Some(store[BundleSecret].bundle)))
  {
  }

  // Filling in what is missing from bundle b.
  lemma FilledPki(store: Store, b: Bundle, spec: ClusterSpec)
    requires Matches(store, ControlPlaneSecret) && Matches(store, WorkerSecret) && Matches(store, TalosconfigSecret)
    ensures var filled := Filled(Filled(Filled(Filled(store, BundleSecret, BundleContent(b)),
                                               ControlPlaneSecret, ConfigContent(ControlPlaneSecret, b, spec)),
                                        WorkerSecret, ConfigContent(WorkerSecret, b, spec)),
                                 TalosconfigSecret, ConfigContent(TalosconfigSecret, b, spec));
            (Matches(filled, ControlPlaneSecret) && Matches(filled, WorkerSecret) && Matches(filled, TalosconfigSecret)) <==>
            || BundleSecret !in store
            || store[BundleSecret] == BundleContent(b)
            || (ControlPlaneSecret in store && WorkerSecret in store && TalosconfigSecret in store)
  {
  }

  // A transient read error while one configuration is still missing splits the PKI.
  lemma TransientReadErrorSplitsPki(c: Cluster, o: Outcomes)
    requires Undisturbed(c, o) && !o.bundleRead && o.generator == Some(Bundle(2))
    ensures var store := map[BundleSecret := BundleContent(Bundle(1)),
                             ControlPlaneSecret := ConfigContent(ControlPlaneSecret, Bundle(1), c.spec)];
            OnePki(store) && !OnePki(After(World(Some(c), store), Plan(c, store, o)).store)
  {
    var store := map[BundleSecret := BundleContent(Bundle(1)),
                     ControlPlaneSecret := ConfigContent(ControlPlaneSecret, Bundle(1), c.spec)];
    FourSecrets(WorkerSecret);
    OnePkiExactly(World(Some(c), store), o);
  }
}
