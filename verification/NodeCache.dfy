// The schematic cache is invisible: a cached image is the one the factory would have named.
module NodeCache {
  import opened Images
  import opened NodeTypes
  import opened NodePlan
  import opened NodeLife

  // An Image Factory whose answer depends only on which extensions are asked for.
  type Factory = seq<string> -> string

  ghost predicate OrderBlind(factory: Factory)
  {
    forall a, b :: multiset(a) == multiset(b) ==> factory(a) == factory(b)
  }

  // Names are plain, and every answer received came from the factory.
  predicate AnsweredPass(factory: Factory, node: Node, o: Outcomes)
  {
    && (o.factory.Schematic? ==> o.factory.id == factory(node.spec.extensions))
    && (o.edit.Some? ==> PlainNames(o.edit.value.spec.extensions))
  }

  predicate Answered(order: Order, factory: Factory, l: Life, steps: seq<Step>)
    decreases |steps|
  {
    steps != [] ==>
      && match steps[0] {
        case Pass(o, _) => AnsweredPass(factory, l.node, o)
        case EditSpec(spec) => PlainNames(spec.extensions)
        case _ => true
      }
      && Answered(order, factory, Next(order, l, steps[0]), steps[1..])
  }

  ghost predicate Faithful(factory: Factory, ann: Annotations)
  {
    ann.schematic == "" ||
    exists asked :: PlainNames(asked) && CanonicalExtensions(asked) == ann.lastExtensions && factory(asked) == ann.schematic
  }

  lemma FaithfulIsAboutTwo(factory: Factory, a: Annotations, b: Annotations)
    requires Faithful(factory, a) && b.schematic == a.schematic && b.lastExtensions == a.lastExtensions
    ensures Faithful(factory, b)
  {
  }

  // The two annotations only ever change together, to an answer for the current list.
  predicate CachesOnly(factory: Factory, extensions: seq<string>, es: seq<Event>)
  {
    && (forall e :: e in es && e.SchematicSet? ==> e.id == factory(extensions) && e.canonical == CanonicalExtensions(extensions))
    && (forall e :: e in es && e.UserEdited? ==> PlainNames(e.edit.spec.extensions))
  }

  lemma OneEvent(l: Life, e: Event)
    ensures var n := Record(l, e).node;
            && n.spec.extensions == (if e.UserEdited? then e.edit.spec.extensions else l.node.spec.extensions)
            && (if e.SchematicSet? then n.ann.schematic == e.id && n.ann.lastExtensions == e.canonical
                else n.ann.schematic == l.node.ann.schematic && n.ann.lastExtensions == l.node.ann.lastExtensions)
  {
    hide Note;
  }

  lemma {:induction false} EventsKeepFaithful(factory: Factory, l: Life, extensions: seq<string>, es: seq<Event>)
    requires Faithful(factory, l.node.ann) && PlainNames(extensions) && CachesOnly(factory, extensions, es)
    requires PlainNames(l.node.spec.extensions)
    ensures Faithful(factory, After(l, es).node.ann) && PlainNames(After(l, es).node.spec.extensions)
    decreases |es|
  {
    hide CanonicalExtensions, PlainNames, Record;
    if es != [] {
      assert es[0] in es;
      OneEvent(l, es[0]);
      EventsKeepFaithful(factory, Record(l, es[0]), extensions, es[1..]);
    }
  }

  lemma PlanCachesOnly(order: Order, factory: Factory, node: Node, o: Outcomes)
    requires AnsweredPass(factory, node, o)
    ensures CachesOnly(factory, node.spec.extensions, Plan(order, node, o))
  {
    hide PlainNames, CanonicalExtensions, ActivePlan, DeletionPlan;
    var n := node.(finalizer := true);
    if !node.deleting && (node.finalizer || o.addFinalizer) {
      ActiveCachesOnly(order, factory, n, o);
      assert node.finalizer ==> n == node;
    } else if node.deleting {
      DeletionCachesNothing(node, o.deletion);
    }
  }

  predicate CachesNothing(es: seq<Event>)
  {
    forall e :: e in es ==> !e.SchematicSet? && !e.UserEdited?
  }

  lemma NoCachingElsewhere(order: Order, node: Node, image: string, origin: Origin, o: Outcomes)
    ensures CachesNothing(UpgradePlan(order, node.status, image, origin, o))
    ensures CachesNothing(CheckUpgradePlan(node, o))
    ensures CachesNothing(ResetPlan(node, o))
  {
    UpgradeUpgrades(order, node, image, origin, o);
    hide UpgradePlan, CheckUpgradePlan;
  }

  lemma ApplyCachesNothing(node: Node, a: ApplyOutcomes)
    ensures CachesNothing(ApplyOrErrorPlan(node, a))
  {
    ApplyConfigures(node, a);
    hide ApplyOrErrorPlan;
  }

  lemma DeletionCachesNothing(node: Node, d: DeletionOutcomes)
    ensures CachesNothing(DeletionPlan(node, d))
  {
    DeletionLeavesAndCleansUp(node, d);
    hide DeletionPlan;
  }

  lemma VersionCachesOnly(order: Order, factory: Factory, node: Node, o: Outcomes)
    requires AnsweredPass(factory, node, o)
    ensures CachesOnly(factory, node.spec.extensions, VersionPlan(order, node, o).events)
  {
    hide PlainNames, CanonicalExtensions, UpgradePlan, InstallerImage, IsDowngrade, NormalizeVersion, ConfigIsApplied;
    var d := ComputeDesiredImage(node.spec.talosVersion, node.spec.extensions, node.ann.lastExtensions, node.ann.schematic, o.factory);
    if d.Desired? { NoCachingElsewhere(order, node, d.image, FromSpec, o); }
  }

  lemma ActiveCachesOnly(order: Order, factory: Factory, node: Node, o: Outcomes)
    requires AnsweredPass(factory, node, o)
    ensures CachesOnly(factory, node.spec.extensions, ActivePlan(order, node, o))
  {
    hide PlainNames, CanonicalExtensions, UpgradePlan, CheckUpgradePlan, ResetPlan, ApplyOrErrorPlan, VersionPlan;
    var v := VersionPlan(order, node, o);
    NoCachingElsewhere(order, node, node.ann.upgrade, FromAnnotation, o);
    VersionCachesOnly(order, factory, node, o);
    NoCachingElsewhere(order, v.node, "", FromSpec, o);
    ApplyCachesNothing(v.node, o.apply);
    assert CachesNothing(ConfigPlan(v.node, o));
  }

  lemma PassKeepsFaithful(order: Order, factory: Factory, l: Life, o: Outcomes, cut: nat)
    requires Faithful(factory, l.node.ann) && PlainNames(l.node.spec.extensions)
    requires AnsweredPass(factory, l.node, o)
    ensures var r := Next(order, l, Pass(o, cut)); Faithful(factory, r.node.ann) && PlainNames(r.node.spec.extensions)
  {
    hide Plan, PlainNames, CanonicalExtensions, Faithful;
    var plan := Plan(order, l.node, o);
    PlanCachesOnly(order, factory, l.node, o);
    assert forall e :: e in Cut(plan, cut) ==> e in plan;
    EventsKeepFaithful(factory, l, l.node.spec.extensions, Cut(plan, cut));
  }

  lemma StepKeepsFaithful(order: Order, factory: Factory, l: Life, step: Step)
    requires Faithful(factory, l.node.ann) && PlainNames(l.node.spec.extensions)
    requires Answered(order, factory, l, [step])
    ensures var r := Next(order, l, step); Faithful(factory, r.node.ann) && PlainNames(r.node.spec.extensions)
  {
    hide Plan, PlainNames, CanonicalExtensions, After, Cut, Faithful;
    if step.Pass? {
      PassKeepsFaithful(order, factory, l, step.o, step.cut);
    } else {
      FaithfulIsAboutTwo(factory, l.node.ann, Next(order, l, step).node.ann);
    }
  }

  lemma {:induction false} RunKeepsFaithful(order: Order, factory: Factory, l: Life, steps: seq<Step>)
    requires Faithful(factory, l.node.ann) && PlainNames(l.node.spec.extensions)
    requires Answered(order, factory, l, steps)
    ensures var r := Run(order, l, steps); Faithful(factory, r.node.ann) && PlainNames(r.node.spec.extensions)
    decreases |steps|
  {
    hide PlainNames, Next, Faithful;
    if steps != [] {
      assert Answered(order, factory, l, [steps[0]]) by { assert [steps[0]][1..] == []; }
      StepKeepsFaithful(order, factory, l, steps[0]);
      RunKeepsFaithful(order, factory, Next(order, l, steps[0]), steps[1..]);
    }
  }

  // ----- Which image a node is sent -----

  // The image a spec stands for: the installer of the factory's schematic for the extensions, or
  // the plain one when there are none, tagged with the version.
  function ImageFor(factory: Factory, spec: NodeSpec): string
  {
    var tag := if spec.talosVersion == "" || spec.talosVersion[0] == 'v' then spec.talosVersion else "v" + spec.talosVersion;
    if spec.extensions == [] then "ghcr.io/siderolabs/installer:" + tag
    else "factory.talos.dev/installer/" + factory(spec.extensions) + ":" + tag
  }

  lemma SentFor(order: Order, s: NodeStatus, image: string, origin: Origin, o: Outcomes, e: Event)
    requires e in UpgradePlan(order, s, image, origin, o) && e.UpgradeSent?
    ensures e.image == image && e.origin == origin
  {
    hide VersionFromImage, IsDowngrade, UpgradingStatus;
  }

  lemma SentByActive(order: Order, node: Node, o: Outcomes, e: Event)
    requires e in ActivePlan(order, node, o) && e.UpgradeSent?
    ensures e.origin == FromAnnotation ==> e.image == node.ann.upgrade
    ensures e.origin == FromSpec ==> var d := Computed(node, o); d.Desired? && e.image == d.image
  {
    var v := VersionPlan(order, node, o);
    UpgradeUpgrades(order, node, node.ann.upgrade, FromAnnotation, o);
    ApplyConfigures(v.node, o.apply);
    SentByVersion(order, node, o, e);
    if e in UpgradePlan(order, node.status, node.ann.upgrade, FromAnnotation, o) {
      SentFor(order, node.status, node.ann.upgrade, FromAnnotation, o, e);
    }
    hide UpgradePlan, VersionPlan, ApplyOrErrorPlan, ComputeDesiredImage;
  }

  function Computed(node: Node, o: Outcomes): Desired
  {
    ComputeDesiredImage(node.spec.talosVersion, node.spec.extensions, node.ann.lastExtensions, node.ann.schematic, o.factory)
  }

  lemma SentByVersion(order: Order, node: Node, o: Outcomes, e: Event)
    requires e.UpgradeSent?
    ensures e in VersionPlan(order, node, o).events ==> e.origin == FromSpec && Computed(node, o).Desired? && e.image == Computed(node, o).image
  {
    var d := Computed(node, o);
    if e in VersionPlan(order, node, o).events {
      hide UpgradePlan, ComputeDesiredImage, IsDowngrade, NormalizeVersion, ConfigIsApplied;
      SentFor(order, node.status, d.image, FromSpec, o, e);
    }
  }

  // In every reachable state, whatever image a pass sends is the one the annotation names or, for
  // the spec, the one the spec read stands for, cached or not.
  lemma ImagesAreNamed(order: Order, factory: Factory, l: Life, steps: seq<Step>, o: Outcomes, e: Event)
    requires OrderBlind(factory) && Fresh(l) && PlainNames(l.node.spec.extensions) && Answered(order, factory, l, steps)
    requires var n := Run(order, l, steps).node; AnsweredPass(factory, n, o) && e in Plan(order, n, o) && e.UpgradeSent?
    ensures var n := Run(order, l, steps).node;
            match e.origin case FromAnnotation => e.image == n.ann.upgrade case FromSpec => e.image == ImageFor(factory, n.spec)
  {
    hide Plan, Run, Answered, Fresh, ImageFor, PlainNames, OrderBlind;
    assert Faithful(factory, l.node.ann) by { hide *; FreshIsFaithful(factory, l); }
    RunKeepsFaithful(order, factory, l, steps);
    PassNames(order, factory, Run(order, l, steps).node, o, e);
  }

  lemma FreshIsFaithful(factory: Factory, l: Life)
    requires Fresh(l)
    ensures Faithful(factory, l.node.ann)
  {
  }

  lemma PassNames(order: Order, factory: Factory, n: Node, o: Outcomes, e: Event)
    requires OrderBlind(factory) && PlainNames(n.spec.extensions) && Faithful(factory, n.ann)
    requires AnsweredPass(factory, n, o) && e in Plan(order, n, o) && e.UpgradeSent?
    ensures match e.origin case FromAnnotation => e.image == n.ann.upgrade case FromSpec => e.image == ImageFor(factory, n.spec)
  {
    hide ActivePlan, DeletionPlan, ImageFor, Faithful, ComputeDesiredImage;
    var m := n.(finalizer := true);
    if n.deleting { DeletionLeavesAndCleansUp(n, o.deletion); }
    assert e in ActivePlan(order, m, o) by { assert n.finalizer ==> m == n; }
    SentByActive(order, m, o, e);
    if e.origin == FromSpec {
      assert Computed(m, o) == Computed(n, o);
      ComputedIs(factory, n, o);
    }
  }

  lemma ComputedIs(factory: Factory, n: Node, o: Outcomes)
    requires OrderBlind(factory) && PlainNames(n.spec.extensions) && Faithful(factory, n.ann)
    requires AnsweredPass(factory, n, o) && Computed(n, o).Desired?
    ensures Computed(n, o).image == ImageFor(factory, n.spec)
  {
    hide CanonicalExtensions, PlainNames;
    if n.spec.extensions != [] && CacheHit(n.spec.extensions, n.ann.lastExtensions, n.ann.schematic) {
      var asked :| PlainNames(asked) && CanonicalExtensions(asked) == n.ann.lastExtensions && factory(asked) == n.ann.schematic;
      CanonicalKeyIsExact(asked, n.spec.extensions);
    }
  }

  // In every reachable state the image computed from the cache is the image a fresh factory
  // call would give, and the one the spec stands for.
  lemma CacheIsTransparent(order: Order, factory: Factory, l: Life, steps: seq<Step>, reply: FactoryReply)
    requires OrderBlind(factory) && Fresh(l) && PlainNames(l.node.spec.extensions)
    requires Answered(order, factory, l, steps)
    requires var n := Run(order, l, steps).node;
             CacheHit(n.spec.extensions, n.ann.lastExtensions, n.ann.schematic)
    ensures var n := Run(order, l, steps).node;
            var cached := ComputeDesiredImage(n.spec.talosVersion, n.spec.extensions, n.ann.lastExtensions, n.ann.schematic, reply);
            var asked := ComputeDesiredImage(n.spec.talosVersion, n.spec.extensions, "", "", Schematic(factory(n.spec.extensions)));
            cached.Desired? && asked.Desired? && cached.image == asked.image == ImageFor(factory, n.spec)
  {
    hide Run, Answered, Fresh, Faithful, PlainNames, OrderBlind, ComputeDesiredImage, ImageFor, CacheHit;
    assert Faithful(factory, l.node.ann) by { hide *; FreshIsFaithful(factory, l); }
    RunKeepsFaithful(order, factory, l, steps);
    HitNames(factory, Run(order, l, steps).node, reply);
  }

  lemma HitNames(factory: Factory, n: Node, reply: FactoryReply)
    requires OrderBlind(factory) && PlainNames(n.spec.extensions) && Faithful(factory, n.ann)
    requires CacheHit(n.spec.extensions, n.ann.lastExtensions, n.ann.schematic)
    ensures var cached := ComputeDesiredImage(n.spec.talosVersion, n.spec.extensions, n.ann.lastExtensions, n.ann.schematic, reply);
            var asked := ComputeDesiredImage(n.spec.talosVersion, n.spec.extensions, "", "", Schematic(factory(n.spec.extensions)));
            cached.Desired? && asked.Desired? && cached.image == asked.image == ImageFor(factory, n.spec)
  {
    hide CanonicalExtensions, PlainNames;
    var asked :| PlainNames(asked) && CanonicalExtensions(asked) == n.ann.lastExtensions && factory(asked) == n.ann.schematic;
    CanonicalKeyIsExact(asked, n.spec.extensions);
  }

  // For one version, two specs stand for the same image exactly when neither has extensions, or
  // both have and the factory gives them one schematic.
  lemma ImagesDifferExactly(factory: Factory, a: NodeSpec, b: NodeSpec)
    requires a.talosVersion == b.talosVersion
    ensures ImageFor(factory, a) == ImageFor(factory, b) <==>
            (a.extensions == [] && b.extensions == []) ||
            (a.extensions != [] && b.extensions != [] && factory(a.extensions) == factory(b.extensions))
  {
    var p, x, y := "factory.talos.dev/installer/", ImageFor(factory, a), ImageFor(factory, b);
    var tag := if a.talosVersion == "" || a.talosVersion[0] == 'v' then a.talosVersion else "v" + a.talosVersion;
    assert a.extensions != [] ==> x == p + factory(a.extensions) + (":" + tag) && x[0] == 'f';
    assert b.extensions != [] ==> y == p + factory(b.extensions) + (":" + tag) && y[0] == 'f';
    if a.extensions != [] && b.extensions != [] && x == y {
      Middle(p, factory(a.extensions), factory(b.extensions), ":" + tag);
    }
    assert a.extensions == [] ==> x[0] == 'g';
    assert b.extensions == [] ==> y[0] == 'g';
  }

  lemma Middle(p: string, x: string, y: string, t: string)
    requires p + x + t == p + y + t
    ensures x == y
  {
    assert |x| == |y|;
    assert x == (p + x + t)[|p|..|p| + |x|];
    assert y == (p + y + t)[|p|..|p| + |y|];
  }

  // A reconcile that stops right after recording a new schematic leaves a clean cache behind. The
  // upgrade it was about to start is then started by a later one exactly when the version
  // itself still asks for it: a change of extensions alone is lost.
  lemma ExtensionChangeSurvivesExactly(order: Order, node: Node, id: string, o: Outcomes)
    requires node.spec.talosVersion != "" && ConfigIsApplied(node.status) && node.spec.extensions != [] && id != ""
    ensures var node' := Apply(node, SchematicSet(id, CanonicalExtensions(node.spec.extensions)));
            var wanted := NormalizeVersion(node.spec.talosVersion);
            && VersionPlan(order, node', o.(factory := Schematic(id))).done == VersionPlan(order, node', o).done
            && (VersionPlan(order, node', o).done <==>
                  wanted != NormalizeVersion(node.status.currentVersion) && !IsDowngrade(order, node.status.currentVersion, wanted))
  {
    hide UpgradePlan, IsDowngrade, NormalizeVersion, CanonicalExtensions;
    var node' := Apply(node, SchematicSet(id, CanonicalExtensions(node.spec.extensions)));
    assert CacheHit(node'.spec.extensions, node'.ann.lastExtensions, node'.ann.schematic);
  }
}
