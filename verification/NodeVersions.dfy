// The versions recorded for a TalosNode: when they can go back, and when the spec lets go of it.
module NodeVersions {
  import opened Options
  import opened Images
  import opened NodeTypes
  import opened NodePlan
  import opened NodeLife
  import opened NodeHistory
  import C = NodeConvergence
  import NodeCache
  import NodeStale

  // ----- Landing companion annotations -----

  // Every phase Upgrading that was written is followed by its companion annotation.
  predicate Companioned(es: seq<Event>)
  {
    es != [] ==>
      && (es[0].StatusWritten? && es[0].status.phase == Upgrading ==> SetsLastUpgrade(es[1..]))
      && Companioned(es[1..])
  }

  predicate SetsLastUpgrade(es: seq<Event>)
  {
    exists e :: e in es && e.LastUpgradeSet?
  }

  predicate CompanionsLand(order: Order, l: Life, steps: seq<Step>)
    decreases |steps|
  {
    steps != [] ==>
      && (steps[0].Pass? ==> Companioned(Cut(Plan(order, l.node, steps[0].o), steps[0].cut)))
      && CompanionsLand(order, Next(order, l, steps[0]), steps[1..])
  }

  lemma {:induction false} CompanionDisarms(l: Life, es: seq<Event>)
    requires Companioned(es) && (l.armed ==> SetsLastUpgrade(es))
    ensures !After(l, es).armed
    decreases |es|
  {
    if es != [] {
      var l1 := Record(l, es[0]);
      if l1.armed && !(es[0].StatusWritten? && es[0].status.phase == Upgrading) {
        var e :| e in es && e.LastUpgradeSet?;
        assert e in es[1..];
      }
      CompanionDisarms(l1, es[1..]);
    }
  }

  predicate KeepsVersion(es: seq<Event>, version: string)
  {
    forall e :: e in es && e.StatusWritten? ==> e.status.currentVersion == version
  }

  lemma {:induction false} StaysGuarded(l: Life, es: seq<Event>)
    requires KeepsVersion(es, l.node.status.currentVersion)
    ensures After(l, es).unguarded == l.unguarded
    decreases |es|
  {
    if es != [] {
      assert es[0] in es;
      StaysGuarded(Record(l, es[0]), es[1..]);
    }
  }

  lemma DeletionKeepsVersion(node: Node, d: DeletionOutcomes)
    ensures KeepsVersion(DeletionPlan(node, d), node.status.currentVersion)
  {
    LeaveKeepsVersion(node, d);
    LeaveKeepsVersion(node.(status := DeletingStatus(node.status)), d);
    hide CleanupPlan, LeavePlan, SkipDrain;
  }

  lemma LeaveKeepsVersion(node: Node, d: DeletionOutcomes)
    ensures KeepsVersion(LeavePlan(node, d), node.status.currentVersion) && KeepsVersion(CleanupPlan(node, d), node.status.currentVersion)
  {
    CleanupCleansUp(node, d);
    hide CleanupPlan, FilterExclude;
  }

  lemma UpgradeKeepsVersion(order: Order, s: NodeStatus, image: string, origin: Origin, o: Outcomes)
    ensures KeepsVersion(UpgradePlan(order, s, image, origin, o), s.currentVersion)
  {
    hide VersionFromImage, IsDowngrade;
  }

  // Only the completion of an upgrade changes the recorded version.
  lemma ActiveKeepsVersion(order: Order, node: Node, o: Outcomes)
    requires node.status.phase != Upgrading
    ensures KeepsVersion(ActivePlan(order, node, o), node.status.currentVersion)
  {
    UpgradeKeepsVersion(order, node.status, node.ann.upgrade, FromAnnotation, o);
    var v := VersionPlan(order, node, o);
    VersionKeepsVersion(order, node, o);
    C.ConfigPlanIsCalm(v.node, o);
    hide UpgradePlan, VersionPlan, ConfigPlan, CheckUpgradePlan;
  }

  lemma VersionKeepsVersion(order: Order, node: Node, o: Outcomes)
    ensures var v := VersionPlan(order, node, o);
            KeepsVersion(v.events, node.status.currentVersion) && v.node.status == node.status
  {
    hide UpgradePlan, ComputeDesiredImage, IsDowngrade, NormalizeVersion, ConfigIsApplied;
    var d := ComputeDesiredImage(node.spec.talosVersion, node.spec.extensions, node.ann.lastExtensions, node.ann.schematic, o.factory);
    if d.Desired? { UpgradeKeepsVersion(order, node.status, d.image, FromSpec, o); }
  }

  lemma PlanKeepsVersion(order: Order, node: Node, o: Outcomes)
    requires node.status.phase != Upgrading || node.deleting
    ensures KeepsVersion(Plan(order, node, o), node.status.currentVersion)
  {
    if node.deleting {
      DeletionKeepsVersion(node, o.deletion);
    } else {
      ActiveKeepsVersion(order, node, o);
      ActiveKeepsVersion(order, node.(finalizer := true), o);
    }
    hide ActivePlan, DeletionPlan;
  }

  // Completing an upgrade that is not armed.
  lemma CompletionStaysGuarded(order: Order, l: Life, o: Outcomes, cut: nat)
    requires l.node.status.phase == Upgrading && !l.node.deleting && !l.armed
    ensures After(l, Cut(Plan(order, l.node, o), cut)).unguarded == l.unguarded
  {
    var es := Cut(Plan(order, l.node, o), cut);
    CompletionIsShort(order, l.node, o);
    hide Plan, Record;
    OneStaysGuarded(l, FinalizerAdded);
    if |es| == 1 {
      OneStaysGuarded(l, es[0]);
      AfterOne(l, es[0]);
      assert es == [es[0]];
    } else if |es| == 2 {
      OneStaysGuarded(Record(l, es[0]), es[1]);
      AfterOne(Record(l, es[0]), es[1]);
      assert es == [es[0], es[1]] && [es[0], es[1]][1..] == [es[1]];
    }
  }

  lemma CompletionIsShort(order: Order, node: Node, o: Outcomes)
    requires node.status.phase == Upgrading && !node.deleting
    ensures var plan := Plan(order, node, o); |plan| <= 1 || (|plan| == 2 && plan[0] == FinalizerAdded)
  {
    hide UpgradedStatus, UpgradeIsComplete;
  }

  lemma OneStaysGuarded(l: Life, e: Event)
    requires !l.armed
    ensures Record(l, e).unguarded == l.unguarded
    ensures e == FinalizerAdded ==> !Record(l, e).armed
  {
  }

  lemma AfterOne(l: Life, e: Event)
    ensures After(l, [e]) == Record(l, e)
  {
    assert [e][1..] == [];
  }

  lemma StepStaysGuarded(order: Order, l: Life, step: Step)
    requires !l.armed && !l.unguarded
    requires step.Pass? ==> Companioned(Cut(Plan(order, l.node, step.o), step.cut))
    ensures !Next(order, l, step).armed && !Next(order, l, step).unguarded
  {
    if step.Pass? {
      hide Plan, Companioned;
      var es := Cut(Plan(order, l.node, step.o), step.cut);
      CompanionDisarms(l, es);
      if l.node.status.phase == Upgrading && !l.node.deleting {
        CompletionStaysGuarded(order, l, step.o, step.cut);
      } else {
        PlanKeepsVersion(order, l.node, step.o);
        assert forall e :: e in es ==> e in Plan(order, l.node, step.o);
        StaysGuarded(l, es);
      }
    }
  }

  // When companion annotations land, no upgrade is ever declared complete without one.
  lemma {:induction false} LandingIsGuarded(order: Order, l: Life, steps: seq<Step>)
    requires !l.armed && !l.unguarded && CompanionsLand(order, l, steps)
    ensures !Run(order, l, steps).armed && !Run(order, l, steps).unguarded
    decreases |steps|
  {
    hide Next, Plan, Companioned;
    if steps != [] {
      StepStaysGuarded(order, l, steps[0]);
      LandingIsGuarded(order, Next(order, l, steps[0]), steps[1..]);
    }
  }

  // In every run where companion annotations land, the recorded versions never go back, as far
  // as they can be compared.
  lemma RecordedVersionsNeverGoBack(order: Order, l: Life, steps: seq<Step>, i: nat, j: nat)
    requires Fresh(l) && LegalRun(order, l, steps) && CompanionsLand(order, l, steps)
    requires 0 < i <= j < |Run(order, l, steps).versions|
    requires forall k :: i <= k <= j ==> Run(order, l, steps).versions[k] != "" && order(Run(order, l, steps).versions[k]).Some?
    ensures var vs := Run(order, l, steps).versions;
            order(vs[i]).value <= order(vs[j]).value
  {
    FreshKeepsInv(order, l, steps);
    LandingIsGuarded(order, l, steps);
    hide Run;
    Ascending(order, Run(order, l, steps).versions, i, j);
  }

  lemma {:induction false} Ascending(order: Order, vs: seq<string>, i: nat, j: nat)
    requires 0 < i <= j < |vs| && forall k :: 0 < k < |vs| ==> !IsDowngrade(order, vs[k - 1], vs[k])
    requires forall k :: i <= k <= j ==> vs[k] != "" && order(vs[k]).Some?
    ensures order(vs[i]).value <= order(vs[j]).value
    decreases j
  {
    if i < j {
      Ascending(order, vs, i, j - 1);
      assert !IsDowngrade(order, vs[j - 1], vs[j]);
    }
  }

  // The target of a running upgrade, and what completing it records.
  lemma CompletionRecordsTheTarget(order: Order, l: Life, steps: seq<Step>, o: Outcomes, e: Event)
    requires Fresh(l) && LegalRun(order, l, steps)
    requires var r := Run(order, l, steps);
             r.node.status.phase == Upgrading && !r.armed && !r.node.deleting && r.node.finalizer && e in Plan(order, r.node, o)
    ensures var r := Run(order, l, steps);
            && e.StatusWritten?
            && e.status.currentVersion == VersionFromImage(r.node.ann.lastUpgrade)
            && !IsDowngrade(order, r.node.status.currentVersion, e.status.currentVersion)
  {
    FreshKeepsInv(order, l, steps);
  }

  // ----- When the recorded version can go back -----

  // Some outcome of a pass over an upgrading node records an older version, exactly when the
  // companion annotation names an older version, or names none and there is an older one.
  lemma CompletionCanGoBackExactly(order: Order, node: Node)
    requires node.status.phase == Upgrading && node.finalizer && !node.deleting
    ensures var current, expected := node.status.currentVersion, VersionFromImage(node.ann.lastUpgrade);
            (exists o, e :: e in Plan(order, node, o) && e.StatusWritten? && IsDowngrade(order, current, e.status.currentVersion)) <==>
            if expected == "" then exists v :: IsDowngrade(order, current, v) else IsDowngrade(order, current, expected)
  {
    hide VersionFromImage, IsDowngrade;
    var current, expected := node.status.currentVersion, VersionFromImage(node.ann.lastUpgrade);
    if o, e :| e in Plan(order, node, o) && e.StatusWritten? && IsDowngrade(order, current, e.status.currentVersion) {
      assert e.status.currentVersion == o.version.value.tag;
    }
    if expected == "" {
      if v :| IsDowngrade(order, current, v) { Completes(order, node, v); }
    } else if IsDowngrade(order, current, expected) {
      Completes(order, node, expected);
    }
  }

  // What a node that reports version v makes of a running upgrade.
  function Reporting(v: string): Outcomes
  {
    NodeStale.NORMAL.(version := Some(Reported(v, false)))
  }

  lemma Completes(order: Order, node: Node, v: string)
    requires node.status.phase == Upgrading && node.finalizer && !node.deleting
    requires VersionFromImage(node.ann.lastUpgrade) == "" || VersionFromImage(node.ann.lastUpgrade) == v
    ensures Plan(order, node, Reporting(v)) == [StatusWritten(UpgradedStatus(node, v))]
    ensures StatusWritten(UpgradedStatus(node, v)) in Plan(order, node, Reporting(v))
    ensures UpgradedStatus(node, v).currentVersion == v && UpgradedStatus(node, v).phase == Ready
  {
    hide VersionFromImage;
  }

  // Twice the reconcile dies between the Upgrade RPC and its companion annotation; the second
  // time the machine comes back with an older version.
  function BackPath(old_: string, new_: string): seq<Step>
  {
    [Pass(Reporting(new_), 3)] + ([Pass(Reporting(new_), 1)] + ([Pass(Reporting(new_), 2)] + ([Pass(Reporting(old_), 1)] + [])))
  }

  lemma StartsUpgrade(order: Order, l: Life, v: string, cut: nat)
    requires !l.node.deleting && l.node.status.phase in {Unset, Ready} && cut == (if l.node.finalizer then 2 else 3)
    requires l.node.ann.upgrade == "i:" + v && l.node.ann.lastUpgrade == "" && VersionFromImage("i:" + v) == v && v != ""
    requires !IsDowngrade(order, l.node.status.currentVersion, v)
    ensures var n := Next(order, l, Pass(Reporting(v), cut));
            && n.versions == l.versions && n.node.status.currentVersion == l.node.status.currentVersion
            && n.node.finalizer && !n.node.deleting && n.node.status.phase == Upgrading
            && n.node.ann == l.node.ann
  {
    hide VersionFromImage, IsDowngrade;
    var started, sent := StatusWritten(UpgradingStatus(l.node.status)), UpgradeSent("i:" + v, FromAnnotation, true);
    var es := (if l.node.finalizer then [] else [FinalizerAdded]) + [started, sent];
    assert Cut(Plan(order, l.node, Reporting(v)), cut) == es;
    hide Plan;
    var l1 := if l.node.finalizer then l else Record(l, FinalizerAdded);
    assert [started, sent][1..] == [sent];
    AfterOne(Record(l1, started), sent);
    assert After(l1, [started, sent]) == Record(Record(l1, started), sent);
    if !l.node.finalizer {
      assert es[1..] == [started, sent];
    } else {
      assert es == [started, sent];
    }
  }

  lemma CompletesWith(order: Order, l: Life, v: string)
    requires l.node.finalizer && !l.node.deleting && l.node.status.phase == Upgrading && l.node.ann.lastUpgrade == ""
    requires l.node.status.currentVersion != v
    ensures var n := Next(order, l, Pass(Reporting(v), 1));
            && n.versions == l.versions + [v] && n.node.status.currentVersion == v
            && n.node.finalizer && !n.node.deleting && n.node.status.phase == Ready && n.node.ann == l.node.ann
  {
    assert VersionFromImage("") == "";
    Completes(order, l.node, v);
    AfterOne(l, StatusWritten(UpgradedStatus(l.node, v)));
    hide Plan;
    assert Cut(Plan(order, l.node, Reporting(v)), 1) == [StatusWritten(UpgradedStatus(l.node, v))];
  }

  // So without landing companions a legal run can record a version and then an older one.
  lemma RecordedVersionCanGoBack(order: Order, l: Life, old_: string, new_: string)
    requires Fresh(l) && l.node.ann.upgrade == "i:" + new_ && VersionFromImage("i:" + new_) == new_
    requires old_ != "" && new_ != "" && IsDowngrade(order, new_, old_)
    ensures LegalRun(order, l, BackPath(old_, new_)) && Run(order, l, BackPath(old_, new_)).versions == ["", new_, old_]
  {
    hide Next, Run, LegalRun, VersionFromImage;
    var p1, p2, p3, p4 := Pass(Reporting(new_), 3), Pass(Reporting(new_), 1), Pass(Reporting(new_), 2), Pass(Reporting(old_), 1);
    StartsUpgrade(order, l, new_, 3);
    var l1 := Next(order, l, p1);
    CompletesWith(order, l1, new_);
    var l2 := Next(order, l1, p2);
    StartsUpgrade(order, l2, new_, 2);
    var l3 := Next(order, l2, p3);
    CompletesWith(order, l3, old_);
    RunCons(order, l, p1, [p2] + ([p3] + ([p4] + [])));
    RunCons(order, l1, p2, [p3] + ([p4] + []));
    RunCons(order, l2, p3, [p4] + []);
    RunCons(order, l3, p4, []);
    RunNothing(order, Next(order, l3, p4));
  }

  // ----- The spec lets go -----

  // The recorded version is the one the spec asks for, and the cache names its schematic.
  predicate Settled(node: Node)
  {
    node.spec.talosVersion == "" ||
    (NormalizeVersion(node.status.currentVersion) == NormalizeVersion(node.spec.talosVersion) && !C.Dirty(node))
  }

  // The spec stays as it is.
  predicate Frozen(steps: seq<Step>)
  {
    forall s :: s in steps ==>
                  match s
                  case EditSpec(_) => false
                  case Pass(o, _) => o.edit.None?
                  case _ => true
  }

  predicate SendsForSpec(es: seq<Event>)
  {
    exists e :: e in es && e.UpgradeSent? && e.origin == FromSpec
  }

  // No reconcile of the run sends an Upgrade RPC for the spec.
  predicate NoSpecUpgrades(order: Order, l: Life, steps: seq<Step>)
    decreases |steps|
  {
    steps != [] ==>
      && (steps[0].Pass? ==> !SendsForSpec(Cut(Plan(order, l.node, steps[0].o), steps[0].cut)))
      && NoSpecUpgrades(order, Next(order, l, steps[0]), steps[1..])
  }

  lemma UpgradeIsFor(order: Order, s: NodeStatus, image: string, o: Outcomes)
    ensures !SendsForSpec(UpgradePlan(order, s, image, FromAnnotation, o))
  {
    hide VersionFromImage, IsDowngrade, UpgradingStatus;
  }

  // A settled node's plan sends nothing for the spec and leaves the cache alone.
  lemma SettledVersionPass(order: Order, node: Node, o: Outcomes)
    requires Settled(node) && o.edit.None?
    ensures VersionPlan(order, node, o).events == []
    ensures !VersionPlan(order, node, o).done ==> VersionPlan(order, node, o).node == node
  {
    C.FrozenVersionPlan(order, node, o);
    if C.Considers(node, o) { C.CleanWants(node, o); }
    hide VersionPlan, C.Dirty, NormalizeVersion, ComputeDesiredImage, IsDowngrade;
  }

  lemma SettledActive(order: Order, node: Node, o: Outcomes)
    requires Settled(node) && o.edit.None?
    ensures !SendsForSpec(ActivePlan(order, node, o)) && NodeCache.CachesNothing(ActivePlan(order, node, o))
  {
    SettledVersionPass(order, node, o);
    UpgradeIsFor(order, node.status, node.ann.upgrade, o);
    NodeCache.NoCachingElsewhere(order, node, node.ann.upgrade, FromAnnotation, o);
    NoUpgradeElsewhere(node, o);
    hide VersionPlan, UpgradePlan, CheckUpgradePlan, ConfigPlan, Settled;
  }

  lemma NoUpgradeElsewhere(node: Node, o: Outcomes)
    ensures !SendsForSpec(ConfigPlan(node, o)) && NodeCache.CachesNothing(ConfigPlan(node, o)) && !SendsForSpec(CheckUpgradePlan(node, o))
  {
    ApplyConfigures(node, o.apply);
    hide ApplyOrErrorPlan, IsNodeUpToDate, UpgradedStatus, UpgradeIsComplete;
  }

  lemma SettledPlan(order: Order, node: Node, o: Outcomes)
    requires Settled(node) && o.edit.None?
    ensures !SendsForSpec(Plan(order, node, o)) && NodeCache.CachesNothing(Plan(order, node, o))
  {
    if node.deleting {
      DeletionLeavesAndCleansUp(node, o.deletion);
    } else {
      var n := node.(finalizer := true);
      assert Settled(n) by { hide NormalizeVersion; }
      SettledActive(order, node, o);
      SettledActive(order, n, o);
    }
    hide ActivePlan, DeletionPlan;
  }

  // Histories only get longer; one of the same length never changed the recorded version.
  lemma {:induction false} VersionsGrow(l: Life, es: seq<Event>)
    ensures var l' := After(l, es);
            l.versions <= l'.versions && (l'.versions == l.versions ==> l'.node.status.currentVersion == l.node.status.currentVersion)
    decreases |es|
  {
    if es != [] {
      OneEventGrows(l, es[0]);
      VersionsGrow(Record(l, es[0]), es[1..]);
      hide Record;
    }
  }

  lemma OneEventGrows(l: Life, e: Event)
    ensures var l' := Record(l, e);
            && l.versions <= l'.versions
            && (l'.versions == l.versions ==> l'.node.status.currentVersion == l.node.status.currentVersion)
            && (|l'.versions| == |l.versions| ==> l'.versions == l.versions)
  {
  }

  lemma {:induction false} SpecAndCacheStay(l: Life, es: seq<Event>)
    requires NodeCache.CachesNothing(es)
    ensures var n := After(l, es).node;
            n.spec == l.node.spec && n.ann.schematic == l.node.ann.schematic && n.ann.lastExtensions == l.node.ann.lastExtensions
    decreases |es|
  {
    if es != [] {
      assert es[0] in es;
      SpecAndCacheStay(Record(l, es[0]), es[1..]);
    }
  }

  lemma SettledStays(node: Node, node': Node)
    requires Settled(node) && node'.spec == node.spec && node'.status.currentVersion == node.status.currentVersion
    requires node'.ann.schematic == node.ann.schematic && node'.ann.lastExtensions == node.ann.lastExtensions
    ensures Settled(node')
  {
    hide NormalizeVersion, CacheHit;
  }

  lemma SettledStep(order: Order, l: Life, step: Step)
    requires Settled(l.node) && Frozen([step])
    ensures var l' := Next(order, l, step);
            && l.versions <= l'.versions && (l'.versions == l.versions ==> Settled(l'.node))
            && (step.Pass? ==> !SendsForSpec(Cut(Plan(order, l.node, step.o), step.cut)))
  {
    assert step in [step];
    if step.Pass? {
      hide Settled, Plan;
      var es := Cut(Plan(order, l.node, step.o), step.cut);
      SettledPlan(order, l.node, step.o);
      assert forall e :: e in es ==> e in Plan(order, l.node, step.o);
      VersionsGrow(l, es);
      SpecAndCacheStay(l, es);
      if After(l, es).versions == l.versions { SettledStays(l.node, After(l, es).node); }
    } else {
      SettledStays(l.node, Next(order, l, step).node);
    }
  }

  lemma {:induction false} RunGrows(order: Order, l: Life, steps: seq<Step>)
    ensures l.versions <= Run(order, l, steps).versions
    decreases |steps|
  {
    if steps != [] {
      if steps[0].Pass? { VersionsGrow(l, Cut(Plan(order, l.node, steps[0].o), steps[0].cut)); }
      hide After, Plan;
      RunGrows(order, Next(order, l, steps[0]), steps[1..]);
    }
  }

  // Once the recorded version is the one the spec asks for, an unchanged spec never triggers
  // another upgrade, in any run in which the recorded version does not change. Any version will
  // do, even one that does not parse.
  lemma {:induction false} SettledSpecIsQuiet(order: Order, l: Life, steps: seq<Step>)
    requires Settled(l.node) && Frozen(steps) && Run(order, l, steps).versions == l.versions
    ensures NoSpecUpgrades(order, l, steps) && Settled(Run(order, l, steps).node)
    decreases |steps|
  {
    if steps != [] {
      assert steps[0] in steps && forall s :: s in steps[1..] ==> s in steps;
      SettledStep(order, l, steps[0]);
      RunGrows(order, Next(order, l, steps[0]), steps[1..]);
      hide Settled, Next, Plan, SendsForSpec;
      SettledSpecIsQuiet(order, Next(order, l, steps[0]), steps[1..]);
    }
  }

  // And completing a spec-driven upgrade records just that version: for every version that is
  // neither empty nor has a colon, whatever the schematic.
  lemma CompletionSettles(order: Order, node: Node, o: Outcomes, e: Event, asked: Outcomes)
    requires node.status.phase == Upgrading && node.finalizer && !node.deleting
    requires node.spec.talosVersion != "" && ':' !in node.spec.talosVersion && !C.Dirty(node)
    requires C.Wanted(node, asked).Desired? && node.ann.lastUpgrade == C.Wanted(node, asked).image
    requires e in Plan(order, node, o) && e.StatusWritten?
    ensures Settled(node.(status := e.status))
  {
    hide VersionFromImage, ComputeDesiredImage, CacheHit;
    var tag := NormalizeVersion(node.spec.talosVersion);
    ImageRoundTrip(node.spec.talosVersion, node.spec.extensions, node.ann.lastExtensions, node.ann.schematic, asked.factory);
    assert tag != "" && NormalizeVersion(tag) == tag;
    assert e.status.currentVersion == tag;
  }
}
