// How upgrades turn out: exactly when one is sent, what it leaves whatever its calls do, and that
// it ends in a node that is Ready with the version it was sent.
module UpgradeOutcomes {
  import opened Conditions
  import opened Images
  import opened NodeTypes
  import opened NodePlan
  import opened NodeLife
  import opened NodeOutcomes

  // The machine answers and can be upgraded, and phase Upgrading gets written.
  predicate Upgradable(o: Outcomes)
  {
    o.talosconfig == TcFound && o.dial && o.version.Some? && !o.version.value.container && o.upgradingStatus
  }

  // The image has a tag, and not of an older version.
  predicate Newer(order: Order, s: NodeStatus, image: string)
  {
    VersionFromImage(image) != "" && !IsDowngrade(order, s.currentVersion, VersionFromImage(image))
  }

  function Recorded(node: Node, image: string, lands: bool): Node
  {
    if lands then node.(ann := node.ann.(lastUpgrade := image)) else node
  }

  // The node after an attempt that was not cut short.
  function Left(order: Order, node: Node, image: string, o: Outcomes): Node
  {
    if VersionFromImage(image) == "" then node
    else if IsDowngrade(order, node.status.currentVersion, VersionFromImage(image)) then Recorded(node, image, o.lastUpgradePatch)
    else if !Upgradable(o) then node
    else Recorded(node, image, o.lastUpgradePatch).(
           status := node.status.(phase := if !o.upgrade && o.upgradeErrorStatus then Errored else Upgrading,
                                  conditions := node.status.conditions[TalosVersionUpToDate := False]))
  }

  lemma AttemptLeaves(order: Order, node: Node, image: string, origin: Origin, o: Outcomes)
    ensures NodeAfter(node, UpgradePlan(order, node.status, image, origin, o)) == Left(order, node, image, o)
  {
    hide VersionFromImage, IsDowngrade, NodeAfter, Apply, UpgradeEnd;
    var es := UpgradePlan(order, node.status, image, origin, o);
    OneWrite(node, image, node.status);
    NodeCons(node, LastUpgradeSet(image), []);
    if Newer(order, node.status, image) && Upgradable(o) {
      var upgrading := node.status.(phase := Upgrading, conditions := node.status.conditions[TalosVersionUpToDate := False]);
      var n, end := node.(status := upgrading), UpgradeEnd(node.status, image, o);
      assert es == [StatusWritten(upgrading)] + ([UpgradeSent(image, origin, o.upgrade)] + end);
      OneWrite(node, image, upgrading);
      OneWrite(n, image, upgrading);
      NodeCons(node, StatusWritten(upgrading), [UpgradeSent(image, origin, o.upgrade)] + end);
      NodeCons(n, UpgradeSent(image, origin, o.upgrade), end);
      EndLeaves(n, node.status, image, o);
    }
  }

  // From the RPC on.
  lemma EndLeaves(n: Node, s: NodeStatus, image: string, o: Outcomes)
    requires n.status == s.(phase := Upgrading, conditions := s.conditions[TalosVersionUpToDate := False])
    ensures NodeAfter(n, UpgradeEnd(s, image, o)) ==
            Recorded(n, image, o.lastUpgradePatch).(status := n.status.(phase := if !o.upgrade && o.upgradeErrorStatus then Errored else Upgrading))
  {
    hide NodeAfter, Apply;
    var recorded, failed := LastUpgradeSet(image), StatusWritten(n.status.(phase := Errored));
    var r, f := if o.lastUpgradePatch then [recorded] else [], if !o.upgrade && o.upgradeErrorStatus then [failed] else [];
    assert UpgradeEnd(s, image, o) == r + f;
    NodeCat(n, r, f);
    OneWrite(n, image, failed.status);
    OneWrite(Recorded(n, image, true), image, failed.status);
    NodeCons(n, recorded, []);
    NodeCons(n, failed, []);
    NodeCons(Recorded(n, image, true), failed, []);
  }

  lemma AttemptSends(order: Order, s: NodeStatus, image: string, origin: Origin, o: Outcomes, e: Event)
    requires e.UpgradeSent?
    ensures e in UpgradePlan(order, s, image, origin, o) <==> Newer(order, s, image) && Upgradable(o) && e == UpgradeSent(image, origin, o.upgrade)
  {
    hide VersionFromImage, IsDowngrade, UpgradingStatus;
    var es := UpgradePlan(order, s, image, origin, o);
    assert Newer(order, s, image) && Upgradable(o) ==> es[1] == UpgradeSent(image, origin, o.upgrade);
  }

  // ----- The annotation -----

  // A pass over a node with an upgrade annotation pending sends it exactly when the image has a tag
  // that is no downgrade, and the machine can be upgraded. A downgrade is consumed; a failed RPC
  // leaves the node in error, its trigger consumed; otherwise the node is upgrading.
  lemma AnnotatedUpgradeEndsIn(order: Order, l: Life, o: Outcomes, cut: nat, e: Event)
    requires !l.node.deleting && (l.node.finalizer || o.addFinalizer) && l.node.status.phase != Upgrading && C.AnnotationPending(l.node)
    requires |Plan(order, l.node, o)| <= cut && e.UpgradeSent?
    ensures var n, es := l.node, C.Events(order, l, Pass(o, cut));
            && (e in es <==> Newer(order, n.status, n.ann.upgrade) && Upgradable(o) && e == UpgradeSent(n.ann.upgrade, FromAnnotation, o.upgrade))
            && Next(order, l, Pass(o, cut)).node == Left(order, n.(finalizer := true), n.ann.upgrade, o)
  {
    hide UpgradePlan, NodeAfter, Apply, After, Newer, Upgradable, Left;
    var n, m := l.node, l.node.(finalizer := true);
    var es := UpgradePlan(order, n.status, n.ann.upgrade, FromAnnotation, o);
    AttemptLeaves(order, m, n.ann.upgrade, FromAnnotation, o);
    AttemptSends(order, n.status, n.ann.upgrade, FromAnnotation, o, e);
    InTail(FinalizerAdded, es, e);
    NodeCons(n, FinalizerAdded, es);
    OneWrite(n, "", n.status);
    AfterIsNodeAfter(l, Plan(order, n, o));
    assert Cut(Plan(order, n, o), cut) == Plan(order, n, o) == if n.finalizer then es else [FinalizerAdded] + es;
    assert n.finalizer ==> m == n;
  }

  // ----- The spec -----

  // The same for the spec, of a configured node whose annotation has been dealt with: a pass
  // attempts the upgrade to the image it computed exactly when the schematic is new or the version
  // another than the one on record, and no downgrade. A new schematic is recorded first.
  lemma SpecUpgradeEndsIn(order: Order, l: Life, o: Outcomes, cut: nat, e: Event)
    requires l.node.finalizer && !l.node.deleting && l.node.status.phase != Upgrading && !C.AnnotationPending(l.node)
    requires C.Attempts(order, l.node, o) && o.edit.None? && |Plan(order, l.node, o)| <= cut && e.UpgradeSent?
    ensures var n, es := l.node, C.Events(order, l, Pass(o, cut));
            var d := C.Wanted(n, o);
            var cached := if d.newSchematic == "" then n else n.(ann := n.ann.(schematic := d.newSchematic, lastExtensions := CanonicalExtensions(n.spec.extensions)));
            && (e in es <==> Newer(order, n.status, d.image) && Upgradable(o) && e == UpgradeSent(d.image, FromSpec, o.upgrade))
            && Next(order, l, Pass(o, cut)).node == Left(order, cached, d.image, o)
  {
    hide UpgradePlan, VersionPlan, ComputeDesiredImage, CanonicalExtensions, NodeAfter, After, Newer, Upgradable, Left, IsDowngrade, NormalizeVersion, C.Dirty;
    var n, d := l.node, C.Wanted(l.node, o);
    var head, es := C.CacheWrites(n, o), UpgradePlan(order, n.status, d.image, FromSpec, o);
    C.FrozenVersionPlan(order, n, o);
    if d.newSchematic != "" { C.NewSchematicIsCanonical(n, o); }
    var cached := NodeAfter(n, head);
    if head != [] { NodeCons(n, head[0], []); } else { NodeCons(n, FinalizerAdded, []); }
    AttemptLeaves(order, cached, d.image, FromSpec, o);
    AttemptSends(order, n.status, d.image, FromSpec, o, e);
    NodeCat(n, head, es);
    assert VersionPlan(order, n, o).done by { MustAttempt(order, n, o); }
    assert Cut(Plan(order, n, o), cut) == Plan(order, n, o) == head + es;
    AfterIsNodeAfter(l, head + es);
    assert e in head + es <==> e in es;
  }

  // A configured node whose extensions have no schematic yet, and get none on record now: the pass
  // ends there, doing nothing at all.
  lemma NothingWithoutSchematic(order: Order, node: Node, o: Outcomes)
    requires node.finalizer && !node.deleting && node.status.phase != Upgrading && !C.AnnotationPending(node)
    requires node.spec.talosVersion != "" && Has(node.status.conditions, ConfigApplied, True) && C.Dirty(node)
    requires !o.factory.Schematic? || (o.factory.id != "" && !o.schematicPatch)
    ensures Plan(order, node, o) == []
  {
    hide CacheHit, UpgradePlan, NormalizeVersion, InstallerImage, CanonicalExtensions;
  }

  lemma MustAttempt(order: Order, n: Node, o: Outcomes)
    requires C.Attempts(order, n, o) && o.edit.None?
    ensures VersionPlan(order, n, o).done
  {
    C.FrozenVersionPlan(order, n, o);
  }

  // ----- Completion -----

  // The machine reports a version, and the one that was sent if that is on record.
  predicate Reports(node: Node, o: Outcomes)
  {
    && o.talosconfig == TcFound && o.dial && o.version.Some?
    && VersionFromImage(node.ann.lastUpgrade) in {"", o.version.value.tag}
  }

  // A pass over an upgrading node declares it Ready with the version the machine reports, and with
  // the extensions the spec lists, exactly when that is the version it was sent; otherwise it waits.
  lemma CompletionEndsIn(order: Order, l: Life, o: Outcomes, cut: nat)
    requires l.node.finalizer && !l.node.deleting && l.node.status.phase == Upgrading && cut > 0
    ensures var n, s := l.node, l.node.status;
            var upToDate := s.conditions[TalosVersionUpToDate := True];
            Next(order, l, Pass(o, cut)).node ==
            if !Reports(n, o) || !o.upgradedStatus then n
            else if n.spec.extensions == [] then
              n.(status := s.(phase := Ready, currentVersion := o.version.value.tag, conditions := upToDate))
            else
              n.(status := s.(phase := Ready, currentVersion := o.version.value.tag, conditions := upToDate[ExtensionsUpToDate := True],
                              installed := n.spec.extensions))
  {
    hide VersionFromImage, Apply, NodeAfter, After;
    var plan := Plan(order, l.node, o);
    NodeCons(l.node, FinalizerAdded, []);
    AfterIsNodeAfter(l, plan);
    assert |plan| <= 1 && Cut(plan, cut) == plan;
    if plan != [] {
      var done := UpgradedStatus(l.node, o.version.value.tag);
      assert plan == [StatusWritten(done)];
      NodeCons(l.node, StatusWritten(done), []);
      OneWrite(l.node, "", done);
    }
  }

  // An annotated upgrade that goes well: sent once, then Ready with its version, up to date with
  // it and with the extensions, and not pending any more.
  lemma UpgradeRunsToReady(order: Order, l: Life, o: Outcomes, cut: nat, o': Outcomes, cut': nat)
    requires l.node.finalizer && !l.node.deleting && l.node.status.phase != Upgrading && C.AnnotationPending(l.node)
    requires Newer(order, l.node.status, l.node.ann.upgrade) && Upgradable(o) && o.upgrade && o.lastUpgradePatch && |Plan(order, l.node, o)| <= cut
    requires o'.talosconfig == TcFound && o'.dial && o'.version.Some? && o'.version.value.tag == VersionFromImage(l.node.ann.upgrade)
    requires o'.upgradedStatus && cut' > 0
    ensures var l1 := Next(order, l, Pass(o, cut));
            var n := Next(order, l1, Pass(o', cut')).node;
            && UpgradeSent(l.node.ann.upgrade, FromAnnotation, true) in C.Events(order, l, Pass(o, cut))
            && l1.node.status.phase == Upgrading && Has(l1.node.status.conditions, TalosVersionUpToDate, False)
            && n.status.phase == Ready && n.status.currentVersion == VersionFromImage(l.node.ann.upgrade)
            && Has(n.status.conditions, TalosVersionUpToDate, True)
            && (n.spec.extensions != [] ==> Has(n.status.conditions, ExtensionsUpToDate, True) && n.status.installed == n.spec.extensions)
            && n.spec == l.node.spec && !C.AnnotationPending(n)
  {
    hide Next, Plan, VersionFromImage, IsDowngrade, C.Events;
    AnnotatedUpgradeEndsIn(order, l, o, cut, UpgradeSent(l.node.ann.upgrade, FromAnnotation, true));
    assert l.node.(finalizer := true) == l.node;
    CompletionEndsIn(order, Next(order, l, Pass(o, cut)), o', cut');
  }

  // ----- A change of extensions -----

  // With the right version on record, and a schematic cached for the extensions there were: an edit
  // of the extensions alone is rolled out, with the factory's schematic for them, exactly when it
  // is more than a change of order.
  lemma ExtensionEditIsRolledOutExactly(order: Order, l: Life, spec: NodeSpec, before: seq<string>, id: string, o: Outcomes, cut: nat)
    requires l.node.finalizer && !l.node.deleting && l.node.status.phase == Ready && Has(l.node.status.conditions, ConfigApplied, True)
    requires !C.AnnotationPending(l.node)
    requires l.node.ann.lastExtensions == CanonicalExtensions(before) && l.node.ann.schematic != ""
    requires PlainNames(before) && PlainNames(spec.extensions) && spec.extensions != []
    requires spec.talosVersion != "" && ':' !in spec.talosVersion && NormalizeVersion(spec.talosVersion) == l.node.status.currentVersion
    requires o.factory == Schematic(id) && id != "" && o.schematicPatch && o.edit.None? && Upgradable(o)
    requires |Plan(order, Next(order, l, EditSpec(spec)).node, o)| <= cut
    ensures var l1, image := Next(order, l, EditSpec(spec)), "factory.talos.dev/installer/" + id + ":" + l.node.status.currentVersion;
            UpgradeSent(image, FromSpec, o.upgrade) in C.Events(order, l1, Pass(o, cut)) <==> multiset(spec.extensions) != multiset(before)
  {
    hide Plan, VersionFromImage, CanonicalExtensions, PlainNames;
    var l1 := Next(order, l, EditSpec(spec));
    var image := "factory.talos.dev/installer/" + id + ":" + l.node.status.currentVersion;
    var e := UpgradeSent(image, FromSpec, o.upgrade);
    CanonicalKeyIsExact(before, spec.extensions);
    assert l1.node == l.node.(spec := spec, generation := l.node.generation + 1);
    NormalizeTwice(spec.talosVersion);
    TagIsReadBack("factory.talos.dev/installer/" + id, l.node.status.currentVersion);
    if multiset(spec.extensions) != multiset(before) {
      assert C.Attempts(order, l1.node, o);
      SpecUpgradeEndsIn(order, l1, o, cut, e);
    } else {
      assert V.Settled(l1.node);
      V.SettledPlan(order, l1.node, o);
    }
  }

  lemma NormalizeTwice(v: string)
    ensures NormalizeVersion(NormalizeVersion(v)) == NormalizeVersion(v)
  {
  }
}
